/** The gameplay settings table: the per-feature setting slots a client
    keeps (`_FeatureSettings`), initialised from the features' unset values,
    and the name-keyed list of settings reported for compatibility
    (`FeatureCompatibleSettingList`). */
module Features {
  import opened Base

  /** `ScriptVar_t`, by its value type (`ScriptVarType_t`); a custom value
      is identified by a number. */
  datatype ScriptVar = VBool(b: bool) | VInt(i: int) | VFloat(f: real) | VString(s: string) | VCustom(id: nat)

  /** `Feature`, with the fields the settings table uses. `getValueFct` is
      the optional host-side value hook. */
  datatype Feature = Feature(
    name: string,
    humanReadableName: string,
    unsetValue: ScriptVar,
    defaultValue: ScriptVar,
    serverSideOnly: bool,
    optionalForClient: bool,
    getValueFct: Option<ScriptVar -> ScriptVar>)

  /** A `Feature*` into the feature array, by its distance from the first
      element. */
  datatype FeaturePtr = FeaturePtr(offset: int)

  /** `_FeatureSettings`: one setting slot per entry of the feature array. */
  class FeatureSettings {
    const features: seq<Feature>
    const settings: array<ScriptVar>

    ghost predicate Valid()
      reads this
    {
      settings.Length == |features|
    }

    /** Every slot holds its feature's unset value. */
    ghost predicate AllUnset()
      reads this, settings
      requires Valid()
    {
      forall i :: 0 <= i < |features| ==> settings[i] == features[i].unsetValue
    }

    /** The constructor: every slot starts at its feature's unset value. */
    constructor (features: seq<Feature>)
      ensures this.features == features && Valid() && fresh(settings)
      ensures AllUnset()
    {
      this.features := features;
      var a := new ScriptVar[|features|](i => VBool(false));
      var i := 0;
      while i < |features|
        invariant 0 <= i <= |features| && a.Length == |features|
        invariant forall j :: 0 <= j < i ==> a[j] == features[j].unsetValue
        modifies a
      {
        a[i] := features[i].unsetValue;
        i := i + 1;
      }
      this.settings := a;
    }

    /** `operator[](Index)` for reading. */
    function Get(i: nat): ScriptVar
      reads this, settings
      requires Valid() && i < |features|
    {
      settings[i]
    }

    /** `operator[](Feature*)` for reading: the slot at the address's
        distance from the array start. */
    function GetAt(f: FeaturePtr): ScriptVar
      reads this, settings
      requires Valid() && 0 <= f.offset < |features|
    {
      settings[f.offset]
    }

    /** The two read operators address the same slot. */
    lemma SameSlot(i: nat)
      requires Valid() && i < |features|
      ensures GetAt(FeaturePtr(i)) == Get(i)
    {
    }

    /** Assignment through `operator[](Index)`: slot i changes, no other. */
    method Set(i: nat, v: ScriptVar)
      requires Valid() && i < |features|
      modifies settings
      ensures settings[..] == old(settings[..])[i := v]
    {
      settings[i] := v;
    }

    /** Assignment through `operator[](Feature*)`. */
    method SetAt(f: FeaturePtr, v: ScriptVar)
      requires Valid() && 0 <= f.offset < |features|
      modifies settings
      ensures settings[..] == old(settings[..])[f.offset := v]
    {
      Set(f.offset, v);
    }

    /** `hostGet`: the stored value, passed through the feature's value hook
        when it has one. */
    function HostGet(i: nat): (r: ScriptVar)
      reads this, settings
      requires Valid() && i < |features|
      ensures features[i].getValueFct.None? ==> r == settings[i]
      ensures features[i].getValueFct.Some? ==> r == features[i].getValueFct.value(settings[i])
    {
      var v := Get(i);
      if features[i].getValueFct.Some? then features[i].getValueFct.value(v) else v
    }

    /** `hostGet(Feature*)`. */
    function HostGetAt(f: FeaturePtr): (r: ScriptVar)
      reads this, settings
      requires Valid() && 0 <= f.offset < |features|
    {
      HostGet(f.offset)
    }

    /** `olderClientsSupportSetting`: an optional feature never excludes
        older clients; otherwise the host value must be the unset value. */
    predicate OlderClientsSupportSetting(f: FeaturePtr)
      reads this, settings
      requires Valid() && 0 <= f.offset < |features|
    {
      features[f.offset].optionalForClient || HostGetAt(f) == features[f.offset].unsetValue
    }

    /** Both halves of `olderClientsSupportSetting`. */
    lemma OlderClientsSupportMeaning(f: FeaturePtr)
      requires Valid() && 0 <= f.offset < |features|
      ensures features[f.offset].optionalForClient ==> OlderClientsSupportSetting(f)
      ensures !features[f.offset].optionalForClient ==>
        (OlderClientsSupportSetting(f) <==> HostGet(f.offset) == features[f.offset].unsetValue)
    {
    }

    /** Right after construction, every feature without a value hook is
        supported by older clients. */
    lemma FreshSettingsSupported(f: FeaturePtr)
      requires Valid() && AllUnset() && 0 <= f.offset < |features|
      requires features[f.offset].getValueFct.None?
      ensures OlderClientsSupportSetting(f)
    {
    }
  }

  // ---------------------------------------------------------------------
  // FeatureCompatibleSettingList

  /** `FeatureCompatibleSettingList::Feature::Type`. */
  datatype CompatType = Supported | JustUnknown | Incompatible

  /** `FeatureCompatibleSettingList::Feature`. */
  datatype CompatEntry = CompatEntry(name: string, humanName: string, value: ScriptVar, kind: CompatType)

  /** Every entry is stored under its own name. */
  predicate Keyed(m: map<string, CompatEntry>) {
    forall k :: k in m ==> m[k].name == k
  }

  /** The lookup of `find` on a list m: none when no entry has the name. */
  function FindIn(m: map<string, CompatEntry>, name: string): (r: Option<CompatEntry>)
    ensures r.None? <==> name !in m
    ensures r.Some? ==> r.value == m[name]
  {
    if name in m then Some(m[name]) else None
  }

  /** After storing f, looking f's name up finds f and every other name
      finds what it found before. */
  lemma FindAfterSet(m: map<string, CompatEntry>, f: CompatEntry, name: string)
    ensures FindIn(m[f.name := f], name) == if name == f.name then Some(f) else FindIn(m, name)
  {
  }

  /** Storing keeps every entry under its own name. */
  lemma SetKeepsKeyed(m: map<string, CompatEntry>, f: CompatEntry)
    requires Keyed(m)
    ensures Keyed(m[f.name := f])
  {
  }

  class FeatureCompatibleSettingList {
    var list: map<string, CompatEntry>

    /** Every entry is stored under its own name. */
    ghost predicate Valid()
      reads this
    {
      Keyed(list)
    }

    constructor ()
      ensures Valid()
      ensures list == map[]
    {
      list := map[];
    }

    /** `set(const Feature&)`: stores f under its name, replacing an entry
        of that name. */
    method Set(f: CompatEntry)
      requires Valid()
      modifies this
      ensures Valid()
      ensures list == old(list)[f.name := f]
    {
      SetKeepsKeyed(list, f);
      list := list[f.name := f];
    }

    /** `set(name, humanName, var, type)`: stores the entry with exactly
        those fields. */
    method SetFields(name: string, humanName: string, value: ScriptVar, kind: CompatType)
      requires Valid()
      modifies this
      ensures Valid()
      ensures list == old(list)[name := CompatEntry(name, humanName, value, kind)]
    {
      var f := CompatEntry(name, humanName, value, kind);
      Set(f);
    }

    /** `find`: the entry stored under name, or none. */
    function Find(name: string): (r: Option<CompatEntry>)
      reads this
      ensures r.None? <==> name !in list
      ensures r.Some? ==> r.value == list[name]
      ensures Valid() && r.Some? ==> r.value.name == name
    {
      FindIn(list, name)
    }

    /** `clear`: afterwards no name is found. */
    method Clear()
      modifies this
      ensures Valid()
      ensures list == map[]
      ensures forall name :: Find(name).None?
    {
      list := map[];
    }
  }
}
