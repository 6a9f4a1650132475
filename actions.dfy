/** The per-step mutation accumulator (`Proj_DoActionInfo`): what firing
    actions collect (`Proj_Action::applyTo`) and how the collected effects
    are carried out on the projectile (`Proj_DoActionInfo::execute`). Calls
    into the engine (explosions, terrain edits, injuries, spawning, sound)
    are recorded as `Effect`s in call order. */
module Actions {
  import opened Base
  import opened Content
  import opened Projectiles
  import opened Events

  /** An engine call made by an action, recorded rather than modelled. */
  datatype Effect =
    | BounceOff(coeff: real)
    | Explosion(pos: Vec, damage: int, shake: int, owner: int)
    | CarveHole(damage: int, pos: Vec, owner: int)
    | InjureWorm(worm: int, damage: int, owner: int)
    | InjureProjectiles(targets: set<Projectile>, damage: int)
    | PushWorm(worm: int, dir: Vec, dt: real)
    | SetWormVelocity(worm: int, v: Vec)
    | SetProjectilesVelocity(targets: set<Projectile>, v: Vec)
    | TransformWormVelocity(worm: int, m: Mat, d: Vec)
    | TransformProjectilesVelocity(targets: set<Projectile>, m: Mat, d: Vec)
    | MakeDirt(pos: Vec, owner: int)
    | MakeGreenDirt(pos: Vec, owner: int)
    | SpawnFrom(info: SpawnInfo, time: real)
    | PlaySample(sound: SoundId)

  /** The fields of `Proj_DoActionInfo` that the action switch sets. */
  datatype HitState = HitState(
    explode: bool, timer: bool, damage: int, shake: int, sound: Option<SoundId>,
    dirt: bool, grndirt: bool, deleteAfter: bool)

  /** The spawn requests of `Proj_DoActionInfo`. */
  datatype SpawnState = SpawnState(trailprojspawn: bool, spawnprojectiles: bool, otherSpawns: seq<SpawnInfo>)

  /** The own-speed and radius changes of `Proj_DoActionInfo`. */
  datatype MotionState = MotionState(
    overwriteOwnSpeed: Option<Vec>, changeOwnSpeed: Mat, diffOwnSpeed: Vec, changeRadius: IVec)

  /** All fields of `Proj_DoActionInfo` as one value. */
  datatype ActionState = ActionState(hit: HitState, spawns: SpawnState, motion: MotionState)

  /** The accumulator with nothing collected except the given timer flag,
      damage, shake and sound. */
  function Quiet(timer: bool, damage: int, shake: int, sound: Option<SoundId>): ActionState {
    ActionState(HitState(false, timer, damage, shake, sound, false, false, false),
                SpawnState(false, false, []), MotionState(None, Identity, Zero, IZero))
  }

  /** `Proj_DoActionInfo::hasAnyEffect`. Sound, shake, damage and the timer
      flag alone are no effect. */
  predicate HasAnyEffect(s: ActionState): (r: bool)
    ensures !r <==> s == Quiet(s.hit.timer, s.hit.damage, s.hit.shake, s.hit.sound)
  {
    s.hit.explode || s.hit.dirt || s.hit.grndirt
    || s.spawns.trailprojspawn || s.spawns.spawnprojectiles || |s.spawns.otherSpawns| > 0
    || s.motion.overwriteOwnSpeed.Some?
    || s.motion.changeOwnSpeed != Identity
    || s.motion.diffOwnSpeed != Zero
    || s.motion.changeRadius != IZero
    || s.hit.deleteAfter
  }

  // ---------------------------------------------------------------------
  // Proj_Action::applyTo

  /** The action types occurring in the chain of `additionalAction`s that
      starts at a. */
  function ChainKinds(a: Action): (r: set<ActionType>)
    ensures a.kind in r
    decreases a
  {
    if a.additional.None? then {a.kind} else {a.kind} + ChainKinds(a.additional.value)
  }

  /** The sum of the chain's `ChangeRadius`. */
  function ChainRadius(a: Action): IVec
    decreases a
  {
    if a.additional.None? then a.changeRadius else IAdd(a.changeRadius, ChainRadius(a.additional.value))
  }

  /** The sum of the chain's `DiffOwnSpeed`. */
  function ChainDiff(a: Action): Vec
    decreases a
  {
    if a.additional.None? then a.diffOwnSpeed else Add(a.diffOwnSpeed, ChainDiff(a.additional.value))
  }

  /** Applies the chain's `ChangeOwnSpeed` matrices to v one after another,
      the outer action's first. */
  function ChainTransform(a: Action, v: Vec): Vec
    decreases a
  {
    var w := Apply(a.changeOwnSpeed, v);
    if a.additional.None? then w else ChainTransform(a.additional.value, w)
  }

  /** There is a worm collision this step. */
  predicate WormCol(ev: EventInfo) { ev.colType.Some? && ev.colType.value.withWorm }

  /** There is a terrain or map-border collision this step. */
  predicate TerrainColl(ev: EventInfo) { ev.colType.Some? && !ev.colType.value.withWorm }

  /** The sound an action stores, if it has one. */
  function SoundOf(a: Action, s: Option<SoundId>): Option<SoundId> {
    if a.useSound && a.sound.Some? then a.sound else s
  }

  /** The projectile stands outside the map on both axes. */
  predicate OutsideCorner(pos: Vec, w: int, h: int) {
    (pos.x < 0.0 || pos.x > w as real) && (pos.y < 0.0 || pos.y > h as real)
  }

  /** The shared tail of the `Injure`, `Disappear`, `GoThrough` and `Nothing`
      cases: a map-border hit deletes a projectile that left the map on
      both axes; the worm is not pushed and a timer hit spawns nothing. */
  function PassThrough(a: Action, ev: EventInfo, pos: Vec, w: int, h: int, s: HitState)
    : (HitState, seq<Effect>, bool, bool)
  {
    var border := TerrainColl(ev) && ev.colType.value.colMask & PJC_MAPBORDER != 0;
    (s.(deleteAfter := s.deleteAfter || (border && OutsideCorner(pos, w, h))), [], false,
     a.projectiles && !ev.timerHit)
  }

  /** Whether an action of the given type asks for projectiles to be spawned:
      its `Projectiles` flag, except on a timer hit for the types whose timer
      case does nothing (`Bounce`, and `Injure`/`Disappear` away from a worm,
      `GoThrough`, `Nothing`). */
  predicate Spawns(a: Action, ev: EventInfo) {
    a.projectiles
    && !(ev.timerHit
         && (a.kind in {Bounce, GoThrough, Nothing} || (a.kind in {Injure, Disappear} && !WormCol(ev))))
  }

  /** Whether an action marks the projectile for deletion: a carve on a timer
      or terrain hit, `Disappear2`, an injuring worm hit, or a map-border hit
      of a pass-through type while the projectile is outside the map on both
      axes. */
  predicate Deletes(a: Action, ev: EventInfo, pos: Vec, w: int, h: int) {
    (a.kind == Carve && (ev.timerHit || TerrainColl(ev)))
    || a.kind == Disappear2
    || (a.kind == Injure && WormCol(ev))
    || (a.kind in {Injure, Disappear, GoThrough, Nothing} && !WormCol(ev) && TerrainColl(ev)
        && ev.colType.value.colMask & PJC_MAPBORDER != 0 && OutsideCorner(pos, w, h))
  }

  /** The switch of `applyTo` on the action type: new hit state, engine
      calls, whether the worm is pushed and whether projectiles are spawned. */
  function TypeCase(a: Action, ev: EventInfo, pos: Vec, owner: int, w: int, h: int, s: HitState)
    : (r: (HitState, seq<Effect>, bool, bool))
    ensures r.0.shake == if a.kind == Explode || (a.kind in {Dirt, GreenDirt} && ev.timerHit)
                         then (if a.shake > s.shake then a.shake else s.shake) else s.shake
    ensures r.0.deleteAfter <==> s.deleteAfter || Deletes(a, ev, pos, w, h)
    ensures r.3 <==> Spawns(a, ev)
    ensures r.0.timer <==> s.timer || (a.kind == Explode && ev.timerHit)
    ensures r.0.explode <==> s.explode || a.kind == Explode
    ensures r.0.dirt <==> s.dirt || a.kind == Dirt
    ensures r.0.grndirt <==> s.grndirt || a.kind == GreenDirt
  {
    match a.kind
      case Explode =>
        (s.(explode := true, damage := a.damage, timer := s.timer || ev.timerHit,
            shake := if a.shake > s.shake then a.shake else s.shake, sound := SoundOf(a, s.sound)),
         [], true, a.projectiles)
      case Bounce =>
        if ev.timerHit then (s, [], true, false)
        else (s, if a.bounceExplode > 0 then [BounceOff(a.bounceCoeff), Explosion(pos, a.bounceExplode, 0, owner)]
                 else [BounceOff(a.bounceCoeff)],
              false, a.projectiles)
      case Carve =>
        if ev.timerHit || TerrainColl(ev) then
          (s.(deleteAfter := true), [CarveHole(a.damage, pos, owner)], true, a.projectiles)
        else (s, [], true, a.projectiles)
      case Dirt =>
        (s.(dirt := true, shake := if ev.timerHit && a.shake > s.shake then a.shake else s.shake),
         [], true, a.projectiles)
      case GreenDirt =>
        (s.(grndirt := true, shake := if ev.timerHit && a.shake > s.shake then a.shake else s.shake),
         [], true, a.projectiles)
      case Disappear2 => (s.(deleteAfter := true), [], true, a.projectiles)
      case Injure =>
        if WormCol(ev) then
          (s.(deleteAfter := true), [InjureWorm(ev.colType.value.wormId, a.damage, owner)], true, a.projectiles)
        else PassThrough(a, ev, pos, w, h, s)
      case Disappear =>
        if WormCol(ev) then (s, [], true, a.projectiles) else PassThrough(a, ev, pos, w, h, s)
      case GoThrough => PassThrough(a, ev, pos, w, h, s)
      case Nothing => PassThrough(a, ev, pos, w, h, s)
      case InjureProj => (s, [InjureProjectiles(ev.projCols, a.damage)], true, a.projectiles)
      case PlaySound => (s.(sound := SoundOf(a, s.sound)), [], true, a.projectiles)
  }

  /** The spawn request an action adds when spawning is on: its own spawn
      descriptor if it names one, otherwise the descriptor's general spawn. */
  function SpawnAfter(a: Action, s: SpawnState, spawn: bool): (r: SpawnState)
    ensures s.otherSpawns <= r.otherSpawns
    ensures s.spawnprojectiles ==> r.spawnprojectiles
    ensures r.trailprojspawn == s.trailprojspawn
    ensures spawn && a.spawn.IsSet() ==> r.otherSpawns == s.otherSpawns + [a.spawn]
    ensures spawn && !a.spawn.IsSet() ==> r.spawnprojectiles && r.otherSpawns == s.otherSpawns
    ensures !spawn ==> r == s
  {
    if !spawn then s
    else if a.spawn.IsSet() then s.(otherSpawns := s.otherSpawns + [a.spawn])
    else s.(spawnprojectiles := true)
  }

  /** The own-speed and radius bookkeeping of `applyTo`. */
  function MotionAfter(a: Action, m: MotionState): MotionState {
    MotionState(if a.useOverwriteOwnSpeed then Some(a.overwriteOwnSpeed) else m.overwriteOwnSpeed,
                Mul(a.changeOwnSpeed, m.changeOwnSpeed),
                Add(m.diffOwnSpeed, a.diffOwnSpeed),
                IAdd(m.changeRadius, a.changeRadius))
  }

  /** The engine calls that change the velocity of what was hit. */
  function TargetSpeedEffects(a: Action, ev: EventInfo): seq<Effect> {
    (if a.useOverwriteTargetSpeed then
       (if WormCol(ev) then [SetWormVelocity(ev.colType.value.wormId, a.overwriteTargetSpeed)] else [])
       + [SetProjectilesVelocity(ev.projCols, a.overwriteTargetSpeed)]
     else [])
    + (if a.changeTargetSpeed != Identity || a.diffTargetSpeed != Zero then
         (if WormCol(ev) then [TransformWormVelocity(ev.colType.value.wormId, a.changeTargetSpeed, a.diffTargetSpeed)] else [])
         + [TransformProjectilesVelocity(ev.projCols, a.changeTargetSpeed, a.diffTargetSpeed)]
       else [])
  }

  /** The engine calls of one action of the chain, without its additional
      actions. */
  function OwnEffects(e1: seq<Effect>, push: bool, a: Action, ev: EventInfo, vel: Vec): seq<Effect> {
    (if push && WormCol(ev) then e1 + [PushWorm(ev.colType.value.wormId, vel, ev.dt)] else e1)
    + TargetSpeedEffects(a, ev)
  }

  /** One action of the chain, without its additional actions. */
  function ApplyOne(a: Action, ev: EventInfo, pos: Vec, vel: Vec, owner: int, w: int, h: int, s: ActionState)
    : (ActionState, seq<Effect>)
  {
    var (h1, e1, push, spawn) := TypeCase(a, ev, pos, owner, w, h, s.hit);
    (ActionState(h1, SpawnAfter(a, s.spawns, spawn), MotionAfter(a, s.motion)), OwnEffects(e1, push, a, ev, vel))
  }

  /** The screen shake after the chain starting at a, from shake s0: each
      `Explode`, and a `Dirt`/`GreenDirt` hit by the timer, raises it to the
      action's own shake; only the first action sees the timer hit. */
  function ChainShake(a: Action, timerHit: bool, s0: int): (r: int)
    ensures r >= s0
    ensures a.kind == Explode ==> r >= a.shake
    decreases a
  {
    var s1 := if a.kind == Explode || (a.kind in {Dirt, GreenDirt} && timerHit) then
                (if a.shake > s0 then a.shake else s0) else s0;
    if a.additional.None? then s1 else ChainShake(a.additional.value, false, s1)
  }

  /** Some action of the chain marks the projectile for deletion. */
  predicate ChainDeletes(a: Action, ev: EventInfo, pos: Vec, w: int, h: int)
    decreases a
  {
    Deletes(a, ev, pos, w, h)
    || (a.additional.Some? && ChainDeletes(a.additional.value, ev.(timerHit := false), pos, w, h))
  }

  /** The spawn descriptor one action names, if it spawns and names one. */
  function OwnSpawn(a: Action, ev: EventInfo): seq<SpawnInfo> {
    if Spawns(a, ev) && a.spawn.IsSet() then [a.spawn] else []
  }

  /** The spawn descriptors the chain's spawning actions name, in chain
      order. */
  function ChainSpawns(a: Action, ev: EventInfo): seq<SpawnInfo>
    decreases a
  {
    OwnSpawn(a, ev)
    + (if a.additional.Some? then ChainSpawns(a.additional.value, ev.(timerHit := false)) else [])
  }

  /** Some spawning action of the chain names no spawn descriptor of its
      own, so the projectile type's general spawn is used. */
  predicate ChainGeneral(a: Action, ev: EventInfo)
    decreases a
  {
    (Spawns(a, ev) && !a.spawn.IsSet())
    || (a.additional.Some? && ChainGeneral(a.additional.value, ev.(timerHit := false)))
  }

  /** `Proj_Action::applyTo` (without the `HeadingTo*` steering) for a
      projectile at pos with velocity vel and owner, on a w x h map: the new
      accumulator and the engine calls made. */
  function ApplySpec(a: Action, ev: EventInfo, pos: Vec, vel: Vec, owner: int, w: int, h: int, s: ActionState)
    : (r: (ActionState, seq<Effect>))
    ensures r.0.hit.shake >= s.hit.shake
    ensures s.hit.deleteAfter ==> r.0.hit.deleteAfter
    ensures r.0.hit.timer <==> s.hit.timer || (a.kind == Explode && ev.timerHit)
    ensures r.0.hit.explode <==> s.hit.explode || Explode in ChainKinds(a)
    ensures r.0.hit.dirt <==> s.hit.dirt || Dirt in ChainKinds(a)
    ensures r.0.hit.grndirt <==> s.hit.grndirt || GreenDirt in ChainKinds(a)
    ensures r.0.motion.changeRadius == IAdd(s.motion.changeRadius, ChainRadius(a))
    ensures r.0.motion.diffOwnSpeed == Add(s.motion.diffOwnSpeed, ChainDiff(a))
    ensures s.spawns.otherSpawns <= r.0.spawns.otherSpawns
    ensures s.spawns.spawnprojectiles ==> r.0.spawns.spawnprojectiles
    ensures r.0.spawns.trailprojspawn == s.spawns.trailprojspawn
    decreases a
  {
    var (s1, e) := ApplyOne(a, ev, pos, vel, owner, w, h, s);
    if a.additional.None? then (s1, e)
    else
      var r := ApplySpec(a.additional.value, ev.(timerHit := false), pos, vel, owner, w, h, s1);
      (r.0, e + r.1)
  }

  /** The screen shake after the chain is the maximum `ChainShake` takes. */
  lemma {:induction false} ApplyShake(a: Action, ev: EventInfo, pos: Vec, vel: Vec, owner: int,
                                      w: int, h: int, s: ActionState)
    ensures ApplySpec(a, ev, pos, vel, owner, w, h, s).0.hit.shake == ChainShake(a, ev.timerHit, s.hit.shake)
    decreases a
  {
    if a.additional.Some? {
      var s1 := ApplyOne(a, ev, pos, vel, owner, w, h, s).0;
      ApplyShake(a.additional.value, ev.(timerHit := false), pos, vel, owner, w, h, s1);
    }
  }

  /** The projectile is marked for deletion exactly when it already was or
      some action of the chain deletes it. */
  lemma {:induction false} ApplyDeletes(a: Action, ev: EventInfo, pos: Vec, vel: Vec, owner: int,
                                        w: int, h: int, s: ActionState)
    ensures ApplySpec(a, ev, pos, vel, owner, w, h, s).0.hit.deleteAfter
            <==> s.hit.deleteAfter || ChainDeletes(a, ev, pos, w, h)
    decreases a
  {
    if a.additional.Some? {
      var s1 := ApplyOne(a, ev, pos, vel, owner, w, h, s).0;
      ApplyDeletes(a.additional.value, ev.(timerHit := false), pos, vel, owner, w, h, s1);
    }
  }

  /** The chain appends exactly the spawn descriptors of its spawning
      actions, in chain order. */
  lemma {:induction false} ApplySpawns(a: Action, ev: EventInfo, pos: Vec, vel: Vec, owner: int,
                                       w: int, h: int, s: ActionState)
    ensures ApplySpec(a, ev, pos, vel, owner, w, h, s).0.spawns.otherSpawns
            == s.spawns.otherSpawns + ChainSpawns(a, ev)
    decreases a
  {
    var s1 := ApplyOne(a, ev, pos, vel, owner, w, h, s).0;
    if a.additional.Some? {
      ApplySpawns(a.additional.value, ev.(timerHit := false), pos, vel, owner, w, h, s1);
    }
    SpawnsStep(a, ev, pos, vel, owner, w, h, s);
  }

  /** The inductive step of `ApplySpawns`: given the rest of the chain
      appends its descriptors, the whole chain appends the first action's
      and then those. */
  lemma SpawnsStep(a: Action, ev: EventInfo, pos: Vec, vel: Vec, owner: int, w: int, h: int, s: ActionState)
    requires a.additional.Some? ==>
               var s1 := ApplyOne(a, ev, pos, vel, owner, w, h, s).0;
               ApplySpec(a.additional.value, ev.(timerHit := false), pos, vel, owner, w, h, s1).0.spawns.otherSpawns
               == s1.spawns.otherSpawns + ChainSpawns(a.additional.value, ev.(timerHit := false))
    ensures ApplySpec(a, ev, pos, vel, owner, w, h, s).0.spawns.otherSpawns
            == s.spawns.otherSpawns + ChainSpawns(a, ev)
  {
    OneSpawn(a, ev, pos, vel, owner, w, h, s);
    ApplyStep(a, ev, pos, vel, owner, w, h, s);
    var own := OwnSpawn(a, ev);
    var tail := if a.additional.Some? then ChainSpawns(a.additional.value, ev.(timerHit := false)) else [];
    var m := ApplyOne(a, ev, pos, vel, owner, w, h, s).0.spawns.otherSpawns;
    var f := ApplySpec(a, ev, pos, vel, owner, w, h, s).0.spawns.otherSpawns;
    assert f == m + tail;
    Rebracket(f, m, s.spawns.otherSpawns, own, tail);
  }

  lemma Rebracket(f: seq<SpawnInfo>, m: seq<SpawnInfo>, x: seq<SpawnInfo>, own: seq<SpawnInfo>, tail: seq<SpawnInfo>)
    requires m == x + own && f == m + tail
    ensures f == x + (own + tail)
  {
  }

  /** The accumulator after a chain is that of its first action followed by
      the rest of the chain, which no longer sees the timer hit. */
  lemma ApplyStep(a: Action, ev: EventInfo, pos: Vec, vel: Vec, owner: int, w: int, h: int, s: ActionState)
    ensures a.additional.None? ==>
              ApplySpec(a, ev, pos, vel, owner, w, h, s).0 == ApplyOne(a, ev, pos, vel, owner, w, h, s).0
    ensures a.additional.Some? ==>
              ApplySpec(a, ev, pos, vel, owner, w, h, s).0
              == ApplySpec(a.additional.value, ev.(timerHit := false), pos, vel, owner, w, h,
                           ApplyOne(a, ev, pos, vel, owner, w, h, s).0).0
  {
  }

  /** One action appends its own spawn descriptor, if any. */
  lemma OneSpawn(a: Action, ev: EventInfo, pos: Vec, vel: Vec, owner: int, w: int, h: int, s: ActionState)
    ensures ApplyOne(a, ev, pos, vel, owner, w, h, s).0.spawns.otherSpawns
            == s.spawns.otherSpawns + OwnSpawn(a, ev)
  {
    var t := TypeCase(a, ev, pos, owner, w, h, s.hit);
    assert t.3 == Spawns(a, ev);
  }

  /** The general spawn is requested exactly when it already was or some
      spawning action of the chain names no descriptor of its own. */
  lemma {:induction false} ApplyGeneral(a: Action, ev: EventInfo, pos: Vec, vel: Vec, owner: int,
                                        w: int, h: int, s: ActionState)
    ensures ApplySpec(a, ev, pos, vel, owner, w, h, s).0.spawns.spawnprojectiles
            <==> s.spawns.spawnprojectiles || ChainGeneral(a, ev)
    decreases a
  {
    if a.additional.Some? {
      var s1 := ApplyOne(a, ev, pos, vel, owner, w, h, s).0;
      ApplyGeneral(a.additional.value, ev.(timerHit := false), pos, vel, owner, w, h, s1);
    }
  }

  /** The accumulated speed matrix transforms a velocity as the earlier
      matrix followed by each action's matrix along the chain. */
  lemma {:induction false} ApplyChangeOwnSpeed(a: Action, ev: EventInfo, pos: Vec, vel: Vec, owner: int,
                                               w: int, h: int, s: ActionState, v: Vec)
    ensures Apply(ApplySpec(a, ev, pos, vel, owner, w, h, s).0.motion.changeOwnSpeed, v)
         == ChainTransform(a, Apply(s.motion.changeOwnSpeed, v))
    decreases a
  {
    MulApply(a.changeOwnSpeed, s.motion.changeOwnSpeed, v);
    if a.additional.Some? {
      var s1 := ApplyOne(a, ev, pos, vel, owner, w, h, s).0;
      ApplyChangeOwnSpeed(a.additional.value, ev.(timerHit := false), pos, vel, owner, w, h, s1, v);
    }
  }

  /** A timer hit suppresses the spawn of a lone bouncing or
      pass-through action. */
  lemma TimerHitSuppressesSpawn(a: Action, ev: EventInfo, pos: Vec, vel: Vec, owner: int, w: int, h: int, s: ActionState)
    requires a.additional.None? && ev.timerHit && a.kind in {Bounce, GoThrough, Nothing}
    ensures ApplySpec(a, ev, pos, vel, owner, w, h, s).0.spawns == s.spawns
  {
  }

  /** A lone action whose `Projectiles` flag is set and that is not
      suppressed by a timer hit records its spawn. */
  lemma SpawnRecorded(a: Action, ev: EventInfo, pos: Vec, vel: Vec, owner: int, w: int, h: int, s: ActionState)
    requires a.additional.None? && a.projectiles && !ev.timerHit
    ensures var r := ApplySpec(a, ev, pos, vel, owner, w, h, s).0;
      if a.spawn.IsSet() then r.spawns.otherSpawns == s.spawns.otherSpawns + [a.spawn]
      else r.spawns.spawnprojectiles
  {
    var (h1, e1, push, spawn) := TypeCase(a, ev, pos, owner, w, h, s.hit);
    assert spawn;
  }

  /** A worm hit pushes the worm unless the action bounces or passes
      through. */
  lemma WormPushed(a: Action, ev: EventInfo, pos: Vec, vel: Vec, owner: int, w: int, h: int, s: ActionState)
    requires WormCol(ev) && a.kind !in {Bounce, GoThrough, Nothing}
    ensures PushWorm(ev.colType.value.wormId, vel, ev.dt) in ApplySpec(a, ev, pos, vel, owner, w, h, s).1
  {
    var (h1, e1, push, spawn) := TypeCase(a, ev, pos, owner, w, h, s.hit);
    assert push;
    var e := OwnEffects(e1, push, a, ev, vel);
    assert e[|e1|] == PushWorm(ev.colType.value.wormId, vel, ev.dt);
    if a.additional.Some? {
      var r := ApplySpec(a, ev, pos, vel, owner, w, h, s);
      assert r.1[|e1|] == e[|e1|];
    }
  }

  /** An explosion or dirt action anywhere in the chain leaves an effect,
      so the fallback event no longer fires. */
  lemma ImpactHasEffect(a: Action, ev: EventInfo, pos: Vec, vel: Vec, owner: int, w: int, h: int, s: ActionState)
    requires Explode in ChainKinds(a) || Dirt in ChainKinds(a) || GreenDirt in ChainKinds(a)
    ensures HasAnyEffect(ApplySpec(a, ev, pos, vel, owner, w, h, s).0)
  {
  }

  // ---------------------------------------------------------------------
  // The accumulator object

  class DoActionInfo {
    var explode: bool
    var timer: bool
    var damage: int
    var shake: int
    var sound: Option<SoundId>
    var dirt: bool
    var grndirt: bool
    var trailprojspawn: bool
    var spawnprojectiles: bool
    var otherSpawns: seq<SpawnInfo>
    var deleteAfter: bool
    var overwriteOwnSpeed: Option<Vec>
    var changeOwnSpeed: Mat
    var diffOwnSpeed: Vec
    var changeRadius: IVec

    /** An accumulator with nothing collected. */
    constructor ()
      ensures State() == Quiet(false, -1, 0, None)
      ensures !HasAnyEffect(State()) && !timer && sound.None? && shake == 0
    {
      explode, timer, damage, shake, sound := false, false, -1, 0, None;
      dirt, grndirt, trailprojspawn, spawnprojectiles := false, false, false, false;
      otherSpawns, deleteAfter := [], false;
      overwriteOwnSpeed, changeOwnSpeed, diffOwnSpeed, changeRadius := None, Identity, Zero, IZero;
    }

    function HitOf(): HitState
      reads this
    {
      HitState(explode, timer, damage, shake, sound, dirt, grndirt, deleteAfter)
    }

    function State(): ActionState
      reads this
    {
      ActionState(HitOf(), SpawnState(trailprojspawn, spawnprojectiles, otherSpawns),
                  MotionState(overwriteOwnSpeed, changeOwnSpeed, diffOwnSpeed, changeRadius))
    }

    /** `Proj_FallbackEvent::checkEvent`: nothing has been collected. */
    predicate Fallback(): (r: bool)
      reads this
      ensures r <==> !explode && !dirt && !grndirt && !deleteAfter
                     && !trailprojspawn && !spawnprojectiles && otherSpawns == []
                     && overwriteOwnSpeed.None? && changeOwnSpeed == Identity && diffOwnSpeed == Zero
                     && changeRadius == IZero
    {
      !HasAnyEffect(State())
    }

    /** The pass-through tail of `applyTo`'s switch. */
    method PassThroughCase(a: Action, ev: EventInfo, prj: Projectile, w: int, h: int)
      returns (push: bool, spawn: bool)
      modifies this`deleteAfter
      ensures (HitOf(), [], push, spawn) == PassThrough(a, ev, prj.position, w, h, old(HitOf()))
    {
      if ev.colType.Some? && !ev.colType.value.withWorm && ev.colType.value.colMask & PJC_MAPBORDER != 0 {
        if (prj.position.x < 0.0 || prj.position.x > w as real)
           && (prj.position.y < 0.0 || prj.position.y > h as real) {
          deleteAfter := true;
        }
      }
      push := false;
      spawn := a.projectiles && !ev.timerHit;
    }

    /** The switch of `applyTo`. */
    method ApplyType(a: Action, ev: EventInfo, prj: Projectile, w: int, h: int)
      returns (effects: seq<Effect>, push: bool, spawn: bool)
      modifies this`explode, this`timer, this`damage, this`shake, this`sound
      modifies this`dirt, this`grndirt, this`deleteAfter
      ensures (HitOf(), effects, push, spawn) == TypeCase(a, ev, prj.position, prj.owner, w, h, old(HitOf()))
    {
      if a.kind.Explode? || a.kind.Bounce? || a.kind.Carve? || a.kind.Dirt? || a.kind.GreenDirt? {
        effects, push, spawn := ApplyImpact(a, ev, prj, w, h);
      } else {
        effects, push, spawn := ApplyContact(a, ev, prj, w, h);
      }
    }

    /** The cases of `applyTo`'s switch that explode, bounce, carve or
        leave dirt. */
    method ApplyImpact(a: Action, ev: EventInfo, prj: Projectile, w: int, h: int)
      returns (effects: seq<Effect>, push: bool, spawn: bool)
      requires a.kind.Explode? || a.kind.Bounce? || a.kind.Carve? || a.kind.Dirt? || a.kind.GreenDirt?
      modifies this`explode, this`timer, this`damage, this`shake, this`sound
      modifies this`dirt, this`grndirt, this`deleteAfter
      ensures (HitOf(), effects, push, spawn) == TypeCase(a, ev, prj.position, prj.owner, w, h, old(HitOf()))
    {
      push, spawn, effects := true, a.projectiles, [];
      match a.kind {
        case Explode =>
          explode := true;
          damage := a.damage;
          if ev.timerHit {
            timer := true;
          }
          if a.shake > shake {
            shake := a.shake;
          }
          if a.useSound && a.sound.Some? {
            sound := a.sound;
          }
        case Bounce =>
          if ev.timerHit {
            spawn := false;
          } else {
            push := false;
            if a.bounceExplode > 0 {
              effects := [BounceOff(a.bounceCoeff), Explosion(prj.position, a.bounceExplode, 0, prj.owner)];
            } else {
              effects := [BounceOff(a.bounceCoeff)];
            }
          }
        case Carve =>
          if ev.timerHit || (ev.colType.Some? && !ev.colType.value.withWorm) {
            effects := [CarveHole(a.damage, prj.position, prj.owner)];
            deleteAfter := true;
          }
        case Dirt =>
          dirt := true;
          if ev.timerHit && a.shake > shake {
            shake := a.shake;
          }
        case GreenDirt =>
          grndirt := true;
          if ev.timerHit && a.shake > shake {
            shake := a.shake;
          }
        case _ =>
          assert false;
      }
    }

    /** The remaining cases of `applyTo`'s switch. */
    method ApplyContact(a: Action, ev: EventInfo, prj: Projectile, w: int, h: int)
      returns (effects: seq<Effect>, push: bool, spawn: bool)
      requires !(a.kind.Explode? || a.kind.Bounce? || a.kind.Carve? || a.kind.Dirt? || a.kind.GreenDirt?)
      modifies this`explode, this`timer, this`damage, this`shake, this`sound
      modifies this`dirt, this`grndirt, this`deleteAfter
      ensures (HitOf(), effects, push, spawn) == TypeCase(a, ev, prj.position, prj.owner, w, h, old(HitOf()))
    {
      push, spawn, effects := true, a.projectiles, [];
      match a.kind {
        case Disappear2 =>
          deleteAfter := true;
        case Injure =>
          if ev.colType.Some? && ev.colType.value.withWorm {
            deleteAfter := true;
            effects := [InjureWorm(ev.colType.value.wormId, a.damage, prj.owner)];
          } else {
            push, spawn := PassThroughCase(a, ev, prj, w, h);
          }
        case Disappear =>
          if !(ev.colType.Some? && ev.colType.value.withWorm) {
            push, spawn := PassThroughCase(a, ev, prj, w, h);
          }
        case GoThrough =>
          push, spawn := PassThroughCase(a, ev, prj, w, h);
        case Nothing =>
          push, spawn := PassThroughCase(a, ev, prj, w, h);
        case InjureProj =>
          effects := [InjureProjectiles(ev.projCols, a.damage)];
        case PlaySound =>
          if a.useSound && a.sound.Some? {
            sound := a.sound;
          }
        case _ =>
          assert false;
      }
    }

    function SpawnsOf(): SpawnState
      reads this
    {
      SpawnState(trailprojspawn, spawnprojectiles, otherSpawns)
    }

    function MotionOf(): MotionState
      reads this
    {
      MotionState(overwriteOwnSpeed, changeOwnSpeed, diffOwnSpeed, changeRadius)
    }

    /** The spawn, own-speed and radius bookkeeping after `applyTo`'s switch. */
    method Bookkeep(a: Action, spawn: bool)
      modifies this`spawnprojectiles, this`otherSpawns, this`overwriteOwnSpeed
      modifies this`changeOwnSpeed, this`diffOwnSpeed, this`changeRadius
      ensures SpawnsOf() == SpawnAfter(a, old(SpawnsOf()), spawn)
      ensures MotionOf() == MotionAfter(a, old(MotionOf()))
    {
      if spawn {
        if a.spawn.IsSet() {
          otherSpawns := otherSpawns + [a.spawn];
        } else {
          spawnprojectiles := true;
        }
      }
      if a.useOverwriteOwnSpeed {
        overwriteOwnSpeed := Some(a.overwriteOwnSpeed);
      }
      changeOwnSpeed := Mul(a.changeOwnSpeed, changeOwnSpeed);
      diffOwnSpeed := Add(diffOwnSpeed, a.diffOwnSpeed);
      changeRadius := IAdd(changeRadius, a.changeRadius);
    }

    /** `Proj_Action::applyTo`: collects action a (and its additional
        actions, with the timer flag cleared) into this accumulator. */
    method ApplyTo(a: Action, ev: EventInfo, prj: Projectile, w: int, h: int) returns (effects: seq<Effect>)
      modifies this
      ensures (State(), effects) == ApplySpec(a, ev, prj.position, prj.velocity, prj.owner, w, h, old(State()))
      decreases a
    {
      effects := ApplyAction(a, ev, prj, w, h);
      if a.additional.Some? {
        var more := ApplyTo(a.additional.value, ev.(timerHit := false), prj, w, h);
        effects := effects + more;
      }
    }

    /** `applyTo` for a alone, before its additional action. */
    method ApplyAction(a: Action, ev: EventInfo, prj: Projectile, w: int, h: int) returns (effects: seq<Effect>)
      modifies this
      ensures (State(), effects) == ApplyOne(a, ev, prj.position, prj.velocity, prj.owner, w, h, old(State()))
    {
      var e1, push, spawn := ApplyType(a, ev, prj, w, h);
      Bookkeep(a, spawn);
      if push && ev.colType.Some? && ev.colType.value.withWorm {
        e1 := e1 + [PushWorm(ev.colType.value.wormId, prj.velocity, ev.dt)];
      }
      effects := e1 + TargetSpeedEffects(a, ev);
    }

    /** The explosion and dirt part of `execute`. */
    method ExplodeStep(prj: Projectile) returns (effects: seq<Effect>)
      modifies this`deleteAfter
      ensures effects == ExplodeEffects(old(HitOf()), prj.desc, prj.position, prj.owner)
      ensures deleteAfter == (old(deleteAfter) || explode || dirt || grndirt)
    {
      effects := [];
      if explode {
        if !timer {
          if damage != -1 {
            effects := effects + [Explosion(prj.position, damage, shake, prj.owner)];
          }
        } else {
          var d := if prj.desc.plyHit.kind == Explode then prj.desc.plyHit.damage else prj.desc.timer.damage;
          if d != -1 {
            effects := effects + [Explosion(prj.position, d, shake, prj.owner)];
          }
        }
        deleteAfter := true;
      }
      if dirt {
        effects := effects + [MakeDirt(prj.position, prj.owner)];
        deleteAfter := true;
      }
      if grndirt {
        effects := effects + [MakeGreenDirt(prj.position, prj.owner)];
        deleteAfter := true;
      }
    }

    /** The velocity and radius part of `execute`. */
    method MoveStep(prj: Projectile)
      modifies prj`velocity, prj`radius
      ensures prj.radius == NewRadius(MotionOf(), old(prj.radius))
      ensures prj.velocity == NewVelocity(MotionOf(), old(prj.velocity))
    {
      if overwriteOwnSpeed.Some? {
        prj.velocity := overwriteOwnSpeed.value;
      }
      prj.velocity := Apply(changeOwnSpeed, prj.velocity);
      prj.velocity := Add(prj.velocity, diffOwnSpeed);
      prj.radius := IAdd(prj.radius, changeRadius);
      if prj.radius.x < 0 {
        prj.radius := prj.radius.(x := 0);
      }
      if prj.radius.y < 0 {
        prj.radius := prj.radius.(y := 0);
      }
    }

    /** The spawning part of `execute`, after the calls in prefix. */
    method SpawnStep(prj: Projectile, now: real, prefix: seq<Effect>) returns (effects: seq<Effect>)
      ensures effects == AppendSpawns(MainSpawns(prefix, SpawnsOf(), prj.desc, prj.lastSimulationTime, now),
                                      otherSpawns, now)
    {
      effects := prefix;
      if trailprojspawn {
        effects := effects + [SpawnFrom(prj.desc.trail, prj.lastSimulationTime)];
      }
      if spawnprojectiles {
        effects := effects + [SpawnFrom(prj.desc.generalSpawn, now)];
      }
      ghost var before := effects;
      var i := 0;
      while i < |otherSpawns|
        invariant 0 <= i <= |otherSpawns|
        invariant effects == AppendSpawns(before, otherSpawns[..i], now)
      {
        assert otherSpawns[..i + 1][..i] == otherSpawns[..i];
        effects := effects + [SpawnFrom(otherSpawns[i], now)];
        i := i + 1;
      }
      assert otherSpawns[..i] == otherSpawns;
    }

    /** `Proj_DoActionInfo::execute`: carries out the collected effects on
        prj at simulation time now. */
    method Execute(prj: Projectile, now: real) returns (effects: seq<Effect>)
      modifies this`deleteAfter, prj`velocity, prj`radius, prj`used
      ensures Outcome(deleteAfter, prj.velocity, prj.radius, effects)
           == ExecuteSpec(old(State()), prj.desc, prj.position, old(prj.velocity), old(prj.radius),
                          prj.owner, prj.lastSimulationTime, now)
      ensures prj.used == (old(prj.used) && !deleteAfter)
    {
      ghost var s0, v0, r0 := State(), prj.velocity, prj.radius;
      effects := Perform(prj, now);
      ghost var o := ExecuteSpec(s0, prj.desc, prj.position, v0, r0, prj.owner, prj.lastSimulationTime, now);
      assert effects == o.effects && prj.velocity == o.velocity && prj.radius == o.radius;
      Reap(prj);
    }

    /** Everything `execute` does before its junk check. */
    method Perform(prj: Projectile, now: real) returns (effects: seq<Effect>)
      modifies this`deleteAfter, prj`velocity, prj`radius
      ensures effects == ExecEffects(old(State()), prj.desc, prj.position, prj.owner, prj.lastSimulationTime, now)
      ensures deleteAfter == (old(deleteAfter) || explode || dirt || grndirt)
      ensures prj.radius == NewRadius(MotionOf(), old(prj.radius))
      ensures prj.velocity == NewVelocity(MotionOf(), old(prj.velocity))
    {
      ghost var s0 := State();
      effects := ExplodeStep(prj);
      assert SpawnsOf() == s0.spawns && MotionOf() == s0.motion;
      MoveStep(prj);
      effects := SpawnStep(prj, now, effects);
      assert effects == AppendSpawns(MainSpawns(ExplodeEffects(s0.hit, prj.desc, prj.position, prj.owner),
                                                s0.spawns, prj.desc, prj.lastSimulationTime, now),
                                     s0.spawns.otherSpawns, now);
      if sound.Some? {
        effects := effects + [PlaySample(sound.value)];
      }
    }

    /** The end of `execute`: a junk projectile is deleted, and a deleted
        projectile is marked unused. */
    method Reap(prj: Projectile)
      modifies this`deleteAfter, prj`used
      ensures deleteAfter == (old(deleteAfter) || Junk(prj.desc))
      ensures prj.used == (old(prj.used) && !deleteAfter)
    {
      var any := HasAnyAction(prj.desc);
      if !any {
        if !prj.desc.animating || (prj.desc.animating && (prj.desc.animType != AnimOnce || !prj.desc.hasImage)) {
          deleteAfter := true;
        }
      }
      if deleteAfter {
        prj.used := false;
      }
    }
  }

  // ---------------------------------------------------------------------
  // Proj_DoActionInfo::execute

  /** The outcome of `execute`: deletion flag, new velocity and radius and
      the engine calls made. */
  datatype Outcome = Outcome(deleteAfter: bool, velocity: Vec, radius: IVec, effects: seq<Effect>)

  /** Some event of the descriptor has an action. */
  predicate AnyAction(desc: ProjDesc) {
    desc.hitHasAction || desc.plyHitHasAction || desc.timerHasAction
    || exists i :: 0 <= i < |desc.actionsHaveAction| && desc.actionsHaveAction[i]
  }

  /** A projectile that no event and no finite animation will ever remove. */
  predicate Junk(desc: ProjDesc) {
    !AnyAction(desc) && (!desc.animating || desc.animType != AnimOnce || !desc.hasImage)
  }

  /** The action test of `execute`'s junk check, stopping at the first
      action found. */
  method HasAnyAction(desc: ProjDesc) returns (any: bool)
    ensures any <==> AnyAction(desc)
  {
    any := desc.hitHasAction || desc.plyHitHasAction || desc.timerHasAction;
    var i := 0;
    while i < |desc.actionsHaveAction|
      invariant 0 <= i <= |desc.actionsHaveAction|
      invariant any ==> AnyAction(desc)
      invariant !any ==> !(desc.hitHasAction || desc.plyHitHasAction || desc.timerHasAction)
                         && forall j :: 0 <= j < i ==> !desc.actionsHaveAction[j]
    {
      if any {
        break;
      }
      any := any || desc.actionsHaveAction[i];
      i := i + 1;
    }
  }

  /** The explosion and dirt calls of `execute`, in order. */
  function ExplodeEffects(s: HitState, desc: ProjDesc, pos: Vec, owner: int): seq<Effect> {
    var d := if !s.timer then s.damage
             else if desc.plyHit.kind == Explode then desc.plyHit.damage else desc.timer.damage;
    var e0: seq<Effect> := [];
    var e1 := if s.explode && d != -1 then e0 + [Explosion(pos, d, s.shake, owner)] else e0;
    var e2 := if s.dirt then e1 + [MakeDirt(pos, owner)] else e1;
    if s.grndirt then e2 + [MakeGreenDirt(pos, owner)] else e2
  }

  /** The trail spawn (at the projectile's own simulation time) and the
      general spawn (at the current time), after the calls in prefix. */
  function MainSpawns(prefix: seq<Effect>, s: SpawnState, desc: ProjDesc, lastSim: real, now: real): seq<Effect> {
    var e1 := if s.trailprojspawn then prefix + [SpawnFrom(desc.trail, lastSim)] else prefix;
    if s.spawnprojectiles then e1 + [SpawnFrom(desc.generalSpawn, now)] else e1
  }

  /** The spawns of infos at time now, after the calls in prefix. */
  function AppendSpawns(prefix: seq<Effect>, infos: seq<SpawnInfo>, now: real): (r: seq<Effect>)
    ensures |r| == |prefix| + |infos|
    ensures r[..|prefix|] == prefix
    ensures forall i :: 0 <= i < |infos| ==> r[|prefix| + i] == SpawnFrom(infos[i], now)
  {
    if |infos| == 0 then prefix
    else AppendSpawns(prefix, infos[..|infos| - 1], now) + [SpawnFrom(infos[|infos| - 1], now)]
  }

  /** The velocity after `execute`: overwritten, then transformed by the
      accumulated matrix, then shifted by the accumulated difference. */
  function NewVelocity(m: MotionState, vel: Vec): (v: Vec)
    ensures m.overwriteOwnSpeed.None? && m.changeOwnSpeed == Identity && m.diffOwnSpeed == Zero ==> v == vel
  {
    IdentityApply(vel);
    var base := if m.overwriteOwnSpeed.Some? then m.overwriteOwnSpeed.value else vel;
    Add(Apply(m.changeOwnSpeed, base), m.diffOwnSpeed)
  }

  /** The radius after `execute`: grown by the accumulated change, each
      component clamped at zero. */
  function NewRadius(m: MotionState, radius: IVec): (r: IVec)
    ensures r.x >= 0 && r.y >= 0
    ensures r.x == radius.x + m.changeRadius.x || (r.x == 0 && radius.x + m.changeRadius.x < 0)
    ensures r.y == radius.y + m.changeRadius.y || (r.y == 0 && radius.y + m.changeRadius.y < 0)
  {
    var r := IAdd(radius, m.changeRadius);
    IVec(if r.x < 0 then 0 else r.x, if r.y < 0 then 0 else r.y)
  }

  /** The engine calls of `execute`, in order: explosion and dirt, the
      spawns, then the sound. */
  function ExecEffects(s: ActionState, desc: ProjDesc, pos: Vec, owner: int, lastSim: real, now: real)
    : (e: seq<Effect>)
    ensures |e| >= |s.spawns.otherSpawns|
  {
    var e := AppendSpawns(MainSpawns(ExplodeEffects(s.hit, desc, pos, owner), s.spawns, desc, lastSim, now),
                          s.spawns.otherSpawns, now);
    if s.hit.sound.Some? then e + [PlaySample(s.hit.sound.value)] else e
  }

  /** The spawn calls for infos, each at time now. */
  function SpawnsAt(infos: seq<SpawnInfo>, now: real): (r: seq<Effect>)
    ensures |r| == |infos|
  {
    seq(|infos|, i requires 0 <= i < |infos| => SpawnFrom(infos[i], now))
  }

  /** The calls of `execute` come in this order: explosion and dirt, the
      trail spawn at the projectile's own simulation time, the general spawn
      at the current time, every other spawn request at the current time in
      the order it was collected, and the sound last. */
  lemma ExecOrder(s: ActionState, desc: ProjDesc, pos: Vec, owner: int, lastSim: real, now: real)
    ensures ExecEffects(s, desc, pos, owner, lastSim, now)
            == ExplodeEffects(s.hit, desc, pos, owner)
               + (if s.spawns.trailprojspawn then [SpawnFrom(desc.trail, lastSim)] else [])
               + (if s.spawns.spawnprojectiles then [SpawnFrom(desc.generalSpawn, now)] else [])
               + SpawnsAt(s.spawns.otherSpawns, now)
               + (if s.hit.sound.Some? then [PlaySample(s.hit.sound.value)] else [])
  {
    var x := ExplodeEffects(s.hit, desc, pos, owner);
    var t: seq<Effect> := if s.spawns.trailprojspawn then [SpawnFrom(desc.trail, lastSim)] else [];
    var g: seq<Effect> := if s.spawns.spawnprojectiles then [SpawnFrom(desc.generalSpawn, now)] else [];
    var m := MainSpawns(x, s.spawns, desc, lastSim, now);
    assert m == x + t + g;
    var o := AppendSpawns(m, s.spawns.otherSpawns, now);
    assert o == m + SpawnsAt(s.spawns.otherSpawns, now) by {
      assert o[..|m|] == m;
      assert o[|m|..] == SpawnsAt(s.spawns.otherSpawns, now);
      assert o == o[..|m|] + o[|m|..];
    }
  }

  /** `execute` on accumulator s for a projectile with descriptor desc,
      position pos, velocity vel, radius, owner and last simulation time,
      at current time now. */
  function ExecuteSpec(s: ActionState, desc: ProjDesc, pos: Vec, vel: Vec, radius: IVec, owner: int,
                       lastSim: real, now: real): (o: Outcome)
    ensures o.deleteAfter <==> s.hit.deleteAfter || s.hit.explode || s.hit.dirt || s.hit.grndirt || Junk(desc)
    ensures o.radius.x >= 0 && o.radius.y >= 0
    ensures radius.x + s.motion.changeRadius.x >= 0 && radius.y + s.motion.changeRadius.y >= 0 ==>
      o.radius == IAdd(radius, s.motion.changeRadius)
    ensures |o.effects| >= |s.spawns.otherSpawns|
  {
    Outcome(s.hit.deleteAfter || s.hit.explode || s.hit.dirt || s.hit.grndirt || Junk(desc),
            NewVelocity(s.motion, vel), NewRadius(s.motion, radius),
            ExecEffects(s, desc, pos, owner, lastSim, now))
  }

  /** When nothing was collected (the fallback event's condition), `execute`
      leaves velocity and a non-negative radius alone, only plays the sound,
      and deletes only junk. */
  lemma ExecuteWithoutEffect(s: ActionState, desc: ProjDesc, pos: Vec, vel: Vec, radius: IVec, owner: int,
                             lastSim: real, now: real)
    requires !HasAnyEffect(s) && radius.x >= 0 && radius.y >= 0
    ensures var o := ExecuteSpec(s, desc, pos, vel, radius, owner, lastSim, now);
      o.velocity == vel && o.radius == radius && (o.deleteAfter <==> Junk(desc))
      && o.effects == if s.hit.sound.Some? then [PlaySample(s.hit.sound.value)] else []
  {
    IdentityApply(vel);
  }
}
