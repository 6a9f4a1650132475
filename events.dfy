/** The event conditions of the LX56 action tree: the LX56 timer, the
    repeating timer event with its duty cycle, worm-hit, terrain-hit, death
    and projectile-hit events. */
module Events {
  import opened Base
  import opened Content
  import opened Terrain
  import opened Projectiles

  /** A 32-bit C `int`. */
  type Int32 = n: int | -0x8000_0000 <= n < 0x8000_0000

  /** `Proj_EventOccurInfo`: what happened in this step. It is passed on by
      value; events that record something return the updated copy. */
  datatype EventInfo = EventInfo(
    dt: real,
    serverTime: real,
    colType: Option<ColType>,
    timerHit: bool,
    projCols: set<Projectile>)

  // ---------------------------------------------------------------------
  // LX56 timer

  /** `Proj_LX56Timer::checkEvent` on the descriptor's `Timer` settings:
      fires once the projectile's life passes `Time + TimeVar * f`, and then
      marks the step as a timer hit. */
  function LX56Timer(time: real, timeVar: real, f: real, life: real, ev: EventInfo): (r: (bool, EventInfo))
    ensures r.0 ==> r.1 == ev.(timerHit := true)
    ensures !r.0 ==> r.1 == ev
    ensures r.0 <==> 0.0 < time && time + timeVar * f < life
  {
    if time > 0.0 && time + timeVar * f < life then (true, ev.(timerHit := true)) else (false, ev)
  }

  /** Once due, the LX56 timer stays due as the projectile ages. */
  lemma LX56TimerStaysDue(time: real, timeVar: real, f: real, life: real, later: real, ev: EventInfo)
    requires LX56Timer(time, timeVar, f, life, ev).0 && life <= later
    ensures LX56Timer(time, timeVar, f, later, ev).0
  {
  }

  // ---------------------------------------------------------------------
  // Repeating timer event

  /** `Proj_TimerEvent`. */
  datatype TimerEvent = TimerEvent(delay: real, repeat: bool, permanentMode: int, useGlobalTime: bool)

  /** The state `timerInfo[this]` starts from. */
  const FreshTimer: TimerState := TimerState(0, 0.0)

  function StateOf(info: map<TimerId, TimerState>, id: TimerId): TimerState {
    if id in info then info[id] else FreshTimer
  }

  /** The `PermanentMode` duty cycle on the fire count c. */
  function Duty(p: int, c: nat): bool {
    if p > 0 then c % (p + 1) != 0
    else if p < 0 then c % (-p + 1) == 0
    else false
  }

  /** `Proj_TimerEvent::checkEvent` on timer state s: whether it fires and the
      new state. For the global-clock branch, whether the next tick is due
      and the scaled clock value are given. */
  function TimerStep(t: TimerEvent, s: TimerState, life: real, globalDue: bool, cur: real): (r: (bool, TimerState))
    ensures s.c > 0 && !t.repeat ==> r == (t.permanentMode == 1, s)
    ensures !(s.c > 0 && !t.repeat) && !t.useGlobalTime ==>
      if s.last + t.delay <= life then r.1 == TimerState(s.c + 1, life) else r.1 == s
    ensures !(s.c > 0 && !t.repeat) && t.useGlobalTime ==>
      if globalDue then r.1 == TimerState(s.c + 1, cur) else r.1 == s
    ensures !(s.c > 0 && !t.repeat) ==>
      r.0 == ((r.1.c == s.c + 1 && t.permanentMode == 0) || Duty(t.permanentMode, r.1.c))
  {
    if s.c > 0 && !t.repeat then (t.permanentMode == 1, s)
    else
      var due := if t.useGlobalTime then globalDue else s.last + t.delay <= life;
      var s' := if !due then s else TimerState(s.c + 1, if t.useGlobalTime then cur else life);
      if due && t.permanentMode == 0 then (true, s')
      else (Duty(t.permanentMode, s'.c), s')
  }

  /** `Proj_TimerEvent::checkEvent`: reads (inserting if missing) and updates
      the projectile's timer state for this event. */
  method CheckTimerEvent(t: TimerEvent, id: TimerId, prj: Projectile, globalDue: bool, cur: real)
    returns (fire: bool)
    modifies prj`timerInfo
    ensures prj.timerInfo == old(prj.timerInfo)[id := TimerStep(t, StateOf(old(prj.timerInfo), id), prj.life, globalDue, cur).1]
    ensures fire == TimerStep(t, StateOf(old(prj.timerInfo), id), prj.life, globalDue, cur).0
  {
    var state := StateOf(prj.timerInfo, id);
    prj.timerInfo := prj.timerInfo[id := state];
    if state.c > 0 && !t.repeat {
      return t.permanentMode == 1;
    }
    if t.useGlobalTime {
      if globalDue {
        state := TimerState(state.c + 1, cur);
        prj.timerInfo := prj.timerInfo[id := state];
        if t.permanentMode == 0 {
          return true;
        }
      }
    } else {
      if state.last + t.delay <= prj.life {
        state := TimerState(state.c + 1, prj.life);
        prj.timerInfo := prj.timerInfo[id := state];
        if t.permanentMode == 0 {
          return true;
        }
      }
    }
    if t.permanentMode > 0 {
      fire := state.c % (t.permanentMode + 1) != 0;
    } else if t.permanentMode < 0 {
      fire := state.c % (-t.permanentMode + 1) == 0;
    } else {
      fire := false;
    }
  }

  /** Modes P and -P split every count between them. */
  lemma DutyComplement(p: int, c: nat)
    requires p > 0
    ensures Duty(-p, c) == !Duty(p, c)
  {
  }

  /** The number of counts in [start, start + n) at which mode p fires. */
  function FireCount(p: int, start: nat, n: nat): nat {
    if n == 0 then 0 else FireCount(p, start, n - 1) + (if Duty(p, start + n - 1) then 1 else 0)
  }

  lemma ModAfterMultiple(k: nat, q: nat, j: nat)
    requires 0 < q && j < q
    ensures (k * q + j) % q == j
  {
    var n := k * q + j;
    var d := k - n / q;
    assert n == (n / q) * q + n % q;
    assert d * q == n % q - j;
    if d > 0 {
      LeMul(1, d, q);
    } else if d < 0 {
      LeMul(1, -d, q);
    }
  }

  /** Counting the first j fires of a window of length q = |p| + 1 that
      starts at a multiple of q. */
  lemma {:induction false} FireCountPrefix(p: int, q: nat, k: nat, j: nat)
    requires p != 0 && q == (if p > 0 then p else -p) + 1 && j <= q
    ensures FireCount(p, k * q, j) == if j == 0 then 0 else if p > 0 then j - 1 else 1
  {
    if j > 0 {
      FireCountPrefix(p, q, k, j - 1);
      ModAfterMultiple(k, q, j - 1);
    }
  }

  /** Over any full window of P+1 consecutive counts starting at a multiple of
      P+1, mode P fires P times and mode -P fires once. */
  lemma TimerDutyWindow(p: int, k: nat)
    requires p > 0
    ensures FireCount(p, k * (p + 1), p + 1) == p
    ensures FireCount(-p, k * (p + 1), p + 1) == 1
  {
    FireCountPrefix(p, p + 1, k, p + 1);
    FireCountPrefix(-p, p + 1, k, p + 1);
  }

  // ---------------------------------------------------------------------
  // Worm hit

  /** The owner relation flags of `Proj_WormHitEvent`. */
  datatype WormHitEvent = WormHitEvent(
    sameWorm: bool, diffWorm: bool, sameTeam: bool, diffTeam: bool, teamMate: bool, enemy: bool)

  /** The team of each remote worm slot. */
  type Teams = s: seq<int> | |s| == MAX_WORMS witness seq(MAX_WORMS, i => 0)

  /** What `match` reads from the client: worm teams and the game mode. */
  datatype World = World(teams: Teams, teamGame: bool)

  /** The team of worm w, -1 outside the worm table. */
  function TeamOf(world: World, w: int): int {
    if 0 <= w < MAX_WORMS then world.teams[w] else -1
  }

  /** `Proj_WormHitEvent::canMatch` as written. */
  function CanMatch(e: WormHitEvent): (r: bool)
    ensures e.sameWorm && (e.diffWorm || e.diffTeam || e.enemy) ==> !r
    ensures e.sameTeam && (e.diffTeam || e.enemy) ==> !r
    ensures e.teamMate && e.enemy ==> !r
    ensures !r ==> (e.sameWorm && (e.diffWorm || e.diffTeam || e.enemy))
                   || (e.sameTeam && (e.diffTeam || e.enemy)) || (e.teamMate && e.enemy)
  {
    if e.sameWorm then !(e.diffWorm || e.diffTeam || e.enemy)
    else if e.sameTeam then !e.diffTeam && !e.enemy
    else if e.teamMate then !e.enemy
    else true
  }

  /** `Proj_WormHitEvent::match`: worm w collided with a projectile owned by
      worm `owner`. */
  function Match(e: WormHitEvent, w: int, owner: int, world: World): (r: bool)
    ensures e.sameWorm && owner != w ==> !r
    ensures (e.diffWorm || e.enemy) && owner == w ==> !r
    ensures e.sameTeam && TeamOf(world, owner) != TeamOf(world, w) ==> !r
    ensures e.diffTeam && TeamOf(world, owner) == TeamOf(world, w) ==> !r
    ensures e.teamMate && !world.teamGame && owner != w ==> !r
    ensures e.teamMate && world.teamGame && TeamOf(world, owner) != TeamOf(world, w) ==> !r
    ensures e.enemy && world.teamGame && TeamOf(world, owner) == TeamOf(world, w) ==> !r
    ensures !e.sameWorm && !e.diffWorm && !e.sameTeam && !e.diffTeam && !e.teamMate && !e.enemy ==> r
  {
    var team := TeamOf(world, w);
    var projTeam := TeamOf(world, owner);
    if e.sameWorm && owner != w then false
    else if e.diffWorm && owner == w then false
    else if e.sameTeam && projTeam != team then false
    else if e.diffTeam && projTeam == team then false
    else if e.teamMate && !world.teamGame && owner != w then false
    else if e.teamMate && world.teamGame && projTeam != team then false
    else if e.enemy && owner == w then false
    else if e.enemy && world.teamGame && projTeam == team then false
    else true
  }

  /** `Proj_WormHitEvent::checkEvent`: a worm collision whose worm matches. */
  function WormHit(e: WormHitEvent, colType: Option<ColType>, owner: int, world: World): (r: bool)
    ensures r ==> colType.Some? && colType.value.withWorm
    ensures colType.Some? && colType.value.withWorm ==> (r <==> Match(e, colType.value.wormId, owner, world))
  {
    if colType.None? || !colType.value.withWorm then false
    else Match(e, colType.value.wormId, owner, world)
  }

  /** A filter `canMatch` rejects never matches in a team game. */
  lemma CanMatchSoundInTeamGame(e: WormHitEvent, w: int, owner: int, world: World)
    requires world.teamGame && !CanMatch(e)
    ensures !Match(e, w, owner, world)
  {
  }

  /** Outside team games `canMatch` is not sound: a same-team enemy filter is
      rejected, yet matches any other worm of the owner's team. */
  lemma CanMatchRejectsMatchableOutsideTeamGame()
    ensures var e := WormHitEvent(false, false, true, false, false, true);
      var world := World(seq(MAX_WORMS, i => 0), false);
      !CanMatch(e) && Match(e, 0, 1, world)
  {
  }

  /** `canMatch` as written accepts a teammate filter combined with a
      different-team filter, which matches no collision in any game. */
  lemma CanMatchAcceptsUnmatchable(w: int, owner: int, world: World)
    ensures var e := WormHitEvent(false, false, false, true, true, false);
      CanMatch(e) && !Match(e, w, owner, world)
  {
  }

  /** `canMatch` with the teammate/different-team combination also rejected. */
  function CanMatchFixed(e: WormHitEvent): bool {
    if e.sameWorm then !(e.diffWorm || e.diffTeam || e.enemy)
    else if e.sameTeam then !e.diffTeam && !e.enemy
    else if e.teamMate then !e.enemy && !e.diffTeam
    else true
  }

  /** A pair of worms and a team table under which a filter that passes
      `CanMatchFixed` matches in a team game. */
  function Witness(e: WormHitEvent): (r: (int, int, World)) {
    if e.sameWorm then (0, 0, World(seq(MAX_WORMS, i => 0), true))
    else if e.diffTeam || e.enemy then (0, 1, World(seq(MAX_WORMS, i => if i == 1 then 1 else 0), true))
    else if e.diffWorm then (0, 1, World(seq(MAX_WORMS, i => 0), true))
    else (0, 0, World(seq(MAX_WORMS, i => 0), true))
  }

  /** In team games the corrected check is exact: a filter passes it iff some
      collision matches. */
  lemma CanMatchFixedExact(e: WormHitEvent)
    ensures CanMatchFixed(e) ==> var (w, o, world) := Witness(e); world.teamGame && Match(e, w, o, world)
    ensures !CanMatchFixed(e) ==> forall w, o, world: World :: world.teamGame ==> !Match(e, w, o, world)
  {
    if CanMatchFixed(e) {
      var (w, o, world) := Witness(e);
      assert TeamOf(world, 0) == 0;
      assert e.diffTeam || e.enemy ==> TeamOf(world, 1) == 1;
      assert !(e.diffTeam || e.enemy) ==> TeamOf(world, 1) == 0;
    }
  }

  // ---------------------------------------------------------------------
  // Terrain hit and death

  /** `Proj_TerrainHitEvent`'s filters. */
  datatype TerrainHitEvent = TerrainHitEvent(mapBound: bool, dirt: bool, rock: bool)

  /** `Proj_TerrainHitEvent::checkEvent`: a non-worm collision whose mask has
      every required bit; `Rock` demands plain terrain. */
  function TerrainHit(e: TerrainHitEvent, colType: Option<ColType>): (r: bool)
    ensures r <==> (colType.Some? && !colType.value.withWorm
      && (e.mapBound ==> colType.value.colMask & PJC_MAPBORDER != 0)
      && (e.dirt ==> colType.value.colMask & PJC_DIRT != 0)
      && (e.rock ==> colType.value.colMask == PJC_TERRAIN))
  {
    if colType.None? || colType.value.withWorm then false
    else
      var colMask := colType.value.colMask;
      if e.mapBound && colMask & PJC_MAPBORDER == PJC_NONE then false
      else if e.dirt && colMask & PJC_DIRT == PJC_NONE then false
      else if e.rock && colMask != PJC_TERRAIN then false
      else true
  }

  /** On a terrain-scan hit, the rock filter fires exactly when the scan met
      rock and the dirt filter exactly when it met dirt only; a map-border
      filter never fires on it. */
  lemma TerrainHitOnScan(c: ColInfo)
    ensures TerrainHit(TerrainHitEvent(false, false, true), Some(TerrainCol(TerrainHitMask(c)))) <==> !c.onlyDirt
    ensures TerrainHit(TerrainHitEvent(false, true, false), Some(TerrainCol(TerrainHitMask(c)))) <==> c.onlyDirt
    ensures !TerrainHit(TerrainHitEvent(true, false, false), Some(TerrainCol(TerrainHitMask(c))))
  {
  }

  /** A map-border hit satisfies the map-bound filter but never the dirt or
      rock filter. */
  lemma TerrainHitOnBorder()
    ensures TerrainHit(TerrainHitEvent(true, false, false), Some(TerrainCol(BorderHitMask)))
    ensures !TerrainHit(TerrainHitEvent(false, true, false), Some(TerrainCol(BorderHitMask)))
    ensures !TerrainHit(TerrainHitEvent(false, false, true), Some(TerrainCol(BorderHitMask)))
  {
  }

  /** `Proj_DeathEvent::checkEvent`. */
  predicate Death(prj: Projectile): (r: bool)
    reads prj
    ensures r <==> prj.health < 0
  {
    prj.health < 0
  }

  // ---------------------------------------------------------------------
  // Projectile hit

  /** `Proj_ProjHitEvent`'s target filters and hit-count bounds. */
  datatype ProjHitEvent = ProjHitEvent(
    target: ProjDesc?,
    ownerWorm: WormHitEvent,
    targetHealthIsMore: bool, targetHealthIsLess: bool,
    targetTimeIsMore: bool, targetTimeIsLess: bool,
    width: Int32, height: Int32,
    minHitCount: Int32, maxHitCount: Int32)

  /** `CProjectile::CollisionWith`, with and without an explicit box; its
      body is not part of this model. */
  datatype Geometry = Geometry(
    boxHit: (Projectile, Projectile, int, int) -> bool,
    shapeHit: (Projectile, Projectile) -> bool)

  /** The tests `checkProjHit` makes before recording p as hit by prj. */
  predicate Hits(h: ProjHitEvent, prj: Projectile, p: Projectile, geo: Geometry, world: World)
    reads prj, p
  {
    p != prj
    && (h.target == null || p.desc == h.target)
    && Match(h.ownerWorm, prj.owner, p.owner, world)
    && (h.targetHealthIsMore ==> p.health > prj.health)
    && (h.targetHealthIsLess ==> p.health < prj.health)
    && (h.targetTimeIsMore ==> p.life > prj.life)
    && (h.targetTimeIsLess ==> p.life < prj.life)
    && (if h.width >= 0 && h.height >= 0 then geo.boxHit(prj, p, h.width / 2, h.height / 2)
        else geo.shapeHit(prj, p))
  }

  /** The count after which `checkProjHit` stops the scan. */
  predicate StopAfter(h: ProjHitEvent, n: nat) {
    (h.maxHitCount < 0 && n >= SizeT(h.minHitCount)) || n > SizeT(h.maxHitCount)
  }

  /** The final test of `Proj_ProjHitEvent::checkEvent`. */
  predicate Fires(h: ProjHitEvent, n: nat) {
    n >= SizeT(h.minHitCount) && (h.maxHitCount < 0 || n <= SizeT(h.maxHitCount))
  }

  /** The hit set after scanning cands in order from hit set acc. */
  function Collect(h: ProjHitEvent, prj: Projectile, geo: Geometry, world: World,
                   cands: seq<Projectile>, acc: set<Projectile>): (r: set<Projectile>)
    reads prj, cands
    ensures acc <= r
  {
    if |cands| == 0 then acc
    else if !Hits(h, prj, cands[0], geo, world) then Collect(h, prj, geo, world, cands[1..], acc)
    else if StopAfter(h, |acc + {cands[0]}|) then acc + {cands[0]}
    else Collect(h, prj, geo, world, cands[1..], acc + {cands[0]})
  }

  /** `Proj_ProjHitEvent::checkEvent` over the projectiles of the nearby
      position-map cells, in visiting order. */
  method CheckProjHit(h: ProjHitEvent, prj: Projectile, geo: Geometry, world: World,
                      cands: seq<Projectile>, ev: EventInfo)
    returns (fire: bool, ev': EventInfo)
    ensures ev' == ev.(projCols := Collect(h, prj, geo, world, cands, ev.projCols))
    ensures fire <==> Fires(h, |ev'.projCols|)
  {
    ev' := ev;
    var i := 0;
    while i < |cands|
      invariant 0 <= i <= |cands|
      invariant Collect(h, prj, geo, world, cands, ev.projCols)
             == Collect(h, prj, geo, world, cands[i..], ev'.projCols)
      invariant ev' == ev.(projCols := ev'.projCols)
    {
      assert cands[i..][1..] == cands[i + 1..];
      var p := cands[i];
      if Hits(h, prj, p, geo, world) {
        ev' := ev'.(projCols := ev'.projCols + {p});
        if StopAfter(h, |ev'.projCols|) {
          break;
        }
      }
      i := i + 1;
    }
    fire := |ev'.projCols| >= SizeT(h.minHitCount)
      && (h.maxHitCount < 0 || |ev'.projCols| <= SizeT(h.maxHitCount));
  }

  /** Only projectiles that pass the filter are added; the projectile itself
      never is. */
  lemma {:induction false} CollectOnlyHits(h: ProjHitEvent, prj: Projectile, geo: Geometry, world: World,
                                           cands: seq<Projectile>, acc: set<Projectile>)
    ensures forall p :: p in Collect(h, prj, geo, world, cands, acc) - acc ==> p in cands && Hits(h, prj, p, geo, world)
    ensures prj !in acc ==> prj !in Collect(h, prj, geo, world, cands, acc)
    decreases |cands|
  {
    if |cands| > 0 {
      var acc' := if Hits(h, prj, cands[0], geo, world) then acc + {cands[0]} else acc;
      if !(Hits(h, prj, cands[0], geo, world) && StopAfter(h, |acc'|)) {
        CollectOnlyHits(h, prj, geo, world, cands[1..], acc');
        forall p | p in Collect(h, prj, geo, world, cands, acc) - acc
          ensures p in cands && Hits(h, prj, p, geo, world)
        {
          if p in Collect(h, prj, geo, world, cands[1..], acc') - acc' {
            assert p in cands[1..];
          }
        }
      }
    }
  }

  /** With a non-negative maximum the scan stops once the count exceeds it,
      so at most `MaxHitCount + 1` projectiles are collected. */
  lemma {:induction false} CollectBoundedByMax(h: ProjHitEvent, prj: Projectile, geo: Geometry, world: World,
                                               cands: seq<Projectile>, acc: set<Projectile>)
    requires 0 <= h.maxHitCount && |acc| <= h.maxHitCount
    ensures |Collect(h, prj, geo, world, cands, acc)| <= h.maxHitCount + 1
    decreases |cands|
  {
    if |cands| > 0 {
      var acc' := if Hits(h, prj, cands[0], geo, world) then acc + {cands[0]} else acc;
      assert |acc'| <= |acc| + 1;
      if !(Hits(h, prj, cands[0], geo, world) && StopAfter(h, |acc'|)) {
        assert |acc'| <= h.maxHitCount;
        CollectBoundedByMax(h, prj, geo, world, cands[1..], acc');
      }
    }
  }

  /** In min-only mode the scan stops as soon as `MinHitCount` is reached. */
  lemma {:induction false} CollectBoundedByMin(h: ProjHitEvent, prj: Projectile, geo: Geometry, world: World,
                                               cands: seq<Projectile>, acc: set<Projectile>)
    requires h.maxHitCount < 0 && |acc| < h.minHitCount
    ensures |Collect(h, prj, geo, world, cands, acc)| <= h.minHitCount
    decreases |cands|
  {
    if |cands| > 0 {
      var acc' := if Hits(h, prj, cands[0], geo, world) then acc + {cands[0]} else acc;
      assert |acc'| <= |acc| + 1;
      if !(Hits(h, prj, cands[0], geo, world) && StopAfter(h, |acc'|)) {
        CollectBoundedByMin(h, prj, geo, world, cands[1..], acc');
      }
    }
  }

  /** Unless the scan stopped early, every candidate that passes the filter is
      collected. */
  lemma {:induction false} CollectComplete(h: ProjHitEvent, prj: Projectile, geo: Geometry, world: World,
                                           cands: seq<Projectile>, acc: set<Projectile>)
    ensures var r := Collect(h, prj, geo, world, cands, acc);
      StopAfter(h, |r|) || forall p :: p in cands && Hits(h, prj, p, geo, world) ==> p in r
    decreases |cands|
  {
    if |cands| > 0 {
      var acc' := if Hits(h, prj, cands[0], geo, world) then acc + {cands[0]} else acc;
      if !(Hits(h, prj, cands[0], geo, world) && StopAfter(h, |acc'|)) {
        CollectComplete(h, prj, geo, world, cands[1..], acc');
        var r := Collect(h, prj, geo, world, cands, acc);
        assert r == Collect(h, prj, geo, world, cands[1..], acc');
        forall p | p in cands && Hits(h, prj, p, geo, world) && !StopAfter(h, |r|)
          ensures p in r
        {
          if p != cands[0] {
            assert p in cands[1..];
          }
        }
      }
    }
  }

  /** A negative `MinHitCount` becomes a huge unsigned bound: the event never
      fires, whatever was hit. */
  lemma NegativeMinNeverFires(h: ProjHitEvent, n: nat)
    requires h.minHitCount < 0 && n < 0x1_0000_0000
    ensures !Fires(h, n)
  {
  }
}
