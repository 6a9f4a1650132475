/** Spawning child projectiles (`Proj_SpawnInfo::apply`) from a parent
    (`Proj_SpawnParent`): the parent accessors, the weapon shot's random
    index that advances per child, and the grid snap of the spawn
    position. Trigonometry, the random generator, the fixed random table
    and the clock are foreign and enter as the `Env` parameters. */
module Spawn {
  import opened Base
  import opened Content
  import opened Projectiles

  /** A fired weapon shot (`shoot_t`) as far as spawning uses it. Only its
      random index changes while its children are spawned. */
  class Shot {
    const wormId: int
    const pos: Vec
    const angle: int
    const wormVel: Vec
    var random: int

    constructor (wormId: int, pos: Vec, angle: int, wormVel: Vec, random: int)
      ensures this.wormId == wormId && this.pos == pos && this.angle == angle
      ensures this.wormVel == wormVel && this.random == random
    {
      this.wormId, this.pos, this.angle, this.wormVel, this.random := wormId, pos, angle, wormVel, random;
    }
  }

  /** `Proj_SpawnParent`: nothing, a weapon shot or a projectile. */
  datatype SpawnParent = NoParent | ShotParent(shot: Shot) | ProjParent(proj: Projectile)

  /** What the accessors of a parent read, as one value. */
  datatype ParentView =
    | NoView
    | ShotView(wormId: int, pos: Vec, angle: int, wormVel: Vec, random: int)
    | ProjView(owner: int, randomIndex: int, randomFloat: real, position: Vec, velocity: Vec, ignoreBefore: real)

  function ShotOf(p: SpawnParent): set<Shot> {
    if p.ShotParent? then {p.shot} else {}
  }

  function ProjOf(p: SpawnParent): set<Projectile> {
    if p.ProjParent? then {p.proj} else {}
  }

  function DescOf(info: SpawnInfo): set<ProjDesc> {
    if info.proj != null then {info.proj} else {}
  }

  /** The current state of parent p. */
  function View(p: SpawnParent): (v: ParentView)
    reads ShotOf(p), ProjOf(p)
    ensures p.ShotParent? <==> v.ShotView?
    ensures p.ProjParent? <==> v.ProjView?
  {
    match p
      case NoParent => NoView
      case ShotParent(s) => ShotView(s.wormId, s.pos, s.angle, s.wormVel, s.random)
      case ProjParent(q) => ProjView(q.owner, q.randomIndex, q.randomFloat, q.position, q.velocity,
                                     q.ignoreWormCollBeforeTime)
  }

  /** The foreign inputs of spawning: the fixed random table
      (`GetFixedRandomNum`), the unit vector of an angle in degrees
      (`GetVecsFromAngle`), the draws of `GetRandomInt` (by child index and
      bound), the parent's heading (`Proj_SpawnParent::angle`), the physics
      clock and the spawn time. */
  datatype Env = Env(fixedRandomNum: int -> real, dirOf: int -> Vec, draw: (int, int) -> int,
                     parentAngle: real, physicsTime: real, spawnTime: real)

  // ---------------------------------------------------------------------
  // Proj_SpawnParent accessors

  /** `Proj_SpawnParent::ownerWorm`: no owner is -1. */
  function OwnerWorm(v: ParentView): (r: int)
    ensures v.NoView? ==> r == -1
    ensures v.ShotView? ==> r == v.wormId
    ensures v.ProjView? ==> r == v.owner
  {
    match v
      case NoView => -1
      case ShotView(w, _, _, _, _) => w
      case ProjView(o, _, _, _, _, _) => o
  }

  /** `Proj_SpawnParent::fixedRandomIndex`: a shot passes its own random
      index, a projectile the next index after its own. */
  function FixedRandomIndex(v: ParentView): (r: int)
    ensures v.NoView? ==> r == -1
    ensures v.ShotView? ==> r == v.random
    ensures v.ProjView? ==> r == v.randomIndex + 1
  {
    match v
      case NoView => -1
      case ShotView(_, _, _, _, n) => n
      case ProjView(_, i, _, _, _, _) => i + 1
  }

  /** `Proj_SpawnParent::fixedRandomFloat`: a shot looks its index up in the
      fixed table, a projectile passes its own random float. */
  function FixedRandomFloat(v: ParentView, env: Env): (r: real)
    ensures v.NoView? ==> r == -1.0
    ensures v.ShotView? ==> r == env.fixedRandomNum(v.random)
    ensures v.ProjView? ==> r == v.randomFloat
  {
    match v
      case NoView => -1.0
      case ShotView(_, _, _, _, n) => env.fixedRandomNum(n)
      case ProjView(_, _, f, _, _, _) => f
  }

  /** `Proj_SpawnParent::position`: a shot spawns 8 pixels ahead of the
      shooter along its aim. */
  function Position(v: ParentView, env: Env): (r: Vec)
    ensures v.NoView? ==> r == Zero
    ensures v.ShotView? ==> r == Add(v.pos, Scale(env.dirOf(v.angle), 8.0))
    ensures v.ProjView? ==> r == v.position
  {
    match v
      case NoView => Zero
      case ShotView(_, p, a, _, _) => Add(p, Scale(env.dirOf(a), 8.0))
      case ProjView(_, _, _, p, _, _) => p
  }

  /** `Proj_SpawnParent::velocity`: a shot passes the shooter's velocity. */
  function Velocity(v: ParentView): (r: Vec)
    ensures v.NoView? ==> r == Zero
    ensures v.ShotView? ==> r == v.wormVel
    ensures v.ProjView? ==> r == v.velocity
  {
    match v
      case NoView => Zero
      case ShotView(_, _, _, w, _) => w
      case ProjView(_, _, _, _, w, _) => w
  }

  // ---------------------------------------------------------------------
  // The shot's random index

  /** The shot's random index with n as its new value; other parents have
      none. */
  function WithRandom(v: ParentView, n: int): (r: ParentView)
    ensures r.ShotView? ==> r.random == n
    ensures !v.ShotView? ==> r == v
  {
    if v.ShotView? then v.(random := n) else v
  }

  /** The three updates of a shot's random index within one child
      iteration: `++` and `%= 255`, then `*= 5` and `%= 255`, then `++`
      and `%= 255` (C remainder). */
  function Inc(n: int): int { CMod(n + 1, 255) }

  function Times5(n: int): int { CMod(n * 5, 255) }

  function Step(n: int): (r: int)
    ensures 0 <= n ==> 0 <= r < 255
  {
    Inc(Times5(Inc(n)))
  }

  /** The shot's random index after n children. */
  function Rounds(r: int, n: nat): int {
    if n == 0 then r else Step(Rounds(r, n - 1))
  }

  /** A shot whose random index starts non-negative keeps it in [0, 254]
      once any child was spawned. */
  lemma {:induction false} RoundsInRange(r: int, n: nat)
    requires 0 <= r
    ensures 0 <= Rounds(r, n)
    ensures n > 0 ==> Rounds(r, n) < 255
  {
    if n > 0 {
      RoundsInRange(r, n - 1);
    }
  }

  /** Each child of such a shot is passed a random index in [0, 254]: the
      index in the middle of the child's iteration. */
  lemma MidIndexInRange(n: int)
    requires 0 <= n
    ensures 0 <= Times5(Inc(n)) < 255
  {
  }

  // ---------------------------------------------------------------------
  // Grid snap

  /** One coordinate of the grid snap: the start of the cell under C's
      truncating remainder, plus half a cell. */
  function Snap(x: int, s: int): int
    requires s >= 1
  {
    x - CMod(x, s) + s / 2
  }

  /** A snapped coordinate always lies half a cell past a multiple of the
      cell size; a non-negative coordinate moves by less than one cell. */
  lemma SnapCentres(x: int, s: int)
    requires s >= 1
    ensures Snap(x, s) % s == s / 2
    ensures 0 <= x ==> 0 <= Snap(x, s) && -s < Snap(x, s) - x <= s / 2
  {
    var k, r := CDiv(x, s), CMod(x, s);
    assert Snap(x, s) == k * s + s / 2;
    MultipleMod(k, s, s / 2);
    if 0 <= x {
      assert 0 <= r < s;
      assert r <= x by {
        if s <= x {
        } else {
          assert k == 0;
        }
      }
    }
  }

  lemma MultipleMod(k: int, s: int, j: int)
    requires 0 <= j < s
    ensures (k * s + j) % s == j
  {
    var n := k * s + j;
    var d := k - n / s;
    assert n == (n / s) * s + n % s;
    assert d * s == n % s - j;
  }

  /** The spawn position: the parent's position plus `PosDiff`, converted to
      integers, snapped to the grid when both cell sizes are at least 1. */
  function SpawnPos(info: SpawnInfo, v: ParentView, env: Env): (r: IVec)
    ensures info.snapToGrid.x >= 1 && info.snapToGrid.y >= 1 ==>
      r.x % info.snapToGrid.x == info.snapToGrid.x / 2 && r.y % info.snapToGrid.y == info.snapToGrid.y / 2
    ensures !(info.snapToGrid.x >= 1 && info.snapToGrid.y >= 1) ==>
      r == IVec(Trunc(Position(v, env).x + info.posDiff.x as real), Trunc(Position(v, env).y + info.posDiff.y as real))
  {
    var p := Position(v, env);
    var q := IVec(Trunc(p.x + info.posDiff.x as real), Trunc(p.y + info.posDiff.y as real));
    if info.snapToGrid.x >= 1 && info.snapToGrid.y >= 1 then
      SnapCentres(q.x, info.snapToGrid.x);
      SnapCentres(q.y, info.snapToGrid.y);
      IVec(Snap(q.x, info.snapToGrid.x), Snap(q.y, info.snapToGrid.y))
    else q
  }

  // ---------------------------------------------------------------------
  // Proj_SpawnInfo::apply

  /** One `SpawnProjectile` call. */
  datatype Child = Child(pos: IVec, vel: Vec, rot: int, owner: int, proj: ProjDesc?, random: int,
                         time: real, ignoreBefore: real)

  /** Random start rotation is drawn for a rotating child type. */
  predicate DrawsRot(info: SpawnInfo) {
    info.useRandomRot && info.proj != null && info.proj.rotating
  }

  /** The rotation increment in effect once the zero guard has run. */
  function FixedIncrement(inc: int): (r: int)
    ensures r != 0
    ensures inc != 0 ==> r == inc
  {
    if inc == 0 then 1 else inc
  }

  /** The direction the child spreads in, before the random index moves. */
  function Spread(info: SpawnInfo, v: ParentView, env: Env): Vec {
    if info.useParentVelocityForSpread then Scale(Velocity(v), info.parentVelSpreadFactor)
    else
      var heading := if info.useAngle then env.parentAngle else 0.0;
      env.dirOf(Trunc(info.angle as real + heading + FixedRandomFloat(v, env) * info.spread as real))
  }

  /** The child's velocity from its spread direction, read after the first
      update of the random index. */
  function ChildVel(info: SpawnInfo, sprd: Vec, v: ParentView, env: Env): Vec {
    var base := Scale(sprd, info.speed as real);
    var varVec := if info.useSpecial11VecForSpeedVar then Vec(1.0, 1.0) else sprd;
    var w := Add(base, Scale(Scale(varVec, info.speedVar as real), FixedRandomFloat(v, env)));
    if info.addParentVel then Add(w, Scale(Velocity(v), info.parentVelFactor)) else w
  }

  /** Child number i of a batch, spawned while the parent looks like v and
      the child type's rotation increment is inc. */
  function ChildAt(info: SpawnInfo, v: ParentView, env: Env, inc: int, i: int): (c: Child)
    ensures c.owner == OwnerWorm(v) && c.proj == info.proj && c.time == env.spawnTime
    ensures v.ProjView? ==> c.random == v.randomIndex + 1 && c.ignoreBefore == v.ignoreBefore
    ensures v.ShotView? && 0 <= v.random ==> 0 <= c.random < 255
    ensures !v.ProjView? ==> c.ignoreBefore == env.physicsTime + 0.1
  {
    var sprd := Spread(info, v, env);
    var rot := if DrawsRot(info) then env.draw(i, CDiv(360, FixedIncrement(inc))) * FixedIncrement(inc) else 0;
    var v1 := WithRandom(v, if v.ShotView? then Inc(v.random) else 0);
    var vel := ChildVel(info, sprd, v1, env);
    var v2 := WithRandom(v1, if v1.ShotView? then Times5(v1.random) else 0);
    var ignore := if v.ProjView? then v.ignoreBefore else env.physicsTime + 0.1;
    Child(SpawnPos(info, v2, env), vel, rot, OwnerWorm(v2), info.proj, FixedRandomIndex(v2),
          env.spawnTime, ignore)
  }

  /** The first n children of a batch from a parent that looked like v when
      the batch began. */
  function Batch(info: SpawnInfo, v: ParentView, env: Env, inc: int, n: nat): (r: seq<Child>)
    ensures |r| == n
  {
    if n == 0 then []
    else
      var r0 := if v.ShotView? then v.random else 0;
      Batch(info, v, env, inc, n - 1) + [ChildAt(info, WithRandom(v, Rounds(r0, n - 1)), env, inc, n - 1)]
  }

  /** Every child of a batch has the parent's owner and the batch's type;
      a projectile parent passes each child its next random index, and a
      shot with a non-negative index passes indices in [0, 254]. */
  lemma {:induction false} BatchInherits(info: SpawnInfo, v: ParentView, env: Env, inc: int, n: nat, k: int)
    requires 0 <= k < n
    ensures Batch(info, v, env, inc, n)[k].owner == OwnerWorm(v)
    ensures Batch(info, v, env, inc, n)[k].proj == info.proj
    ensures v.ProjView? ==> Batch(info, v, env, inc, n)[k].random == v.randomIndex + 1
    ensures v.ShotView? && 0 <= v.random ==> 0 <= Batch(info, v, env, inc, n)[k].random < 255
  {
    var r0 := if v.ShotView? then v.random else 0;
    var prev := Batch(info, v, env, inc, n - 1);
    var w := WithRandom(v, Rounds(r0, n - 1));
    var last := ChildAt(info, w, env, inc, n - 1);
    assert Batch(info, v, env, inc, n) == prev + [last];
    if k < n - 1 {
      assert Batch(info, v, env, inc, n)[k] == prev[k];
      BatchInherits(info, v, env, inc, n - 1, k);
    } else {
      assert Batch(info, v, env, inc, n)[k] == last;
      assert OwnerWorm(w) == OwnerWorm(v);
      if v.ShotView? && 0 <= v.random {
        RoundsInRange(v.random, n - 1);
      }
    }
  }

  /** The number of children: `Amount`, or none when it is not positive. */
  function Count(info: SpawnInfo): nat {
    if info.amount > 0 then info.amount else 0
  }

  /** The rotation increment of the child type after `apply`. */
  function IncrementAfter(info: SpawnInfo, inc: int): int {
    if DrawsRot(info) && info.amount > 0 then FixedIncrement(inc) else inc
  }

  /** The random start rotation of a child: a rotating child type first
      has a zero rotation increment corrected to 1. */
  method DrawRot(info: SpawnInfo, env: Env, i: int) returns (rot: int)
    modifies DescOf(info)
    ensures info.proj != null ==>
      info.proj.rotIncrement == (if DrawsRot(info) then FixedIncrement(old(info.proj.rotIncrement))
                                 else old(info.proj.rotIncrement))
    ensures rot == if DrawsRot(info) then env.draw(i, CDiv(360, info.proj.rotIncrement)) * info.proj.rotIncrement
                   else 0
  {
    rot := 0;
    if info.useRandomRot {
      if info.proj != null && info.proj.rotating {
        if info.proj.rotIncrement == 0 {
          info.proj.rotIncrement := 1;
        }
        rot := env.draw(i, CDiv(360, info.proj.rotIncrement)) * info.proj.rotIncrement;
      }
    }
  }

  /** `nRandom++; nRandom %= 255;` on a shot parent. */
  method IncRandom(parent: SpawnParent)
    modifies ShotOf(parent)
    ensures View(parent) == WithRandom(old(View(parent)), if parent.ShotParent? then Inc(old(parent.shot.random)) else 0)
  {
    if parent.ShotParent? {
      parent.shot.random := parent.shot.random + 1;
      parent.shot.random := CMod(parent.shot.random, 255);
    }
  }

  /** `nRandom *= 5; nRandom %= 255;` on a shot parent. */
  method Times5Random(parent: SpawnParent)
    modifies ShotOf(parent)
    ensures View(parent) == WithRandom(old(View(parent)), if parent.ShotParent? then Times5(old(parent.shot.random)) else 0)
  {
    if parent.ShotParent? {
      parent.shot.random := parent.shot.random * 5;
      parent.shot.random := CMod(parent.shot.random, 255);
    }
  }

  /** One iteration of `apply`'s loop: child i is spawned and a shot
      parent's random index takes one step. */
  method SpawnOne(info: SpawnInfo, parent: SpawnParent, env: Env, i: int) returns (c: Child)
    modifies ShotOf(parent), DescOf(info)
    ensures info.proj != null ==>
      info.proj.rotIncrement == (if DrawsRot(info) then FixedIncrement(old(info.proj.rotIncrement))
                                 else old(info.proj.rotIncrement))
    ensures c == ChildAt(info, old(View(parent)), env, if info.proj != null then info.proj.rotIncrement else 0, i)
    ensures View(parent) == WithRandom(old(View(parent)), if parent.ShotParent? then Step(old(parent.shot.random)) else 0)
  {
    ghost var v0 := View(parent);
    var sprd := Spread(info, View(parent), env);
    var rot := DrawRot(info, env, i);
    assert View(parent) == v0;
    IncRandom(parent);
    ghost var v1 := View(parent);
    assert v1 == WithRandom(v0, if v0.ShotView? then Inc(v0.random) else 0);
    var vel := ChildVel(info, sprd, View(parent), env);
    Times5Random(parent);
    var ignore;
    if parent.ProjParent? {
      ignore := parent.proj.ignoreWormCollBeforeTime;
    } else {
      ignore := env.physicsTime + 0.1;
    }
    var v2 := View(parent);
    assert v2 == WithRandom(v1, if v1.ShotView? then Times5(v1.random) else 0);
    c := Child(SpawnPos(info, v2, env), vel, rot, OwnerWorm(v2), info.proj, FixedRandomIndex(v2),
               env.spawnTime, ignore);
    IncRandom(parent);
  }

  /** `Proj_SpawnInfo::apply`: spawns `Amount` children from parent. A shot
      parent's random index ends up stepped once per child, and a rotating
      child type's zero rotation increment is corrected to 1. */
  method ApplySpawn(info: SpawnInfo, parent: SpawnParent, env: Env) returns (children: seq<Child>)
    modifies ShotOf(parent), DescOf(info)
    ensures info.proj != null ==> info.proj.rotIncrement == IncrementAfter(info, old(info.proj.rotIncrement))
    ensures children == Batch(info, old(View(parent)), env,
                              if info.proj != null then IncrementAfter(info, old(info.proj.rotIncrement)) else 0,
                              Count(info))
    ensures parent.ShotParent? ==> parent.shot.random == Rounds(old(parent.shot.random), Count(info))
  {
    ghost var v := View(parent);
    ghost var inc0 := if info.proj != null then info.proj.rotIncrement else 0;
    ghost var inc := if info.proj != null then IncrementAfter(info, inc0) else 0;
    children := [];
    var i: nat := 0;
    while i < info.amount
      invariant i <= info.amount || i == 0
      invariant Progress(info, parent, env, v, inc0, inc, i, children)
    {
      children := SpawnNext(info, parent, env, i, v, inc0, inc, children);
      i := i + 1;
    }
    assert i == Count(info);
  }

  /** The state of `apply`'s loop after i children, for a parent that
      looked like v and a rotation increment that was inc0 before the loop
      and is inc once corrected. */
  ghost predicate Progress(info: SpawnInfo, parent: SpawnParent, env: Env, v: ParentView,
                           inc0: int, inc: int, i: nat, children: seq<Child>)
    reads ShotOf(parent), ProjOf(parent), DescOf(info)
  {
    && children == Batch(info, v, env, inc, i)
    && (info.proj != null ==> info.proj.rotIncrement == (if i > 0 then inc else inc0))
    && View(parent) == WithRandom(v, Rounds(if v.ShotView? then v.random else 0, i))
  }

  /** The body of `apply`'s loop: child i joins the batch, the rotation
      increment holds its corrected value and the random index has taken
      i + 1 steps. */
  method SpawnNext(info: SpawnInfo, parent: SpawnParent, env: Env, i: nat, ghost v: ParentView,
                   ghost inc0: int, ghost inc: int, prev: seq<Child>) returns (children: seq<Child>)
    requires i < info.amount
    requires inc == if info.proj != null then IncrementAfter(info, inc0) else 0
    requires Progress(info, parent, env, v, inc0, inc, i, prev)
    modifies ShotOf(parent), DescOf(info)
    ensures Progress(info, parent, env, v, inc0, inc, i + 1, children)
  {
    var c := SpawnOne(info, parent, env, i);
    children := prev + [c];
  }
}
