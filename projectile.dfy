/** A live projectile (`CProjectile`) and its integer collision logic:
    the map-bounds mask, the terrain pixel scan and the per-hit-type
    resolution of a terrain collision. */
module Projectiles {
  import opened Base
  import opened Content
  import opened Terrain

  /** Per-event timer progress (`ProjTimerState`): fire count and the time
      of the last firing. */
  datatype TimerState = TimerState(c: nat, last: real)

  /** Identity of a timer event node of the descriptor's action tree. */
  type TimerId = nat

  /** The kinematic part of a projectile that collision handling updates. */
  datatype Kin = Kin(pos: Vec, oldPos: Vec, vel: Vec, side: bv8)

  /** What `HandleCollision` returns, with the updated kinematics. */
  datatype Resolution = Resolution(stands: bool, kin: Kin)

  const COL_ALL: bv8 := COL_LEFT | COL_RIGHT | COL_TOP | COL_BOTTOM

  /** The `CollisionSide` mask `MapBoundsCollision` computes for a projectile
      at (px, py) with radius r on a w x h map. */
  function BoundsMask(px: int, py: int, r: IVec, w: int, h: int): (mask: bv8)
    ensures mask & COL_LEFT != 0 <==> px - r.x < 0
    ensures mask & COL_RIGHT != 0 <==> px + r.x >= w
    ensures mask & COL_TOP != 0 <==> py - r.y < 0
    ensures mask & COL_BOTTOM != 0 <==> py + r.y >= h
    ensures mask & !COL_ALL == 0
  {
    (if px - r.x < 0 then COL_LEFT else 0)
    | (if px + r.x >= w then COL_RIGHT else 0)
    | (if py - r.y < 0 then COL_TOP else 0)
    | (if py + r.y >= h then COL_BOTTOM else 0)
  }

  /** A zero mask is exactly the condition under which the terrain scan may
      index the map: the projectile's box lies inside it. */
  lemma BoundsMaskZeroIffInside(m: Map, p: Probe)
    requires 0 <= p.rx && 0 <= p.ry
    ensures BoundsMask(p.px, p.py, IVec(p.rx, p.ry), m.width, m.height) == 0 <==> InBounds(m, p)
  {
    var mask := BoundsMask(p.px, p.py, IVec(p.rx, p.ry), m.width, m.height);
    assert mask == 0 <==> mask & COL_ALL == 0;
  }

  /** A box touching the left border is inside; one pixel further is out. */
  lemma BorderIsInside(py: int, r: IVec, w: int, h: int)
    ensures BoundsMask(r.x, py, r, w, h) & COL_LEFT == 0
    ensures BoundsMask(r.x - 1, py, r, w, h) & COL_LEFT != 0
  {
  }

  /** The wall is blocking on the left: more solid pixels left than right (or
      more than two) and at least two. */
  predicate LeftBlocked(c: ColInfo) { (c.left > c.right || c.left > 2) && c.left > 1 }
  predicate RightBlocked(c: ColInfo) { (c.right > c.left || c.right > 2) && c.right > 1 }
  predicate TopBlocked(c: ColInfo) { c.top > 1 }
  predicate BottomBlocked(c: ColInfo) { c.bottom > 1 }

  /** The side bits a blocked contact adds, on the velocity truncated to ints:
      a side is reported when it blocks and the velocity points into it. */
  function NewSides(c: ColInfo, vx: int, vy: int): (s: bv8)
    ensures s & COL_LEFT != 0 <==> LeftBlocked(c) && vx < 0
    ensures s & COL_RIGHT != 0 <==> RightBlocked(c) && vx > 0
    ensures s & COL_TOP != 0 <==> TopBlocked(c) && vy < 0
    ensures s & COL_BOTTOM != 0 <==> BottomBlocked(c) && vy > 0
    ensures s & !COL_ALL == 0
  {
    HSide(c, vx) | VSide(c, vy)
  }

  function HSide(c: ColInfo, vx: int): bv8 {
    if LeftBlocked(c) && vx < 0 then COL_LEFT else if RightBlocked(c) && vx > 0 then COL_RIGHT else 0
  }

  function VSide(c: ColInfo, vy: int): bv8 {
    if TopBlocked(c) && vy < 0 then COL_TOP else if BottomBlocked(c) && vy > 0 then COL_BOTTOM else 0
  }

  /** Opposite sides are never reported by the same contact. */
  lemma NewSidesNotOpposite(c: ColInfo, vx: int, vy: int)
    ensures NewSides(c, vx, vy) & COL_LEFT == 0 || NewSides(c, vx, vy) & COL_RIGHT == 0
    ensures NewSides(c, vx, vy) & COL_TOP == 0 || NewSides(c, vx, vy) & COL_BOTTOM == 0
  {
  }

  /** A velocity component after a blocked contact: `|(int)v| < 2` stops it. */
  function Damp(v: real): (r: real)
    ensures r == 0.0 || r == v
    ensures r == 0.0 <== -2.0 < v < 2.0
    ensures r == v <== v <= -2.0 || 2.0 <= v
  {
    TruncSmall(v);
    if -2 < Trunc(v) < 2 then 0.0 else v
  }

  /** The axis blocks: a blocking wall the truncated velocity does not leave. */
  predicate BlocksX(c: ColInfo, vx: int) { (LeftBlocked(c) && vx <= 0) || (RightBlocked(c) && vx >= 0) }
  predicate BlocksY(c: ColInfo, vy: int) { (TopBlocked(c) && vy <= 0) || (BottomBlocked(c) && vy >= 0) }

  /** The side-finding part of `HandleCollision` for bouncing and
      pass-through-slowed projectiles, on the velocity truncated to ints. */
  function Block(c: ColInfo, k: Kin, oldpos: Vec, bounce: bool): Kin
  {
    var vx, vy := Trunc(k.vel.x), Trunc(k.vel.y);
    Kin(Vec(if bounce && BlocksX(c, vx) then oldpos.x else k.pos.x,
            if bounce && BlocksY(c, vy) then oldpos.y else k.pos.y),
        k.oldPos,
        Vec(Damp(k.vel.x), Damp(k.vel.y)),
        k.side | NewSides(c, vx, vy))
  }

  /** Hit types that `HandleCollision` answers by restoring the last
      confirmed position and the frame's start velocity. */
  predicate Reverts(hit: Action, c: ColInfo) {
    !(hit.kind == Explode && c.onlyDirt) && hit.kind !in {Bounce, Nothing, GoThrough}
  }

  /** The result of `HandleCollision` for descriptor hit action `hit`, scan
      result c, current kinematics k, the frame's start position and velocity
      and the step length. */
  function ResolveHit(hit: Action, c: ColInfo, k: Kin, oldpos: Vec, oldvel: Vec, dt: real): (r: Resolution)
    ensures r.stands <==> hit.kind != GoThrough
    ensures hit.kind == Explode && c.onlyDirt ==> r.kin == k
    ensures Reverts(hit, c) ==> r.kin == Kin(k.oldPos, k.oldPos, oldvel, k.side)
    ensures hit.kind == GoThrough ==> r.kin.oldPos == k.oldPos && r.kin.vel == k.vel && r.kin.side == k.side
    ensures hit.kind in {Bounce, Nothing} ==>
      r.kin.side == k.side | NewSides(c, Trunc(k.vel.x), Trunc(k.vel.y))
      && r.kin.vel == Vec(Damp(k.vel.x), Damp(k.vel.y))
    ensures hit.kind == Bounce ==>
      r.kin.oldPos == k.oldPos
      && r.kin.pos.x == (if BlocksX(c, Trunc(k.vel.x)) then oldpos.x else k.pos.x)
      && r.kin.pos.y == (if BlocksY(c, Trunc(k.vel.y)) then oldpos.y else k.pos.y)
    ensures hit.kind == Nothing ==> r.kin.pos == r.kin.oldPos
  {
    if hit.kind == Explode && c.onlyDirt then Resolution(true, k)
    else match hit.kind
      case Bounce => Resolution(true, Block(c, k, oldpos, true))
      case Nothing =>
        var p := Add(oldpos, Scale(Scale(k.vel, dt), 0.5));
        Resolution(true, Block(c, k.(pos := p, oldPos := p), oldpos, false))
      case GoThrough =>
        Resolution(false, k.(pos := Add(oldpos, Scale(Scale(k.vel, dt), hit.goThroughSpeed))))
      case _ => Resolution(true, k.(pos := k.oldPos, vel := oldvel))
  }

  class Projectile {
    const desc: ProjDesc
    var position: Vec
    var oldPosition: Vec
    var velocity: Vec
    var radius: IVec
    var collisionSide: bv8
    var life: real
    var health: int
    var owner: int
    var randomIndex: int
    var randomFloat: real
    var timeVarRandom: real
    var ignoreWormCollBeforeTime: real
    var lastSimulationTime: real
    var timerInfo: map<TimerId, TimerState>
    var used: bool

    /** A freshly spawned projectile (what the engine's spawn call sets up). */
    constructor (desc: ProjDesc, position: Vec, velocity: Vec, radius: IVec, owner: int,
                 health: int, randomIndex: int, randomFloat: real, timeVarRandom: real,
                 spawnTime: real, ignoreWormCollBeforeTime: real)
      ensures this.desc == desc && this.position == position && this.oldPosition == position
      ensures this.velocity == velocity && this.radius == radius && this.owner == owner
      ensures this.health == health && this.randomIndex == randomIndex
      ensures this.randomFloat == randomFloat && this.timeVarRandom == timeVarRandom
      ensures this.lastSimulationTime == spawnTime
      ensures this.ignoreWormCollBeforeTime == ignoreWormCollBeforeTime
      ensures life == 0.0 && collisionSide == 0 && timerInfo == map[] && used
    {
      this.desc := desc;
      this.position, this.oldPosition, this.velocity := position, position, velocity;
      this.radius, this.owner, this.health := radius, owner, health;
      this.randomIndex, this.randomFloat, this.timeVarRandom := randomIndex, randomFloat, timeVarRandom;
      this.lastSimulationTime := spawnTime;
      this.ignoreWormCollBeforeTime := ignoreWormCollBeforeTime;
      life, collisionSide, timerInfo, used := 0.0, 0, map[], true;
    }

    /** The projectile seen at integer position (px, py). */
    function ProbeAt(px: int, py: int): Probe
      reads this
    {
      Probe(px, py, radius.x, radius.y, desc.shape == Circle)
    }

    function Kinematics(): Kin
      reads this
    {
      Kin(position, oldPosition, velocity, collisionSide)
    }

    /** `CProjectile::MapBoundsCollision`: rebuilds `CollisionSide` from
        scratch and reports whether any border was crossed. */
    method MapBoundsCollision(m: Map, px: int, py: int) returns (hit: bool)
      modifies this`collisionSide
      ensures collisionSide == BoundsMask(px, py, radius, m.width, m.height)
      ensures hit <==> collisionSide != 0
    {
      collisionSide := 0;
      if px - radius.x < 0 {
        collisionSide := collisionSide | COL_LEFT;
      }
      if px + radius.x >= m.width {
        collisionSide := collisionSide | COL_RIGHT;
      }
      if py - radius.y < 0 {
        collisionSide := collisionSide | COL_TOP;
      }
      if py + radius.y >= m.height {
        collisionSide := collisionSide | COL_BOTTOM;
      }
      hit := collisionSide != 0;
    }

    /** `CProjectile::TerrainCollision`, called only after the bounds check
        passed: the fast reject over the four corner cells, otherwise the
        pixel scan of the bounding box. */
    method TerrainCollision(m: Map, px: int, py: int) returns (res: ColInfo)
      requires m.Valid() && InBounds(m, ProbeAt(px, py))
      ensures res == TerrainScan(m, ProbeAt(px, py))
    {
      ghost var p := ProbeAt(px, py);
      res := NoContact;
      if radius.x * 2 < m.gridWidth && radius.y * 2 < m.gridHeight {
        var gf1 := GridIndex(m, px - radius.x, py - radius.y);
        var gf2 := GridIndex(m, px + radius.x, py - radius.y);
        var gf3 := GridIndex(m, px - radius.x, py + radius.y);
        var gf4 := GridIndex(m, px + radius.x, py + radius.y);
        var pf := m.gridFlags;
        if (pf[gf1] | pf[gf2] | pf[gf3] | pf[gf4]) == PX_EMPTY {
          return;
        }
      }
      var y := py - radius.y;
      while y <= py + radius.y
        invariant py - radius.y <= y <= py + radius.y + 1
        invariant res == ScanBox(m, p, y)
      {
        var x := px - radius.x;
        while x <= px + radius.x
          invariant px - radius.x <= x <= px + radius.x + 1
          invariant res == ScanRow(m, p, ScanBox(m, p, y), y, x)
        {
          res := ScanPixel(m, px, py, x, y, res);
          x := x + 1;
        }
        y := y + 1;
      }
    }

    /** One pixel of `TerrainCollision`'s scan: skipped outside a circle,
        otherwise counted on its sides when solid. */
    method ScanPixel(m: Map, px: int, py: int, x: int, y: int, c: ColInfo) returns (res: ColInfo)
      requires m.Valid() && InBounds(m, ProbeAt(px, py)) && InBox(ProbeAt(px, py), x, y)
      ensures res == if InShape(ProbeAt(px, py), x, y) then Visit(c, ProbeAt(px, py), x, y, m.pixelFlags[y, x]) else c
    {
      res := c;
      var outside := desc.shape == Circle
        && (x - px) * (x - px) + (y - py) * (y - py) > radius.x * radius.x + radius.y * radius.y;
      if !outside {
        var f := m.pixelFlags[y, x];
        if f & (PX_DIRT | PX_ROCK) != 0 {
          if y < py {
            res := res.(top := res.top + 1);
          } else if y > py {
            res := res.(bottom := res.bottom + 1);
          }
          if x < px {
            res := res.(left := res.left + 1);
          } else if x > px {
            res := res.(right := res.right + 1);
          }
          if f & PX_ROCK != 0 {
            res := res.(onlyDirt := false);
          }
          res := res.(collided := true);
        }
      }
    }

    /** `CProjectile::HandleCollision`: resolves a terrain hit by the
        descriptor's hit type; false means the collision is ignored. */
    method HandleCollision(c: ColInfo, oldpos: Vec, oldvel: Vec, dt: real) returns (stands: bool)
      modifies this`position, this`oldPosition, this`velocity, this`collisionSide
      ensures Resolution(stands, Kinematics()) == ResolveHit(desc.hit, c, old(Kinematics()), oldpos, oldvel, dt)
    {
      if desc.hit.kind == Explode && c.onlyDirt {
        return true;
      }
      var bounce := false;
      match desc.hit.kind {
        case Bounce =>
          bounce := true;
        case Nothing =>
          position := Add(oldpos, Scale(Scale(velocity, dt), 0.5));
          oldPosition := position;
        case GoThrough =>
          position := Add(oldpos, Scale(Scale(velocity, dt), desc.hit.goThroughSpeed));
          return false;
        case _ =>
          position := oldPosition;
          velocity := oldvel;
          return true;
      }
      BlockContact(c, oldpos, bounce);
      stands := true;
    }

    /** The side-finding tail of `HandleCollision` for `Bounce` and
        `Nothing`: report blocking sides, push a bouncing projectile back on
        a blocked axis, and stop slow velocity components. */
    method BlockContact(c: ColInfo, oldpos: Vec, bounce: bool)
      modifies this`position, this`velocity, this`collisionSide
      ensures Kinematics() == Block(c, old(Kinematics()), oldpos, bounce)
    {
      var vx := Trunc(velocity.x);
      var vy := Trunc(velocity.y);
      BlockX(c, vx, oldpos, bounce);
      BlockY(c, vy, oldpos, bounce);
      if -2 < vx < 2 {
        velocity := velocity.(x := 0.0);
      }
      if -2 < vy < 2 {
        velocity := velocity.(y := 0.0);
      }
    }

    /** The left and right walls of `BlockContact`, for truncated x velocity vx. */
    method BlockX(c: ColInfo, vx: int, oldpos: Vec, bounce: bool)
      modifies this`position, this`collisionSide
      ensures collisionSide == old(collisionSide) | HSide(c, vx)
      ensures position == old(position).(x := if bounce && BlocksX(c, vx) then oldpos.x else old(position).x)
    {
      if (c.left > c.right || c.left > 2) && c.left > 1 && vx <= 0 {
        if bounce {
          position := position.(x := oldpos.x);
        }
        if vx != 0 {
          collisionSide := collisionSide | COL_LEFT;
        }
      }
      if (c.right > c.left || c.right > 2) && c.right > 1 && vx >= 0 {
        if bounce {
          position := position.(x := oldpos.x);
        }
        if vx != 0 {
          collisionSide := collisionSide | COL_RIGHT;
        }
      }
    }

    /** The top and bottom walls of `BlockContact`, for truncated y velocity vy. */
    method BlockY(c: ColInfo, vy: int, oldpos: Vec, bounce: bool)
      modifies this`position, this`collisionSide
      ensures collisionSide == old(collisionSide) | VSide(c, vy)
      ensures position == old(position).(y := if bounce && BlocksY(c, vy) then oldpos.y else old(position).y)
    {
      if c.top > 1 && vy <= 0 {
        if bounce {
          position := position.(y := oldpos.y);
        }
        if vy != 0 {
          collisionSide := collisionSide | COL_TOP;
        }
      }
      if c.bottom > 1 && vy >= 0 {
        if bounce {
          position := position.(y := oldpos.y);
        }
        if vy != 0 {
          collisionSide := collisionSide | COL_BOTTOM;
        }
      }
    }
  }

  /** The colMask `SimulateFrame` reports for a terrain hit that stands. */
  function TerrainHitMask(c: ColInfo): (mask: bv8)
    ensures mask & PJC_TERRAIN != 0 && mask & PJC_MAPBORDER == 0
    ensures mask & PJC_DIRT != 0 <==> c.onlyDirt
  {
    if c.onlyDirt then PJC_TERRAIN | PJC_DIRT else PJC_TERRAIN
  }

  /** The colMask `SimulateFrame` reports for a map-border hit. */
  const BorderHitMask: bv8 := PJC_TERRAIN | PJC_MAPBORDER
}
