/** Shared value types of the LX56 projectile engine: optional values, the
    float vector and matrix types (modelled with exact reals), integer
    vectors, C-style integer conversions and the flag bits used by the
    collision code. */
module Base {

  datatype Option<T> = None | Some(value: T)

  /** A `CVec` (VectorD2<float>); float rounding is not modelled. */
  datatype Vec = Vec(x: real, y: real)

  /** A `VectorD2<int>`. */
  datatype IVec = IVec(x: int, y: int)

  /** A `MatrixD2<float>` in row-major order: [a b; c d]. */
  datatype Mat = Mat(a: real, b: real, c: real, d: real)

  const Zero: Vec := Vec(0.0, 0.0)
  const IZero: IVec := IVec(0, 0)
  const Identity: Mat := Mat(1.0, 0.0, 0.0, 1.0)

  function Add(u: Vec, v: Vec): Vec { Vec(u.x + v.x, u.y + v.y) }
  function Scale(u: Vec, k: real): Vec { Vec(u.x * k, u.y * k) }
  function IAdd(u: IVec, v: IVec): IVec { IVec(u.x + v.x, u.y + v.y) }

  /** Matrix times vector. */
  function Apply(m: Mat, v: Vec): Vec {
    Vec(m.a * v.x + m.b * v.y, m.c * v.x + m.d * v.y)
  }

  /** Matrix product `m * n`. */
  function Mul(m: Mat, n: Mat): Mat {
    Mat(m.a * n.a + m.b * n.c, m.a * n.b + m.b * n.d,
        m.c * n.a + m.d * n.c, m.c * n.b + m.d * n.d)
  }

  /** Applying a product applies the right factor first. */
  lemma MulApply(m: Mat, n: Mat, v: Vec)
    ensures Apply(Mul(m, n), v) == Apply(m, Apply(n, v))
  {
  }

  lemma IdentityApply(v: Vec)
    ensures Apply(Identity, v) == v
  {
  }

  /** C's `(int)f` conversion: truncation toward zero. */
  function Trunc(r: real): (n: int)
    ensures n as real <= r < n as real + 1.0 || n as real - 1.0 < r <= n as real
    ensures 0.0 <= r ==> 0 <= n
    ensures r <= 0.0 ==> n <= 0
    ensures -1.0 < r < 1.0 ==> n == 0
  {
    if r >= 0.0 then r.Floor else -((-r).Floor)
  }

  /** `|(int)v| < 2` holds exactly when `|v| < 2`. */
  lemma TruncSmall(r: real)
    ensures -2 < Trunc(r) < 2 <==> -2.0 < r < 2.0
  {
  }

  /** C's `%` on `int`: the remainder takes the sign of the dividend. */
  function CMod(a: int, b: int): (r: int)
    requires b != 0
    ensures a == CDiv(a, b) * b + r
    ensures 0 <= a ==> 0 <= r < if b > 0 then b else -b
    ensures a < 0 ==> -(if b > 0 then b else -b) < r <= 0
  {
    if a >= 0 then a % b else -((-a) % b)
  }

  /** C's `/` on `int`: the quotient is truncated toward zero. */
  function CDiv(a: int, b: int): int
    requires b != 0
  {
    if a >= 0 then a / b else -((-a) / b)
  }

  /** `(size_t)n` for a 32-bit `int` n on a 64-bit target. */
  function SizeT(n: int): (r: nat)
    requires -0x8000_0000 <= n < 0x8000_0000
    ensures 0 <= n ==> r == n
    ensures n < 0 ==> r >= 0x1_0000_0000
  {
    n % 0x1_0000_0000_0000_0000
  }

  // Collision-side bits of `CProjectile::CollisionSide`.
  const COL_TOP: bv8 := 0x01
  const COL_BOTTOM: bv8 := 0x02
  const COL_LEFT: bv8 := 0x04
  const COL_RIGHT: bv8 := 0x08

  // Pixel and grid-cell flags of the map.
  const PX_EMPTY: bv8 := 0x01
  const PX_DIRT: bv8 := 0x02
  const PX_SHADOW: bv8 := 0x04
  const PX_WORM: bv8 := 0x08
  const PX_ROCK: bv8 := 0x10

  // Bits of `ProjCollisionType::colMask`.
  const PJC_NONE: bv8 := 0x00
  const PJC_TERRAIN: bv8 := 0x01
  const PJC_MAPBORDER: bv8 := 0x02
  const PJC_DIRT: bv8 := 0x04

  /** The size of the remote worm table. */
  const MAX_WORMS: int := 32
}
