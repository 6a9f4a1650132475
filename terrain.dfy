/** The map as the collision code sees it, and the pixel scan of
    `CProjectile::TerrainCollision` stated as functions over the map. */
module Terrain {
  import opened Base

  /** `CMap`: a grid of per-pixel flag bytes (indexed `[y, x]`) and a coarse
      grid of per-cell flag bytes (indexed `row * gridCols + col`). */
  class Map {
    const width: int
    const height: int
    const gridWidth: int
    const gridHeight: int
    const gridCols: int
    const gridRows: int
    const pixelFlags: array2<bv8>
    const gridFlags: array<bv8>

    ghost predicate Valid() {
      && 0 < width && 0 < height
      && pixelFlags.Length0 == height && pixelFlags.Length1 == width
      && 0 < gridWidth && 0 < gridHeight && 0 < gridCols && 0 < gridRows
      && width <= gridCols * gridWidth && height <= gridRows * gridHeight
      && gridFlags.Length == gridCols * gridRows
    }

    constructor (width: int, height: int, gridWidth: int, gridHeight: int,
                 gridCols: int, gridRows: int, pixelFlags: array2<bv8>, gridFlags: array<bv8>)
      ensures this.width == width && this.height == height
      ensures this.gridWidth == gridWidth && this.gridHeight == gridHeight
      ensures this.gridCols == gridCols && this.gridRows == gridRows
      ensures this.pixelFlags == pixelFlags && this.gridFlags == gridFlags
    {
      this.width, this.height := width, height;
      this.gridWidth, this.gridHeight := gridWidth, gridHeight;
      this.gridCols, this.gridRows := gridCols, gridRows;
      this.pixelFlags, this.gridFlags := pixelFlags, gridFlags;
    }
  }

  /** `CProjectile::ColInfo`: solid-pixel counts per side of the centre and
      the two flags of the scan. */
  datatype ColInfo = ColInfo(left: int, right: int, top: int, bottom: int, collided: bool, onlyDirt: bool)

  /** The value the scan starts from, and the fast-reject result. */
  const NoContact: ColInfo := ColInfo(0, 0, 0, 0, false, true)

  /** A projectile at integer position (px, py) with radius (rx, ry); `circle`
      clips the scan to the radius' circle (`PRJ_CIRCLE`). */
  datatype Probe = Probe(px: int, py: int, rx: int, ry: int, circle: bool)

  /** The probe's box lies inside the map: the map-bounds check passed. */
  ghost predicate InBounds(m: Map, p: Probe) {
    && 0 <= p.rx && 0 <= p.ry
    && 0 <= p.px - p.rx && p.px + p.rx < m.width
    && 0 <= p.py - p.ry && p.py + p.ry < m.height
  }

  predicate InBox(p: Probe, x: int, y: int) {
    p.px - p.rx <= x <= p.px + p.rx && p.py - p.ry <= y <= p.py + p.ry
  }

  /** A pixel the scan does not skip: inside the circle for circular
      projectiles (integer squared lengths), anywhere in the box otherwise. */
  predicate InShape(p: Probe, x: int, y: int) {
    !p.circle || (x - p.px) * (x - p.px) + (y - p.py) * (y - p.py) <= p.rx * p.rx + p.ry * p.ry
  }

  predicate Solid(f: bv8) { f & (PX_DIRT | PX_ROCK) != 0 }
  predicate Rock(f: bv8) { f & PX_ROCK != 0 }

  /** Pixel (x, y) is scanned and solid. */
  ghost predicate Hit(m: Map, p: Probe, x: int, y: int)
    requires m.Valid() && InBounds(m, p)
    reads m.pixelFlags
  {
    InBox(p, x, y) && InShape(p, x, y) && Solid(m.pixelFlags[y, x])
  }

  /** Pixel (x, y) is scanned and rock. */
  ghost predicate RockHit(m: Map, p: Probe, x: int, y: int)
    requires m.Valid() && InBounds(m, p)
    reads m.pixelFlags
  {
    InBox(p, x, y) && InShape(p, x, y) && Rock(m.pixelFlags[y, x])
  }

  datatype Side = Left | Right | Top | Bottom

  function Count(c: ColInfo, s: Side): int {
    match s
    case Left => c.left
    case Right => c.right
    case Top => c.top
    case Bottom => c.bottom
  }

  /** The side of the centre a pixel counts for; row `py` and column `px`
      count for neither of their two sides. */
  predicate OnSide(p: Probe, s: Side, x: int, y: int) {
    match s
    case Left => x < p.px
    case Right => x > p.px
    case Top => y < p.py
    case Bottom => y > p.py
  }

  /** The effect of one scanned pixel on the running result. */
  function Visit(c: ColInfo, p: Probe, x: int, y: int, f: bv8): ColInfo {
    if !Solid(f) then c
    else ColInfo(
      c.left + (if x < p.px then 1 else 0),
      c.right + (if x > p.px then 1 else 0),
      c.top + (if y < p.py then 1 else 0),
      c.bottom + (if y > p.py then 1 else 0),
      true,
      c.onlyDirt && !Rock(f))
  }

  /** Row y scanned from the box's left edge up to column x (exclusive). */
  function ScanRow(m: Map, p: Probe, c: ColInfo, y: int, x: int): ColInfo
    requires m.Valid() && InBounds(m, p)
    requires p.py - p.ry <= y <= p.py + p.ry
    requires p.px - p.rx <= x <= p.px + p.rx + 1
    reads m.pixelFlags
    decreases x - (p.px - p.rx)
  {
    if x == p.px - p.rx then c
    else
      var c' := ScanRow(m, p, c, y, x - 1);
      if InShape(p, x - 1, y) then Visit(c', p, x - 1, y, m.pixelFlags[y, x - 1]) else c'
  }

  /** The rows of the box from its top edge up to row y (exclusive). */
  function ScanBox(m: Map, p: Probe, y: int): ColInfo
    requires m.Valid() && InBounds(m, p)
    requires p.py - p.ry <= y <= p.py + p.ry + 1
    reads m.pixelFlags
    decreases y - (p.py - p.ry)
  {
    if y == p.py - p.ry then NoContact
    else ScanRow(m, p, ScanBox(m, p, y - 1), y - 1, p.px + p.rx + 1)
  }

  /** The whole box scanned. */
  function FullScan(m: Map, p: Probe): ColInfo
    requires m.Valid() && InBounds(m, p)
    reads m.pixelFlags
  {
    ScanBox(m, p, p.py + p.ry + 1)
  }

  /** The coarse grid cell holding pixel (x, y). */
  function GridIndex(m: Map, x: int, y: int): (i: int)
    requires m.Valid() && 0 <= x < m.width && 0 <= y < m.height
    ensures 0 <= i < m.gridFlags.Length
  {
    GridIndexInRange(m, x, y);
    (y / m.gridHeight) * m.gridCols + x / m.gridWidth
  }

  lemma GridIndexInRange(m: Map, x: int, y: int)
    requires m.Valid() && 0 <= x < m.width && 0 <= y < m.height
    ensures 0 <= (y / m.gridHeight) * m.gridCols + x / m.gridWidth < m.gridFlags.Length
  {
    DivBelow(y, m.gridRows, m.gridHeight);
    DivBelow(x, m.gridCols, m.gridWidth);
    CellIndexBound(y / m.gridHeight, x / m.gridWidth, m.gridRows, m.gridCols);
  }

  lemma CellIndexBound(row: int, col: int, rows: int, cols: int)
    requires 0 <= row < rows && 0 <= col < cols
    ensures 0 <= row * cols + col < rows * cols
  {
    LeMul(row, rows - 1, cols);
    assert (rows - 1) * cols + cols == rows * cols;
  }

  lemma LeMul(a: int, b: int, k: int)
    requires a <= b && 0 <= k
    ensures a * k <= b * k
  {
  }

  lemma MulLessCancel(a: int, b: int, g: int)
    requires 0 < g && a * g < b * g
    ensures a < b
  {
  }

  lemma DivBelow(y: int, n: int, g: int)
    requires 0 <= y && 0 < g && y < n * g
    ensures y / g < n
  {
    assert (y / g) * g <= y;
    MulLessCancel(y / g, n, g);
  }

  /** Two coordinates closer than a cell are in the same or adjacent cells. */
  lemma DivNear(a: int, b: int, g: int)
    requires 0 <= a <= b && b - a < g && 0 < g
    ensures a / g <= b / g <= a / g + 1
  {
    var q := a / g;
    assert a < (q + 1) * g;
    assert b < (q + 2) * g;
    assert (b / g) * g <= b;
    MulLessCancel(b / g, q + 2, g);
    assert q * g <= a;
    assert b < (b / g + 1) * g;
    MulLessCancel(q, b / g + 1, g);
  }

  /** The projectile is smaller than one grid cell in both directions. */
  predicate Small(m: Map, p: Probe) {
    p.rx * 2 < m.gridWidth && p.ry * 2 < m.gridHeight
  }

  /** The four cells under the corners of the box OR together to exactly
      `PX_EMPTY`. */
  predicate CornersEmpty(m: Map, p: Probe)
    requires m.Valid() && InBounds(m, p)
    reads m.gridFlags
  {
    var gf := m.gridFlags;
    (gf[GridIndex(m, p.px - p.rx, p.py - p.ry)] | gf[GridIndex(m, p.px + p.rx, p.py - p.ry)]
      | gf[GridIndex(m, p.px - p.rx, p.py + p.ry)] | gf[GridIndex(m, p.px + p.rx, p.py + p.ry)]) == PX_EMPTY
  }

  /** What `TerrainCollision` computes: the fast reject for small projectiles
      over empty cells, the full scan otherwise. */
  function TerrainScan(m: Map, p: Probe): ColInfo
    requires m.Valid() && InBounds(m, p)
    reads m.pixelFlags, m.gridFlags
  {
    if Small(m, p) && CornersEmpty(m, p) then NoContact else FullScan(m, p)
  }

  // ---------------------------------------------------------------------
  // What the scan means

  lemma {:induction false} ScanRowCollided(m: Map, p: Probe, c: ColInfo, y: int, x: int)
    requires m.Valid() && InBounds(m, p)
    requires p.py - p.ry <= y <= p.py + p.ry
    requires p.px - p.rx <= x <= p.px + p.rx + 1
    ensures ScanRow(m, p, c, y, x).collided <==> c.collided || exists x' :: x' < x && Hit(m, p, x', y)
    ensures ScanRow(m, p, c, y, x).onlyDirt <==> c.onlyDirt && !exists x' :: x' < x && RockHit(m, p, x', y)
    decreases x - (p.px - p.rx)
  {
    if x != p.px - p.rx {
      ScanRowCollided(m, p, c, y, x - 1);
      var f := m.pixelFlags[y, x - 1];
      assert Hit(m, p, x - 1, y) <==> InShape(p, x - 1, y) && Solid(f);
      assert RockHit(m, p, x - 1, y) <==> InShape(p, x - 1, y) && Rock(f);
      assert Rock(f) ==> Solid(f);
      if Hit(m, p, x - 1, y) {
        assert exists x' :: x' < x && Hit(m, p, x', y);
      }
      if RockHit(m, p, x - 1, y) {
        assert exists x' :: x' < x && RockHit(m, p, x', y);
      }
      forall x' | x' < x && Hit(m, p, x', y) ensures x' < x - 1 || x' == x - 1 { }
      forall x' | x' < x && RockHit(m, p, x', y) ensures x' < x - 1 || x' == x - 1 { }
    }
  }

  lemma {:induction false} ScanBoxCollided(m: Map, p: Probe, y: int)
    requires m.Valid() && InBounds(m, p)
    requires p.py - p.ry <= y <= p.py + p.ry + 1
    ensures ScanBox(m, p, y).collided <==> exists x', y' :: y' < y && Hit(m, p, x', y')
    ensures ScanBox(m, p, y).onlyDirt <==> !exists x', y' :: y' < y && RockHit(m, p, x', y')
    decreases y - (p.py - p.ry)
  {
    if y != p.py - p.ry {
      ScanBoxCollided(m, p, y - 1);
      ScanRowCollided(m, p, ScanBox(m, p, y - 1), y - 1, p.px + p.rx + 1);
      forall x', y' | y' < y && Hit(m, p, x', y')
        ensures (y' < y - 1 && Hit(m, p, x', y')) || (x' < p.px + p.rx + 1 && Hit(m, p, x', y - 1)) { }
      forall x', y' | y' < y && RockHit(m, p, x', y')
        ensures (y' < y - 1 && RockHit(m, p, x', y')) || (x' < p.px + p.rx + 1 && RockHit(m, p, x', y - 1)) { }
    }
  }

  lemma {:induction false} ScanRowSides(m: Map, p: Probe, c: ColInfo, y: int, x: int, s: Side)
    requires m.Valid() && InBounds(m, p)
    requires p.py - p.ry <= y <= p.py + p.ry
    requires p.px - p.rx <= x <= p.px + p.rx + 1
    ensures Count(ScanRow(m, p, c, y, x), s) >= Count(c, s)
    ensures Count(ScanRow(m, p, c, y, x), s) > Count(c, s) <==> exists x' :: x' < x && Hit(m, p, x', y) && OnSide(p, s, x', y)
    decreases x - (p.px - p.rx)
  {
    if x != p.px - p.rx {
      ScanRowSides(m, p, c, y, x - 1, s);
      if Hit(m, p, x - 1, y) && OnSide(p, s, x - 1, y) {
        assert exists x' :: x' < x && Hit(m, p, x', y) && OnSide(p, s, x', y);
      }
      forall x' | x' < x && Hit(m, p, x', y) && OnSide(p, s, x', y) ensures x' < x - 1 || x' == x - 1 { }
    }
  }

  lemma {:induction false} ScanBoxSides(m: Map, p: Probe, y: int, s: Side)
    requires m.Valid() && InBounds(m, p)
    requires p.py - p.ry <= y <= p.py + p.ry + 1
    ensures Count(ScanBox(m, p, y), s) >= 0
    ensures Count(ScanBox(m, p, y), s) > 0 <==> exists x', y' :: y' < y && Hit(m, p, x', y') && OnSide(p, s, x', y')
    decreases y - (p.py - p.ry)
  {
    if y != p.py - p.ry {
      ScanBoxSides(m, p, y - 1, s);
      ScanRowSides(m, p, ScanBox(m, p, y - 1), y - 1, p.px + p.rx + 1, s);
      forall x', y' | y' < y && Hit(m, p, x', y') && OnSide(p, s, x', y')
        ensures (y' < y - 1 && Hit(m, p, x', y') && OnSide(p, s, x', y'))
             || (x' < p.px + p.rx + 1 && Hit(m, p, x', y - 1) && OnSide(p, s, x', y - 1)) { }
    }
  }

  /** The full scan: `collided` iff some scanned pixel is dirt or rock,
      `onlyDirt` iff no scanned pixel is rock, and each side's count is
      positive iff a scanned solid pixel lies strictly on that side. */
  lemma FullScanMeaning(m: Map, p: Probe)
    requires m.Valid() && InBounds(m, p)
    ensures FullScan(m, p).collided <==> exists x, y :: Hit(m, p, x, y)
    ensures FullScan(m, p).onlyDirt <==> !exists x, y :: RockHit(m, p, x, y)
    ensures forall s :: Count(FullScan(m, p), s) >= 0
    ensures forall s :: Count(FullScan(m, p), s) > 0 <==> exists x, y :: Hit(m, p, x, y) && OnSide(p, s, x, y)
  {
    var y := p.py + p.ry + 1;
    ScanBoxCollided(m, p, y);
    forall s ensures Count(FullScan(m, p), s) >= 0
      && (Count(FullScan(m, p), s) > 0 <==> exists x, y :: Hit(m, p, x, y) && OnSide(p, s, x, y))
    {
      ScanBoxSides(m, p, y, s);
    }
  }

  /** A pixel on the centre row adds to neither the top nor the bottom
      count. */
  lemma {:induction false} CentreRowNeutral(m: Map, p: Probe, c: ColInfo, x: int)
    requires m.Valid() && InBounds(m, p)
    requires p.px - p.rx <= x <= p.px + p.rx + 1
    ensures ScanRow(m, p, c, p.py, x).top == c.top
    ensures ScanRow(m, p, c, p.py, x).bottom == c.bottom
    decreases x - (p.px - p.rx)
  {
    if x != p.px - p.rx {
      CentreRowNeutral(m, p, c, x - 1);
    }
  }

  /** A pixel in the centre column adds to neither the left nor the right
      count, in every row. */
  lemma {:induction false} CentreColumnNeutral(m: Map, p: Probe, c: ColInfo, y: int, x: int)
    requires m.Valid() && InBounds(m, p)
    requires p.py - p.ry <= y <= p.py + p.ry
    requires p.px - p.rx <= x <= p.px + 1
    ensures ScanRow(m, p, c, y, x).right == c.right
    ensures ScanRow(m, p, c, y, p.px + 1).left == ScanRow(m, p, c, y, p.px).left
    decreases x - (p.px - p.rx)
  {
    if x != p.px - p.rx {
      CentreColumnNeutral(m, p, c, y, x - 1);
    }
  }

  // ---------------------------------------------------------------------
  // The fast reject agrees with the full scan on a consistent grid

  /** Every pixel's flags are contained in the flags of its grid cell. */
  ghost predicate GridConsistent(m: Map)
    requires m.Valid()
    reads m.pixelFlags, m.gridFlags
  {
    forall x, y :: 0 <= x < m.width && 0 <= y < m.height ==>
      m.pixelFlags[y, x] & !m.gridFlags[GridIndex(m, x, y)] == 0
  }

  lemma {:induction false} ScanRowNoHit(m: Map, p: Probe, c: ColInfo, y: int, x: int)
    requires m.Valid() && InBounds(m, p)
    requires p.py - p.ry <= y <= p.py + p.ry
    requires p.px - p.rx <= x <= p.px + p.rx + 1
    requires forall x' :: x' < x ==> !Hit(m, p, x', y)
    ensures ScanRow(m, p, c, y, x) == c
    decreases x - (p.px - p.rx)
  {
    if x != p.px - p.rx {
      ScanRowNoHit(m, p, c, y, x - 1);
      assert !Hit(m, p, x - 1, y);
    }
  }

  lemma {:induction false} ScanBoxNoHit(m: Map, p: Probe, y: int)
    requires m.Valid() && InBounds(m, p)
    requires p.py - p.ry <= y <= p.py + p.ry + 1
    requires forall x', y' :: y' < y ==> !Hit(m, p, x', y')
    ensures ScanBox(m, p, y) == NoContact
    decreases y - (p.py - p.ry)
  {
    if y != p.py - p.ry {
      ScanBoxNoHit(m, p, y - 1);
      ScanRowNoHit(m, p, NoContact, y - 1, p.px + p.rx + 1);
    }
  }

  /** A coordinate of a box narrower than a cell falls in the cell of one of
      the box's two edges. */
  lemma EdgeCell(lo: int, v: int, hi: int, g: int)
    requires 0 <= lo <= v <= hi && hi - lo < g && 0 < g
    ensures v / g == lo / g || v / g == hi / g
  {
    DivNear(lo, v, g);
    DivNear(v, hi, g);
    DivNear(lo, hi, g);
  }

  /** Under four empty corner cells of a small projectile, no pixel of its
      box is dirt or rock. */
  lemma NoSolidUnderEmptyCorners(m: Map, p: Probe, x: int, y: int)
    requires m.Valid() && InBounds(m, p) && GridConsistent(m)
    requires Small(m, p) && CornersEmpty(m, p) && InBox(p, x, y)
    ensures !Solid(m.pixelFlags[y, x])
  {
    EdgeCell(p.px - p.rx, x, p.px + p.rx, m.gridWidth);
    EdgeCell(p.py - p.ry, y, p.py + p.ry, m.gridHeight);
    var gf := m.gridFlags;
    var i := GridIndex(m, x, y);
    var i1, i2 := GridIndex(m, p.px - p.rx, p.py - p.ry), GridIndex(m, p.px + p.rx, p.py - p.ry);
    var i3, i4 := GridIndex(m, p.px - p.rx, p.py + p.ry), GridIndex(m, p.px + p.rx, p.py + p.ry);
    assert i == i1 || i == i2 || i == i3 || i == i4;
    assert (gf[i1] | gf[i2] | gf[i3] | gf[i4]) == PX_EMPTY;
    assert gf[i] & !PX_EMPTY == 0;
    assert m.pixelFlags[y, x] & !gf[i] == 0;
  }

  /** With the grid's cells covering their pixels' flags, the fast reject
      never hides a collision: the scan result equals the full scan. */
  lemma FastRejectSound(m: Map, p: Probe)
    requires m.Valid() && InBounds(m, p) && GridConsistent(m)
    ensures TerrainScan(m, p) == FullScan(m, p)
  {
    if Small(m, p) && CornersEmpty(m, p) {
      forall x', y' | InBox(p, x', y') ensures !Solid(m.pixelFlags[y', x']) {
        NoSolidUnderEmptyCorners(m, p, x', y');
      }
      ScanBoxNoHit(m, p, p.py + p.ry + 1);
    }
  }
}
