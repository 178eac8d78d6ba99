/** What the tracker's overlap measures: on any grid, the share of the cells covered by either
    box that both cover. */
module OverlapMeasure {
  import opened Geometry
  import opened Tracking

  /** A box by its corner and sides in grid cells. */
  datatype GridBox = GridBox(x: int, y: int, width: nat, height: nat)

  function OnGrid(b: GridBox, pitch: real): Box {
    Box(pitch * b.x as real, pitch * b.y as real, pitch * b.width as real, pitch * b.height as real)
  }

  ghost function Cells(b: GridBox): set<(int, int)> {
    set i, j | b.x <= i < b.x + b.width && b.y <= j < b.y + b.height :: (i, j)
  }

  lemma {:induction false} RowCells(b: GridBox)
    requires b.height == 1
    ensures |Cells(b)| == b.width
    decreases b.width
  {
    if b.width == 0 {
      assert Cells(b) == {};
    } else {
      var fewer := b.(width := b.width - 1);
      RowCells(fewer);
      assert Cells(b) == Cells(fewer) + {(b.x + fewer.width, b.y)};
    }
  }

  lemma TopRow(b: GridBox)
    requires b.height > 0
    ensures var fewer, row := b.(height := b.height - 1), GridBox(b.x, b.y + b.height - 1, b.width, 1);
            Cells(b) == Cells(fewer) + Cells(row) && Cells(fewer) !! Cells(row)
  {}

  lemma {:induction false} CellCount(b: GridBox)
    ensures |Cells(b)| == b.width * b.height
    decreases b.height
  {
    hide Cells;
    if b.height == 0 {
      NoCells(b);
    } else {
      var fewer := b.(height := b.height - 1);
      CellCount(fewer);
      RowCells(GridBox(b.x, b.y + b.height - 1, b.width, 1));
      TopRow(b);
      assert b.width * b.height == b.width * fewer.height + b.width;
    }
  }

  lemma NoCells(b: GridBox)
    requires b.height == 0
    ensures Cells(b) == {}
  {}

  function IntMax(a: int, b: int): int {
    if a < b then b else a
  }

  function IntMin(a: int, b: int): int {
    if a < b then a else b
  }

  /** The common part of two intervals of cells. */
  function CommonLength(a0: int, aw: nat, b0: int, bw: nat): nat {
    IntMax(0, IntMin(a0 + aw, b0 + bw) - IntMax(a0, b0))
  }

  function Common(a: GridBox, b: GridBox): GridBox {
    GridBox(IntMax(a.x, b.x), IntMax(a.y, b.y), CommonLength(a.x, a.width, b.x, b.width),
            CommonLength(a.y, a.height, b.y, b.height))
  }

  lemma CommonCells(a: GridBox, b: GridBox)
    ensures Cells(a) * Cells(b) == Cells(Common(a, b))
  {
    forall i, j ensures (i, j) in Cells(a) * Cells(b) <==> (i, j) in Cells(Common(a, b)) {}
  }

  // ---------------------------------------------------------------- enlarging

  /** Multiplication, kept out of sight where only its laws matter. */
  function Product(x: real, y: real): real {
    x * y
  }

  function Scaled(b: Box, g: real): Box {
    Box(Product(g, b.x), Product(g, b.y), Product(g, b.width), Product(g, b.height))
  }

  lemma Positive(g: real, h: real)
    requires g > 0.0 && h > 0.0
    ensures Product(g, h) > 0.0
  {}

  lemma Distributes(g: real, x: real, y: real)
    ensures Product(g, x + y) == Product(g, x) + Product(g, y)
    ensures Product(g, x - y) == Product(g, x) - Product(g, y)
    ensures Product(g, 0.0) == 0.0
  {}

  lemma Order(g: real, x: real, y: real)
    requires g > 0.0
    ensures Product(g, x) <= Product(g, y) <==> x <= y
  {
    hide Product;
    Distributes(g, x, y);
    Distributes(g, y, x);
    if x < y {
      Positive(g, y - x);
    } else if y < x {
      Positive(g, x - y);
    }
  }

  lemma ExtremesScale(g: real, x: real, y: real)
    requires g > 0.0
    ensures Max(Product(g, x), Product(g, y)) == Product(g, Max(x, y))
    ensures Min(Product(g, x), Product(g, y)) == Product(g, Min(x, y))
  {
    hide Product;
    Order(g, x, y);
    Order(g, y, x);
  }

  lemma OverlapScales(g: real, a0: real, aw: real, b0: real, bw: real)
    requires g > 0.0
    ensures Overlap(Product(g, a0), Product(g, aw), Product(g, b0), Product(g, bw)) ==
            Product(g, Overlap(a0, aw, b0, bw))
  {
    hide Product, Max, Min;
    Distributes(g, a0, aw);
    Distributes(g, b0, bw);
    ExtremesScale(g, a0, b0);
    ExtremesScale(g, a0 + aw, b0 + bw);
    Distributes(g, Min(a0 + aw, b0 + bw), Max(a0, b0));
    ExtremesScale(g, 0.0, Min(a0 + aw, b0 + bw) - Max(a0, b0));
  }

  lemma Regroup(g: real, u: real, v: real)
    ensures Product(Product(g, u), Product(g, v)) == Product(Product(g, g), Product(u, v))
  {}

  function Quotient(inter: real, areaA: real, areaB: real): real {
    var union := areaA + areaB - inter;
    if union > 0.0 then inter / union else 0.0
  }

  /** The quotient that the overlap is, of areas that all grow alike. */
  lemma QuotientScales(k: real, x: real, y: real, z: real)
    requires k > 0.0
    ensures Quotient(Product(k, x), Product(k, y), Product(k, z)) == Quotient(x, y, z)
  {
    hide Product;
    var union := y + z - x;
    Distributes(k, y, z);
    Distributes(k, y + z, x);
    Order(k, union, 0.0);
    Distributes(k, union, 0.0);
    if union > 0.0 {
      CancelFactor(k, x, union);
    }
  }

  lemma CancelFactor(k: real, x: real, union: real)
    requires k > 0.0 && union > 0.0
    ensures Product(k, union) > 0.0 && Product(k, x) / Product(k, union) == x / union
  {
    Positive(k, union);
    var q := x / union;
    assert q * union == x;
    assert q * (k * union) == k * (q * union);
  }

  lemma IoUIsQuotient(a: Box, b: Box)
    ensures IoU(a, b) ==
            Quotient(Product(Overlap(a.x, a.width, b.x, b.width), Overlap(a.y, a.height, b.y, b.height)),
                     Product(a.width, a.height), Product(b.width, b.height))
  {
    hide Overlap;
  }

  /** Enlarging both boxes alike changes nothing. */
  lemma IoUScales(a: Box, b: Box, g: real)
    requires g > 0.0
    ensures IoU(Scaled(a, g), Scaled(b, g)) == IoU(a, b)
  {
    hide Product, Overlap, IoU, Quotient;
    IoUIsQuotient(a, b);
    IoUIsQuotient(Scaled(a, g), Scaled(b, g));
    var u, v := Overlap(a.x, a.width, b.x, b.width), Overlap(a.y, a.height, b.y, b.height);
    OverlapScales(g, a.x, a.width, b.x, b.width);
    OverlapScales(g, a.y, a.height, b.y, b.height);
    Positive(g, g);
    Regroup(g, u, v);
    Regroup(g, a.width, a.height);
    Regroup(g, b.width, b.height);
    QuotientScales(Product(g, g), Product(u, v), Product(a.width, a.height), Product(b.width, b.height));
  }

  // ---------------------------------------------------------------- the unit grid

  lemma RealLength(a0: int, aw: nat, b0: int, bw: nat)
    ensures Overlap(a0 as real, aw as real, b0 as real, bw as real) == CommonLength(a0, aw, b0, bw) as real
  {}

  lemma UnitArea(b: GridBox)
    ensures Area(OnGrid(b, 1.0)) == |Cells(b)| as real
  {
    hide Cells;
    CellCount(b);
    RealProduct(b.width, b.height);
  }

  lemma UnitIntersection(a: GridBox, b: GridBox)
    ensures Intersection(OnGrid(a, 1.0), OnGrid(b, 1.0)) == Area(OnGrid(Common(a, b), 1.0))
  {
    hide Overlap, CommonLength;
    RealLength(a.x, a.width, b.x, b.width);
    RealLength(a.y, a.height, b.y, b.height);
  }

  /** Intersection and areas on the unit grid are cell counts. */
  lemma UnitCounts(a: GridBox, b: GridBox)
    ensures Intersection(OnGrid(a, 1.0), OnGrid(b, 1.0)) == |Cells(a) * Cells(b)| as real
    ensures Area(OnGrid(a, 1.0)) == |Cells(a)| as real && Area(OnGrid(b, 1.0)) == |Cells(b)| as real
  {
    hide Intersection, OnGrid, Area, Cells, Common;
    UnitArea(a);
    UnitArea(b);
    UnitIntersection(a, b);
    CommonCells(a, b);
    UnitArea(Common(a, b));
  }

  lemma UnionCount(s: set<(int, int)>, t: set<(int, int)>)
    ensures |s + t| == |s| + |t| - |s * t| && |s * t| <= |s + t|
  {
    assert s * t <= s + t && s + t == (s + t - s * t) + s * t;
  }

  lemma UnitIoU(a: GridBox, b: GridBox)
    ensures IoU(OnGrid(a, 1.0), OnGrid(b, 1.0)) * |Cells(a) + Cells(b)| as real == |Cells(a) * Cells(b)| as real
  {
    hide Intersection, Cells, OnGrid, Area;
    UnitCounts(a, b);
    UnionCount(Cells(a), Cells(b));
    CountQuotient(IoU(OnGrid(a, 1.0), OnGrid(b, 1.0)), |Cells(a)|, |Cells(b)|, |Cells(a) * Cells(b)|);
  }

  lemma CountQuotient(q: real, m: nat, n: nat, both: nat)
    requires both <= m + n - both
    requires q == Quotient(both as real, m as real, n as real)
    ensures q * (m + n - both) as real == both as real
  {
    QuotientTimes(both as real, (m + n - both) as real);
  }

  lemma QuotientTimes(inter: real, union: real)
    ensures union > 0.0 ==> inter / union * union == inter
  {}

  lemma RealProduct(m: nat, n: nat)
    ensures m as real * n as real == (m * n) as real
  {}

  lemma GridScales(b: GridBox, pitch: real)
    ensures OnGrid(b, pitch) == Scaled(OnGrid(b, 1.0), pitch)
  {}

  /** For boxes on a grid of any pitch, the overlap times the number of cells in either box is
      the number of cells in both. */
  lemma IoUIsCellRatio(a: GridBox, b: GridBox, pitch: real)
    requires pitch > 0.0
    ensures IoU(OnGrid(a, pitch), OnGrid(b, pitch)) * |Cells(a) + Cells(b)| as real == |Cells(a) * Cells(b)| as real
  {
    hide IoU, Cells, OnGrid, Scaled;
    UnitIoU(a, b);
    GridScales(a, pitch);
    GridScales(b, pitch);
    IoUScales(OnGrid(a, 1.0), OnGrid(b, 1.0), pitch);
  }

  lemma ShiftedProduct(x: real, y: real, w: real, h: real, d: real)
    requires w > 0.0 && h > 0.0 && 0.0 <= d <= w
    ensures Product(IoU(Box(x, y, w, h), Box(x + d, y, w, h)), w + d) == w - d
    ensures Product(IoU(Box(y, x, h, w), Box(y, x + d, h, w)), w + d) == w - d
  {
    hide IoU, Quotient, Product;
    Shift(x, w, d);
    IoUIsQuotient(Box(x, y, w, h), Box(x + d, y, w, h));
    IoUIsQuotient(Box(y, x, h, w), Box(y, x + d, h, w));
    Commutes(h, w - d);
    Commutes(h, w);
    ShiftedQuotient(w, h, d);
  }

  /** A box moved along itself overlaps by what is left of it. */
  lemma ShiftedBox(x: real, y: real, w: real, h: real, d: real)
    requires w > 0.0 && h > 0.0 && 0.0 <= d <= w
    ensures IoU(Box(x, y, w, h), Box(x + d, y, w, h)) * (w + d) == w - d
    ensures IoU(Box(y, x, h, w), Box(y, x + d, h, w)) * (w + d) == w - d
  {
    hide IoU;
    ShiftedProduct(x, y, w, h, d);
  }

  lemma Shift(x: real, w: real, d: real)
    requires 0.0 <= d <= w
    ensures Overlap(x, w, x + d, w) == w - d
  {}

  lemma Commutes(x: real, y: real)
    ensures Product(x, y) == Product(y, x)
  {}

  lemma ShiftedQuotient(w: real, h: real, d: real)
    requires w > 0.0 && h > 0.0 && 0.0 <= d <= w
    ensures Product(Quotient(Product(w - d, h), Product(w, h), Product(w, h)), w + d) == w - d
  {
    hide Product;
    Commutes(w - d, h);
    Commutes(w, h);
    Distributes(h, w, w);
    Distributes(h, w + w, w - d);
    Positive(h, w + d);
    CancelFactor(h, w - d, w + d);
    Undivided(w - d, w + d);
  }

  lemma Undivided(x: real, y: real)
    requires y > 0.0
    ensures Product(x / y, y) == x
  {}
}
