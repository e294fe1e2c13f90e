/** The schematic map: facilities placed on a near-square grid in list
    order. */
module DataCenterMap {
  import opened DataCenterType

  /** The least `c` with `c * c >= total`, `Math.ceil(Math.sqrt(total))`
      for the list sizes the page can hold. */
  function CeilSqrt(total: nat): (c: nat)
    ensures c * c >= total
    ensures c == 0 || (c - 1) * (c - 1) < total
  {
    CeilSqrtFrom(total, 0)
  }

  function CeilSqrtFrom(total: nat, c: nat): (r: nat)
    requires c == 0 || (c - 1) * (c - 1) < total
    ensures r * r >= total && r >= c
    ensures r == 0 || (r - 1) * (r - 1) < total
    decreases total - c
  {
    if c * c >= total then c
    else
      CeilSqrtFrom(total, c + 1)
  }

  /** `Math.ceil(a / b)` for natural numbers. */
  function CeilDiv(a: nat, b: nat): (q: nat)
    requires b > 0
    ensures q * b >= a && (q == 0 || (q - 1) * b < a)
  {
    var q := (a + b - 1) / b;
    assert q * b == a + b - 1 - (a + b - 1) % b;
    q
  }

  datatype Cell = Cell(row: nat, col: nat)

  datatype Position = Position(top: real, left: real)

  /** `row` and `col` of `getMarkerPosition`. */
  function GridCell(index: nat, total: nat): Cell
    requires index < total
  {
    var cols := CeilSqrt(total);
    Cell(index / cols, index % cols)
  }

  /** `getMarkerPosition(index, total)`, in percent. */
  function MarkerPosition(index: nat, total: nat): Position
    requires index < total
  {
    var cols := CeilSqrt(total);
    var c := GridCell(index, total);
    var rows := CeilDiv(total, cols);
    Position(20.0 + (c.row * 60) as real / rows as real, 10.0 + (c.col * 80) as real / cols as real)
  }

  /** The cell holds the index row by row: its column is within the grid
      and `row * cols + col == index`. */
  lemma GridCellSpec(index: nat, total: nat)
    requires index < total
    ensures var c := GridCell(index, total);
            c.col < CeilSqrt(total) && c.row * CeilSqrt(total) + c.col == index
            && c.row < CeilDiv(total, CeilSqrt(total))
  {
    var cols := CeilSqrt(total);
    var c := GridCell(index, total);
    var rows := CeilDiv(total, cols);
    assert c.row * cols + c.col == index;
    FactorLess(c.row, rows, cols);
  }

  lemma FactorLess(a: nat, b: nat, k: nat)
    requires k > 0 && a * k < b * k
    ensures a < b
  {
  }

  /** Different facilities never share a cell. */
  lemma GridCellInjective(i: nat, j: nat, total: nat)
    requires i < total && j < total && i != j
    ensures GridCell(i, total) != GridCell(j, total)
  {
    GridCellSpec(i, total);
    GridCellSpec(j, total);
  }

  /** Markers stay inside the drawing area: top in [20, 80) and left in
      [10, 90) percent. */
  lemma MarkerPositionBounds(index: nat, total: nat)
    requires index < total
    ensures 20.0 <= MarkerPosition(index, total).top < 80.0
    ensures 10.0 <= MarkerPosition(index, total).left < 90.0
  {
    GridCellSpec(index, total);
    var cols := CeilSqrt(total);
    var c := GridCell(index, total);
    var rows := CeilDiv(total, cols);
    assert (c.row * 60) as real < (rows * 60) as real;
    assert (c.row * 60) as real / rows as real < 60.0;
    assert (c.col * 80) as real < (cols * 80) as real;
    assert (c.col * 80) as real / cols as real < 80.0;
  }

  /** Different facilities get different marker positions, so no marker
      hides another. */
  lemma MarkerPositionInjective(i: nat, j: nat, total: nat)
    requires i < total && j < total && i != j
    ensures MarkerPosition(i, total) != MarkerPosition(j, total)
  {
    GridCellInjective(i, j, total);
    var cols := CeilSqrt(total);
    var rows := CeilDiv(total, cols);
    var a, b := GridCell(i, total), GridCell(j, total);
    assert rows > 0;
    if a.row != b.row {
      ScaleInjective(a.row * 60, b.row * 60, rows);
    } else {
      ScaleInjective(a.col * 80, b.col * 80, cols);
    }
  }

  lemma ScaleInjective(x: nat, y: nat, d: nat)
    requires d > 0 && x != y
    ensures x as real / d as real != y as real / d as real
  {
  }

  /** One marker per facility, in list order. */
  function Markers(dcs: seq<DataCenter>): seq<(DataCenter, Position)> {
    seq(|dcs|, i requires 0 <= i < |dcs| => (dcs[i], MarkerPosition(i, |dcs|)))
  }

  /** The map shows every facility once, in list order, each marker inside
      the drawing area and no two markers on the same spot. */
  lemma MarkersSpec(dcs: seq<DataCenter>)
    ensures |Markers(dcs)| == |dcs|
    ensures forall i :: 0 <= i < |dcs| ==>
              var m := Markers(dcs)[i];
              m.0 == dcs[i] && 20.0 <= m.1.top < 80.0 && 10.0 <= m.1.left < 90.0
    ensures forall i, j :: 0 <= i < j < |dcs| ==> Markers(dcs)[i].1 != Markers(dcs)[j].1
  {
    var ms := Markers(dcs);
    forall i | 0 <= i < |dcs|
      ensures 20.0 <= ms[i].1.top < 80.0 && 10.0 <= ms[i].1.left < 90.0
    {
      MarkerPositionBounds(i, |dcs|);
    }
    forall i, j | 0 <= i < j < |dcs|
      ensures ms[i].1 != ms[j].1
    {
      MarkerPositionInjective(i, j, |dcs|);
    }
  }
}
