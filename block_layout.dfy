/**
 * `blockSeatPositions` (app.js:191-217): one side of the Westminster chart
 * as a grid of seats filled row by row, the government block between
 * x = 80 and the aisle at x = 430, the opposition block between the aisle at
 * x = 550 and x = 900, both between y = 80 and y = 500.
 */
module BlockLayout {
  import opened ChartTypes

  datatype Point = Point(x: real, y: real)

  const LeftPadding: real := 80.0
  const RightPadding: real := 900.0
  const AisleLeft: real := 430.0
  const AisleRight: real := 550.0
  const Top: real := 80.0
  const Bottom: real := 500.0

  /** n * n, by odd-number steps so that no product reaches the solver. */
  function Sq(n: nat): nat {
    if n == 0 then 0 else Sq(n - 1) + 2 * n - 1
  }

  lemma {:induction false} SqIsSquare(n: nat)
    ensures Sq(n) == n * n
  {
    if n > 0 {
      SqIsSquare(n - 1);
      MulDistrib(n - 1, 1, n - 1);
    }
  }

  /**
   * `Math.ceil(Math.sqrt(count * 1.25))`, searched upward from `m`: the
   * least r with 4 r^2 >= 5 count.
   */
  function CeilSqrtFrom(count: nat, m: nat): (r: nat)
    requires m == 0 || 4 * Sq(m - 1) < 5 * count
    ensures r >= m
    ensures 4 * Sq(r) >= 5 * count
    ensures r == 0 || 4 * Sq(r - 1) < 5 * count
    decreases 5 * count - 4 * Sq(m)
  {
    if 4 * Sq(m) >= 5 * count then m
    else
      CeilSqrtFrom(count, m + 1)
  }

  /** The number of columns: the ceiling of sqrt(1.25 count), and at least two. */
  function Columns(count: nat): (cols: nat)
    ensures cols >= 2
  {
    var r := CeilSqrtFrom(count, 0);
    if r < 2 then 2 else r
  }

  /**
   * The columns suffice for a square-ish grid of 1.25 count cells, and are
   * the fewest that do unless the floor of two columns applies.
   */
  lemma ColumnsSpec(count: nat)
    ensures var cols := Columns(count);
      && 4 * (cols * cols) >= 5 * count
      && (cols > 2 ==> 4 * ((cols - 1) * (cols - 1)) < 5 * count)
  {
    var r := CeilSqrtFrom(count, 0);
    var cols := Columns(count);
    if r < 2 {
      assert Sq(2) == 4;
    }
    SqIsSquare(cols);
    SqIsSquare(cols - 1);
  }

  /**
   * Above the floor of two, the columns are the one c with
   * 4 (c - 1)^2 < 5 count <= 4 c^2.
   */
  lemma ColumnsIs(count: nat, c: nat)
    requires c > 2 && 4 * (c * c) >= 5 * count && 4 * ((c - 1) * (c - 1)) < 5 * count
    ensures Columns(count) == c
  {
    ColumnsSpec(count);
    var cols := Columns(count);
    if cols < c {
      SquareMonotone(cols, c - 1);
    } else if cols > c {
      SquareMonotone(c, cols - 1);
    }
  }

  /** `Math.ceil(a / b)` on naturals: the least q with q * b >= a. */
  lemma CeilDiv(a: nat, b: nat)
    requires b > 0
    ensures ((a + b - 1) / b) * b >= a
    ensures (a + b - 1) / b == 0 || ((a + b - 1) / b - 1) * b < a
  {
    var q := (a + b - 1) / b;
    var rem := (a + b - 1) % b;
    assert a + b - 1 == q * b + rem;
    MulDistrib(q - 1, 1, b);
  }

  /** `Math.ceil(count / cols)`. */
  function GridRows(count: nat): nat {
    (count + Columns(count) - 1) / Columns(count)
  }

  /** The grid has room for every seat and no row to spare. */
  lemma GridRowsSpec(count: nat)
    ensures GridRows(count) * Columns(count) >= count
    ensures GridRows(count) == 0 || (GridRows(count) - 1) * Columns(count) < count
  {
    CeilDiv(count, Columns(count));
  }

  /** A divisor `Math.max(n - 1, 1)`, as a real. */
  function Spacing(n: nat): (d: real)
    ensures d >= 1.0
  {
    if n >= 2 then (n - 1) as real else 1.0
  }

  /** The distance between neighbouring seats when `n` of them span `w`. */
  function SeatGap(w: real, n: nat): real {
    w / Spacing(n)
  }

  /**
   * The point of grid cell (row, col) on a side whose grid has `rows` rows
   * and `cols` columns: rows spread evenly from the top to the bottom edge,
   * columns evenly across the side's half.
   */
  function CellPoint(side: Side, rows: nat, cols: nat, row: nat, col: nat): Point {
    var y := Top + row as real * SeatGap(Bottom - Top, rows);
    if side == Government then
      Point(LeftPadding + col as real * SeatGap(AisleLeft - LeftPadding, cols), y)
    else
      Point(AisleRight + col as real * SeatGap(RightPadding - AisleRight, cols), y)
  }

  /** The grid row of seat `i`: rows fill up one after the other. */
  function RowOf(i: nat, cols: nat): nat
    requires cols > 0
  {
    i / cols
  }

  /** The grid column of seat `i`. */
  function ColOf(i: nat, cols: nat): nat
    requires cols > 0
  {
    i % cols
  }

  /** Seat `i` of a block of `count` seats sits in row `i / cols`, column `i % cols`. */
  function BlockPosition(count: nat, side: Side, i: nat): Point {
    var cols := Columns(count);
    CellPoint(side, GridRows(count), cols, RowOf(i, cols), ColOf(i, cols))
  }

  /** The rectangle a side's seats must lie in. */
  predicate InBlock(p: Point, side: Side) {
    && Top <= p.y <= Bottom
    && (side == Government ==> LeftPadding <= p.x <= AisleLeft)
    && (side == Opposition ==> AisleRight <= p.x <= RightPadding)
  }

  /** k steps of width w / d, with k at most d, stay within [0, w]. */
  lemma ScaledStepBound(k: nat, bound: nat, w: real)
    requires w > 0.0
    requires k < bound || k == 0
    ensures 0.0 <= k as real * SeatGap(w, bound) <= w
  {
    var d := Spacing(bound);
    var g := w / d;
    assert d * g == w;
    assert k as real <= d;
    assert k as real * g <= d * g;
  }

  /** Distinct step counts give distinct offsets. */
  lemma ScaledStepInjective(a: nat, b: nat, bound: nat, w: real)
    requires w > 0.0 && a != b
    ensures a as real * SeatGap(w, bound) != b as real * SeatGap(w, bound)
  {
    var g := w / Spacing(bound);
    assert g > 0.0;
    assert (a as real - b as real) * g != 0.0;
  }

  /** A cell inside the grid lies inside the side's block. */
  lemma CellInBlock(side: Side, rows: nat, cols: nat, row: nat, col: nat)
    requires row < rows && col < cols
    ensures InBlock(CellPoint(side, rows, cols, row, col), side)
  {
    ScaledStepBound(row, rows, Bottom - Top);
    ScaledStepBound(col, cols, AisleLeft - LeftPadding);
    ScaledStepBound(col, cols, RightPadding - AisleRight);
  }

  /** Distinct cells have distinct points. */
  lemma CellInjective(side: Side, rows: nat, cols: nat, r1: nat, c1: nat, r2: nat, c2: nat)
    requires r1 != r2 || c1 != c2
    ensures CellPoint(side, rows, cols, r1, c1) != CellPoint(side, rows, cols, r2, c2)
  {
    if r1 != r2 {
      ScaledStepInjective(r1, r2, rows, Bottom - Top);
    } else if side == Government {
      ScaledStepInjective(c1, c2, cols, AisleLeft - LeftPadding);
    } else {
      ScaledStepInjective(c1, c2, cols, RightPadding - AisleRight);
    }
  }

  /** With `rows * cols` cells, seat `i` below that falls in a row of the grid. */
  lemma DivBelow(i: nat, rows: nat, cols: nat)
    requires cols > 0 && i < rows * cols
    ensures RowOf(i, cols) < rows
  {
    var q := i / cols;
    assert q * cols <= i;
    if q >= rows {
      MulMonotone(q, rows, cols);
    }
  }

  /** Distinct seats fall in distinct cells. */
  lemma DivModInjective(i: nat, j: nat, cols: nat)
    requires cols > 0 && i != j
    ensures RowOf(i, cols) != RowOf(j, cols) || ColOf(i, cols) != ColOf(j, cols)
  {
    assert i == (i / cols) * cols + i % cols;
    assert j == (j / cols) * cols + j % cols;
  }

  /** Seat `i` of the block sits in a row and a column of the grid. */
  lemma BlockCellInGrid(count: nat, i: nat)
    requires i < count
    ensures RowOf(i, Columns(count)) < GridRows(count)
    ensures ColOf(i, Columns(count)) < Columns(count)
  {
    GridRowsSpec(count);
    DivBelow(i, GridRows(count), Columns(count));
  }

  /** Every seat lies inside its side's block. */
  lemma BlockPositionInBlock(count: nat, side: Side, i: nat)
    requires i < count
    ensures InBlock(BlockPosition(count, side, i), side)
  {
    var cols := Columns(count);
    BlockCellInGrid(count, i);
    CellInBlock(side, GridRows(count), cols, RowOf(i, cols), ColOf(i, cols));
  }

  /** Distinct seats of any grid get distinct points. */
  lemma GridSeatsDistinct(side: Side, rows: nat, cols: nat, i: nat, j: nat)
    requires cols > 0 && i != j
    ensures CellPoint(side, rows, cols, RowOf(i, cols), ColOf(i, cols)) != CellPoint(side, rows, cols, RowOf(j, cols), ColOf(j, cols))
  {
    DivModInjective(i, j, cols);
    CellInjective(side, rows, cols, RowOf(i, cols), ColOf(i, cols), RowOf(j, cols), ColOf(j, cols));
  }

  /** No two seats of a block share a position. */
  lemma BlockPositionInjective(count: nat, side: Side, i: nat, j: nat)
    requires i != j
    ensures BlockPosition(count, side, i) != BlockPosition(count, side, j)
  {
    GridSeatsDistinct(side, GridRows(count), Columns(count), i, j);
  }

  /** The first n seats of a block of `count` seats, in seat order. */
  function Block(count: nat, side: Side, n: nat): (r: seq<Point>)
    ensures |r| == n
  {
    if n == 0 then [] else Block(count, side, n - 1) + [BlockPosition(count, side, n - 1)]
  }

  lemma {:induction false} BlockIndex(count: nat, side: Side, n: nat, j: nat)
    requires j < n
    ensures Block(count, side, n)[j] == BlockPosition(count, side, j)
  {
    if j < n - 1 {
      BlockIndex(count, side, n - 1, j);
    }
  }

  /** The seats of a whole block lie in the block and are pairwise distinct. */
  lemma BlockSound(count: nat, side: Side)
    ensures forall i :: 0 <= i < count ==> InBlock(Block(count, side, count)[i], side)
    ensures forall i, j :: 0 <= i < j < count ==> Block(count, side, count)[i] != Block(count, side, count)[j]
  {
    var ps := Block(count, side, count);
    forall i | 0 <= i < count
      ensures InBlock(ps[i], side)
    {
      BlockIndex(count, side, count, i);
      BlockPositionInBlock(count, side, i);
    }
    forall i, j | 0 <= i < j < count
      ensures ps[i] != ps[j]
    {
      BlockIndex(count, side, count, i);
      BlockIndex(count, side, count, j);
      BlockPositionInjective(count, side, i, j);
    }
  }

  /**
   * blockSeatPositions: one position per seat, the i-th at grid cell
   * (i / cols, i % cols); each lies inside the side's block and no two
   * are alike.
   */
  method BlockSeatPositions(count: nat, side: Side) returns (result: seq<Point>)
    ensures result == Block(count, side, count)
    ensures forall i :: 0 <= i < count ==> InBlock(result[i], side)
    ensures forall i, j :: 0 <= i < j < count ==> result[i] != result[j]
  {
    var cols := Columns(count);
    var rows := GridRows(count);
    result := [];
    for i := 0 to count
      invariant result == Block(count, side, i)
    {
      var row := RowOf(i, cols);
      var col := ColOf(i, cols);
      result := result + [CellPoint(side, rows, cols, row, col)];
    }
    BlockSound(count, side);
  }
}
