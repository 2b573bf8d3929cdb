/**
 * The integer part of the arch layout: the row-count policy and the seat
 * enumeration of `archSeatPositions` (app.js:139-171), the walk that hands
 * consecutive seats to parties in `renderArch` (app.js:411-424), and the
 * seat indices `drawArchMajorityLine` reads (app.js:340-359).
 */
module ArchLayout {
  import opened ChartTypes
  import RowLayout

  /**
   * `Math.round(Math.sqrt(t) / 2)`, searched upward from `k`: the result r
   * satisfies r - 1/2 <= sqrt(t)/2 < r + 1/2, squared out below.
   */
  function RoundHalfSqrtFrom(t: nat, k: nat): (r: nat)
    requires k == 0 || (2 * k - 1) * (2 * k - 1) <= t
    ensures r >= k
    ensures t < (2 * r + 1) * (2 * r + 1)
    ensures r == 0 || (2 * r - 1) * (2 * r - 1) <= t
    decreases t - k * k
  {
    if t < (2 * k + 1) * (2 * k + 1) then k
    else
      MulMonotone(2 * k + 1, k + 1, 2 * k + 1);
      MulMonotone(2 * k + 1, k + 1, k + 1);
      RoundHalfSqrtFrom(t, k + 1)
  }

  function RoundHalfSqrt(t: nat): nat {
    RoundHalfSqrtFrom(t, 0)
  }

  /** Where `round(sqrt(t) / 2)` falls relative to the clamp bounds 5 and 11. */
  lemma RoundHalfSqrtRange(t: nat)
    ensures RoundHalfSqrt(t) <= 5 ==> t < 121
    ensures RoundHalfSqrt(t) >= 11 ==> t >= 441
    ensures 6 <= RoundHalfSqrt(t) <= 10 ==> 121 <= t < 441
  {
    var r := RoundHalfSqrt(t);
    if r <= 5 {
      SquareMonotone(2 * r + 1, 11);
    } else if r >= 11 {
      SquareMonotone(21, 2 * r - 1);
    } else {
      SquareMonotone(11, 2 * r - 1);
      SquareMonotone(2 * r + 1, 21);
    }
  }

  /**
   * The initial row count `clamp(round(sqrt(t) / 2), 5, 11)`: five rows up
   * to 120 seats, eleven from 441 on, and in between the r with
   * (2r-1)^2 <= t < (2r+1)^2.
   */
  function InitialRowCount(t: nat): (rows: nat)
    ensures 5 <= rows <= 11
    ensures t < 121 ==> rows == 5
    ensures t >= 441 ==> rows == 11
    ensures 121 <= t < 441 ==> (2 * rows - 1) * (2 * rows - 1) <= t < (2 * rows + 1) * (2 * rows + 1)
    ensures t >= 5 ==> rows <= t
  {
    RoundHalfSqrtRange(t);
    var r := RoundHalfSqrt(t);
    if r >= 11 then 11
    else if r <= 5 then 5
    else r
  }

  /**
   * With `rows` rows, computeRowLayout leaves fewer than 8 seats in the
   * innermost row. There is exactly one layout per row count (ComputeRowLayout
   * computes it, RowLayout.RowLayoutUnique shows nothing else qualifies), so
   * this is a statement about that layout.
   */
  ghost predicate InnerRowShort(totalSeats: nat, rows: nat) {
    forall l :: RowLayout.IsRowLayout(totalSeats, rows, l) ==> l[rows - 1] < 8
  }

  /** Every row count above `rows`, up to the initial one, left the innermost row short. */
  ghost predicate ShortAbove(totalSeats: nat, rows: nat) {
    forall r :: rows < r <= InitialRowCount(totalSeats) ==> InnerRowShort(totalSeats, r)
  }

  /** A layout whose innermost row is short extends the run of short counts by one. */
  lemma ShortAboveStep(totalSeats: nat, plan: seq<int>)
    requires |plan| >= 1 && RowLayout.IsRowLayout(totalSeats, |plan|, plan) && plan[|plan| - 1] < 8
    requires ShortAbove(totalSeats, |plan|)
    ensures ShortAbove(totalSeats, |plan| - 1)
  {
    forall l | RowLayout.IsRowLayout(totalSeats, |plan|, l)
      ensures l[|plan| - 1] < 8
    {
      RowLayout.RowLayoutUnique(totalSeats, |plan|, l, plan);
    }
  }

  /**
   * The rows of archSeatPositions after the shrink loop: start from the
   * initial count, and while the innermost row has fewer than 8 seats drop a
   * row and plan again, but never below 4 rows. The plan is computeRowLayout's
   * layout for its own row count, and every larger count the loop passed
   * through left the innermost row short.
   */
  method ArchRowPlan(totalSeats: nat) returns (plan: seq<int>)
    ensures 4 <= |plan| <= InitialRowCount(totalSeats)
    ensures RowLayout.IsRowLayout(totalSeats, |plan|, plan)
    ensures ShortAbove(totalSeats, |plan|)
    ensures plan[|plan| - 1] >= 8 || |plan| == 4
  {
    var rows := InitialRowCount(totalSeats);
    plan := RowLayout.ComputeRowLayout(totalSeats, rows);
    while |plan| > 1 && plan[|plan| - 1] < 8
      invariant 4 <= rows == |plan| <= InitialRowCount(totalSeats)
      invariant RowLayout.IsRowLayout(totalSeats, |plan|, plan)
      invariant ShortAbove(totalSeats, |plan|)
      decreases rows
    {
      ShortAboveStep(totalSeats, plan);
      rows := rows - 1;
      if rows < 4 {
        assert |plan| == 4;
        break;
      }
      plan := RowLayout.ComputeRowLayout(totalSeats, rows);
    }
    assert plan[|plan| - 1] >= 8 || |plan| == 4;
  }

  /** What ArchRowPlan promises of its result, as one predicate. */
  ghost predicate IsArchPlan(totalSeats: nat, plan: seq<int>) {
    && 4 <= |plan| <= InitialRowCount(totalSeats)
    && RowLayout.IsRowLayout(totalSeats, |plan|, plan)
    && ShortAbove(totalSeats, |plan|)
    && (plan[|plan| - 1] >= 8 || |plan| == 4)
  }

  /**
   * What an arch plan holds: at least one seat per row, and the rows hold
   * exactly the seats, except below 4 seats, where each row holds one seat.
   */
  lemma ArchPlanSpec(totalSeats: nat, plan: seq<int>)
    requires IsArchPlan(totalSeats, plan)
    ensures RowLayout.AllAtLeast(plan, 1)
    ensures totalSeats >= |plan| ==> Sum(plan) == totalSeats
    ensures totalSeats < |plan| ==> forall i :: 0 <= i < |plan| ==> plan[i] == 1
    ensures Sum(plan) >= totalSeats
  {
    RowLayout.RowLayoutSpec(totalSeats, |plan|, plan);
    if totalSeats < |plan| {
      SumAtLeastOnes(plan);
    }
  }

  /** ArchRowPlan's contract leaves exactly one plan for each seat total. */
  lemma ArchPlanUnique(totalSeats: nat, a: seq<int>, b: seq<int>)
    requires IsArchPlan(totalSeats, a) && IsArchPlan(totalSeats, b)
    ensures a == b
  {
    ShorterPlanFails(totalSeats, |a|, b);
    ShorterPlanFails(totalSeats, |b|, a);
    RowLayout.RowLayoutUnique(totalSeats, |a|, a, b);
  }

  /** A plan longer than a row count the loop passed would have a short innermost row. */
  lemma ShorterPlanFails(totalSeats: nat, rows: nat, b: seq<int>)
    requires 4 <= rows && ShortAbove(totalSeats, rows)
    requires |b| <= InitialRowCount(totalSeats) && RowLayout.IsRowLayout(totalSeats, |b|, b)
    requires b[|b| - 1] >= 8 || |b| == 4
    ensures rows >= |b|
  {
    assert rows < |b| ==> InnerRowShort(totalSeats, |b|);
  }

  /** A seat of the arch, named by its row (0 is the outermost) and its index in that row. */
  datatype Slot = Slot(row: nat, seat: nat)

  predicate SlotBefore(a: Slot, b: Slot) {
    a.row < b.row || (a.row == b.row && a.seat < b.seat)
  }

  function RowSlots(row: nat, count: nat): (r: seq<Slot>)
    ensures |r| == count
    ensures forall i :: 0 <= i < count ==> r[i] == Slot(row, i)
  {
    seq(count, i requires 0 <= i < count => Slot(row, i))
  }

  /**
   * The seats in the order archSeatPositions pushes them: row by row, and
   * along each row. Every seat lies in its row's range, and the order is
   * strictly increasing, so no seat appears twice.
   */
  function RowMajor(plan: seq<int>): (r: seq<Slot>)
    requires RowLayout.AllAtLeast(plan, 0)
    ensures |r| == Sum(plan)
    ensures forall p :: 0 <= p < |r| ==> r[p].row < |plan| && r[p].seat < plan[r[p].row]
    ensures forall p, q :: 0 <= p < q < |r| ==> SlotBefore(r[p], r[q])
  {
    if plan == [] then []
    else
      var n := |plan|;
      var front := RowMajor(plan[..n - 1]);
      var last := RowSlots(n - 1, plan[n - 1]);
      assert forall p :: 0 <= p < |front| ==> front[p].row < n - 1;
      front + last
  }

  /** Every seat a row plan provides appears in the enumeration. */
  lemma {:induction false} RowMajorCovers(plan: seq<int>, row: nat, seat: nat)
    requires RowLayout.AllAtLeast(plan, 0)
    requires row < |plan| && seat < plan[row]
    ensures Slot(row, seat) in RowMajor(plan)
  {
    var n := |plan|;
    if row == n - 1 {
      assert RowMajor(plan)[Sum(plan[..n - 1]) + seat] == Slot(row, seat);
    } else {
      RowMajorCovers(plan[..n - 1], row, seat);
    }
  }

  /** Row `row` of the enumeration follows the rows before it. */
  lemma RowMajorStep(plan: seq<int>, row: nat)
    requires RowLayout.AllAtLeast(plan, 0) && row < |plan|
    ensures RowMajor(plan[..row + 1]) == RowMajor(plan[..row]) + RowSlots(row, plan[row])
  {
    assert plan[..row + 1][..row] == plan[..row];
  }

  /** The inner loop of the `forEach` in archSeatPositions: push one row's seats. */
  method PushRow(result: seq<Slot>, row: nat, count: int) returns (r: seq<Slot>)
    requires count >= 0
    ensures r == result + RowSlots(row, count)
  {
    r := result;
    for i := 0 to count
      invariant r == result + RowSlots(row, i)
    {
      r := r + [Slot(row, i)];
    }
  }

  /**
   * The integer part of archSeatPositions: the row plan it settles on (the
   * `rowSeats` of app.js) and the seats it keeps after `slice(0, totalSeats)`.
   * From 5 seats on the plan sums to the total, so the slice removes nothing.
   */
  method ArchSeatSlots(totalSeats: nat) returns (plan: seq<int>, slots: seq<Slot>)
    ensures IsArchPlan(totalSeats, plan)
    ensures 4 <= |plan| <= 11 && RowLayout.AllAtLeast(plan, 1)
    ensures Sum(plan) >= totalSeats
    ensures totalSeats >= 5 ==> Sum(plan) == totalSeats
    ensures |slots| == totalSeats
    ensures slots == RowMajor(plan)[..totalSeats]
    ensures forall p, q :: 0 <= p < q < |slots| ==> SlotBefore(slots[p], slots[q])
  {
    plan := ArchRowPlan(totalSeats);
    ArchPlanSpec(totalSeats, plan);
    var seats := EnumerateSeats(plan);
    slots := seats[..totalSeats];
  }

  /** The `rowSeats.forEach` loop of archSeatPositions: every seat of every row, in row-major order. */
  method EnumerateSeats(plan: seq<int>) returns (seats: seq<Slot>)
    requires RowLayout.AllAtLeast(plan, 0)
    ensures seats == RowMajor(plan)
  {
    seats := [];
    for row := 0 to |plan|
      invariant seats == RowMajor(plan[..row])
    {
      seats := PushRow(seats, row, plan[row]);
      RowMajorStep(plan, row);
    }
    assert plan[..|plan|] == plan;
  }

  // ---------------------------------------------------------------------------
  // renderArch: party k takes the seats from SeatOffset(k) to SeatOffset(k + 1)

  function SeatOffset(parties: seq<Party>, k: nat): nat
    requires k <= |parties|
  {
    TotalSeats(parties[..k])
  }

  predicate InSlice(parties: seq<Party>, k: nat, j: nat)
    requires k < |parties|
    ensures InSlice(parties, k, j) ==> j < TotalSeats(parties)
  {
    PrefixSeatsAtMostTotal(parties, k + 1);
    SeatOffset(parties, k) <= j < SeatOffset(parties, k + 1)
  }

  lemma OffsetStep(parties: seq<Party>, k: nat)
    requires k < |parties|
    ensures SeatOffset(parties, k + 1) == SeatOffset(parties, k) + parties[k].seats
  {
    TotalSeatsPrefixStep(parties, k);
  }

  lemma {:induction false} OffsetMonotone(parties: seq<Party>, a: nat, b: nat)
    requires a <= b <= |parties|
    ensures SeatOffset(parties, a) <= SeatOffset(parties, b)
    decreases b - a
  {
    if a < b {
      OffsetStep(parties, a);
      OffsetMonotone(parties, a + 1, b);
    }
  }

  /**
   * The party slices are disjoint and cover every seat index below the
   * total: each seat index belongs to exactly one party.
   */
  lemma {:induction false} SlicesPartitionSeats(parties: seq<Party>, j: nat)
    requires j < TotalSeats(parties)
    ensures exists k :: 0 <= k < |parties| && InSlice(parties, k, j)
    ensures forall k1, k2 ::
      0 <= k1 < |parties| && 0 <= k2 < |parties| && InSlice(parties, k1, j) && InSlice(parties, k2, j)
      ==> k1 == k2
  {
    var n := |parties|;
    assert parties[..n] == parties;
    TotalSeatsPrefixStep(parties, n - 1);
    if j >= SeatOffset(parties, n - 1) {
      assert InSlice(parties, n - 1, j);
    } else {
      assert parties[..n - 1][..n - 1] == parties[..n - 1];
      SlicesPartitionSeats(parties[..n - 1], j);
      var k :| 0 <= k < n - 1 && InSlice(parties[..n - 1], k, j);
      assert parties[..n - 1][..k] == parties[..k];
      assert parties[..n - 1][..k + 1] == parties[..k + 1];
      assert InSlice(parties, k, j);
    }
    forall k1, k2 | 0 <= k1 < n && 0 <= k2 < n && InSlice(parties, k1, j) && InSlice(parties, k2, j)
      ensures k1 == k2
    {
      if k1 < k2 {
        OffsetMonotone(parties, k1 + 1, k2);
      } else if k2 < k1 {
        OffsetMonotone(parties, k2 + 1, k1);
      }
    }
  }

  /**
   * renderArch: walk `seatIndex` over the ordered positions and mount party
   * k on the positions SeatOffset(k) .. SeatOffset(k + 1) - 1. The positions
   * are those orderedArchPositions returns, one per seat.
   */
  method RenderArch<P>(parties: seq<Party>, positions: seq<P>) returns (mounts: seq<(Party, P)>)
    requires |positions| == TotalSeats(parties)
    ensures |mounts| == TotalSeats(parties)
    ensures forall k, j: nat :: 0 <= k < |parties| && InSlice(parties, k, j) ==> mounts[j] == (parties[k], positions[j])
  {
    var seatIndex := 0;
    mounts := [];
    for k := 0 to |parties|
      invariant seatIndex == SeatOffset(parties, k) == |mounts|
      invariant forall k', j: nat :: 0 <= k' < k && InSlice(parties, k', j) ==> j < |mounts| && mounts[j] == (parties[k'], positions[j])
    {
      OffsetStep(parties, k);
      PrefixSeatsAtMostTotal(parties, k + 1);
      for i := 0 to parties[k].seats
        invariant seatIndex == SeatOffset(parties, k) + i == |mounts|
        invariant forall k', j: nat :: 0 <= k' < k && InSlice(parties, k', j) ==> j < |mounts| && mounts[j] == (parties[k'], positions[j])
        invariant forall j :: SeatOffset(parties, k) <= j < seatIndex ==> mounts[j] == (parties[k], positions[j])
      {
        mounts := mounts + [(parties[k], positions[seatIndex])];
        seatIndex := seatIndex + 1;
      }
    }
    assert parties[..|parties|] == parties;
  }

  // ---------------------------------------------------------------------------
  // drawArchMajorityLine

  /**
   * The seat indices the majority line is drawn between: none unless the
   * chart is an arch with the line switched on and at least two seats; the
   * two middle seats for an even count, the middle seat for an odd one. The
   * chosen seats sit symmetrically: as many seats lie before the first as
   * after the last.
   */
  function MajorityIndices(layout: LayoutType, showMajorityLine: bool, count: nat): (r: seq<nat>)
    ensures r != [] <==> layout == Arch && showMajorityLine && count >= 2
    ensures r != [] && count % 2 == 0 ==> |r| == 2 && r[1] == r[0] + 1
    ensures r != [] && count % 2 == 1 ==> |r| == 1
    ensures forall p :: 0 <= p < |r| ==> r[p] < count
    ensures r != [] ==> r[0] == (count - 1) / 2 && r[0] + r[|r| - 1] == count - 1
  {
    if layout != Arch || !showMajorityLine || count < 2 then []
    else if count % 2 == 0 then [count / 2 - 1, count / 2]
    else [count / 2]
  }
}
