/**
 * `computeRowLayout` (app.js:100-137): split `totalSeats` over `rowCount`
 * concentric rows in proportion to each row's arc capacity, by a greedy
 * largest-remainder method whose integer rounding keeps the exact total.
 */
module RowLayout {
  import opened ChartTypes

  const OuterRadius: real := 450.0
  const InnerRadius: real := 150.0

  /** `Math.PI` is the double 884279719003555 / 2^48, a rational number. */
  const JsPi: real := 884279719003555.0 / 281474976710656.0

  function Max(a: int, b: int): int { if a >= b then a else b }

  /** The radius of row `row` (0 is the outermost), app.js:103 and 107. */
  function RowRadius(rowCount: nat, row: nat): real {
    OuterRadius - row as real * ((OuterRadius - InnerRadius) / Max(1, rowCount - 1) as real)
  }

  /** The raw capacity of a row: its arc length over 22, but at least three seats. */
  function RawCapacity(rowCount: nat, row: nat): int {
    Max(3, (JsPi * RowRadius(rowCount, row) / 22.0).Floor)
  }

  function RawCapacities(rowCount: nat): (raw: seq<int>)
    ensures |raw| == rowCount
    ensures forall i :: 0 <= i < rowCount ==> raw[i] == RawCapacity(rowCount, i)
  {
    seq(rowCount, i requires 0 <= i < rowCount => RawCapacity(rowCount, i))
  }

  predicate AllAtLeast(s: seq<int>, m: int) {
    forall i :: 0 <= i < |s| ==> s[i] >= m
  }

  // ---------------------------------------------------------------------------
  // The exact shares. With R = sum(raw), row i's share is raw[i]*T/R; its
  // floor is the integer quotient and its fractional part is the remainder
  // (raw[i]*T) % R over R, so rows compare by that remainder.

  function FloorShares(raw: seq<int>, totalSeats: nat, rawTotal: int): (f: seq<int>)
    requires rawTotal > 0
    ensures |f| == |raw|
    ensures forall i :: 0 <= i < |raw| ==> f[i] == raw[i] * totalSeats / rawTotal
  {
    if raw == [] then []
    else FloorShares(raw[..|raw| - 1], totalSeats, rawTotal) + [raw[|raw| - 1] * totalSeats / rawTotal]
  }

  function FracKeys(raw: seq<int>, totalSeats: nat, rawTotal: int): (k: seq<int>)
    requires rawTotal > 0
    ensures |k| == |raw|
    ensures forall i :: 0 <= i < |raw| ==> k[i] == raw[i] * totalSeats % rawTotal
  {
    if raw == [] then []
    else FracKeys(raw[..|raw| - 1], totalSeats, rawTotal) + [raw[|raw| - 1] * totalSeats % rawTotal]
  }

  /** `base` before the correction loops: each floor, but at least one seat. */
  function InitialBase(raw: seq<int>, totalSeats: nat): (b: seq<int>)
    requires |raw| > 0 && AllAtLeast(raw, 1)
    ensures |b| == |raw| && AllAtLeast(b, 1)
  {
    RawTotalPositive(raw);
    var f := FloorShares(raw, totalSeats, Sum(raw));
    seq(|raw|, i requires 0 <= i < |raw| => Max(1, f[i]))
  }

  /**
   * `remainder` before the correction loops. The floors fall short of the
   * total by less than one seat per row, so a positive remainder is below the
   * row count: each row gets at most one extra seat and the cursor never wraps.
   */
  function InitialRemainder(raw: seq<int>, totalSeats: nat): (r: int)
    requires |raw| > 0 && AllAtLeast(raw, 1)
    ensures r < |raw|
    ensures r == totalSeats - Sum(InitialBase(raw, totalSeats))
  {
    FloorsFallShortByLessThanRowCount(raw, totalSeats);
    totalSeats - Sum(InitialBase(raw, totalSeats))
  }

  function Keys(raw: seq<int>, totalSeats: nat): (k: seq<int>)
    requires |raw| > 0 && AllAtLeast(raw, 1)
    ensures |k| == |raw|
  {
    RawTotalPositive(raw);
    FracKeys(raw, totalSeats, Sum(raw))
  }

  lemma {:induction false} RawTotalPositive(raw: seq<int>)
    requires |raw| > 0 && AllAtLeast(raw, 1)
    ensures Sum(raw) >= |raw| > 0
  {
    SumAtLeastOnes(raw);
  }

  // ---------------------------------------------------------------------------
  // The ranking `scaled.map(...).sort((a, b) => b.frac - a.frac)`: indices by
  // descending fractional part; the sort is stable, so ties keep index order.

  predicate Before(keys: seq<int>, i: nat, j: nat)
    requires i < |keys| && j < |keys|
  {
    keys[i] > keys[j] || (keys[i] == keys[j] && i < j)
  }

  predicate Ranked(keys: seq<int>, s: seq<nat>) {
    && (forall p :: 0 <= p < |s| ==> s[p] < |keys|)
    && (forall p, q :: 0 <= p < q < |s| ==> Before(keys, s[p], s[q]))
  }

  function Insert(keys: seq<int>, x: nat, s: seq<nat>): (r: seq<nat>)
    requires x < |keys|
    requires forall p :: 0 <= p < |s| ==> s[p] < |keys|
    ensures |r| == |s| + 1
    ensures forall y: int :: y in r <==> y == x || y in s
  {
    if s == [] then [x]
    else if Before(keys, x, s[0]) then [x] + s
    else [s[0]] + Insert(keys, x, s[1..])
  }

  /** Inserting an index not yet present keeps the sequence ranked. */
  lemma {:induction false} InsertRanked(keys: seq<int>, x: nat, s: seq<nat>)
    requires x < |keys| && x !in s && Ranked(keys, s)
    ensures Ranked(keys, Insert(keys, x, s))
  {
    if s == [] {
    } else if Before(keys, x, s[0]) {
      var t := [x] + s;
      forall p, q | 0 <= p < q < |t| ensures Before(keys, t[p], t[q]) {
        if p > 0 {
          assert t[p] == s[p - 1] && t[q] == s[q - 1];
        } else if q > 1 {
          assert Before(keys, s[0], s[q - 1]);
        }
      }
    } else {
      assert s[0] != x;
      InsertRanked(keys, x, s[1..]);
      var r := Insert(keys, x, s[1..]);
      var t := [s[0]] + r;
      forall p, q | 0 <= p < q < |t| ensures Before(keys, t[p], t[q]) {
        if p > 0 {
          assert t[p] == r[p - 1] && t[q] == r[q - 1];
        } else {
          var y := r[q - 1];
          assert y in r;
          if y != x {
            assert y in s[1..];
            var j :| 0 <= j < |s[1..]| && s[1..][j] == y;
            assert s[j + 1] == y;
          }
        }
      }
    }
  }

  /** `order` lists every row index exactly once. */
  predicate IsPermutation(order: seq<nat>, n: nat) {
    && |order| == n
    && (forall p :: 0 <= p < n ==> order[p] < n)
    && (forall i: int :: 0 <= i < n ==> i in order)
  }

  /** Insertion sort of the indices 0..n-1. */
  function SortIndices(keys: seq<int>, n: nat): (r: seq<nat>)
    requires n <= |keys|
    ensures |r| == n
    ensures forall y: int :: y in r <==> 0 <= y < n
    ensures Ranked(keys, r)
  {
    if n == 0 then []
    else
      var s := SortIndices(keys, n - 1);
      InsertRanked(keys, n - 1, s);
      Insert(keys, n - 1, s)
  }

  /** The `order` array of computeRowLayout. */
  function RankOrder(keys: seq<int>): (order: seq<nat>)
    ensures IsPermutation(order, |keys|)
    ensures Ranked(keys, order)
  {
    SortIndices(keys, |keys|)
  }

  /** A ranked sequence has no repeated index. */
  lemma RankedDistinct(keys: seq<int>, s: seq<nat>, p: nat, q: nat)
    requires Ranked(keys, s) && p < |s| && q < |s| && p != q
    ensures s[p] != s[q]
  {
  }

  /** The positions of a ranked permutation of 0..n-1 order its entries. */
  lemma RankedPositions(keys: seq<int>, order: seq<nat>, i: nat, j: nat)
    requires Ranked(keys, order) && i in order && j in order && i != j
    ensures exists p, q ::
      && 0 <= p < |order| && 0 <= q < |order| && order[p] == i && order[q] == j
      && (p < q <==> Before(keys, i, j))
  {
    var p :| 0 <= p < |order| && order[p] == i;
    var q :| 0 <= q < |order| && order[q] == j;
    if q < p {
      assert Before(keys, j, i);
    }
  }

  // ---------------------------------------------------------------------------
  // The correction loops

  /** `order[k % order.length]`, the row the cursor points at. */
  function Slot(order: seq<nat>, k: nat): nat
    requires |order| > 0
  {
    order[k % |order|]
  }

  /** `base` after the first `m` rows of `order` got an extra seat each. */
  function Bumped(base: seq<int>, order: seq<nat>, m: nat): (b: seq<int>)
    requires m <= |order|
    ensures |b| == |base|
  {
    seq(|base|, i requires 0 <= i < |base| => base[i] + (if i in order[..m] then 1 else 0))
  }

  lemma BumpedStep(keys: seq<int>, base: seq<int>, order: seq<nat>, m: nat)
    requires |order| == |base| == |keys| && Ranked(keys, order) && m < |order|
    ensures Bumped(base, order, m + 1) == Bumped(base, order, m)[order[m] := Bumped(base, order, m)[order[m]] + 1]
  {
    assert order[..m + 1] == order[..m] + [order[m]];
    assert order[m] !in order[..m] by {
      forall p | 0 <= p < m ensures order[p] != order[m] {
        RankedDistinct(keys, order, p, m);
      }
    }
  }

  /** One row's quotient and remainder extend the running identity. */
  lemma SplitStep(sf: int, sk: int, sr: int, a: int, b: int, last: int, rawTotal: int, totalSeats: int)
    requires sf * rawTotal + sk == totalSeats * sr
    requires last * totalSeats == rawTotal * a + b
    ensures (sf + a) * rawTotal + (sk + b) == totalSeats * (sr + last)
  {
    MulDistrib(sf, a, rawTotal);
    MulDistrib(sr, last, totalSeats);
  }

  /** Summed over the rows, quotient times R plus remainder gives the whole. */
  lemma {:induction false} SplitIdentity(raw: seq<int>, totalSeats: nat, rawTotal: int)
    requires rawTotal > 0
    ensures Sum(FloorShares(raw, totalSeats, rawTotal)) * rawTotal + Sum(FracKeys(raw, totalSeats, rawTotal))
      == totalSeats * Sum(raw)
  {
    if raw != [] {
      var n := |raw|;
      var init := raw[..n - 1];
      SplitIdentity(init, totalSeats, rawTotal);
      var x := raw[n - 1] * totalSeats;
      var a, b := x / rawTotal, x % rawTotal;
      var f := FloorShares(init, totalSeats, rawTotal);
      var k := FracKeys(init, totalSeats, rawTotal);
      var ff := FloorShares(raw, totalSeats, rawTotal);
      var kk := FracKeys(raw, totalSeats, rawTotal);
      assert Sum(ff) == Sum(f) + a by {
        assert ff == f + [a] && ff[..n - 1] == f;
      }
      assert Sum(kk) == Sum(k) + b by {
        assert kk == k + [b] && kk[..n - 1] == k;
      }
      SplitStep(Sum(f), Sum(k), Sum(init), a, b, raw[n - 1], rawTotal, totalSeats);
    }
  }

  lemma {:induction false} KeysBelow(k: seq<int>, bound: int)
    requires forall i :: 0 <= i < |k| ==> k[i] < bound
    ensures Sum(k) <= |k| * (bound - 1)
  {
    if k != [] {
      KeysBelow(k[..|k| - 1], bound);
      MulDistrib(|k| - 1, 1, bound - 1);
    }
  }

  /**
   * If the floors sum to `sf` and the remainders, each below R, to `sk`,
   * the shortfall of any larger base is below the row count.
   */
  lemma ShortfallBound(totalSeats: int, sf: int, sk: int, sb: int, r: int, n: int)
    requires r > 0 && n > 0
    requires sf * r + sk == totalSeats * r
    requires sk <= n * (r - 1) && sb >= sf
    ensures totalSeats - sb < n
  {
    var gap := totalSeats - sf;
    MulDistrib(totalSeats, -sf, r);
    assert gap * r == sk;
    MulDistrib(r, -1, n);
    if gap >= n {
      MulMonotone(gap, n, r);
      assert false;
    }
  }

  lemma FloorsFallShortByLessThanRowCount(raw: seq<int>, totalSeats: nat)
    requires |raw| > 0 && AllAtLeast(raw, 1)
    ensures totalSeats - Sum(InitialBase(raw, totalSeats)) < |raw|
  {
    RawTotalPositive(raw);
    var r := Sum(raw);
    var f := FloorShares(raw, totalSeats, r);
    var k := FracKeys(raw, totalSeats, r);
    var base := InitialBase(raw, totalSeats);
    SplitIdentity(raw, totalSeats, r);
    KeysBelow(k, r);
    SumMonotone(f, base);
    ShortfallBound(totalSeats, Sum(f), Sum(k), Sum(base), r, |raw|);
  }

  /** Rows that get an extra seat rank above every row that does not. */
  lemma ExtraSeatsGoToLargestFractions(raw: seq<int>, totalSeats: nat, i: nat, j: nat)
    requires |raw| > 0 && AllAtLeast(raw, 1)
    requires InitialRemainder(raw, totalSeats) >= 0
    requires i < |raw| && j < |raw|
    requires var rows := Bumped(InitialBase(raw, totalSeats), RankOrder(Keys(raw, totalSeats)), InitialRemainder(raw, totalSeats));
      rows[i] == InitialBase(raw, totalSeats)[i] + 1 && rows[j] == InitialBase(raw, totalSeats)[j]
    ensures var keys := Keys(raw, totalSeats);
      keys[i] > keys[j] || (keys[i] == keys[j] && i < j)
  {
    var keys := Keys(raw, totalSeats);
    var order := RankOrder(keys);
    var m := InitialRemainder(raw, totalSeats);
    assert i in order[..m] && j !in order[..m];
    RankedPositions(keys, order, i, j);
  }

  /** Euclidean division is unique. */
  lemma DivModUnique(k: int, n: int, q: int, p: int)
    requires n > 0 && 0 <= p < n && k == n * q + p
    ensures k % n == p
  {
    var q', p' := k / n, k % n;
    assert k == n * q' + p';
    MulDistrib(q, -q', n);
    assert (q - q') * n == p' - p;
    if q > q' {
      MulMonotone(q - q', 1, n);
      assert false;
    } else if q < q' {
      MulMonotone(q' - q, 1, n);
      assert false;
    }
  }

  /** A cursor below the length needs no wrapping. */
  lemma ModSmall(c: nat, n: nat)
    requires c < n
    ensures c % n == c
  {
    DivModUnique(c, n, 0, c);
  }

  /** For every p in 0..n-1 some k among the n values before c has k % n == p. */
  lemma ModCover(c: int, n: int, p: int) returns (k: int)
    requires n > 0 && 0 <= p < n
    ensures c - n <= k < c && k % n == p
  {
    var r := (c - 1 - p) % n;
    var q := (c - 1 - p) / n;
    assert c - 1 - p == n * q + r;
    k := c - 1 - r;
    DivModUnique(k, n, q, p);
  }

  /**
   * A run of n consecutive misses would visit every row, so every row would
   * hold one seat; while some row holds more, a run stays shorter than n.
   */
  lemma MissRunCoversAllRows(base: seq<int>, order: seq<nat>, cursor: nat, misses: nat)
    requires |base| > 0 && IsPermutation(order, |base|)
    requires misses <= cursor && misses >= |order|
    requires forall k: nat :: cursor - misses <= k < cursor ==> base[Slot(order, k)] <= 1
    ensures forall i :: 0 <= i < |base| ==> base[i] <= 1
  {
    var n := |order|;
    forall i | 0 <= i < n ensures base[i] <= 1 {
      assert i in order;
      var p :| 0 <= p < n && order[p] == i;
      var k := ModCover(cursor, n, p);
      assert Slot(order, k) == i;
    }
  }

  /** The loop of app.js:121-125: one extra seat per row, in ranked order. */
  method AddSeats(base: array<int>, order: seq<nat>, ghost keys: seq<int>, remainder: int)
    returns (cursor: nat, left: int)
    requires base.Length > 0 && |keys| == base.Length
    requires IsPermutation(order, base.Length) && Ranked(keys, order)
    requires remainder < base.Length
    modifies base
    ensures remainder > 0 ==> cursor == remainder && left == 0 && base[..] == Bumped(old(base[..]), order, remainder)
    ensures remainder <= 0 ==> cursor == 0 && left == remainder && base[..] == old(base[..])
    ensures Sum(base[..]) == old(Sum(base[..])) + remainder - left
  {
    cursor, left := 0, remainder;
    if remainder <= 0 {
      return;
    }
    ghost var base0 := base[..];
    while left > 0
      invariant 0 <= cursor <= remainder && left == remainder - cursor
      invariant base[..] == Bumped(base0, order, cursor)
      invariant Sum(base[..]) == Sum(base0) + cursor
    {
      ModSmall(cursor, |order|);
      var i := order[cursor % |order|];
      ghost var before := base[..];
      BumpedStep(keys, base0, order, cursor);
      SumUpdate(before, i, before[i] + 1);
      base[i] := base[i] + 1;
      assert base[..] == before[i := before[i] + 1];
      cursor := cursor + 1;
      left := left - 1;
    }
  }

  /** The cursor positions c-misses to c-1 all pointed at rows holding at most one seat. */
  predicate MissRun(b: seq<int>, order: seq<nat>, c: nat, misses: nat)
    requires |order| > 0 && forall p :: 0 <= p < |order| ==> order[p] < |b|
  {
    forall k: nat :: c - misses <= k < c ==> b[Slot(order, k)] <= 1
  }

  lemma MissRunStep(b: seq<int>, order: seq<nat>, c: nat, misses: nat)
    requires |order| > 0 && forall p :: 0 <= p < |order| ==> order[p] < |b|
    requires MissRun(b, order, c, misses) && b[Slot(order, c)] <= 1
    ensures MissRun(b, order, c + 1, misses + 1)
  {
  }

  /** One pass of the loop body of app.js:128-133 on the array. */
  method ShrinkPass(base: array<int>, order: seq<nat>, c: nat, left: int) returns (left': int)
    requires base.Length > 0 && IsPermutation(order, base.Length)
    modifies base
    ensures ShrinkState(base[..], c + 1, left') == ShrinkStep(ShrinkState(old(base[..]), c, left), order)
  {
    var idx := order[c % |order|];
    assert idx == Slot(order, c);
    left' := left;
    if base[idx] > 1 {
      base[idx] := base[idx] - 1;
      left' := left + 1;
    }
  }

  /**
   * The loop of app.js:127-134, which also stops once no row holds more than
   * one seat (app.js has no such exit). The new contents are those of
   * `passes` passes of the source's loop body, where `passes` is the first
   * point at which the loop test (with the extra exit) fails.
   */
  method RemoveSeats(base: array<int>, order: seq<nat>, remainder: int, cursor: nat)
    returns (left: int, ghost passes: nat)
    requires base.Length > 0 && IsPermutation(order, base.Length)
    requires remainder <= 0 && forall i :: 0 <= i < base.Length ==> base[i] >= 1
    modifies base
    ensures var st0 := ShrinkState(old(base[..]), cursor, remainder);
      && StopsAfter(st0, order, passes)
      && base[..] == ShrinkIterate(st0, order, passes).base
      && left == ShrinkIterate(st0, order, passes).remainder
    ensures forall i :: 0 <= i < base.Length ==> 1 <= base[i] <= old(base[i])
    ensures remainder <= left <= 0
    ensures Sum(base[..]) == old(Sum(base[..])) - (left - remainder)
    ensures left == 0 || forall i :: 0 <= i < base.Length ==> base[i] == 1
  {
    left := remainder;
    var c := cursor;
    ghost var misses: nat := 0;
    ghost var base0 := base[..];
    ghost var st0 := ShrinkState(base0, cursor, remainder);
    passes := 0;
    while left < 0 && exists i :: 0 <= i < base.Length && base[i] > 1
      invariant left <= 0
      invariant misses <= c && misses < base.Length
      invariant MissRun(base[..], order, c, misses)
      invariant ShrinkIterate(st0, order, passes) == ShrinkState(base[..], c, left)
      invariant forall m :: 0 <= m < passes ==> ShrinkGoesOn(ShrinkIterate(st0, order, m))
      decreases -left, base.Length - misses
    {
      ghost var before := base[..];
      ghost var st := ShrinkState(before, c, left);
      assert ShrinkGoesOn(ShrinkIterate(st0, order, passes));
      var idx := Slot(order, c);
      left := ShrinkPass(base, order, c, left);
      assert ShrinkIterate(st0, order, passes + 1) == ShrinkState(base[..], c + 1, left) by {
        IterateStep(st0, order, passes);
      }
      if before[idx] > 1 {
        misses := 0;
      } else {
        MissRunStep(before, order, c, misses);
        misses := misses + 1;
        if misses >= base.Length {
          MissRunCoversAllRows(before, order, c + 1, misses);
          assert false;
        }
      }
      c := c + 1;
      passes := passes + 1;
    }
    assert !ShrinkGoesOn(ShrinkState(base[..], c, left));
    StopsAfterRun(st0, order, passes);
    ShrinkIterateBounds(st0, order, passes);
    ShrinkIterateSum(st0, order, passes);
    ghost var r := ShrinkIterate(st0, order, passes);
    assert r == ShrinkState(base[..], c, left);
    assert remainder <= r.remainder == left;
    assert forall i :: 0 <= i < base.Length ==> base[i] == base[..][i] && old(base[i]) == base0[i];
  }

  /** The loop of app.js:105-109: one raw capacity per row, outermost first. */
  method ComputeRaw(rowCount: nat) returns (raw: seq<int>)
    ensures raw == RawCapacities(rowCount)
  {
    raw := [];
    for row := 0 to rowCount
      invariant raw == RawCapacities(rowCount)[..row]
    {
      raw := raw + [RawCapacity(rowCount, row)];
    }
  }

  /** Every row has room for at least three seats. */
  lemma RawAtLeastThree(rowCount: nat)
    ensures AllAtLeast(RawCapacities(rowCount), 3)
  {
  }

  /**
   * `rows` is the result of computeRowLayout for `rowCount` rows: the floors
   * plus one seat for each of the first `remainder` ranked rows when the
   * remainder is not negative, and otherwise the state of `base` when the
   * seat-removing loop stops.
   */
  ghost predicate IsRowLayout(totalSeats: nat, rowCount: nat, rows: seq<int>) {
    && rowCount >= 1
    && |rows| == rowCount
    && var raw := RawCapacities(rowCount);
      RawAtLeastThree(rowCount);
      var base := InitialBase(raw, totalSeats);
      var remainder := InitialRemainder(raw, totalSeats);
      var order := RankOrder(Keys(raw, totalSeats));
      if remainder >= 0 then rows == Bumped(base, order, remainder)
      else exists n: nat ::
        && StopsAfter(ShrinkState(base, 0, remainder), order, n)
        && rows == ShrinkIterate(ShrinkState(base, 0, remainder), order, n).base
  }

  lemma BumpedLayout(totalSeats: nat, rowCount: nat, rows: seq<int>)
    requires rowCount >= 1 && AllAtLeast(RawCapacities(rowCount), 1)
    requires var raw := RawCapacities(rowCount);
      && InitialRemainder(raw, totalSeats) >= 0
      && rows == Bumped(InitialBase(raw, totalSeats), RankOrder(Keys(raw, totalSeats)), InitialRemainder(raw, totalSeats))
    ensures IsRowLayout(totalSeats, rowCount, rows)
  {
  }

  lemma ShrunkLayout(totalSeats: nat, rowCount: nat, rows: seq<int>, n: nat)
    requires rowCount >= 1 && AllAtLeast(RawCapacities(rowCount), 1)
    requires var raw := RawCapacities(rowCount);
      var st := ShrinkState(InitialBase(raw, totalSeats), 0, InitialRemainder(raw, totalSeats));
      && InitialRemainder(raw, totalSeats) < 0
      && StopsAfter(st, RankOrder(Keys(raw, totalSeats)), n)
      && rows == ShrinkIterate(st, RankOrder(Keys(raw, totalSeats)), n).base
    ensures IsRowLayout(totalSeats, rowCount, rows)
  {
  }

  /** Each ranked row's extra seat adds one to the total. */
  lemma {:induction false} BumpedSum(keys: seq<int>, base: seq<int>, order: seq<nat>, m: nat)
    requires |order| == |base| == |keys| && Ranked(keys, order) && m <= |order|
    ensures Sum(Bumped(base, order, m)) == Sum(base) + m
    decreases m
  {
    if m > 0 {
      BumpedSum(keys, base, order, m - 1);
      BumpedStep(keys, base, order, m - 1);
      var b := Bumped(base, order, m - 1);
      SumUpdate(b, order[m - 1], b[order[m - 1]] + 1);
    } else {
      assert Bumped(base, order, 0) == base;
    }
  }

  /** When the loop stops after some passes, no deficit is left over: the remainder is not positive. */
  lemma {:induction false} StoppedRemainder(st: ShrinkState, order: seq<nat>, n: nat)
    requires |order| > 0 && forall p :: 0 <= p < |order| ==> order[p] < |st.base|
    requires st.remainder <= 0 && StopsAfter(st, order, n)
    ensures ShrinkIterate(st, order, n).remainder <= 0
    decreases n
  {
    if n > 0 {
      ShrinkStepKeeps(st, order);
      StoppedRemainder(ShrinkStep(st, order), order, n - 1);
    }
  }

  /**
   * What computeRowLayout promises of its result: every row holds at least
   * one seat; with at least as many seats as rows the rows hold exactly the
   * seats; with fewer, every row holds exactly one; and seats are only ever
   * taken away from the floors when these overshoot.
   */
  lemma RowLayoutSpec(totalSeats: nat, rowCount: nat, rows: seq<int>)
    requires IsRowLayout(totalSeats, rowCount, rows)
    ensures |rows| == rowCount && AllAtLeast(rows, 1)
    ensures totalSeats >= rowCount ==> Sum(rows) == totalSeats
    ensures totalSeats < rowCount ==> forall i :: 0 <= i < rowCount ==> rows[i] == 1
    ensures var raw := RawCapacities(rowCount);
      && AllAtLeast(raw, 3)
      && (InitialRemainder(raw, totalSeats) < 0 ==>
            forall i :: 0 <= i < rowCount ==> rows[i] <= InitialBase(raw, totalSeats)[i])
  {
    var raw := RawCapacities(rowCount);
    RawAtLeastThree(rowCount);
    var base := InitialBase(raw, totalSeats);
    var remainder := InitialRemainder(raw, totalSeats);
    var keys := Keys(raw, totalSeats);
    var order := RankOrder(keys);
    if remainder >= 0 {
      BumpedRows(keys, base, order, remainder, totalSeats);
    } else {
      var st := ShrinkState(base, 0, remainder);
      var n: nat :| StopsAfter(st, order, n) && rows == ShrinkIterate(st, order, n).base;
      ShrunkRows(st, order, n, totalSeats);
    }
  }

  /** The growing half of RowLayoutSpec, stated for any floors and ranking. */
  lemma BumpedRows(keys: seq<int>, base: seq<int>, order: seq<nat>, m: nat, totalSeats: nat)
    requires |order| == |base| == |keys| && Ranked(keys, order) && m <= |order|
    requires AllAtLeast(base, 1) && Sum(base) + m == totalSeats
    ensures var rows := Bumped(base, order, m);
      && |rows| == |base| && AllAtLeast(rows, 1)
      && Sum(rows) == totalSeats && totalSeats >= |rows|
  {
    BumpedSum(keys, base, order, m);
    SumAtLeastOnes(Bumped(base, order, m));
  }

  /** The shrinking half of RowLayoutSpec, stated for any starting state. */
  lemma ShrunkRows(st: ShrinkState, order: seq<nat>, n: nat, totalSeats: nat)
    requires |order| > 0 && forall p :: 0 <= p < |order| ==> order[p] < |st.base|
    requires AllAtLeast(st.base, 1) && st.remainder < 0 && Sum(st.base) + st.remainder == totalSeats
    requires StopsAfter(st, order, n)
    ensures var rows := ShrinkIterate(st, order, n).base;
      && |rows| == |st.base| && AllAtLeast(rows, 1)
      && (forall i :: 0 <= i < |rows| ==> rows[i] <= st.base[i])
      && (totalSeats >= |rows| ==> Sum(rows) == totalSeats)
      && (totalSeats < |rows| ==> forall i :: 0 <= i < |rows| ==> rows[i] == 1)
  {
    var r := ShrinkIterate(st, order, n);
    ShrinkIterateBounds(st, order, n);
    ShrinkIterateSum(st, order, n);
    StoppedRemainder(st, order, n);
    StopsAfterEnds(st, order, n);
    if r.remainder < 0 {
      assert forall i :: 0 <= i < |r.base| ==> r.base[i] == 1;
      SumAtMostOnes(r.base);
    } else if totalSeats < |r.base| {
      SumAtLeastOnes(r.base);
    }
  }

  /** At most one sequence is the layout for a given seat total and row count. */
  lemma RowLayoutUnique(totalSeats: nat, rowCount: nat, a: seq<int>, b: seq<int>)
    requires IsRowLayout(totalSeats, rowCount, a) && IsRowLayout(totalSeats, rowCount, b)
    ensures a == b
  {
    var raw := RawCapacities(rowCount);
    RawAtLeastThree(rowCount);
    var base := InitialBase(raw, totalSeats);
    var remainder := InitialRemainder(raw, totalSeats);
    var order := RankOrder(Keys(raw, totalSeats));
    if remainder < 0 {
      var st := ShrinkState(base, 0, remainder);
      var n1: nat :| StopsAfter(st, order, n1) && a == ShrinkIterate(st, order, n1).base;
      var n2: nat :| StopsAfter(st, order, n2) && b == ShrinkIterate(st, order, n2).base;
      StopsAfterUnique(st, order, n1, n2);
    }
  }

  /**
   * The whole of computeRowLayout, with one change: the loop that removes
   * seats also stops once every row holds a single seat. While
   * `totalSeats >= rowCount` that extra test never fails, so the method does
   * exactly what app.js:127-134 does; below it the unguarded loop never ends
   * (see `UnguardedShrinkNeverEnds`).
   */
  method ComputeRowLayout(totalSeats: nat, rowCount: nat) returns (rows: seq<int>)
    requires rowCount >= 1
    ensures IsRowLayout(totalSeats, rowCount, rows)
    ensures |rows| == rowCount && AllAtLeast(rows, 1)
    ensures totalSeats >= rowCount ==> Sum(rows) == totalSeats
    ensures totalSeats < rowCount ==> forall i :: 0 <= i < rowCount ==> rows[i] == 1
    ensures var raw := RawCapacities(rowCount);
      && AllAtLeast(raw, 3)
      && (InitialRemainder(raw, totalSeats) >= 0 ==>
            rows == Bumped(InitialBase(raw, totalSeats), RankOrder(Keys(raw, totalSeats)), InitialRemainder(raw, totalSeats)))
      && (InitialRemainder(raw, totalSeats) < 0 ==>
            forall i :: 0 <= i < rowCount ==> rows[i] <= InitialBase(raw, totalSeats)[i])
  {
    var raw := ComputeRaw(rowCount);
    assert AllAtLeast(raw, 3) by {
      RawAtLeastThree(rowCount);
    }

    var base0 := InitialBase(raw, totalSeats);
    var base := new int[rowCount](i => if 0 <= i < |base0| then base0[i] else 1);
    assert base[..] == base0;
    var remainder := totalSeats - Sum(base0);
    assert remainder == InitialRemainder(raw, totalSeats);
    var keys := Keys(raw, totalSeats);
    var order := RankOrder(keys);

    var cursor;
    ghost var remainder0 := remainder;
    ghost var passes := 0;
    cursor, remainder := AddSeats(base, order, keys, remainder);
    if remainder < 0 {
      remainder, passes := RemoveSeats(base, order, remainder, cursor);
    }
    rows := base[..];
    if remainder0 < 0 {
      ShrunkLayout(totalSeats, rowCount, rows, passes);
    } else {
      BumpedLayout(totalSeats, rowCount, rows);
    }
    RowLayoutSpec(totalSeats, rowCount, rows);
  }


  // ---------------------------------------------------------------------------
  // The loop of app.js:127-134 as written

  datatype ShrinkState = ShrinkState(base: seq<int>, cursor: nat, remainder: int)

  /** One pass of the unguarded loop body. */
  function ShrinkStep(st: ShrinkState, order: seq<nat>): (r: ShrinkState)
    requires |order| > 0 && forall p :: 0 <= p < |order| ==> order[p] < |st.base|
    ensures |r.base| == |st.base|
  {
    var idx := Slot(order, st.cursor);
    if st.base[idx] > 1 then ShrinkState(st.base[idx := st.base[idx] - 1], st.cursor + 1, st.remainder + 1)
    else ShrinkState(st.base, st.cursor + 1, st.remainder)
  }

  /** The state after `steps` passes of the unguarded loop body. */
  function ShrinkIterate(st: ShrinkState, order: seq<nat>, steps: nat): (r: ShrinkState)
    requires |order| > 0 && forall p :: 0 <= p < |order| ==> order[p] < |st.base|
    ensures |r.base| == |st.base|
    decreases steps
  {
    if steps == 0 then st else ShrinkIterate(ShrinkStep(st, order), order, steps - 1)
  }

  lemma {:induction false} IterateStep(st: ShrinkState, order: seq<nat>, n: nat)
    requires |order| > 0 && forall p :: 0 <= p < |order| ==> order[p] < |st.base|
    ensures ShrinkIterate(st, order, n + 1) == ShrinkStep(ShrinkIterate(st, order, n), order)
    decreases n
  {
    if n > 0 {
      IterateStep(ShrinkStep(st, order), order, n - 1);
    }
  }

  /**
   * Passes of the loop body only lower rows that hold more than one seat,
   * and every seat they take away reduces the deficit by one.
   */
  lemma ShrinkStepKeeps(st: ShrinkState, order: seq<nat>)
    requires |order| > 0 && forall p :: 0 <= p < |order| ==> order[p] < |st.base|
    ensures var r := ShrinkStep(st, order);
      && (forall i :: 0 <= i < |st.base| ==> r.base[i] <= st.base[i] && (st.base[i] >= 1 ==> r.base[i] >= 1))
      && Sum(r.base) + r.remainder == Sum(st.base) + st.remainder
      && st.remainder <= r.remainder <= st.remainder + 1
  {
    var idx := Slot(order, st.cursor);
    if st.base[idx] > 1 {
      assert ShrinkStep(st, order).base == st.base[idx := st.base[idx] - 1];
      SumUpdate(st.base, idx, st.base[idx] - 1);
    }
  }

  /** Passes of the loop body never raise a row, nor lower one that holds a single seat. */
  lemma {:induction false} ShrinkIterateBounds(st: ShrinkState, order: seq<nat>, n: nat)
    requires |order| > 0 && forall p :: 0 <= p < |order| ==> order[p] < |st.base|
    requires AllAtLeast(st.base, 1)
    ensures forall i :: 0 <= i < |st.base| ==> 1 <= ShrinkIterate(st, order, n).base[i] <= st.base[i]
    decreases n
  {
    if n > 0 {
      ShrinkStepKeeps(st, order);
      ShrinkIterateBounds(ShrinkStep(st, order), order, n - 1);
    }
  }

  /** Every seat the passes take away reduces the deficit by one. */
  lemma {:induction false} ShrinkIterateSum(st: ShrinkState, order: seq<nat>, n: nat)
    requires |order| > 0 && forall p :: 0 <= p < |order| ==> order[p] < |st.base|
    ensures var r := ShrinkIterate(st, order, n);
      Sum(r.base) + r.remainder == Sum(st.base) + st.remainder && r.remainder >= st.remainder
    decreases n
  {
    if n > 0 {
      ShrinkStepKeeps(st, order);
      ShrinkIterateSum(ShrinkStep(st, order), order, n - 1);
    }
  }

  /** The test of the loop with its extra exit: a deficit remains and some row holds more than one seat. */
  predicate ShrinkGoesOn(st: ShrinkState) {
    st.remainder < 0 && exists i :: 0 <= i < |st.base| && st.base[i] > 1
  }

  /**
   * The loop runs exactly `n` passes from `st`: its test holds before each
   * of them and fails after the last.
   */
  predicate StopsAfter(st: ShrinkState, order: seq<nat>, n: nat)
    requires |order| > 0 && forall p :: 0 <= p < |order| ==> order[p] < |st.base|
    decreases n
  {
    if n == 0 then !ShrinkGoesOn(st)
    else ShrinkGoesOn(st) && StopsAfter(ShrinkStep(st, order), order, n - 1)
  }

  /** StopsAfter, read off a run of passes whose test held every time but the last. */
  lemma {:induction false} StopsAfterRun(st: ShrinkState, order: seq<nat>, n: nat)
    requires |order| > 0 && forall p :: 0 <= p < |order| ==> order[p] < |st.base|
    requires forall m :: 0 <= m < n ==> ShrinkGoesOn(ShrinkIterate(st, order, m))
    requires !ShrinkGoesOn(ShrinkIterate(st, order, n))
    ensures StopsAfter(st, order, n)
    decreases n
  {
    if n > 0 {
      var next := ShrinkStep(st, order);
      assert ShrinkGoesOn(ShrinkIterate(st, order, 0));
      forall m | 0 <= m < n - 1
        ensures ShrinkGoesOn(ShrinkIterate(next, order, m))
      {
        assert ShrinkIterate(st, order, m + 1) == ShrinkIterate(next, order, m);
      }
      assert ShrinkIterate(st, order, n) == ShrinkIterate(next, order, n - 1);
      StopsAfterRun(next, order, n - 1);
    }
  }

  /** After the last pass the loop's test fails. */
  lemma {:induction false} StopsAfterEnds(st: ShrinkState, order: seq<nat>, n: nat)
    requires |order| > 0 && forall p :: 0 <= p < |order| ==> order[p] < |st.base|
    requires StopsAfter(st, order, n)
    ensures !ShrinkGoesOn(ShrinkIterate(st, order, n))
    decreases n
  {
    if n > 0 {
      StopsAfterEnds(ShrinkStep(st, order), order, n - 1);
    }
  }

  /** The number of passes is determined by the starting state. */
  lemma {:induction false} StopsAfterUnique(st: ShrinkState, order: seq<nat>, n1: nat, n2: nat)
    requires |order| > 0 && forall p :: 0 <= p < |order| ==> order[p] < |st.base|
    requires StopsAfter(st, order, n1) && StopsAfter(st, order, n2)
    ensures n1 == n2
    decreases n1
  {
    if n1 > 0 && n2 > 0 {
      StopsAfterUnique(ShrinkStep(st, order), order, n1 - 1, n2 - 1);
    }
  }

  /**
   * With fewer seats than rows, every row keeps at least one seat, so the
   * remainder stays negative after any number of passes: the loop at
   * app.js:127-134 never exits. archSeatPositions reaches it for every total
   * of 1 to 4 seats, which it plans over 5 rows.
   */
  lemma {:induction false} UnguardedShrinkNeverEnds(totalSeats: nat, st: ShrinkState, order: seq<nat>, steps: nat)
    requires |order| > 0 && forall p :: 0 <= p < |order| ==> order[p] < |st.base|
    requires totalSeats < |st.base| && AllAtLeast(st.base, 1)
    requires st.remainder == totalSeats - Sum(st.base)
    ensures var r := ShrinkIterate(st, order, steps);
      r.remainder < 0 && AllAtLeast(r.base, 1) && r.remainder == totalSeats - Sum(r.base)
    decreases steps
  {
    SumAtLeastOnes(st.base);
    if steps > 0 {
      var next := ShrinkStep(st, order);
      var idx := Slot(order, st.cursor);
      if st.base[idx] > 1 {
        SumUpdate(st.base, idx, st.base[idx] - 1);
      }
      UnguardedShrinkNeverEnds(totalSeats, next, order, steps - 1);
    }
  }
}
