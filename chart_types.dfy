/**
 * Values shared by the layout engine of the parliament chart: the JSON value
 * the validator reads, the sanitised chart description it produces, and the
 * seat sum that `buildPartyMeta` computes.
 */
module ChartTypes {

  datatype Option<+T> = None | Some(value: T)

  /** Success or failure; `:-` propagates the failure, as a `throw` does. */
  datatype Result<+T, +E> = Success(value: T) | Failure(error: E) {
    predicate IsFailure() { Failure? }

    function PropagateFailure<U>(): Result<U, E>
      requires Failure?
    {
      Failure(error)
    }

    function Extract(): T
      requires Success?
    {
      value
    }
  }

  /**
   * A value as `JSON.parse` returns it. An object is a map from keys to
   * values (`JSON.parse` keeps the last of duplicated keys); a number is the
   * exact value of the parsed double.
   */
  datatype Json =
    | JNull
    | JBool(b: bool)
    | JNumber(n: real)
    | JString(s: string)
    | JArray(items: seq<Json>)
    | JObject(fields: map<string, Json>)

  datatype LayoutType = Arch | Westminster

  datatype Side = Government | Opposition

  datatype Options = Options(showLegend: bool, showWestminsterHeaders: bool, showMajorityLine: bool)

  /** The options a chart has when the input does not override them. */
  const DefaultOptions := Options(true, false, false)

  /** A sanitised party; `side` is None for the arch layout. */
  datatype Party = Party(id: nat, name: string, color: string, seats: nat, side: Option<Side>)

  datatype ChartSpec = ChartSpec(layout: LayoutType, parties: seq<Party>, options: Options)

  /** Sum of a sequence, accumulated from the left as `reduce` does. */
  function Sum(s: seq<int>): int {
    if s == [] then 0 else Sum(s[..|s| - 1]) + s[|s| - 1]
  }

  /** The `totalSeats` that `buildPartyMeta` and `renderArch` compute. */
  function TotalSeats(parties: seq<Party>): nat {
    if parties == [] then 0 else TotalSeats(parties[..|parties| - 1]) + parties[|parties| - 1].seats
  }

  /** A party as `buildPartyMeta` decorates it: with the chart's seat total. */
  datatype PartyMeta = PartyMeta(party: Party, totalSeats: nat)

  /**
   * `buildPartyMeta` without the floating-point `percent`: every party,
   * in order, paired with the same total of all seats.
   */
  function BuildPartyMeta(parties: seq<Party>): (meta: seq<PartyMeta>)
    ensures |meta| == |parties|
    ensures forall k :: 0 <= k < |meta| ==> meta[k].party == parties[k]
    ensures forall k :: 0 <= k < |meta| ==> meta[k].totalSeats == TotalSeats(parties)
  {
    var total := TotalSeats(parties);
    seq(|parties|, k requires 0 <= k < |parties| => PartyMeta(parties[k], total))
  }

  predicate AllSeatsPositive(parties: seq<Party>) {
    forall k :: 0 <= k < |parties| ==> parties[k].seats > 0
  }

  lemma MulDistrib(a: int, b: int, c: int)
    ensures (a + b) * c == a * c + b * c
    ensures c * (a + b) == c * a + c * b
  {
  }

  lemma MulMonotone(a: int, b: int, c: int)
    requires a >= b && c > 0
    ensures a * c >= b * c
  {
    MulDistrib(a - b, b, c);
  }

  lemma SquareMonotone(a: nat, b: nat)
    requires a <= b
    ensures a * a <= b * b
  {
    if a > 0 {
      MulMonotone(b, a, b);
      MulMonotone(b, a, a);
    }
  }

  lemma TotalSeatsPrefixStep(parties: seq<Party>, k: nat)
    requires k < |parties|
    ensures TotalSeats(parties[..k + 1]) == TotalSeats(parties[..k]) + parties[k].seats
  {
    assert parties[..k + 1][..k] == parties[..k];
  }

  /** Replacing one entry changes the sum by the difference. */
  lemma {:induction false} SumUpdate(s: seq<int>, i: nat, v: int)
    requires i < |s|
    ensures Sum(s[i := v]) == Sum(s) - s[i] + v
  {
    var n := |s|;
    if i == n - 1 {
      assert s[i := v][..n - 1] == s[..n - 1];
    } else {
      SumUpdate(s[..n - 1], i, v);
      assert s[i := v][..n - 1] == s[..n - 1][i := v];
    }
  }

  /** A pointwise smaller sequence has a smaller sum. */
  lemma {:induction false} SumMonotone(a: seq<int>, b: seq<int>)
    requires |a| == |b|
    requires forall i :: 0 <= i < |a| ==> a[i] <= b[i]
    ensures Sum(a) <= Sum(b)
  {
    if a != [] {
      SumMonotone(a[..|a| - 1], b[..|b| - 1]);
    }
  }

  /** A sequence whose entries are all at most one sums to at most its length. */
  lemma {:induction false} SumAtMostOnes(s: seq<int>)
    requires forall i :: 0 <= i < |s| ==> s[i] <= 1
    ensures Sum(s) <= |s|
  {
    if s != [] {
      SumAtMostOnes(s[..|s| - 1]);
    }
  }

  /** A sequence whose entries are all at least one sums to at least its length. */
  lemma {:induction false} SumAtLeastOnes(s: seq<int>)
    requires forall i :: 0 <= i < |s| ==> s[i] >= 1
    ensures Sum(s) >= |s|
  {
    if s != [] {
      SumAtLeastOnes(s[..|s| - 1]);
    }
  }

  /**
   * Every party holds at least one seat, so the chart has at least as many
   * seats as parties; a validated chart therefore has a positive total.
   */
  lemma {:induction false} TotalSeatsAtLeastPartyCount(parties: seq<Party>)
    requires AllSeatsPositive(parties)
    ensures TotalSeats(parties) >= |parties|
  {
    if parties != [] {
      TotalSeatsAtLeastPartyCount(parties[..|parties| - 1]);
    }
  }

  /** The seats before party `k` never exceed the total. */
  lemma {:induction false} PrefixSeatsAtMostTotal(parties: seq<Party>, k: nat)
    requires k <= |parties|
    ensures TotalSeats(parties[..k]) <= TotalSeats(parties)
    decreases |parties| - k
  {
    if k < |parties| {
      TotalSeatsPrefixStep(parties, k);
      PrefixSeatsAtMostTotal(parties, k + 1);
    } else {
      assert parties[..k] == parties;
    }
  }

  /** No party holds more than the total, so its `percent` is at most 100. */
  lemma PartyAtMostTotal(parties: seq<Party>, k: nat)
    requires k < |parties|
    ensures parties[k].seats <= TotalSeats(parties)
  {
    TotalSeatsPrefixStep(parties, k);
    PrefixSeatsAtMostTotal(parties, k + 1);
  }
}
