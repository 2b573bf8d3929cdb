/**
 * `westminsterSeatPositions` (app.js:219-249): the parties of each side
 * take consecutive seats of that side's block, in input order, and the
 * result maps each party id to its seats.
 */
module Westminster {
  import opened ChartTypes
  import opened BlockLayout
  import Validation

  /** `parties.filter((p) => p.side === side)`. */
  function OnSide(parties: seq<Party>, side: Side): (r: seq<Party>)
    ensures |r| <= |parties|
    ensures forall p :: p in r ==> p in parties && p.side == Some(side)
  {
    if parties == [] then []
    else
      var n := |parties|;
      OnSide(parties[..n - 1], side) + (if parties[n - 1].side == Some(side) then [parties[n - 1]] else [])
  }

  /** The seats of one side: the filtered parties' seats summed. */
  function SideSeats(parties: seq<Party>, side: Side): nat {
    TotalSeats(OnSide(parties, side))
  }

  predicate AllSided(parties: seq<Party>) {
    forall k :: 0 <= k < |parties| ==> parties[k].side.Some?
  }

  /** The block a party's seats come from: government, or else opposition. */
  function BlockSide(party: Party): Side {
    if party.side == Some(Government) then Government else Opposition
  }

  /** A party that names a side takes its seats from that side's block. */
  lemma SidedParty(parties: seq<Party>, k: nat)
    requires k < |parties| && AllSided(parties)
    ensures parties[k].side == Some(BlockSide(parties[k]))
  {
    assert parties[k].side.Some?;
    match parties[k].side.value
    case Government =>
    case Opposition =>
  }

  /** The seats the cursor of `side` has passed once the first k parties are placed. */
  function SeatsBefore(parties: seq<Party>, k: nat, side: Side): nat
    requires k <= |parties|
  {
    if k == 0 then 0
    else SeatsBefore(parties, k - 1, side) + (if BlockSide(parties[k - 1]) == side then parties[k - 1].seats else 0)
  }

  lemma {:induction false} SeatsBeforeMonotone(parties: seq<Party>, a: nat, b: nat, side: Side)
    requires a <= b <= |parties|
    ensures SeatsBefore(parties, a, side) <= SeatsBefore(parties, b, side)
    decreases b - a
  {
    if a < b {
      SeatsBeforeMonotone(parties, a, b - 1, side);
    }
  }

  lemma TotalSeatsAppend(a: seq<Party>, b: seq<Party>)
    requires |b| <= 1
    ensures TotalSeats(a + b) == TotalSeats(a) + TotalSeats(b)
  {
    if |b| == 1 {
      assert (a + b)[..|a + b| - 1] == a;
      assert b[..0] == [];
    } else {
      assert a + b == a;
    }
  }

  /** One party more: the k-th party adds its seats to its own side. */
  lemma SideSeatsStep(parties: seq<Party>, k: nat, side: Side)
    requires 0 < k <= |parties|
    ensures SideSeats(parties[..k], side)
         == SideSeats(parties[..k - 1], side) + (if parties[k - 1].side == Some(side) then parties[k - 1].seats else 0)
  {
    var p := parties[..k];
    assert p[..k - 1] == parties[..k - 1];
    var tail := if parties[k - 1].side == Some(side) then [parties[k - 1]] else [];
    assert OnSide(p, side) == OnSide(parties[..k - 1], side) + tail;
    TotalSeatsAppend(OnSide(parties[..k - 1], side), tail);
    if tail != [] {
      assert tail[..0] == [];
    }
  }

  /**
   * The filter-and-sum of the source and the cursor count agree: the seats
   * of a side among the first k parties are those its cursor has passed.
   */
  lemma {:induction false} SideSeatsIsCursor(parties: seq<Party>, k: nat, side: Side)
    requires k <= |parties| && AllSided(parties)
    ensures SideSeats(parties[..k], side) == SeatsBefore(parties, k, side)
  {
    if k > 0 {
      SideSeatsIsCursor(parties, k - 1, side);
      SideSeatsStep(parties, k, side);
      SidedParty(parties, k - 1);
    }
  }

  lemma SideSeatsTotal(parties: seq<Party>, side: Side)
    requires AllSided(parties)
    ensures SideSeats(parties, side) == SeatsBefore(parties, |parties|, side)
  {
    SideSeatsIsCursor(parties, |parties|, side);
    assert parties[..|parties|] == parties;
  }

  lemma {:induction false} CursorsCoverPrefix(parties: seq<Party>, k: nat)
    requires k <= |parties|
    ensures SeatsBefore(parties, k, Government) + SeatsBefore(parties, k, Opposition) == TotalSeats(parties[..k])
  {
    if k > 0 {
      CursorsCoverPrefix(parties, k - 1);
      TotalSeatsPrefixStep(parties, k - 1);
    }
  }

  /** When every party names a side, the two sides' seats make up the whole chart. */
  lemma SidesCoverAllSeats(parties: seq<Party>)
    requires AllSided(parties)
    ensures SideSeats(parties, Government) + SideSeats(parties, Opposition) == TotalSeats(parties)
  {
    CursorsCoverPrefix(parties, |parties|);
    SideSeatsTotal(parties, Government);
    SideSeatsTotal(parties, Opposition);
    assert parties[..|parties|] == parties;
  }

  /** The positions of one side's block, as blockSeatPositions lays them out. */
  function SideGrid(parties: seq<Party>, side: Side): (r: seq<Point>)
    ensures |r| == SideSeats(parties, side)
  {
    Block(SideSeats(parties, side), side, SideSeats(parties, side))
  }

  /** Where party k's run of seats starts in its side's block. */
  function SideOffset(parties: seq<Party>, k: nat): nat
    requires k < |parties|
  {
    SeatsBefore(parties, k, BlockSide(parties[k]))
  }

  /** Party k's run ends inside its side's block. */
  lemma PartyRunInBlock(parties: seq<Party>, k: nat)
    requires k < |parties| && AllSided(parties)
    ensures SideOffset(parties, k) + parties[k].seats <= SideSeats(parties, BlockSide(parties[k]))
  {
    SeatsBeforeMonotone(parties, k + 1, |parties|, BlockSide(parties[k]));
    SideSeatsTotal(parties, BlockSide(parties[k]));
  }

  /**
   * The seats party k receives: the next `seats` positions of its side's
   * block after those of the earlier parties on that side.
   */
  function PartySeats(parties: seq<Party>, k: nat): (r: seq<Point>)
    requires k < |parties| && AllSided(parties)
    ensures |r| == parties[k].seats
  {
    var start := SideOffset(parties, k);
    PartyRunInBlock(parties, k);
    SideGrid(parties, BlockSide(parties[k]))[start..start + parties[k].seats]
  }

  /**
   * Every seat of a party lies in its side's block: government seats left
   * of the aisle, opposition seats right of it.
   */
  lemma PartySeatsInBlock(parties: seq<Party>, k: nat)
    requires k < |parties| && AllSided(parties)
    ensures forall i :: 0 <= i < |PartySeats(parties, k)| ==> InBlock(PartySeats(parties, k)[i], BlockSide(parties[k]))
  {
    PartyRunInBlock(parties, k);
    var side := BlockSide(parties[k]);
    BlockSound(SideSeats(parties, side), side);
  }

  /** Two different parties never share a seat position. */
  lemma PartySeatsDisjoint(parties: seq<Party>, k1: nat, k2: nat, i1: nat, i2: nat)
    requires k1 < k2 < |parties| && AllSided(parties)
    requires i1 < parties[k1].seats && i2 < parties[k2].seats
    ensures PartySeats(parties, k1)[i1] != PartySeats(parties, k2)[i2]
  {
    var s1 := BlockSide(parties[k1]);
    var s2 := BlockSide(parties[k2]);
    if s1 == s2 {
      var grid := SideGrid(parties, s1);
      PartyRunInBlock(parties, k1);
      PartyRunInBlock(parties, k2);
      SeatsBeforeMonotone(parties, k1 + 1, k2, s1);
      assert PartySeats(parties, k1)[i1] == grid[SideOffset(parties, k1) + i1];
      assert PartySeats(parties, k2)[i2] == grid[SideOffset(parties, k2) + i2];
      BlockSound(SideSeats(parties, s1), s1);
    } else {
      PartySeatsInBlock(parties, k1);
      PartySeatsInBlock(parties, k2);
    }
  }

  lemma SliceJoin<T>(s: seq<T>, a: nat, b: nat)
    requires a <= b <= |s|
    ensures s[..a] + s[a..b] == s[..b]
  {
  }

  /** The seats of the first k parties that sit on `side`, concatenated in list order. */
  function SideRuns(parties: seq<Party>, k: nat, side: Side): seq<Point>
    requires k <= |parties| && AllSided(parties)
  {
    if k == 0 then []
    else SideRuns(parties, k - 1, side) + (if BlockSide(parties[k - 1]) == side then PartySeats(parties, k - 1) else [])
  }

  /** A party on `side` extends that side's runs by its own run. */
  lemma SideRunsStepOn(parties: seq<Party>, k: nat, side: Side)
    requires k < |parties| && AllSided(parties) && BlockSide(parties[k]) == side
    requires SeatsBefore(parties, k + 1, side) <= SideSeats(parties, side)
    requires SideRuns(parties, k, side) == SideGrid(parties, side)[..SeatsBefore(parties, k, side)]
    ensures SideRuns(parties, k + 1, side) == SideGrid(parties, side)[..SeatsBefore(parties, k + 1, side)]
  {
    var grid := SideGrid(parties, side);
    var before := SeatsBefore(parties, k, side);
    var n := parties[k].seats;
    assert PartySeats(parties, k) == grid[before..before + n];
    SliceJoin(grid, before, before + n);
  }

  /** A party on the other side leaves this side's runs and cursor as they were. */
  lemma SideRunsStepOff(parties: seq<Party>, k: nat, side: Side)
    requires k < |parties| && AllSided(parties) && BlockSide(parties[k]) != side
    ensures SideRuns(parties, k + 1, side) == SideRuns(parties, k, side)
    ensures SeatsBefore(parties, k + 1, side) == SeatsBefore(parties, k, side)
  {
    assert SideRuns(parties, k + 1, side) == SideRuns(parties, k, side) + [];
  }

  /**
   * The parties of one side, in list order, take consecutive runs of that
   * side's block: together the first k of them fill exactly the seats
   * before that side's cursor.
   */
  lemma {:induction false} SideRunsFillBlock(parties: seq<Party>, k: nat, side: Side)
    requires k <= |parties| && AllSided(parties)
    ensures SeatsBefore(parties, k, side) <= SideSeats(parties, side)
    ensures SideRuns(parties, k, side) == SideGrid(parties, side)[..SeatsBefore(parties, k, side)]
  {
    assert SeatsBefore(parties, k, side) <= SideSeats(parties, side) by {
      SeatsBeforeMonotone(parties, k, |parties|, side);
      SideSeatsTotal(parties, side);
    }
    if k > 0 {
      SideRunsFillBlock(parties, k - 1, side);
      if BlockSide(parties[k - 1]) == side {
        SideRunsStepOn(parties, k - 1, side);
      } else {
        SideRunsStepOff(parties, k - 1, side);
      }
    }
  }

  /** Each side's parties together fill that side's whole block. */
  lemma SideRunsCoverBlock(parties: seq<Party>, side: Side)
    requires AllSided(parties)
    ensures SideRuns(parties, |parties|, side) == SideGrid(parties, side)
  {
    SideRunsFillBlock(parties, |parties|, side);
    SideSeatsTotal(parties, side);
  }

  /** Party k is the last of the first `upTo` parties with its id, so the map keeps its entry. */
  predicate LastWithId(parties: seq<Party>, k: nat, upTo: nat)
    requires k < upTo <= |parties|
  {
    forall j :: k < j < upTo ==> parties[j].id != parties[k].id
  }

  /** The ids of the first k parties. */
  function Ids(parties: seq<Party>, k: nat): set<nat>
    requires k <= |parties|
  {
    if k == 0 then {} else Ids(parties, k - 1) + {parties[k - 1].id}
  }

  lemma {:induction false} IdsSpec(parties: seq<Party>, k: nat)
    requires k <= |parties|
    ensures Ids(parties, k) == set j | 0 <= j < k :: parties[j].id
  {
    if k > 0 {
      IdsSpec(parties, k - 1);
      var s := set j | 0 <= j < k :: parties[j].id;
      forall x | x in s
        ensures x in Ids(parties, k)
      {
        var j :| 0 <= j < k && parties[j].id == x;
        if j < k - 1 {
          assert x in Ids(parties, k - 1);
        }
      }
    }
  }

  /** Every id among the first k parties maps to the `want` entry of the last party with it. */
  ghost predicate Recorded<V>(parties: seq<Party>, k: nat, byParty: map<nat, V>, want: seq<V>)
    requires k <= |parties| == |want|
  {
    forall j :: 0 <= j < k && LastWithId(parties, j, k) ==> parties[j].id in byParty && byParty[parties[j].id] == want[j]
  }

  /** `byParty.set(party.id, ...)` for the k-th party keeps the map Recorded one party further. */
  lemma RecordParty<V>(parties: seq<Party>, k: nat, byParty: map<nat, V>, want: seq<V>)
    requires k < |parties| == |want|
    requires Recorded(parties, k, byParty, want)
    ensures Recorded(parties, k + 1, byParty[parties[k].id := want[k]], want)
  {
    var m := byParty[parties[k].id := want[k]];
    forall j | 0 <= j < k + 1 && LastWithId(parties, j, k + 1)
      ensures parties[j].id in m && m[parties[j].id] == want[j]
    {
      if j < k {
        assert parties[k].id != parties[j].id;
        assert LastWithId(parties, j, k);
      }
    }
  }

  /** Every party's run of seats, in input order. */
  ghost function AllRuns(parties: seq<Party>): (r: seq<seq<Point>>)
    requires AllSided(parties)
    ensures |r| == |parties|
    ensures forall j :: 0 <= j < |r| ==> r[j] == PartySeats(parties, j)
  {
    seq(|parties|, j requires 0 <= j < |parties| => PartySeats(parties, j))
  }

  /**
   * The inner loop of westminsterSeatPositions: push `n` positions from the
   * cursor on, advancing the cursor past them.
   */
  method TakeSeats(pos: seq<Point>, cursor: nat, n: nat) returns (seats: seq<Point>, next: nat)
    requires cursor + n <= |pos|
    ensures seats == pos[cursor..cursor + n]
    ensures next == cursor + n
  {
    seats := [];
    next := cursor;
    for i := 0 to n
      invariant next == cursor + i
      invariant seats == pos[cursor..next]
    {
      seats := seats + [pos[next]];
      next := next + 1;
    }
  }

  /**
   * The `forEach` callback of westminsterSeatPositions for party k: take
   * the party's seats from its side's block at that side's cursor.
   */
  method PlaceParty(parties: seq<Party>, k: nat, govPos: seq<Point>, oppPos: seq<Point>, gi: nat, oi: nat)
    returns (seats: seq<Point>, gi': nat, oi': nat)
    requires k < |parties| && AllSided(parties)
    requires govPos == SideGrid(parties, Government) && oppPos == SideGrid(parties, Opposition)
    requires gi == SeatsBefore(parties, k, Government) && oi == SeatsBefore(parties, k, Opposition)
    ensures seats == PartySeats(parties, k)
    ensures gi' == SeatsBefore(parties, k + 1, Government) && oi' == SeatsBefore(parties, k + 1, Opposition)
  {
    var n := parties[k].seats;
    PartyRunInBlock(parties, k);
    gi', oi' := gi, oi;
    if parties[k].side == Some(Government) {
      assert SideOffset(parties, k) == gi;
      seats, gi' := TakeSeats(govPos, gi, n);
      assert seats == SideGrid(parties, Government)[gi..gi + n];
    } else {
      assert SideOffset(parties, k) == oi;
      seats, oi' := TakeSeats(oppPos, oi, n);
      assert seats == SideGrid(parties, Opposition)[oi..oi + n];
    }
  }

  /** One pass of the `forEach`: place party k and record its run under its id. */
  method PlaceNext(parties: seq<Party>, k: nat, govPos: seq<Point>, oppPos: seq<Point>,
                   byParty: map<nat, seq<Point>>, gi: nat, oi: nat, ghost want: seq<seq<Point>>)
    returns (byParty': map<nat, seq<Point>>, gi': nat, oi': nat)
    requires k < |parties| && AllSided(parties) && want == AllRuns(parties)
    requires govPos == SideGrid(parties, Government) && oppPos == SideGrid(parties, Opposition)
    requires gi == SeatsBefore(parties, k, Government) && oi == SeatsBefore(parties, k, Opposition)
    requires byParty.Keys == Ids(parties, k) && Recorded(parties, k, byParty, want)
    ensures gi' == SeatsBefore(parties, k + 1, Government) && oi' == SeatsBefore(parties, k + 1, Opposition)
    ensures byParty'.Keys == Ids(parties, k + 1) && Recorded(parties, k + 1, byParty', want)
  {
    var seats;
    seats, gi', oi' := PlaceParty(parties, k, govPos, oppPos, gi, oi);
    assert seats == want[k];
    RecordParty(parties, k, byParty, want);
    byParty' := byParty[parties[k].id := seats];
  }

  /**
   * The `forEach` of westminsterSeatPositions over all parties: the cursors
   * `gi` and `oi` walk the two blocks and each party's run is recorded
   * under its id.
   */
  method PlaceAll(parties: seq<Party>, govPos: seq<Point>, oppPos: seq<Point>) returns (byParty: map<nat, seq<Point>>)
    requires AllSided(parties)
    requires govPos == SideGrid(parties, Government) && oppPos == SideGrid(parties, Opposition)
    ensures byParty.Keys == Ids(parties, |parties|)
    ensures Recorded(parties, |parties|, byParty, AllRuns(parties))
  {
    byParty := map[];
    var gi := 0;
    var oi := 0;
    ghost var want := AllRuns(parties);
    for k := 0 to |parties|
      invariant gi == SeatsBefore(parties, k, Government)
      invariant oi == SeatsBefore(parties, k, Opposition)
      invariant byParty.Keys == Ids(parties, k)
      invariant Recorded(parties, k, byParty, want)
    {
      byParty, gi, oi := PlaceNext(parties, k, govPos, oppPos, byParty, gi, oi, want);
    }
  }

  /**
   * westminsterSeatPositions: every party id maps to the seats of the last
   * party with that id, which are that party's run in its side's block.
   */
  method WestminsterSeatPositions(parties: seq<Party>) returns (byParty: map<nat, seq<Point>>)
    requires AllSided(parties)
    ensures byParty.Keys == set k | 0 <= k < |parties| :: parties[k].id
    ensures forall k ::
      0 <= k < |parties| && LastWithId(parties, k, |parties|) ==> byParty[parties[k].id] == PartySeats(parties, k)
  {
    var govPos := BlockSeatPositions(SideSeats(parties, Government), Government);
    var oppPos := BlockSeatPositions(SideSeats(parties, Opposition), Opposition);
    byParty := PlaceAll(parties, govPos, oppPos);
    IdsSpec(parties, |parties|);
    ghost var want := AllRuns(parties);
    forall k | 0 <= k < |parties| && LastWithId(parties, k, |parties|)
      ensures byParty[parties[k].id] == PartySeats(parties, k)
    {
      assert byParty[parties[k].id] == want[k];
    }
  }

  /**
   * A validated Westminster chart meets the method's precondition, and its
   * ids are the party indices, so every party keeps its own entry.
   */
  lemma ValidatedWestminsterChart(data: Json, k: nat)
    requires Validation.ValidateData(data).Success?
    requires Validation.ValidateData(data).value.layout == Westminster
    requires k < |Validation.ValidateData(data).value.parties|
    ensures AllSided(Validation.ValidateData(data).value.parties)
    ensures LastWithId(Validation.ValidateData(data).value.parties, k, |Validation.ValidateData(data).value.parties|)
  {
    Validation.ValidatedChart(data);
  }
}
