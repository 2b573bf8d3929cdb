/**
 * The bundled 500-seat sample charts (sample-data.js:2-14 and 32-44), as
 * validation leaves their parties, with lemmas stating what the layout
 * functions give for them.
 */
module Samples {
  import opened ChartTypes
  import ArchLayout
  import BlockLayout
  import Westminster

  /** The parties of the 500-seat arch sample, as validation leaves them. */
  const Arch500Parties: seq<Party> := [
    Party(0, "Left Alliance", "#dc2626", 160, None),
    Party(1, "Greens", "#16a34a", 38, None),
    Party(2, "Centre", "#f59e0b", 107, None),
    Party(3, "Liberal", "#0ea5e9", 65, None),
    Party(4, "Right Bloc", "#1d4ed8", 130, None)]

  /** The parties of the 500-seat Westminster sample, as validation leaves them. */
  const Westminster500Parties: seq<Party> := [
    Party(0, "Gov Party A", "#ef4444", 220, Some(Government)),
    Party(1, "Gov Party B", "#f97316", 40, Some(Government)),
    Party(2, "Opp Party A", "#2563eb", 180, Some(Opposition)),
    Party(3, "Opp Party B", "#06b6d4", 45, Some(Opposition)),
    Party(4, "Opp Party C", "#64748b", 15, Some(Opposition))]

  /** The arch sample seats 500 members on eleven rows. */
  lemma Arch500Layout()
    ensures TotalSeats(Arch500Parties) == 500
    ensures ArchLayout.InitialRowCount(500) == 11
  {
    var s := Arch500Parties;
    assert s[..0] == [];
    TotalSeatsPrefixStep(s, 0);
    TotalSeatsPrefixStep(s, 1);
    TotalSeatsPrefixStep(s, 2);
    TotalSeatsPrefixStep(s, 3);
    TotalSeatsPrefixStep(s, 4);
    assert s[..5] == s;
  }

  /** The Westminster sample splits 260 government seats from 240 opposition seats. */
  lemma Westminster500Sides()
    ensures Westminster.SideSeats(Westminster500Parties, Government) == 260
    ensures Westminster.SideSeats(Westminster500Parties, Opposition) == 240
  {
    var s := Westminster500Parties;
    assert Westminster.AllSided(s);
    Westminster.SideSeatsTotal(s, Government);
    Westminster.SideSeatsTotal(s, Opposition);
  }

  /** Its government block is a 14 by 19 grid, its opposition block 14 by 18. */
  lemma Westminster500Grids()
    ensures BlockLayout.Columns(260) == 19 && BlockLayout.GridRows(260) == 14
    ensures BlockLayout.Columns(240) == 18 && BlockLayout.GridRows(240) == 14
  {
    BlockLayout.ColumnsIs(260, 19);
    BlockLayout.ColumnsIs(240, 18);
  }
}
