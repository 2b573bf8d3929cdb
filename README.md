# Parliament chart layout engine

A Dafny model of the seat-layout and validation logic of the parliament
chart page (`app.js`). The page reads a JSON description of a parliament:
a layout type (`"arch"` or `"westminster"`), a list of parties with a name,
a colour, a seat count and, for the Westminster layout, a side, plus
optional display options. It then places one dot per seat.

- **Validation** (`Validation`, validation.dfy). `validateData` is a total
  function from a JSON value to an error or a sanitised chart. Its checks run
  in source order: object, type, parties array, options, then each party's
  name, colour, seats and side in index order, then the presence of both
  Westminster sides. The first failure wins.
- **Row apportionment** (`RowLayout`, row_layout.dfy). `computeRowLayout`
  shares the seats among the rows of the arch in proportion to each row's
  raw capacity. It uses the largest-remainder method: the floors of the
  exact shares, then one extra seat per row in descending order of the
  fractional parts (ties in index order, since the sort is stable), or seats
  taken away from rows holding more than one. The shares are computed in
  exact integer arithmetic: `raw[i]*total / rawTotal` and
  `raw[i]*total % rawTotal`. The two `while` loops work in place on an
  `array`.
- **Arch row count and seat order** (`ArchLayout`, arch_layout.dfy).
  `clamp(round(sqrt(t)/2), 5, 11)` initial rows are computed in integers. The
  shrink loop drops rows while the innermost row holds fewer than 8 seats,
  stopping at 4 rows. The seat list is enumerated row by row and cut to the
  seat total. `renderArch` walks one seat index over the ordered positions,
  and `drawArchMajorityLine` chooses its midpoint indices.
- **Block grid** (`BlockLayout`, block_layout.dfy). `blockSeatPositions`
  computes `cols = max(2, ceil(sqrt(1.25·count)))` as the least `c` with
  `4c² ≥ 5·count`, and `rows = ceil(count/cols)`. Seat `i` sits at row
  `i / cols`, column `i % cols`, with exact `real` coordinates.
- **Westminster assignment** (`Westminster`, westminster.dfy).
  `westminsterSeatPositions` walks the cursors `gi` and `oi` over the
  government and opposition blocks and maps every party id to its run of
  seats.
- **Shared values** (`ChartTypes`, chart_types.dfy): the JSON value, the
  sanitised party and chart, and the `totalSeats` sum of `buildPartyMeta`.
- **Sample charts** (`Samples`, samples.dfy): the 500-seat samples of
  sample-data.js, with lemmas stating what the layout functions give for
  them.

Where app.js works by mutation, the model is imperative:
- `computeRowLayout`'s loops are `AddSeats` and `RemoveSeats` over an
  `array<int>`;
- the shrink loop, the seat push loops, the `forEach` of
  `westminsterSeatPositions` and `renderArch`'s seat index are methods with
  loop invariants.

Each such method is proved against a specification:
- `AddSeats` against `Bumped`;
- `RemoveSeats` against `ShrinkIterate`, the loop's pass function, run for
  the `StopsAfter` number of passes;
- `ComputeRowLayout` against `IsRowLayout`, which says which layout the two
  loops give, and which `RowLayoutUnique` shows holds for one layout only;
- `ArchRowPlan` against `IsRowLayout` and `InnerRowShort` for every row
  count it gave up, which by `ArchPlanUnique` leave one plan;
- the seat loops against `RowMajor`, `Block`, `PartySeats` and
  `SeatOffset`.

The properties of the layout are lemmas about these specifications.

## Model

| member | source | states |
|---|---|---|
| ChartTypes.BuildPartyMeta | app.js:251-258 | one entry per party, in order, each carrying the party and the same `totalSeats`, the sum of all parties' seats |
| ChartTypes.TotalSeatsAtLeastPartyCount | app.js:252 | `TotalSeats`, the `reduce` of `buildPartyMeta`: with every party holding a seat, the total is at least the number of parties |
| ChartTypes.PrefixSeatsAtMostTotal | app.js:252 | `TotalSeats` of the first k parties never exceeds the total |
| ChartTypes.PartyAtMostTotal | app.js:252-256 | no party holds more seats than the total, so a party's share of the total is at most 100 percent |
| Validation.TrimSpec | app.js:62-65 | of `Trim` (the `.trim()` of name and colour): the trimmed name or colour is the input with leading and trailing JavaScript white space removed, and it neither starts nor ends with white space |
| Validation.TrimEmptyIff | app.js:62-65 | the `Trim`med string is non-empty exactly when the input holds a character that is not white space |
| Validation.SanitizePartyCases | app.js:61-86 | of `SanitizeParty`, one step of the `map`: a party is accepted exactly when name, colour, seats and (for Westminster) side are valid; the accepted party has id = index, trimmed name and colour, the same seats, and a side only for Westminster; each error names the first failing check in the order name, colour, seats, side |
| Validation.SanitizePartiesSpec | app.js:61-87 | of `SanitizeParties`: mapping over the parties succeeds exactly when every party is valid, and then yields one sanitised party per input party, in order |
| Validation.SanitizePartiesFailure | app.js:61-87 | of `SanitizeParties`: on failure, the error is that of the first invalid party, and all parties before it are valid |
| Validation.ReadOptionsSpec | app.js:32-59 | of `ReadOptions`: options are read exactly when no supplied option is a non-boolean and options, when present, is an object; each flag is the supplied boolean or its default (legend on, headers off, majority line off); the error is "options not an object" exactly when options is present and not an object, and "option k not a boolean" exactly when k is the first flag, in the order legend, headers, majority line, that is present and not a boolean |
| Validation.FirstBadFlagCases | app.js:41-58 | option k is the first bad flag exactly when it is present and not a boolean and every flag checked before it is absent or a boolean |
| Validation.ShapeOkIff | app.js:19-30 | the top-level shape is accepted exactly when the input is an object whose type is "arch" or "westminster" and whose parties is a non-empty array |
| Validation.HasSideSpec | app.js:89-91 | a sanitised Westminster chart has a party on a side exactly when some input party names that side |
| Validation.SidesSpec | app.js:89-95 | both sides are present among the sanitised parties exactly when both occur in the input |
| Validation.ValidateSucceedsIff | app.js:18-98 | of `ValidateData`: validation succeeds exactly when the shape, the options and every party are valid and, for Westminster, both sides occur |
| Validation.ValidatedChart | app.js:32-97 | of `ValidateData`: a successful result has the input's layout, one sanitised party per input party, the options read from the input, positive seats throughout, and both sides for Westminster |
| Validation.ValidatedSeatTotal | app.js:28-30 | a validated chart has at least one party and at least as many seats as parties |
| Validation.FirstFailureTopLevel | app.js:19-59 | the error is "not an object", "missing type", "missing parties" or an options error exactly when that check is the first to fail |
| Validation.FirstFailureParty | app.js:61-78 | a party error names the first invalid party; the shape, the options and all earlier parties are valid, and the error is the one that party's checks produce |
| Validation.FirstFailureSides | app.js:89-95 | the missing-side error occurs only for a Westminster chart whose other checks all pass and which lacks one side |
| RowLayout.ComputeRaw | app.js:105-109 | the loop builds one raw capacity per row, `max(3, floor(pi·radius/22))` at radius `450 - row·step` |
| RowLayout.RawAtLeastThree | app.js:108 | every raw capacity is at least 3 |
| RowLayout.InitialRemainder | app.js:111-114 | the seats left after the floors are fewer than the row count |
| RowLayout.FloorsFallShortByLessThanRowCount | app.js:111-114 | the floors of the exact shares fall short of the total by less than the number of rows |
| RowLayout.SplitIdentity | app.js:112-114 | the floors times rawTotal plus the fractional remainders add up to `totalSeats·rawTotal` exactly |
| RowLayout.RankOrder | app.js:116-118 | `order` is a permutation of the row indices, sorted by descending fractional part, with ties in index order |
| RowLayout.RankedPositions | app.js:116-118 | of two rows, the one with the larger fractional part comes first (on a tie, the lower index) |
| RowLayout.AddSeats | app.js:120-125 | a positive remainder adds one seat to each of the first `remainder` rows of `order`, and the cursor ends at the remainder without wrapping; otherwise `base` is unchanged; the sum grows by the seats added |
| RowLayout.ExtraSeatsGoToLargestFractions | app.js:116-125 | a row that received an extra seat has a larger fractional part than a row that did not (or an equal one and a lower index) |
| RowLayout.RemoveSeats | app.js:127-134 | the new `base` and remainder are those of `ShrinkIterate`, the loop's pass function, run from the old `base`, cursor and remainder for the `StopsAfter` number of passes: the test held before each pass and fails after the last, stopped early only once every row holds 1; seats are taken only from rows holding more than one, so no row drops below 1; the sum falls by exactly the seats removed |
| RowLayout.ShrinkPass | app.js:128-133 | one pass of the loop on the array: the new `base` and remainder are those of `ShrinkStep` on the old ones |
| RowLayout.IterateStep | app.js:127-134 | n + 1 passes are n passes followed by one more |
| RowLayout.ShrinkStepKeeps | app.js:128-133 | a pass never lowers a row below 1 or raises it, keeps `Sum(base) + remainder`, and raises the remainder by at most 1 |
| RowLayout.ShrinkIterateBounds | app.js:127-134 | after any number of passes every row holds between 1 and its seats before the loop |
| RowLayout.ShrinkIterateSum | app.js:127-134 | after any number of passes `Sum(base) + remainder` is unchanged and the remainder has not fallen |
| RowLayout.StopsAfterRun | app.js:127 | a run of passes whose test held every time but the last is what `StopsAfter` describes |
| RowLayout.StopsAfterEnds | app.js:127 | after the `StopsAfter` number of passes the loop's test fails |
| RowLayout.StopsAfterUnique | app.js:127-134 | the number of passes the loop makes is determined by its starting state |
| RowLayout.StoppedRemainder | app.js:127-134 | when the loop stops, the remainder is not positive |
| RowLayout.MissRunCoversAllRows | app.js:127-134 | a run of at least `rowCount` consecutive cursor positions that remove nothing has visited every row, so every row holds one seat |
| RowLayout.ComputeRowLayout | app.js:100-137 | the result is the `IsRowLayout` layout: the floors with the extra seats of `Bumped` for a non-negative remainder, or the floors after the `StopsAfter` passes of `ShrinkIterate` for a negative one; one entry per row, each at least 1; for `totalSeats >= rowCount` the entries sum exactly to `totalSeats`, and with fewer seats than rows every row holds 1 |
| RowLayout.BumpedSum | app.js:120-125 | the extra seats given to the first m ranked rows add exactly m to the sum |
| RowLayout.BumpedRows | app.js:111-125 | with a non-negative remainder the layout keeps every row at least 1 and sums to the seat total, which is then at least the row count |
| RowLayout.ShrunkRows | app.js:111-134 | with a negative remainder the layout keeps every row between 1 and its floor; it sums to the total when the total is at least the row count, and is all ones otherwise |
| RowLayout.RowLayoutSpec | app.js:100-137 | every `IsRowLayout` layout has one entry per row, each at least 1, sums to the total when there are at least as many seats as rows, is all ones when there are fewer, and only lowers the floors when the remainder is negative |
| RowLayout.RowLayoutUnique | app.js:100-137 | at most one sequence is the `IsRowLayout` layout for a seat total and a row count |
| RowLayout.UnguardedShrinkNeverEnds | app.js:127-134 | with fewer seats than rows, every number of passes of the unguarded loop leaves the remainder negative, so the loop never exits |
| ArchLayout.RoundHalfSqrtRange | app.js:140 | `round(sqrt(t)/2)` is at most 5 only below 121 seats and at least 11 only from 441 seats on |
| ArchLayout.InitialRowCount | app.js:140 | the initial row count lies in [5, 11]: 5 below 121 seats, 11 from 441 seats, and otherwise the k with `(2k-1)² <= t < (2k+1)²`; with at least 5 seats it never exceeds the seat count |
| ArchLayout.ArchRowPlan | app.js:139-149 | the shrink loop ends with between 4 and the initial number of rows; the plan is the `IsRowLayout` layout for its own row count; for every larger row count up to the initial one, that count's layout has an innermost row under 8 (`ShortAbove`); and the plan's innermost row holds at least 8 unless 4 rows remain |
| ArchLayout.ShortAboveStep | app.js:143-148 | rejecting a layout whose innermost row is short extends `ShortAbove` by one row count |
| ArchLayout.ArchPlanSpec | app.js:139-149 | a plan meeting ArchRowPlan's contract has every row at least 1, sums to the seat total when there are at least as many seats as rows, and is all ones otherwise, so it never holds fewer seats than the total |
| ArchLayout.ShorterPlanFails | app.js:143-149 | a layout longer than a row count the loop passed cannot meet the stopping test |
| ArchLayout.ArchPlanUnique | app.js:139-149 | at most one plan meets ArchRowPlan's contract for a seat total |
| ArchLayout.RowMajor | app.js:158-168 | the row-by-row seat list has one slot per planned seat, every slot inside its row, in strictly increasing row-major order |
| ArchLayout.RowMajorCovers | app.js:158-168 | every seat of every row appears in the row-by-row list |
| ArchLayout.PushRow | app.js:160-167 | the inner loop appends the row's seats 0 to count-1 in order |
| ArchLayout.EnumerateSeats | app.js:158-168 | the `forEach` over the rows yields exactly the row-major list `RowMajor` |
| ArchLayout.ArchSeatSlots | app.js:139-170 | the plan meets ArchRowPlan's contract; at most 11 and at least 4 rows; exactly `totalSeats` slots, the row-major list cut at the total; with at least 5 seats the plan sums to the total, so the cut removes nothing |
| ArchLayout.SlicesPartitionSeats | app.js:411-421 | every seat index below the total falls in the slice `[Σ_{j<k} seats_j, Σ_{j≤k} seats_j)` of exactly one party |
| ArchLayout.RenderArch | app.js:411-421 | the seat walk mounts exactly `totalSeats` seats, and seat j goes to the party whose slice contains j, at position j |
| ArchLayout.MajorityIndices | app.js:340-359 | no index without the arch layout, the option or at least 2 seats; otherwise indices `mid-1` and `mid` for an even count, `floor(mid)` for an odd one, all in range |
| BlockLayout.ColumnsSpec | app.js:192 | of `Columns`: `cols` is the least c >= 2 with `4c² >= 5·count` |
| BlockLayout.ColumnsIs | app.js:192 | any c > 2 with `4c² >= 5·count > 4(c-1)²` is the column count |
| BlockLayout.GridRowsSpec | app.js:193 | of `GridRows`: `rows` is `ceil(count/cols)`: the grid holds every seat and no row is empty |
| BlockLayout.BlockCellInGrid | app.js:204-206 | seat i sits in row `i / cols` < rows and column `i % cols` < cols |
| BlockLayout.BlockPositionInBlock | app.js:200-214 | every seat lies within y in [80, 500], and x in [80, 430] for government or [550, 900] for opposition |
| BlockLayout.BlockPositionInjective | app.js:200-214 | two different seats of a block never share a position |
| BlockLayout.BlockSound | app.js:191-217 | the whole block lies on its side of the aisle and has no repeated position |
| BlockLayout.BlockSeatPositions | app.js:191-217 | the loop returns exactly `count` positions (none for 0), seat i at its grid cell, all inside the side's area and pairwise distinct |
| Westminster.SideSeatsTotal | app.js:220-223 | the filter-and-sum of one side's seats equals that side's cursor after all parties |
| Westminster.SidesCoverAllSeats | app.js:220-223 | when every party names a side, government and opposition seats add up to the chart's total |
| Westminster.PartyRunInBlock | app.js:232-244 | each party's run of seats ends within its side's block, so every index read is in range |
| Westminster.PartySeatsInBlock | app.js:232-244 | every seat of a party lies in its side's area |
| Westminster.PartySeatsDisjoint | app.js:232-244 | no two parties share a seat position |
| Westminster.SideRunsCoverBlock | app.js:232-244 | the runs of one side's parties, in list order, concatenate to that side's whole block |
| Westminster.TakeSeats | app.js:235-243 | the inner loop pushes the next n positions from the cursor and advances the cursor by n |
| Westminster.PlaceNext | app.js:232-245 | one pass of the `forEach`: both cursors move to the seats before party k + 1, and the map's keys become the ids of the first k + 1 parties, each still mapped to the run of the last party with it |
| Westminster.PlaceAll | app.js:228-246 | after the `forEach`, the map's keys are exactly the party ids and each id maps to the run of the last party with that id |
| Westminster.PlaceParty | app.js:233-244 | party k receives exactly its run of its side's block, and only its side's cursor moves on, by its seat count |
| Westminster.WestminsterSeatPositions | app.js:219-249 | the map's keys are the party ids, and each id maps to the `seats` positions of the last party with that id, a run of its side's block |
| Westminster.ValidatedWestminsterChart | app.js:72-97 | a validated Westminster chart names a side for every party and has distinct ids, so the method's precondition holds and every party keeps its own entry |
| Samples.Arch500Layout | sample-data.js:2-14 | the 500-seat arch sample totals 500 seats and starts with 11 rows |
| Samples.Westminster500Sides | sample-data.js:32-44 | the 500-seat Westminster sample has 260 government and 240 opposition seats |
| Samples.Westminster500Grids | sample-data.js:32-44 | its government block is 19 columns by 14 rows, and its opposition block 18 by 14 |

## Left out

- DOM and SVG drawing, tooltips, the legend and event listeners
  (`mountSeat`, `drawAisle`, `drawWestminsterHeaders`, `renderLegend`,
  `tooltipHtml`, `updateSeatStyles`, the render button and the
  `window.parliamentChart` API): these are view code with no layout logic.
- `JSON.parse`: the model starts from the parsed value (`ChartTypes.Json`).
  An object is a map, so a repeated key keeps only its last value, as
  `JSON.parse` does. A number is any `real`, not only a double: a literal
  such as `1e400`, which `JSON.parse` turns into `Infinity` and app.js:68
  then rejects as not an integer, is an exact integer in the model.
- The module-level view state (`activePartyId`, `partyMeta`, `currentType`,
  `currentOptions`): this is hover and UI state. `MajorityIndices` takes the
  current layout and option as parameters.
- Trigonometric coordinates. Left out are the x/y of `archSeatPositions` and
  the angle sort of `orderedArchPositions`. The model places arch seats as
  (row, seat) slots, and `RenderArch` takes the ordered positions as a
  parameter of any element type. The angle and end points of the majority
  line are left out too; only its index choice is modelled.
- Floating point. `computeRowLayout`'s shares (`v / rawTotal * totalSeats`)
  are exact rationals in the model, so a share that the double arithmetic
  rounds across an integer boundary is not reproduced. `Math.PI` is the
  exact value of the double (884279719003555 / 2^48), but the product
  `Math.PI * radius` and the division by 22 are not rounded. `Math.sqrt`,
  `Math.ceil` and `Math.round` are replaced by their exact integer
  characterisations. The row step and radius of app.js:103 and 107 are exact
  rationals too, although `300 / 7` and `300 / 9` are not doubles, and so
  are the block coordinates of app.js:200-213.
- `percent` in `buildPartyMeta` and the `toFixed(1)` display: these are
  floating-point formatting.
- Error message text. Errors are the `ValidationError` constructors, which
  carry the party index and name that the messages interpolate.
- The sample-data wiring (buttons and text area). The samples' parties are
  constants, and their JSON form is not run through `ValidateData`.
- Westminster.WestminsterSeatPositions: requires every party to name a side.
  Validation guarantees this (`ValidatedWestminsterChart`); without it,
  app.js would read past the end of the opposition block.
- RowLayout.ComputeRowLayout: adds an exit to the loop of app.js:127-134
  once every row holds one seat. That exit never triggers when
  `totalSeats >= rowCount`; below that, app.js never returns (see Findings).
- ArchLayout.ArchRowPlan: for 1 to 4 seats it returns the guarded plan,
  where app.js hangs in its first call of `computeRowLayout`. Its contract
  pins the plan down (`ArchPlanUnique`); the sums and floors of that plan
  are stated by `ArchPlanSpec` rather than repeated on the method.

## Findings

| source | as written | input that shows it | evidently intended | confidence | as-written member | corrected member |
|---|---|---|---|---|---|---|
| app.js:127-134 | the loop that removes surplus seats only moves on when some row holds more than one seat | a validated arch chart with 1 to 4 seats in total: `archSeatPositions` asks for 5 rows, every row floors to at least 1, and the loop never exits | the layout terminates for every chart that validation accepts, with every row at least 1 | not executed | RowLayout.UnguardedShrinkNeverEnds | RowLayout.ComputeRowLayout |
