/**
 * `validateData` (app.js:18-98): a total map from a parsed JSON value to a
 * sanitised chart description or the first validation failure, checked in
 * the order type, parties, options, each party (name, colour, seats, side),
 * and finally the presence of both Westminster sides.
 */
module Validation {
  import opened ChartTypes

  datatype OptionKey = ShowLegend | ShowWestminsterHeaders | ShowMajorityLine

  /**
   * The exceptions `validateData` throws. Party errors record the party's
   * index; the message text names the index only for a bad name and the raw
   * (untrimmed) name otherwise, which the `name` fields keep. `PartyIsNull`
   * is the TypeError JavaScript raises when it reads `.name` of a null party.
   */
  datatype ValidationError =
    | NotAnObject
    | MissingType
    | MissingParties
    | OptionsNotAnObject
    | OptionNotBoolean(option: OptionKey)
    | PartyIsNull(index: nat)
    | InvalidName(index: nat)
    | InvalidColor(index: nat, name: string)
    | InvalidSeats(index: nat, name: string)
    | InvalidSide(index: nat, name: string)
    | MissingSide

  function KeyName(k: OptionKey): string {
    match k
    case ShowLegend => "showLegend"
    case ShowWestminsterHeaders => "showWestminsterHeaders"
    case ShowMajorityLine => "showMajorityLine"
  }

  // ---------------------------------------------------------------------------
  // String.prototype.trim

  /** The characters JavaScript's `trim` removes: WhiteSpace and LineTerminator. */
  predicate IsJsSpace(c: char) {
    c == '\t' || c == '\n' || c == '\U{000B}' || c == '\U{000C}' || c == '\r' || c == ' '
    || c == '\U{00A0}' || c == '\U{1680}' || ('\U{2000}' <= c <= '\U{200A}')
    || c == '\U{2028}' || c == '\U{2029}' || c == '\U{202F}' || c == '\U{205F}'
    || c == '\U{3000}' || c == '\U{FEFF}'
  }

  function TrimStart(s: string): string {
    if s != [] && IsJsSpace(s[0]) then TrimStart(s[1..]) else s
  }

  function TrimEnd(s: string): string {
    if s != [] && IsJsSpace(s[|s| - 1]) then TrimEnd(s[..|s| - 1]) else s
  }

  function Trim(s: string): string {
    TrimEnd(TrimStart(s))
  }

  /** True when `s` has a character that `trim` keeps. */
  predicate HasText(s: string) {
    exists i :: 0 <= i < |s| && !IsJsSpace(s[i])
  }

  /** `TrimStart` drops a prefix made only of white space and stops at text. */
  lemma {:induction false} TrimStartSpec(s: string)
    ensures var t := TrimStart(s);
      && |t| <= |s| && t == s[|s| - |t|..]
      && (forall i :: 0 <= i < |s| - |t| ==> IsJsSpace(s[i]))
      && (t != [] ==> !IsJsSpace(t[0]))
  {
    if s != [] && IsJsSpace(s[0]) {
      TrimStartSpec(s[1..]);
      var t := TrimStart(s[1..]);
      forall i | 0 <= i < |s| - |t| ensures IsJsSpace(s[i]) {
        if i > 0 { assert s[i] == s[1..][i - 1]; }
      }
    }
  }

  /** `TrimEnd` drops a suffix made only of white space and stops at text. */
  lemma {:induction false} TrimEndSpec(s: string)
    ensures var t := TrimEnd(s);
      && |t| <= |s| && t == s[..|t|]
      && (forall i :: |t| <= i < |s| ==> IsJsSpace(s[i]))
      && (t != [] ==> !IsJsSpace(t[|t| - 1]))
  {
    if s != [] && IsJsSpace(s[|s| - 1]) {
      TrimEndSpec(s[..|s| - 1]);
      var t := TrimEnd(s[..|s| - 1]);
      forall i | |t| <= i < |s| ensures IsJsSpace(s[i]) {
        if i < |s| - 1 { assert s[i] == s[..|s| - 1][i]; }
      }
    }
  }

  /**
   * `Trim(s)` is a contiguous part of `s` that starts and ends with text,
   * and what it removes on both sides is white space only.
   */
  lemma TrimSpec(s: string)
    ensures exists a, b ::
      && 0 <= a <= b <= |s| && Trim(s) == s[a..b]
      && (forall i :: 0 <= i < a ==> IsJsSpace(s[i]))
      && (forall i :: b <= i < |s| ==> IsJsSpace(s[i]))
    ensures Trim(s) != [] ==> !IsJsSpace(Trim(s)[0]) && !IsJsSpace(Trim(s)[|Trim(s)| - 1])
  {
    TrimStartSpec(s);
    var u := TrimStart(s);
    TrimEndSpec(u);
    var a := |s| - |u|;
    var b := a + |TrimEnd(u)|;
    assert Trim(s) == s[a..b];
    forall i | b <= i < |s| ensures IsJsSpace(s[i]) {
      assert s[i] == u[i - a];
    }
  }

  /** The trimmed string is empty exactly when the string is all white space. */
  lemma TrimEmptyIff(s: string)
    ensures Trim(s) != [] <==> HasText(s)
  {
    TrimStartSpec(s);
    var u := TrimStart(s);
    TrimEndSpec(u);
    if Trim(s) != [] {
      assert !IsJsSpace(s[|s| - |u|]);
    } else {
      assert u == [];
    }
  }

  // ---------------------------------------------------------------------------
  // The validator as the source writes it

  /** Reading `v[key]`: None stands for `undefined`. */
  function Prop(v: Json, key: string): Option<Json> {
    if v.JObject? && key in v.fields then Some(v.fields[key]) else None
  }

  function LayoutOf(data: Json): Option<LayoutType> {
    match Prop(data, "type")
    case Some(JString(t)) =>
      if t == "westminster" then Some(Westminster) else if t == "arch" then Some(Arch) else None
    case _ => None
  }

  /** One supplied option: absent keeps the default, a non-boolean throws. */
  function OptionFlag(given: map<string, Json>, key: OptionKey, default: bool): Result<bool, ValidationError> {
    if KeyName(key) !in given then Success(default)
    else if given[KeyName(key)].JBool? then Success(given[KeyName(key)].b)
    else Failure(OptionNotBoolean(key))
  }

  function ReadOptions(data: Json): Result<Options, ValidationError> {
    match Prop(data, "options")
    case None => Success(DefaultOptions)
    case Some(JObject(given)) =>
      var legend :- OptionFlag(given, ShowLegend, DefaultOptions.showLegend);
      var headers :- OptionFlag(given, ShowWestminsterHeaders, DefaultOptions.showWestminsterHeaders);
      var majority :- OptionFlag(given, ShowMajorityLine, DefaultOptions.showMajorityLine);
      Success(Options(legend, headers, majority))
    case Some(_) => Failure(OptionsNotAnObject)
  }

  predicate IsInteger(x: real) { x == x.Floor as real }

  /** A string property that `trim` leaves non-empty. */
  predicate TextProp(p: Json, key: string) {
    var v := Prop(p, key);
    v.Some? && v.value.JString? && Trim(v.value.s) != []
  }

  function SideOf(p: Json, layout: LayoutType, index: nat, name: string): Result<Option<Side>, ValidationError> {
    if layout == Arch then Success(None)
    else if Prop(p, "side") == Some(JString("government")) then Success(Some(Government))
    else if Prop(p, "side") == Some(JString("opposition")) then Success(Some(Opposition))
    else Failure(InvalidSide(index, name))
  }

  /** The body of the callback that `data.parties.map` runs on one party. */
  function SanitizeParty(p: Json, index: nat, layout: LayoutType): Result<Party, ValidationError> {
    if p.JNull? then Failure(PartyIsNull(index))
    else if !TextProp(p, "name") then Failure(InvalidName(index))
    else
      var name := Prop(p, "name").value.s;
      if !TextProp(p, "color") then Failure(InvalidColor(index, name))
      else
        var color := Prop(p, "color").value.s;
        var seats := Prop(p, "seats");
        if !(seats.Some? && seats.value.JNumber? && IsInteger(seats.value.n) && seats.value.n > 0.0) then
          Failure(InvalidSeats(index, name))
        else
          var side :- SideOf(p, layout, index, name);
          Success(Party(index, Trim(name), Trim(color), seats.value.n.Floor as nat, side))
  }

  /** `data.parties.map(...)` from index `from` on; the first throw wins. */
  function SanitizeParties(items: seq<Json>, layout: LayoutType, from: nat): Result<seq<Party>, ValidationError>
    requires from <= |items|
    decreases |items| - from
  {
    if from == |items| then Success([])
    else
      var party :- SanitizeParty(items[from], from, layout);
      var rest :- SanitizeParties(items, layout, from + 1);
      Success([party] + rest)
  }

  /** `parties.some((p) => p.side === side)`. */
  predicate HasSide(parties: seq<Party>, side: Side) {
    exists k :: 0 <= k < |parties| && parties[k].side == Some(side)
  }

  function PartiesOf(data: Json): Option<seq<Json>> {
    match Prop(data, "parties")
    case Some(JArray(items)) => if |items| > 0 then Some(items) else None
    case _ => None
  }

  function ValidateData(data: Json): Result<ChartSpec, ValidationError> {
    // `typeof [] === "object"`: an array passes this test and fails the next.
    if !(data.JObject? || data.JArray?) then Failure(NotAnObject)
    else if LayoutOf(data).None? then Failure(MissingType)
    else if PartiesOf(data).None? then Failure(MissingParties)
    else
      var layout := LayoutOf(data).value;
      var options :- ReadOptions(data);
      var parties :- SanitizeParties(PartiesOf(data).value, layout, 0);
      if layout == Westminster && !(HasSide(parties, Government) && HasSide(parties, Opposition)) then
        Failure(MissingSide)
      else
        Success(ChartSpec(layout, parties, options))
  }

  // ---------------------------------------------------------------------------
  // What an acceptable input is, stated field by field

  predicate NameOk(p: Json) {
    p.JObject? && "name" in p.fields && p.fields["name"].JString? && HasText(p.fields["name"].s)
  }

  predicate ColorOk(p: Json) {
    p.JObject? && "color" in p.fields && p.fields["color"].JString? && HasText(p.fields["color"].s)
  }

  predicate SeatsOk(p: Json) {
    p.JObject? && "seats" in p.fields && p.fields["seats"].JNumber?
    && p.fields["seats"].n > 0.0 && p.fields["seats"].n == p.fields["seats"].n.Floor as real
  }

  predicate SideOk(p: Json) {
    p.JObject? && "side" in p.fields
    && (p.fields["side"] == JString("government") || p.fields["side"] == JString("opposition"))
  }

  predicate PartyOk(p: Json, westminster: bool) {
    NameOk(p) && ColorOk(p) && SeatsOk(p) && (westminster ==> SideOk(p))
  }

  /** The input is an object with a known type and a non-empty parties array. */
  predicate ShapeOk(data: Json) {
    && data.JObject?
    && "type" in data.fields
    && (data.fields["type"] == JString("arch") || data.fields["type"] == JString("westminster"))
    && "parties" in data.fields
    && data.fields["parties"].JArray?
    && |data.fields["parties"].items| > 0
  }

  /** Options are absent, or an object whose recognised keys hold booleans. */
  predicate OptionsOk(data: Json) {
    data.JObject? ==>
      "options" in data.fields ==>
        && data.fields["options"].JObject?
        && forall k: OptionKey :: KeyName(k) in data.fields["options"].fields ==>
             data.fields["options"].fields[KeyName(k)].JBool?
  }

  /** The place of an option's check in the source: showLegend, then the headers, then the line. */
  function KeyRank(k: OptionKey): nat {
    match k
    case ShowLegend => 0
    case ShowWestminsterHeaders => 1
    case ShowMajorityLine => 2
  }

  /** Options is an object that supplies `k` with a value that is not a boolean. */
  predicate BadFlag(data: Json, k: OptionKey) {
    && data.JObject? && "options" in data.fields && data.fields["options"].JObject?
    && KeyName(k) in data.fields["options"].fields
    && !data.fields["options"].fields[KeyName(k)].JBool?
  }

  /** `k` is the first option, in source order, whose supplied value is not a boolean. */
  predicate FirstBadFlag(data: Json, k: OptionKey) {
    BadFlag(data, k) && forall j: OptionKey :: KeyRank(j) < KeyRank(k) ==> !BadFlag(data, j)
  }

  predicate IsWestminster(data: Json) {
    data.JObject? && "type" in data.fields && data.fields["type"] == JString("westminster")
  }

  function Items(data: Json): seq<Json>
    requires ShapeOk(data)
  {
    data.fields["parties"].items
  }

  predicate PartiesBeforeOk(data: Json, k: nat)
    requires ShapeOk(data)
  {
    k <= |Items(data)| && forall j :: 0 <= j < k ==> PartyOk(Items(data)[j], IsWestminster(data))
  }

  function SideName(side: Side): string {
    if side == Government then "government" else "opposition"
  }

  /** The input party names `side` as its side. */
  predicate ItemOnSide(item: Json, side: Side) {
    item.JObject? && "side" in item.fields && item.fields["side"] == JString(SideName(side))
  }

  predicate SomeItemOnSide(data: Json, side: Side)
    requires ShapeOk(data)
  {
    exists j :: 0 <= j < |Items(data)| && ItemOnSide(Items(data)[j], side)
  }

  predicate SidesPresent(data: Json)
    requires ShapeOk(data)
  {
    IsWestminster(data) ==> SomeItemOnSide(data, Government) && SomeItemOnSide(data, Opposition)
  }

  /** Everything `validateData` demands of its input. */
  predicate Acceptable(data: Json) {
    && ShapeOk(data)
    && OptionsOk(data)
    && PartiesBeforeOk(data, |Items(data)|)
    && SidesPresent(data)
  }

  /** The option value a successful validation yields for one key. */
  function ExpectedFlag(data: Json, key: OptionKey, default: bool): bool {
    if data.JObject? && "options" in data.fields && data.fields["options"].JObject?
       && KeyName(key) in data.fields["options"].fields
       && data.fields["options"].fields[KeyName(key)].JBool?
    then data.fields["options"].fields[KeyName(key)].b
    else default
  }

  /** The party a successful validation yields for item `index`. */
  predicate SanitizedFrom(party: Party, item: Json, index: nat, westminster: bool)
    requires NameOk(item) && ColorOk(item) && SeatsOk(item)
  {
    && party.id == index
    && party.name == Trim(item.fields["name"].s)
    && party.color == Trim(item.fields["color"].s)
    && party.seats as real == item.fields["seats"].n
    && party.seats > 0
    && (westminster ==>
          && SideOk(item)
          && party.side == Some(if item.fields["side"] == JString("government") then Government else Opposition))
    && (!westminster ==> party.side == None)
  }

  /** Every input party is acceptable and `parties` are their sanitised forms, in order. */
  predicate PartiesSanitized(parties: seq<Party>, items: seq<Json>, westminster: bool) {
    && |parties| == |items|
    && forall j :: 0 <= j < |items| ==>
         && NameOk(items[j]) && ColorOk(items[j]) && SeatsOk(items[j])
         && SanitizedFrom(parties[j], items[j], j, westminster)
  }

  // ---------------------------------------------------------------------------
  // Lemmas connecting the two

  lemma SanitizePartyCases(p: Json, index: nat, layout: LayoutType)
    ensures var r := SanitizeParty(p, index, layout);
      && (r.Success? <==> PartyOk(p, layout == Westminster))
      && (r.Success? ==> SanitizedFrom(r.value, p, index, layout == Westminster))
      && (r.Failure? ==> match r.error
            case PartyIsNull(k) => k == index && p.JNull?
            case InvalidName(k) => k == index && !p.JNull? && !NameOk(p)
            case InvalidColor(k, n) => k == index && NameOk(p) && n == p.fields["name"].s && !ColorOk(p)
            case InvalidSeats(k, n) => k == index && NameOk(p) && n == p.fields["name"].s && ColorOk(p) && !SeatsOk(p)
            case InvalidSide(k, n) =>
              k == index && layout == Westminster && NameOk(p) && n == p.fields["name"].s
              && ColorOk(p) && SeatsOk(p) && !SideOk(p)
            case _ => false)
  {
    if p.JObject? {
      if "name" in p.fields && p.fields["name"].JString? {
        TrimEmptyIff(p.fields["name"].s);
      }
      if "color" in p.fields && p.fields["color"].JString? {
        TrimEmptyIff(p.fields["color"].s);
      }
    }
  }

  /** Parties from `from` on are sanitised exactly when each is acceptable. */
  lemma {:induction false} SanitizePartiesSpec(items: seq<Json>, layout: LayoutType, from: nat)
    requires from <= |items|
    ensures var r := SanitizeParties(items, layout, from);
      && (r.Success? <==> forall j :: from <= j < |items| ==> PartyOk(items[j], layout == Westminster))
      && (r.Success? ==>
            && |r.value| == |items| - from
            && forall j :: from <= j < |items| ==> SanitizedFrom(r.value[j - from], items[j], j, layout == Westminster))
    decreases |items| - from
  {
    if from < |items| {
      var party := SanitizeParty(items[from], from, layout);
      var rest := SanitizeParties(items, layout, from + 1);
      SanitizePartyCases(items[from], from, layout);
      SanitizePartiesSpec(items, layout, from + 1);
      if party.Success? && rest.Success? {
        var r := SanitizeParties(items, layout, from);
        assert r.value == [party.value] + rest.value;
        forall j | from <= j < |items|
          ensures SanitizedFrom(r.value[j - from], items[j], j, layout == Westminster)
        {
          if j > from {
            assert r.value[j - from] == rest.value[j - (from + 1)];
          }
        }
      }
    }
  }

  /** The spec lemma's statement for `from == 0`, with the offset dropped from the index. */
  lemma DropOffset(parties: seq<Party>, items: seq<Json>, westminster: bool)
    requires |parties| == |items|
    requires forall j :: 0 <= j < |items| ==>
      PartyOk(items[j], westminster) && SanitizedFrom(parties[j - 0], items[j], j, westminster)
    ensures PartiesSanitized(parties, items, westminster)
  {
    forall j | 0 <= j < |items|
      ensures SanitizedFrom(parties[j], items[j], j, westminster)
    {
      assert parties[j] == parties[j - 0];
    }
  }

  /** A successful sanitisation of the whole list gives each item's sanitised form. */
  lemma SanitizedList(items: seq<Json>, layout: LayoutType)
    requires SanitizeParties(items, layout, 0).Success?
    ensures PartiesSanitized(SanitizeParties(items, layout, 0).value, items, layout == Westminster)
  {
    SanitizePartiesSpec(items, layout, 0);
    DropOffset(SanitizeParties(items, layout, 0).value, items, layout == Westminster);
  }

  /** A failure is the failure of the first party that is not acceptable. */
  lemma {:induction false} SanitizePartiesFailure(items: seq<Json>, layout: LayoutType, from: nat)
    requires from <= |items|
    requires SanitizeParties(items, layout, from).Failure?
    ensures exists k ::
      && from <= k < |items|
      && (forall j :: from <= j < k ==> PartyOk(items[j], layout == Westminster))
      && SanitizeParty(items[k], k, layout) == Failure(SanitizeParties(items, layout, from).error)
    decreases |items| - from
  {
    var e := SanitizeParties(items, layout, from).error;
    if SanitizeParty(items[from], from, layout).Failure? {
      assert SanitizeParty(items[from], from, layout) == Failure(e);
    } else {
      SanitizePartyCases(items[from], from, layout);
      SanitizePartiesFailure(items, layout, from + 1);
      var k :| from + 1 <= k < |items|
        && (forall j :: from + 1 <= j < k ==> PartyOk(items[j], layout == Westminster))
        && SanitizeParty(items[k], k, layout) == Failure(e);
      assert forall j :: from <= j < k ==> PartyOk(items[j], layout == Westminster);
    }
  }

  lemma ReadOptionsSpec(data: Json)
    requires data.JObject?
    ensures ReadOptions(data).Success? <==> OptionsOk(data)
    ensures ReadOptions(data).Success? ==> ReadOptions(data).value == Options(
      ExpectedFlag(data, ShowLegend, true),
      ExpectedFlag(data, ShowWestminsterHeaders, false),
      ExpectedFlag(data, ShowMajorityLine, false))
    ensures ReadOptions(data).Failure? ==>
      ReadOptions(data).error == OptionsNotAnObject || ReadOptions(data).error.OptionNotBoolean?
    ensures ReadOptions(data) == Failure(OptionsNotAnObject) <==>
      "options" in data.fields && !data.fields["options"].JObject?
    ensures forall k: OptionKey :: ReadOptions(data) == Failure(OptionNotBoolean(k)) <==> FirstBadFlag(data, k)
  {
    if "options" in data.fields && data.fields["options"].JObject? && !OptionsOk(data) {
      var k: OptionKey :| KeyName(k) in data.fields["options"].fields
        && !data.fields["options"].fields[KeyName(k)].JBool?;
      assert match k
        case ShowLegend => true
        case ShowWestminsterHeaders => true
        case ShowMajorityLine => true;
    }
    forall k: OptionKey
      ensures ReadOptions(data) == Failure(OptionNotBoolean(k)) <==> FirstBadFlag(data, k)
    {
      FirstBadFlagCases(data, k);
    }
  }

  /** FirstBadFlag spelled out over the keys that come before `k`. */
  lemma FirstBadFlagCases(data: Json, k: OptionKey)
    ensures FirstBadFlag(data, k) <==>
      && BadFlag(data, k)
      && (KeyRank(k) >= 1 ==> !BadFlag(data, ShowLegend))
      && (KeyRank(k) >= 2 ==> !BadFlag(data, ShowWestminsterHeaders))
  {
    forall j: OptionKey | KeyRank(j) < KeyRank(k)
      ensures (KeyRank(k) >= 1 && j == ShowLegend) || (KeyRank(k) >= 2 && j == ShowWestminsterHeaders)
    {
      match j
      case ShowLegend =>
      case ShowWestminsterHeaders =>
      case ShowMajorityLine =>
    }
  }

  lemma ShapeOkIff(data: Json)
    ensures ShapeOk(data) <==> (data.JObject? && LayoutOf(data).Some? && PartiesOf(data).Some?)
    ensures ShapeOk(data) ==>
      && PartiesOf(data).value == Items(data)
      && (LayoutOf(data).value == Westminster <==> IsWestminster(data))
  {
  }

  /** A sanitised Westminster party is on `side` exactly when its input names it. */
  lemma SanitizedSide(party: Party, item: Json, index: nat, side: Side)
    requires NameOk(item) && ColorOk(item) && SeatsOk(item)
    requires SanitizedFrom(party, item, index, true)
    ensures party.side == Some(side) <==> ItemOnSide(item, side)
  {
  }

  /** The sanitised list has a party on `side` exactly when the input names one. */
  lemma HasSideSpec(data: Json, parties: seq<Party>, side: Side)
    requires ShapeOk(data)
    requires PartiesSanitized(parties, Items(data), true)
    ensures HasSide(parties, side) <==> SomeItemOnSide(data, side)
  {
    var items := Items(data);
    if HasSide(parties, side) {
      var k :| 0 <= k < |parties| && parties[k].side == Some(side);
      SanitizedSide(parties[k], items[k], k, side);
    }
    if SomeItemOnSide(data, side) {
      var k :| 0 <= k < |items| && ItemOnSide(items[k], side);
      SanitizedSide(parties[k], items[k], k, side);
    }
  }

  lemma SidesSpec(data: Json, parties: seq<Party>)
    requires ShapeOk(data) && IsWestminster(data)
    requires PartiesSanitized(parties, Items(data), true)
    ensures (HasSide(parties, Government) && HasSide(parties, Opposition)) <==> SidesPresent(data)
  {
    HasSideSpec(data, parties, Government);
    HasSideSpec(data, parties, Opposition);
  }

  /** Validation succeeds exactly on the acceptable inputs. */
  lemma ValidateSucceedsIff(data: Json)
    ensures ValidateData(data).Success? <==> Acceptable(data)
  {
    ShapeOkIff(data);
    if ShapeOk(data) {
      ReadOptionsSpec(data);
      var w := LayoutOf(data).value;
      SanitizePartiesSpec(Items(data), w, 0);
      var r := SanitizeParties(Items(data), w, 0);
      if r.Success? && w == Westminster {
        SanitizedList(Items(data), w);
        SidesSpec(data, r.value);
      }
    }
  }

  /**
   * A successful validation keeps the type, gives the parties their input
   * index as id, trims names and colours, keeps the seat count, records the
   * side only for Westminster, and overrides each default option only with a
   * supplied boolean.
   */
  lemma ValidatedChart(data: Json)
    requires ValidateData(data).Success?
    ensures var spec := ValidateData(data).value;
      && ShapeOk(data)
      && (spec.layout == Westminster <==> IsWestminster(data))
      && PartiesSanitized(spec.parties, Items(data), IsWestminster(data))
      && spec.options == Options(
           ExpectedFlag(data, ShowLegend, true),
           ExpectedFlag(data, ShowWestminsterHeaders, false),
           ExpectedFlag(data, ShowMajorityLine, false))
      && AllSeatsPositive(spec.parties)
      && (spec.layout == Westminster ==> HasSide(spec.parties, Government) && HasSide(spec.parties, Opposition))
  {
    ShapeOkIff(data);
    var w := LayoutOf(data).value;
    var items := Items(data);
    ReadOptionsSpec(data);
    SanitizedList(items, w);
    var parties := SanitizeParties(items, w, 0).value;
    assert ValidateData(data).value == ChartSpec(w, parties, ReadOptions(data).value);
  }

  /**
   * A validated chart has at least one party and at least one seat per
   * party, so `partyMeta[0]` exists and the `percent` divisor is positive.
   */
  lemma ValidatedSeatTotal(data: Json)
    requires ValidateData(data).Success?
    ensures var parties := ValidateData(data).value.parties;
      |parties| >= 1 && TotalSeats(parties) >= |parties|
  {
    ValidatedChart(data);
    TotalSeatsAtLeastPartyCount(ValidateData(data).value.parties);
  }

  /** The first four checks: object, type, parties array, options. */
  lemma FirstFailureTopLevel(data: Json)
    requires ValidateData(data).Failure?
    ensures var e := ValidateData(data).error;
      && (e == NotAnObject <==> !data.JObject? && !data.JArray?)
      && (e == MissingType <==> (data.JObject? || data.JArray?) && LayoutOf(data).None?)
      && (e == MissingParties <==> (data.JObject? || data.JArray?) && LayoutOf(data).Some? && PartiesOf(data).None?)
      && ((e == OptionsNotAnObject || e.OptionNotBoolean?) <==> ShapeOk(data) && !OptionsOk(data))
  {
    ShapeOkIff(data);
    if ShapeOk(data) {
      ReadOptionsSpec(data);
      if ReadOptions(data).Success? {
        var r := SanitizeParties(Items(data), LayoutOf(data).value, 0);
        SanitizePartiesSpec(Items(data), LayoutOf(data).value, 0);
        if r.Failure? {
          SanitizePartiesFailure(Items(data), LayoutOf(data).value, 0);
          var k :| 0 <= k < |Items(data)| && SanitizeParty(Items(data)[k], k, LayoutOf(data).value) == Failure(r.error);
          SanitizePartyCases(Items(data)[k], k, LayoutOf(data).value);
        }
      }
    }
  }

  /** A party error names the first party, in index order, that is not acceptable. */
  lemma FirstFailureParty(data: Json)
    requires ValidateData(data).Failure?
    requires var e := ValidateData(data).error;
      e.PartyIsNull? || e.InvalidName? || e.InvalidColor? || e.InvalidSeats? || e.InvalidSide?
    ensures var e := ValidateData(data).error;
      && ShapeOk(data) && OptionsOk(data)
      && e.index < |Items(data)| && PartiesBeforeOk(data, e.index)
      && !PartyOk(Items(data)[e.index], IsWestminster(data))
      && SanitizeParty(Items(data)[e.index], e.index, LayoutOf(data).value) == Failure(e)
  {
    ShapeOkIff(data);
    ReadOptionsSpec(data);
    var w := LayoutOf(data).value;
    SanitizePartiesSpec(Items(data), w, 0);
    var r := SanitizeParties(Items(data), w, 0);
    SanitizePartiesFailure(Items(data), w, 0);
    var k :| 0 <= k < |Items(data)|
      && (forall j :: 0 <= j < k ==> PartyOk(Items(data)[j], w == Westminster))
      && SanitizeParty(Items(data)[k], k, w) == Failure(r.error);
    SanitizePartyCases(Items(data)[k], k, w);
  }

  /** The sides error comes only after every other check has passed. */
  lemma FirstFailureSides(data: Json)
    requires ValidateData(data) == Failure(MissingSide)
    ensures ShapeOk(data) && OptionsOk(data) && PartiesBeforeOk(data, |Items(data)|)
    ensures IsWestminster(data) && !SidesPresent(data)
  {
    ShapeOkIff(data);
    ReadOptionsSpec(data);
    var w := LayoutOf(data).value;
    var r := SanitizeParties(Items(data), w, 0);
    if r.Failure? {
      SanitizePartiesFailure(Items(data), w, 0);
      var k :| 0 <= k < |Items(data)| && SanitizeParty(Items(data)[k], k, w) == Failure(r.error);
      SanitizePartyCases(Items(data)[k], k, w);
      assert false;
    }
    SanitizePartiesSpec(Items(data), w, 0);
    assert w == Westminster;
    SanitizedList(Items(data), w);
    SidesSpec(data, r.value);
  }
}
