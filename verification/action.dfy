/**
 * The NLU-to-action bridge: the slot normalisers, the channel restriction
 * on receipt types (FIS_TURU), the channel bucketing of the distribution
 * report, the six report queries as structured filters over the
 * YC_SATIS_DETAY_TUMU view, and the outcome of dispatching an intent.
 */
module Action {

  import opened Wrappers
  import opened Text
  import Sales

  // ---------------------------------------------------------------------
  // Slot normalisation
  // ---------------------------------------------------------------------

  /**
   * `slots?.<lower> || slots?.<upper>` followed by `(v || '')`: the first of
   * the two keys holding a non-empty string, else the empty string.
   */
  function SlotValue(slots: map<string, string>, lower: string, upper: string): (v: string)
    ensures lower in slots && slots[lower] != "" ==> v == slots[lower]
    ensures (lower !in slots || slots[lower] == "") ==> v == (if upper in slots then slots[upper] else "")
  {
    if lower in slots && slots[lower] != "" then slots[lower]
    else if upper in slots then slots[upper]
    else ""
  }

  /**
   * `normYil`: the first `20\d{2}` in the slot text, else the newest year
   * '2025'. It never fails, and a 19xx year is not recognised.
   */
  function NormYil(y: string): (r: string)
    ensures |r| == 4 && r[..2] == "20" && AllDigits(r)
    ensures (forall j :: !YearAt(y, {"20"}, j)) ==> r == "2025"
    ensures (exists j :: YearAt(y, {"20"}, j)) ==>
      exists i :: YearAt(y, {"20"}, i) && NoYearBefore(y, {"20"}, i) && r == y[i..i + 4]
  {
    match FirstYear(y, {"20"})
    case None => "2025"
    case Some(m) =>
      var i :| YearAt(y, {"20"}, i) && NoYearBefore(y, {"20"}, i) && m == y[i..i + 4];
      assert m[..2] == y[i..i + 2];
      assert forall k :: 0 <= k < 4 ==> m[k] == y[i + k];
      m
  }

  /** A normalised year normalises to itself. */
  lemma NormYilIdempotent(y: string)
    ensures NormYil(NormYil(y)) == NormYil(y)
  {
    var r := NormYil(y);
    assert YearAt(r, {"20"}, 0) by {
      assert r[0..2] == r[..2];
    }
    assert NoYearBefore(r, {"20"}, 0);
    var s := NormYil(r);
    var i :| YearAt(r, {"20"}, i) && NoYearBefore(r, {"20"}, i) && s == r[i..i + 4];
    assert i == 0;
  }

  /** A twentieth-century year is not a year to `normYil`: "1999" becomes '2025'. */
  lemma NormYilIgnoresNineteenHundreds()
    ensures NormYil("1999") == "2025"
  {
    forall j ensures !YearAt("1999", {"20"}, j) {
      if 0 <= j && j + 4 <= 4 {
        assert j == 0;
        assert "1999"[0..2] == "19";
      }
    }
  }

  /**
   * `normKanal`: the lower-cased slot text mentions "toptan" (wholesale) or
   * "online"; anything else, including nothing, is the market channel.
   */
  function NormKanal(k: string): (r: string)
    ensures r == "toptan" || r == "online" || r == "market"
    ensures r == "toptan" <==> Contains(Lower(k), "toptan")
    ensures r == "online" <==> !Contains(Lower(k), "toptan") && Contains(Lower(k), "online")
  {
    var v := Lower(k);
    if Contains(v, "toptan") then "toptan"
    else if Contains(v, "online") then "online"
    else "market"
  }

  /** A string of ASCII lower-case letters (which `toLowerCase` leaves alone). */
  predicate IsLowerAscii(s: string) {
    forall i :: 0 <= i < |s| ==> 'a' <= s[i] <= 'z'
  }

  lemma {:induction false} LowerFixesLowerAscii(s: string)
    requires IsLowerAscii(s)
    ensures Lower(s) == s
  {
    if s != [] {
      assert IsLowerAscii(s[1..]);
      LowerFixesLowerAscii(s[1..]);
      assert s == [s[0]] + s[1..];
    }
  }

  /** Two different words of the same length never occur in one another. */
  lemma SameLengthContains(s: string, t: string)
    requires |s| == |t|
    ensures Contains(s, t) <==> s == t
  {
    if Contains(s, t) {
      var i :| OccursAt(s, t, i);
      assert i == 0;
      assert s[0..|t|] == s;
    } else {
      assert !OccursAt(s, t, 0);
      assert s[0..|t|] == s;
    }
  }

  /** A normalised channel normalises to itself. */
  lemma NormKanalIdempotent(k: string)
    ensures NormKanal(NormKanal(k)) == NormKanal(k)
  {
    var r := NormKanal(k);
    LowerFixesLowerAscii(r);
    SameLengthContains(r, "toptan");
    SameLengthContains(r, "online");
  }

  /** The product groups an action query may filter on. */
  const ProductGroups: seq<string> := ["WHISKY", "VODKA", "GIN", "RAKI", "LIKOR"]

  /**
   * `normUrun`: an upper-cased slot already in the allow-list is kept;
   * otherwise the first matching fragment, in the order VISKI/WHIS, VOD,
   * GIN, RAK, LIK, picks the group; otherwise None (all groups).
   */
  function NormUrun(u: string): (r: Option<string>)
    ensures r.None? || r.value in ProductGroups
    ensures Upper(u) in ProductGroups ==> r == Some(Upper(u))
    ensures r.None? <==>
      Upper(u) !in ProductGroups && !Contains(Upper(u), "VISKI") && !Contains(Upper(u), "WHIS")
      && !Contains(Upper(u), "VOD") && !Contains(Upper(u), "GIN") && !Contains(Upper(u), "RAK")
      && !Contains(Upper(u), "LIK")
    ensures var m := Upper(u);
      && (m !in ProductGroups && (Contains(m, "VISKI") || Contains(m, "WHIS")) ==> r == Some("WHISKY"))
      && ((m !in ProductGroups && !Contains(m, "VISKI") && !Contains(m, "WHIS") && Contains(m, "VOD"))
          ==> r == Some("VODKA"))
      && ((m !in ProductGroups && !Contains(m, "VISKI") && !Contains(m, "WHIS") && !Contains(m, "VOD")
           && Contains(m, "GIN"))
          ==> r == Some("GIN"))
      && ((m !in ProductGroups && !Contains(m, "VISKI") && !Contains(m, "WHIS") && !Contains(m, "VOD")
           && !Contains(m, "GIN") && Contains(m, "RAK"))
          ==> r == Some("RAKI"))
      && ((m !in ProductGroups && !Contains(m, "VISKI") && !Contains(m, "WHIS") && !Contains(m, "VOD")
           && !Contains(m, "GIN") && !Contains(m, "RAK") && Contains(m, "LIK"))
          ==> r == Some("LIKOR"))
  {
    var m := Upper(u);
    if m in ProductGroups then Some(m)
    else if Contains(m, "VISKI") || Contains(m, "WHIS") then Some("WHISKY")
    else if Contains(m, "VOD") then Some("VODKA")
    else if Contains(m, "GIN") then Some("GIN")
    else if Contains(m, "RAK") then Some("RAKI")
    else if Contains(m, "LIK") then Some("LIKOR")
    else None
  }

  predicate IsUpperAscii(s: string) {
    forall i :: 0 <= i < |s| ==> 'A' <= s[i] <= 'Z'
  }

  lemma UpperFixesUpperAscii(s: string)
    requires IsUpperAscii(s)
    ensures Upper(s) == s
  {
  }

  /** Normalising a recognised product group again returns it unchanged. */
  lemma NormUrunIdempotent(u: string)
    ensures NormUrun(u).Some? ==> NormUrun(NormUrun(u).value) == NormUrun(u)
  {
    if NormUrun(u).Some? {
      var g := NormUrun(u).value;
      assert IsUpperAscii(g);
      UpperFixesUpperAscii(g);
    }
  }

  // ---------------------------------------------------------------------
  // Channels and receipt types
  // ---------------------------------------------------------------------

  /** The restriction a channel puts on a row of the view. */
  datatype FisRestriction =
    | FisIn(types: set<int>)   // FIS_TURU IN (...)
    | OnlineOnly               // KANAL = 'ONLINE'
    | Unrestricted

  const WholesaleTypes: set<int> := {21, 23}
  const MarketTypes: set<int> := {101, 102}

  /** `kanalFisClause`. */
  function ChannelRestriction(kanal: string): (c: FisRestriction)
    ensures kanal == "toptan" ==> c == FisIn(WholesaleTypes)
    ensures kanal == "market" ==> c == FisIn(MarketTypes)
    ensures kanal == "online" ==> c == OnlineOnly
    ensures c == Unrestricted <==> kanal !in {"toptan", "market", "online"}
  {
    if kanal == "toptan" then FisIn(WholesaleTypes)
    else if kanal == "market" then FisIn(MarketTypes)
    else if kanal == "online" then OnlineOnly
    else Unrestricted
  }

  /** Whatever the slot says, the normalised channel always restricts the rows. */
  lemma NormalisedChannelRestricts(k: string)
    ensures ChannelRestriction(NormKanal(k)) != Unrestricted
  {
  }

  /** One line of YC_SATIS_DETAY_TUMU as the action queries read it. */
  datatype ActionRow = ActionRow(
    year: Option<int>,             // YIL
    month: Option<int>,            // AY
    productGroup: Option<string>,  // URUN_GRUBU
    receiptType: Option<int>,      // FIS_TURU
    channel: Option<string>,       // KANAL
    name: Option<string>,          // STOK_ADI
    liters: Option<real>,          // SATIS_MIKTAR_LITRE
    amount: Option<real>)          // TUTAR

  /** A row passes the channel condition (a NULL FIS_TURU or KANAL never does). */
  predicate Passes(c: FisRestriction, r: ActionRow) {
    match c
    case FisIn(types) => r.receiptType.Some? && r.receiptType.value in types
    case OnlineOnly => r.channel == Some("ONLINE")
    case Unrestricted => true
  }

  /** The `CASE` of `qKanalDagilimi`: total, with NULL and unknown types as 'diger'. */
  function ChannelBucket(fis: Option<int>): (b: string)
    ensures b in {"toptan", "market", "diger"}
    ensures b == "diger" <==> fis.None? || (fis.value !in WholesaleTypes && fis.value !in MarketTypes)
  {
    if fis.Some? && fis.value in WholesaleTypes then "toptan"
    else if fis.Some? && fis.value in MarketTypes then "market"
    else "diger"
  }

  /** The bucketing and the channel restriction agree on the wholesale and market rows. */
  lemma BucketMatchesRestriction(k: string, r: ActionRow)
    requires k == "toptan" || k == "market"
    ensures Passes(ChannelRestriction(k), r) <==> ChannelBucket(r.receiptType) == k
  {
  }

  // ---------------------------------------------------------------------
  // The report queries
  // ---------------------------------------------------------------------

  datatype Measure = Liters | Amount
  datatype YearFilter = YearIs(year: int) | YearIn(years: set<int>)
  datatype Grouping = Overall | ByMonth | ByChannelBucket | ByYear | TopProducts(limit: nat)

  /** One report query: `SELECT <grouping>, SUM(<measure>) ... WHERE <filters>`. */
  datatype Query = Query(
    measure: Measure,
    years: YearFilter,
    productGroup: Option<string>,   // `AND URUN_GRUBU = @ug`, only when a group was named
    channel: FisRestriction,
    grouping: Grouping)

  predicate Selects(q: Query, r: ActionRow) {
    && (match q.years
        case YearIs(y) => r.year == Some(y)
        case YearIn(ys) => r.year.Some? && r.year.value in ys)
    && (q.productGroup.Some? ==> r.productGroup == q.productGroup)
    && Passes(q.channel, r)
  }

  function MeasureOf(m: Measure, r: ActionRow): Option<real> {
    match m
    case Liters => r.liters
    case Amount => r.amount
  }

  /** `SUM(<measure>)` over the rows the query selects (NULL when nothing is summed). */
  function Total(q: Query, rows: seq<ActionRow>): (s: Option<real>)
    ensures s.None? <==> forall i :: 0 <= i < |rows| && Selects(q, rows[i]) ==> MeasureOf(q.measure, rows[i]).None?
  {
    if rows == [] then None
    else Sales.SqlAdd(if Selects(q, rows[0]) then MeasureOf(q.measure, rows[0]) else None, Total(q, rows[1..]))
  }

  /** `SUM(<measure>)` over the selected rows that fall into channel bucket `b`. */
  function BucketTotal(q: Query, rows: seq<ActionRow>, b: string): Option<real> {
    if rows == [] then None
    else
      var keep := Selects(q, rows[0]) && ChannelBucket(rows[0].receiptType) == b;
      Sales.SqlAdd(if keep then MeasureOf(q.measure, rows[0]) else None, BucketTotal(q, rows[1..], b))
  }

  /**
   * The wholesale or market line of the channel distribution equals the
   * total of the same year and product group restricted to that channel.
   */
  lemma {:induction false} DistributionAgreesWithChannelTotal(q: Query, rows: seq<ActionRow>, k: string)
    requires q.channel == Unrestricted
    requires k == "toptan" || k == "market"
    ensures BucketTotal(q, rows, k) == Total(q.(channel := ChannelRestriction(k)), rows)
  {
    if rows != [] {
      BucketMatchesRestriction(k, rows[0]);
      DistributionAgreesWithChannelTotal(q, rows[1..], k);
    }
  }

  /** The year filter of a query: `YIL = @yil` with `Number(yil)`. */
  function YearFilterOf(yil: string): (f: YearFilter)
    requires AllDigits(yil)
    ensures f == YearIs(DecimalValue(yil))
  {
    YearIs(DecimalValue(yil))
  }

  /** The year a query filters on after `normYil` is a year of this century, 2000 to 2099. */
  lemma NormalisedYearIsThisCentury(y: string)
    ensures 2000 <= DecimalValue(NormYil(y)) <= 2099
  {
    var r := NormYil(y);
    var r3, r2, r1 := r[..3], r[..2], r[..1];
    assert r3[..2] == r2 && r2[..1] == r1 && r1[..0] == [];
    assert r1 == ['2'] && r2[1] == '0';
    assert DecimalValue(r1) == 2;
    assert DecimalValue(r2) == 20;
    assert 200 <= DecimalValue(r3) <= 209;
  }

  // ---------------------------------------------------------------------
  // Dispatch
  // ---------------------------------------------------------------------

  const IntentLiters := "rapor.satis_hacmi_litre"
  const IntentRevenue := "rapor.satis_tutar_ciro"
  const IntentMonthly := "rapor.aylik_kirilim_litre"
  const IntentChannels := "rapor.kanal_dagilimi_litre"
  const IntentYears := "rapor.karsilastir_yil_litre"
  const IntentTop := "rapor.top_urun_litre"
  const IntentHelp := "yardim.ne_yapabilir"

  const ReportIntents: set<string> :=
    {IntentLiters, IntentRevenue, IntentMonthly, IntentChannels, IntentYears, IntentTop}

  /** The example commands the help intent lists. */
  const HelpCommands: seq<string> := [
    "2024 market rakı litre",
    "2025 toptan viski ciro",
    "2024 vodka market aylık litre",
    "2024 rakı için kanal dağılımı litre",
    "market viski 2024 ve 2025 litre karşılaştır",
    "2024 markette en çok satılan viski ürünleri litre"]

  /** What the action endpoint answers (the query result itself is left to the database). */
  datatype Outcome =
    | Failure(status: int, error: string)
    | Report(intent: string, yil: Option<string>, kanal: Option<string>, urun: string, query: Query)
    | Help(intent: string, commands: seq<string>)
  {
    predicate Ok() { !Failure? }
  }

  /** The product label of a report: the group, or 'TÜM' (all) when none was named. */
  function UrunLabel(g: Option<string>): string {
    match g
    case Some(v) => v
    case None => "TÜM"
  }

  /** The query each report intent runs, given the normalised slots. */
  function ReportQuery(intent: string, yil: string, kanal: string, urun: Option<string>): (q: Query)
    requires intent in ReportIntents && AllDigits(yil)
    ensures q.productGroup == urun
    ensures intent == IntentYears <==> q.years == YearIn({2024, 2025})
    ensures intent == IntentChannels <==> q.grouping == ByChannelBucket
    ensures q.channel == (if intent == IntentChannels then Unrestricted else ChannelRestriction(kanal))
    ensures q.measure == Amount <==> intent == IntentRevenue
    ensures intent != IntentYears ==> q.years == YearIs(DecimalValue(yil))
    ensures q.grouping == Overall <==> intent == IntentLiters || intent == IntentRevenue
    ensures q.grouping == ByMonth <==> intent == IntentMonthly
    ensures q.grouping == ByYear <==> intent == IntentYears
    ensures q.grouping == TopProducts(5) <==> intent == IntentTop
  {
    var year := YearFilterOf(yil);
    var channel := ChannelRestriction(kanal);
    if intent == IntentLiters then Query(Liters, year, urun, channel, Overall)
    else if intent == IntentRevenue then Query(Amount, year, urun, channel, Overall)
    else if intent == IntentMonthly then Query(Liters, year, urun, channel, ByMonth)
    else if intent == IntentChannels then Query(Liters, year, urun, Unrestricted, ByChannelBucket)
    else if intent == IntentYears then Query(Liters, YearIn({2024, 2025}), urun, channel, ByYear)
    else Query(Liters, year, urun, channel, TopProducts(5))
  }

  /**
   * The POST handler of the action route: `intent` is None when the body
   * has none, and `slots` holds the string-valued slots.
   */
  function Dispatch(intent: Option<string>, slots: map<string, string>): (o: Outcome)
    ensures (intent.None? || intent.value == "") ==> o == Failure(400, "intent gerekli")
    ensures o.Ok() <==> intent.Some? && (intent.value in ReportIntents || intent.value == IntentHelp)
    ensures intent.Some? && intent.value != "" && intent.value !in ReportIntents && intent.value != IntentHelp ==>
      o == Failure(400, "Bilinmeyen intent: " + intent.value)
    ensures intent == Some(IntentHelp) ==> o == Help(IntentHelp, HelpCommands)
    ensures o.Report? ==>
      var yil := NormYil(SlotValue(slots, "yil", "YIL"));
      var kanal := NormKanal(SlotValue(slots, "kanal", "KANAL"));
      var urun := NormUrun(SlotValue(slots, "urun", "URUN"));
      && o.intent == intent.value
      && o.urun == UrunLabel(urun)
      && o.yil == (if o.intent == IntentYears then None else Some(yil))
      && o.kanal == (if o.intent == IntentChannels then None else Some(kanal))
      && o.query == ReportQuery(o.intent, yil, kanal, urun)
  {
    if intent.None? || intent.value == "" then Failure(400, "intent gerekli")
    else
      var yil := NormYil(SlotValue(slots, "yil", "YIL"));
      var kanal := NormKanal(SlotValue(slots, "kanal", "KANAL"));
      var urun := NormUrun(SlotValue(slots, "urun", "URUN"));
      var i := intent.value;
      if i in ReportIntents then
        Report(i,
               if i == IntentYears then None else Some(yil),
               if i == IntentChannels then None else Some(kanal),
               UrunLabel(urun),
               ReportQuery(i, yil, kanal, urun))
      else if i == IntentHelp then Help(i, HelpCommands)
      else Failure(400, "Bilinmeyen intent: " + i)
  }

  /** A report's product label is a product group or 'TÜM', never anything else. */
  lemma ReportLabelIsGroupOrAll(intent: Option<string>, slots: map<string, string>)
    ensures var o := Dispatch(intent, slots);
      o.Report? ==> o.urun in ProductGroups || o.urun == "TÜM"
  {
  }

}
