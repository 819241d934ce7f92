/**
 * The dynamic query builder of the NLU search: a fold over the recognised
 * entities that threads a parameter counter, appends WHERE clauses that
 * mention only placeholders `@p1`, `@p2`, ... and binds each entity value
 * to its placeholder, plus the date-range helper it uses.
 */
module DynamicQuery {

  import opened Wrappers
  import opened Text
  import opened Calendar

  /** A recognised entity: its kind (`entity`) and the value it stands for (`option`). */
  datatype Entity = Entity(kind: string, option: string)

  /** A bound parameter value with its SQL type. */
  datatype ParamValue =
    | VarCharValue(text: string)
    | IntValue(number: int)
    | DateValue(date: Date)

  /**
   * A WHERE clause, holding only the numbers of the placeholders it uses;
   * the values live in the params map.
   */
  datatype Clause =
    | RegionIs(p: nat)                     // BOLGE = @p
    | ReceiptTypeIn(ps: seq<nat>)          // FIS_TURU IN (@p, ...)
    | DateBetween(from: nat, to: nat)      // TARIH BETWEEN @p AND @q

  /** What the builder returns: the SQL text and the parameters to bind. */
  datatype BuiltQuery = BuiltQuery(text: string, params: map<string, ParamValue>)

  const BaseQuery := "SELECT TOP 1000 * FROM Satislar"
  const OrderSuffix := " ORDER BY TARIH DESC"

  /** The name of placeholder number `k`: "p" followed by `k` in decimal. */
  function ParamName(k: nat): (n: string)
    ensures |n| >= 2 && n[0] == 'p' && n[1..] == NatToString(k)
  {
    "p" + NatToString(k)
  }

  /** Placeholders of different numbers have different names. */
  lemma ParamNamesDistinct(j: nat, k: nat)
    requires ParamName(j) == ParamName(k)
    ensures j == k
  {
    assert NatToString(j) == ParamName(j)[1..];
    NatToStringInjective(j, k);
  }

  // ---------------------------------------------------------------------
  // getDateRangeFromEntity
  // ---------------------------------------------------------------------

  /**
   * The range a time entity stands for: this month, last month or this
   * year, as calendar dates relative to `now`; None for any other value.
   */
  function DateRangeFromEntity(option: string, now: Date): (r: Option<DateRange>)
    requires ValidDate(now)
    ensures option == "bu_ay" ==> r == Some(WholeMonth(now.year, now.month))
    ensures option == "geçen_ay" ==>
      r == Some(WholeMonth(PreviousMonth(now.year, now.month).0, PreviousMonth(now.year, now.month).1))
    ensures option == "bu_yıl" ==> r == Some(DateRange(Date(now.year, 1, 1), Date(now.year, 12, 31)))
    ensures r.None? <==> option !in {"bu_ay", "geçen_ay", "bu_yıl"}
  {
    if option == "bu_ay" then Some(ThisMonth(now))
    else if option == "geçen_ay" then Some(LastMonth(now))
    else if option == "bu_yıl" then Some(ThisYear(now))
    else None
  }

  // ---------------------------------------------------------------------
  // Channel to receipt types
  // ---------------------------------------------------------------------

  /** The option of the first 'islem_tipi' entity of the whole list, else 'satis'. */
  function TransactionType(all: seq<Entity>): (t: string)
    ensures (forall i :: 0 <= i < |all| ==> all[i].kind != "islem_tipi") ==> t == "satis"
    ensures (exists i :: 0 <= i < |all| && all[i].kind == "islem_tipi") ==>
      exists i :: 0 <= i < |all| && all[i].kind == "islem_tipi" && t == all[i].option
        && forall j :: 0 <= j < i ==> all[j].kind != "islem_tipi"
  {
    if all == [] then "satis"
    else if all[0].kind == "islem_tipi" then all[0].option
    else
      var t := TransactionType(all[1..]);
      assert forall i :: 1 <= i < |all| ==> all[i] == all[1..][i - 1];
      t
  }

  /** The receipt types of a sales channel: a sale or a return in the market or wholesale channel. */
  function ReceiptTypes(channel: string, transaction: string): (codes: seq<int>)
    ensures channel == "market" ==> codes == (if transaction == "satis" then [101] else [102])
    ensures channel == "toptan" ==> codes == (if transaction == "satis" then [21] else [23])
    ensures codes == [] <==> channel != "market" && channel != "toptan"
  {
    if channel == "market" then (if transaction == "satis" then [101] else [102])
    else if channel == "toptan" then (if transaction == "satis" then [21] else [23])
    else []
  }

  // ---------------------------------------------------------------------
  // The fold
  // ---------------------------------------------------------------------

  /** The builder's state: clauses so far, bound parameters, next placeholder number. */
  datatype BuildState = BuildState(clauses: seq<Clause>, params: map<string, ParamValue>, counter: nat)

  const Initial := BuildState([], map[], 1)

  /** The numbers `lo, lo + 1, ..., hi - 1`. */
  function Span(lo: nat, hi: nat): (s: seq<nat>)
    requires lo <= hi
    ensures |s| == hi - lo && forall i :: 0 <= i < |s| ==> s[i] == lo + i
  {
    seq(hi - lo, i requires 0 <= i < hi - lo => lo + i)
  }

  function ClauseNumbers(c: Clause): seq<nat> {
    match c
    case RegionIs(p) => [p]
    case ReceiptTypeIn(ps) => ps
    case DateBetween(a, b) => [a, b]
  }

  /** Every placeholder number the clauses use, in order of appearance. */
  function PlaceholderNumbers(cs: seq<Clause>): seq<nat> {
    if cs == [] then [] else PlaceholderNumbers(cs[..|cs| - 1]) + ClauseNumbers(cs[|cs| - 1])
  }

  /** The names of placeholders `1 .. counter - 1`. */
  function NamesBelow(counter: nat): set<string> {
    set k | 1 <= k < counter :: ParamName(k)
  }

  /**
   * The builder's invariant: the clauses use the numbers 1, 2, ...,
   * counter - 1 once each in order, and exactly their names are bound.
   */
  predicate Consecutive(st: BuildState) {
    && st.counter >= 1
    && PlaceholderNumbers(st.clauses) == Span(1, st.counter)
    && st.params.Keys == NamesBelow(st.counter)
  }

  /** The names of the `n` placeholders numbered from `counter` on. */
  function Fresh(counter: nat, n: nat): set<string> {
    set k | counter <= k < counter + n :: ParamName(k)
  }

  /** Bind `values` to consecutive fresh placeholders, starting at the counter. */
  function BindFrom(params: map<string, ParamValue>, counter: nat, values: seq<ParamValue>)
    : (r: map<string, ParamValue>)
    ensures r.Keys == params.Keys + Fresh(counter, |values|)
    decreases |values|
  {
    if values == [] then
      assert Fresh(counter, 0) == {};
      params
    else
      FreshSplit(counter, |values|);
      BindFrom(params[ParamName(counter) := values[0]], counter + 1, values[1..])
  }

  lemma FreshSplit(c: nat, n: nat)
    requires n >= 1
    ensures Fresh(c, n) == {ParamName(c)} + Fresh(c + 1, n - 1)
    ensures ParamName(c) !in Fresh(c + 1, n - 1)
  {
    if ParamName(c) in Fresh(c + 1, n - 1) {
      var k :| c + 1 <= k < c + n && ParamName(k) == ParamName(c);
      ParamNamesDistinct(k, c);
    }
  }

  /** Binding fresh placeholders leaves every other parameter alone. */
  lemma {:induction false} BindFromKeeps(params: map<string, ParamValue>, counter: nat, values: seq<ParamValue>, n: string)
    requires n in params && n !in Fresh(counter, |values|)
    ensures BindFrom(params, counter, values)[n] == params[n]
    decreases |values|
  {
    if values != [] {
      FreshSplit(counter, |values|);
      BindFromKeeps(params[ParamName(counter) := values[0]], counter + 1, values[1..], n);
    }
  }

  /** Binding a non-empty list binds its head, then the rest from the next number. */
  lemma BindFromStep(params: map<string, ParamValue>, counter: nat, values: seq<ParamValue>, p': map<string, ParamValue>)
    requires values != [] && p' == params[ParamName(counter) := values[0]]
    ensures BindFrom(params, counter, values) == BindFrom(p', counter + 1, values[1..])
  {
  }

  /** The first value is bound to placeholder number `counter`. */
  lemma BindFromBindsFirst(params: map<string, ParamValue>, counter: nat, values: seq<ParamValue>)
    requires values != []
    ensures BindFrom(params, counter, values)[ParamName(counter)] == values[0]
  {
    FreshSplit(counter, |values|);
    BindFromKeeps(params[ParamName(counter) := values[0]], counter + 1, values[1..], ParamName(counter));
  }

  /** The `i`-th value is bound to placeholder number `counter + i`. */
  lemma {:induction false} BindFromBinds(params: map<string, ParamValue>, counter: nat, values: seq<ParamValue>, i: nat)
    requires i < |values|
    ensures BindFrom(params, counter, values)[ParamName(counter + i)] == values[i]
    decreases |values|
  {
    if i == 0 {
      BindFromBindsFirst(params, counter, values);
    } else {
      var p' := params[ParamName(counter) := values[0]];
      BindFromStep(params, counter, values, p');
      BindFromBinds(p', counter + 1, values[1..], i - 1);
    }
  }

  /** The clause an entity adds and the values it binds, given the next free number `c`. */
  function EntityClause(all: seq<Entity>, e: Entity, c: nat, now: Date): (r: Option<(Clause, seq<ParamValue>)>)
    requires ValidDate(now)
    ensures r.Some? ==> ClauseNumbers(r.value.0) == Span(c, c + |r.value.1|)
    ensures e.kind == "bolge" ==> r == Some((RegionIs(c), [VarCharValue(e.option)]))
    ensures r.None? <==>
      || (e.kind != "bolge" && e.kind != "satis_kanali" && e.kind != "zaman_araligi")
      || (e.kind == "satis_kanali" && e.option != "market" && e.option != "toptan")
      || (e.kind == "zaman_araligi" && DateRangeFromEntity(e.option, now).None?)
    ensures e.kind == "satis_kanali" && r.Some? ==>
      var codes := ReceiptTypes(e.option, TransactionType(all));
      && r.value.0 == ReceiptTypeIn(Span(c, c + |codes|))
      && |r.value.1| == |codes|
      && forall i :: 0 <= i < |codes| ==> r.value.1[i] == IntValue(codes[i])
    ensures e.kind == "zaman_araligi" && r.Some? ==>
      var range := DateRangeFromEntity(e.option, now).value;
      r.value == (DateBetween(c, c + 1), [DateValue(range.start), DateValue(range.end)])
  {
    if e.kind == "bolge" then Some((RegionIs(c), [VarCharValue(e.option)]))
    else if e.kind == "satis_kanali" then
      var codes := ReceiptTypes(e.option, TransactionType(all));
      if codes == [] then None
      else Some((ReceiptTypeIn(Span(c, c + |codes|)), ChannelValues(codes)))
    else if e.kind == "zaman_araligi" then
      match DateRangeFromEntity(e.option, now)
      case Some(range) => Some((DateBetween(c, c + 1), [DateValue(range.start), DateValue(range.end)]))
      case None => None
    else None
  }

  /** The receipt-type codes as integer parameter values, in order. */
  function ChannelValues(codes: seq<int>): (vs: seq<ParamValue>)
    ensures |vs| == |codes| && forall i :: 0 <= i < |codes| ==> vs[i] == IntValue(codes[i])
  {
    seq(|codes|, i requires 0 <= i < |codes| => IntValue(codes[i]))
  }

  /** One iteration of the loop over the entities. */
  function Step(all: seq<Entity>, e: Entity, st: BuildState, now: Date): (r: BuildState)
    requires ValidDate(now)
  {
    match EntityClause(all, e, st.counter, now)
    case None => st
    case Some((clause, values)) =>
      BuildState(st.clauses + [clause], BindFrom(st.params, st.counter, values), st.counter + |values|)
  }

  /** A region entity adds `BOLGE = @pk` for the next number k and binds its value to pk. */
  lemma RegionEntityBindsItsValue(all: seq<Entity>, e: Entity, st: BuildState, now: Date)
    requires ValidDate(now) && e.kind == "bolge"
    ensures var r := Step(all, e, st, now);
      && r.clauses == st.clauses + [RegionIs(st.counter)]
      && r.counter == st.counter + 1
      && r.params[ParamName(st.counter)] == VarCharValue(e.option)
  {
    BindFromBinds(st.params, st.counter, [VarCharValue(e.option)], 0);
  }

  /**
   * A channel entity adds `FIS_TURU IN (@pk, ...)` with one fresh number per
   * receipt type of the channel and binds the i-th of them to the i-th code.
   */
  lemma ChannelEntityBindsItsCodes(all: seq<Entity>, e: Entity, st: BuildState, now: Date, i: nat)
    requires ValidDate(now) && e.kind == "satis_kanali"
    requires i < |ReceiptTypes(e.option, TransactionType(all))|
    ensures var r := Step(all, e, st, now);
      var codes := ReceiptTypes(e.option, TransactionType(all));
      && r.clauses == st.clauses + [ReceiptTypeIn(Span(st.counter, st.counter + |codes|))]
      && r.counter == st.counter + |codes|
      && r.params[ParamName(st.counter + i)] == IntValue(codes[i])
  {
    ChannelClause(all, e, st.counter, now);
    StepBinds(all, e, st, now, i);
  }

  lemma ChannelClause(all: seq<Entity>, e: Entity, c: nat, now: Date)
    requires ValidDate(now) && e.kind == "satis_kanali"
    requires ReceiptTypes(e.option, TransactionType(all)) != []
    ensures var codes := ReceiptTypes(e.option, TransactionType(all));
      EntityClause(all, e, c, now) == Some((ReceiptTypeIn(Span(c, c + |codes|)), ChannelValues(codes)))
  {
  }

  /** A time entity adds `TARIH BETWEEN @pk AND @pk+1` and binds the range's first and last day. */
  lemma DateEntityBindsItsRange(all: seq<Entity>, e: Entity, st: BuildState, now: Date)
    requires ValidDate(now) && e.kind == "zaman_araligi" && DateRangeFromEntity(e.option, now).Some?
    ensures var r := Step(all, e, st, now);
      var range := DateRangeFromEntity(e.option, now).value;
      && r.clauses == st.clauses + [DateBetween(st.counter, st.counter + 1)]
      && r.counter == st.counter + 2
      && r.params[ParamName(st.counter)] == DateValue(range.start)
      && r.params[ParamName(st.counter + 1)] == DateValue(range.end)
  {
    StepBinds(all, e, st, now, 0);
    StepBinds(all, e, st, now, 1);
  }

  /** An entity that adds a clause appends it, advances the counter past its values and binds the i-th of them. */
  lemma StepBinds(all: seq<Entity>, e: Entity, st: BuildState, now: Date, i: nat)
    requires ValidDate(now)
    requires EntityClause(all, e, st.counter, now).Some? && i < |EntityClause(all, e, st.counter, now).value.1|
    ensures var (clause, values) := EntityClause(all, e, st.counter, now).value;
      var r := Step(all, e, st, now);
      && r.clauses == st.clauses + [clause]
      && r.counter == st.counter + |values|
      && r.params[ParamName(st.counter + i)] == values[i]
  {
    BindFromBinds(st.params, st.counter, EntityClause(all, e, st.counter, now).value.1, i);
  }

  lemma SpanConcat(a: nat, b: nat, c: nat)
    requires a <= b <= c
    ensures Span(a, b) + Span(b, c) == Span(a, c)
  {
  }

  /** Each iteration keeps the numbering consecutive and the bound names in step with it. */
  lemma StepKeepsConsecutive(all: seq<Entity>, e: Entity, st: BuildState, now: Date)
    requires ValidDate(now) && Consecutive(st)
    ensures Consecutive(Step(all, e, st, now))
    ensures Step(all, e, st, now).counter >= st.counter
  {
    match EntityClause(all, e, st.counter, now)
    case None =>
    case Some((clause, values)) =>
      var r := Step(all, e, st, now);
      var cs := st.clauses + [clause];
      assert cs[..|cs| - 1] == st.clauses;
      SpanConcat(1, st.counter, st.counter + |values|);
      assert r.params.Keys == NamesBelow(r.counter) by {
        assert forall n :: n in NamesBelow(r.counter) <==>
          n in NamesBelow(st.counter) || n in Fresh(st.counter, |values|) by {
          forall n ensures n in NamesBelow(r.counter) ==>
            n in NamesBelow(st.counter) || n in Fresh(st.counter, |values|)
          {
            if n in NamesBelow(r.counter) {
              var k :| 1 <= k < r.counter && n == ParamName(k);
            }
          }
        }
      }
  }

  /** The loop `for (const entity of entities)`, over the suffix `es` of `all`. */
  function Fold(all: seq<Entity>, es: seq<Entity>, st: BuildState, now: Date): (r: BuildState)
    requires ValidDate(now)
    decreases |es|
  {
    if es == [] then st else Fold(all, es[1..], Step(all, es[0], st, now), now)
  }

  lemma {:induction false} FoldKeepsConsecutive(all: seq<Entity>, es: seq<Entity>, st: BuildState, now: Date)
    requires ValidDate(now) && Consecutive(st)
    ensures Consecutive(Fold(all, es, st, now))
    decreases |es|
  {
    if es != [] {
      StepKeepsConsecutive(all, es[0], st, now);
      FoldKeepsConsecutive(all, es[1..], Step(all, es[0], st, now), now);
    }
  }

  // ---------------------------------------------------------------------
  // Rendering
  // ---------------------------------------------------------------------

  function Join(parts: seq<string>, sep: string): string {
    if parts == [] then ""
    else if |parts| == 1 then parts[0]
    else parts[0] + sep + Join(parts[1..], sep)
  }

  /** Joining one more part appends the separator and that part. */
  lemma {:induction false} JoinAppend(parts: seq<string>, p: string, sep: string)
    requires parts != []
    ensures Join(parts + [p], sep) == Join(parts, sep) + sep + p
    decreases |parts|
  {
    if |parts| > 1 {
      assert (parts + [p])[1..] == parts[1..] + [p];
      JoinAppend(parts[1..], p, sep);
    } else {
      assert (parts + [p])[1..] == [p];
    }
  }

  function Placeholder(k: nat): string {
    "@" + ParamName(k)
  }

  function RenderClause(c: Clause): string {
    match c
    case RegionIs(p) => "BOLGE = " + Placeholder(p)
    case ReceiptTypeIn(ps) => "FIS_TURU IN (" + Join(seq(|ps|, i requires 0 <= i < |ps| => Placeholder(ps[i])), ", ") + ")"
    case DateBetween(a, b) => "TARIH BETWEEN " + Placeholder(a) + " AND " + Placeholder(b)
  }

  function RenderClauses(cs: seq<Clause>): seq<string> {
    seq(|cs|, i requires 0 <= i < |cs| => RenderClause(cs[i]))
  }

  /** The WHERE part: nothing without clauses, else ` WHERE ` and the clauses joined by ` AND `. */
  function WherePart(cs: seq<Clause>): (w: string)
    ensures cs == [] <==> w == []
    ensures cs != [] ==> |w| >= 7 && w[..7] == " WHERE "
  {
    if cs == [] then "" else
      var rest := Join(RenderClauses(cs), " AND ");
      Frame(" WHERE ", rest, "", 7);
      " WHERE " + rest
  }

  /**
   * The query text for a list of clauses: the base query, then a WHERE
   * part exactly when there is a clause, then the ordering.
   */
  function Render(cs: seq<Clause>): (text: string)
    ensures |text| >= |BaseQuery| + |OrderSuffix|
    ensures text[..|BaseQuery|] == BaseQuery
    ensures text[|text| - |OrderSuffix|..] == OrderSuffix
    ensures cs == [] <==> |text| == |BaseQuery| + |OrderSuffix|
    ensures cs != [] ==> text[|BaseQuery|..|BaseQuery| + 7] == " WHERE "
  {
    var w := WherePart(cs);
    Frame(BaseQuery, w, OrderSuffix, if cs == [] then 0 else 7);
    BaseQuery + w + OrderSuffix
  }

  /** The pieces of `a + b + c` sit where their lengths say; so does any prefix of `b`. */
  lemma Frame(a: string, b: string, c: string, k: nat)
    requires k <= |b|
    ensures var t := a + b + c;
      && |t| == |a| + |b| + |c|
      && t[..|a|] == a && t[|a|..|a| + k] == b[..k] && t[..|t| - |c|] == a + b && t[|t| - |c|..] == c
  {
    var t := a + b + c;
    assert t[|a|..|a| + k] == b[..k];
  }

  /** One clause gives `WHERE` and that clause's text before the ordering. */
  lemma RenderOne(c: Clause)
    ensures Render([c]) == BaseQuery + " WHERE " + RenderClause(c) + OrderSuffix
  {
    assert RenderClauses([c]) == [RenderClause(c)];
  }

  /** Each further clause is appended after ` AND `, just before the ordering. */
  lemma RenderAppend(cs: seq<Clause>, c: Clause)
    requires cs != []
    ensures var t := Render(cs);
      Render(cs + [c]) == t[..|t| - |OrderSuffix|] + " AND " + RenderClause(c) + OrderSuffix
  {
    WherePartAppend(cs, c);
    InsertBeforeSuffix(BaseQuery, WherePart(cs), " AND ", RenderClause(c), OrderSuffix);
  }

  lemma WherePartAppend(cs: seq<Clause>, c: Clause)
    requires cs != []
    ensures WherePart(cs + [c]) == WherePart(cs) + " AND " + RenderClause(c)
  {
    var parts := RenderClauses(cs);
    assert RenderClauses(cs + [c]) == parts + [RenderClause(c)];
    JoinAppend(parts, RenderClause(c), " AND ");
  }

  /** Text inserted before the suffix of `a + w + sfx` lands right after `a + w`. */
  lemma InsertBeforeSuffix(a: string, w: string, x: string, y: string, sfx: string)
    ensures var t := a + w + sfx;
      a + (w + x + y) + sfx == t[..|t| - |sfx|] + x + y + sfx
  {
    var t := a + w + sfx;
    assert t[..|t| - |sfx|] == a + w;
  }

  /** `buildDynamicQuery`: `entities` is None when the NLU result has none. */
  function BuildDynamicQuery(entities: Option<seq<Entity>>, now: Date): (q: BuiltQuery)
    requires ValidDate(now)
    ensures (entities.None? || entities.value == []) ==> q == BuiltQuery(BaseQuery, map[])
    ensures entities.Some? && entities.value != [] ==>
      var st := Fold(entities.value, entities.value, Initial, now);
      && q.text == Render(st.clauses)
      && q.params == st.params
      && st.counter >= 1
      && PlaceholderNumbers(st.clauses) == Span(1, st.counter)
      && q.params.Keys == NamesBelow(st.counter)
  {
    if entities.None? || entities.value == [] then BuiltQuery(BaseQuery, map[])
    else
      var st := Fold(entities.value, entities.value, Initial, now);
      FoldKeepsConsecutive(entities.value, entities.value, Initial, now);
      BuiltQuery(Render(st.clauses), st.params)
  }

  // ---------------------------------------------------------------------
  // Values never reach the text
  // ---------------------------------------------------------------------

  /** What the text can see of an entity: which clause, if any, it adds and with how many placeholders. */
  datatype Shape = NoClause | RegionShape | ReceiptShape(count: nat) | DateShape

  function ShapeOf(all: seq<Entity>, e: Entity, now: Date): Shape
    requires ValidDate(now)
  {
    match EntityClause(all, e, 0, now)
    case None => NoClause
    case Some((c, vs)) =>
      match c
      case RegionIs(_) => RegionShape
      case ReceiptTypeIn(ps) => ReceiptShape(|ps|)
      case DateBetween(_, _) => DateShape
  }

  function Shapes(all: seq<Entity>, es: seq<Entity>, now: Date): seq<Shape>
    requires ValidDate(now)
  {
    if es == [] then [] else [ShapeOf(all, es[0], now)] + Shapes(all, es[1..], now)
  }

  /** The clauses an entity adds depend on its shape and the counter only. */
  lemma StepClausesByShape(a: seq<Entity>, ea: Entity, sa: BuildState, b: seq<Entity>, eb: Entity, sb: BuildState, now: Date)
    requires ValidDate(now)
    requires sa.clauses == sb.clauses && sa.counter == sb.counter
    requires ShapeOf(a, ea, now) == ShapeOf(b, eb, now)
    ensures Step(a, ea, sa, now).clauses == Step(b, eb, sb, now).clauses
    ensures Step(a, ea, sa, now).counter == Step(b, eb, sb, now).counter
  {
  }

  lemma {:induction false} FoldClausesByShape(a: seq<Entity>, ea: seq<Entity>, sa: BuildState,
                                              b: seq<Entity>, eb: seq<Entity>, sb: BuildState, now: Date)
    requires ValidDate(now)
    requires sa.clauses == sb.clauses && sa.counter == sb.counter
    requires Shapes(a, ea, now) == Shapes(b, eb, now)
    ensures Fold(a, ea, sa, now).clauses == Fold(b, eb, sb, now).clauses
    decreases |ea|
  {
    if ea != [] {
      assert eb != [];
      assert Shapes(a, ea, now)[0] == Shapes(b, eb, now)[0];
      assert Shapes(a, ea[1..], now) == Shapes(a, ea, now)[1..];
      StepClausesByShape(a, ea[0], sa, b, eb[0], sb, now);
      FoldClausesByShape(a, ea[1..], Step(a, ea[0], sa, now), b, eb[1..], Step(b, eb[0], sb, now), now);
    } else {
      assert eb == [];
    }
  }

  /**
   * Two entity lists of the same shape give the same SQL text, whatever
   * their values: entity values only ever reach the params map.
   */
  lemma TextDependsOnlyOnShape(a: seq<Entity>, b: seq<Entity>, now: Date)
    requires ValidDate(now)
    requires Shapes(a, a, now) == Shapes(b, b, now)
    ensures BuildDynamicQuery(Some(a), now).text == BuildDynamicQuery(Some(b), now).text
  {
    if a != [] {
      assert b != [];
      FoldClausesByShape(a, a, Initial, b, b, Initial, now);
    } else {
      assert b == [];
    }
  }

}
