/**
 * The report handlers of the dashboard, as functions of the sales table and
 * their request filters: the period shortcuts, the sales-rep summary, product
 * profitability with its KPI rollup, the monthly trend, the 12-month padding
 * of the yearly product comparison, and the product / customer potential
 * partitions.
 */
module Reports {

  import opened Wrappers
  import opened Calendar
  import opened Sales

  // ---------------------------------------------------------------------
  // Request parameters
  // ---------------------------------------------------------------------

  /** A query-string value that JavaScript treats as present (`if (x)`): given and not empty. */
  predicate Given(p: Option<string>) {
    p.Some? && p.value != ""
  }

  /** `col = @param` is TRUE: the column is not NULL and equals the parameter. */
  predicate ColumnIs<T(==)>(col: Option<T>, v: T) {
    col == Some(v)
  }

  /** An optional text filter: no-op when absent, `col = @param` otherwise. */
  predicate TextFilter(col: Option<string>, p: Option<string>) {
    Given(p) ==> ColumnIs(col, p.value)
  }

  /** An optional integer filter (YIL, AY): no-op when absent. */
  predicate IntFilter(col: Option<int>, p: Option<int>) {
    p.Some? ==> ColumnIs(col, p.value)
  }

  // ---------------------------------------------------------------------
  // Period shortcuts (getDateRange)
  // ---------------------------------------------------------------------

  /**
   * `getDateRange(period)` relative to the clock reading `now`: this month,
   * last month (December of the previous year in January) or this calendar
   * year; any other value gives no range.
   */
  function GetDateRange(period: string, now: Date): (r: Option<DateRange>)
    requires ValidDate(now)
    ensures period == "bu_ay" ==> r == Some(WholeMonth(now.year, now.month))
    ensures period == "gecen_ay" ==>
      r == Some(WholeMonth(PreviousMonth(now.year, now.month).0, PreviousMonth(now.year, now.month).1))
    ensures period == "bu_yil" ==> r == Some(DateRange(Date(now.year, 1, 1), Date(now.year, 12, 31)))
    ensures period != "bu_ay" && period != "gecen_ay" && period != "bu_yil" ==> r.None?
    ensures r.Some? ==> ValidDate(r.value.start) && ValidDate(r.value.end) && LessEq(r.value.start, r.value.end)
  {
    if period == "bu_ay" then Some(ThisMonth(now))
    else if period == "gecen_ay" then Some(LastMonth(now))
    else if period == "bu_yil" then Some(ThisYear(now))
    else None
  }

  /**
   * The start and end dates a report filters on: a recognised shortcut other
   * than 'manuel' replaces both manual dates; anything else leaves them as sent.
   */
  function ResolvePeriod(shortcut: Option<string>, start: Option<Date>, end: Option<Date>, now: Date)
    : (r: (Option<Date>, Option<Date>))
    requires ValidDate(now)
    ensures Given(shortcut) && shortcut.value != "manuel" && GetDateRange(shortcut.value, now).Some? ==>
      var range := GetDateRange(shortcut.value, now).value;
      r == (Some(range.start), Some(range.end))
    ensures !(Given(shortcut) && shortcut.value in {"bu_ay", "gecen_ay", "bu_yil"}) ==> r == (start, end)
  {
    if Given(shortcut) && shortcut.value != "manuel" then
      match GetDateRange(shortcut.value, now)
      case Some(range) => (Some(range.start), Some(range.end))
      case None => (start, end)
    else (start, end)
  }

  // ---------------------------------------------------------------------
  // Sales-rep summary (/temsilci-performans)
  // ---------------------------------------------------------------------

  datatype RepFilter = RepFilter(
    year: Option<int>, month: Option<int>,
    rep: Option<string>, customer: Option<string>, supplier: Option<string>)

  predicate RepSelects(f: RepFilter, r: SaleRow) {
    InBase(r) && IntFilter(r.year, f.year) && IntFilter(r.month, f.month)
    && TextFilter(r.rep, f.rep) && TextFilter(r.customer, f.customer) && TextFilter(r.supplier, f.supplier)
  }

  /** The rows `/temsilci-performans` aggregates. */
  function RepSelection(f: RepFilter): SaleRow -> bool {
    r => RepSelects(f, r)
  }

  /** The distinct non-NULL customer names among `rows`. */
  function CustomerNames(rows: seq<SaleRow>): set<string> {
    set i | 0 <= i < |rows| && rows[i].customer.Some? :: rows[i].customer.value
  }

  /** The distinct customers of the rows the filter selects, read straight off the table. */
  function SelectedCustomers(table: seq<SaleRow>, f: RepFilter): set<string> {
    set i | 0 <= i < |table| && RepSelects(f, table[i]) && table[i].customer.Some? :: table[i].customer.value
  }

  datatype RepSummary = RepSummary(revenue: real, profit: real, customerCount: nat)

  /**
   * `ISNULL(SUM(TUTAR), 0)`, `ISNULL(SUM(TUTAR - MIKTAR * DogruBirimMaliyet), 0)`
   * and `COUNT(DISTINCT FIRMAADI)` over the selected rows, with costs resolved
   * against the whole table.
   */
  function RepPerformance(table: seq<SaleRow>, f: RepFilter): (s: RepSummary)
    ensures s.revenue == AmountWhere(table, RepSelection(f)).GetOr(0.0)
    ensures s.profit == ProfitWhere(table, table, RepSelection(f)).GetOr(0.0)
    ensures s.customerCount == |SelectedCustomers(table, f)|
    ensures s.customerCount <= |Where(table, RepSelection(f))|
    ensures Given(f.customer) ==> s.customerCount <= 1
    ensures (forall i :: 0 <= i < |table| ==> !RepSelects(f, table[i])) ==> s == RepSummary(0.0, 0.0, 0)
  {
    var rows := Where(table, RepSelection(f));
    CustomerCountBounds(table, f);
    SumsOfWhere(table, table, RepSelection(f));
    RepSummary(Revenue(rows).GetOr(0.0), Profit(table, rows).GetOr(0.0), |CustomerNames(rows)|)
  }

  lemma CustomerCountBounds(table: seq<SaleRow>, f: RepFilter)
    ensures var rows := Where(table, RepSelection(f));
      && CustomerNames(rows) == SelectedCustomers(table, f)
      && |CustomerNames(rows)| <= |rows|
      && (Given(f.customer) ==> |CustomerNames(rows)| <= 1)
      && ((forall i :: 0 <= i < |table| ==> !RepSelects(f, table[i])) ==> rows == [])
  {
    var rows := Where(table, RepSelection(f));
    var names := CustomerNames(rows);
    CardinalityOfImage(rows);
    CustomersOfSelection(table, f);
    if Given(f.customer) {
      assert names <= {f.customer.value};
      SubsetCard(names, {f.customer.value});
    }
  }

  /** The customers of the filtered rows are the customers of the selected table rows. */
  lemma CustomersOfSelection(table: seq<SaleRow>, f: RepFilter)
    ensures CustomerNames(Where(table, RepSelection(f))) == SelectedCustomers(table, f)
  {
    var rows := Where(table, RepSelection(f));
    forall n | n in CustomerNames(rows) ensures n in SelectedCustomers(table, f) {
      var i :| 0 <= i < |rows| && rows[i].customer.Some? && rows[i].customer.value == n;
      assert rows[i] in table;
      var j :| 0 <= j < |table| && table[j] == rows[i];
      assert RepSelects(f, table[j]);
    }
    forall n | n in SelectedCustomers(table, f) ensures n in CustomerNames(rows) {
      var j :| 0 <= j < |table| && RepSelects(f, table[j]) && table[j].customer.Some? && table[j].customer.value == n;
      assert RepSelection(f)(table[j]);
      assert table[j] in rows;
      var i :| 0 <= i < |rows| && rows[i] == table[j];
    }
  }

  lemma SubsetCard<T>(a: set<T>, b: set<T>)
    requires a <= b
    ensures |a| <= |b|
  {
    if a != {} {
      var x :| x in a;
      SubsetCard(a - {x}, b - {x});
    }
  }

  lemma {:induction false} CardinalityOfImage(rows: seq<SaleRow>)
    ensures |CustomerNames(rows)| <= |rows|
  {
    if rows != [] {
      var init := rows[..|rows| - 1];
      CardinalityOfImage(init);
      var last := rows[|rows| - 1];
      var extra: set<string> := if last.customer.Some? then {last.customer.value} else {};
      assert CustomerNames(rows) <= CustomerNames(init) + extra by {
        forall n | n in CustomerNames(rows) ensures n in CustomerNames(init) + extra {
          var i :| 0 <= i < |rows| && rows[i].customer.Some? && rows[i].customer.value == n;
          if i < |rows| - 1 { assert init[i] == rows[i]; }
        }
      }
      SubsetCard(CustomerNames(rows), CustomerNames(init) + extra);
    }
  }

  // ---------------------------------------------------------------------
  // Product profitability (/urun-karlilik)
  // ---------------------------------------------------------------------

  datatype ProductFilter = ProductFilter(
    name: Option<string>, category: Option<string>, productGroup: Option<string>,
    supplier: Option<string>, start: Option<Date>, end: Option<Date>)

  /** The WHERE clause: base filter, `TUTAR >= 0`, and the optional filters. */
  predicate ProductSelects(f: ProductFilter, r: SaleRow) {
    InBase(r) && r.amount.Some? && r.amount.value >= 0.0
    && TextFilter(r.name, f.name) && TextFilter(r.category, f.category)
    && TextFilter(r.productGroup, f.productGroup) && TextFilter(r.supplier, f.supplier)
    && (f.start.Some? ==> r.date.Some? && LessEq(f.start.value, r.date.value))
    && (f.end.Some? ==> r.date.Some? && LessEq(r.date.value, f.end.value))
  }

  /** One result row: `STOK_ADI, SUM(TUTAR) AS ToplamCiro, SUM(...) AS ToplamKar`. */
  datatype ProductProfit = ProductProfit(name: string, revenue: real, profit: Option<real>)

  /** The `GROUP BY s.STOK_ADI` keys: the names of the rows the filter keeps. */
  function ProductNames(table: seq<SaleRow>, f: ProductFilter): set<string> {
    set i | 0 <= i < |table| && ProductSelects(f, table[i]) && table[i].name.Some? :: table[i].name.value
  }

  /** The rows the filter keeps. */
  function ProductSelection(f: ProductFilter): SaleRow -> bool {
    r => ProductSelects(f, r)
  }

  /** The rows of product `n`. */
  function NameIs(n: string): SaleRow -> bool {
    (r: SaleRow) => r.name == Some(n)
  }

  /** The rows the filter keeps that belong to product `n`. */
  function ProductOf(f: ProductFilter, n: string): SaleRow -> bool {
    r => ProductSelects(f, r) && r.name == Some(n)
  }

  /**
   * The product profitability result set, `GROUP BY s.STOK_ADI`, keyed by
   * name (the order of `ORDER BY ToplamKar DESC` among ties is left to the
   * database and not modelled here).
   */
  function ProductProfitability(table: seq<SaleRow>, f: ProductFilter): (m: map<string, ProductProfit>)
    ensures forall n :: n in m <==> exists i :: 0 <= i < |table| && ProductSelects(f, table[i]) && table[i].name == Some(n)
    ensures forall n :: n in m ==>
      && m[n].name == n && m[n].revenue >= 0.0
      && Some(m[n].revenue) == AmountWhere(table, ProductOf(f, n))
      && m[n].profit == ProfitWhere(table, table, ProductOf(f, n))
    ensures Given(f.name) ==> m.Keys <= {f.name.value}
  {
    var rows := Where(table, ProductSelection(f));
    NameFilterPinsName(table, f);
    ProductLinesAreGroups(table, f);
    map n | n in ProductNames(table, f) :: ProductLine(table, rows, n)
  }

  /** With a name filter, every selected row carries that name. */
  lemma NameFilterPinsName(table: seq<SaleRow>, f: ProductFilter)
    ensures Given(f.name) ==>
      forall i :: 0 <= i < |table| && ProductSelects(f, table[i]) ==> table[i].name == f.name
  {
  }

  /** One product's line of the result: its rows' revenue and profit sums. */
  function ProductLine(table: seq<SaleRow>, rows: seq<SaleRow>, n: string): (p: ProductProfit)
    requires forall i :: 0 <= i < |rows| ==> rows[i].amount.Some? && rows[i].amount.value >= 0.0
    ensures p.name == n && p.revenue >= 0.0
  {
    var g := Where(rows, NameIs(n));
    ProductProfit(n, Revenue(g).GetOr(0.0), Profit(table, g))
  }

  /**
   * Grouping the selected rows by name sums, for each listed product, exactly
   * the table rows that are selected and carry its name.
   */
  lemma ProductLinesAreGroups(table: seq<SaleRow>, f: ProductFilter)
    ensures forall n :: n in ProductNames(table, f) ==>
      var p := ProductLine(table, Where(table, ProductSelection(f)), n);
      Some(p.revenue) == AmountWhere(table, ProductOf(f, n)) && p.profit == ProfitWhere(table, table, ProductOf(f, n))
  {
    var rows := Where(table, ProductSelection(f));
    forall n | n in ProductNames(table, f)
      ensures var p := ProductLine(table, rows, n);
        Some(p.revenue) == AmountWhere(table, ProductOf(f, n)) && p.profit == ProfitWhere(table, table, ProductOf(f, n))
    {
      WhereComposes(table, ProductSelection(f), NameIs(n), ProductOf(f, n));
      SumsOfWhere(table, table, ProductOf(f, n));
      var i :| 0 <= i < |table| && ProductSelects(f, table[i]) && table[i].name.Some? && table[i].name.value == n;
      assert ProductOf(f, n)(table[i]);
      assert table[i] in Where(table, ProductOf(f, n));
    }
  }

  // ---------------------------------------------------------------------
  // KPI rollup of the product profitability result
  // ---------------------------------------------------------------------

  datatype Kpis = Kpis(totalRevenue: real, totalProfit: real, averageMargin: real, productCount: nat)

  /** Σ ToplamCiro, the reference sum. */
  function SumRevenue(rows: seq<ProductProfit>): real {
    if rows == [] then 0.0 else rows[0].revenue + SumRevenue(rows[1..])
  }

  /** Σ ToplamKar, where JavaScript's `sum + null` adds nothing. */
  function SumProfit(rows: seq<ProductProfit>): real {
    if rows == [] then 0.0 else rows[0].profit.GetOr(0.0) + SumProfit(rows[1..])
  }

  /** `rows.reduce((sum, s) => sum + s.ToplamCiro, acc)`: a left fold. */
  function ReduceRevenue(rows: seq<ProductProfit>, acc: real): real {
    if rows == [] then acc else ReduceRevenue(rows[1..], acc + rows[0].revenue)
  }

  /** `rows.reduce((sum, s) => sum + s.ToplamKar, acc)`. */
  function ReduceProfit(rows: seq<ProductProfit>, acc: real): real {
    if rows == [] then acc else ReduceProfit(rows[1..], acc + rows[0].profit.GetOr(0.0))
  }

  lemma {:induction false} ReduceIsSum(rows: seq<ProductProfit>, acc: real)
    ensures ReduceRevenue(rows, acc) == acc + SumRevenue(rows)
    ensures ReduceProfit(rows, acc) == acc + SumProfit(rows)
  {
    if rows != [] {
      ReduceIsSum(rows[1..], acc + rows[0].revenue);
      ReduceIsSum(rows[1..], acc + rows[0].profit.GetOr(0.0));
    }
  }

  /**
   * The KPI block: totals of revenue and profit over the result rows, the
   * row count, and the margin 100·profit/revenue only when revenue is
   * positive; all zero for an empty result.
   */
  function ComputeKpis(rows: seq<ProductProfit>): (k: Kpis)
    ensures k.totalRevenue == SumRevenue(rows) && k.totalProfit == SumProfit(rows)
    ensures k.productCount == |rows|
    ensures k.averageMargin == (if k.totalRevenue > 0.0 then k.totalProfit / k.totalRevenue * 100.0 else 0.0)
    ensures rows == [] ==> k == Kpis(0.0, 0.0, 0.0, 0)
  {
    if |rows| > 0 then
      var revenue := ReduceRevenue(rows, 0.0);
      var profit := ReduceProfit(rows, 0.0);
      ReduceIsSum(rows, 0.0);
      Kpis(revenue, profit, if revenue > 0.0 then (profit / revenue) * 100.0 else 0.0, |rows|)
    else
      Kpis(0.0, 0.0, 0.0, 0)
  }

  lemma {:induction false} SumsOfConcat(a: seq<ProductProfit>, b: seq<ProductProfit>)
    ensures SumRevenue(a + b) == SumRevenue(a) + SumRevenue(b)
    ensures SumProfit(a + b) == SumProfit(a) + SumProfit(b)
  {
    if a == [] {
      assert a + b == b;
    } else {
      assert (a + b)[1..] == a[1..] + b;
      SumsOfConcat(a[1..], b);
    }
  }

  /** Taking element `j` out of the sums. */
  lemma {:induction false} SumsWithout(b: seq<ProductProfit>, j: int)
    requires 0 <= j < |b|
    ensures SumRevenue(b) == b[j].revenue + SumRevenue(b[..j] + b[j + 1..])
    ensures SumProfit(b) == b[j].profit.GetOr(0.0) + SumProfit(b[..j] + b[j + 1..])
  {
    if j == 0 {
      assert b[..0] + b[1..] == b[1..];
    } else {
      SumsWithout(b[1..], j - 1);
      assert b[1..][..j - 1] + b[1..][j..] == (b[..j] + b[j + 1..])[1..];
    }
  }

  /** Removing the head of `a` and a matching element of `b` keeps the multisets equal. */
  lemma RemoveMatching<T>(a: seq<T>, b: seq<T>, j: int)
    requires multiset(a) == multiset(b) && a != []
    requires 0 <= j < |b| && b[j] == a[0]
    ensures multiset(a[1..]) == multiset(b[..j] + b[j + 1..])
  {
    assert b == b[..j] + [b[j]] + b[j + 1..];
    assert multiset(b) == multiset(b[..j]) + multiset([b[j]]) + multiset(b[j + 1..]);
    assert multiset(b[..j] + b[j + 1..]) == multiset(b[..j]) + multiset(b[j + 1..]);
    assert a == [a[0]] + a[1..];
    assert multiset(a) == multiset([a[0]]) + multiset(a[1..]);
    assert multiset(a[1..]) == multiset(a) - multiset([a[0]]);
    assert multiset(b[..j] + b[j + 1..]) == multiset(b) - multiset([b[j]]);
  }

  /** The totals do not depend on the order of the result rows. */
  lemma {:induction false} SumsArePermutationInvariant(a: seq<ProductProfit>, b: seq<ProductProfit>)
    requires multiset(a) == multiset(b)
    ensures SumRevenue(a) == SumRevenue(b) && SumProfit(a) == SumProfit(b)
    decreases |a|
  {
    if a == [] {
      assert |b| == |multiset(b)| == 0;
    } else {
      var x := a[0];
      assert x in multiset(b);
      var j :| 0 <= j < |b| && b[j] == x;
      var b' := b[..j] + b[j + 1..];
      RemoveMatching(a, b, j);
      SumsArePermutationInvariant(a[1..], b');
      SumsWithout(b, j);
    }
  }

  /**
   * The worked example's single product line, 200 of revenue and 80 of
   * profit, gives a 40% average margin.
   */
  lemma WorkedExampleMargin()
    ensures ComputeKpis([ProductProfit("U", 200.0, Some(80.0))]) == Kpis(200.0, 80.0, 40.0, 1)
  {
    var rows := [ProductProfit("U", 200.0, Some(80.0))];
    assert rows[1..] == [];
    assert SumRevenue(rows) == 200.0 && SumProfit(rows) == 80.0;
  }

  /**
   * The KPI block is the same for every order the database may return the
   * result rows in.
   */
  lemma KpisAreOrderIndependent(a: seq<ProductProfit>, b: seq<ProductProfit>)
    requires multiset(a) == multiset(b)
    ensures ComputeKpis(a) == ComputeKpis(b)
  {
    SumsArePermutationInvariant(a, b);
    assert |a| == |multiset(a)| == |multiset(b)| == |b|;
  }

  // ---------------------------------------------------------------------
  // Monthly trend (/aylik-trend)
  // ---------------------------------------------------------------------

  datatype MonthKey = MonthKey(year: int, month: Option<int>)
  datatype Totals = Totals(revenue: Option<real>, profit: Option<real>)

  /** `SUM(TUTAR)` and `SUM(TUTAR - MIKTAR * DogruBirimMaliyet)` per (YIL, AY) under the base filter. */
  function MonthlyTrend(table: seq<SaleRow>): (m: map<MonthKey, Totals>)
    ensures forall k :: k in m <==> exists i :: 0 <= i < |table| && InBaseMonth(table[i], k)
    ensures forall k :: k in m ==> k.year == 2024 || k.year == 2025
    ensures forall k :: k in m ==>
      m[k] == Totals(AmountWhere(table, MonthOf(k)), ProfitWhere(table, table, MonthOf(k)))
  {
    BaseMonthsAreTheMonthsSold(table);
    MonthsAreGroups(table);
    GroupByMonth(table, BaseMonths(table))
  }

  /** `GROUP BY YIL, AY` over the base rows, for the given months. */
  function GroupByMonth(table: seq<SaleRow>, months: set<MonthKey>): (m: map<MonthKey, Totals>)
    ensures m.Keys == months
    ensures forall k :: k in m ==> m[k] == MonthTotals(table, Where(table, InBase), k)
  {
    var rows := Where(table, InBase);
    map k | k in months :: MonthTotals(table, rows, k)
  }

  /** A month is a key exactly when some base row falls in it, and every such month is in 2024 or 2025. */
  lemma BaseMonthsAreTheMonthsSold(table: seq<SaleRow>)
    ensures forall k :: k in BaseMonths(table) <==> exists i :: 0 <= i < |table| && InBaseMonth(table[i], k)
    ensures forall k :: k in BaseMonths(table) ==> k.year == 2024 || k.year == 2025
  {
  }

  /** The rows of month `k`. */
  function MonthIs(k: MonthKey): SaleRow -> bool {
    (r: SaleRow) => r.year == Some(k.year) && r.month == k.month
  }

  /** The rows the base filter keeps that fall in month `k`. */
  function MonthOf(k: MonthKey): SaleRow -> bool {
    r => InBaseMonth(r, k)
  }

  /** One month's line of the result: its rows' revenue and profit sums. */
  function MonthTotals(table: seq<SaleRow>, rows: seq<SaleRow>, k: MonthKey): Totals {
    var g := Where(rows, MonthIs(k));
    Totals(Revenue(g), Profit(table, g))
  }

  /** Grouping the base rows by month sums exactly the table rows of that month. */
  lemma MonthsAreGroups(table: seq<SaleRow>)
    ensures forall k ::
      MonthTotals(table, Where(table, InBase), k) == Totals(AmountWhere(table, MonthOf(k)), ProfitWhere(table, table, MonthOf(k)))
  {
    forall k
      ensures MonthTotals(table, Where(table, InBase), k) == Totals(AmountWhere(table, MonthOf(k)), ProfitWhere(table, table, MonthOf(k)))
    {
      WhereComposes(table, InBase, MonthIs(k), MonthOf(k));
      SumsOfWhere(table, table, MonthOf(k));
    }
  }

  /** The `GROUP BY YIL, AY` keys: the months of the rows the base filter keeps. */
  function BaseMonths(table: seq<SaleRow>): set<MonthKey> {
    set i | 0 <= i < |table| && InBase(table[i]) && table[i].year.Some? :: MonthKey(table[i].year.value, table[i].month)
  }

  /** A row belongs to the base filter and falls in the month given by `k`. */
  predicate InBaseMonth(r: SaleRow, k: MonthKey) {
    InBase(r) && r.year == Some(k.year) && r.month == k.month
  }

  // ---------------------------------------------------------------------
  // 12-month padding (/urun-kiyaslama)
  // ---------------------------------------------------------------------

  /** One row of the monthly query: `AY, Miktar2024, Miktar2025` (each may be NULL). */
  datatype MonthQuantities = MonthQuantities(month: Option<int>, qty2024: Option<real>, qty2025: Option<real>)

  datatype MonthEntry = MonthEntry(monthName: string, qty2024: Option<real>, qty2025: Option<real>)

  const MonthNames: seq<string> :=
    ["Ocak", "Şubat", "Mart", "Nisan", "Mayıs", "Haziran",
     "Temmuz", "Ağustos", "Eylül", "Ekim", "Kasım", "Aralık"]

  /** `rows.find(r => r.AY === m)`: the index of the first row of month `m`. */
  function FindMonth(rows: seq<MonthQuantities>, m: int): (r: Option<nat>)
    ensures r.Some? ==> (r.value < |rows| && rows[r.value].month == Some(m)
      && forall j :: 0 <= j < r.value ==> rows[j].month != Some(m))
    ensures r.None? <==> forall j :: 0 <= j < |rows| ==> rows[j].month != Some(m)
  {
    if rows == [] then None
    else if rows[0].month == Some(m) then Some(0)
    else
      match FindMonth(rows[1..], m)
      case Some(j) => Some(j + 1)
      case None => None
  }

  /** What month `m` (1..12) shows: its row's values, or 0 for a month without sales. */
  function MonthShown(rows: seq<MonthQuantities>, m: int): (e: MonthEntry)
    requires 1 <= m <= 12
  {
    match FindMonth(rows, m)
    case Some(j) => MonthEntry(MonthNames[m - 1], rows[j].qty2024, rows[j].qty2025)
    case None => MonthEntry(MonthNames[m - 1], Some(0.0), Some(0.0))
  }

  /**
   * The padding loop: exactly twelve entries, January to December, each with
   * its month's values when the query returned that month, else zeros.
   */
  method PadMonths(rows: seq<MonthQuantities>) returns (entries: seq<MonthEntry>)
    ensures |entries| == 12
    ensures forall i :: 0 <= i < 12 ==> entries[i].monthName == MonthNames[i]
    ensures forall i :: 0 <= i < 12 ==>
      if exists j :: 0 <= j < |rows| && rows[j].month == Some(i + 1) then
        exists j :: 0 <= j < |rows| && rows[j].month == Some(i + 1)
          && (forall l :: 0 <= l < j ==> rows[l].month != Some(i + 1))
          && entries[i].qty2024 == rows[j].qty2024 && entries[i].qty2025 == rows[j].qty2025
      else entries[i].qty2024 == Some(0.0) && entries[i].qty2025 == Some(0.0)
  {
    entries := [];
    var m := 1;
    while m <= 12
      invariant 1 <= m <= 13
      invariant |entries| == m - 1
      invariant forall i :: 0 <= i < m - 1 ==> entries[i] == MonthShown(rows, i + 1)
    {
      var found := FindMonth(rows, m);
      var e := if found.Some? then MonthEntry(MonthNames[m - 1], rows[found.value].qty2024, rows[found.value].qty2025)
               else MonthEntry(MonthNames[m - 1], Some(0.0), Some(0.0));
      entries := entries + [e];
      m := m + 1;
    }
    forall i | 0 <= i < 12
      ensures entries[i].monthName == MonthNames[i]
      ensures if exists j :: 0 <= j < |rows| && rows[j].month == Some(i + 1) then
        exists j :: 0 <= j < |rows| && rows[j].month == Some(i + 1)
          && (forall l :: 0 <= l < j ==> rows[l].month != Some(i + 1))
          && entries[i].qty2024 == rows[j].qty2024 && entries[i].qty2025 == rows[j].qty2025
      else entries[i].qty2024 == Some(0.0) && entries[i].qty2025 == Some(0.0)
    {
      assert entries[i] == MonthShown(rows, i + 1);
      var found := FindMonth(rows, i + 1);
      if found.Some? {
        var j := found.value;
        assert rows[j].month == Some(i + 1);
      }
    }
  }

  // ---------------------------------------------------------------------
  // Potential partitions (/urun-potansiyeli, /musteri-potansiyeli)
  // ---------------------------------------------------------------------

  /** The elements of `xs` that are in `s`, in their original order. */
  function Keep<T>(xs: seq<T>, s: set<T>): seq<T> {
    if xs == [] then [] else (if xs[0] in s then [xs[0]] else []) + Keep(xs[1..], s)
  }

  /** The elements of `xs` that are not in `s`, in their original order. */
  function Drop<T>(xs: seq<T>, s: set<T>): seq<T> {
    if xs == [] then [] else (if xs[0] in s then [] else [xs[0]]) + Drop(xs[1..], s)
  }

  /**
   * `all.forEach(x => s.has(x) ? bought.push(x) : potential.push(x))`: every
   * element lands in exactly one list, in `bought` iff it is in `s`, and both
   * lists keep the original order.
   */
  method Partition<T>(all: seq<T>, s: set<T>) returns (bought: seq<T>, potential: seq<T>)
    ensures bought == Keep(all, s) && potential == Drop(all, s)
    ensures multiset(bought) + multiset(potential) == multiset(all)
    ensures forall x :: x in bought <==> x in all && x in s
    ensures forall x :: x in potential <==> x in all && x !in s
  {
    bought, potential := [], [];
    var i := 0;
    while i < |all|
      invariant 0 <= i <= |all|
      invariant bought + Keep(all[i..], s) == Keep(all, s)
      invariant potential + Drop(all[i..], s) == Drop(all, s)
    {
      assert all[i..][1..] == all[i + 1..];
      if all[i] in s {
        bought := bought + [all[i]];
      } else {
        potential := potential + [all[i]];
      }
      i := i + 1;
    }
    assert all[i..] == [];
    KeepDropSplit(all, s);
  }

  lemma {:induction false} KeepDropSplit<T>(xs: seq<T>, s: set<T>)
    ensures multiset(Keep(xs, s)) + multiset(Drop(xs, s)) == multiset(xs)
    ensures forall x :: x in Keep(xs, s) <==> x in xs && x in s
    ensures forall x :: x in Drop(xs, s) <==> x in xs && x !in s
  {
    if xs != [] {
      KeepDropSplit(xs[1..], s);
      assert xs == [xs[0]] + xs[1..];
    }
  }

  /** `SELECT DISTINCT` without ORDER BY: each value once, here in order of first appearance. */
  function Distinct<T(==,!new)>(xs: seq<T>): (r: seq<T>)
    ensures forall x :: x in r <==> x in xs
    ensures forall i, j :: 0 <= i < j < |r| ==> r[i] != r[j]
  {
    if xs == [] then []
    else
      var init := Distinct(xs[..|xs| - 1]);
      var last := xs[|xs| - 1];
      assert forall x :: x in xs <==> x in xs[..|xs| - 1] || x == last by {
        assert xs == xs[..|xs| - 1] + [last];
      }
      if last in init then init else init + [last]
  }

  datatype PotentialFilter = PotentialFilter(rep: Option<string>, supplier: Option<string>, category: Option<string>)

  /** A row that joins the current-name subquery and passes the base filter. */
  predicate NamedInBase(r: SaleRow) {
    InBase(r) && IsCatalogued(r)
  }

  predicate PotentialSelects(f: PotentialFilter, r: SaleRow) {
    NamedInBase(r) && TextFilter(r.rep, f.rep) && TextFilter(r.supplier, f.supplier)
    && TextFilter(r.category, f.category)
  }

  /** The current names of the catalogued rows among `rows`. */
  function CurrentNames(table: seq<SaleRow>, rows: seq<SaleRow>): (r: seq<Option<string>>)
    requires forall i :: 0 <= i < |rows| ==> IsCatalogued(rows[i])
    ensures forall x :: x in r <==>
      exists i :: 0 <= i < |rows| && IsCatalogued(rows[i]) && x == CurrentName(table, rows[i].code.value)
  {
    if rows == [] then []
    else
      assert IsCatalogued(rows[0]);
      assert forall i :: 1 <= i < |rows| ==> rows[i] == rows[1..][i - 1];
      [CurrentName(table, rows[0].code.value)] + CurrentNames(table, rows[1..])
  }

  /** The set the product list of `/urun-potansiyeli` draws from. */
  function OfferedSet(table: seq<SaleRow>, f: PotentialFilter): set<Option<string>> {
    set i | 0 <= i < |table| && PotentialSelects(f, table[i]) :: CurrentName(table, table[i].code.value)
  }

  /** Every current name of a selected row is in the offered set. */
  lemma NamesAreOffered(table: seq<SaleRow>, f: PotentialFilter, rows: seq<SaleRow>, names: seq<Option<string>>)
    requires rows == Where(table, r => PotentialSelects(f, r))
    requires names == CurrentNames(table, rows)
    ensures forall x :: x in names ==> x in OfferedSet(table, f)
  {
    forall x | x in names ensures x in OfferedSet(table, f) {
      var i :| 0 <= i < |rows| && IsCatalogued(rows[i]) && x == CurrentName(table, rows[i].code.value);
      var j :| 0 <= j < |table| && table[j] == rows[i];
    }
  }

  /** Every name of the offered set is the current name of a selected row. */
  lemma OfferedAreNamed(table: seq<SaleRow>, f: PotentialFilter, rows: seq<SaleRow>, names: seq<Option<string>>)
    requires rows == Where(table, r => PotentialSelects(f, r))
    requires names == CurrentNames(table, rows)
    ensures forall x :: x in OfferedSet(table, f) ==> x in names
  {
    forall x | x in OfferedSet(table, f) ensures x in names {
      var j :| 0 <= j < |table| && PotentialSelects(f, table[j]) && x == CurrentName(table, table[j].code.value);
      assert table[j] in rows;
      var i :| 0 <= i < |rows| && rows[i] == table[j];
      assert IsCatalogued(rows[i]) && x == CurrentName(table, rows[i].code.value);
    }
  }

  /**
   * `SELECT DISTINCT gu.STOK_ADI FROM YC_SATIS_DETAY s JOIN GUNCEL_URUNLER gu
   * ON s.STOK_KODU = gu.STOK_KODU WHERE base AND filters`.
   */
  function OfferedProducts(table: seq<SaleRow>, f: PotentialFilter): (r: seq<Option<string>>)
    ensures forall x :: x in r <==> x in OfferedSet(table, f)
    ensures forall i, j :: 0 <= i < j < |r| ==> r[i] != r[j]
  {
    var rows := Where(table, r => PotentialSelects(f, r));
    var names := CurrentNames(table, rows);
    NamesAreOffered(table, f, rows, names);
    OfferedAreNamed(table, f, rows, names);
    Distinct(names)
  }

  /** The current names of the products customer `c` has bought (base filter only). */
  function ProductsOfCustomer(table: seq<SaleRow>, c: string): set<Option<string>> {
    set i | 0 <= i < |table| && NamedInBase(table[i]) && table[i].customer == Some(c)
      :: CurrentName(table, table[i].code.value)
  }

  /**
   * `/urun-potansiyeli`: with a customer chosen, the offered products split
   * into those the customer has bought and the rest; without one, both lists
   * are empty.
   */
  method ProductPotential(table: seq<SaleRow>, customer: Option<string>, f: PotentialFilter)
    returns (bought: seq<Option<string>>, potential: seq<Option<string>>)
    ensures !Given(customer) ==> bought == [] && potential == []
    ensures Given(customer) ==>
      var chosen := ProductsOfCustomer(table, customer.value);
      bought == Keep(OfferedProducts(table, f), chosen) && potential == Drop(OfferedProducts(table, f), chosen)
    ensures Given(customer) ==> forall x ::
      && (x in bought <==> x in OfferedSet(table, f) && x in ProductsOfCustomer(table, customer.value))
      && (x in potential <==> x in OfferedSet(table, f) && x !in ProductsOfCustomer(table, customer.value))
  {
    if !Given(customer) {
      return [], [];
    }
    var all := OfferedProducts(table, f);
    bought, potential := Partition(all, ProductsOfCustomer(table, customer.value));
  }

  /** A row of `/musteri-potansiyeli`'s customer list: base filter and the rep filter. */
  predicate CustomerListed(rep: Option<string>, r: SaleRow) {
    InBase(r) && TextFilter(r.rep, rep)
  }

  /** `s.STOK_KODU IN (SELECT STOK_KODU FROM GUNCEL_URUNLER gu WHERE gu.STOK_ADI = @urun)`. */
  predicate SoldAs(table: seq<SaleRow>, product: string, r: SaleRow) {
    IsCatalogued(r) && CurrentName(table, r.code.value) == Some(product)
  }

  function CustomersOf(rows: seq<SaleRow>): (r: seq<Option<string>>)
    ensures forall x :: x in r <==> exists i :: 0 <= i < |rows| && rows[i].customer == x
  {
    if rows == [] then []
    else
      assert forall i :: 1 <= i < |rows| ==> rows[i] == rows[1..][i - 1];
      [rows[0].customer] + CustomersOf(rows[1..])
  }

  /** `SELECT DISTINCT s.FIRMAADI ... WHERE base [AND rep]` (a NULL customer is listed too). */
  function ListedCustomers(table: seq<SaleRow>, rep: Option<string>): (r: seq<Option<string>>)
    ensures forall x :: x in r <==> exists i :: 0 <= i < |table| && CustomerListed(rep, table[i]) && table[i].customer == x
    ensures forall i, j :: 0 <= i < j < |r| ==> r[i] != r[j]
  {
    var rows := Where(table, r => CustomerListed(rep, r));
    var names := CustomersOf(rows);
    assert forall x :: x in names ==> exists i :: 0 <= i < |table| && CustomerListed(rep, table[i]) && table[i].customer == x by {
      forall x | x in names ensures exists i :: 0 <= i < |table| && CustomerListed(rep, table[i]) && table[i].customer == x {
        var i :| 0 <= i < |rows| && rows[i].customer == x;
        var j :| 0 <= j < |table| && table[j] == rows[i];
      }
    }
    Distinct(names)
  }

  /** The customers who bought the product currently named `product`, under the rep filter. */
  function BuyersOf(table: seq<SaleRow>, product: string, rep: Option<string>): set<Option<string>> {
    set i | 0 <= i < |table| && CustomerListed(rep, table[i]) && SoldAs(table, product, table[i])
      :: table[i].customer
  }

  /**
   * `/musteri-potansiyeli`: with a product chosen, every listed customer is
   * either a buyer of it or a potential one. Every buyer is listed, so the
   * buyers' list holds exactly the buyers.
   */
  method CustomerPotential(table: seq<SaleRow>, product: Option<string>, rep: Option<string>)
    returns (buyers: seq<Option<string>>, potential: seq<Option<string>>)
    ensures !Given(product) ==> buyers == [] && potential == []
    ensures Given(product) ==>
      var chosen := BuyersOf(table, product.value, rep);
      buyers == Keep(ListedCustomers(table, rep), chosen) && potential == Drop(ListedCustomers(table, rep), chosen)
    ensures Given(product) ==> forall x ::
      && (x in buyers <==> x in BuyersOf(table, product.value, rep))
      && (x in potential <==> x in ListedCustomers(table, rep) && x !in BuyersOf(table, product.value, rep))
  {
    if !Given(product) {
      return [], [];
    }
    var all := ListedCustomers(table, rep);
    var chosen := BuyersOf(table, product.value, rep);
    buyers, potential := Partition(all, chosen);
    forall x | x in chosen ensures x in all {
      var i :| 0 <= i < |table| && CustomerListed(rep, table[i]) && SoldAs(table, product.value, table[i])
        && table[i].customer == x;
    }
  }
}
