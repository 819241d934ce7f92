/**
 * The sales-detail table YC_SATIS_DETAY and the SQL the reports share over
 * it: the standing base filter, the three stages of the profitability CTE
 * (transaction-group average cost, per-product fallback cost, resolution),
 * the "current name per product code" subquery, and the revenue and profit
 * sums. Every column may be NULL, so every column is an Option, and
 * comparisons follow SQL's three-valued logic.
 */
module Sales {

  import opened Wrappers
  import opened Calendar

  /** One line of the sales-detail table. */
  datatype SaleRow = SaleRow(
    date: Option<Date>,            // TARIH
    year: Option<int>,             // YIL
    month: Option<int>,            // AY
    customer: Option<string>,      // FIRMAADI
    rep: Option<string>,           // SATISTEMSILCI
    supplier: Option<string>,      // TEDARIKCI
    code: Option<string>,          // STOK_KODU
    name: Option<string>,          // STOK_ADI
    category: Option<string>,      // KATEGORI
    productGroup: Option<string>,  // URUN_GRUBU
    quantity: Option<real>,        // MIKTAR (signed as stored; returns are not flipped)
    liters: Option<real>,          // SATIS_MIKTAR_LITRE
    amount: Option<real>,          // TUTAR
    cost: Option<real>,            // MALIYET
    purchasePrice: Option<real>)   // ALISFIYATI

  // ---------------------------------------------------------------------
  // SQL three-valued logic
  // ---------------------------------------------------------------------

  datatype SqlBool = SqlTrue | SqlFalse | SqlUnknown

  function SqlAnd(a: SqlBool, b: SqlBool): SqlBool {
    if a == SqlFalse || b == SqlFalse then SqlFalse
    else if a == SqlUnknown || b == SqlUnknown then SqlUnknown
    else SqlTrue
  }

  /** `col <> v`: unknown when the column is NULL. */
  function SqlNotEqual(col: Option<string>, v: string): SqlBool {
    match col
    case None => SqlUnknown
    case Some(x) => if x != v then SqlTrue else SqlFalse
  }

  /** `col IN (v1, v2, ...)`: unknown when the column is NULL. */
  function SqlIn(col: Option<int>, vs: set<int>): SqlBool {
    match col
    case None => SqlUnknown
    case Some(x) => if x in vs then SqlTrue else SqlFalse
  }

  // ---------------------------------------------------------------------
  // The standing base filter
  // ---------------------------------------------------------------------

  const ServiceLine: string := "HİZMET"
  const InternalSupplier: string := "GENEL HARCAMA"

  /**
   * `YIL IN (2024, 2025) AND STOK_ADI <> 'HİZMET' AND TEDARIKCI <> 'GENEL HARCAMA'`
   * kept by a WHERE clause: a row survives only when the condition is TRUE,
   * so a NULL name or supplier drops the row.
   */
  predicate InBase(r: SaleRow)
    ensures InBase(r) <==>
      && (r.year == Some(2024) || r.year == Some(2025))
      && r.name.Some? && r.name.value != ServiceLine
      && r.supplier.Some? && r.supplier.value != InternalSupplier
  {
    SqlAnd(SqlAnd(SqlIn(r.year, {2024, 2025}), SqlNotEqual(r.name, ServiceLine)),
           SqlNotEqual(r.supplier, InternalSupplier)) == SqlTrue
  }

  // ---------------------------------------------------------------------
  // Stage 1: transaction-group average cost (IslemBazindaMaliyet)
  // ---------------------------------------------------------------------

  /** `COALESCE(MALIYET, ALISFIYATI, 0)`: a stored zero cost does not fall through. */
  function UnitCost(r: SaleRow): (c: real)
    ensures r.cost.Some? ==> c == r.cost.value
    ensures r.cost.None? && r.purchasePrice.Some? ==> c == r.purchasePrice.value
    ensures r.cost.None? && r.purchasePrice.None? ==> c == 0.0
  {
    r.cost.GetOr(r.purchasePrice.GetOr(0.0))
  }

  /** The GROUP BY key (TARIH, FIRMAADI, STOK_KODU); NULLs group together. */
  datatype GroupKey = GroupKey(date: Option<Date>, customer: Option<string>, code: Option<string>)

  function KeyOf(r: SaleRow): GroupKey {
    GroupKey(r.date, r.customer, r.code)
  }

  /** A row that contributes to `SUM(MIKTAR)` of group `k` (NULL quantities are skipped). */
  predicate Weighs(r: SaleRow, k: GroupKey) {
    KeyOf(r) == k && r.quantity.Some?
  }

  /** What row `r` adds to `SUM(MIKTAR)` of group `k`. */
  function RowQuantity(r: SaleRow, k: GroupKey): real {
    if Weighs(r, k) then r.quantity.value else 0.0
  }

  /** What row `r` adds to `SUM(MIKTAR * COALESCE(MALIYET, ALISFIYATI, 0))` of group `k`. */
  function RowWeight(r: SaleRow, k: GroupKey): real {
    if Weighs(r, k) then r.quantity.value * UnitCost(r) else 0.0
  }

  /** `SUM(MIKTAR)` over group `k`, with the all-NULL sum read as 0 (both fail `> 0`). */
  function GroupQuantity(rows: seq<SaleRow>, k: GroupKey): real {
    if rows == [] then 0.0 else RowQuantity(rows[0], k) + GroupQuantity(rows[1..], k)
  }

  /** `SUM(MIKTAR * COALESCE(MALIYET, ALISFIYATI, 0))` over group `k`. */
  function GroupWeight(rows: seq<SaleRow>, k: GroupKey): real {
    if rows == [] then 0.0 else RowWeight(rows[0], k) + GroupWeight(rows[1..], k)
  }

  /** `CASE WHEN SUM(MIKTAR) > 0 THEN SUM(MIKTAR * cost) / SUM(MIKTAR) ELSE 0 END`. */
  function GroupAverageCost(rows: seq<SaleRow>, k: GroupKey): real {
    var q := GroupQuantity(rows, k);
    if q > 0.0 then GroupWeight(rows, k) / q else 0.0
  }

  /** `lo·q <= c·q <= hi·q` for a non-negative `q` and `lo <= c <= hi`. */
  lemma ScaleBetween(q: real, c: real, lo: real, hi: real)
    requires q >= 0.0 && lo <= c <= hi
    ensures lo * q <= c * q <= hi * q
  {
  }

  /** No row of group `k` carries a negative quantity. */
  predicate NoNegativeQuantity(rows: seq<SaleRow>, k: GroupKey) {
    forall i :: 0 <= i < |rows| && Weighs(rows[i], k) ==> rows[i].quantity.value >= 0.0
  }

  /** Every row of group `k` with a positive quantity has a cost within `[lo, hi]`. */
  predicate CostsWithin(rows: seq<SaleRow>, k: GroupKey, lo: real, hi: real) {
    forall i :: 0 <= i < |rows| && Weighs(rows[i], k) && rows[i].quantity.value > 0.0 ==>
      lo <= UnitCost(rows[i]) <= hi
  }

  /** Both bounds hold for the tail of a sequence when they hold for all of it. */
  lemma WithinTail(rows: seq<SaleRow>, k: GroupKey, lo: real, hi: real)
    requires rows != [] && NoNegativeQuantity(rows, k) && CostsWithin(rows, k, lo, hi)
    ensures NoNegativeQuantity(rows[1..], k) && CostsWithin(rows[1..], k, lo, hi)
    ensures Weighs(rows[0], k) ==> rows[0].quantity.value >= 0.0
    ensures Weighs(rows[0], k) && rows[0].quantity.value > 0.0 ==> lo <= UnitCost(rows[0]) <= hi
  {
    assert forall i :: 0 <= i < |rows[1..]| ==> rows[1..][i] == rows[i + 1];
  }

  /** A weight `w` lies between `lo` and `hi` times the quantity `q`. */
  predicate Between(lo: real, hi: real, q: real, w: real) {
    lo * q <= w <= hi * q
  }

  /** The weighted cost sum lies between `lo` and `hi` times the quantity sum. */
  lemma {:induction false} GroupWeightBetween(rows: seq<SaleRow>, k: GroupKey, lo: real, hi: real)
    requires NoNegativeQuantity(rows, k) && CostsWithin(rows, k, lo, hi)
    ensures Between(lo, hi, GroupQuantity(rows, k), GroupWeight(rows, k))
  {
    if rows == [] {
      assert Between(lo, hi, 0.0, 0.0);
    } else {
      WithinTail(rows, k, lo, hi);
      HeadWeightBetween(rows[0], k, lo, hi);
      GroupWeightBetween(rows[1..], k, lo, hi);
      AddBetween(RowQuantity(rows[0], k), RowWeight(rows[0], k),
                 GroupQuantity(rows[1..], k), GroupWeight(rows[1..], k),
                 GroupQuantity(rows, k), GroupWeight(rows, k), lo, hi);
    }
  }

  lemma HeadWeightBetween(r: SaleRow, k: GroupKey, lo: real, hi: real)
    requires Weighs(r, k) ==> r.quantity.value >= 0.0
    requires Weighs(r, k) && r.quantity.value > 0.0 ==> lo <= UnitCost(r) <= hi
    ensures Between(lo, hi, RowQuantity(r, k), RowWeight(r, k))
  {
    if Weighs(r, k) && r.quantity.value > 0.0 {
      ScaleBetween(r.quantity.value, UnitCost(r), lo, hi);
    }
  }

  lemma AddBetween(q0: real, w0: real, q1: real, w1: real, q: real, w: real, lo: real, hi: real)
    requires Between(lo, hi, q0, w0) && Between(lo, hi, q1, w1)
    requires q == q0 + q1 && w == w0 + w1
    ensures Between(lo, hi, q, w)
  {
  }

  /** Dividing `lo·q <= w <= hi·q` by a positive `q`. */
  lemma DivideBetween(w: real, q: real, lo: real, hi: real)
    requires q > 0.0 && Between(lo, hi, q, w)
    ensures lo <= w / q <= hi
  {
    assert (w / q) * q == w;
  }

  /**
   * When no quantity of the group is negative, its average cost is a weighted
   * mean: it lies between the smallest and largest cost of the rows that
   * carry quantity.
   */
  lemma GroupAverageIsWeightedMean(rows: seq<SaleRow>, k: GroupKey, lo: real, hi: real)
    requires NoNegativeQuantity(rows, k) && CostsWithin(rows, k, lo, hi)
    requires GroupQuantity(rows, k) > 0.0
    ensures lo <= GroupAverageCost(rows, k) <= hi
  {
    GroupWeightBetween(rows, k, lo, hi);
    DivideBetween(GroupWeight(rows, k), GroupQuantity(rows, k), lo, hi);
  }

  // ---------------------------------------------------------------------
  // Stage 2: per-product fallback cost (GenelUrunMaliyeti)
  // ---------------------------------------------------------------------

  /** A row of product `code` whose coalesced cost is a valid (positive) observation. */
  predicate ValidCostOf(r: SaleRow, code: string) {
    r.code == Some(code) && UnitCost(r) > 0.0
  }

  /**
   * `MAX(COALESCE(MALIYET, ALISFIYATI, 0)) ... WHERE COALESCE(...) > 0 GROUP BY STOK_KODU`
   * for one code: the largest positive cost ever recorded for it, over the
   * whole table, or no row at all when it has none.
   */
  function FallbackCost(rows: seq<SaleRow>, code: string): (r: Option<real>)
    ensures r.None? <==> forall i :: 0 <= i < |rows| ==> !ValidCostOf(rows[i], code)
    ensures r.Some? ==> (r.value > 0.0
      && (exists i :: 0 <= i < |rows| && ValidCostOf(rows[i], code) && UnitCost(rows[i]) == r.value)
      && (forall i :: 0 <= i < |rows| && ValidCostOf(rows[i], code) ==> UnitCost(rows[i]) <= r.value))
  {
    if rows == [] then None
    else
      var rest := FallbackCost(rows[1..], code);
      var here := rows[0];
      var r :=
        if !ValidCostOf(here, code) then rest
        else if rest.None? || rest.value < UnitCost(here) then Some(UnitCost(here))
        else rest;
      assert forall i :: 1 <= i < |rows| ==> rows[i] == rows[1..][i - 1];
      assert r.Some? && r != rest ==> ValidCostOf(rows[0], code) && UnitCost(rows[0]) == r.value;
      assert r.Some? && r == rest ==> exists i :: 0 <= i < |rows| && ValidCostOf(rows[i], code) && UnitCost(rows[i]) == r.value by {
        if r.Some? && r == rest {
          var j :| 0 <= j < |rows[1..]| && ValidCostOf(rows[1..][j], code) && UnitCost(rows[1..][j]) == r.value;
          assert rows[j + 1] == rows[1..][j];
        }
      }
      r
  }

  // ---------------------------------------------------------------------
  // Stage 3: resolution (AnaVeri.DogruBirimMaliyet)
  // ---------------------------------------------------------------------

  /**
   * The LEFT JOIN of a row with its transaction group: NULL when any key
   * column is NULL, since NULL never equals NULL in a join condition. (A
   * group missing from the table would average to 0, which the NULLIF below
   * treats exactly as the missing join row.)
   */
  function JoinedAverage(table: seq<SaleRow>, r: SaleRow): Option<real> {
    if r.date.Some? && r.customer.Some? && r.code.Some? then Some(GroupAverageCost(table, KeyOf(r)))
    else None
  }

  /** The LEFT JOIN of a row with the fallback costs: NULL for a NULL code. */
  function JoinedFallback(table: seq<SaleRow>, r: SaleRow): Option<real> {
    if r.code.Some? then FallbackCost(table, r.code.value) else None
  }

  /** `NULLIF(x, 0)`. */
  function NullIfZero(x: Option<real>): Option<real> {
    if x == Some(0.0) then None else x
  }

  /**
   * `COALESCE(NULLIF(group average, 0), fallback, 0)`: the true unit cost of
   * row `r`, with both helper tables computed over the whole `table`.
   */
  function TrueUnitCost(table: seq<SaleRow>, r: SaleRow): (c: real)
    ensures JoinedAverage(table, r).Some? && JoinedAverage(table, r).value != 0.0 ==>
      c == GroupAverageCost(table, KeyOf(r))
    ensures (JoinedAverage(table, r).None? || JoinedAverage(table, r).value == 0.0) ==>
      c == (if r.code.Some? then FallbackCost(table, r.code.value).GetOr(0.0) else 0.0)
    ensures r.code.None? ==> c == 0.0
  {
    var avg := NullIfZero(JoinedAverage(table, r));
    if avg.Some? then avg.value else JoinedFallback(table, r).GetOr(0.0)
  }

  /**
   * A product whose every cost observation in the whole table is missing or
   * zero gets cost 0 (so its profit equals its revenue), whatever its
   * transaction groups hold.
   */
  lemma {:induction false} NoCostEverGivesZero(table: seq<SaleRow>, r: SaleRow)
    requires forall i :: 0 <= i < |table| && table[i].code == r.code ==> UnitCost(table[i]) == 0.0
    ensures TrueUnitCost(table, r) == 0.0
  {
    if r.code.Some? {
      ZeroCostsGiveZeroWeight(table, KeyOf(r));
      assert FallbackCost(table, r.code.value).None?;
    }
  }

  lemma {:induction false} ZeroCostsGiveZeroWeight(rows: seq<SaleRow>, k: GroupKey)
    requires forall i :: 0 <= i < |rows| && rows[i].code == k.code ==> UnitCost(rows[i]) == 0.0
    ensures GroupWeight(rows, k) == 0.0
  {
    if rows != [] {
      ZeroCostsGiveZeroWeight(rows[1..], k);
    }
  }

  /**
   * Without a positive cost the cost is not necessarily 0: a negative
   * recorded cost on a row with negative quantity can give the group a
   * positive average, which the resolution then keeps.
   */
  lemma NegativeCostsCanYieldPositiveCost()
    ensures var d := Some(Date(2025, 1, 2));
      var a := SaleRow(d, Some(2025), Some(1), Some("F"), None, Some("T"), Some("K"), Some("U"),
                       None, None, Some(2.0), None, Some(10.0), Some(-1.0), None);
      var b := a.(quantity := Some(-1.0), cost := Some(-5.0));
      var table := [a, b];
      (forall i :: 0 <= i < |table| ==> !ValidCostOf(table[i], "K")) && TrueUnitCost(table, a) == 3.0
  {
    var d := Some(Date(2025, 1, 2));
    var a := SaleRow(d, Some(2025), Some(1), Some("F"), None, Some("T"), Some("K"), Some("U"),
                     None, None, Some(2.0), None, Some(10.0), Some(-1.0), None);
    var b := a.(quantity := Some(-1.0), cost := Some(-5.0));
    var table := [a, b];
    var k := KeyOf(a);
    assert KeyOf(b) == k;
    assert RowQuantity(a, k) == 2.0 && RowWeight(a, k) == -2.0;
    assert RowQuantity(b, k) == -1.0 && RowWeight(b, k) == 5.0;
    assert [b][1..] == [];
    assert GroupQuantity([b][1..], k) == 0.0 && GroupWeight([b][1..], k) == 0.0;
    assert GroupQuantity([b], k) == -1.0 && GroupWeight([b], k) == 5.0;
    assert table[1..] == [b];
    assert GroupQuantity(table, k) == 1.0 && GroupWeight(table, k) == 3.0;
  }

  /**
   * The resolved cost can also be negative: a group whose only row has
   * quantity 1 and recorded cost -1 averages to -1, which is not 0 and so
   * is kept.
   */
  lemma NegativeCostCanSurvive()
    ensures var a := SaleRow(Some(Date(2025, 1, 2)), Some(2025), Some(1), Some("F"), None, Some("T"), Some("K"),
                             Some("U"), None, None, Some(1.0), None, Some(10.0), Some(-1.0), None);
      TrueUnitCost([a], a) == -1.0
  {
    var a := SaleRow(Some(Date(2025, 1, 2)), Some(2025), Some(1), Some("F"), None, Some("T"), Some("K"),
                     Some("U"), None, None, Some(1.0), None, Some(10.0), Some(-1.0), None);
    var k := KeyOf(a);
    assert [a][1..] == [];
    assert GroupQuantity([a], k) == 1.0 && GroupWeight([a], k) == -1.0;
  }

  // ---------------------------------------------------------------------
  // Row selection
  // ---------------------------------------------------------------------

  /** The rows a WHERE clause keeps, in table order. */
  function Where(rows: seq<SaleRow>, keep: SaleRow -> bool): (r: seq<SaleRow>)
    ensures |r| <= |rows|
    ensures forall i :: 0 <= i < |r| ==> keep(r[i]) && r[i] in rows
    ensures forall j :: 0 <= j < |rows| && keep(rows[j]) ==> rows[j] in r
    ensures r == [] <==> forall j :: 0 <= j < |rows| ==> !keep(rows[j])
  {
    if rows == [] then []
    else (if keep(rows[0]) then [rows[0]] else []) + Where(rows[1..], keep)
  }

  // ---------------------------------------------------------------------
  // Revenue and profit sums
  // ---------------------------------------------------------------------

  /** How SUM accumulates: NULL terms are skipped, and the sum of no terms is NULL. */
  function SqlAdd(a: Option<real>, b: Option<real>): Option<real> {
    match a
    case None => b
    case Some(x) => Some(x + b.GetOr(0.0))
  }

  /** `SUM(TUTAR)`. */
  function Revenue(rows: seq<SaleRow>): (s: Option<real>)
    ensures s.None? <==> forall i :: 0 <= i < |rows| ==> rows[i].amount.None?
    ensures (forall i :: 0 <= i < |rows| && rows[i].amount.Some? ==> rows[i].amount.value >= 0.0) ==>
      s.GetOr(0.0) >= 0.0
  {
    if rows == [] then None
    else
      assert forall i :: 1 <= i < |rows| ==> rows[i] == rows[1..][i - 1];
      SqlAdd(rows[0].amount, Revenue(rows[1..]))
  }

  /** `TUTAR - (MIKTAR * DogruBirimMaliyet)`: NULL when either column is NULL. */
  function ProfitTerm(table: seq<SaleRow>, r: SaleRow): Option<real> {
    if r.amount.Some? && r.quantity.Some? then Some(r.amount.value - r.quantity.value * TrueUnitCost(table, r))
    else None
  }

  /** `SUM(TUTAR - (MIKTAR * DogruBirimMaliyet))` over `rows`, costs resolved against `table`. */
  function Profit(table: seq<SaleRow>, rows: seq<SaleRow>): (s: Option<real>)
    ensures s.None? <==> forall i :: 0 <= i < |rows| ==> rows[i].amount.None? || rows[i].quantity.None?
  {
    if rows == [] then None
    else
      assert forall i :: 1 <= i < |rows| ==> rows[i] == rows[1..][i - 1];
      SqlAdd(ProfitTerm(table, rows[0]), Profit(table, rows[1..]))
  }

  /**
   * `SUM(TUTAR)` with the WHERE test applied term by term: a row `keep`
   * rejects contributes NULL, which SUM skips. The reference for
   * `Revenue(Where(rows, keep))`.
   */
  function AmountWhere(rows: seq<SaleRow>, keep: SaleRow -> bool): Option<real> {
    if rows == [] then None
    else SqlAdd(if keep(rows[0]) then rows[0].amount else None, AmountWhere(rows[1..], keep))
  }

  /** The profit sum with the WHERE test applied term by term, the reference for `Profit(table, Where(rows, keep))`. */
  function ProfitWhere(table: seq<SaleRow>, rows: seq<SaleRow>, keep: SaleRow -> bool): Option<real> {
    if rows == [] then None
    else SqlAdd(if keep(rows[0]) then ProfitTerm(table, rows[0]) else None, ProfitWhere(table, rows[1..], keep))
  }

  /** Filtering first and summing the kept rows is summing with the filter applied per row. */
  lemma {:induction false} SumsOfWhere(table: seq<SaleRow>, rows: seq<SaleRow>, keep: SaleRow -> bool)
    ensures Revenue(Where(rows, keep)) == AmountWhere(rows, keep)
    ensures Profit(table, Where(rows, keep)) == ProfitWhere(table, rows, keep)
  {
    if rows != [] {
      SumsOfWhere(table, rows[1..], keep);
      var rest := Where(rows[1..], keep);
      if keep(rows[0]) {
        assert ([rows[0]] + rest)[1..] == rest;
      } else {
        assert [] + rest == rest;
      }
    }
  }

  /** Two WHERE passes are one pass with the conjunction of their tests. */
  lemma {:induction false} WhereComposes(rows: seq<SaleRow>, p: SaleRow -> bool, q: SaleRow -> bool, pq: SaleRow -> bool)
    requires forall r :: pq(r) == (p(r) && q(r))
    ensures Where(Where(rows, p), q) == Where(rows, pq)
  {
    if rows != [] {
      WhereComposes(rows[1..], p, q, pq);
      var rest := Where(rows[1..], p);
      if p(rows[0]) {
        assert ([rows[0]] + rest)[1..] == rest;
      } else {
        assert [] + rest == rest;
      }
    }
  }

  /** Σ MIKTAR × DogruBirimMaliyet with the stored (signed) quantity. */
  function CostOfGoods(table: seq<SaleRow>, rows: seq<SaleRow>): real {
    if rows == [] then 0.0
    else (if rows[0].quantity.Some? then rows[0].quantity.value * TrueUnitCost(table, rows[0]) else 0.0)
         + CostOfGoods(table, rows[1..])
  }

  /**
   * Profit is revenue less the cost of the quantities as stored: a return
   * line (negative quantity and amount) is not sign-flipped, it simply
   * subtracts its amount and adds back its cost.
   */
  lemma {:induction false} ProfitIsRevenueLessCost(table: seq<SaleRow>, rows: seq<SaleRow>)
    requires forall i :: 0 <= i < |rows| ==> rows[i].amount.Some? && rows[i].quantity.Some?
    ensures Profit(table, rows).GetOr(0.0) == Revenue(rows).GetOr(0.0) - CostOfGoods(table, rows)
  {
    if rows != [] {
      assert forall i :: 1 <= i < |rows| ==> rows[i] == rows[1..][i - 1];
      ProfitIsRevenueLessCost(table, rows[1..]);
    }
  }

  /**
   * The worked example of the cost policy: two lines of one transaction
   * group, 10 units at MALIYET 5 and 10 units with no MALIYET but ALISFIYATI
   * 7, average (10·5 + 10·7)/20 = 6; with amounts totalling 200 the profit
   * is 200 − 20·6 = 80.
   */
  lemma WorkedExample()
    ensures var d := Some(Date(2025, 3, 4));
      var a := SaleRow(d, Some(2025), Some(3), Some("F"), None, Some("T"), Some("P"), Some("U"),
                       None, None, Some(10.0), None, Some(120.0), Some(5.0), None);
      var b := a.(cost := None, purchasePrice := Some(7.0), amount := Some(80.0));
      var table := [a, b];
      TrueUnitCost(table, a) == 6.0 && TrueUnitCost(table, b) == 6.0
      && Revenue(table) == Some(200.0) && Profit(table, table) == Some(80.0)
  {
    var d := Some(Date(2025, 3, 4));
    var a := SaleRow(d, Some(2025), Some(3), Some("F"), None, Some("T"), Some("P"), Some("U"),
                     None, None, Some(10.0), None, Some(120.0), Some(5.0), None);
    var b := a.(cost := None, purchasePrice := Some(7.0), amount := Some(80.0));
    var table := [a, b];
    assert KeyOf(a) == KeyOf(b);
    var k := KeyOf(a);
    assert table[1..] == [b] && [b][1..] == [];
    assert GroupQuantity([b], k) == 10.0 && GroupWeight([b], k) == 70.0;
    assert GroupQuantity(table, k) == 20.0 && GroupWeight(table, k) == 120.0;
  }

  // ---------------------------------------------------------------------
  // Current name per product code (GUNCEL_URUNLER_SUBQUERY)
  // ---------------------------------------------------------------------

  /** `STOK_KODU IS NOT NULL AND STOK_KODU <> ''`. */
  predicate IsCatalogued(r: SaleRow) {
    r.code.Some? && r.code.value != ""
  }

  /**
   * `a` may be numbered before `b` under `ORDER BY TARIH DESC`: a later date
   * first, and NULL dates last (SQL Server sorts NULL lowest).
   */
  predicate SortsFirst(a: Option<Date>, b: Option<Date>) {
    match (a, b)
    case (Some(x), Some(y)) => LessEq(y, x)
    case (Some(_), None) => true
    case (None, None) => true
    case (None, Some(_)) => false
  }

  lemma SortsFirstTotal(a: Option<Date>, b: Option<Date>, c: Option<Date>)
    ensures SortsFirst(a, b) || SortsFirst(b, a)
    ensures SortsFirst(a, b) && SortsFirst(b, c) ==> SortsFirst(a, c)
  {
  }

  /** Index of a row `ROW_NUMBER() OVER (PARTITION BY STOK_KODU ORDER BY TARIH DESC)` may number 1. */
  predicate IsLatestOf(table: seq<SaleRow>, code: string, i: int) {
    0 <= i < |table| && table[i].code == Some(code)
    && forall j :: 0 <= j < |table| && table[j].code == Some(code) ==> SortsFirst(table[i].date, table[j].date)
  }

  function LatestFrom(table: seq<SaleRow>, code: string, k: nat, best: Option<nat>): (r: Option<nat>)
    requires k <= |table|
    requires best.Some? ==> (best.value < k && table[best.value].code == Some(code)
      && forall j :: 0 <= j < k && table[j].code == Some(code) ==> SortsFirst(table[best.value].date, table[j].date))
    requires best.None? ==> forall j :: 0 <= j < k ==> table[j].code != Some(code)
    ensures r.Some? ==> IsLatestOf(table, code, r.value)
    ensures r.None? ==> forall j :: 0 <= j < |table| ==> table[j].code != Some(code)
    decreases |table| - k
  {
    if k == |table| then best
    else if table[k].code != Some(code) then LatestFrom(table, code, k + 1, best)
    else if best.None? || !SortsFirst(table[best.value].date, table[k].date) then
      assert best.Some? ==> SortsFirst(table[k].date, table[best.value].date) by {
        if best.Some? { SortsFirstTotal(table[k].date, table[best.value].date, None); }
      }
      assert forall j :: 0 <= j < k && table[j].code == Some(code) ==> SortsFirst(table[k].date, table[j].date) by {
        forall j | 0 <= j < k && table[j].code == Some(code)
          ensures SortsFirst(table[k].date, table[j].date)
        {
          SortsFirstTotal(table[k].date, table[best.value].date, table[j].date);
        }
      }
      LatestFrom(table, code, k + 1, Some(k))
    else
      LatestFrom(table, code, k + 1, best)
  }

  /**
   * The row numbered 1 for `code`: a row of that code with the latest date
   * (NULL dates only when every date is NULL); among equal dates the first
   * in table order, one of the orders the database may choose.
   */
  function LatestRow(table: seq<SaleRow>, code: string): (r: Option<nat>)
    ensures r.Some? ==> IsLatestOf(table, code, r.value)
    ensures r.None? <==> forall j :: 0 <= j < |table| ==> table[j].code != Some(code)
  {
    LatestFrom(table, code, 0, None)
  }

  /** `gu.STOK_ADI` for `code`: the name on its latest row (which may itself be NULL). */
  function CurrentName(table: seq<SaleRow>, code: string): Option<string> {
    match LatestRow(table, code)
    case Some(i) => table[i].name
    case None => None
  }

  /** A row joins `GUNCEL_URUNLER_SUBQUERY` on STOK_KODU when its code is catalogued. */
  lemma CataloguedRowsJoin(table: seq<SaleRow>, i: int)
    requires 0 <= i < |table| && IsCatalogued(table[i])
    ensures LatestRow(table, table[i].code.value).Some?
  {
  }
}
