/**
 * The `supplier_kpis` query: suppliers joined with their purchase orders
 * and those orders' deliveries (inner joins), two derived columns per
 * joined row, one aggregated row per supplier, ordered by supplier id.
 */
module Kpis {

  import opened Options
  import opened Sorting
  import opened Tables
  import opened Aggregates

  /** One row of the `joined` CTE: a supplier, one of its orders and a delivery of that order. */
  datatype JoinedRow = JoinedRow(supplier: Supplier, order: PurchaseOrder, delivery: Delivery)

  /** The two join conditions: supplier to order, order to delivery. */
  predicate Matches(s: Supplier, po: PurchaseOrder, d: Delivery)
  {
    s.supplierId == po.supplierId && po.poId == d.poId
  }

  /** `delivery_delay_days`, the signed number of days from promised date to delivery date. */
  function DelayDays(r: JoinedRow): (days: int)
    ensures days < 0 <==> r.delivery.deliveryDate < r.order.promisedDate
    ensures days == 0 <==> r.delivery.deliveryDate == r.order.promisedDate
    ensures r.order.promisedDate + days == r.delivery.deliveryDate
  {
    r.delivery.deliveryDate - r.order.promisedDate
  }

  /** `on_time_flag`: 1 for a delivery on or before the promised date, else 0. */
  function OnTimeFlag(r: JoinedRow): (flag: int)
    ensures flag == 0 || flag == 1
    ensures flag == 1 <==> DelayDays(r) <= 0
  {
    if r.delivery.deliveryDate <= r.order.promisedDate then 1 else 0
  }

  // ---------------------------------------------------------------- the join

  /** The joined rows contributed by one order of supplier `s`. */
  function JoinDeliveries(s: Supplier, po: PurchaseOrder, ds: seq<Delivery>): (rows: seq<JoinedRow>)
    ensures forall r :: r in rows <==>
      exists d :: d in ds && po.poId == d.poId && r == JoinedRow(s, po, d)
  {
    if ds == [] then []
    else
      assert ds == [ds[0]] + ds[1..];
      (if po.poId == ds[0].poId then [JoinedRow(s, po, ds[0])] else [])
      + JoinDeliveries(s, po, ds[1..])
  }

  /** The joined rows contributed by supplier `s`. */
  function JoinOrders(s: Supplier, pos: seq<PurchaseOrder>, ds: seq<Delivery>): (rows: seq<JoinedRow>)
    ensures forall r :: r in rows <==>
      exists po, d :: po in pos && d in ds && Matches(s, po, d) && r == JoinedRow(s, po, d)
  {
    if pos == [] then []
    else
      assert pos == [pos[0]] + pos[1..];
      (if s.supplierId == pos[0].supplierId then JoinDeliveries(s, pos[0], ds) else [])
      + JoinOrders(s, pos[1..], ds)
  }

  /** suppliers JOIN purchase_orders JOIN deliveries: exactly the matching triples. */
  function Join(ss: seq<Supplier>, pos: seq<PurchaseOrder>, ds: seq<Delivery>): (rows: seq<JoinedRow>)
    ensures forall r :: r in rows <==>
      exists s, po, d :: s in ss && po in pos && d in ds && Matches(s, po, d) && r == JoinedRow(s, po, d)
  {
    if ss == [] then []
    else
      assert ss == [ss[0]] + ss[1..];
      JoinOrders(ss[0], pos, ds) + Join(ss[1..], pos, ds)
  }

  /** An order without a delivery contributes no joined row. */
  lemma OrphanOrderExcluded(ss: seq<Supplier>, pos: seq<PurchaseOrder>, ds: seq<Delivery>, poId: string)
    requires forall d :: d in ds ==> d.poId != poId
    ensures forall r :: r in Join(ss, pos, ds) ==> r.order.poId != poId
  {
  }

  /** A delivery whose order is missing (or belongs to no supplier) contributes no joined row. */
  lemma OrphanDeliveryExcluded(ss: seq<Supplier>, pos: seq<PurchaseOrder>, ds: seq<Delivery>, d: Delivery)
    requires forall s, po :: s in ss && po in pos ==> !Matches(s, po, d)
    ensures forall r :: r in Join(ss, pos, ds) ==> r.delivery != d
  {
  }

  // ---------------------------------------------------------------- multiplicities

  /**
   * The inner join is a bag: a row occurs once per copy of its delivery in
   * `ds`, provided the row is for supplier `s` and order `po` and the ids match.
   */
  lemma {:induction false} JoinDeliveriesCount(s: Supplier, po: PurchaseOrder, ds: seq<Delivery>, r: JoinedRow)
    ensures multiset(JoinDeliveries(s, po, ds))[r] ==
      if r.supplier == s && r.order == po && po.poId == r.delivery.poId then multiset(ds)[r.delivery] else 0
  {
    if ds != [] {
      assert ds == [ds[0]] + ds[1..];
      JoinDeliveriesCount(s, po, ds[1..], r);
      var head := if po.poId == ds[0].poId then [JoinedRow(s, po, ds[0])] else [];
      assert JoinDeliveries(s, po, ds) == head + JoinDeliveries(s, po, ds[1..]);
      assert multiset(ds)[r.delivery] == multiset([ds[0]])[r.delivery] + multiset(ds[1..])[r.delivery];
    }
  }

  /**
   * A row joined through supplier `s` occurs (copies of its order) times
   * (copies of its delivery) times, and not at all unless it matches.
   */
  lemma {:induction false} JoinOrdersCount(s: Supplier, pos: seq<PurchaseOrder>, ds: seq<Delivery>, r: JoinedRow)
    ensures multiset(JoinOrders(s, pos, ds))[r] ==
      if r.supplier == s && Matches(s, r.order, r.delivery)
      then multiset(pos)[r.order] * multiset(ds)[r.delivery]
      else 0
  {
    if pos != [] {
      var head := if s.supplierId == pos[0].supplierId then JoinDeliveries(s, pos[0], ds) else [];
      var tail := JoinOrders(s, pos[1..], ds);
      var m := r.supplier == s && Matches(s, r.order, r.delivery);
      JoinOrdersSplit(s, pos, ds);
      CountAppend(head, tail, r);
      JoinDeliveriesCount(s, pos[0], ds, r);
      JoinOrdersCount(s, pos[1..], ds, r);
      CountCons(pos, r.order);
      CountStep(multiset(head)[r], multiset(tail)[r],
        if pos[0] == r.order then 1 else 0, multiset(pos[1..])[r.order], multiset(pos)[r.order],
        multiset(ds)[r.delivery], m);
    }
  }

  /**
   * Each matching (supplier, order, delivery) triple occurs in the join as
   * many times as the product of the copies of its three parts; any other row
   * does not occur.
   */
  lemma {:induction false} JoinCount(ss: seq<Supplier>, pos: seq<PurchaseOrder>, ds: seq<Delivery>, r: JoinedRow)
    ensures multiset(Join(ss, pos, ds))[r] ==
      if Matches(r.supplier, r.order, r.delivery)
      then multiset(ss)[r.supplier] * (multiset(pos)[r.order] * multiset(ds)[r.delivery])
      else 0
  {
    if ss != [] {
      var head := JoinOrders(ss[0], pos, ds);
      var tail := Join(ss[1..], pos, ds);
      var m := Matches(r.supplier, r.order, r.delivery);
      JoinSplit(ss, pos, ds);
      CountAppend(head, tail, r);
      JoinOrdersCount(ss[0], pos, ds, r);
      JoinCount(ss[1..], pos, ds, r);
      CountCons(ss, r.supplier);
      CountStepFirst(multiset(head)[r], multiset(tail)[r], multiset(ss[1..])[r.supplier], multiset(ss)[r.supplier],
        (multiset(pos)[r.order] as int) * (multiset(ds)[r.delivery] as int), m,
        r.supplier == ss[0] && Matches(ss[0], r.order, r.delivery), ss[0] == r.supplier);
    }
  }

  /**
   * The same step when the head's count is stated through its own match
   * condition `hm`, which holds when the head is `x` and the row matches.
   */
  lemma CountStepFirst(head: int, tail: int, rest: int, total: int, n: int, m: bool, hm: bool, isFirst: bool)
    requires head == if hm then n else 0
    requires tail == if m then rest * n else 0
    requires total == (if isFirst then 1 else 0) + rest
    requires hm == (isFirst && m)
    ensures head + tail == if m then total * n else 0
  {
    if m {
      assert total * n == (if isFirst then 1 else 0) * n + rest * n;
    }
  }

  lemma JoinOrdersSplit(s: Supplier, pos: seq<PurchaseOrder>, ds: seq<Delivery>)
    requires pos != []
    ensures JoinOrders(s, pos, ds) ==
      (if s.supplierId == pos[0].supplierId then JoinDeliveries(s, pos[0], ds) else [])
      + JoinOrders(s, pos[1..], ds)
  {
  }

  lemma JoinSplit(ss: seq<Supplier>, pos: seq<PurchaseOrder>, ds: seq<Delivery>)
    requires ss != []
    ensures Join(ss, pos, ds) == JoinOrders(ss[0], pos, ds) + Join(ss[1..], pos, ds)
  {
  }

  /** Copies in a concatenation add up. */
  lemma CountAppend<T>(a: seq<T>, b: seq<T>, x: T)
    ensures multiset(a + b)[x] == multiset(a)[x] + multiset(b)[x]
  {
  }

  /** Copies in a non-empty sequence: one for a matching head, plus those in the tail. */
  lemma CountCons<T>(xs: seq<T>, x: T)
    requires xs != []
    ensures multiset(xs)[x] == (if xs[0] == x then 1 else 0) + multiset(xs[1..])[x]
  {
    assert xs == [xs[0]] + xs[1..];
  }

  /** Adding the copies from the first element to those from the rest, factor by factor. */
  lemma CountStep(head: int, tail: int, first: int, rest: int, total: int, n: int, m: bool)
    requires head == if m then first * n else 0
    requires tail == if m then rest * n else 0
    requires total == first + rest
    ensures head + tail == if m then total * n else 0
  {
    if m {
      assert total * n == first * n + rest * n;
    }
  }

  // ---------------------------------------------------------------- grouping

  /** The group of the joined rows whose grouping key (the supplier's columns) is `s`. */
  function GroupRows(rows: seq<JoinedRow>, s: Supplier): (g: seq<JoinedRow>)
    ensures forall r :: r in g <==> r in rows && r.supplier == s
    ensures |g| <= |rows|
  {
    if rows == [] then []
    else
      assert rows == [rows[0]] + rows[1..];
      (if rows[0].supplier == s then [rows[0]] else []) + GroupRows(rows[1..], s)
  }

  lemma {:induction false} GroupRowsAppend(a: seq<JoinedRow>, b: seq<JoinedRow>, s: Supplier)
    ensures GroupRows(a + b, s) == GroupRows(a, s) + GroupRows(b, s)
  {
    if a == [] {
      assert a + b == b;
    } else {
      assert (a + b)[1..] == a[1..] + b;
      GroupRowsAppend(a[1..], b, s);
    }
  }

  lemma {:induction false} GroupRowsAll(rows: seq<JoinedRow>, s: Supplier)
    requires forall r :: r in rows ==> r.supplier == s
    ensures GroupRows(rows, s) == rows
  {
    if rows != [] {
      assert rows == [rows[0]] + rows[1..];
      GroupRowsAll(rows[1..], s);
    }
  }

  lemma {:induction false} GroupRowsNone(rows: seq<JoinedRow>, s: Supplier)
    requires forall r :: r in rows ==> r.supplier != s
    ensures GroupRows(rows, s) == []
  {
    if rows != [] {
      assert rows == [rows[0]] + rows[1..];
      GroupRowsNone(rows[1..], s);
    }
  }

  /**
   * With unique supplier ids, the GROUP BY group of a supplier is exactly
   * the rows that supplier's own orders and deliveries produce.
   */
  lemma {:induction false} GroupOfJoin(ss: seq<Supplier>, pos: seq<PurchaseOrder>, ds: seq<Delivery>, s: Supplier)
    requires UniqueSupplierIds(ss)
    requires s in ss
    ensures GroupRows(Join(ss, pos, ds), s) == JoinOrders(s, pos, ds)
  {
    var t := ss[0];
    assert ss == [t] + ss[1..];
    GroupRowsAppend(JoinOrders(t, pos, ds), Join(ss[1..], pos, ds), s);
    UniqueIdsTail(ss);
    if t == s {
      GroupRowsAll(JoinOrders(t, pos, ds), s);
      GroupRowsNone(Join(ss[1..], pos, ds), s);
      assert JoinOrders(s, pos, ds) + [] == JoinOrders(s, pos, ds);
    } else {
      GroupRowsNone(JoinOrders(t, pos, ds), s);
      GroupOfJoin(ss[1..], pos, ds, s);
    }
  }

  // ---------------------------------------------------------------- aggregation

  /** One row of `supplier_kpis`. `fillRate` is NULL when nothing was ordered. */
  datatype SupplierKpi = SupplierKpi(
    supplier: Supplier,
    onTimeDeliveryRate: real,
    avgDeliveryDelayDays: real,
    fillRate: Option<real>,
    qualityIssueRate: real,
    nPos: nat)

  function OnTimeFlags(g: seq<JoinedRow>): seq<int>
  {
    seq(|g|, i requires 0 <= i < |g| => OnTimeFlag(g[i]))
  }

  function Delays(g: seq<JoinedRow>): seq<int>
  {
    seq(|g|, i requires 0 <= i < |g| => DelayDays(g[i]))
  }

  function QuantitiesOrdered(g: seq<JoinedRow>): seq<int>
  {
    seq(|g|, i requires 0 <= i < |g| => g[i].order.quantityOrdered)
  }

  function QuantitiesDelivered(g: seq<JoinedRow>): seq<int>
  {
    seq(|g|, i requires 0 <= i < |g| => g[i].delivery.quantityDelivered)
  }

  function QualityFlags(g: seq<JoinedRow>): seq<int>
  {
    seq(|g|, i requires 0 <= i < |g| => g[i].delivery.qualityIssues)
  }

  /** The number of rows of `g` delivered on or before the promised date. */
  function OnTimeCount(g: seq<JoinedRow>): nat
  {
    if g == [] then 0
    else (if g[0].delivery.deliveryDate <= g[0].order.promisedDate then 1 else 0) + OnTimeCount(g[1..])
  }

  /** Summing the on-time flags counts the rows delivered on time. */
  lemma {:induction false} OnTimeFlagsCount(g: seq<JoinedRow>)
    ensures Sum(OnTimeFlags(g)) == OnTimeCount(g) <= |g|
  {
    if g != [] {
      assert OnTimeFlags(g) == [OnTimeFlag(g[0])] + OnTimeFlags(g[1..]);
      SumAppend([OnTimeFlag(g[0])], OnTimeFlags(g[1..]));
      OnTimeFlagsCount(g[1..]);
    }
  }

  /** The flags are 0 or 1; all are 1 exactly when every row is on time, all 0 exactly when none is. */
  lemma OnTimeFlagsMeaning(g: seq<JoinedRow>)
    ensures forall x :: x in OnTimeFlags(g) ==> 0 <= x <= 1
    ensures (forall x :: x in OnTimeFlags(g) ==> x == 1) <==>
      forall r :: r in g ==> r.delivery.deliveryDate <= r.order.promisedDate
    ensures (forall x :: x in OnTimeFlags(g) ==> x == 0) <==>
      forall r :: r in g ==> r.delivery.deliveryDate > r.order.promisedDate
  {
    var flags := OnTimeFlags(g);
    assert forall r :: r in g ==> OnTimeFlag(r) in flags by {
      forall r | r in g ensures OnTimeFlag(r) in flags {
        var i :| 0 <= i < |g| && g[i] == r;
        assert flags[i] == OnTimeFlag(r);
      }
    }
  }

  /** AVG(on_time_flag): the share of the group delivered on or before the promised date. */
  function OnTimeRate(g: seq<JoinedRow>): (rate: real)
    requires g != []
    ensures rate * |g| as real == OnTimeCount(g) as real
    ensures 0.0 <= rate <= 1.0
    ensures rate == 1.0 <==> forall r :: r in g ==> r.delivery.deliveryDate <= r.order.promisedDate
    ensures rate == 0.0 <==> forall r :: r in g ==> r.delivery.deliveryDate > r.order.promisedDate
  {
    var flags := OnTimeFlags(g);
    OnTimeFlagsCount(g);
    AvgOfLength(flags, |g|);
    OnTimeFlagsMeaning(g);
    AvgBounds(flags, 0, 1);
    AvgReachesUpperBound(flags, 1);
    AvgReachesLowerBound(flags, 0);
    Avg(flags)
  }

  /**
   * AVG(delivery_delay_days): the group's total delay spread over its rows,
   * so between the smallest and the largest delay.
   */
  function AvgDelay(g: seq<JoinedRow>): (avg: real)
    requires g != []
    ensures avg * |g| as real == Sum(Delays(g)) as real
    ensures MinOf(Delays(g)) as real <= avg <= MaxOf(Delays(g)) as real
  {
    AvgBetweenExtremes(Delays(g), |g|);
    Avg(Delays(g))
  }

  /** SUM(quantity_delivered) / NULLIF(SUM(quantity_ordered), 0). */
  function FillRate(g: seq<JoinedRow>): (fill: Option<real>)
    ensures fill.None? <==> Sum(QuantitiesOrdered(g)) == 0
    ensures fill.Some? ==>
      fill.value * Sum(QuantitiesOrdered(g)) as real == Sum(QuantitiesDelivered(g)) as real
  {
    var ordered := Sum(QuantitiesOrdered(g));
    if ordered == 0 then None else Some(Sum(QuantitiesDelivered(g)) as real / ordered as real)
  }

  /**
   * AVG(quality_issues): the group's total of quality issues spread over its
   * rows, so in [0,1] when every flag of the group is 0 or 1.
   */
  function QualityIssueRate(g: seq<JoinedRow>): (rate: real)
    requires g != []
    ensures rate * |g| as real == Sum(QualityFlags(g)) as real
    ensures (forall r :: r in g ==> 0 <= r.delivery.qualityIssues <= 1) ==> 0.0 <= rate <= 1.0
  {
    var flags := QualityFlags(g);
    assert (forall r :: r in g ==> 0 <= r.delivery.qualityIssues <= 1) ==> 0.0 <= Avg(flags) <= 1.0 by {
      if forall r :: r in g ==> 0 <= r.delivery.qualityIssues <= 1 {
        AvgBounds(flags, 0, 1);
      }
    }
    assert |flags| == |g|;
    Avg(flags)
  }

  /** The aggregates of one non-empty group: the SELECT list of `supplier_kpis`. */
  function Aggregate(s: Supplier, g: seq<JoinedRow>): (k: SupplierKpi)
    requires g != []
    ensures k.supplier == s
    ensures k.nPos == |g| && k.nPos >= 1
    ensures 0.0 <= k.onTimeDeliveryRate <= 1.0
    ensures MinOf(Delays(g)) as real <= k.avgDeliveryDelayDays <= MaxOf(Delays(g)) as real
    ensures k.fillRate.None? <==> Sum(QuantitiesOrdered(g)) == 0
    ensures k.onTimeDeliveryRate == OnTimeRate(g) && k.avgDeliveryDelayDays == AvgDelay(g)
    ensures k.fillRate == FillRate(g) && k.qualityIssueRate == QualityIssueRate(g)
  {
    SupplierKpi(s, OnTimeRate(g), AvgDelay(g), FillRate(g), QualityIssueRate(g), |g|)
  }

  // ---------------------------------------------------------------- the table

  /** Strictly before in `ORDER BY supplier_id`. */
  predicate IdBefore(s: Supplier, t: Supplier)
  {
    StringLe(s.supplierId, t.supplierId) && s.supplierId != t.supplierId
  }

  predicate AscendingIds(ss: seq<Supplier>)
  {
    forall i, j :: 0 <= i < j < |ss| ==> IdBefore(ss[i], ss[j])
  }

  predicate KpisAscending(out: seq<SupplierKpi>)
  {
    forall i, j :: 0 <= i < j < |out| ==> IdBefore(out[i].supplier, out[j].supplier)
  }

  /** One aggregated row per supplier of `sorted` whose group is non-empty, in the order of `sorted`. */
  function KpiRows(sorted: seq<Supplier>, joined: seq<JoinedRow>): (out: seq<SupplierKpi>)
    ensures forall k :: k in out <==>
      && k.supplier in sorted
      && GroupRows(joined, k.supplier) != []
      && k == Aggregate(k.supplier, GroupRows(joined, k.supplier))
  {
    if sorted == [] then []
    else
      var g := GroupRows(joined, sorted[0]);
      assert sorted == [sorted[0]] + sorted[1..];
      (if g == [] then [] else [Aggregate(sorted[0], g)]) + KpiRows(sorted[1..], joined)
  }

  /** Rows come out in the order of the suppliers they aggregate. */
  lemma {:induction false} KpiRowsAscending(sorted: seq<Supplier>, joined: seq<JoinedRow>)
    requires AscendingIds(sorted)
    ensures KpisAscending(KpiRows(sorted, joined))
  {
    if sorted != [] {
      var s := sorted[0];
      var g := GroupRows(joined, s);
      var rest := KpiRows(sorted[1..], joined);
      assert AscendingIds(sorted[1..]) by {
        forall i, j | 0 <= i < j < |sorted[1..]| ensures IdBefore(sorted[1..][i], sorted[1..][j]) {
          assert sorted[1..][i] == sorted[i + 1] && sorted[1..][j] == sorted[j + 1];
        }
      }
      KpiRowsAscending(sorted[1..], joined);
      if g == [] {
        assert KpiRows(sorted, joined) == [] + rest == rest;
      } else {
        forall k | k in rest ensures IdBefore(s, k.supplier) {
          var t := k.supplier;
          var m :| 0 <= m < |sorted[1..]| && sorted[1..][m] == t;
          assert t == sorted[m + 1];
        }
        KpisAscendingCons(Aggregate(s, g), rest);
      }
    }
  }

  lemma KpisAscendingCons(k: SupplierKpi, rest: seq<SupplierKpi>)
    requires KpisAscending(rest)
    requires forall k' :: k' in rest ==> IdBefore(k.supplier, k'.supplier)
    ensures KpisAscending([k] + rest)
  {
    var out := [k] + rest;
    forall i, j | 0 <= i < j < |out| ensures IdBefore(out[i].supplier, out[j].supplier) {
      assert out[j] == rest[j - 1];
      if i > 0 {
        assert out[i] == rest[i - 1];
      }
    }
  }

  /** The sorted supplier table with unique ids is strictly ascending by id. */
  lemma SortedSuppliersAscending(ss: seq<Supplier>)
    requires UniqueSupplierIds(ss)
    ensures TotalPreorder(IdLe)
    ensures AscendingIds(SortBy(ss, IdLe))
    ensures multiset(SortBy(ss, IdLe)) == multiset(ss)
  {
    IdLeIsTotalPreorder();
    var sorted := SortBy(ss, IdLe);
    UniqueIdsPermutation(ss, sorted);
  }

  /** The `supplier_kpis` table. */
  function SupplierKpis(ss: seq<Supplier>, pos: seq<PurchaseOrder>, ds: seq<Delivery>): (out: seq<SupplierKpi>)
    requires UniqueSupplierIds(ss)
    ensures KpisAscending(out)
  {
    SortedSuppliersAscending(ss);
    KpiRowsAscending(SortBy(ss, IdLe), Join(ss, pos, ds));
    KpiRows(SortBy(ss, IdLe), Join(ss, pos, ds))
  }

  // ---------------------------------------------------------------- properties of the table

  /**
   * A row of `supplier_kpis` is exactly the aggregate of one input supplier
   * that has at least one order with a matching delivery; supplier columns
   * are copied unchanged.
   */
  lemma KpiMembership(ss: seq<Supplier>, pos: seq<PurchaseOrder>, ds: seq<Delivery>, k: SupplierKpi)
    requires UniqueSupplierIds(ss)
    ensures k in SupplierKpis(ss, pos, ds) <==>
      && k.supplier in ss
      && JoinOrders(k.supplier, pos, ds) != []
      && k == Aggregate(k.supplier, JoinOrders(k.supplier, pos, ds))
  {
    SortedSuppliersAscending(ss);
    var sorted := SortBy(ss, IdLe);
    assert k.supplier in sorted <==> k.supplier in multiset(ss);
    if k.supplier in ss {
      GroupOfJoin(ss, pos, ds, k.supplier);
    }
  }

  /** A supplier is in `supplier_kpis` exactly when one of its orders has a delivery (inner join). */
  lemma SupplierPresentIffMatched(ss: seq<Supplier>, pos: seq<PurchaseOrder>, ds: seq<Delivery>, s: Supplier)
    requires UniqueSupplierIds(ss)
    requires s in ss
    ensures (exists k :: k in SupplierKpis(ss, pos, ds) && k.supplier == s) <==>
      (exists po, d :: po in pos && d in ds && Matches(s, po, d))
  {
    var out := SupplierKpis(ss, pos, ds);
    if exists po, d :: po in pos && d in ds && Matches(s, po, d) {
      var po, d :| po in pos && d in ds && Matches(s, po, d);
      assert JoinedRow(s, po, d) in JoinOrders(s, pos, ds);
      KpiMembership(ss, pos, ds, Aggregate(s, JoinOrders(s, pos, ds)));
    }
    if exists k :: k in out && k.supplier == s {
      var k :| k in out && k.supplier == s;
      KpiMembership(ss, pos, ds, k);
      assert JoinOrders(s, pos, ds)[0] in JoinOrders(s, pos, ds);
    }
  }

  /** Each output row's quality-issue rate is in [0,1] when every quality flag is 0 or 1. */
  lemma QualityRateBounded(ss: seq<Supplier>, pos: seq<PurchaseOrder>, ds: seq<Delivery>, k: SupplierKpi)
    requires UniqueSupplierIds(ss)
    requires forall d :: d in ds ==> d.qualityIssues == 0 || d.qualityIssues == 1
    requires k in SupplierKpis(ss, pos, ds)
    ensures 0.0 <= k.qualityIssueRate <= 1.0
  {
    KpiMembership(ss, pos, ds, k);
  }

  /** Sum of `n_pos` over the rows of a KPI table. */
  function TotalPos(out: seq<SupplierKpi>): nat
  {
    if out == [] then 0 else out[0].nPos + TotalPos(out[1..])
  }

  /** Number of joined rows the suppliers `xs` produce, supplier by supplier. */
  function MatchCount(xs: seq<Supplier>, pos: seq<PurchaseOrder>, ds: seq<Delivery>): nat
  {
    if xs == [] then 0 else |JoinOrders(xs[0], pos, ds)| + MatchCount(xs[1..], pos, ds)
  }

  lemma {:induction false} MatchCountAppend(a: seq<Supplier>, b: seq<Supplier>, pos: seq<PurchaseOrder>, ds: seq<Delivery>)
    ensures MatchCount(a + b, pos, ds) == MatchCount(a, pos, ds) + MatchCount(b, pos, ds)
  {
    if a == [] {
      assert a + b == b;
    } else {
      assert (a + b)[1..] == a[1..] + b;
      MatchCountAppend(a[1..], b, pos, ds);
    }
  }

  /** The number of matches does not depend on the order of the suppliers. */
  lemma {:induction false} MatchCountPermutation(a: seq<Supplier>, b: seq<Supplier>, pos: seq<PurchaseOrder>, ds: seq<Delivery>)
    requires multiset(a) == multiset(b)
    ensures MatchCount(a, pos, ds) == MatchCount(b, pos, ds)
    decreases |a|
  {
    if a == [] {
      assert |b| == |multiset(b)| == 0;
    } else {
      var x := a[0];
      assert x in multiset(b);
      var i :| 0 <= i < |b| && b[i] == x;
      var rest := b[..i] + b[i + 1..];
      assert b == b[..i] + ([x] + b[i + 1..]);
      MatchCountAppend(b[..i], [x] + b[i + 1..], pos, ds);
      MatchCountAppend(b[..i], b[i + 1..], pos, ds);
      assert ([x] + b[i + 1..])[1..] == b[i + 1..];
      assert a == [x] + a[1..];
      assert multiset(b) == multiset(b[..i]) + multiset{x} + multiset(b[i + 1..]);
      assert multiset(rest) == multiset(b[..i]) + multiset(b[i + 1..]);
      assert multiset(a) == multiset{x} + multiset(a[1..]);
      assert multiset(a[1..]) == multiset(a) - multiset{x};
      assert multiset(a[1..]) == multiset(rest);
      MatchCountPermutation(a[1..], rest, pos, ds);
    }
  }

  lemma {:induction false} JoinSize(ss: seq<Supplier>, pos: seq<PurchaseOrder>, ds: seq<Delivery>)
    ensures |Join(ss, pos, ds)| == MatchCount(ss, pos, ds)
  {
    if ss != [] {
      JoinSize(ss[1..], pos, ds);
    }
  }

  lemma {:induction false} TotalPosOfKpiRows(xs: seq<Supplier>, ss: seq<Supplier>, pos: seq<PurchaseOrder>, ds: seq<Delivery>)
    requires UniqueSupplierIds(ss)
    requires forall x :: x in xs ==> x in ss
    ensures TotalPos(KpiRows(xs, Join(ss, pos, ds))) == MatchCount(xs, pos, ds)
  {
    if xs != [] {
      var joined := Join(ss, pos, ds);
      assert xs == [xs[0]] + xs[1..];
      GroupOfJoin(ss, pos, ds, xs[0]);
      TotalPosOfKpiRows(xs[1..], ss, pos, ds);
      var g := GroupRows(joined, xs[0]);
      var rest := KpiRows(xs[1..], joined);
      if g == [] {
        assert KpiRows(xs, joined) == rest;
      } else {
        assert KpiRows(xs, joined) == [Aggregate(xs[0], g)] + rest;
        assert (([Aggregate(xs[0], g)] + rest)[1..]) == rest;
      }
    }
  }

  /** The `n_pos` column sums to the size of the join: every joined row is counted once. */
  lemma NPosSumIsJoinSize(ss: seq<Supplier>, pos: seq<PurchaseOrder>, ds: seq<Delivery>)
    requires UniqueSupplierIds(ss)
    ensures TotalPos(SupplierKpis(ss, pos, ds)) == |Join(ss, pos, ds)|
  {
    SortedSuppliersAscending(ss);
    var sorted := SortBy(ss, IdLe);
    assert forall x :: x in sorted ==> x in ss by {
      assert forall x :: x in sorted ==> x in multiset(ss);
    }
    TotalPosOfKpiRows(sorted, ss, pos, ds);
    MatchCountPermutation(sorted, ss, pos, ds);
    JoinSize(ss, pos, ds);
  }
}
