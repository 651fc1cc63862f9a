/**
 * How the generator's tables meet the two queries, and one worked example
 * run through the KPI and risk queries.
 */
module Pipeline {

  import opened Options
  import opened Sorting
  import opened Aggregates
  import opened Tables
  import opened Kpis
  import opened Risk
  import opened Generator

  /** Some row of `rows` joins order `po` with delivery `d`. */
  predicate HasRowFor(rows: seq<JoinedRow>, po: PurchaseOrder, d: Delivery)
  {
    exists r :: r in rows && r.order == po && r.delivery == d
  }

  /**
   * Generated tables leave no orphan order: every purchase order, paired with
   * the delivery generated for it, is a row of the KPI join.
   */
  lemma GeneratedOrdersAllJoin(ss: seq<Supplier>, pos: seq<PurchaseOrder>, ds: seq<Delivery>)
    requires |ds| == |pos|
    requires forall j :: 0 <= j < |pos| ==> ds[j].poId == pos[j].poId
    requires forall po :: po in pos ==> po.supplierId in Ids(ss)
    ensures forall j :: 0 <= j < |pos| ==> HasRowFor(Join(ss, pos, ds), pos[j], ds[j])
  {
    forall j | 0 <= j < |pos| ensures HasRowFor(Join(ss, pos, ds), pos[j], ds[j]) {
      assert pos[j] in pos && ds[j] in ds;
      var s :| s in ss && s.supplierId == pos[j].supplierId;
      assert Matches(s, pos[j], ds[j]);
      assert JoinedRow(s, pos[j], ds[j]) in Join(ss, pos, ds);
    }
  }

  /** On generated tables, a supplier gets a KPI row exactly when some order names it. */
  lemma GeneratedSupplierReportedIffOrdered(ss: seq<Supplier>, pos: seq<PurchaseOrder>, ds: seq<Delivery>, s: Supplier)
    requires UniqueSupplierIds(ss)
    requires s in ss
    requires |ds| == |pos|
    requires forall j :: 0 <= j < |pos| ==> ds[j].poId == pos[j].poId
    ensures (exists k :: k in SupplierKpis(ss, pos, ds) && k.supplier == s) <==>
      (exists po :: po in pos && po.supplierId == s.supplierId)
  {
    SupplierPresentIffMatched(ss, pos, ds, s);
    if exists po :: po in pos && po.supplierId == s.supplierId {
      var po :| po in pos && po.supplierId == s.supplierId;
      var j :| 0 <= j < |pos| && pos[j] == po;
      assert ds[j] in ds && Matches(s, po, ds[j]);
    }
  }

  /**
   * A generated delivery counts as on time in the KPI query exactly when the
   * timing draw missed the supplier's late probability, and its delay lies in
   * [-4, 14] days.
   */
  lemma GeneratedDeliveryOnTimeIff(s: Supplier, po: PurchaseOrder, prof: Profile, d: DeliveryDraw)
    requires ValidDeliveryDraw(d, po.quantityOrdered)
    ensures OnTimeFlag(JoinedRow(s, po, MakeDelivery(po, prof, d))) == 1 <==> prof.lateProb <= d.timing
    ensures -EarlyMaxDays <= DelayDays(JoinedRow(s, po, MakeDelivery(po, prof, d))) <= LateMaxDays
  {
  }

  // ---------------------------------------------------------------- a worked example

  const ExampleSupplier := Supplier("SUP-001", "Acme", "Electronics", "US", 50)

  /** Ordered 2024-01-01 (day 19723), promised 2024-01-10 (day 19732), 100 units. */
  const ExampleOrder := PurchaseOrder("PO-000001", "SUP-001", 19723, 19732, 100)

  /** Delivered 2024-01-12 (day 19734), 80 units, no quality issue. */
  const ExampleDelivery := Delivery("PO-000001", 19734, 80, 0)

  const ExampleKpi := SupplierKpi(ExampleSupplier, 0.0, 2.0, Some(0.8), 0.0, 1)

  const ExampleRow := JoinedRow(ExampleSupplier, ExampleOrder, ExampleDelivery)

  lemma ExampleJoin()
    ensures Join([ExampleSupplier], [ExampleOrder], [ExampleDelivery]) == [ExampleRow]
  {
    assert JoinDeliveries(ExampleSupplier, ExampleOrder, [ExampleDelivery]) == [ExampleRow];
    assert JoinOrders(ExampleSupplier, [ExampleOrder], [ExampleDelivery]) == [ExampleRow];
  }

  lemma ExampleAggregate()
    ensures Aggregate(ExampleSupplier, [ExampleRow]) == ExampleKpi
  {
    var g := [ExampleRow];
    assert OnTimeFlags(g) == [0];
    assert Delays(g) == [2];
    assert QuantitiesOrdered(g) == [100];
    assert QuantitiesDelivered(g) == [80];
    assert QualityFlags(g) == [0];
    assert Sum([0]) == 0 && Sum([2]) == 2 && Sum([100]) == 100 && Sum([80]) == 80;
  }

  /** Two days late and 80 of 100 delivered: on-time rate 0, delay 2, fill rate 0.8, one order. */
  lemma ExampleKpis()
    ensures SupplierKpis([ExampleSupplier], [ExampleOrder], [ExampleDelivery]) == [ExampleKpi]
  {
    ExampleJoin();
    ExampleAggregate();
    IdLeIsTotalPreorder();
    assert SortBy([ExampleSupplier], IdLe) == [ExampleSupplier];
    assert GroupRows([ExampleRow], ExampleSupplier) == [ExampleRow];
    assert KpiRows([ExampleSupplier], [ExampleRow]) == [ExampleKpi];
  }

  /**
   * A lone supplier is both the best and the worst on every metric, so every
   * normalised metric and the performance score are 1 and the risk score is
   * 0.3 * 50 / 100 = 0.15.
   */
  lemma ExampleRisk()
    ensures RiskSummary([ExampleKpi]) ==
      [RiskRow(ExampleKpi, Some(1.0), Some(1.0), Some(1.0), Some(1.0), Some(1.0), Some(0.15))]
  {
    var kpis := [ExampleKpi];
    assert Column(kpis, OnTime) == [Some(0.0)];
    assert Column(kpis, Delay) == [Some(2.0)];
    assert Column(kpis, Fill) == [Some(0.8)];
    assert Column(kpis, Quality) == [Some(0.0)];
    assert ScoreRows(kpis) ==
      [RiskRow(ExampleKpi, Some(1.0), Some(1.0), Some(1.0), Some(1.0), Some(1.0), Some(0.15))];
  }
}
