/**
 * The deterministic rules of the synthetic-data generator. Every random
 * draw is a parameter; what the generator promises about each draw's range
 * is a precondition on that parameter.
 */
module Generator {

  import opened Tables

  // Defaults of the generator's configuration.
  const LeadTimeMinDays: int := 3
  const LeadTimeMaxDays: int := 21
  const LateProb: real := 0.22
  const EarlyProb: real := 0.08
  const LateMinDays: int := 1
  const LateMaxDays: int := 14
  const EarlyMinDays: int := 1
  const EarlyMaxDays: int := 4
  const QtyMin: int := 10
  const QtyMax: int := 500
  const PartialDeliveryProb: real := 0.18
  const PartialMinRatio: real := 0.6
  const PartialMaxRatio: real := 0.95
  const BaseQualityIssueProb: real := 0.04

  /** `max(lo, min(hi, x))`. */
  function Clamp(x: real, lo: real, hi: real): (r: real)
    ensures lo <= hi ==> lo <= r <= hi
    ensures lo <= x <= hi ==> r == x
    ensures x < lo ==> r == lo
    ensures lo <= hi < x ==> r == hi
    ensures hi < lo ==> r == lo
  {
    var m := if hi <= x then hi else x;
    if lo >= m then lo else m
  }

  lemma ClampMonotone(x: real, y: real, lo: real, hi: real)
    requires x <= y
    ensures Clamp(x, lo, hi) <= Clamp(y, lo, hi)
  {
  }

  /** A uniformly drawn date: `start` plus a drawn offset in [0, end - start]. */
  function RandDate(start: Date, end: Date, offset: int): (d: Date)
    requires 0 <= offset <= end - start
    ensures start <= d <= end
    ensures d - start == offset
  {
    start + offset
  }

  /** A supplier's behaviour profile. */
  datatype Profile = Profile(lateProb: real, qualityProb: real, partialProb: real)

  /** The profile rule: worse financial risk raises all three probabilities, within fixed limits. */
  function ProfileFor(financialRiskScore: int): (p: Profile)
    ensures 0.05 <= p.lateProb <= 0.65
    ensures 0.01 <= p.qualityProb <= 0.20
    ensures 0.05 <= p.partialProb <= 0.55
  {
    var fin := financialRiskScore as real / 100.0;
    Profile(
      Clamp(LateProb + 0.25 * fin, 0.05, 0.65),
      Clamp(BaseQualityIssueProb + 0.06 * fin, 0.01, 0.20),
      Clamp(PartialDeliveryProb + 0.15 * fin, 0.05, 0.55))
  }

  /** For a financial risk score in [0,100] none of the three clamps is active. */
  lemma ProfileUnclamped(financialRiskScore: int)
    requires 0 <= financialRiskScore <= 100
    ensures ProfileFor(financialRiskScore).lateProb == 0.22 + 0.0025 * financialRiskScore as real
    ensures ProfileFor(financialRiskScore).qualityProb == 0.04 + 0.0006 * financialRiskScore as real
    ensures ProfileFor(financialRiskScore).partialProb == 0.18 + 0.0015 * financialRiskScore as real
  {
  }

  /** A supplier with a higher financial risk score is never given smaller probabilities. */
  lemma ProfileMonotone(f: int, g: int)
    requires f <= g
    ensures ProfileFor(f).lateProb <= ProfileFor(g).lateProb
    ensures ProfileFor(f).qualityProb <= ProfileFor(g).qualityProb
    ensures ProfileFor(f).partialProb <= ProfileFor(g).partialProb
  {
    var ff := f as real / 100.0;
    var gg := g as real / 100.0;
    assert ff <= gg;
    ClampMonotone(LateProb + 0.25 * ff, LateProb + 0.25 * gg, 0.05, 0.65);
    ClampMonotone(BaseQualityIssueProb + 0.06 * ff, BaseQualityIssueProb + 0.06 * gg, 0.01, 0.20);
    ClampMonotone(PartialDeliveryProb + 0.15 * ff, PartialDeliveryProb + 0.15 * gg, 0.05, 0.55);
  }

  function Ids(ss: seq<Supplier>): set<string>
  {
    set s | s in ss :: s.supplierId
  }

  /**
   * The profile loop: one dictionary entry per supplier id. An id's entry
   * comes from a supplier carrying that id (the last one, should ids repeat).
   */
  method BuildProfiles(suppliers: seq<Supplier>) returns (profiles: map<string, Profile>)
    ensures profiles.Keys == Ids(suppliers)
    ensures forall id :: id in profiles ==>
      exists s :: s in suppliers && s.supplierId == id && profiles[id] == ProfileFor(s.financialRiskScore)
    ensures UniqueSupplierIds(suppliers) ==>
      forall s :: s in suppliers ==> profiles[s.supplierId] == ProfileFor(s.financialRiskScore)
  {
    profiles := map[];
    var i := 0;
    while i < |suppliers|
      invariant 0 <= i <= |suppliers|
      invariant profiles.Keys == Ids(suppliers[..i])
      invariant forall id :: id in profiles ==>
        exists s :: s in suppliers[..i] && s.supplierId == id && profiles[id] == ProfileFor(s.financialRiskScore)
      invariant UniqueSupplierIds(suppliers) ==>
        forall k :: 0 <= k < i ==> profiles[suppliers[k].supplierId] == ProfileFor(suppliers[k].financialRiskScore)
    {
      var s := suppliers[i];
      assert suppliers[..i + 1] == suppliers[..i] + [s];
      profiles := profiles[s.supplierId := ProfileFor(s.financialRiskScore)];
      i := i + 1;
    }
    assert suppliers[..i] == suppliers;
  }

  // ---------------------------------------------------------------- purchase orders

  /** The draws that make one purchase order: supplier choice, order date offset, lead time, quantity. */
  datatype OrderDraw = OrderDraw(poId: string, supplierIndex: nat, dateOffset: int, leadTime: int, quantity: int)

  /** The ranges the generator's draws fall in, for every draw of the list. */
  predicate ValidOrderDraws(draws: seq<OrderDraw>, nSuppliers: nat, start: Date, end: Date)
  {
    forall j :: 0 <= j < |draws| ==>
      && draws[j].supplierIndex < nSuppliers
      && 0 <= draws[j].dateOffset <= end - start
      && LeadTimeMinDays <= draws[j].leadTime <= LeadTimeMaxDays
      && QtyMin <= draws[j].quantity <= QtyMax
  }

  /** One purchase order: promised date = order date + lead time. */
  function MakeOrder(supplierId: string, d: OrderDraw, start: Date, end: Date): (po: PurchaseOrder)
    requires 0 <= d.dateOffset <= end - start
    requires LeadTimeMinDays <= d.leadTime <= LeadTimeMaxDays
    ensures po.poId == d.poId && po.supplierId == supplierId && po.quantityOrdered == d.quantity
    ensures start <= po.orderDate <= end
    ensures po.orderDate + LeadTimeMinDays <= po.promisedDate <= po.orderDate + LeadTimeMaxDays
    ensures po.promisedDate - po.orderDate == d.leadTime
  {
    var orderDate := RandDate(start, end, d.dateOffset);
    PurchaseOrder(d.poId, supplierId, orderDate, orderDate + d.leadTime, d.quantity)
  }

  /** The purchase-order loop: one order per draw, in draw order. */
  method GenerateOrders(suppliers: seq<Supplier>, draws: seq<OrderDraw>, start: Date, end: Date)
    returns (orders: seq<PurchaseOrder>)
    requires ValidOrderDraws(draws, |suppliers|, start, end)
    ensures |orders| == |draws|
    ensures forall j :: 0 <= j < |draws| ==>
      orders[j] == MakeOrder(suppliers[draws[j].supplierIndex].supplierId, draws[j], start, end)
    ensures forall po :: po in orders ==> po.supplierId in Ids(suppliers)
    ensures forall po :: po in orders ==>
      start <= po.orderDate <= end && QtyMin <= po.quantityOrdered <= QtyMax
  {
    orders := [];
    var j := 0;
    while j < |draws|
      invariant 0 <= j <= |draws|
      invariant |orders| == j
      invariant forall k :: 0 <= k < j ==>
        orders[k] == MakeOrder(suppliers[draws[k].supplierIndex].supplierId, draws[k], start, end)
      invariant forall po :: po in orders ==> po.supplierId in Ids(suppliers)
      invariant forall po :: po in orders ==>
        start <= po.orderDate <= end && QtyMin <= po.quantityOrdered <= QtyMax
    {
      var d := draws[j];
      var supplier := suppliers[d.supplierIndex];
      var po := MakeOrder(supplier.supplierId, d, start, end);
      orders := orders + [po];
      j := j + 1;
    }
  }

  // ---------------------------------------------------------------- deliveries

  /**
   * The draws behind one delivery: the timing draw `r` with the late and
   * early day counts, the partial-delivery draw with its ratio and the
   * ratio-times-quantity rounded to an integer, and the quality draw.
   */
  datatype DeliveryDraw = DeliveryDraw(
    timing: real,
    lateDays: int,
    earlyDays: int,
    partial: real,
    ratio: real,
    rounded: int,
    quality: real)

  /** `rounded` is a nearest integer to `x` (the tie rule is left open). */
  predicate RoundsTo(x: real, rounded: int)
  {
    -0.5 <= rounded as real - x <= 0.5
  }

  predicate ValidDeliveryDraw(d: DeliveryDraw, ordered: int)
  {
    && LateMinDays <= d.lateDays <= LateMaxDays
    && EarlyMinDays <= d.earlyDays <= EarlyMaxDays
    && PartialMinRatio <= d.ratio <= PartialMaxRatio
    && RoundsTo(ordered as real * d.ratio, d.rounded)
  }

  /** Late with probability `lateProb`, then early with the fixed early probability, else on time. */
  function DeliveryDate(promised: Date, timing: real, lateProb: real, lateDays: int, earlyDays: int): (d: Date)
    requires LateMinDays <= lateDays <= LateMaxDays
    requires EarlyMinDays <= earlyDays <= EarlyMaxDays
    ensures timing < lateProb ==> promised + LateMinDays <= d <= promised + LateMaxDays
    ensures lateProb <= timing < lateProb + EarlyProb ==> promised - EarlyMaxDays <= d <= promised - EarlyMinDays
    ensures lateProb + EarlyProb <= timing ==> d == promised
    ensures d <= promised <==> lateProb <= timing
  {
    if timing < lateProb then promised + lateDays
    else if timing < lateProb + EarlyProb then promised - earlyDays
    else promised
  }

  /** The full quantity, or for a partial delivery the rounded share, never negative. */
  function DeliveredQuantity(ordered: int, partialDraw: real, partialProb: real, ratio: real, rounded: int): (q: int)
    requires PartialMinRatio <= ratio <= PartialMaxRatio
    requires RoundsTo(ordered as real * ratio, rounded)
    ensures partialProb <= partialDraw ==> q == ordered
    ensures partialDraw < partialProb ==> q >= 0
    ensures partialDraw < partialProb && QtyMin <= ordered ==> 0 < q <= ordered
    ensures partialDraw < partialProb && 0 <= ordered ==> q == rounded && RoundsTo(ordered as real * ratio, q)
  {
    if partialDraw < partialProb then
      PartialShare(ordered, ratio, rounded);
      if rounded <= 0 then 0 else rounded
    else
      ordered
  }

  /** The rounded share of a non-negative order is not negative, and of an order of at least `QtyMin` units it is a proper part. */
  lemma PartialShare(ordered: int, ratio: real, rounded: int)
    requires PartialMinRatio <= ratio <= PartialMaxRatio
    requires RoundsTo(ordered as real * ratio, rounded)
    ensures 0 <= ordered ==> 0 <= rounded
    ensures QtyMin <= ordered ==> 0 < rounded <= ordered
  {
    if 0 <= ordered {
      var a := ordered as real;
      ScaleBetween(a, PartialMinRatio, ratio, PartialMaxRatio);
      assert a * ratio - 0.5 <= rounded as real <= a * ratio + 0.5;
      if QtyMin <= ordered {
        assert a * PartialMinRatio == 0.6 * a && a * PartialMaxRatio == 0.95 * a;
        assert 0.95 * a + 0.5 <= a;
      }
    }
  }

  /** Scaling a non-negative amount keeps the order of the factors. */
  lemma ScaleBetween(a: real, lo: real, r: real, hi: real)
    requires 0.0 <= a && lo <= r <= hi
    ensures a * lo <= a * r <= a * hi
  {
    assert a * (r - lo) >= 0.0 && a * (hi - r) >= 0.0;
  }

  /** `quality_issues`: 1 with probability `qualityProb`, else 0. */
  function QualityFlag(draw: real, qualityProb: real): (flag: int)
    ensures flag == 0 || flag == 1
    ensures flag == 1 <==> draw < qualityProb
  {
    if draw < qualityProb then 1 else 0
  }

  /** The delivery of one purchase order. */
  function MakeDelivery(po: PurchaseOrder, prof: Profile, d: DeliveryDraw): (del: Delivery)
    requires ValidDeliveryDraw(d, po.quantityOrdered)
    ensures del.poId == po.poId
    ensures del.qualityIssues == 0 || del.qualityIssues == 1
    ensures po.promisedDate - EarlyMaxDays <= del.deliveryDate <= po.promisedDate + LateMaxDays
    ensures del.deliveryDate <= po.promisedDate <==> prof.lateProb <= d.timing
    ensures QtyMin <= po.quantityOrdered ==> 0 < del.quantityDelivered <= po.quantityOrdered
    ensures d.timing < prof.lateProb ==> del.deliveryDate == po.promisedDate + d.lateDays
    ensures prof.lateProb <= d.timing < prof.lateProb + EarlyProb ==> del.deliveryDate == po.promisedDate - d.earlyDays
    ensures prof.lateProb + EarlyProb <= d.timing ==> del.deliveryDate == po.promisedDate
    ensures prof.partialProb <= d.partial ==> del.quantityDelivered == po.quantityOrdered
    ensures d.partial < prof.partialProb && 0 <= po.quantityOrdered ==>
      RoundsTo(po.quantityOrdered as real * d.ratio, del.quantityDelivered)
    ensures del.qualityIssues == 1 <==> d.quality < prof.qualityProb
  {
    Delivery(
      po.poId,
      DeliveryDate(po.promisedDate, d.timing, prof.lateProb, d.lateDays, d.earlyDays),
      DeliveredQuantity(po.quantityOrdered, d.partial, prof.partialProb, d.ratio, d.rounded),
      QualityFlag(d.quality, prof.qualityProb))
  }

  /** The delivery loop: exactly one delivery per purchase order, in order, with the order's id. */
  method GenerateDeliveries(orders: seq<PurchaseOrder>, profiles: map<string, Profile>, draws: seq<DeliveryDraw>)
    returns (deliveries: seq<Delivery>)
    requires |draws| == |orders|
    requires forall po :: po in orders ==> po.supplierId in profiles
    requires forall j :: 0 <= j < |orders| ==> ValidDeliveryDraw(draws[j], orders[j].quantityOrdered)
    ensures |deliveries| == |orders|
    ensures forall j :: 0 <= j < |orders| ==>
      deliveries[j] == MakeDelivery(orders[j], profiles[orders[j].supplierId], draws[j])
    ensures forall j :: 0 <= j < |orders| ==> deliveries[j].poId == orders[j].poId
    ensures forall del :: del in deliveries ==> del.qualityIssues == 0 || del.qualityIssues == 1
  {
    deliveries := [];
    var j := 0;
    while j < |orders|
      invariant 0 <= j <= |orders|
      invariant |deliveries| == j
      invariant forall k :: 0 <= k < j ==>
        deliveries[k] == MakeDelivery(orders[k], profiles[orders[k].supplierId], draws[k])
      invariant forall del :: del in deliveries ==> del.qualityIssues == 0 || del.qualityIssues == 1
    {
      var po := orders[j];
      assert po in orders;
      var prof := profiles[po.supplierId];
      deliveries := deliveries + [MakeDelivery(po, prof, draws[j])];
      j := j + 1;
    }
  }

  /** The generator's three tables: profiles, then purchase orders, then one delivery per order. */
  method Generate(
    suppliers: seq<Supplier>,
    orderDraws: seq<OrderDraw>,
    deliveryDraws: seq<DeliveryDraw>,
    start: Date,
    end: Date)
    returns (orders: seq<PurchaseOrder>, deliveries: seq<Delivery>)
    requires ValidOrderDraws(orderDraws, |suppliers|, start, end)
    requires |deliveryDraws| == |orderDraws|
    requires forall j :: 0 <= j < |orderDraws| ==>
      ValidDeliveryDraw(deliveryDraws[j], orderDraws[j].quantity)
    ensures |orders| == |deliveries| == |orderDraws|
    ensures forall j :: 0 <= j < |orderDraws| ==>
      orders[j] == MakeOrder(suppliers[orderDraws[j].supplierIndex].supplierId, orderDraws[j], start, end)
    ensures forall j :: 0 <= j < |orderDraws| ==>
      ValidDeliveryDraw(deliveryDraws[j], orders[j].quantityOrdered)
    ensures UniqueSupplierIds(suppliers) ==> forall j :: 0 <= j < |orderDraws| ==>
      deliveries[j] == MakeDelivery(
        orders[j], ProfileFor(suppliers[orderDraws[j].supplierIndex].financialRiskScore), deliveryDraws[j])
    ensures forall j :: 0 <= j < |orders| ==> deliveries[j].poId == orders[j].poId
    ensures forall po :: po in orders ==> start <= po.orderDate <= end
    ensures forall po :: po in orders ==> po.supplierId in Ids(suppliers)
    ensures forall j :: 0 <= j < |orders| ==>
      0 < deliveries[j].quantityDelivered <= orders[j].quantityOrdered
    ensures forall del :: del in deliveries ==> del.qualityIssues == 0 || del.qualityIssues == 1
  {
    var profiles := BuildProfiles(suppliers);
    orders := GenerateOrders(suppliers, orderDraws, start, end);
    forall j | 0 <= j < |orders| ensures ValidDeliveryDraw(deliveryDraws[j], orders[j].quantityOrdered) {
      assert orders[j].quantityOrdered == orderDraws[j].quantity;
    }
    deliveries := GenerateDeliveries(orders, profiles, deliveryDraws);
    if UniqueSupplierIds(suppliers) {
      forall j | 0 <= j < |orderDraws|
        ensures profiles[orders[j].supplierId] == ProfileFor(suppliers[orderDraws[j].supplierIndex].financialRiskScore)
      {
        assert suppliers[orderDraws[j].supplierIndex] in suppliers;
      }
    }
    forall j | 0 <= j < |orders| ensures 0 < deliveries[j].quantityDelivered <= orders[j].quantityOrdered {
      assert orders[j] in orders;
    }
  }
}
