/**
 * The `supplier_risk_summary` query: global MIN/MAX bounds of four KPIs,
 * min-max normalisation of each KPI (inverted where lower is better, 1.0
 * when the range is degenerate), their mean as the performance score, the
 * weighted risk score, and the rows ordered by risk, highest first.
 */
module Risk {

  import opened Options
  import opened Sorting
  import opened Aggregates
  import opened Kpis

  /** The four KPIs that are normalised. */
  datatype Metric = OnTime | Delay | Fill | Quality

  /** Delay and quality-issue rate are "lower is better": their scaled value is inverted. */
  predicate LowerIsBetter(m: Metric)
  {
    m == Delay || m == Quality
  }

  /** The KPI column a metric reads; only the fill rate can be NULL. */
  function MetricValue(k: SupplierKpi, m: Metric): Option<real>
  {
    match m
    case OnTime => Some(k.onTimeDeliveryRate)
    case Delay => Some(k.avgDeliveryDelayDays)
    case Fill => k.fillRate
    case Quality => Some(k.qualityIssueRate)
  }

  function Column(kpis: seq<SupplierKpi>, m: Metric): seq<Option<real>>
  {
    seq(|kpis|, i requires 0 <= i < |kpis| => MetricValue(kpis[i], m))
  }

  /** One metric's pair of columns in the `bounds` CTE. */
  datatype Bounds = Bounds(lo: Option<real>, hi: Option<real>)

  /** `max = min`: the range of the metric is a single value. */
  predicate Degenerate(b: Bounds)
  {
    b.lo.Some? && b.hi.Some? && b.lo.value == b.hi.value
  }

  /** MIN and MAX of a metric over the whole KPI table. */
  function BoundsOf(kpis: seq<SupplierKpi>, m: Metric): (b: Bounds)
    ensures b.lo.None? <==> forall k :: k in kpis ==> MetricValue(k, m).None?
    ensures b.hi.None? <==> b.lo.None?
    ensures forall k :: k in kpis && MetricValue(k, m).Some? ==>
      b.lo.Some? && b.hi.Some? && b.lo.value <= MetricValue(k, m).value <= b.hi.value
    ensures b.lo.Some? ==> exists k :: k in kpis && MetricValue(k, m) == b.lo
    ensures b.hi.Some? ==> exists k :: k in kpis && MetricValue(k, m) == b.hi
  {
    var col := Column(kpis, m);
    assert forall k :: k in kpis ==> MetricValue(k, m) in col by {
      forall k | k in kpis ensures MetricValue(k, m) in col {
        var i :| 0 <= i < |kpis| && kpis[i] == k;
        assert col[i] == MetricValue(k, m);
      }
    }
    Bounds(MinPresent(col), MaxPresent(col))
  }

  /**
   * One CASE of the `norm` CTE. A degenerate range gives 1.0 whatever `x`
   * is; otherwise a NULL operand gives NULL, and a value is scaled by
   * (x - min) / (max - min), then inverted when lower is better.
   */
  function Normalize(x: Option<real>, b: Bounds, lowerIsBetter: bool): (n: Option<real>)
    ensures Degenerate(b) ==> n == Some(1.0)
    ensures n.None? <==> !Degenerate(b) && (x.None? || b.lo.None? || b.hi.None?)
    ensures !Degenerate(b) && n.Some? ==>
      (if lowerIsBetter then 1.0 - n.value else n.value) * (b.hi.value - b.lo.value) == x.value - b.lo.value
    ensures x.Some? && b.lo.Some? && b.hi.Some? && b.lo.value <= x.value <= b.hi.value ==>
      n.Some? && 0.0 <= n.value <= 1.0
    ensures !Degenerate(b) && x.Some? && x == b.lo && b.hi.Some? ==>
      n == Some(if lowerIsBetter then 1.0 else 0.0)
    ensures !Degenerate(b) && x.Some? && x == b.hi && b.lo.Some? ==>
      n == Some(if lowerIsBetter then 0.0 else 1.0)
  {
    if Degenerate(b) then Some(1.0)
    else if x.None? || b.lo.None? || b.hi.None? then None
    else
      assert b.hi.value - b.lo.value != 0.0;
      var scaled := (x.value - b.lo.value) / (b.hi.value - b.lo.value);
      assert scaled * (b.hi.value - b.lo.value) == x.value - b.lo.value;
      assert b.lo.value <= x.value <= b.hi.value ==> 0.0 <= scaled <= 1.0 by {
        if b.lo.value <= x.value <= b.hi.value {
          UnitRatio(x.value - b.lo.value, b.hi.value - b.lo.value);
        }
      }
      RatioEndpoints(b.hi.value - b.lo.value);
      assert x.value == b.lo.value ==> scaled == 0.0;
      assert x.value == b.hi.value ==> scaled == 1.0;
      Some(if lowerIsBetter then 1.0 - scaled else scaled)
  }

  lemma RatioEndpoints(d: real)
    requires d != 0.0
    ensures 0.0 / d == 0.0 && d / d == 1.0
  {
  }

  lemma UnitRatio(p: real, d: real)
    requires 0.0 <= p <= d && d != 0.0
    ensures 0.0 <= p / d <= 1.0
  {
    assert p / d * d == p;
  }

  /** Outside the degenerate case the inverted score is one minus the direct score. */
  lemma InvertedIsComplement(x: Option<real>, b: Bounds)
    requires !Degenerate(b) && x.Some? && b.lo.Some? && b.hi.Some?
    ensures Normalize(x, b, true).Some? && Normalize(x, b, false).Some?
    ensures Normalize(x, b, true).value == 1.0 - Normalize(x, b, false).value
  {
  }

  /** Scaling preserves order for "higher is better" and reverses it for "lower is better". */
  lemma NormalizeMonotone(x: real, y: real, b: Bounds, lowerIsBetter: bool)
    requires x <= y
    requires b.lo.Some? && b.hi.Some? && b.lo.value <= b.hi.value
    ensures Normalize(Some(x), b, lowerIsBetter).Some? && Normalize(Some(y), b, lowerIsBetter).Some?
    ensures !lowerIsBetter ==> Normalize(Some(x), b, false).value <= Normalize(Some(y), b, false).value
    ensures lowerIsBetter ==> Normalize(Some(x), b, true).value >= Normalize(Some(y), b, true).value
  {
    if !Degenerate(b) {
      var d := b.hi.value - b.lo.value;
      RatioMonotone(x - b.lo.value, y - b.lo.value, d);
    }
  }

  lemma RatioMonotone(p: real, q: real, d: real)
    requires p <= q && d > 0.0
    ensures p / d <= q / d
  {
    assert p / d * d == p && q / d * d == q;
  }

  /** The normalised value of metric `m` for row `k`. */
  function NormOf(k: SupplierKpi, kpis: seq<SupplierKpi>, m: Metric): Option<real>
  {
    Normalize(MetricValue(k, m), BoundsOf(kpis, m), LowerIsBetter(m))
  }

  // ---------------------------------------------------------------- scores

  predicate InUnit(x: real)
  {
    0.0 <= x <= 1.0
  }

  /** `performance_score`: the mean of the four normalised values (NULL if any is NULL). */
  function PerformanceScore(a: Option<real>, b: Option<real>, c: Option<real>, d: Option<real>): (p: Option<real>)
    ensures p.Some? <==> a.Some? && b.Some? && c.Some? && d.Some?
    ensures p.Some? ==> 4.0 * p.value == a.value + b.value + c.value + d.value
    ensures p.Some? && InUnit(a.value) && InUnit(b.value) && InUnit(c.value) && InUnit(d.value) ==>
      && InUnit(p.value)
      && (p.value == 1.0 <==> a.value == 1.0 && b.value == 1.0 && c.value == 1.0 && d.value == 1.0)
  {
    if a.Some? && b.Some? && c.Some? && d.Some? then
      Some((a.value + b.value + c.value + d.value) / 4.0)
    else
      None
  }

  /** Weight of the behavioural part of the risk score. */
  const PerformanceWeight: real := 0.7
  /** Weight of the financial part of the risk score. */
  const FinancialWeight: real := 0.3

  /** `risk_score = 0.7 * (1 - performance_score) + 0.3 * (financial_risk_score / 100)`. */
  function RiskScore(perf: Option<real>, financialRiskScore: int): (r: Option<real>)
    ensures r.Some? <==> perf.Some?
    ensures perf.Some? && InUnit(perf.value) && 0 <= financialRiskScore <= 100 ==> InUnit(r.value)
    ensures perf == Some(1.0) ==> r == Some(0.003 * financialRiskScore as real)
    ensures financialRiskScore == 0 && perf.Some? ==> r == Some(PerformanceWeight * (1.0 - perf.value))
  {
    if perf.None? then None
    else Some(PerformanceWeight * (1.0 - perf.value) + FinancialWeight * (financialRiskScore as real / 100.0))
  }

  /** A better performance never raises the risk; a higher financial risk never lowers it. */
  lemma RiskScoreMonotone(p: real, q: real, f: int, g: int)
    requires p <= q && f >= g
    ensures RiskScore(Some(p), f).value >= RiskScore(Some(q), g).value
  {
  }

  // ---------------------------------------------------------------- the table

  /** One row of `supplier_risk_summary`: the KPI row, its four norms and its two scores. */
  datatype RiskRow = RiskRow(
    kpi: SupplierKpi,
    normOnTime: Option<real>,
    normDelay: Option<real>,
    normFill: Option<real>,
    normQuality: Option<real>,
    performanceScore: Option<real>,
    riskScore: Option<real>)

  function NormValue(row: RiskRow, m: Metric): Option<real>
  {
    match m
    case OnTime => row.normOnTime
    case Delay => row.normDelay
    case Fill => row.normFill
    case Quality => row.normQuality
  }

  /** Scores one KPI row against the bounds of the whole KPI table. */
  function ScoreRow(k: SupplierKpi, kpis: seq<SupplierKpi>): (row: RiskRow)
    ensures row.kpi == k
    ensures forall m :: NormValue(row, m) == NormOf(k, kpis, m)
    ensures row.performanceScore == PerformanceScore(row.normOnTime, row.normDelay, row.normFill, row.normQuality)
    ensures row.riskScore == RiskScore(row.performanceScore, k.supplier.financialRiskScore)
    ensures row.riskScore.Some? <==> row.performanceScore.Some?
  {
    var nOnTime := NormOf(k, kpis, OnTime);
    var nDelay := NormOf(k, kpis, Delay);
    var nFill := NormOf(k, kpis, Fill);
    var nQuality := NormOf(k, kpis, Quality);
    var perf := PerformanceScore(nOnTime, nDelay, nFill, nQuality);
    RiskRow(k, nOnTime, nDelay, nFill, nQuality, perf, RiskScore(perf, k.supplier.financialRiskScore))
  }

  /** The `norm` CTE with the two score columns, in KPI-table order. */
  function ScoreRows(kpis: seq<SupplierKpi>): seq<RiskRow>
  {
    seq(|kpis|, i requires 0 <= i < |kpis| => ScoreRow(kpis[i], kpis))
  }

  /** `ORDER BY risk_score DESC`; a NULL risk sorts after every value. */
  predicate RiskBefore(a: RiskRow, b: RiskRow)
  {
    b.riskScore.None? || (a.riskScore.Some? && a.riskScore.value >= b.riskScore.value)
  }

  lemma RiskBeforeIsTotalPreorder()
    ensures TotalPreorder(RiskBefore)
  {
  }

  /** The `supplier_risk_summary` table. */
  function RiskSummary(kpis: seq<SupplierKpi>): (out: seq<RiskRow>)
    ensures |out| == |kpis|
    ensures multiset(out) == multiset(ScoreRows(kpis))
    ensures forall i, j :: 0 <= i < j < |out| && out[i].riskScore.Some? && out[j].riskScore.Some? ==>
      out[i].riskScore.value >= out[j].riskScore.value
    ensures forall i, j :: 0 <= i < j < |out| && out[i].riskScore.None? ==> out[j].riskScore.None?
  {
    RiskBeforeIsTotalPreorder();
    var out := SortBy(ScoreRows(kpis), RiskBefore);
    assert forall i, j :: 0 <= i < j < |out| ==> RiskBefore(out[i], out[j]);
    out
  }

  // ---------------------------------------------------------------- properties of the table

  /** Every summary row is a KPI row scored against the bounds of the whole table. */
  lemma SummaryRowIsScored(kpis: seq<SupplierKpi>, row: RiskRow)
    requires row in RiskSummary(kpis)
    ensures row.kpi in kpis
    ensures row == ScoreRow(row.kpi, kpis)
  {
    assert row in multiset(ScoreRows(kpis));
    var i :| 0 <= i < |kpis| && ScoreRows(kpis)[i] == row;
  }

  function KpiOf(row: RiskRow): SupplierKpi
  {
    row.kpi
  }

  /** One summary row per KPI row, with the KPI columns carried over unchanged. */
  lemma SummaryCarriesKpis(kpis: seq<SupplierKpi>)
    ensures multiset(Map(RiskSummary(kpis), KpiOf)) == multiset(kpis)
  {
    var scored := ScoreRows(kpis);
    MapPermutation(RiskSummary(kpis), scored, KpiOf);
    ScoredKpis(kpis);
  }

  /** Before ranking, the scored rows carry the KPI rows in their input order. */
  lemma ScoredKpis(kpis: seq<SupplierKpi>)
    ensures Map(ScoreRows(kpis), KpiOf) == kpis
  {
    var ks := Map(ScoreRows(kpis), KpiOf);
    assert |ks| == |kpis|;
    forall i | 0 <= i < |kpis| ensures ks[i] == kpis[i] {
      assert ScoreRows(kpis)[i] == ScoreRow(kpis[i], kpis);
    }
  }

  /** A KPI row's normalised value is in [0,1], and present whenever its metric is. */
  lemma NormOfBounded(k: SupplierKpi, kpis: seq<SupplierKpi>, m: Metric)
    requires k in kpis
    ensures MetricValue(k, m).Some? ==> NormOf(k, kpis, m).Some?
    ensures NormOf(k, kpis, m).Some? ==> InUnit(NormOf(k, kpis, m).value)
  {
  }

  /** Norms lie in [0,1]; only `norm_fill` can be NULL; the scores follow from the norms. */
  lemma ScoreRowBounds(k: SupplierKpi, kpis: seq<SupplierKpi>)
    requires k in kpis
    ensures ScoreRow(k, kpis).normOnTime.Some?
    ensures ScoreRow(k, kpis).normDelay.Some?
    ensures ScoreRow(k, kpis).normQuality.Some?
    ensures forall m :: NormValue(ScoreRow(k, kpis), m).Some? ==> InUnit(NormValue(ScoreRow(k, kpis), m).value)
    ensures ScoreRow(k, kpis).performanceScore.Some? <==> ScoreRow(k, kpis).normFill.Some?
    ensures ScoreRow(k, kpis).performanceScore.Some? ==> InUnit(ScoreRow(k, kpis).performanceScore.value)
    ensures ScoreRow(k, kpis).riskScore.Some? && 0 <= k.supplier.financialRiskScore <= 100 ==>
      InUnit(ScoreRow(k, kpis).riskScore.value)
  {
    forall m ensures MetricValue(k, m).Some? ==> NormOf(k, kpis, m).Some?
      ensures NormOf(k, kpis, m).Some? ==> InUnit(NormOf(k, kpis, m).value)
    {
      NormOfBounded(k, kpis, m);
    }
  }

  /** `norm_fill` is NULL exactly when the fill rate is NULL and the fill range is not degenerate. */
  lemma NormFillNullIff(k: SupplierKpi, kpis: seq<SupplierKpi>)
    requires k in kpis
    ensures ScoreRow(k, kpis).normFill.None? <==> k.fillRate.None? && !Degenerate(BoundsOf(kpis, Fill))
  {
    var b := BoundsOf(kpis, Fill);
    assert ScoreRow(k, kpis).normFill == Normalize(k.fillRate, b, false);
  }

  /** The bounds of [ScoreRowBounds] and [NormFillNullIff], for every row of the summary. */
  lemma SummaryRowBounds(kpis: seq<SupplierKpi>, row: RiskRow)
    requires row in RiskSummary(kpis)
    ensures row.normOnTime.Some? && row.normDelay.Some? && row.normQuality.Some?
    ensures forall m :: NormValue(row, m).Some? ==> InUnit(NormValue(row, m).value)
    ensures row.normFill.None? <==> row.kpi.fillRate.None? && !Degenerate(BoundsOf(kpis, Fill))
    ensures row.performanceScore.Some? <==> row.normFill.Some?
    ensures row.performanceScore.Some? ==> InUnit(row.performanceScore.value)
    ensures row.performanceScore == PerformanceScore(row.normOnTime, row.normDelay, row.normFill, row.normQuality)
    ensures row.riskScore == RiskScore(row.performanceScore, row.kpi.supplier.financialRiskScore)
    ensures row.riskScore.Some? <==> row.performanceScore.Some?
    ensures row.riskScore.Some? && 0 <= row.kpi.supplier.financialRiskScore <= 100 ==>
      InUnit(row.riskScore.value)
  {
    SummaryRowIsScored(kpis, row);
    var k := row.kpi;
    var scored := ScoreRow(k, kpis);
    ScoreRowBounds(k, kpis);
    NormFillNullIff(k, kpis);
    assert row == scored;
  }

  /** Degenerate-range rule: a metric equal across all suppliers scores exactly 1.0 everywhere. */
  lemma DegenerateMetricScoresOne(kpis: seq<SupplierKpi>, m: Metric, v: real, row: RiskRow)
    requires forall k :: k in kpis ==> MetricValue(k, m) == Some(v)
    requires row in RiskSummary(kpis)
    ensures NormValue(row, m) == Some(1.0)
  {
    SummaryRowIsScored(kpis, row);
    var b := BoundsOf(kpis, m);
    assert MetricValue(row.kpi, m) == Some(v);
  }

  /** Outside the degenerate case the best supplier on a metric scores 1 and the worst 0. */
  lemma ExtremesScoreOneAndZero(kpis: seq<SupplierKpi>, m: Metric, row: RiskRow)
    requires row in RiskSummary(kpis)
    requires !Degenerate(BoundsOf(kpis, m))
    ensures MetricValue(row.kpi, m).Some? && MetricValue(row.kpi, m) == BoundsOf(kpis, m).lo ==>
      NormValue(row, m) == Some(if LowerIsBetter(m) then 1.0 else 0.0)
    ensures MetricValue(row.kpi, m).Some? && MetricValue(row.kpi, m) == BoundsOf(kpis, m).hi ==>
      NormValue(row, m) == Some(if LowerIsBetter(m) then 0.0 else 1.0)
  {
    SummaryRowIsScored(kpis, row);
  }

  /** Between two summary rows, a better raw value never gets a worse normalised value. */
  lemma NormsFollowRawOrder(kpis: seq<SupplierKpi>, m: Metric, r1: RiskRow, r2: RiskRow)
    requires r1 in RiskSummary(kpis) && r2 in RiskSummary(kpis)
    requires MetricValue(r1.kpi, m).Some? && MetricValue(r2.kpi, m).Some?
    requires MetricValue(r1.kpi, m).value <= MetricValue(r2.kpi, m).value
    ensures NormValue(r1, m).Some? && NormValue(r2, m).Some?
    ensures !LowerIsBetter(m) ==> NormValue(r1, m).value <= NormValue(r2, m).value
    ensures LowerIsBetter(m) ==> NormValue(r1, m).value >= NormValue(r2, m).value
  {
    SummaryRowIsScored(kpis, r1);
    SummaryRowIsScored(kpis, r2);
    var b := BoundsOf(kpis, m);
    NormalizeMonotone(MetricValue(r1.kpi, m).value, MetricValue(r2.kpi, m).value, b, LowerIsBetter(m));
  }
}
