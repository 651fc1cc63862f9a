# Supplier performance scoring, modelled in Dafny

This project models the scoring engine of a supplier-performance data pipeline. It has two stages and a data generator.

- **KPI stage** (`src/compute_kpis.py`). It inner-joins suppliers, purchase orders and deliveries. For every matched row it derives a signed delivery delay and an on-time flag. It then groups by supplier and computes:
  - the on-time delivery rate;
  - the average delay;
  - the fill rate (NULL when nothing was ordered);
  - the quality-issue rate;
  - the number of matched orders.

  The rows come out in ascending `supplier_id` order.
- **Risk stage** (`src/compute_risk.py`). It takes the minimum and maximum of each KPI over all suppliers and min-max normalises the KPI. Delay and quality are "lower is better", so their scaled values are inverted, and a metric whose range is a single point scores 1.0. The four normalised values are averaged into `performance_score`. Then `risk_score = 0.7 * (1 - performance_score) + 0.3 * financial_risk_score / 100`, and rows are ranked by descending risk.
- **Generator** (`src/generate_data.py`). This covers the deterministic rules inside the synthetic-data generator:
  - `clamp` and `rand_date`;
  - the per-supplier behaviour profile;
  - the per-order rules for promised date, delivery date, delivered quantity and quality flag;
  - the three loops that build the profile dictionary, the order list and the delivery list.

  Every random draw is a parameter.

Modules:

| file | module | content |
|---|---|---|
| `options.dfy` | `Options` | `Option`, used for SQL NULL |
| `sorting.dfy` | `Sorting` | a generic insertion sort by a total preorder (sorted and a permutation), and `Map` |
| `tables.dfy` | `Tables` | the three input tables and the lexicographic order on `supplier_id` |
| `aggregates.dfy` | `Aggregates` | SQL `SUM`, `AVG`, and `MIN`/`MAX` (which skip NULLs) |
| `kpis.dfy` | `Kpis` | the `supplier_kpis` query |
| `risk.dfy` | `Risk` | the `supplier_risk_summary` query |
| `generator.dfy` | `Generator` | the generator's rules; its loops are methods |
| `pipeline.dfy` | `Pipeline` | how generated tables meet the KPI join, plus one worked example through both queries |

Representation choices:

- Dates are integer day numbers, so `DATE_DIFF('day', promised, delivered)` is `delivered - promised`.
- `DOUBLE` is `real`.
- A nullable value is an `Option`. NULL propagates the way SQL propagates it:
  - `MIN`/`MAX` skip NULLs;
  - a `CASE WHEN max = min` whose comparison is NULL falls through to the `ELSE` arithmetic, which is NULL;
  - any NULL normalised value makes the performance and risk scores NULL.

The two SQL queries are pure and are modelled as functions over sequences. In the generator, `clamp`, `rand_date` and the per-order rules are functions. The profile, order and delivery loops are methods with loop invariants.

## Model

| member | source | states |
|---|---|---|
| Kpis.DelayDays | src/compute_kpis.py:36 | promised date plus the delay is the delivery date; the delay is negative exactly for early deliveries and zero exactly for deliveries on the promised date |
| Kpis.OnTimeFlag | src/compute_kpis.py:38 | the flag is 0 or 1, and it is 1 exactly when the delay is at most 0 (delivered on or before the promised date) |
| Kpis.Join | src/compute_kpis.py:39-43 | a row is in the join iff it pairs a supplier, an order and a delivery with equal `supplier_id` and equal `po_id` |
| Kpis.JoinDeliveriesCount | src/compute_kpis.py:42-43 | the join of one order with the deliveries is a bag: a row for that supplier and order occurs once per copy of its delivery when the `po_id`s match, and never otherwise |
| Kpis.JoinOrdersCount | src/compute_kpis.py:39-43 | a row joined through one supplier occurs (copies of its order) × (copies of its delivery) times when both join conditions hold, and never otherwise |
| Kpis.JoinCount | src/compute_kpis.py:39-43 | each row of the whole join occurs (copies of its supplier) × (copies of its order) × (copies of its delivery) times when both join conditions hold, and never otherwise; this fixes the multiplicities that `COUNT(*)`, `SUM` and `AVG` see |
| Kpis.OrphanOrderExcluded | src/compute_kpis.py:39-43 | an order with no delivery of its `po_id` contributes no joined row |
| Kpis.OrphanDeliveryExcluded | src/compute_kpis.py:39-43 | a delivery matching no (supplier, order) pair contributes no joined row |
| Kpis.GroupRows | src/compute_kpis.py:60-62 | a supplier's group holds exactly the rows whose five supplier columns are that supplier's, and no more rows than its input |
| Kpis.GroupOfJoin | src/compute_kpis.py:60-62 | with unique supplier ids, a supplier's group of the join is exactly the rows joined through that supplier |
| Kpis.OnTimeRate | src/compute_kpis.py:52 | the on-time rate times the group size is the number of rows delivered on or before the promised date; the rate lies in [0,1]; it is 1 iff every order of the group was on time, and 0 iff every order was late |
| Kpis.OnTimeFlagsCount | src/compute_kpis.py:38 | summing the on-time flags of a group counts its rows delivered on or before the promised date, which is at most the group size |
| Kpis.AvgDelay | src/compute_kpis.py:53 | the average delay times the group size is the total delay of the group; it lies between the group's smallest and largest per-row delay |
| Kpis.FillRate | src/compute_kpis.py:55 | NULL iff the ordered quantities sum to 0; otherwise rate times total ordered equals total delivered |
| Kpis.QualityIssueRate | src/compute_kpis.py:57 | the quality-issue rate times the group size is the total of the group's quality flags; it lies in [0,1] when every flag of the group is 0 or 1 |
| Kpis.Aggregate | src/compute_kpis.py:45-59 | the row copies the supplier's columns and `n_pos` is the group size (at least 1); its on-time, delay, fill and quality columns are exactly the group's `OnTimeRate`, `AvgDelay`, `FillRate` and `QualityIssueRate`, whose values are pinned by their own rows; so the on-time rate is in [0,1], the average delay is between the min and max delay, and the fill rate is NULL iff nothing was ordered |
| Kpis.KpiRows | src/compute_kpis.py:45-62 | a row is produced iff its supplier has a non-empty group, and the row is the aggregate of that group |
| Kpis.SupplierKpis | src/compute_kpis.py:63 | the output is strictly ascending by `supplier_id`, so there is one row per supplier id |
| Kpis.KpiMembership | src/compute_kpis.py:45-62 | a KPI row exists iff its supplier is an input supplier with at least one matched order, and the row is that supplier's aggregate with the supplier columns unchanged |
| Kpis.SupplierPresentIffMatched | src/compute_kpis.py:39-62 | a supplier appears in the output iff one of its orders has a matching delivery |
| Kpis.QualityRateBounded | src/compute_kpis.py:57 | every output quality-issue rate lies in [0,1] when every input flag is 0 or 1 |
| Kpis.NPosSumIsJoinSize | src/compute_kpis.py:59-62 | the `n_pos` values of the output sum to the size of the join |
| Tables.IdLeIsTotalPreorder | src/compute_kpis.py:63 | ordering suppliers by `supplier_id` is total and transitive, so `ORDER BY supplier_id` is well defined |
| Aggregates.SumAppend | src/compute_kpis.py:55 | `SUM` over two groups put together is the sum of their `SUM`s |
| Aggregates.Avg | src/compute_kpis.py:52-57 | `AVG` of a non-empty group, taken once per row, gives the group's `SUM` |
| Aggregates.AvgIsValueIff | src/compute_kpis.py:52-57 | `AVG` equals a value v iff `SUM` is the group size times v |
| Aggregates.AvgBounds | src/compute_kpis.py:52-57 | `AVG` of values that all lie in [lo, hi] lies in [lo, hi] |
| Aggregates.AvgBetweenExtremes | src/compute_kpis.py:53 | `AVG` of a non-empty group times its size is its `SUM`, and it lies between the group's minimum and maximum |
| Sorting.SortBy | src/compute_kpis.py:63 | `ORDER BY` under a total preorder: the output is sorted by it and is a permutation of the input (same multiset, same length); used for `ORDER BY supplier_id` and `ORDER BY risk_score DESC` |
| Aggregates.MinPresent | src/compute_risk.py:41 | SQL `MIN` ignores NULLs: the result is NULL iff every value is NULL, is one of the values, and is at most every present value |
| Aggregates.MaxPresent | src/compute_risk.py:42 | SQL `MAX` ignores NULLs: the result is NULL iff every value is NULL, is one of the values, and is at least every present value |
| Risk.BoundsOf | src/compute_risk.py:39-53 | each bound is NULL iff the metric is NULL for every row; otherwise every present value lies between the bounds and both bounds are attained by some row |
| Risk.Normalize | src/compute_risk.py:59-80 | a degenerate range gives exactly 1.0; otherwise the result is NULL iff an operand is NULL, and the scaled value s (1 - result for a lower-is-better metric) satisfies s · (max - min) = x - min; a value in range maps into [0,1]; the minimum maps to 0 and the maximum to 1, or the reverse for a lower-is-better metric |
| Risk.InvertedIsComplement | src/compute_risk.py:65-68 | the inverted scaling of a lower-is-better metric is 1 minus the plain scaling |
| Risk.NormalizeMonotone | src/compute_risk.py:59-62 | the scaled value is non-decreasing in the raw value, and non-increasing for a lower-is-better metric |
| Risk.PerformanceScore | src/compute_risk.py:104 | the score is NULL iff some normalised value is NULL; otherwise four times the score is the sum of the four norms; with every value in [0,1] the score is in [0,1], and it is 1 iff all four are 1 |
| Risk.RiskScore | src/compute_risk.py:107-108 | the score is NULL iff performance is NULL; it lies in [0,1] when performance is in [0,1] and the financial score is in [0,100]; perfect performance leaves 0.003 times the financial score; a zero financial score leaves 0.7 times (1 - performance) |
| Risk.RiskScoreMonotone | src/compute_risk.py:107-108 | risk does not drop when performance drops or the financial score rises |
| Risk.ScoreRow | src/compute_risk.py:54-108 | a summary row carries its KPI row unchanged; each norm column is that metric normalised against the table's bounds; `performance_score` is the score of the row's own four norms and `risk_score` the risk of the row's own performance and financial score; risk is NULL iff performance is NULL |
| Risk.RiskBeforeIsTotalPreorder | src/compute_risk.py:111 | ordering by descending risk score with NULL risk last is total and transitive, so the ranking is well defined |
| Risk.RiskSummary | src/compute_risk.py:111 | one output row per KPI row; the output is a permutation of the scored rows, non-increasing in risk among rows with a risk score, and every row after a NULL risk also has a NULL risk |
| Risk.SummaryRowIsScored | src/compute_risk.py:82-101 | every summary row is the scored version of some input KPI row |
| Risk.SummaryCarriesKpis | src/compute_risk.py:82-101 | the KPI columns of the summary are exactly the input KPI rows, as a multiset |
| Risk.ScoreRowBounds | src/compute_risk.py:59-108 | the on-time, delay and quality norms are never NULL; every present norm and the performance score lie in [0,1]; performance is NULL iff the fill norm is; risk lies in [0,1] for a financial score in [0,100] |
| Risk.NormFillNullIff | src/compute_risk.py:71-74 | the fill norm is NULL iff the supplier's fill rate is NULL and the fill range is not degenerate |
| Risk.SummaryRowBounds | src/compute_risk.py:85-108 | for every row of the ranked summary: the same bounds and NULL rules, performance computed from the row's four norms and risk from the row's performance |
| Risk.DegenerateMetricScoresOne | src/compute_risk.py:59-80 | when every supplier has the same value of a metric, every row's norm for it is exactly 1.0 |
| Risk.ExtremesScoreOneAndZero | src/compute_risk.py:59-80 | in a non-degenerate range the minimum scores 0 and the maximum scores 1 on higher-is-better metrics, and the reverse on delay and quality |
| Risk.NormsFollowRawOrder | src/compute_risk.py:59-80 | between two summary rows, the norms keep the order of the raw metric, reversed for delay and quality |
| Generator.Clamp | src/generate_data.py:75-77 | the result lies in [lo, hi] when lo <= hi, equals x when x is already in range, and is the nearer bound otherwise (lo whenever lo > hi) |
| Generator.ClampMonotone | src/generate_data.py:75-77 | clamping is monotone in x |
| Generator.RandDate | src/generate_data.py:69-72 | the date is `start` plus the drawn offset and lies in [start, end] |
| Generator.ProfileFor | src/generate_data.py:107-113 | late probability in [0.05,0.65], quality probability in [0.01,0.20], partial probability in [0.05,0.55] |
| Generator.ProfileUnclamped | src/generate_data.py:109-113 | for a financial score in [0,100] no clamp is active: late is 0.22 + 0.0025·fin, quality is 0.04 + 0.0006·fin, partial is 0.18 + 0.0015·fin |
| Generator.ProfileMonotone | src/generate_data.py:107-113 | a higher financial risk score never lowers any of the three probabilities |
| Generator.BuildProfiles | src/generate_data.py:107-118 | the dictionary has exactly the supplier ids as keys; each entry is the profile of a supplier with that id, and of the supplier itself when ids are unique |
| Generator.MakeOrder | src/generate_data.py:124-141 | the order carries its id, supplier and quantity; its order date lies in the window; the promised date is the order date plus the lead time, so 3 to 21 days later |
| Generator.GenerateOrders | src/generate_data.py:123-142 | one order per draw, in draw order, each naming a generated supplier, with order date in the window and quantity in [10,500] |
| Generator.DeliveryDate | src/generate_data.py:156-166 | a draw below the late probability gives promised + 1..14; a draw in the next early-probability band gives promised - 4..1; otherwise exactly promised; on or before promised iff the draw is not below the late probability |
| Generator.DeliveredQuantity | src/generate_data.py:171-176 | a non-partial delivery delivers the ordered quantity; a partial one delivers at least 0; for a non-negative order it delivers a nearest integer to ordered × ratio, and for an order of at least 10 units between 1 and the ordered quantity |
| Generator.QualityFlag | src/generate_data.py:179 | the flag is 0 or 1, and it is 1 iff the draw is below the supplier's quality probability |
| Generator.MakeDelivery | src/generate_data.py:147-188 | the delivery carries the order's `po_id`; its date is promised + the late draw when the timing draw is below the late probability, promised - the early draw in the next early-probability band, and exactly promised otherwise, so 4 days early to 14 days late and on time iff the timing draw is not below the late probability; a non-partial delivery delivers the full order, a partial one a nearest integer to ordered × ratio (between 1 and the ordered quantity for at least 10 units); the quality flag is 0 or 1, and 1 iff the quality draw is below the quality probability |
| Generator.GenerateDeliveries | src/generate_data.py:146-188 | exactly one delivery per purchase order, in the same order and with the same `po_id`, each made by the per-order rule from that supplier's profile |
| Generator.Generate | src/generate_data.py:105-188 | the order and delivery lists have one entry per draw and correspond index by index by `po_id`; order j is made by the per-order rule from its drawn supplier, with its order date in the window; with unique supplier ids, delivery j is made by the per-delivery rule from that supplier's own profile; every order names a generated supplier; no delivery exceeds its order |
| Pipeline.GeneratedOrdersAllJoin | src/generate_data.py:146-188 | on generated tables no order is orphaned: every order, paired with its delivery, is a row of the KPI join |
| Pipeline.GeneratedSupplierReportedIffOrdered | src/compute_kpis.py:39-62 | on generated tables a supplier gets a KPI row iff some order names it |
| Pipeline.GeneratedDeliveryOnTimeIff | src/generate_data.py:156-166 | a generated delivery gets the on-time flag iff its timing draw missed the late probability, and its delay lies in [-4, 14] |
| Pipeline.ExampleKpis | src/compute_kpis.py:19-63 | one supplier, 100 ordered, promised day 19732, delivered two days later with 80 units: on-time 0, delay 2, fill 0.8, quality 0, one order |
| Pipeline.ExampleRisk | src/compute_risk.py:38-111 | for that lone supplier every metric's range is degenerate, so all norms and the performance score are 1 and the risk score is 0.15 |

## Left out

- `src/load_duckdb.py` is not part of this model. Its primary keys are reflected only as a precondition: `UniqueSupplierIds`, from the `supplier_id` primary key.
- The Streamlit dashboard and the Airflow DAG are not part of this model.
- Database side effects are left out: opening and closing connections, `DROP TABLE`/`CREATE TABLE`, and the printed previews. Only the query results are modelled.
- Floating point is left out. `DOUBLE` and Python `float` are modelled as exact `real`, so rounding error, overflow and NaN are not represented.
- Randomness, CSV writing and ID formatting are left out:
  - The seeded generator, `rng.choice`, `rng.randint`, `rng.uniform` and `rng.random` become parameters. A whole draw record is given per order even where the source draws a value only on one branch, so the order in which draws are consumed from the generator is not modelled.
  - The `S001`/`PO00001` id strings, ISO date strings and CSV output are not modelled.
- The supplier loop of the generator is not modelled. It only draws random attributes and formats ids, so the supplier list is an input.
- The seed, the number of suppliers and the number of orders set the lengths of the inputs and are not constants of the model.
- Input columns other than `fill_rate` are never NULL in the model. Malformed dates and negative quantities are accepted as they are, as in the source.
- Kpis.SupplierKpis: requires unique supplier ids. The model emits one row per row of the supplier table, and a group is the joined rows carrying that supplier record (the five `GROUP BY` columns). A supplier row repeated in the input would therefore give two identical KPI rows where `GROUP BY` gives one. The `supplier_id` primary key rules that input out.
- Risk.RiskSummary: it places rows whose risk is NULL after the others, following DuckDB's default. The query has no tie-breaker, so no order among equal risk scores is fixed, and the contract fixes none.
- Risk.RiskScore: its contract gives the formula's bounds and special cases rather than the formula itself, which is the body.
- Generator.DeliveredQuantity: Python's round-half-to-even is left abstract. The rounded value is a parameter within 1/2 of `ordered * ratio`, so at a tie either neighbour is allowed. For a negative ordered quantity, which the generator never draws, the contract only says the result is not negative.
