# IDC sales health dashboard — computation core

A Streamlit dashboard (`idc.py`) for an internet-data-centre sales team reads a
monthly table with fourteen columns, then:

- validates that the required columns are present;
- scores every month on five weighted dimensions and sorts each total into a
  tier (优秀 Excellent, 良好 Good, 一般 Fair, 危险 Danger);
- runs five threshold rules on the latest month to list risk points, and counts
  the high and medium ones;
- forecasts one metric by fitting a least-squares line to its last six values
  and extending that line for 1–12 thirty-day periods, clipped to the metric's
  range.

This Dafny project models these four engines on exact reals. Dates are integer
day ordinals.

| file | module | what it holds |
|---|---|---|
| `results.dfy` | `Results` | `Result` and `Option` |
| `scoring.dfy` | `Scoring` | records, weights, the per-row scorer (a method with a loop), the `np.select` tier choice |
| `risk.dfy` | `Risk` | the rule table, the method that appends findings, severity counts |
| `least_squares.dfy` | `LeastSquares` | the degree-one `polyfit` as a closed form; proofs that it solves the normal equations, is their only solution, reproduces exact lines and minimises the squared error |
| `trend.dfy` | `Trend` | the window, the projection, the clipping policies, the history-then-forecast rows, the percentage change |
| `columns.dfy` | `Columns` | the missing-column list and its verdict |

The least-squares sums are built from the front of the sequence. The tail's sums are
those of the same values shifted one step left, so every recursive definition stays
linear, and each inductive step is a small lemma over plain reals.

## Model

| member | source | states |
|---|---|---|
| Scoring.CalculateHealthScores | idc.py:480-502 | one output row per input row; each keeps its metrics and gets the five weighted sub-scores of lines 485-489, their sum as total, and the tier of that total |
| Scoring.Classify | idc.py:495-502 | `np.select` over the four conditions never falls through to the '未知' default; the tier is Excellent iff total ≥ 85, Good iff 70 ≤ total < 85, Fair iff 50 ≤ total < 70, Danger iff total < 50 |
| Scoring.SelectFirst | idc.py:502 | `np.select` semantics: the default (None) exactly when no condition holds, otherwise a choice whose condition holds |
| Scoring.SelectFirstOfFour | idc.py:502 | with four conditions, the choice is the first one that holds |
| Scoring.TierConditionsExclusive | idc.py:496-499 | exactly one of the four tier conditions is true for every total |
| Scoring.TierMonotone | idc.py:495-502 | a higher total never gets a worse tier |
| Scoring.DefaultWeightsWellFormed | idc.py:299-305 | the dashboard's default weights are non-negative and sum to one |
| Scoring.TotalWithinRange | idc.py:485-492 | when the weights (the defaults at idc.py:299-305 among them, by DefaultWeightsWellFormed) are non-negative and sum to one and every raw dimension value lies in [0, 100], the total lies in [0, 100] |
| Scoring.UniformRawGivesSameTotal | idc.py:485-492 | the total is a weighted average: equal raw values c give total c |
| Scoring.TotalCanExceedHundred | idc.py:486-489 | ratios such as contract months/36 are not capped, so a total above 100 is possible with the default weights |
| Scoring.DemoLastMonthResource | idc.py:413-415 | the sample data's last month has resource raw value 89.0 and sub-score 22.25 |
| Risk.IdentifyRiskPoints | idc.py:824-848 | the appended list equals the rule-table specification `ExpectedRisks` |
| Risk.ExpectedRisksByRule | idc.py:825-848 | the rule-table findings are the five rules' appends concatenated in rule order |
| Risk.CountSeverity | idc.py:860 | the count of findings of one severity is at most the number of findings |
| Risk.FiringRulesMembers | idc.py:825-848 | the findings of a rule list are exactly its firing rules, each with its own severity |
| Risk.FindingIffRuleFires | idc.py:825-848 | each rule yields its finding iff its strict comparison holds (churn > 3, high-risk share > 10, receivables > 45, outages > 1, pipeline < 40); every finding carries its rule's severity; at most five findings |
| Risk.FiringRulesOrdered | idc.py:825-848 | findings keep the order of a rule list given in rule order |
| Risk.FindingsInRuleOrder | idc.py:825-848 | findings appear in the fixed order churn, high-risk share, receivables, outages, pipeline |
| Risk.NoFindingsIffNoRuleFires | idc.py:825-848 | the list is empty exactly when all five metrics are on the safe side of their thresholds |
| Risk.CountsPartition | idc.py:860-869 | the high count plus the medium count is the total number of findings |
| Risk.CountSeverityConcat | idc.py:860 | counting over two concatenated lists adds the counts |
| Risk.SeverityCountsOfRecord | idc.py:825-869 | high = number of firing churn, high-risk-share and outage rules; medium = number of firing receivables and pipeline rules |
| Risk.DemoLastMonthHasNoRisk | idc.py:417-425 | the sample data's last month (2.7, 7, 37, 0, 88) raises no finding |
| Risk.DemoFirstMonthRaisesAll | idc.py:417-425 | the sample data's first month raises all five findings: three high, two medium |
| Risk.ChurnAndOutagesOnly | idc.py:825-848 | high churn and three outages, with everything else safe, give exactly those two high findings, in order |
| LeastSquares.DeterminantPositive | idc.py:1066 | with at least two points at x = 0, 1, …, the normal-equation determinant n·Σx² − (Σx)² is positive, so the fit is determined |
| LeastSquares.Solve | idc.py:1066 | the closed-form slope and intercept satisfy both normal equations |
| LeastSquares.SolveIsUnique | idc.py:1066 | any line satisfying both normal equations is the closed form |
| LeastSquares.NormalEquationsBySums | idc.py:1066 | zero residual sum and zero x-weighted residual sum are the two normal equations over Σ1, Σx, Σx², Σy, Σxy |
| LeastSquares.Fit | idc.py:1066 | `np.polyfit(x, y, 1)` over x = 0, 1, …: the fitted line's residuals sum to zero and are orthogonal to x (the normal equations) |
| LeastSquares.FitIsUnique | idc.py:1066 | a line whose residuals satisfy the normal equations is the fitted line |
| LeastSquares.FitOfPointsOnLine | idc.py:1066 | values lying exactly on a line are fitted by that line |
| LeastSquares.FitMinimizesSquaredError | idc.py:1066 | no line has a smaller sum of squared residuals than the fitted one |
| LeastSquares.SquaredErrorExpanded | idc.py:1066 | the squared error of a line is the quadratic form in six sums, Σy² among them |
| LeastSquares.FormNonNegative | idc.py:1066 | the extra squared error of any line over the fitted one, a quadratic form in the slope and intercept differences, is never negative when the determinant is positive |
| Trend.SeriesOf | idc.py:1085-1087 | the selected column as a series, as the history rows and the window at line 1062 read it: one observation per row, dated by the row's month, holding the metric's value |
| Trend.Window | idc.py:1062 | the window is the last min(6, n) values, in order |
| Trend.Clip | idc.py:1070-1075 | percentage clipping gives a value in [0, 100], leaves values inside it unchanged and sends values above 100 to 100; non-negative clipping gives a value ≥ 0 and leaves non-negative values unchanged; both send negative values to 0; otherwise no change |
| Trend.PolicyOf | idc.py:1070-1075 | a metric is clipped to [0, 100] exactly when it is one of the six columns listed at line 1070 or the health score, and to [0, ∞) exactly when it is the outage count; every other metric is unclamped |
| Trend.SelectableBranches | idc.py:1043-1075 | of the eight metrics in the select box none takes the [0, ∞) branch, the high-risk share and the outage count are not offered, and the percentage branch is taken by all but revenue and pipeline |
| Trend.Project | idc.py:1067 | `coeff[0] * arange(w, w + periods) + coeff[1]`: value k is the line at x = w + k, the first is the line at w, and each next value adds the slope |
| Trend.ProjectedStep | idc.py:1067 | one step further along the line adds the slope |
| Trend.ForecastDay | idc.py:1059 | every forecast date lies after the last month |
| Trend.ClipIdempotent | idc.py:1070-1075 | clipping twice is clipping once |
| Trend.ClipMonotone | idc.py:1070-1075 | clipping preserves order |
| Trend.ForecastDaysSpaced | idc.py:1058-1059 | the first forecast date is 30 days after the last month, each next one 30 days later, and date k is exactly k + 1 whole 30-day steps after the last month |
| Trend.Forecast | idc.py:1058-1092 | fewer than two points is an error, and only that; otherwise the n history rows come unchanged, followed by `periods` rows whose dates advance 30 days from the last month and whose values are the fitted line at x = w, w + 1, … (w the window size) clipped by the metric's policy |
| Trend.ForecastMetric | idc.py:1058-1092 | for a chosen metric: an error exactly when the table has fewer than two rows; otherwise each table row's month and metric value as a history row, then `periods` rows dated from the last month, holding the fitted line continued and clipped by the metric's policy |
| Trend.ForecastChronological | idc.py:1059-1092 | when the history is in date order, so is the combined table: forecast dates come after the last month and increase |
| Trend.Predictions | idc.py:1066-1075 | there are exactly `periods` predicted values, value k being the fitted line at x = w + k clipped by the policy |
| Trend.PredictionsRespectPolicy | idc.py:1070-1075 | predicted percentages and health scores lie in [0, 100]; predicted outage counts are ≥ 0; other metrics keep the line's value |
| Trend.PercentageMetricsStayInRange | idc.py:1070-1073 | for the six percentage metrics and the health score, every forecast row of the metric lies in [0, 100] |
| Trend.ForecastContinuesLine | idc.py:1062-1067 | when the window lies exactly on a line, every forecast value is that line continued, then clipped |
| Trend.FlatSeriesGivesFlatForecast | idc.py:1062-1067 | a window of equal values c forecasts c, clipped, in every period |
| Trend.PercentChange | idc.py:1143 | for a non-zero current value, current · (1 + pct/100) is the predicted value |
| Trend.DirectionOf | idc.py:1147 | the summary is marked as a rise exactly when the final forecast exceeds the last value |
| Trend.DirectionMatchesSign | idc.py:1143-1147 | with a positive current value, the summary shows a rise exactly when the change is positive |
| Trend.NegativeBaselineInvertsSign | idc.py:1143-1148 | with a negative last value the page marks a rise, with a "+" prefix, exactly when the printed change is negative |
| Trend.DemoProfitMarginForecast | idc.py:420 | the sample profit margin forecast over six periods is 42, 44, 46, 48, 50, 52, which is +30 % on 40 |
| Columns.Missing | idc.py:452-457 | a name is missing iff it is required and absent; there are never more missing names than required ones |
| Columns.MissingInRequiredOrder | idc.py:457 | the missing names form a subsequence of the required list, so they keep its order |
| Columns.MissingHasNoRepeats | idc.py:457 | a required list without repeats reports each missing name once |
| Columns.NothingPresentReportsAll | idc.py:457 | with no columns present, the whole required list is reported |
| Columns.CheckColumns | idc.py:457-465 | the table is accepted exactly when all fourteen columns are present, and then it is kept as given; otherwise the report is the non-empty missing list |
| Columns.SampleColumnsAccepted | idc.py:452-458 | a table with exactly the required columns is accepted |
| Columns.EmptyTableReportsAll | idc.py:452-459 | a table with no columns is rejected with all fourteen names in order |

## Left out

- Streamlit pages, widgets, charts, CSS, caching, file reading (CSV and Excel), `time.sleep` and `datetime.now()`. They are display or I/O.
- IEEE double arithmetic and NaN: every value is an exact real, so the results are those of exact arithmetic. Rounding in `polyfit`'s SVD is not modelled.
- Trend.Forecast: with fewer than two points no line is determined. An empty table already fails at idc.py:1058, and for one point `polyfit`'s column scaling divides by zero. The model gives `Err(TooFewPoints)` for both.
- Trend.Forecast: `periods` is any natural number. The page's slider allows only 1 to 12 (default 6).
- Trend.Selectable: the select box offers eight metrics, so the high-risk-share and outage-count clipping branches cannot be reached from the page (Trend.SelectableBranches). The model still gives every metric its branch.
- Trend.PercentChange: on the page it divides by the last value without a guard, unlike the guarded revenue change at idc.py:666. With a zero last value numpy yields inf or nan. The model requires a non-zero last value and says nothing about that case.
- Trend.ForecastDay: dates step by exactly 30 days (`timedelta(days=30*i)` at idc.py:1059). Stepping by calendar months (same day, next month) is not modelled.
- Risk.IdentifyRiskPoints: the detail strings of each finding (formatted values) and the advice texts are not modelled. Only the label and the severity are.
- Scoring.CalculateHealthScores: pandas computes the columns vectorised and in place. The model computes row by row into a new sequence, which gives the same per-row values.
- Scoring.WellFormed: the scorer does not check that the weights are non-negative or sum to one. Only the range lemmas assume it.
- The column check's error and success messages and the session-state updates around it are not modelled.
