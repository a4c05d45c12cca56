/**
 * The trend forecaster of the dashboard's prediction page: a straight line
 * fitted to the last six values of one metric, extended a number of 30-day
 * periods past the last month, clipped to the metric's range, and appended to
 * the unchanged history.  Dates are day ordinals.
 */
module Trend {
  import opened Results
  import opened LeastSquares
  import Scoring

  /** The columns a forecast can be asked for. */
  datatype Metric =
    | HealthScore            // 健康度总分
    | ServerUtilization      // 服务器利用率
    | BandwidthUtilization   // 带宽利用率
    | RackUtilization        // 机柜利用率
    | NewCustomers           // 新客户数量
    | ChurnRate              // 客户流失率
    | AvgContractMonths      // 平均合同期限
    | MonthlyRevenue         // 月收入(万元)
    | ProfitMargin           // 利润率
    | ReceivablesDays        // 应收账款周转天数
    | HighRiskShare          // 高风险客户占比
    | OutageCount            // 服务中断次数
    | MarketGrowth           // 市场增长率
    | SalesPipeline          // 销售漏斗数量

  /** The eight metrics the page offers in its select box. */
  predicate Selectable(m: Metric) {
    m in {HealthScore, ServerUtilization, BandwidthUtilization, RackUtilization,
          ChurnRate, MonthlyRevenue, ProfitMargin, SalesPipeline}
  }

  /** np.clip(v, 0, 100), np.clip(v, 0, None), or no clipping. */
  datatype ClampPolicy = Percentage | NonNegative | Unclamped

  /** The clipping branch the forecaster takes for each metric: the six
      percentage columns and the health score are clipped to [0, 100], only the
      outage count to [0, ∞). */
  function PolicyOf(m: Metric): (p: ClampPolicy)
    ensures p == Percentage <==>
      (m == ServerUtilization || m == BandwidthUtilization || m == RackUtilization || m == ProfitMargin
       || m == HighRiskShare || m == ChurnRate || m == HealthScore)
    ensures p == NonNegative <==> m == OutageCount
  {
    match m
    case ServerUtilization | BandwidthUtilization | RackUtilization
       | ProfitMargin | HighRiskShare | ChurnRate => Percentage
    case HealthScore => Percentage
    case OutageCount => NonNegative
    case _ => Unclamped
  }

  /** The metrics on offer never take the outage count's [0, ∞) branch, and
      the high-risk share, though clipped to [0, 100], is not on offer; the
      percentage branch is taken for exactly five of the eight. */
  lemma SelectableBranches(m: Metric)
    requires Selectable(m)
    ensures PolicyOf(m) != NonNegative
    ensures m != HighRiskShare && m != OutageCount
    ensures PolicyOf(m) == Percentage <==> !(m == MonthlyRevenue || m == SalesPipeline)
  {
  }

  /** The value of metric m in a scored row. */
  function MetricValue(s: Scoring.ScoredRecord, m: Metric): real {
    match m
    case HealthScore => s.total
    case ServerUtilization => s.record.serverUtilization
    case BandwidthUtilization => s.record.bandwidthUtilization
    case RackUtilization => s.record.rackUtilization
    case NewCustomers => s.record.newCustomers
    case ChurnRate => s.record.churnRate
    case AvgContractMonths => s.record.avgContractMonths
    case MonthlyRevenue => s.record.monthlyRevenue
    case ProfitMargin => s.record.profitMargin
    case ReceivablesDays => s.record.receivablesDays
    case HighRiskShare => s.record.highRiskShare
    case OutageCount => s.record.outageCount
    case MarketGrowth => s.record.marketGrowth
    case SalesPipeline => s.record.salesPipeline
  }

  /** One dated value of the chosen metric. */
  datatype Observation = Observation(day: int, value: real)

  /** The metric's column, dated by each row's month. */
  function SeriesOf(rows: seq<Scoring.ScoredRecord>, m: Metric): (h: seq<Observation>)
    ensures |h| == |rows|
    ensures forall i :: 0 <= i < |rows| ==> h[i] == Observation(rows[i].record.month, MetricValue(rows[i], m))
  {
    seq(|rows|, i requires 0 <= i < |rows| => Observation(rows[i].record.month, MetricValue(rows[i], m)))
  }

  function Values(h: seq<Observation>): (ys: seq<real>)
    ensures |ys| == |h| && forall i :: 0 <= i < |h| ==> ys[i] == h[i].value
  {
    seq(|h|, i requires 0 <= i < |h| => h[i].value)
  }

  function MinInt(a: int, b: int): int { if a <= b then a else b }

  function MaxReal(a: real, b: real): real { if a >= b then a else b }

  function MinReal(a: real, b: real): real { if a <= b then a else b }

  /** Clips one forecast value as np.clip does: min(max(v, low), high). */
  function Clip(v: real, p: ClampPolicy): (r: real)
    ensures p == Percentage ==> 0.0 <= r <= 100.0 && (0.0 <= v <= 100.0 ==> r == v)
    ensures p == NonNegative ==> r >= 0.0 && (v >= 0.0 ==> r == v)
    ensures p == Unclamped ==> r == v
    ensures p != Unclamped && v < 0.0 ==> r == 0.0
    ensures p == Percentage && v > 100.0 ==> r == 100.0
  {
    match p
    case Percentage => MinReal(MaxReal(v, 0.0), 100.0)
    case NonNegative => MaxReal(v, 0.0)
    case Unclamped => v
  }

  /** Clipping a clipped value changes nothing. */
  lemma ClipIdempotent(v: real, p: ClampPolicy)
    ensures Clip(Clip(v, p), p) == Clip(v, p)
  {
  }

  /** Clipping keeps the order of two values. */
  lemma ClipMonotone(v: real, w: real, p: ClampPolicy)
    requires v <= w
    ensures Clip(v, p) <= Clip(w, p)
  {
  }

  /** The number of values the line is fitted to. */
  const FitWindow: nat := 6

  /** values[-6:]: the last min(6, n) values. */
  function Window(ys: seq<real>): (w: seq<real>)
    ensures |w| == MinInt(FitWindow, |ys|)
    ensures forall i :: 0 <= i < |w| ==> w[i] == ys[|ys| - |w| + i]
  {
    ys[|ys| - MinInt(FitWindow, |ys|)..]
  }

  /** coeff[0] * arange(w, w + periods) + coeff[1]. */
  function Project(l: Line, w: nat, periods: nat): (vs: seq<real>)
    ensures |vs| == periods
    ensures forall k :: 0 <= k < periods ==> vs[k] == Projected(l, w, k)
    ensures periods > 0 ==> vs[0] == l.At(w as real)
    ensures forall k :: 0 <= k < periods - 1 ==> vs[k + 1] == vs[k] + l.slope
  {
    var vs := seq(periods, k requires 0 <= k < periods => Projected(l, w, k));
    forall k | 0 <= k < periods - 1 ensures vs[k + 1] == vs[k] + l.slope {
      ProjectedStep(l, w, k);
    }
    vs
  }

  /** The line's value k steps past a window of w points. */
  function Projected(l: Line, w: nat, k: nat): real {
    l.At((w + k) as real)
  }

  /** One step further along the line adds the slope. */
  lemma ProjectedStep(l: Line, w: nat, k: nat)
    ensures Projected(l, w, k + 1) == Projected(l, w, k) + l.slope
  {
    assert ((w + k + 1) as real) == (w + k) as real + 1.0;
    ShiftedAt(l, (w + k) as real);
  }

  /** The days between two forecast points. */
  const StepDays: int := 30

  /** last_date + timedelta(days=30 * (k + 1)). */
  function ForecastDay(lastDay: int, k: nat): (d: int)
    ensures d > lastDay
  {
    lastDay + StepDays * (k + 1)
  }

  /** The first forecast date is 30 days after the last month, and each
      following one 30 days after the one before. */
  lemma ForecastDaysSpaced(lastDay: int, k: nat)
    ensures ForecastDay(lastDay, 0) == lastDay + 30
    ensures ForecastDay(lastDay, k + 1) == ForecastDay(lastDay, k) + 30
    ensures (ForecastDay(lastDay, k) - lastDay) % 30 == 0
    ensures (ForecastDay(lastDay, k) - lastDay) / 30 == k + 1
  {
  }

  datatype RowKind = Historical | Predicted   // 历史值, 预测值

  /** One row of the combined frame: date, value and kind. */
  datatype SeriesRow = SeriesRow(day: int, value: real, kind: RowKind)

  datatype ForecastError = TooFewPoints

  function HistoryRows(h: seq<Observation>): (rows: seq<SeriesRow>)
    ensures |rows| == |h|
    ensures forall i :: 0 <= i < |h| ==> rows[i] == SeriesRow(h[i].day, h[i].value, Historical)
  {
    seq(|h|, i requires 0 <= i < |h| => SeriesRow(h[i].day, h[i].value, Historical))
  }

  function ForecastRows(lastDay: int, vs: seq<real>, p: ClampPolicy): (rows: seq<SeriesRow>)
    ensures |rows| == |vs|
    ensures forall k :: 0 <= k < |vs| ==>
              rows[k] == SeriesRow(ForecastDay(lastDay, k), Clip(vs[k], p), Predicted)
  {
    seq(|vs|, k requires 0 <= k < |vs| => SeriesRow(ForecastDay(lastDay, k), Clip(vs[k], p), Predicted))
  }

  /** The line the forecaster fits: polyfit over the window of the values. */
  function TrendLine(h: seq<Observation>): Line
    requires |h| >= 2
  {
    Fit(Window(Values(h)))
  }

  /**
   * The history rows followed by `periods` forecast rows.  Row n + k (k from 0)
   * is dated last + 30 (k + 1) and holds the fitted line at x = w + k, clipped;
   * fewer than two points leave the line undetermined.
   */
  function Forecast(h: seq<Observation>, p: ClampPolicy, periods: nat): (r: Result<seq<SeriesRow>, ForecastError>)
    ensures r.Err? <==> |h| < 2
    ensures r.Ok? ==>
      && |r.value| == |h| + periods
      && (forall i :: 0 <= i < |h| ==> r.value[i] == SeriesRow(h[i].day, h[i].value, Historical))
      && (forall j :: |h| <= j < |h| + periods ==>
            && r.value[j].day == ForecastDay(h[|h| - 1].day, j - |h|)
            && r.value[j].kind == Predicted
            && r.value[j].value == Clip(Projected(TrendLine(h), MinInt(FitWindow, |h|), j - |h|), p))
  {
    if |h| < 2 then Err(TooFewPoints)
    else
      var w := Window(Values(h));
      var future := ForecastRows(h[|h| - 1].day, Project(Fit(w), |w|, periods), p);
      var rows := HistoryRows(h) + future;
      assert forall j :: |h| <= j < |h| + periods ==> rows[j] == future[j - |h|];
      Ok(rows)
  }

  /** A history in date order gives a combined table in date order: every
      forecast date lies after the last month, and the forecast dates increase. */
  lemma ForecastChronological(h: seq<Observation>, p: ClampPolicy, periods: nat)
    requires |h| >= 2
    requires forall i, j :: 0 <= i < j < |h| ==> h[i].day < h[j].day
    ensures forall i, j :: 0 <= i < j < |h| + periods ==>
              Forecast(h, p, periods).value[i].day < Forecast(h, p, periods).value[j].day
  {
    var rows := Forecast(h, p, periods).value;
    var last := h[|h| - 1].day;
    forall i, j | 0 <= i < j < |h| + periods ensures rows[i].day < rows[j].day {
      if j < |h| {
        assert rows[i].day == h[i].day && rows[j].day == h[j].day;
      } else if i < |h| {
        assert rows[i].day == h[i].day <= last;
        assert rows[j].day == ForecastDay(last, j - |h|);
      } else {
        assert rows[i].day == ForecastDay(last, i - |h|);
        assert rows[j].day == ForecastDay(last, j - |h|);
      }
    }
  }

  /** The forecast of metric m over the scored table. */
  function ForecastMetric(rows: seq<Scoring.ScoredRecord>, m: Metric, periods: nat): (r: Result<seq<SeriesRow>, ForecastError>)
    ensures r.Err? <==> |rows| < 2
    ensures r.Ok? ==>
      && |r.value| == |rows| + periods
      && (forall i :: 0 <= i < |rows| ==>
            r.value[i] == SeriesRow(rows[i].record.month, MetricValue(rows[i], m), Historical))
      && (forall j :: |rows| <= j < |rows| + periods ==>
            && r.value[j].day == ForecastDay(rows[|rows| - 1].record.month, j - |rows|)
            && r.value[j].kind == Predicted
            && r.value[j].value == Clip(Projected(TrendLine(SeriesOf(rows, m)), MinInt(FitWindow, |rows|), j - |rows|), PolicyOf(m)))
  {
    Forecast(SeriesOf(rows, m), PolicyOf(m), periods)
  }

  /** The predicted rows of a forecast: those after the history. */
  function Predictions(h: seq<Observation>, p: ClampPolicy, periods: nat): (vs: seq<real>)
    requires |h| >= 2
    ensures |vs| == periods
    ensures forall k :: 0 <= k < periods ==> vs[k] == Clip(Projected(TrendLine(h), MinInt(FitWindow, |h|), k), p)
  {
    var rows := Forecast(h, p, periods).value;
    var vs := seq(periods, k requires 0 <= k < periods => rows[|h| + k].value);
    assert forall k :: 0 <= k < periods ==> vs[k] == rows[|h| + k].value && |h| + k - |h| == k;
    vs
  }

  /** Forecast values of percentage metrics and the health score lie in [0, 100],
      outage counts are never negative, and other metrics keep the line's value. */
  lemma PredictionsRespectPolicy(h: seq<Observation>, p: ClampPolicy, periods: nat, k: nat)
    requires |h| >= 2 && k < periods
    ensures p == Percentage ==> 0.0 <= Predictions(h, p, periods)[k] <= 100.0
    ensures p == NonNegative ==> Predictions(h, p, periods)[k] >= 0.0
    ensures p == Unclamped ==> Predictions(h, p, periods)[k] == Projected(TrendLine(h), MinInt(FitWindow, |h|), k)
  {
    var v := Projected(TrendLine(h), MinInt(FitWindow, |h|), k);
    assert Predictions(h, p, periods)[k] == Clip(v, p);
  }

  /** The metrics that are clipped to [0, 100] are forecast inside it. */
  lemma PercentageMetricsStayInRange(rows: seq<Scoring.ScoredRecord>, m: Metric, periods: nat, k: nat)
    requires |rows| >= 2 && k < periods
    requires m in {ServerUtilization, BandwidthUtilization, RackUtilization, ProfitMargin,
                   HighRiskShare, ChurnRate, HealthScore}
    ensures 0.0 <= ForecastMetric(rows, m, periods).value[|rows| + k].value <= 100.0
  {
    var h := SeriesOf(rows, m);
    var j := |h| + k;
    var v := Projected(TrendLine(h), MinInt(FitWindow, |h|), j - |h|);
    assert Forecast(h, Percentage, periods).value[j].value == Clip(v, Percentage);
  }

  /** Whenever the window lies on a line, the forecast continues that line. */
  lemma ForecastContinuesLine(h: seq<Observation>, p: ClampPolicy, periods: nat, l: Line)
    requires |h| >= 2 && OnLine(Window(Values(h)), l)
    ensures forall j :: |h| <= j < |h| + periods ==>
              Forecast(h, p, periods).value[j].value == Clip(Projected(l, MinInt(FitWindow, |h|), j - |h|), p)
  {
    FitOfPointsOnLine(Window(Values(h)), l);
  }

  /** A window of equal values gives a flat forecast at that value. */
  lemma FlatSeriesGivesFlatForecast(h: seq<Observation>, p: ClampPolicy, periods: nat, c: real)
    requires |h| >= 2
    requires forall i :: |h| - MinInt(FitWindow, |h|) <= i < |h| ==> h[i].value == c
    ensures forall j :: |h| <= j < |h| + periods ==> Forecast(h, p, periods).value[j].value == Clip(c, p)
  {
    var w := Window(Values(h));
    var flat := Line(0.0, c);
    assert OnLine(w, flat) by {
      forall i | 0 <= i < |w| ensures w[i] == flat.At(i as real) {
        assert w[i] == h[|h| - |w| + i].value;
      }
    }
    ForecastContinuesLine(h, p, periods, flat);
  }

  /**
   * The summary's change: (predicted - current) / current * 100.  The page
   * divides without a guard; the model asks for a non-zero baseline.
   */
  function PercentChange(current: real, predicted: real): (pct: real)
    requires current != 0.0
    ensures current + current * pct / 100.0 == predicted
  {
    (predicted - current) / current * 100.0
  }

  /** The change shown as a rise ("trend-up") or a fall. */
  datatype Direction = Up | Down

  function DirectionOf(current: real, predicted: real): (d: Direction)
    ensures d == Up <==> predicted > current
  {
    if predicted > current then Up else Down
  }

  /** With a positive baseline, the shown direction and the sign of the change agree. */
  lemma DirectionMatchesSign(current: real, predicted: real)
    requires current > 0.0
    ensures DirectionOf(current, predicted) == Up <==> PercentChange(current, predicted) > 0.0
  {
    var pct := PercentChange(current, predicted);
    assert current * pct / 100.0 == predicted - current;
    if pct > 0.0 {
      assert current * pct > 0.0;
    } else {
      assert current * pct <= 0.0;
    }
  }

  /** With a negative baseline the page shows a rise ("trend-up", with a "+"
      prefix) exactly when the change it prints is negative. */
  lemma NegativeBaselineInvertsSign(current: real, predicted: real)
    requires current < 0.0
    ensures DirectionOf(current, predicted) == Up <==> PercentChange(current, predicted) < 0.0
  {
    var pct := PercentChange(current, predicted);
    assert current * pct / 100.0 == predicted - current;
    if pct < 0.0 {
      assert current * pct > 0.0;
    } else {
      assert current * pct <= 0.0;
    }
  }

  /** The sample data's profit margin, 30, 32, ..., 40 over its last six months,
      is forecast as 42, 44, ..., 52, thirty per cent above the last value. */
  lemma DemoProfitMarginForecast(h: seq<Observation>)
    requires |h| == 12
    requires Values(h) == [25.0, 27.0, 29.0, 31.0, 33.0, 32.0, 30.0, 32.0, 34.0, 36.0, 38.0, 40.0]
    ensures Predictions(h, Percentage, 6) == [42.0, 44.0, 46.0, 48.0, 50.0, 52.0]
    ensures PercentChange(h[11].value, Predictions(h, Percentage, 6)[5]) == 30.0
  {
    var w := Window(Values(h));
    var l := Line(2.0, 30.0);
    assert w == [30.0, 32.0, 34.0, 36.0, 38.0, 40.0];
    assert OnLine(w, l) by {
      forall i | 0 <= i < |w| ensures w[i] == l.At(i as real) {
        assert w[i] == 30.0 + 2.0 * (i as real);
      }
    }
    FitOfPointsOnLine(w, l);
    assert TrendLine(h) == l;
    var vs := Predictions(h, Percentage, 6);
    forall k | 0 <= k < 6 ensures vs[k] == 42.0 + 2.0 * (k as real) {
      assert vs[k] == Clip(Projected(l, 6, k), Percentage);
      assert Projected(l, 6, k) == 42.0 + 2.0 * (k as real);
    }
    assert h[11].value == 40.0;
  }
}
