/**
 * The health scorer and the tier classifier of the IDC sales dashboard
 * (calculate_health_scores in idc.py).  One monthly record of thirteen
 * metrics becomes five weighted dimension sub-scores, their total and a tier.
 * Numbers are exact reals; the weights are an explicit parameter instead of
 * the module-level dictionary the dashboard reads.
 */
module Scoring {
  import opened Results

  /** One row of the input table: a month (as a day ordinal) and its thirteen metrics. */
  datatype MetricRecord = MetricRecord(
    month: int,
    serverUtilization: real,     // 服务器利用率, percent
    bandwidthUtilization: real,  // 带宽利用率, percent
    rackUtilization: real,       // 机柜利用率, percent
    newCustomers: real,          // 新客户数量
    churnRate: real,             // 客户流失率, percent
    avgContractMonths: real,     // 平均合同期限
    monthlyRevenue: real,        // 月收入(万元)
    profitMargin: real,          // 利润率, percent
    receivablesDays: real,       // 应收账款周转天数
    highRiskShare: real,         // 高风险客户占比, percent
    outageCount: real,           // 服务中断次数
    marketGrowth: real,          // 市场增长率, percent
    salesPipeline: real)         // 销售漏斗数量

  /** The weight of each of the five dimensions. */
  datatype Weights = Weights(resource: real, customer: real, financial: real, riskControl: real, growth: real)

  /** The dashboard's configured weights. */
  const DefaultWeights: Weights := Weights(0.25, 0.25, 0.20, 0.15, 0.15)

  /** Weights that are non-negative and sum to one (the scorer does not check it). */
  predicate WellFormed(w: Weights) {
    && w.resource >= 0.0 && w.customer >= 0.0 && w.financial >= 0.0
    && w.riskControl >= 0.0 && w.growth >= 0.0
    && w.resource + w.customer + w.financial + w.riskControl + w.growth == 1.0
  }

  /** The configured weights are well formed. */
  lemma DefaultWeightsWellFormed()
    ensures WellFormed(DefaultWeights)
  {
  }

  /** The five weighted sub-scores of one record. */
  datatype DimensionScores = DimensionScores(resource: real, customer: real, financial: real, riskControl: real, growth: real)

  datatype Tier = Excellent | Good | Fair | Danger   // 优秀, 良好, 一般, 危险

  /** A record with the six columns the scorer adds to it. */
  datatype ScoredRecord = ScoredRecord(record: MetricRecord, scores: DimensionScores, total: real, tier: Tier)

  // Raw dimension values, before weighting.  No value is clamped.

  function ResourceRaw(r: MetricRecord): real {
    r.serverUtilization * 0.4 + r.bandwidthUtilization * 0.4 + r.rackUtilization * 0.2
  }

  function CustomerRaw(r: MetricRecord): real {
    (100.0 - r.churnRate) * 0.4 + (r.avgContractMonths / 36.0 * 100.0) * 0.4 + (r.newCustomers / 25.0 * 100.0) * 0.2
  }

  function FinancialRaw(r: MetricRecord): real {
    r.profitMargin * 0.5 + (100.0 - r.receivablesDays) / 100.0 * 100.0 * 0.3 + r.monthlyRevenue / 400.0 * 100.0 * 0.2
  }

  function RiskControlRaw(r: MetricRecord): real {
    (100.0 - r.highRiskShare) * 0.5 + (10.0 - r.outageCount) / 10.0 * 100.0 * 0.5
  }

  function GrowthRaw(r: MetricRecord): real {
    r.marketGrowth / 5.0 * 100.0 * 0.5 + r.salesPipeline / 100.0 * 100.0 * 0.5
  }

  function Sum(d: DimensionScores): real {
    d.resource + d.customer + d.financial + d.riskControl + d.growth
  }

  /** What the scorer promises of one output row: its metrics unchanged, each
      sub-score the raw dimension value times its weight, the total their sum,
      and the tier the classification of the total. */
  predicate ScoredAs(s: ScoredRecord, r: MetricRecord, w: Weights) {
    && s.record == r
    && s.scores.resource == ResourceRaw(r) * w.resource
    && s.scores.customer == CustomerRaw(r) * w.customer
    && s.scores.financial == FinancialRaw(r) * w.financial
    && s.scores.riskControl == RiskControlRaw(r) * w.riskControl
    && s.scores.growth == GrowthRaw(r) * w.growth
    && s.total == Sum(s.scores)
    && s.tier == Classify(s.total)
  }

  // ---------------------------------------------------------------- tiers

  /** The four conditions handed to np.select, in order. */
  function TierConditions(score: real): seq<bool> {
    [score >= 85.0, score >= 70.0 && score < 85.0, score >= 50.0 && score < 70.0, score < 50.0]
  }

  const TierChoices: seq<Tier> := [Excellent, Good, Fair, Danger]

  /** np.select: the choice of the first true condition; None stands for the default. */
  function SelectFirst<T(==)>(conditions: seq<bool>, choices: seq<T>): (r: Option<T>)
    requires |conditions| == |choices|
    ensures r.None? <==> forall i :: 0 <= i < |conditions| ==> !conditions[i]
    ensures r.Some? ==> exists i :: 0 <= i < |conditions| && conditions[i] && choices[i] == r.value
                                    && forall j :: 0 <= j < i ==> !conditions[j]
  {
    if conditions == [] then None
    else if conditions[0] then Some(choices[0])
    else
      var rest := SelectFirst(conditions[1..], choices[1..]);
      assert forall i :: 1 <= i < |conditions| ==> conditions[i] == conditions[1..][i - 1];
      if rest.Some? then
        var k :| 0 <= k < |conditions| - 1 && conditions[1..][k] && choices[1..][k] == rest.value
                && forall j :: 0 <= j < k ==> !conditions[1..][j];
        assert conditions[k + 1] && choices[k + 1] == rest.value;
        rest
      else rest
  }

  lemma SelectFirstOfFour<T>(a: bool, b: bool, c: bool, d: bool, x: T, y: T, z: T, u: T)
    ensures SelectFirst([a, b, c, d], [x, y, z, u])
         == if a then Some(x) else if b then Some(y) else if c then Some(z) else if d then Some(u) else None
  {
    assert [d][1..] == [] && [u][1..] == [];
    assert SelectFirst([d], [u]) == if d then Some(u) else None;
    assert [c, d][1..] == [d] && [z, u][1..] == [u];
    assert SelectFirst([c, d], [z, u]) == if c then Some(z) else SelectFirst([d], [u]);
    assert [b, c, d][1..] == [c, d] && [y, z, u][1..] == [z, u];
    assert SelectFirst([b, c, d], [y, z, u]) == if b then Some(y) else SelectFirst([c, d], [z, u]);
    assert [a, b, c, d][1..] == [b, c, d] && [x, y, z, u][1..] == [y, z, u];
  }

  /** The tier of a total score; np.select on TierConditions always picks this
      tier, so the '未知' default is never produced. */
  function Classify(score: real): (t: Tier)
    ensures SelectFirst(TierConditions(score), TierChoices) == Some(t)
    ensures t == Excellent <==> score >= 85.0
    ensures t == Good <==> 70.0 <= score < 85.0
    ensures t == Fair <==> 50.0 <= score < 70.0
    ensures t == Danger <==> score < 50.0
  {
    SelectFirstOfFour(score >= 85.0, score >= 70.0 && score < 85.0, score >= 50.0 && score < 70.0, score < 50.0,
                      Excellent, Good, Fair, Danger);
    if score >= 85.0 then Excellent
    else if score >= 70.0 then Good
    else if score >= 50.0 then Fair
    else Danger
  }

  function Rank(t: Tier): nat {
    match t
    case Danger => 0
    case Fair => 1
    case Good => 2
    case Excellent => 3
  }

  function CountTrue(bs: seq<bool>): nat {
    if bs == [] then 0 else (if bs[0] then 1 else 0) + CountTrue(bs[1..])
  }

  /** Exactly one of the four tier conditions holds for every score. */
  lemma TierConditionsExclusive(score: real)
    ensures CountTrue(TierConditions(score)) == 1
  {
    var c := TierConditions(score);
    assert c[3..][1..] == [];
    assert CountTrue(c[3..]) == if c[3] then 1 else 0;
    assert c[2..][1..] == c[3..];
    assert CountTrue(c[2..]) == (if c[2] then 1 else 0) + CountTrue(c[3..]);
    assert c[1..][1..] == c[2..];
    assert CountTrue(c[1..]) == (if c[1] then 1 else 0) + CountTrue(c[2..]);
  }

  /** A higher score never gets a worse tier. */
  lemma TierMonotone(s1: real, s2: real)
    requires s1 <= s2
    ensures Rank(Classify(s1)) <= Rank(Classify(s2))
  {
  }

  // ---------------------------------------------------------------- scoring

  /** Scores every row of the table, as calculate_health_scores adds its six columns. */
  method CalculateHealthScores(df: seq<MetricRecord>, w: Weights) returns (results: seq<ScoredRecord>)
    ensures |results| == |df|
    ensures forall i :: 0 <= i < |df| ==> ScoredAs(results[i], df[i], w)
  {
    results := [];
    var i := 0;
    while i < |df|
      invariant 0 <= i <= |df|
      invariant |results| == i
      invariant forall k :: 0 <= k < i ==> ScoredAs(results[k], df[k], w)
    {
      var r := df[i];
      var scores := DimensionScores(
        ResourceRaw(r) * w.resource,
        CustomerRaw(r) * w.customer,
        FinancialRaw(r) * w.financial,
        RiskControlRaw(r) * w.riskControl,
        GrowthRaw(r) * w.growth);
      var total := Sum(scores);
      results := results + [ScoredRecord(r, scores, total, Classify(total))];
      i := i + 1;
    }
  }

  lemma WeightedBounds(raw: real, weight: real, sub: real)
    requires 0.0 <= raw <= 100.0 && weight >= 0.0 && sub == raw * weight
    ensures 0.0 <= sub <= 100.0 * weight
  {
  }

  /** Five sub-scores, each within [0, 100] times its weight, add up to at most 100. */
  lemma SubScoresBounded(d: DimensionScores, w: Weights)
    requires WellFormed(w)
    requires 0.0 <= d.resource <= 100.0 * w.resource && 0.0 <= d.customer <= 100.0 * w.customer
    requires 0.0 <= d.financial <= 100.0 * w.financial && 0.0 <= d.riskControl <= 100.0 * w.riskControl
    requires 0.0 <= d.growth <= 100.0 * w.growth
    ensures 0.0 <= Sum(d) <= 100.0
  {
  }

  /** Under well-formed weights the total is a weighted average of the raw
      dimension values, so it stays in [0, 100] when every raw value does. */
  lemma TotalWithinRange(s: ScoredRecord, r: MetricRecord, w: Weights)
    requires ScoredAs(s, r, w) && WellFormed(w)
    requires 0.0 <= ResourceRaw(r) <= 100.0 && 0.0 <= CustomerRaw(r) <= 100.0
    requires 0.0 <= FinancialRaw(r) <= 100.0 && 0.0 <= RiskControlRaw(r) <= 100.0
    requires 0.0 <= GrowthRaw(r) <= 100.0
    ensures 0.0 <= s.total <= 100.0
  {
    WeightedBounds(ResourceRaw(r), w.resource, s.scores.resource);
    WeightedBounds(CustomerRaw(r), w.customer, s.scores.customer);
    WeightedBounds(FinancialRaw(r), w.financial, s.scores.financial);
    WeightedBounds(RiskControlRaw(r), w.riskControl, s.scores.riskControl);
    WeightedBounds(GrowthRaw(r), w.growth, s.scores.growth);
    SubScoresBounded(s.scores, w);
  }

  /** With well-formed weights, a record whose five raw values are all equal to
      c has total c. */
  lemma UniformRawGivesSameTotal(s: ScoredRecord, r: MetricRecord, w: Weights, c: real)
    requires ScoredAs(s, r, w) && WellFormed(w)
    requires ResourceRaw(r) == c && CustomerRaw(r) == c && FinancialRaw(r) == c
    requires RiskControlRaw(r) == c && GrowthRaw(r) == c
    ensures s.total == c
  {
    calc {
      s.total;
      c * w.resource + c * w.customer + c * w.financial + c * w.riskControl + c * w.growth;
      c * (w.resource + w.customer + w.financial + w.riskControl + w.growth);
      c;
    }
  }

  /** The raw values are not clamped: a month with long contracts and strong
      growth scores above 100 under the default weights. */
  lemma TotalCanExceedHundred()
    ensures exists r: MetricRecord, s: ScoredRecord :: ScoredAs(s, r, DefaultWeights) && s.total > 100.0
  {
    var r := MetricRecord(0, 100.0, 100.0, 100.0, 50.0, 0.0, 72.0, 800.0, 100.0, 0.0, 0.0, 0.0, 10.0, 200.0);
    var d := DimensionScores(
      ResourceRaw(r) * 0.25, CustomerRaw(r) * 0.25, FinancialRaw(r) * 0.20,
      RiskControlRaw(r) * 0.15, GrowthRaw(r) * 0.15);
    var s := ScoredRecord(r, d, Sum(d), Classify(Sum(d)));
    assert ScoredAs(s, r, DefaultWeights);
    assert s.total > 100.0;
  }

  /** The last month of the dashboard's demo data: resource raw 89.0, sub-score 22.25. */
  lemma DemoLastMonthResource(s: ScoredRecord)
    requires ScoredAs(s, MetricRecord(0, 90.0, 86.0, 93.0, 25.0, 2.7, 31.0, 255.0, 40.0, 37.0, 7.0, 0.0, 3.2, 88.0), DefaultWeights)
    ensures ResourceRaw(s.record) == 89.0 && s.scores.resource == 22.25
  {
  }
}
