/**
 * The risk evaluator of the risk page (idc.py): five independent threshold
 * rules applied to the latest record, each appending one finding, followed by
 * the high- and medium-severity counts.  The finding's formatted detail text
 * is not modelled; a finding is its rule and its severity.
 */
module Risk {
  import opened Scoring

  datatype Severity = High | Medium   // 高, 中

  /** The five rules, named after their labels. */
  datatype RiskKind =
    | HighChurn                 // 客户流失率过高
    | TooManyHighRiskCustomers  // 高风险客户过多
    | SlowReceivables           // 回款周期过长
    | ServiceInstability        // 服务稳定性问题
    | ThinPipeline              // 销售机会不足

  datatype RiskPoint = RiskPoint(kind: RiskKind, severity: Severity)

  /** The order in which the rules are checked. */
  const RuleOrder: seq<RiskKind> := [HighChurn, TooManyHighRiskCustomers, SlowReceivables, ServiceInstability, ThinPipeline]

  function RuleIndex(k: RiskKind): nat {
    match k
    case HighChurn => 0
    case TooManyHighRiskCustomers => 1
    case SlowReceivables => 2
    case ServiceInstability => 3
    case ThinPipeline => 4
  }

  function SeverityOf(k: RiskKind): Severity {
    match k
    case HighChurn => High
    case TooManyHighRiskCustomers => High
    case SlowReceivables => Medium
    case ServiceInstability => High
    case ThinPipeline => Medium
  }

  /** Each rule's strict threshold comparison. */
  predicate Fires(k: RiskKind, r: MetricRecord) {
    match k
    case HighChurn => r.churnRate > 3.0
    case TooManyHighRiskCustomers => r.highRiskShare > 10.0
    case SlowReceivables => r.receivablesDays > 45.0
    case ServiceInstability => r.outageCount > 1.0
    case ThinPipeline => r.salesPipeline < 40.0
  }

  /** The finding rule k appends for r: one point, or none. */
  function Emit(k: RiskKind, r: MetricRecord): seq<RiskPoint> {
    if Fires(k, r) then [RiskPoint(k, SeverityOf(k))] else []
  }

  /** The rules of ks that fire on r, as findings, in the order of ks. */
  function FiringRules(ks: seq<RiskKind>, r: MetricRecord): seq<RiskPoint> {
    if ks == [] then []
    else Emit(ks[0], r) + FiringRules(ks[1..], r)
  }

  lemma FiringRulesCons(k: RiskKind, ks: seq<RiskKind>, r: MetricRecord)
    ensures FiringRules([k] + ks, r) == Emit(k, r) + FiringRules(ks, r)
  {
    assert ([k] + ks)[1..] == ks;
  }

  /** The rule table's findings are the five rules' appends in rule order. */
  lemma ExpectedRisksByRule(r: MetricRecord)
    ensures ExpectedRisks(r)
         == Emit(HighChurn, r) + Emit(TooManyHighRiskCustomers, r) + Emit(SlowReceivables, r)
          + Emit(ServiceInstability, r) + Emit(ThinPipeline, r)
  {
    assert RuleOrder == [HighChurn] + ([TooManyHighRiskCustomers] + ([SlowReceivables]
                      + ([ServiceInstability] + ([ThinPipeline] + []))));
    FiringRulesCons(ThinPipeline, [], r);
    FiringRulesCons(ServiceInstability, [ThinPipeline] + [], r);
    FiringRulesCons(SlowReceivables, [ServiceInstability] + ([ThinPipeline] + []), r);
    FiringRulesCons(TooManyHighRiskCustomers, [SlowReceivables] + ([ServiceInstability] + ([ThinPipeline] + [])), r);
    FiringRulesCons(HighChurn, [TooManyHighRiskCustomers] + ([SlowReceivables] + ([ServiceInstability] + ([ThinPipeline] + []))), r);
  }

  /** The findings the rule table yields for a record. */
  function ExpectedRisks(r: MetricRecord): seq<RiskPoint> {
    FiringRules(RuleOrder, r)
  }

  /** The risk page's sequence of checks and appends on the latest record. */
  method IdentifyRiskPoints(latest: MetricRecord) returns (riskPoints: seq<RiskPoint>)
    ensures riskPoints == ExpectedRisks(latest)
  {
    riskPoints := [];
    if latest.churnRate > 3.0 {
      riskPoints := riskPoints + [RiskPoint(HighChurn, High)];
    }
    assert riskPoints == Emit(HighChurn, latest);
    if latest.highRiskShare > 10.0 {
      riskPoints := riskPoints + [RiskPoint(TooManyHighRiskCustomers, High)];
    }
    assert riskPoints == Emit(HighChurn, latest) + Emit(TooManyHighRiskCustomers, latest);
    if latest.receivablesDays > 45.0 {
      riskPoints := riskPoints + [RiskPoint(SlowReceivables, Medium)];
    }
    assert riskPoints == Emit(HighChurn, latest) + Emit(TooManyHighRiskCustomers, latest) + Emit(SlowReceivables, latest);
    if latest.outageCount > 1.0 {
      riskPoints := riskPoints + [RiskPoint(ServiceInstability, High)];
    }
    if latest.salesPipeline < 40.0 {
      riskPoints := riskPoints + [RiskPoint(ThinPipeline, Medium)];
    }
    ExpectedRisksByRule(latest);
  }

  /** sum(1 for p in points if p's severity is s). */
  function CountSeverity(points: seq<RiskPoint>, s: Severity): (n: nat)
    ensures n <= |points|
  {
    if points == [] then 0
    else (if points[0].severity == s then 1 else 0) + CountSeverity(points[1..], s)
  }

  // ---------------------------------------------------------------- properties of the rule table

  /** FiringRules keeps exactly the firing rules of ks, each with its own severity. */
  lemma {:induction false} FiringRulesMembers(ks: seq<RiskKind>, r: MetricRecord)
    ensures |FiringRules(ks, r)| <= |ks|
    ensures forall p :: p in FiringRules(ks, r) <==> p.kind in ks && Fires(p.kind, r) && p.severity == SeverityOf(p.kind)
  {
    if ks != [] {
      FiringRulesMembers(ks[1..], r);
      assert forall k :: k in ks <==> k == ks[0] || k in ks[1..];
    }
  }

  /** A rule yields a finding exactly when its strict comparison holds; a value
      equal to the threshold therefore yields nothing.  At most five findings. */
  lemma FindingIffRuleFires(r: MetricRecord, k: RiskKind)
    ensures RiskPoint(k, SeverityOf(k)) in ExpectedRisks(r) <==> Fires(k, r)
    ensures forall p :: p in ExpectedRisks(r) ==> p.severity == SeverityOf(p.kind)
    ensures |ExpectedRisks(r)| <= 5
  {
    FiringRulesMembers(RuleOrder, r);
    assert k in RuleOrder by { assert RuleOrder[RuleIndex(k)] == k; }
  }

  /** If ks is listed in strictly increasing rule order, so are the findings. */
  lemma {:induction false} FiringRulesOrdered(ks: seq<RiskKind>, r: MetricRecord)
    requires forall i, j :: 0 <= i < j < |ks| ==> RuleIndex(ks[i]) < RuleIndex(ks[j])
    ensures forall i, j :: 0 <= i < j < |FiringRules(ks, r)| ==>
              RuleIndex(FiringRules(ks, r)[i].kind) < RuleIndex(FiringRules(ks, r)[j].kind)
  {
    if ks != [] {
      var rest := FiringRules(ks[1..], r);
      FiringRulesOrdered(ks[1..], r);
      FiringRulesMembers(ks[1..], r);
      forall p | p in rest ensures RuleIndex(ks[0]) < RuleIndex(p.kind) {
        var m :| 0 <= m < |ks[1..]| && ks[1..][m] == p.kind;
        assert ks[m + 1] == p.kind;
      }
    }
  }

  /** Findings appear in the fixed rule order: churn, high-risk share,
      receivables, outages, pipeline. */
  lemma FindingsInRuleOrder(r: MetricRecord)
    ensures forall i, j :: 0 <= i < j < |ExpectedRisks(r)| ==>
              RuleIndex(ExpectedRisks(r)[i].kind) < RuleIndex(ExpectedRisks(r)[j].kind)
  {
    FiringRulesOrdered(RuleOrder, r);
  }

  /** No finding is the successful "no risk" outcome: it happens exactly when no rule fires. */
  lemma NoFindingsIffNoRuleFires(r: MetricRecord)
    ensures ExpectedRisks(r) == [] <==>
      !(r.churnRate > 3.0) && !(r.highRiskShare > 10.0) && !(r.receivablesDays > 45.0)
      && !(r.outageCount > 1.0) && !(r.salesPipeline < 40.0)
  {
    ExpectedRisksByRule(r);
  }

  /** Every finding is high or medium, so the two counts add up to the total. */
  lemma {:induction false} CountsPartition(points: seq<RiskPoint>)
    ensures CountSeverity(points, High) + CountSeverity(points, Medium) == |points|
  {
    if points != [] {
      CountsPartition(points[1..]);
    }
  }

  lemma {:induction false} CountSeverityConcat(a: seq<RiskPoint>, b: seq<RiskPoint>, s: Severity)
    ensures CountSeverity(a + b, s) == CountSeverity(a, s) + CountSeverity(b, s)
  {
    if a == [] {
      assert a + b == b;
    } else {
      assert (a + b)[1..] == a[1..] + b;
      CountSeverityConcat(a[1..], b, s);
    }
  }

  function Indicator(b: bool): nat { if b then 1 else 0 }

  /** The high count is the number of firing churn, high-risk-share and outage
      rules; the medium count that of the receivables and pipeline rules. */
  lemma SeverityCountsOfRecord(r: MetricRecord)
    ensures CountSeverity(ExpectedRisks(r), High)
         == Indicator(r.churnRate > 3.0) + Indicator(r.highRiskShare > 10.0) + Indicator(r.outageCount > 1.0)
    ensures CountSeverity(ExpectedRisks(r), Medium)
         == Indicator(r.receivablesDays > 45.0) + Indicator(r.salesPipeline < 40.0)
  {
    ExpectedRisksByRule(r);
    CountOfFive(Emit(HighChurn, r), Emit(TooManyHighRiskCustomers, r), Emit(SlowReceivables, r),
                Emit(ServiceInstability, r), Emit(ThinPipeline, r), High);
    CountOfFive(Emit(HighChurn, r), Emit(TooManyHighRiskCustomers, r), Emit(SlowReceivables, r),
                Emit(ServiceInstability, r), Emit(ThinPipeline, r), Medium);
    HighCountsByRule(r);
    MediumCountsByRule(r);
  }

  lemma HighCountsByRule(r: MetricRecord)
    ensures CountSeverity(Emit(HighChurn, r), High) == Indicator(r.churnRate > 3.0)
    ensures CountSeverity(Emit(TooManyHighRiskCustomers, r), High) == Indicator(r.highRiskShare > 10.0)
    ensures CountSeverity(Emit(SlowReceivables, r), High) == 0
    ensures CountSeverity(Emit(ServiceInstability, r), High) == Indicator(r.outageCount > 1.0)
    ensures CountSeverity(Emit(ThinPipeline, r), High) == 0
  {
    CountOfEmit(HighChurn, r, High);
    CountOfEmit(TooManyHighRiskCustomers, r, High);
    CountOfEmit(SlowReceivables, r, High);
    CountOfEmit(ServiceInstability, r, High);
    CountOfEmit(ThinPipeline, r, High);
  }

  lemma MediumCountsByRule(r: MetricRecord)
    ensures CountSeverity(Emit(HighChurn, r), Medium) == 0
    ensures CountSeverity(Emit(TooManyHighRiskCustomers, r), Medium) == 0
    ensures CountSeverity(Emit(SlowReceivables, r), Medium) == Indicator(r.receivablesDays > 45.0)
    ensures CountSeverity(Emit(ServiceInstability, r), Medium) == 0
    ensures CountSeverity(Emit(ThinPipeline, r), Medium) == Indicator(r.salesPipeline < 40.0)
  {
    CountOfEmit(HighChurn, r, Medium);
    CountOfEmit(TooManyHighRiskCustomers, r, Medium);
    CountOfEmit(SlowReceivables, r, Medium);
    CountOfEmit(ServiceInstability, r, Medium);
    CountOfEmit(ThinPipeline, r, Medium);
  }

  lemma CountOfFive(a: seq<RiskPoint>, b: seq<RiskPoint>, c: seq<RiskPoint>, d: seq<RiskPoint>, e: seq<RiskPoint>, s: Severity)
    ensures CountSeverity(a + b + c + d + e, s)
         == CountSeverity(a, s) + CountSeverity(b, s) + CountSeverity(c, s) + CountSeverity(d, s) + CountSeverity(e, s)
  {
    CountSeverityConcat(a + b + c + d, e, s);
    CountSeverityConcat(a + b + c, d, s);
    CountSeverityConcat(a + b, c, s);
    CountSeverityConcat(a, b, s);
  }

  lemma CountOfEmit(k: RiskKind, r: MetricRecord, s: Severity)
    ensures CountSeverity(Emit(k, r), s) == Indicator(Fires(k, r) && SeverityOf(k) == s)
  {
    if Fires(k, r) {
      assert Emit(k, r)[1..] == [];
    }
  }

  // ---------------------------------------------------------------- test vectors

  /** The last month of the demo data (churn 2.7, high-risk 7, receivables 37,
      outages 0, pipeline 88) raises no risk. */
  lemma DemoLastMonthHasNoRisk(r: MetricRecord)
    requires r.churnRate == 2.7 && r.highRiskShare == 7.0 && r.receivablesDays == 37.0
    requires r.outageCount == 0.0 && r.salesPipeline == 88.0
    ensures ExpectedRisks(r) == []
  {
    NoFindingsIffNoRuleFires(r);
  }

  /** The first month of the demo data (churn 5.2, high-risk 15, receivables 60,
      outages 3, pipeline 35) raises all five risks, in rule order. */
  lemma DemoFirstMonthRaisesAll(r: MetricRecord)
    requires r.churnRate == 5.2 && r.highRiskShare == 15.0 && r.receivablesDays == 60.0
    requires r.outageCount == 3.0 && r.salesPipeline == 35.0
    ensures ExpectedRisks(r) == [RiskPoint(HighChurn, High), RiskPoint(TooManyHighRiskCustomers, High),
                                 RiskPoint(SlowReceivables, Medium), RiskPoint(ServiceInstability, High),
                                 RiskPoint(ThinPipeline, Medium)]
    ensures CountSeverity(ExpectedRisks(r), High) == 3 && CountSeverity(ExpectedRisks(r), Medium) == 2
  {
    ExpectedRisksByRule(r);
    SeverityCountsOfRecord(r);
  }

  /** Churn 5.2 and three outages with the other metrics safe: exactly two
      high findings, churn first. */
  lemma ChurnAndOutagesOnly(r: MetricRecord)
    requires r.churnRate == 5.2 && r.outageCount == 3.0
    requires r.highRiskShare <= 10.0 && r.receivablesDays <= 45.0 && r.salesPipeline >= 40.0
    ensures ExpectedRisks(r) == [RiskPoint(HighChurn, High), RiskPoint(ServiceInstability, High)]
  {
    ExpectedRisksByRule(r);
  }
}
