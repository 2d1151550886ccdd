/**
 * The cash-loss engine: the per-industry cost structure, the expected loss
 * of one risk and the total over a list of risks. Money is exact `real`.
 */
module CostEngine {
  import opened Models

  /** An ordered label-to-value dictionary. */
  type CostTable = seq<(string, real)>

  const IT_STARTUP_COSTS: CostTable :=
    [("개발비", 0.4), ("디자인비", 0.1), ("PM비용", 0.1), ("서버비", 0.1), ("마케팅비", 0.2), ("기타", 0.1)]
  const EDUCATION_COSTS: CostTable :=
    [("콘텐츠_제작비", 0.3), ("강사비", 0.25), ("플랫폼_운영비", 0.15), ("마케팅비", 0.2), ("기타", 0.1)]
  const MANUFACTURING_COSTS: CostTable :=
    [("설비비", 0.3), ("재료비", 0.25), ("인건비", 0.2), ("유지보수비", 0.15), ("기타", 0.1)]
  const SERVICE_COSTS: CostTable :=
    [("임대료", 0.25), ("인건비", 0.3), ("원재료비", 0.2), ("마케팅비", 0.15), ("기타", 0.1)]
  const MARKETING_COSTS: CostTable :=
    [("광고비", 0.4), ("크리에이티브_제작비", 0.2), ("인건비", 0.2), ("도구_라이선스", 0.1), ("기타", 0.1)]
  const FINANCE_COSTS: CostTable :=
    [("시스템_구축비", 0.3), ("인건비", 0.25), ("규제_대응비", 0.2), ("보안비", 0.15), ("기타", 0.1)]
  const PROJECT_MANAGEMENT_COSTS: CostTable :=
    [("인건비", 0.35), ("장비_임대료", 0.25), ("재료비", 0.2), ("관리비", 0.1), ("기타", 0.1)]
  const GENERAL_BUSINESS_COSTS: CostTable :=
    [("인건비", 0.3), ("운영비", 0.25), ("마케팅비", 0.2), ("시스템비", 0.15), ("기타", 0.1)]

  /** `INDUSTRY_COST_STRUCTURE`. */
  const INDUSTRY_COST_STRUCTURE: map<IndustryCategory, CostTable> := map[
    ItStartup := IT_STARTUP_COSTS,
    Education := EDUCATION_COSTS,
    Manufacturing := MANUFACTURING_COSTS,
    Service := SERVICE_COSTS,
    Marketing := MARKETING_COSTS,
    Finance := FINANCE_COSTS,
    ProjectManagement := PROJECT_MANAGEMENT_COSTS,
    GeneralBusiness := GENERAL_BUSINESS_COSTS
  ]

  /** The industry's table, falling back to the general-business one. */
  function CostStructureFor(industry: IndustryCategory): CostTable {
    if industry in INDUSTRY_COST_STRUCTURE then INDUSTRY_COST_STRUCTURE[industry] else GENERAL_BUSINESS_COSTS
  }

  function Labels(t: CostTable): seq<string> {
    seq(|t|, i requires 0 <= i < |t| => t[i].0)
  }

  predicate DistinctLabels(t: CostTable) {
    forall i, j :: 0 <= i < j < |t| ==> t[i].0 != t[j].0
  }

  /** The sum of the values of a table, in order. */
  function SumValues(t: CostTable): real {
    if t == [] then 0.0 else SumValues(t[..|t| - 1]) + t[|t| - 1].1
  }

  /** `investment_amount * ratio`. */
  function Amount(investment: int, ratio: real): real {
    investment as real * ratio
  }

  /** Each ratio of `table` multiplied by the investment, under the same label. */
  function ScaleTable(investment: int, table: CostTable): (r: CostTable)
    ensures |r| == |table|
  {
    if |table| == 0 then []
    else
      ScaleTable(investment, table[..|table| - 1]) + [(table[|table| - 1].0, Amount(investment, table[|table| - 1].1))]
  }

  lemma ScaleTableLast(investment: int, table: CostTable)
    requires |table| > 0
    ensures ScaleTable(investment, table) ==
      ScaleTable(investment, table[..|table| - 1]) + [(table[|table| - 1].0, Amount(investment, table[|table| - 1].1))]
  {
  }

  /** Entry `k` of the scaled table keeps the label and multiplies the ratio. */
  lemma {:induction false} ScaleTableAt(investment: int, table: CostTable, k: nat)
    requires k < |table|
    ensures ScaleTable(investment, table)[k] == (table[k].0, Amount(investment, table[k].1))
    decreases |table|
  {
    var n := |table| - 1;
    ScaleTableLast(investment, table);
    if k < n {
      assert table[..n][k] == table[k];
      ScaleTableAt(investment, table[..n], k);
    }
  }

  /** `estimate_cost_breakdown`. */
  method EstimateCostBreakdown(investment: int, industry: IndustryCategory) returns (breakdown: CostTable)
    ensures breakdown == ScaleTable(investment, CostStructureFor(industry))
  {
    var structure := CostStructureFor(industry);
    breakdown := [];
    var i := 0;
    while i < |structure|
      invariant 0 <= i <= |structure|
      invariant breakdown == ScaleTable(investment, structure[..i])
    {
      assert structure[..i + 1][..i] == structure[..i];
      assert structure[..i + 1][i] == structure[i];
      ScaleTableLast(investment, structure[..i + 1]);
      breakdown := breakdown + [(structure[i].0, Amount(investment, structure[i].1))];
      i := i + 1;
    }
    assert structure[..i] == structure;
  }

  /**
   * Every industry has its own table; its labels are distinct, so the
   * ordered sequence is the dictionary; its ratios sum to 1; and each ends
   * with "기타" at 0.1.
   */
  lemma CostStructureFacts(industry: IndustryCategory)
    ensures industry in INDUSTRY_COST_STRUCTURE
    ensures DistinctLabels(CostStructureFor(industry))
    ensures SumValues(CostStructureFor(industry)) == 1.0
    ensures |CostStructureFor(industry)| >= 5
    ensures CostStructureFor(industry)[|CostStructureFor(industry)| - 1] == ("기타", 0.1)
  {
    var t := CostStructureFor(industry);
    SumValuesUnrolled(t);
  }

  lemma SumValuesUnrolled(t: CostTable)
    requires 5 <= |t| <= 6
    ensures |t| == 5 ==> SumValues(t) == t[0].1 + t[1].1 + t[2].1 + t[3].1 + t[4].1
    ensures |t| == 6 ==> SumValues(t) == t[0].1 + t[1].1 + t[2].1 + t[3].1 + t[4].1 + t[5].1
  {
    assert SumValues(t[..1]) == t[0].1 by { assert t[..1][..0] == []; }
    assert SumValues(t[..2]) == t[0].1 + t[1].1 by { assert t[..2][..1] == t[..1]; }
    assert SumValues(t[..3]) == t[0].1 + t[1].1 + t[2].1 by { assert t[..3][..2] == t[..2]; }
    assert SumValues(t[..4]) == t[0].1 + t[1].1 + t[2].1 + t[3].1 by { assert t[..4][..3] == t[..3]; }
    assert SumValues(t[..5]) == t[0].1 + t[1].1 + t[2].1 + t[3].1 + t[4].1 by { assert t[..5][..4] == t[..4]; }
    if |t| == 6 {
      assert t[..6] == t;
      assert t[..6][..5] == t[..5];
    } else {
      assert t[..5] == t;
    }
  }

  /** Scaling sums: the scaled amounts add up to the investment times the ratio total. */
  lemma {:induction false} SumScaled(investment: int, t: CostTable)
    ensures SumValues(ScaleTable(investment, t)) == investment as real * SumValues(t)
    decreases |t|
  {
    if t != [] {
      var n := |t| - 1;
      ScaleTableLast(investment, t);
      var whole := ScaleTable(investment, t);
      assert whole[..n] == ScaleTable(investment, t[..n]);
      SumScaled(investment, t[..n]);
    }
  }

  /** The breakdown divides the whole investment among the labels of the industry's table. */
  lemma BreakdownSplitsInvestment(investment: int, industry: IndustryCategory)
    ensures Labels(ScaleTable(investment, CostStructureFor(industry))) == Labels(CostStructureFor(industry))
    ensures DistinctLabels(ScaleTable(investment, CostStructureFor(industry)))
    ensures SumValues(ScaleTable(investment, CostStructureFor(industry))) == investment as real
  {
    var t := CostStructureFor(industry);
    CostStructureFacts(industry);
    SumScaled(investment, t);
    forall k | 0 <= k < |t| ensures ScaleTable(investment, t)[k].0 == t[k].0 {
      ScaleTableAt(investment, t, k);
    }
  }

  // ---------------------------------------------------------------------
  // Loss of one risk
  // ---------------------------------------------------------------------

  /** The severity bands `[lo, hi)` and their impact ratios, in declaration order. */
  const SEVERITY_IMPACT: seq<(int, int, real)> := [(1, 4, 0.1), (4, 7, 0.3), (7, 11, 0.6)]

  const DEFAULT_IMPACT_RATIO: real := 0.3

  /** The ratio of the first band holding `severity`, or the default. */
  function LookupImpact(bands: seq<(int, int, real)>, severity: int): real {
    if bands == [] then DEFAULT_IMPACT_RATIO
    else if bands[0].0 <= severity < bands[0].1 then bands[0].2
    else LookupImpact(bands[1..], severity)
  }

  function ImpactRatio(severity: int): real {
    LookupImpact(SEVERITY_IMPACT, severity)
  }

  /** Severity 1-3 weighs 10%, 4-6 30%, 7-10 60%, anything else the 30% default. */
  lemma ImpactRatioBands(severity: int)
    ensures 1 <= severity <= 3 ==> ImpactRatio(severity) == 0.1
    ensures 4 <= severity <= 6 ==> ImpactRatio(severity) == 0.3
    ensures 7 <= severity <= 10 ==> ImpactRatio(severity) == 0.6
    ensures (severity < 1 || severity > 10) ==> ImpactRatio(severity) == 0.3
  {
    var last := [(7, 11, 0.6)];
    var rest := [(4, 7, 0.3)] + last;
    assert last[1..] == [];
    assert LookupImpact(last, severity) == if 7 <= severity < 11 then 0.6 else 0.3;
    assert rest[1..] == last;
    assert LookupImpact(rest, severity) == if 4 <= severity < 7 then 0.3 else LookupImpact(last, severity);
    assert SEVERITY_IMPACT == [(1, 4, 0.1)] + rest;
    assert SEVERITY_IMPACT[1..] == rest;
  }

  /** `min(1.0, risk_score / 1000.0)`. */
  function Probability(riskScore: int): (p: real)
    ensures p <= 1.0
    ensures riskScore >= 0 ==> 0.0 <= p
    ensures riskScore <= 1000 ==> p == riskScore as real / 1000.0
  {
    if riskScore as real / 1000.0 < 1.0 then riskScore as real / 1000.0 else 1.0
  }

  /** The expected loss of one risk: probability times impact ratio times investment. */
  function RiskLoss(osd: OsdScore, investment: int): real {
    Probability(osd.riskScore) * ImpactRatio(osd.severity) * investment as real
  }

  /** `calculate_risk_impact_cost`: scans the bands in order and stops at the first that holds the severity. */
  method CalculateRiskImpactCost(osd: OsdScore, totalInvestment: int) returns (expectedLoss: real)
    ensures expectedLoss == RiskLoss(osd, totalInvestment)
  {
    var probability := Probability(osd.riskScore);
    var impactRatio := DEFAULT_IMPACT_RATIO;
    var i := 0;
    while i < |SEVERITY_IMPACT|
      invariant 0 <= i <= |SEVERITY_IMPACT|
      invariant impactRatio == DEFAULT_IMPACT_RATIO
      invariant LookupImpact(SEVERITY_IMPACT, osd.severity) == LookupImpact(SEVERITY_IMPACT[i..], osd.severity)
    {
      var band := SEVERITY_IMPACT[i];
      assert SEVERITY_IMPACT[i..][1..] == SEVERITY_IMPACT[i + 1..];
      if band.0 <= osd.severity < band.1 {
        impactRatio := band.2;
        break;
      }
      i := i + 1;
    }
    expectedLoss := probability * impactRatio * totalInvestment as real;
  }

  lemma ProductOfFractions(p: real, r: real, inv: real, loss: real)
    requires 0.0 <= p <= 1.0 && 0.0 <= r <= 0.6 && inv >= 0.0
    requires loss == p * r * inv
    ensures 0.0 <= loss <= 0.6 * inv
  {
    var pr := p * r;
    MulNonNegative(p, r);
    MulNonNegative(1.0 - p, r);
    assert (1.0 - p) * r == r - pr;
    MulNonNegative(pr, inv);
    MulNonNegative(r - pr, inv);
    assert (r - pr) * inv == r * inv - pr * inv;
    MulNonNegative(0.6 - r, inv);
    assert (0.6 - r) * inv == 0.6 * inv - r * inv;
  }

  lemma MulNonNegative(a: real, b: real)
    requires a >= 0.0 && b >= 0.0
    ensures a * b >= 0.0
  {
  }

  /** One valid risk never loses more than 60% of a non-negative investment. */
  lemma RiskLossBounds(osd: OsdScore, investment: int)
    requires ValidOsdScore(osd) && investment >= 0
    ensures 0.0 <= RiskLoss(osd, investment) <= 0.6 * investment as real
  {
    ImpactRatioBands(osd.severity);
    ProductOfFractions(Probability(osd.riskScore), ImpactRatio(osd.severity), investment as real, RiskLoss(osd, investment));
  }

  // ---------------------------------------------------------------------
  // Total over a list of risks
  // ---------------------------------------------------------------------

  /** The `loss_by_risk` entry of one risk. */
  function LossEntryOf(osd: OsdScore, investment: int): LossEntry {
    LossEntry(osd.description, osd.riskScore, Probability(osd.riskScore), RiskLoss(osd, investment))
  }

  /** The sum of the risks' losses, accumulated in list order. */
  function TotalLoss(rs: seq<OsdScore>, investment: int): real {
    if rs == [] then 0.0 else TotalLoss(rs[..|rs| - 1], investment) + RiskLoss(rs[|rs| - 1], investment)
  }

  function SumExpected(entries: seq<LossEntry>): real {
    if entries == [] then 0.0 else SumExpected(entries[..|entries| - 1]) + entries[|entries| - 1].expectedLoss
  }

  /** The analysis `calculate_total_expected_loss` returns, as one value. */
  function LossAnalysis(osdScores: seq<OsdScore>, investment: int, industry: IndustryCategory): CashLossAnalysis {
    var total := TotalLoss(osdScores, investment);
    CashLossAnalysis(
      total,
      CostBreakdown(investment as real * 0.6, investment as real * 0.4, total, ScaleTable(investment, CostStructureFor(industry))),
      seq(|osdScores|, k requires 0 <= k < |osdScores| => LossEntryOf(osdScores[k], investment)),
      total)
  }

  /**
   * `calculate_total_expected_loss`: one entry per risk in input order, the
   * fixed 60/40 capital/operating split, and the two totals (the running sum
   * and the sum over the entries) that the source computes separately.
   */
  method CalculateTotalExpectedLoss(osdScores: seq<OsdScore>, investment: int, industry: IndustryCategory)
    returns (analysis: CashLossAnalysis)
    ensures analysis.costBreakdown.details == ScaleTable(investment, CostStructureFor(industry))
    ensures analysis.costBreakdown.capex == investment as real * 0.6
    ensures analysis.costBreakdown.opex == investment as real * 0.4
    ensures |analysis.lossByRisk| == |osdScores|
    ensures forall i :: 0 <= i < |osdScores| ==> analysis.lossByRisk[i] == LossEntryOf(osdScores[i], investment)
    ensures analysis.costBreakdown.riskImpactCost == TotalLoss(osdScores, investment)
    ensures analysis.totalExpectedLoss == TotalLoss(osdScores, investment)
    ensures analysis.probabilityWeightedLoss == analysis.totalExpectedLoss
    ensures analysis == LossAnalysis(osdScores, investment, industry)
  {
    var costDetails := EstimateCostBreakdown(investment, industry);
    var capex := investment as real * 0.6;
    var opex := investment as real * 0.4;
    var lossByRisk: seq<LossEntry> := [];
    var totalRiskCost := 0.0;
    var i := 0;
    while i < |osdScores|
      invariant 0 <= i <= |osdScores|
      invariant |lossByRisk| == i
      invariant forall k :: 0 <= k < i ==> lossByRisk[k] == LossEntryOf(osdScores[k], investment)
      invariant totalRiskCost == TotalLoss(osdScores[..i], investment)
      invariant SumExpected(lossByRisk) == totalRiskCost
    {
      var osd := osdScores[i];
      var riskCost := CalculateRiskImpactCost(osd, investment);
      assert osdScores[..i + 1][..i] == osdScores[..i];
      totalRiskCost := totalRiskCost + riskCost;
      var entry := LossEntry(osd.description, osd.riskScore, Probability(osd.riskScore), riskCost);
      assert (lossByRisk + [entry])[..i] == lossByRisk;
      lossByRisk := lossByRisk + [entry];
      i := i + 1;
    }
    assert osdScores[..i] == osdScores;
    var probabilityWeightedLoss := SumExpected(lossByRisk);
    analysis := CashLossAnalysis(
      probabilityWeightedLoss,
      CostBreakdown(capex, opex, totalRiskCost, costDetails),
      lossByRisk,
      probabilityWeightedLoss);
  }

  /** The total is at least zero and at most 60% of the investment per risk. */
  lemma {:induction false} TotalLossBounds(rs: seq<OsdScore>, investment: int)
    requires forall i :: 0 <= i < |rs| ==> ValidOsdScore(rs[i])
    requires investment >= 0
    ensures 0.0 <= TotalLoss(rs, investment) <= |rs| as real * 0.6 * investment as real
    decreases |rs|
  {
    if rs != [] {
      var n := |rs| - 1;
      TotalLossBounds(rs[..n], investment);
      RiskLossBounds(rs[n], investment);
    }
  }

  lemma {:induction false} TotalLossAppend(a: seq<OsdScore>, b: seq<OsdScore>, investment: int)
    ensures TotalLoss(a + b, investment) == TotalLoss(a, investment) + TotalLoss(b, investment)
    decreases |b|
  {
    if b == [] {
      assert a + b == a;
    } else {
      var n := |b| - 1;
      assert (a + b)[..|a + b| - 1] == a + b[..n];
      TotalLossAppend(a, b[..n], investment);
    }
  }

  /**
   * The total is not capped at the investment: two risks scoring 1000 with
   * severity 10 lose 120% of it.
   */
  lemma TotalLossNotCapped(investment: int)
    requires investment > 0
    ensures var r := OsdScore(10, 10, 10, 1000, "");
      TotalLoss([r, r], investment) == 1.2 * investment as real > investment as real
  {
    var r := OsdScore(10, 10, 10, 1000, "");
    ImpactRatioBands(10);
    TotalLossAppend([r], [r], investment);
    assert [r][..0] == [];
  }
}
