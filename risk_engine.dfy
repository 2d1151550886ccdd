/**
 * The OSD (Occurrence x Severity x Detection) risk engine: per-risk scores,
 * risk levels and grades, the per-industry correction and the weighted
 * aggregate over a list of risks.
 */
module RiskEngine {
  import opened Models

  // ---------------------------------------------------------------------
  // Per-risk score
  // ---------------------------------------------------------------------

  /** `calculate_osd_score`: the product of the three axes. */
  function CalculateOsdScore(occurrence: int, severity: int, detection: int): (score: int)
    ensures 1 <= occurrence <= 10 && 1 <= severity <= 10 && 1 <= detection <= 10 ==> 1 <= score <= 1000
  {
    ProductBounds(occurrence, severity, detection);
    occurrence * severity * detection
  }

  lemma ProductBounds(o: int, s: int, d: int)
    ensures 1 <= o <= 10 && 1 <= s <= 10 && 1 <= d <= 10 ==> 1 <= o * s * d <= 1000
  {
    if 1 <= o <= 10 && 1 <= s <= 10 && 1 <= d <= 10 {
      assert 1 <= o * s <= 100;
      assert o * s * d <= 100 * d;
    }
  }

  // ---------------------------------------------------------------------
  // Level and grade
  // ---------------------------------------------------------------------

  datatype RiskLevel = Low | Medium | High | VeryHigh {
    /** The string the source returns. */
    function Label(): string {
      match this
      case Low => "낮음"
      case Medium => "중간"
      case High => "높음"
      case VeryHigh => "매우높음"
    }

    function Rank(): nat {
      match this
      case Low => 0
      case Medium => 1
      case High => 2
      case VeryHigh => 3
    }
  }

  datatype RiskGrade = A | B | C | D | E | F {
    function Label(): string {
      match this
      case A => "A"
      case B => "B"
      case C => "C"
      case D => "D"
      case E => "E"
      case F => "F"
    }

    function Rank(): nat {
      match this
      case A => 0
      case B => 1
      case C => 2
      case D => 3
      case E => 4
      case F => 5
    }
  }

  /** `get_risk_level`: each bound is the inclusive lower end of the next level. */
  function GetRiskLevel(riskScore: int): RiskLevel {
    if riskScore < 100 then Low
    else if riskScore < 300 then Medium
    else if riskScore < 600 then High
    else VeryHigh
  }

  /** `get_risk_grade`. */
  function GetRiskGrade(riskScore: int): RiskGrade {
    if riskScore < 50 then A
    else if riskScore < 100 then B
    else if riskScore < 200 then C
    else if riskScore < 400 then D
    else if riskScore < 700 then E
    else F
  }

  const LEVEL_THRESHOLDS: seq<int> := [100, 300, 600]
  const GRADE_THRESHOLDS: seq<int> := [50, 100, 200, 400, 700]

  /** How many of the thresholds `x` has reached: a reference definition of bucketing. */
  function ThresholdsReached(ts: seq<int>, x: int): nat {
    if ts == [] then 0 else (if ts[0] <= x then 1 else 0) + ThresholdsReached(ts[1..], x)
  }

  /** Reaching more of the thresholds never happens for a smaller value. */
  lemma {:induction false} ThresholdsReachedMonotone(ts: seq<int>, x: int, y: int)
    requires x <= y
    ensures ThresholdsReached(ts, x) <= ThresholdsReached(ts, y)
  {
    if ts != [] {
      ThresholdsReachedMonotone(ts[1..], x, y);
    }
  }

  lemma ThresholdsReachedCons(t: int, ts: seq<int>, x: int)
    ensures ThresholdsReached([t] + ts, x) == (if t <= x then 1 else 0) + ThresholdsReached(ts, x)
  {
    assert ([t] + ts)[1..] == ts;
  }

  /** The level is the number of level thresholds (100, 300, 600) the score has reached. */
  lemma RiskLevelByThresholds(riskScore: int)
    ensures GetRiskLevel(riskScore).Rank() == ThresholdsReached(LEVEL_THRESHOLDS, riskScore)
  {
    ThresholdsReachedCons(600, [], riskScore);
    ThresholdsReachedCons(300, [600], riskScore);
    ThresholdsReachedCons(100, [300, 600], riskScore);
    assert [600] == [600] + [];
    assert [300, 600] == [300] + [600];
    assert LEVEL_THRESHOLDS == [100] + [300, 600];
  }

  /** The grade is the number of grade thresholds (50, 100, 200, 400, 700) the score has reached. */
  lemma RiskGradeByThresholds(riskScore: int)
    ensures GetRiskGrade(riskScore).Rank() == ThresholdsReached(GRADE_THRESHOLDS, riskScore)
  {
    var x := riskScore;
    ThresholdsReachedCons(700, [], x);
    ThresholdsReachedCons(400, [700], x);
    ThresholdsReachedCons(200, [400, 700], x);
    ThresholdsReachedCons(100, [200, 400, 700], x);
    ThresholdsReachedCons(50, [100, 200, 400, 700], x);
    assert [700] == [700] + [];
    assert [400, 700] == [400] + [700];
    assert [200, 400, 700] == [200] + [400, 700];
    assert [100, 200, 400, 700] == [100] + [200, 400, 700];
    assert GRADE_THRESHOLDS == [50] + [100, 200, 400, 700];
  }

  /** A higher score never gets a lower level or a better grade. */
  lemma LevelAndGradeMonotone(x: int, y: int)
    requires x <= y
    ensures GetRiskLevel(x).Rank() <= GetRiskLevel(y).Rank()
    ensures GetRiskGrade(x).Rank() <= GetRiskGrade(y).Rank()
  {
    RiskLevelByThresholds(x);
    RiskLevelByThresholds(y);
    ThresholdsReachedMonotone(LEVEL_THRESHOLDS, x, y);
    RiskGradeByThresholds(x);
    RiskGradeByThresholds(y);
    ThresholdsReachedMonotone(GRADE_THRESHOLDS, x, y);
  }

  /** The exact boundaries, each bound belonging to the higher bucket. */
  lemma LevelAndGradeBoundaries()
    ensures GetRiskLevel(99) == Low && GetRiskLevel(100) == Medium
    ensures GetRiskLevel(299) == Medium && GetRiskLevel(300) == High
    ensures GetRiskLevel(599) == High && GetRiskLevel(600) == VeryHigh
    ensures GetRiskGrade(49) == A && GetRiskGrade(50) == B && GetRiskGrade(99) == B && GetRiskGrade(100) == C
    ensures GetRiskGrade(199) == C && GetRiskGrade(200) == D && GetRiskGrade(399) == D && GetRiskGrade(400) == E
    ensures GetRiskGrade(699) == E && GetRiskGrade(700) == F
    ensures GetRiskLevel(336) == High && GetRiskGrade(336) == D
  {
  }

  // ---------------------------------------------------------------------
  // Industry correction
  // ---------------------------------------------------------------------

  /** The `{"O", "S", "D"}` dictionary of axis values. */
  datatype OsdValues = OsdValues(o: int, s: int, d: int)

  predicate InAxisRange(v: OsdValues) {
    1 <= v.o <= 10 && 1 <= v.s <= 10 && 1 <= v.d <= 10
  }

  /** The per-axis multipliers of one industry. */
  datatype Factors = Factors(o: real, s: real, d: real)

  const IDENTITY_FACTORS: Factors := Factors(1.0, 1.0, 1.0)

  /** `INDUSTRY_CORRECTION`. */
  const INDUSTRY_CORRECTION: map<IndustryCategory, Factors> := map[
    ItStartup := Factors(1.2, 1.1, 0.9),
    Education := Factors(0.9, 1.0, 1.1),
    Manufacturing := Factors(1.0, 1.3, 1.0),
    Marketing := Factors(1.1, 0.9, 1.0),
    Finance := Factors(0.8, 1.5, 1.2),
    Service := Factors(1.0, 1.0, 1.0),
    ProjectManagement := Factors(1.1, 1.2, 0.9),
    GeneralBusiness := Factors(1.0, 1.0, 1.0)
  ]

  /** `INDUSTRY_CORRECTION.get(industry, identity)`. */
  function CorrectionFor(c: IndustryCategory): Factors {
    if c in INDUSTRY_CORRECTION then INDUSTRY_CORRECTION[c] else IDENTITY_FACTORS
  }

  /** Every category has its factors, all between 0.8 and 1.5; service and general business use 1.0 throughout. */
  lemma CorrectionTableFacts(c: IndustryCategory)
    ensures c in INDUSTRY_CORRECTION
    ensures 0.8 <= CorrectionFor(c).o <= 1.5 && 0.8 <= CorrectionFor(c).s <= 1.5 && 0.8 <= CorrectionFor(c).d <= 1.5
    ensures c == Service || c == GeneralBusiness ==> CorrectionFor(c) == IDENTITY_FACTORS
  {
  }

  /** Python's `round(x)` to an integer, with halves rounded up. */
  function Round(x: real): (r: int)
    ensures x - 0.5 < r as real <= x + 0.5
  {
    (x + 0.5).Floor
  }

  /** `min(10, round(v * f))`. */
  function CorrectAxis(v: int, f: real): (r: int)
    ensures r <= 10
    ensures r == 10 || (v as real * f - 0.5 < r as real <= v as real * f + 0.5)
    ensures r == 10 ==> v as real * f >= 9.5
    ensures 1 <= v && 0.8 <= f ==> 1 <= r
  {
    ScaledAtLeastFactor(v, f);
    if Round(v as real * f) < 10 then Round(v as real * f) else 10
  }

  lemma ScaledAtLeastFactor(v: int, f: real)
    ensures 1 <= v && 0.0 <= f ==> v as real * f >= f
  {
    if 1 <= v && 0.0 <= f {
      assert v as real * f == f + (v - 1) as real * f;
    }
  }

  /** `apply_industry_correction`. */
  function ApplyIndustryCorrection(v: OsdValues, industry: IndustryCategory): (r: OsdValues)
    ensures r.o <= 10 && r.s <= 10 && r.d <= 10
    ensures InAxisRange(v) ==> InAxisRange(r)
  {
    var f := CorrectionFor(industry);
    CorrectionTableFacts(industry);
    OsdValues(CorrectAxis(v.o, f.o), CorrectAxis(v.s, f.s), CorrectAxis(v.d, f.d))
  }

  /** Factors of 1.0 leave every axis value of at most 10 unchanged. */
  lemma IdentityCorrection(v: OsdValues, industry: IndustryCategory)
    requires industry == Service || industry == GeneralBusiness
    requires v.o <= 10 && v.s <= 10 && v.d <= 10
    ensures ApplyIndustryCorrection(v, industry) == v
  {
    CorrectionTableFacts(industry);
    assert Round(v.o as real) == v.o;
    assert Round(v.s as real) == v.s;
    assert Round(v.d as real) == v.d;
  }

  /** Finance lowers occurrence and raises severity (clamped at 10) and detection. */
  lemma FinanceCorrectionExample()
    ensures ApplyIndustryCorrection(OsdValues(7, 8, 6), Finance) == OsdValues(6, 10, 7)
  {
    assert Round(7.0 * 0.8) == 6;
    assert Round(8.0 * 1.5) == 12;
    assert Round(6.0 * 1.2) == 7;
  }

  // ---------------------------------------------------------------------
  // Weighted aggregate
  // ---------------------------------------------------------------------

  predicate SortedDesc(s: seq<int>) {
    forall i, j :: 0 <= i < j < |s| ==> s[i] >= s[j]
  }

  /** Insert `x` in front of the first element not above it. */
  function InsertDesc(x: int, s: seq<int>): (r: seq<int>)
    ensures |r| == |s| + 1
  {
    if s == [] || x >= s[0] then [x] + s
    else [s[0]] + InsertDesc(x, s[1..])
  }

  /** Inserting adds exactly `x` to the elements. */
  lemma {:induction false} InsertDescPermutes(x: int, s: seq<int>)
    ensures multiset(InsertDesc(x, s)) == multiset(s) + multiset{x}
    decreases |s|
  {
    if s != [] && x < s[0] {
      InsertDescPermutes(x, s[1..]);
      assert s == [s[0]] + s[1..];
    }
  }

  /** Inserting into a sorted sequence keeps it sorted. */
  lemma {:induction false} InsertDescSorted(x: int, s: seq<int>)
    requires SortedDesc(s)
    ensures SortedDesc(InsertDesc(x, s))
    decreases |s|
  {
    if s != [] && x < s[0] {
      var rest := InsertDesc(x, s[1..]);
      SortedTail(s);
      InsertDescSorted(x, s[1..]);
      assert rest[0] == x || rest[0] == s[1];
      ConsSortedDesc(s[0], rest);
    }
  }

  /** An element at least the head of a sorted sequence can go in front of it. */
  lemma ConsSortedDesc(a: int, s: seq<int>)
    requires SortedDesc(s) && (s != [] ==> a >= s[0])
    ensures SortedDesc([a] + s)
  {
    var r := [a] + s;
    forall i, j | 0 <= i < j < |r| ensures r[i] >= r[j] {
      if i == 0 {
        assert r[j] == s[j - 1] && s[0] >= s[j - 1];
      } else {
        assert r[i] == s[i - 1] && r[j] == s[j - 1];
      }
    }
  }

  /** `sorted(scores, reverse=True)`. */
  function SortDesc(s: seq<int>): (r: seq<int>)
    ensures |r| == |s|
  {
    if s == [] then [] else InsertDesc(s[0], SortDesc(s[1..]))
  }

  /** The sort orders from highest to lowest and keeps the elements. */
  lemma {:induction false} SortDescFacts(s: seq<int>)
    ensures SortedDesc(SortDesc(s))
    ensures multiset(SortDesc(s)) == multiset(s)
    decreases |s|
  {
    if s != [] {
      SortDescFacts(s[1..]);
      InsertDescSorted(s[0], SortDesc(s[1..]));
      InsertDescPermutes(s[0], SortDesc(s[1..]));
      assert s == [s[0]] + s[1..];
    }
  }

  /** A sorted sequence is determined by its elements. */
  lemma {:induction false} SortedUnique(a: seq<int>, b: seq<int>)
    requires SortedDesc(a) && SortedDesc(b) && multiset(a) == multiset(b)
    ensures a == b
    decreases |a|
  {
    MultisetSameLength(a, b);
    if |a| > 0 {
      SortedHeadsEqual(a, b);
      TailsSameElements(a, b);
      SortedTail(a);
      SortedTail(b);
      SortedUnique(a[1..], b[1..]);
      ConsEqual(a, b);
    }
  }

  lemma SortedHeadsEqual(a: seq<int>, b: seq<int>)
    requires SortedDesc(a) && SortedDesc(b) && multiset(a) == multiset(b) && |a| > 0 && |b| > 0
    ensures a[0] == b[0]
  {
    SplitHead(a);
    SplitHead(b);
    SortedHeadIsMax(b, a[0]);
    SortedHeadIsMax(a, b[0]);
  }

  lemma TailsSameElements<T>(a: seq<T>, b: seq<T>)
    requires multiset(a) == multiset(b) && |a| > 0 && |b| > 0 && a[0] == b[0]
    ensures multiset(a[1..]) == multiset(b[1..])
  {
    SplitHead(a);
    SplitHead(b);
  }

  lemma ConsEqual<T>(a: seq<T>, b: seq<T>)
    requires |a| > 0 && |b| > 0 && a[0] == b[0] && a[1..] == b[1..]
    ensures a == b
  {
    assert a == [a[0]] + a[1..];
    assert b == [b[0]] + b[1..];
  }

  lemma MultisetSameLength<T>(a: seq<T>, b: seq<T>)
    requires multiset(a) == multiset(b)
    ensures |a| == |b|
  {
    assert |a| == |multiset(a)|;
    assert |b| == |multiset(b)|;
  }

  lemma SplitHead<T>(a: seq<T>)
    requires |a| > 0
    ensures a[0] in multiset(a)
    ensures multiset(a[1..]) == multiset(a) - multiset{a[0]}
  {
    assert a == [a[0]] + a[1..];
  }

  lemma SortedTail(s: seq<int>)
    requires SortedDesc(s) && |s| > 0
    ensures SortedDesc(s[1..])
  {
  }

  lemma SortedHeadIsMax(s: seq<int>, x: int)
    requires SortedDesc(s) && x in multiset(s)
    ensures s[0] >= x
  {
    assert x in s;
    var i :| 0 <= i < |s| && s[i] == x;
  }

  /** Sorting something already sorted leaves it as it is. */
  lemma SortDescOfSorted(s: seq<int>)
    requires SortedDesc(s)
    ensures SortDesc(s) == s
  {
    SortDescFacts(s);
    SortedUnique(SortDesc(s), s);
  }

  /** The only descending order of a sequence's elements is its sort. */
  lemma SortDescIs(s: seq<int>, t: seq<int>)
    requires multiset(s) == multiset(t) && SortedDesc(t)
    ensures SortDesc(s) == t
  {
    SortDescFacts(s);
    SortedUnique(SortDesc(s), t);
  }

  /**
   * The weight list: 0.4, 0.3, 0.2 for the three largest scores and 0.1
   * spread evenly over the rest, cut to the number of scores.
   */
  function Weights(n: nat): (w: seq<real>)
    ensures |w| == n
  {
    var rest := if n > 3 then n - 3 else 0;
    var full := [0.4, 0.3, 0.2] + seq(rest, _ => 0.1 / (if n > 4 then n - 3 else 1) as real);
    if n <= 3 then full[..n] else full
  }

  function Sum(w: seq<real>): real {
    if w == [] then 0.0 else w[0] + Sum(w[1..])
  }

  /** `sum(s * w for s, w in zip(scores, weights))`. */
  function WeightedSum(xs: seq<int>, ws: seq<real>): real
    decreases |xs|
  {
    if xs == [] || ws == [] then 0.0 else xs[0] as real * ws[0] + WeightedSum(xs[1..], ws[1..])
  }

  lemma {:induction false} SumAppend(a: seq<real>, b: seq<real>)
    ensures Sum(a + b) == Sum(a) + Sum(b)
  {
    if a != [] {
      assert (a + b)[0] == a[0];
      assert (a + b)[1..] == a[1..] + b;
      SumAppend(a[1..], b);
    } else {
      assert a + b == b;
    }
  }

  lemma {:induction false} SumConstant(s: seq<real>, c: real)
    requires forall i :: 0 <= i < |s| ==> s[i] == c
    ensures Sum(s) == |s| as real * c
  {
    if s != [] {
      assert Sum(s) == s[0] + Sum(s[1..]);
      SumConstant(s[1..], c);
      assert Sum(s) == c + (|s| - 1) as real * c;
      DistributeOne((|s| - 1) as real, c);
    }
  }

  lemma DistributeOne(a: real, c: real)
    ensures c + a * c == (a + 1.0) * c
  {
  }

  /** The weights are non-negative and sum to 0.7, 0.9 and 1.0 for 2, 3 and at least 4 scores. */
  lemma WeightsSum(n: nat)
    ensures forall i :: 0 <= i < n ==> Weights(n)[i] >= 0.0
    ensures n == 2 ==> Sum(Weights(n)) == 0.7
    ensures n == 3 ==> Sum(Weights(n)) == 0.9
    ensures n >= 4 ==> Sum(Weights(n)) == 1.0
    ensures Sum(Weights(n)) <= 1.0
  {
    var head := [0.4, 0.3, 0.2];
    if n >= 4 {
      var c := 0.1 / (n - 3) as real;
      assert Weights(n) == head + seq(n - 3, _ => c);
      SumAppend(head, seq(n - 3, _ => c));
      SumConstant(seq(n - 3, _ => c), c);
      SumHead();
    } else {
      assert Weights(n) == head[..n];
      assert head[..0] == [];
      assert head[..1] == [0.4];
      assert head[..2] == [0.4, 0.3];
      assert head[..3] == head;
      SumHead();
    }
  }

  lemma SumHead()
    ensures Sum([0.4]) == 0.4 && Sum([0.4, 0.3]) == 0.7 && Sum([0.4, 0.3, 0.2]) == 0.9
  {
    assert [0.4][1..] == [];
    assert [0.4, 0.3][1..] == [0.3];
    assert [0.3][1..] == [];
    assert [0.4, 0.3, 0.2][1..] == [0.3, 0.2];
    assert [0.3, 0.2][1..] == [0.2];
    assert [0.2][1..] == [];
  }

  /** A weighted sum of scores in [0, 1000] with non-negative weights is at most 1000 times the weight total. */
  lemma {:induction false} WeightedSumBounds(xs: seq<int>, ws: seq<real>)
    requires |xs| == |ws|
    requires forall i :: 0 <= i < |xs| ==> 0 <= xs[i] <= 1000
    requires forall i :: 0 <= i < |ws| ==> ws[i] >= 0.0
    ensures 0.0 <= WeightedSum(xs, ws) <= 1000.0 * Sum(ws)
    decreases |xs|
  {
    if xs != [] {
      var rest := WeightedSum(xs[1..], ws[1..]);
      WeightedSumBounds(xs[1..], ws[1..]);
      assert Sum(ws) == ws[0] + Sum(ws[1..]);
      WeightedSumHead(xs, ws);
      SumOfBounded(WeightedSum(xs, ws) - rest, ws[0], rest, Sum(ws[1..]));
    }
  }

  /** The first term of a weighted sum is at most 1000 times its weight. */
  lemma WeightedSumHead(xs: seq<int>, ws: seq<real>)
    requires |xs| == |ws| > 0 && 0 <= xs[0] <= 1000 && ws[0] >= 0.0
    ensures 0.0 <= WeightedSum(xs, ws) - WeightedSum(xs[1..], ws[1..]) <= 1000.0 * ws[0]
  {
    var p := WeightedSum(xs, ws) - WeightedSum(xs[1..], ws[1..]);
    assert p == xs[0] as real * ws[0];
    ProductBelow(xs[0], ws[0], p);
  }

  lemma SumOfBounded(a: real, wa: real, b: real, wb: real)
    requires 0.0 <= a <= 1000.0 * wa && 0.0 <= b <= 1000.0 * wb
    ensures 0.0 <= a + b <= 1000.0 * (wa + wb)
  {
  }

  lemma ProductBelow(x: int, w: real, p: real)
    requires 0 <= x <= 1000 && w >= 0.0 && p == x as real * w
    ensures 0.0 <= p <= 1000.0 * w
  {
    assert 1000.0 * w == p + (1000 - x) as real * w;
  }

  /** The un-scaled aggregate of scores sorted in descending order. */
  function WeightedAggregate(sorted: seq<int>): real {
    if |sorted| == 1 then sorted[0] as real else WeightedSum(sorted, Weights(|sorted|))
  }

  /** Python's `int(x)`: truncation toward zero. */
  function TruncToInt(x: real): (r: int)
    ensures x >= 0.0 ==> r as real <= x < r as real + 1.0
    ensures x < 0.0 ==> r as real - 1.0 < x <= r as real
  {
    if x >= 0.0 then x.Floor else -((-x).Floor)
  }

  /** Python's `round(x, 2)`, with halves rounded up. */
  function RoundTo2(x: real): real {
    Round(x * 100.0) as real / 100.0
  }

  function ScoresOf(rs: seq<OsdScore>): (xs: seq<int>)
    ensures |xs| == |rs|
  {
    if rs == [] then [] else [rs[0].riskScore] + ScoresOf(rs[1..])
  }

  lemma {:induction false} ScoresOfIndex(rs: seq<OsdScore>, i: nat)
    requires i < |rs|
    ensures ScoresOf(rs)[i] == rs[i].riskScore
  {
    if i > 0 {
      ScoresOfIndex(rs[1..], i - 1);
    }
  }

  lemma {:induction false} ScoresOfAppend(a: seq<OsdScore>, b: seq<OsdScore>)
    ensures ScoresOf(a + b) == ScoresOf(a) + ScoresOf(b)
  {
    if a != [] {
      assert (a + b)[1..] == a[1..] + b;
      ScoresOfAppend(a[1..], b);
    } else {
      assert a + b == b;
    }
  }

  /** The `(score, level, grade)` triple `calculate_overall_risk` returns. */
  datatype OverallRisk = OverallRisk(score: real, level: RiskLevel, grade: RiskGrade)

  /**
   * `calculate_overall_risk` on the list of risk scores: the 0-100 score is
   * scaled from the weighted sum, while level and grade come from the
   * truncated, unscaled sum.
   */
  function OverallRiskOfScores(scores: seq<int>): OverallRisk {
    OverallRiskOfSorted(SortDesc(scores))
  }

  /** The aggregate of the scores once sorted from highest to lowest. */
  function OverallRiskOfSorted(sorted: seq<int>): OverallRisk {
    if |sorted| == 0 then OverallRisk(0.0, Low, A)
    else
      var avg := WeightedAggregate(sorted);
      OverallRisk(RoundTo2(avg / 1000.0 * 100.0), GetRiskLevel(TruncToInt(avg)), GetRiskGrade(TruncToInt(avg)))
  }

  /** `calculate_overall_risk`. */
  function CalculateOverallRisk(osdScores: seq<OsdScore>): OverallRisk {
    OverallRiskOfScores(ScoresOf(osdScores))
  }

  /** No risks: score 0, level low, grade A. */
  lemma OverallRiskEmpty()
    ensures CalculateOverallRisk([]) == OverallRisk(0.0, Low, A)
  {
  }

  /** A single risk enters undivided: its own score is the weighted sum. */
  lemma OverallRiskSingle(r: OsdScore)
    ensures CalculateOverallRisk([r]) ==
      OverallRisk(RoundTo2(r.riskScore as real / 10.0), GetRiskLevel(r.riskScore), GetRiskGrade(r.riskScore))
  {
    assert ScoresOf([r]) == [r.riskScore];
    SortDescOfSorted([r.riskScore]);
    assert TruncToInt(r.riskScore as real) == r.riskScore;
    assert r.riskScore as real / 1000.0 * 100.0 == r.riskScore as real / 10.0;
  }

  /** The aggregate depends only on the multiset of scores, not on their order. */
  lemma OverallRiskOrderIndependent(a: seq<int>, b: seq<int>)
    requires multiset(a) == multiset(b)
    ensures OverallRiskOfScores(a) == OverallRiskOfScores(b)
  {
    SortDescFacts(a);
    SortDescFacts(b);
    SortedUnique(SortDesc(a), SortDesc(b));
  }

  /** Reordering the risks themselves does not change the aggregate either. */
  lemma CalculateOverallRiskPermutation(a: seq<OsdScore>, b: seq<OsdScore>)
    requires multiset(a) == multiset(b)
    ensures CalculateOverallRisk(a) == CalculateOverallRisk(b)
  {
    ScoresOfPermutation(a, b);
    OverallRiskOrderIndependent(ScoresOf(a), ScoresOf(b));
  }

  lemma {:induction false} ScoresOfPermutation(a: seq<OsdScore>, b: seq<OsdScore>)
    requires multiset(a) == multiset(b)
    ensures multiset(ScoresOf(a)) == multiset(ScoresOf(b))
    decreases |a|
  {
    MultisetSameLength(a, b);
    if a != [] {
      var j := IndexOf(b, a[0]);
      var b' := b[..j] + b[j + 1..];
      assert multiset(a[1..]) == multiset(b') by {
        SplitHead(a);
        RemoveAt(b, j);
      }
      ScoresOfPermutation(a[1..], b');
      ScoresOfRemoveAt(b, j);
      DropFirst(a);
      ScoresOfRemoveAt(a, 0);
    }
  }

  lemma IndexOf<T>(s: seq<T>, x: T) returns (j: nat)
    requires x in multiset(s)
    ensures j < |s| && s[j] == x
  {
    assert x in s;
    j :| 0 <= j < |s| && s[j] == x;
  }

  lemma RemoveAt<T>(s: seq<T>, j: nat)
    requires j < |s|
    ensures multiset(s[..j] + s[j + 1..]) == multiset(s) - multiset{s[j]}
  {
    assert s == s[..j] + [s[j]] + s[j + 1..];
  }

  lemma ScoresOfRemoveAt(s: seq<OsdScore>, j: nat)
    requires j < |s|
    ensures multiset(ScoresOf(s)) == multiset(ScoresOf(s[..j] + s[j + 1..])) + multiset{s[j].riskScore}
  {
    SplitAround(s, j);
    ScoresOfRemove(s[..j], s[j], s[j + 1..]);
  }

  lemma DropFirst<T>(s: seq<T>)
    requires |s| > 0
    ensures s[..0] + s[1..] == s[1..]
  {
  }

  lemma SplitAround<T>(s: seq<T>, j: nat)
    requires j < |s|
    ensures s == s[..j] + ([s[j]] + s[j + 1..])
  {
  }

  lemma ScoresOfRemove(pre: seq<OsdScore>, x: OsdScore, post: seq<OsdScore>)
    ensures multiset(ScoresOf(pre + ([x] + post))) == multiset(ScoresOf(pre + post)) + multiset{x.riskScore}
  {
    ScoresOfMiddle(pre, x, post);
    ScoresOfAppend(pre, post);
    MultisetOfMiddle(ScoresOf(pre + ([x] + post)), ScoresOf(pre), x.riskScore, ScoresOf(post), ScoresOf(pre + post));
  }

  lemma ScoresOfMiddle(pre: seq<OsdScore>, x: OsdScore, post: seq<OsdScore>)
    ensures ScoresOf(pre + ([x] + post)) == ScoresOf(pre) + ([x.riskScore] + ScoresOf(post))
  {
    ScoresOfAppend(pre, [x] + post);
    ScoresOfAppend([x], post);
    assert ScoresOf([x]) == [x.riskScore];
  }

  lemma MultisetOfMiddle(xs: seq<int>, a: seq<int>, x: int, b: seq<int>, ys: seq<int>)
    requires xs == a + ([x] + b) && ys == a + b
    ensures multiset(xs) == multiset(ys) + multiset{x}
  {
  }

  /** With every score in [1, 1000], the 0-100 score stays in [0, 100]. */
  lemma OverallScoreBounded(rs: seq<OsdScore>)
    requires forall i :: 0 <= i < |rs| ==> ValidOsdScore(rs[i])
    ensures 0.0 <= CalculateOverallRisk(rs).score <= 100.0
  {
    if |rs| > 0 {
      var xs := ScoresOf(rs);
      ScoresInRange(rs);
      SortDescInRange(xs);
      var avg := WeightedAggregate(SortDesc(xs));
      WeightedAggregateBounds(SortDesc(xs));
      RoundTo2Bounded(avg / 1000.0 * 100.0);
      assert CalculateOverallRisk(rs).score == RoundTo2(avg / 1000.0 * 100.0);
    }
  }

  lemma ScoresInRange(rs: seq<OsdScore>)
    requires forall i :: 0 <= i < |rs| ==> ValidOsdScore(rs[i])
    ensures forall k :: 0 <= k < |ScoresOf(rs)| ==> 0 <= ScoresOf(rs)[k] <= 1000
  {
    forall k | 0 <= k < |ScoresOf(rs)| ensures 0 <= ScoresOf(rs)[k] <= 1000 {
      ScoresOfIndex(rs, k);
    }
  }

  lemma SortDescInRange(xs: seq<int>)
    requires forall k :: 0 <= k < |xs| ==> 0 <= xs[k] <= 1000
    ensures forall i :: 0 <= i < |SortDesc(xs)| ==> 0 <= SortDesc(xs)[i] <= 1000
  {
    var sorted := SortDesc(xs);
    SortDescFacts(xs);
    forall i | 0 <= i < |sorted| ensures 0 <= sorted[i] <= 1000 {
      assert sorted[i] in multiset(sorted);
      var k := IndexOf(xs, sorted[i]);
    }
  }

  /** The weighted aggregate of scores in [0, 1000] lies in [0, 1000]. */
  lemma WeightedAggregateBounds(sorted: seq<int>)
    requires |sorted| > 0
    requires forall i :: 0 <= i < |sorted| ==> 0 <= sorted[i] <= 1000
    ensures 0.0 <= WeightedAggregate(sorted) <= 1000.0
  {
    if |sorted| > 1 {
      WeightsSum(|sorted|);
      WeightedSumBounds(sorted, Weights(|sorted|));
    }
  }

  lemma RoundTo2Bounded(x: real)
    requires 0.0 <= x <= 100.0
    ensures 0.0 <= RoundTo2(x) <= 100.0
  {
    var r := Round(x * 100.0);
    assert -0.5 < r as real < 10000.5;
    assert 0 <= r <= 10000;
  }

  /** Three risks scoring 336, 315, 180: weighted sum 264.9, score 26.49, level medium, grade D. */
  lemma OverallRiskExample()
    ensures OverallRiskOfScores([336, 315, 180]) == OverallRisk(26.49, Medium, D)
  {
    var scores := [336, 315, 180];
    assert SortDesc(scores) == scores by {
      assert SortedDesc(scores);
      SortDescOfSorted(scores);
    }
    assert OverallRiskOfSorted(scores) == OverallRisk(26.49, Medium, D) by {
      ThreeAggregate();
      OverallRiskOfAggregate(scores, 264.9);
      ThreeRounding();
    }
  }

  /** The weighted sum of the three example scores. */
  lemma ThreeAggregate()
    ensures WeightedAggregate([336, 315, 180]) == 264.9
  {
    assert Weights(3) == [0.4, 0.3, 0.2];
    WeightedSumExample();
  }

  /** Scaling, rounding and banding of the aggregate 264.9. */
  lemma ThreeRounding()
    ensures RoundTo2(264.9 / 1000.0 * 100.0) == 26.49
    ensures GetRiskLevel(TruncToInt(264.9)) == Medium
    ensures GetRiskGrade(TruncToInt(264.9)) == D
  {
    assert TruncToInt(264.9) == 264;
    assert 264.9 / 1000.0 * 100.0 == 26.49;
    assert 26.49 * 100.0 == 2649.0;
    assert Round(2649.0) == 2649;
  }

  /** The overall risk of a non-empty sorted list, given its aggregate. */
  lemma OverallRiskOfAggregate(sorted: seq<int>, avg: real)
    requires |sorted| > 0 && WeightedAggregate(sorted) == avg
    ensures OverallRiskOfSorted(sorted) ==
      OverallRisk(RoundTo2(avg / 1000.0 * 100.0), GetRiskLevel(TruncToInt(avg)), GetRiskGrade(TruncToInt(avg)))
  {
  }

  lemma WeightedSumExample()
    ensures WeightedSum([336, 315, 180], [0.4, 0.3, 0.2]) == 264.9
  {
    assert [336, 315, 180][1..] == [315, 180];
    assert [315, 180][1..] == [180];
    assert [180][1..] == [];
    assert [0.4, 0.3, 0.2][1..] == [0.3, 0.2];
    assert [0.3, 0.2][1..] == [0.2];
    assert [0.2][1..] == [];
    assert WeightedSum([180], [0.2]) == 36.0;
    assert WeightedSum([315, 180], [0.3, 0.2]) == 94.5 + 36.0;
  }
}
