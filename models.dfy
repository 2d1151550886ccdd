/**
 * The closed enumerations and the records exchanged by the risk-analysis
 * API. The field ranges the records declare become predicates.
 */
module Models {
  import opened Wrappers

  /** The eight industry categories; the last is the catch-all. */
  datatype IndustryCategory =
    | Education
    | ItStartup
    | Manufacturing
    | Marketing
    | Finance
    | Service
    | ProjectManagement
    | GeneralBusiness

  /** The string value each category carries. */
  function CategoryValue(c: IndustryCategory): string {
    match c
    case Education => "education"
    case ItStartup => "it_startup"
    case Manufacturing => "manufacturing"
    case Marketing => "marketing"
    case Finance => "finance"
    case Service => "service"
    case ProjectManagement => "project_management"
    case GeneralBusiness => "general_business"
  }

  /** `IndustryCategory(s)`: the category whose value is `s`, if any. */
  function CategoryFromValue(s: string): Option<IndustryCategory> {
    if s == "education" then Some(Education)
    else if s == "it_startup" then Some(ItStartup)
    else if s == "manufacturing" then Some(Manufacturing)
    else if s == "marketing" then Some(Marketing)
    else if s == "finance" then Some(Finance)
    else if s == "service" then Some(Service)
    else if s == "project_management" then Some(ProjectManagement)
    else if s == "general_business" then Some(GeneralBusiness)
    else None
  }

  lemma CategoryValueRoundTrip(c: IndustryCategory)
    ensures CategoryFromValue(CategoryValue(c)) == Some(c)
  {
  }

  /** The twenty analysis methods. */
  datatype AnalysisMethod =
    | LogicModel
    | SmartGoal
    | LeanCanvas
    | Swot
    | FiveWhy
    | Fmea
    | Fta
    | Hazop
    | Stp
    | FourP
    | PorterFiveForces
    | VaR
    | MonteCarlo
    | SensitivityAnalysis
    | ServiceBlueprint
    | Sipoc
    | RaidLog
    | PertCpm
    | Rbs
    | Cjm

  /** The string value each method carries (`method.value`). */
  function MethodValue(m: AnalysisMethod): string {
    match m
    case LogicModel => "Logic Model"
    case SmartGoal => "SMART Goal"
    case LeanCanvas => "Lean Canvas"
    case Swot => "SWOT 분석"
    case FiveWhy => "5 Why"
    case Fmea => "FMEA"
    case Fta => "FTA"
    case Hazop => "HAZOP"
    case Stp => "STP 분석"
    case FourP => "4P 분석"
    case PorterFiveForces => "Porter 5 Forces"
    case VaR => "VaR (Value at Risk)"
    case MonteCarlo => "Monte Carlo Simulation"
    case SensitivityAnalysis => "Sensitivity Analysis"
    case ServiceBlueprint => "Service Blueprint"
    case Sipoc => "SIPOC"
    case RaidLog => "RAID Log"
    case PertCpm => "PERT/CPM"
    case Rbs => "RBS (Risk Breakdown Structure)"
    case Cjm => "CJM (Customer Journey Map)"
  }

  /** `AnalysisMethod(s)`: the method whose value is `s`, if any (otherwise Python raises ValueError). */
  function MethodFromValue(s: string): Option<AnalysisMethod> {
    if s == "Logic Model" then Some(LogicModel)
    else if s == "SMART Goal" then Some(SmartGoal)
    else if s == "Lean Canvas" then Some(LeanCanvas)
    else if s == "SWOT 분석" then Some(Swot)
    else if s == "5 Why" then Some(FiveWhy)
    else if s == "FMEA" then Some(Fmea)
    else if s == "FTA" then Some(Fta)
    else if s == "HAZOP" then Some(Hazop)
    else if s == "STP 분석" then Some(Stp)
    else if s == "4P 분석" then Some(FourP)
    else if s == "Porter 5 Forces" then Some(PorterFiveForces)
    else if s == "VaR (Value at Risk)" then Some(VaR)
    else if s == "Monte Carlo Simulation" then Some(MonteCarlo)
    else if s == "Sensitivity Analysis" then Some(SensitivityAnalysis)
    else if s == "Service Blueprint" then Some(ServiceBlueprint)
    else if s == "SIPOC" then Some(Sipoc)
    else if s == "RAID Log" then Some(RaidLog)
    else if s == "PERT/CPM" then Some(PertCpm)
    else if s == "RBS (Risk Breakdown Structure)" then Some(Rbs)
    else if s == "CJM (Customer Journey Map)" then Some(Cjm)
    else None
  }

  /** Storing a method by its value and reading it back gives the same method. */
  lemma MethodValueRoundTrip(m: AnalysisMethod)
    ensures MethodFromValue(MethodValue(m)) == Some(m)
  {
    match m
    case LogicModel | SmartGoal | LeanCanvas | Swot | FiveWhy => FirstMethodsRoundTrip(m);
    case Fmea | Fta | Hazop | Stp | FourP => SecondMethodsRoundTrip(m);
    case PorterFiveForces | VaR | MonteCarlo => ThirdMethodsRoundTrip(m);
    case SensitivityAnalysis | ServiceBlueprint | Sipoc => FourthMethodsRoundTrip(m);
    case RaidLog | PertCpm => FifthMethodsRoundTrip(m);
    case Rbs | Cjm => SixthMethodsRoundTrip(m);
  }

  lemma FirstMethodsRoundTrip(m: AnalysisMethod)
    requires m.LogicModel? || m.SmartGoal? || m.LeanCanvas? || m.Swot? || m.FiveWhy?
    ensures MethodFromValue(MethodValue(m)) == Some(m)
  {
  }

  lemma SecondMethodsRoundTrip(m: AnalysisMethod)
    requires m.Fmea? || m.Fta? || m.Hazop? || m.Stp? || m.FourP?
    ensures MethodFromValue(MethodValue(m)) == Some(m)
  {
  }

  lemma ThirdMethodsRoundTrip(m: AnalysisMethod)
    requires m.PorterFiveForces? || m.VaR? || m.MonteCarlo?
    ensures MethodFromValue(MethodValue(m)) == Some(m)
  {
  }

  lemma FourthMethodsRoundTrip(m: AnalysisMethod)
    requires m.SensitivityAnalysis? || m.ServiceBlueprint? || m.Sipoc?
    ensures MethodFromValue(MethodValue(m)) == Some(m)
  {
  }

  lemma FifthMethodsRoundTrip(m: AnalysisMethod)
    requires m.RaidLog? || m.PertCpm?
    ensures MethodFromValue(MethodValue(m)) == Some(m)
  {
  }

  lemma SixthMethodsRoundTrip(m: AnalysisMethod)
    requires m.Rbs? || m.Cjm?
    ensures MethodFromValue(MethodValue(m)) == Some(m)
  {
  }

  /** `InitialBusinessInput`: the business concept, 1 to 2000 characters. */
  datatype InitialBusinessInput = InitialBusinessInput(concept: string)

  predicate ValidInitialBusinessInput(i: InitialBusinessInput) {
    1 <= |i.concept| <= 2000
  }

  /** `IndustryCategoryInfo`: confidence lies in [0, 100]. */
  datatype IndustryCategoryInfo = IndustryCategoryInfo(categoryId: IndustryCategory, categoryName: string, confidenceScore: int)

  predicate ValidCategoryInfo(i: IndustryCategoryInfo) {
    0 <= i.confidenceScore <= 100
  }

  /** `InitialAnalysisResponse`: the only two fields the record declares. */
  datatype InitialAnalysisResponse = InitialAnalysisResponse(sessionId: string, selectedMethods: seq<AnalysisMethod>)

  /** `Question`: the type must be one of "text", "number", "choice". */
  datatype Question = Question(
    questionId: string,
    analysisMethod: AnalysisMethod,
    questionText: string,
    questionType: string,
    choices: Option<seq<string>>)

  predicate IsQuestionType(t: string) {
    t == "text" || t == "number" || t == "choice"
  }

  predicate ValidQuestion(q: Question) {
    IsQuestionType(q.questionType)
  }

  datatype QuestionGenerationResponse = QuestionGenerationResponse(sessionId: string, questions: seq<Question>, totalQuestions: int)

  datatype Answer = Answer(questionId: string, answer: string)

  /**
   * `OSDScore`: occurrence, severity and detection in [1, 10] and the score in
   * [1, 1000]. Nothing requires the score to equal their product.
   */
  datatype OsdScore = OsdScore(occurrence: int, severity: int, detection: int, riskScore: int, description: string)

  predicate ValidOsdScore(r: OsdScore) {
    && 1 <= r.occurrence <= 10
    && 1 <= r.severity <= 10
    && 1 <= r.detection <= 10
    && 1 <= r.riskScore <= 1000
  }

  /** `CostBreakdown`; `details` is the ordered label-to-amount dictionary. */
  datatype CostBreakdown = CostBreakdown(capex: real, opex: real, riskImpactCost: real, details: seq<(string, real)>)

  /** One entry of `loss_by_risk`. */
  datatype LossEntry = LossEntry(riskDescription: string, osdScore: int, probability: real, expectedLoss: real)

  datatype CashLossAnalysis = CashLossAnalysis(
    totalExpectedLoss: real,
    costBreakdown: CostBreakdown,
    lossByRisk: seq<LossEntry>,
    probabilityWeightedLoss: real)

  datatype AIRecommendation = AIRecommendation(
    category: string,
    priority: string,
    action: string,
    expectedImpact: string,
    implementationDifficulty: string)

  datatype MethodAnalysisResult = MethodAnalysisResult(
    analysisMethod: AnalysisMethod,
    osdRisks: seq<OsdScore>,
    keyFindings: seq<string>,
    methodSpecificInsights: string)

  /** `FinalRiskReport`: the overall score lies in [0, 100]; the cash-loss analysis is optional. */
  datatype FinalRiskReport = FinalRiskReport(
    sessionId: string,
    businessName: string,
    overallRiskScore: real,
    overallRiskLevel: string,
    riskGrade: string,
    methodResults: seq<MethodAnalysisResult>,
    cashLossAnalysis: Option<CashLossAnalysis>,
    aiRecommendations: seq<AIRecommendation>,
    executiveSummary: string,
    createdAt: string,
    analysisMethodsUsed: seq<string>)

  predicate ValidFinalRiskReport(r: FinalRiskReport) {
    0.0 <= r.overallRiskScore <= 100.0
  }

  /**
   * A Python value as a session dictionary holds it, by the shapes the
   * service writes: the lists and the report dictionary are kept as the
   * records they were made from.
   */
  datatype Value =
    | Str(s: string)
    | Int(i: int)
    | NoneValue
    | Categories(infos: seq<IndustryCategoryInfo>)
    | Methods(names: seq<string>)
    | Questions(questions: seq<Question>)
    | Answers(answers: seq<Answer>)
    | Report(report: FinalRiskReport)

  /** Python's truth value: empty strings and lists, zero and `None` are false; a report dictionary has keys. */
  predicate Truthy(v: Value) {
    match v
    case Str(s) => s != ""
    case Int(i) => i != 0
    case NoneValue => false
    case Categories(infos) => infos != []
    case Methods(names) => names != []
    case Questions(questions) => questions != []
    case Answers(answers) => answers != []
    case Report(_) => true
  }
}
