/**
 * The in-memory `SessionStore` and the three steps of `RiskAnalysisService`:
 * initial analysis, question generation and the final report.
 *
 * The language-model answers are oracles passed in as `Option<string>`
 * (`None` when the call fails); the fresh session id that `uuid4` draws and
 * the timestamps `datetime.now` reads are parameters.
 */
module Service {
  import opened Wrappers
  import opened Text
  import opened Models
  import opened RiskEngine
  import opened CostEngine
  import opened Classifier
  import opened Constants
  import opened GptService
  import opened Seqs

  /** One session: the dictionary, with its keys in no particular order. */
  type Session = map<string, Value>

  /** The whole store: session id to session. */
  type Sessions = map<string, Session>

  // ---------------------------------------------------------------------
  // SessionStore
  // ---------------------------------------------------------------------

  /** `{**session_data, "created_at": ...}`: the data with the timestamp added, or overwriting one it had. */
  function WithCreatedAt(data: Session, createdAt: string): (s: Session)
    ensures s.Keys == data.Keys + {"created_at"}
    ensures s["created_at"] == Str(createdAt)
    ensures forall k :: k in data && k != "created_at" ==> s[k] == data[k]
  {
    data["created_at" := Str(createdAt)]
  }

  /** `dict.update`: the keys of `updates` take their new values, the other keys keep theirs. */
  function Merge(session: Session, updates: Session): (r: Session)
    ensures r.Keys == session.Keys + updates.Keys
    ensures forall k :: k in updates ==> r[k] == updates[k]
    ensures forall k :: k in session && k !in updates ==> r[k] == session[k]
  {
    session + updates
  }

  /** The store after `update_session`: only an existing session changes, and only by the merge. */
  function UpdatedSessions(sessions: Sessions, sessionId: string, updates: Session): (r: Sessions)
    ensures r.Keys == sessions.Keys
    ensures sessionId in sessions ==> r[sessionId] == Merge(sessions[sessionId], updates)
    ensures forall other :: other in sessions && other != sessionId ==> r[other] == sessions[other]
  {
    if sessionId in sessions then sessions[sessionId := Merge(sessions[sessionId], updates)] else sessions
  }

  /** Updating twice with the same keys is the same as updating once. */
  lemma UpdateIdempotent(sessions: Sessions, sessionId: string, updates: Session)
    ensures UpdatedSessions(UpdatedSessions(sessions, sessionId, updates), sessionId, updates)
         == UpdatedSessions(sessions, sessionId, updates)
  {
    if sessionId in sessions {
      var once := Merge(sessions[sessionId], updates);
      assert Merge(once, updates) == once;
    }
  }

  /** An update of an unknown id changes nothing. */
  lemma UpdateUnknownIsNoOp(sessions: Sessions, sessionId: string, updates: Session)
    requires sessionId !in sessions
    ensures UpdatedSessions(sessions, sessionId, updates) == sessions
  {
  }

  /** `delete_session` removes exactly that id, keeps every other session, and does nothing for an unknown id. */
  lemma DeleteFacts(sessions: Sessions, sessionId: string)
    ensures (sessions - {sessionId}).Keys == sessions.Keys - {sessionId}
    ensures forall other :: other in sessions && other != sessionId ==> (sessions - {sessionId})[other] == sessions[other]
    ensures sessionId !in sessions ==> sessions - {sessionId} == sessions
  {
  }

  /** After `create_session`, the new id holds the data plus the timestamp, and every other id is as before. */
  lemma CreateFacts(sessions: Sessions, data: Session, freshId: string, createdAt: string)
    ensures freshId in sessions[freshId := WithCreatedAt(data, createdAt)]
    ensures sessions[freshId := WithCreatedAt(data, createdAt)][freshId]["created_at"] == Str(createdAt)
    ensures forall k :: k in data && k != "created_at" ==> sessions[freshId := WithCreatedAt(data, createdAt)][freshId][k] == data[k]
    ensures forall other :: other in sessions && other != freshId ==> sessions[freshId := WithCreatedAt(data, createdAt)][other] == sessions[other]
  {
  }

  /** `SessionStore`: the dictionary of sessions, mutated in place. */
  class SessionStore {
    var sessions: Sessions

    constructor()
      ensures sessions == map[]
    {
      sessions := map[];
    }

    /** `create_session`; `freshId` stands for the `uuid4` the store draws. */
    method CreateSession(sessionData: Session, freshId: string, createdAt: string) returns (sessionId: string)
      modifies this
      ensures sessionId == freshId
      ensures sessions == old(sessions)[freshId := WithCreatedAt(sessionData, createdAt)]
    {
      sessionId := freshId;
      sessions := sessions[sessionId := WithCreatedAt(sessionData, createdAt)];
    }

    /** `get_session`: `dict.get`, so `None` for an unknown id. */
    function GetSession(sessionId: string): (r: Option<Session>)
      reads this
      ensures r.Some? <==> sessionId in sessions
      ensures r.Some? ==> r.value == sessions[sessionId]
    {
      if sessionId in sessions then Some(sessions[sessionId]) else None
    }

    /** `update_session`. */
    method UpdateSession(sessionId: string, updates: Session)
      modifies this
      ensures sessions == UpdatedSessions(old(sessions), sessionId, updates)
    {
      if sessionId in sessions {
        sessions := sessions[sessionId := Merge(sessions[sessionId], updates)];
      }
    }

    /** `delete_session`. */
    method DeleteSession(sessionId: string)
      modifies this
      ensures sessions == old(sessions) - {sessionId}
    {
      if sessionId in sessions {
        sessions := sessions - {sessionId};
      }
    }
  }

  // ---------------------------------------------------------------------
  // What the three service steps compute
  // ---------------------------------------------------------------------

  const INVALID_SESSION: string := "유효하지 않은 세션 ID입니다."

  /** The keys both later steps read, in the order they read them. */
  const BUSINESS_KEYS: seq<string> := ["business_name", "business_description", "investment_amount"]

  /** `if not session`: no session, or an empty one. */
  predicate MissingSession(sessions: Sessions, sessionId: string) {
    sessionId !in sessions || sessions[sessionId] == map[]
  }

  /** The first of `keys` the session lacks: the one whose `session[key]` raises `KeyError`. */
  function FirstMissing(session: Session, keys: seq<string>): (r: Option<string>)
    ensures r.None? <==> forall k :: k in keys ==> k in session
    ensures r.Some? ==> r.value in keys && r.value !in session
  {
    if keys == [] then None
    else if keys[0] !in session then Some(keys[0])
    else FirstMissing(session, keys[1..])
  }

  /** The key reported is the first one missing: every key before it is present. */
  lemma {:induction false} FirstMissingIsFirst(session: Session, keys: seq<string>)
    requires FirstMissing(session, keys).Some?
    ensures exists i :: 0 <= i < |keys| && keys[i] == FirstMissing(session, keys).value && forall j :: 0 <= j < i ==> keys[j] in session
  {
    if keys[0] in session {
      FirstMissingIsFirst(session, keys[1..]);
      var i :| 0 <= i < |keys[1..]| && keys[1..][i] == FirstMissing(session, keys).value && forall j :: 0 <= j < i ==> keys[1..][j] in session;
      assert keys[i + 1] == FirstMissing(session, keys).value;
      forall j | 0 <= j < i + 1 ensures keys[j] in session {
        if j > 0 { assert keys[j] == keys[1..][j - 1]; }
      }
    } else {
      assert keys[0] == FirstMissing(session, keys).value;
    }
  }

  /** `[m.value for m in methods]`. */
  function MethodValues(methods: seq<AnalysisMethod>): (names: seq<string>)
    ensures |names| == |methods|
  {
    seq(|methods|, k requires 0 <= k < |methods| => MethodValue(methods[k]))
  }

  /** The message of the `ValueError` that `AnalysisMethod(name)` raises. */
  function NotAMethod(name: string): string {
    "'" + name + "' is not a valid AnalysisMethod"
  }

  /** `[AnalysisMethod(m) for m in names]`: the first name that is not a method value raises. */
  function ParseMethodNames(names: seq<string>): Result<seq<AnalysisMethod>>
  {
    if names == [] then Ok([])
    else
      match MethodFromValue(names[0])
      case None => Err(ValueError(NotAMethod(names[0])))
      case Some(m) =>
        match ParseMethodNames(names[1..])
        case Ok(rest) => Ok([m] + rest)
        case Err(e) => Err(e)
  }

  /** The stored method list: a list of method values; anything else is rejected. */
  function MethodsOf(v: Value): Result<seq<AnalysisMethod>> {
    match v
    case Methods(names) => ParseMethodNames(names)
    case _ => Err(TypeError)
  }

  /** Reading back the stored values gives the methods that were stored. */
  lemma {:induction false} ParseMethodNamesRoundTrip(methods: seq<AnalysisMethod>)
    ensures ParseMethodNames(MethodValues(methods)) == Ok(methods)
  {
    if methods != [] {
      MethodValueRoundTrip(methods[0]);
      assert MethodValues(methods)[1..] == MethodValues(methods[1..]);
      ParseMethodNamesRoundTrip(methods[1..]);
      assert [methods[0]] + methods[1..] == methods;
    }
  }

  /** A list parses exactly when every name is a method value; then it parses name by name. */
  lemma {:induction false} ParseMethodNamesOk(names: seq<string>)
    ensures ParseMethodNames(names).Ok? <==> forall i :: 0 <= i < |names| ==> MethodFromValue(names[i]).Some?
    ensures ParseMethodNames(names).Ok? ==>
      && |ParseMethodNames(names).value| == |names|
      && forall i :: 0 <= i < |names| ==> MethodFromValue(names[i]) == Some(ParseMethodNames(names).value[i])
  {
    if names != [] {
      var tail := names[1..];
      ParseMethodNamesOk(tail);
      assert forall i :: 0 < i < |names| ==> names[i] == tail[i - 1];
      match MethodFromValue(names[0])
      case None =>
        assert ParseMethodNames(names).Err?;
      case Some(m) =>
        match ParseMethodNames(tail)
        case Ok(rest) =>
          assert ParseMethodNames(names) == Ok([m] + rest);
        case Err(e) =>
          assert ParseMethodNames(names) == Err(e);
    }
  }

  /** The business-input check: the keyword fallback without a model answer, the parsed answer with one. */
  function ValidationResult(description: string, response: Option<string>): Validation {
    match response
    case None => KeywordValidation(description)
    case Some(content) => ParsedValidation(content)
  }

  /** The error text: the message, then the suggestion after a blank line when there is one. */
  function ValidationError(v: Validation): (message: string)
    ensures StartsWith(message, v.message)
    ensures v.suggestion == [] ==> message == v.message
    ensures v.suggestion != [] ==> message[|v.message|..] == "\n\n" + v.suggestion
  {
    if v.suggestion != [] then v.message + "\n\n" + v.suggestion else v.message
  }

  /** The categories and methods the first step picks. */
  function SelectedMethods(description: string): seq<AnalysisMethod> {
    SelectionOf(ClassifySpec(description), INDUSTRY_METHODS)
  }

  /** `investment_amount` as stored: the number, or `None`. */
  function InvestmentValue(investment: Option<int>): Value {
    match investment
    case Some(i) => Int(i)
    case None => NoneValue
  }

  /** `session_data` of the first step, from the values it stores. */
  function FirstStageData(name: string, description: string, investment: Value, categories: seq<IndustryCategoryInfo>, methodNames: seq<string>): Session {
    map[
      "business_name" := Str(name),
      "business_description" := Str(description),
      "investment_amount" := investment,
      "categories" := Categories(categories),
      "methods" := Methods(methodNames),
      "stage" := Str("initial_analyzed")
    ]
  }

  /** `session_data` of the first step: the classification and the selected methods' values. */
  function InitialSessionData(name: string, description: string, investment: Option<int>): Session {
    FirstStageData(name, description, InvestmentValue(investment), ClassifySpec(description), MethodValues(SelectedMethods(description)))
  }

  /** `analyze_initial_business`: rejected input raises, otherwise the selected methods under the new id. */
  function InitialAnalysis(description: string, validationResponse: Option<string>, freshId: string): (r: Result<InitialAnalysisResponse>)
  {
    var v := ValidationResult(description, validationResponse);
    if !v.isValid then Err(ValueError(ValidationError(v)))
    else Ok(InitialAnalysisResponse(freshId, SelectedMethods(description)))
  }

  /** The keys the question step stores. */
  function QuestionUpdates(questions: seq<Question>): Session {
    map["questions" := Questions(questions), "stage" := Str("questions_generated")]
  }

  /**
   * `generate_questions` of the service, on the store as it is: after the
   * session and key checks, the prompts raise for an investment they cannot
   * format.
   */
  function QuestionsFor(sessions: Sessions, sessionId: string, responses: seq<Option<string>>): Result<QuestionGenerationResponse>
  {
    if MissingSession(sessions, sessionId) then Err(ValueError(INVALID_SESSION))
    else
      var session := sessions[sessionId];
      match FirstMissing(session, BUSINESS_KEYS + ["methods"])
      case Some(key) => Err(KeyError(key))
      case None =>
        match MethodsOf(session["methods"])
        case Err(e) => Err(e)
        case Ok(methods) =>
          assert (BUSINESS_KEYS + ["methods"])[2] == "investment_amount";
          match QuestionPromptError(session["investment_amount"], methods)
          case Some(e) => Err(e)
          case None =>
            var questions := GeneratedQuestions(methods, responses);
            Ok(QuestionGenerationResponse(sessionId, questions, |questions|))
  }

  /**
   * The report's industry: the first stored category's id, or general
   * business when there is no category list or it is empty.
   */
  function IndustryOf(session: Session): (r: Result<IndustryCategory>)
    ensures "categories" !in session ==> r == Ok(GeneralBusiness)
    ensures "categories" in session && session["categories"] == Categories([]) ==> r == Ok(GeneralBusiness)
    ensures "categories" in session && session["categories"].Categories? && session["categories"].infos != [] ==>
      r == Ok(session["categories"].infos[0].categoryId)
    ensures r.Err? <==> "categories" in session && !session["categories"].Categories?
  {
    if "categories" !in session then Ok(GeneralBusiness)
    else
      match session["categories"]
      case Categories(infos) => if infos == [] then Ok(GeneralBusiness) else Ok(infos[0].categoryId)
      case _ => Err(TypeError)
  }

  /** The risks both engines see: every method result's risks, in order. */
  function AllRisks(results: seq<MethodAnalysisResult>): seq<OsdScore>
  {
    if results == [] then []
    else AllRisks(results[..|results| - 1]) + results[|results| - 1].osdRisks
  }

  /** The keys the report step stores. */
  function ReportUpdates(answers: seq<Answer>, report: FinalRiskReport): Session {
    map["answers" := Answers(answers), "stage" := Str("report_generated"), "final_report" := Report(report)]
  }

  /** `FinalRiskReport` assembled from the model's report and the two engines' results over its risks. */
  function AssembleReport(sessionId: string, name: string, gpt: GptReport, methods: seq<AnalysisMethod>, investment: int, industry: IndustryCategory, createdAt: string): FinalRiskReport {
    var risks := AllRisks(gpt.methodResults);
    var overall := CalculateOverallRisk(risks);
    FinalRiskReport(
      sessionId, name, overall.score, overall.level.Label(), overall.grade.Label(),
      gpt.methodResults, Some(LossAnalysis(risks, investment, industry)),
      gpt.aiRecommendations, gpt.executiveSummary, createdAt, MethodValues(methods))
  }

  /**
   * The checks `generate_final_report` makes before it asks for the report,
   * in the order the source meets them: the session, the three business
   * keys, the category list, the methods and the questions. The result is
   * the industry and the methods.
   */
  function ReportContext(sessions: Sessions, sessionId: string): (r: Result<(IndustryCategory, seq<AnalysisMethod>)>)
    ensures r.Ok? ==> !MissingSession(sessions, sessionId) && FirstMissing(sessions[sessionId], BUSINESS_KEYS).None?
  {
    if MissingSession(sessions, sessionId) then Err(ValueError(INVALID_SESSION))
    else
      var session := sessions[sessionId];
      match FirstMissing(session, BUSINESS_KEYS)
      case Some(key) => Err(KeyError(key))
      case None =>
        match IndustryOf(session)
        case Err(e) => Err(e)
        case Ok(industry) =>
          if "methods" !in session then Err(KeyError("methods"))
          else
            match MethodsOf(session["methods"])
            case Err(e) => Err(e)
            case Ok(methods) =>
              if "questions" !in session then Err(KeyError("questions"))
              else if !session["questions"].Questions? then Err(TypeError)
              else Ok((industry, methods))
  }

  /**
   * `generate_final_report` of the service, on the store as it is: after the
   * checks, the prompt raises for an investment it cannot format or fewer
   * than two methods; then the investment the cost engine multiplies must
   * be a number and the name the report holds a string.
   */
  function FinalReportFor(sessions: Sessions, sessionId: string, createdAt: string): Result<FinalRiskReport>
  {
    match ReportContext(sessions, sessionId)
    case Err(e) => Err(e)
    case Ok((industry, methods)) =>
      var session := sessions[sessionId];
      assert "investment_amount" in session && "business_name" in session;
      if OsdPromptError(session["investment_amount"], methods).Some? then Err(OsdPromptError(session["investment_amount"], methods).value)
      else if !session["investment_amount"].Int? then Err(TypeError)
      else if !session["business_name"].Str? then Err(TypeError)
      else Ok(AssembleReport(sessionId, session["business_name"].s, FallbackOsdReport(methods), methods, session["investment_amount"].i, industry, createdAt))
  }

  /** The loop over the report's method results: the results as they are, and their risks concatenated. */
  method CollectResults(results: seq<MethodAnalysisResult>) returns (methodResults: seq<MethodAnalysisResult>, allOsdScores: seq<OsdScore>)
    ensures methodResults == results
    ensures allOsdScores == AllRisks(results)
  {
    methodResults := [];
    allOsdScores := [];
    var i := 0;
    while i < |results|
      invariant 0 <= i <= |results|
      invariant methodResults == results[..i]
      invariant allOsdScores == AllRisks(results[..i])
    {
      assert results[..i + 1][..i] == results[..i];
      allOsdScores := allOsdScores + results[i].osdRisks;
      methodResults := methodResults + [results[i]];
      i := i + 1;
    }
    assert results[..i] == results;
  }

  // ---------------------------------------------------------------------
  // RiskAnalysisService
  // ---------------------------------------------------------------------

  /** `RiskAnalysisService` over one session store; the model's answers are the methods' parameters. */
  class RiskAnalysisService {
    const store: SessionStore

    constructor(sessionStore: SessionStore)
      ensures store == sessionStore
    {
      store := sessionStore;
    }

    /**
     * `analyze_initial_business` on the name, description and investment it
     * reads. A rejected input raises and leaves the store alone; otherwise
     * one session is created under `freshId`.
     */
    method AnalyzeInitialBusiness(
      businessName: string, businessDescription: string, investmentAmount: Option<int>,
      validationResponse: Option<string>, freshId: string, createdAt: string)
      returns (r: Result<InitialAnalysisResponse>)
      modifies store
      ensures r == InitialAnalysis(businessDescription, validationResponse, freshId)
      ensures r.Err? ==> store.sessions == old(store.sessions)
      ensures r.Ok? ==>
        store.sessions == old(store.sessions)[freshId := WithCreatedAt(InitialSessionData(businessName, businessDescription, investmentAmount), createdAt)]
    {
      var validation := ValidateBusinessInput(businessDescription, validationResponse);
      if !validation.isValid {
        var message := validation.message;
        if validation.suggestion != [] {
          message := message + "\n\n" + validation.suggestion;
        }
        return Err(ValueError(message));
      }
      var categories := ClassifyBusiness(businessDescription);
      var methods := SelectAnalysisMethods(categories);
      var reasoning := GenerateClassificationReasoning(businessDescription, categories, methods);
      // The classification always has a category, so the reasoning never raises.
      assert reasoning.Ok? by { ClassifyShape(businessDescription); }
      var sessionData := map[
        "business_name" := Str(businessName),
        "business_description" := Str(businessDescription),
        "investment_amount" := InvestmentValue(investmentAmount),
        "categories" := Categories(categories),
        "methods" := Methods(MethodValues(methods)),
        "stage" := Str("initial_analyzed")
      ];
      var sessionId := store.CreateSession(sessionData, freshId, createdAt);
      r := Ok(InitialAnalysisResponse(sessionId, methods));
    }

    /**
     * `generate_questions` of the service; `responses[i]` is the model's
     * answer for the i-th method (`None` when the call fails).
     */
    method GenerateQuestionsFor(sessionId: string, responses: seq<Option<string>>)
      returns (r: Result<QuestionGenerationResponse>)
      modifies store
      ensures r == QuestionsFor(old(store.sessions), sessionId, responses)
      ensures r.Err? ==> store.sessions == old(store.sessions)
      ensures r.Ok? ==> store.sessions == UpdatedSessions(old(store.sessions), sessionId, QuestionUpdates(r.value.questions))
    {
      var found := store.GetSession(sessionId);
      if found.None? || found.value == map[] {
        return Err(ValueError(INVALID_SESSION));
      }
      var session := found.value;
      var missing := FirstMissing(session, BUSINESS_KEYS + ["methods"]);
      if missing.Some? {
        return Err(KeyError(missing.value));
      }
      var methods := MethodsOf(session["methods"]);
      if methods.Err? {
        return Err(methods.error);
      }
      assert (BUSINESS_KEYS + ["methods"])[2] == "investment_amount";
      var generated := GenerateQuestions(session["investment_amount"], methods.value, responses);
      if generated.Err? {
        return Err(generated.error);
      }
      var questions := generated.value;
      store.UpdateSession(sessionId, QuestionUpdates(questions));
      r := Ok(QuestionGenerationResponse(sessionId, questions, |questions|));
    }

    /**
     * `generate_final_report` of the service; `reportResponse` is the model's
     * answer, which the report does not depend on.
     */
    method GenerateFinalReport(sessionId: string, answers: seq<Answer>, reportResponse: Option<string>, createdAt: string)
      returns (r: Result<FinalRiskReport>)
      modifies store
      ensures r == FinalReportFor(old(store.sessions), sessionId, createdAt)
      ensures r.Err? ==> store.sessions == old(store.sessions)
      ensures r.Ok? ==> store.sessions == UpdatedSessions(old(store.sessions), sessionId, ReportUpdates(answers, r.value))
    {
      var context := ReportContext(store.sessions, sessionId);
      if context.Err? {
        return Err(context.error);
      }
      var (industry, methods) := context.value;
      var session := store.GetSession(sessionId).value;
      assert "investment_amount" in session && "business_name" in session;
      var generated := GenerateRiskReport(session["investment_amount"], methods, reportResponse);
      if generated.Err? {
        assert generated == Err(OsdPromptError(session["investment_amount"], methods).value);
        return Err(generated.error);
      }
      var gptReport := generated.value;
      var methodResults, allOsdScores := CollectResults(gptReport.methodResults);
      var overall := CalculateOverallRisk(allOsdScores);
      if !session["investment_amount"].Int? {
        return Err(TypeError);
      }
      var cashLoss := CalculateTotalExpectedLoss(allOsdScores, session["investment_amount"].i, industry);
      if !session["business_name"].Str? {
        return Err(TypeError);
      }
      var report := FinalRiskReport(
        sessionId, session["business_name"].s, overall.score, overall.level.Label(), overall.grade.Label(),
        methodResults, Some(cashLoss), gptReport.aiRecommendations, gptReport.executiveSummary,
        createdAt, MethodValues(methods));
      store.UpdateSession(sessionId, ReportUpdates(answers, report));
      r := Ok(report);
    }
  }

  // ---------------------------------------------------------------------
  // Properties of the three steps
  // ---------------------------------------------------------------------

  /** The risk list of several results is the concatenation of theirs. */
  lemma {:induction false} AllRisksAppend(a: seq<MethodAnalysisResult>, b: seq<MethodAnalysisResult>)
    ensures AllRisks(a + b) == AllRisks(a) + AllRisks(b)
    decreases |b|
  {
    if b == [] {
      assert a + b == a;
    } else {
      var n := |b| - 1;
      assert (a + b)[..|a + b| - 1] == a + b[..n];
      AllRisksAppend(a, b[..n]);
    }
  }

  /** Three valid risks per result give three valid risks per result in the concatenation. */
  lemma {:induction false} AllRisksValid(results: seq<MethodAnalysisResult>)
    requires forall k :: 0 <= k < |results| ==> |results[k].osdRisks| == 3
    requires forall k, j :: 0 <= k < |results| && 0 <= j < |results[k].osdRisks| ==> ValidOsdScore(results[k].osdRisks[j])
    ensures |AllRisks(results)| == 3 * |results|
    ensures forall i :: 0 <= i < |AllRisks(results)| ==> ValidOsdScore(AllRisks(results)[i])
    decreases |results|
  {
    if results != [] {
      var n := |results| - 1;
      AllRisksValid(results[..n]);
      var front := AllRisks(results[..n]);
      var last := results[n].osdRisks;
      forall i | 0 <= i < |front + last| ensures ValidOsdScore((front + last)[i]) {
        if i >= |front| {
          assert (front + last)[i] == last[i - |front|];
        } else {
          assert (front + last)[i] == front[i];
        }
      }
    }
  }

  /** A model report that fits the methods: one result per method, in order, each with three valid risks. */
  predicate FitsMethods(gpt: GptReport, methods: seq<AnalysisMethod>) {
    && |gpt.methodResults| == |methods|
    && (forall k :: 0 <= k < |methods| ==> gpt.methodResults[k].analysisMethod == methods[k])
    && (forall k :: 0 <= k < |methods| ==> |gpt.methodResults[k].osdRisks| == 3)
    && (forall k, j :: 0 <= k < |methods| && 0 <= j < |gpt.methodResults[k].osdRisks| ==> ValidOsdScore(gpt.methodResults[k].osdRisks[j]))
  }

  /** The fallback report fits its methods. */
  lemma FallbackFitsMethods(methods: seq<AnalysisMethod>)
    ensures FitsMethods(FallbackOsdReport(methods), methods)
  {
    var results := FallbackOsdReport(methods).methodResults;
    FallbackReportFacts(methods);
    forall k | 0 <= k < |results|
      ensures |results[k].osdRisks| == 3
      ensures forall j :: 0 <= j < |results[k].osdRisks| ==> ValidOsdScore(results[k].osdRisks[j])
    {
      FallbackRisksFacts(methods[k]);
    }
  }

  /** The final report's overall score lies in [0, 100] when the model's risks are valid. */
  lemma AssembleReportValid(sessionId: string, name: string, gpt: GptReport, methods: seq<AnalysisMethod>, investment: int, industry: IndustryCategory, createdAt: string)
    requires FitsMethods(gpt, methods)
    ensures ValidFinalRiskReport(AssembleReport(sessionId, name, gpt, methods, investment, industry, createdAt))
  {
    var risks := AllRisks(gpt.methodResults);
    assert forall i :: 0 <= i < |risks| ==> ValidOsdScore(risks[i]) by {
      AllRisksValid(gpt.methodResults);
    }
    var overall := CalculateOverallRisk(risks);
    assert 0.0 <= overall.score <= 100.0 by {
      OverallScoreBounded(risks);
    }
    assert AssembleReport(sessionId, name, gpt, methods, investment, industry, createdAt).overallRiskScore == overall.score;
  }

  /**
   * The final report keeps the results in method order and lists the
   * methods' values, which read back as those methods.
   */
  lemma AssembleReportMethods(sessionId: string, name: string, gpt: GptReport, methods: seq<AnalysisMethod>, investment: int, industry: IndustryCategory, createdAt: string)
    requires FitsMethods(gpt, methods)
    ensures var r := AssembleReport(sessionId, name, gpt, methods, investment, industry, createdAt);
      && r.sessionId == sessionId && r.businessName == name && r.createdAt == createdAt
      && |r.methodResults| == |methods|
      && (forall k :: 0 <= k < |methods| ==> r.methodResults[k].analysisMethod == methods[k])
      && |r.analysisMethodsUsed| == |methods|
      && (forall k :: 0 <= k < |methods| ==> MethodFromValue(r.analysisMethodsUsed[k]) == Some(methods[k]))
  {
    var r := AssembleReport(sessionId, name, gpt, methods, investment, industry, createdAt);
    assert r.methodResults == gpt.methodResults && r.analysisMethodsUsed == MethodValues(methods);
    forall k | 0 <= k < |methods| ensures MethodFromValue(MethodValues(methods)[k]) == Some(methods[k]) {
      MethodValueRoundTrip(methods[k]);
    }
  }

  /**
   * The final report's cash-loss analysis is the cost engine's analysis of
   * all three risks of every method, in method order.
   */
  lemma AssembleReportCashLoss(sessionId: string, name: string, gpt: GptReport, methods: seq<AnalysisMethod>, investment: int, industry: IndustryCategory, createdAt: string)
    requires FitsMethods(gpt, methods)
    ensures AssembleReport(sessionId, name, gpt, methods, investment, industry, createdAt).cashLossAnalysis
         == Some(LossAnalysis(AllRisks(gpt.methodResults), investment, industry))
    ensures |AllRisks(gpt.methodResults)| == 3 * |methods|
    ensures forall i :: 0 <= i < |AllRisks(gpt.methodResults)| ==> ValidOsdScore(AllRisks(gpt.methodResults)[i])
  {
    AllRisksValid(gpt.methodResults);
  }

  /** The cash-loss analysis of valid risks: one entry per risk, and a total between zero and 60% of the investment per risk. */
  lemma LossAnalysisBounds(risks: seq<OsdScore>, investment: int, industry: IndustryCategory)
    requires forall i :: 0 <= i < |risks| ==> ValidOsdScore(risks[i])
    ensures |LossAnalysis(risks, investment, industry).lossByRisk| == |risks|
    ensures LossAnalysis(risks, investment, industry).totalExpectedLoss == TotalLoss(risks, investment)
    ensures investment >= 0 ==> 0.0 <= LossAnalysis(risks, investment, industry).totalExpectedLoss <= |risks| as real * 0.6 * investment as real
  {
    if investment >= 0 {
      TotalLossBounds(risks, investment);
    }
  }

  /** What the first step stores: the keys the later steps read, and no questions yet. */
  lemma FirstStageFacts(name: string, description: string, investment: Value, categories: seq<IndustryCategoryInfo>, methodNames: seq<string>, createdAt: string)
    ensures var s := WithCreatedAt(FirstStageData(name, description, investment, categories, methodNames), createdAt);
      && s != map[]
      && FirstMissing(s, BUSINESS_KEYS + ["methods"]).None?
      && FirstMissing(s, BUSINESS_KEYS).None?
      && s["business_name"] == Str(name)
      && s["investment_amount"] == investment
      && s["categories"] == Categories(categories)
      && s["methods"] == Methods(methodNames)
      && s["stage"] == Str("initial_analyzed")
      && "questions" !in s
  {
    var d := FirstStageData(name, description, investment, categories, methodNames);
    var s := WithCreatedAt(d, createdAt);
    assert d.Keys == {"business_name", "business_description", "investment_amount", "categories", "methods", "stage"};
    assert BUSINESS_KEYS + ["methods"] == ["business_name", "business_description", "investment_amount", "methods"];
    assert "questions" !in s.Keys;
  }

  /** The first step fails exactly when the validation rejects the input, and then says why. */
  lemma InitialAnalysisFacts(description: string, validationResponse: Option<string>, freshId: string)
    ensures var v := ValidationResult(description, validationResponse);
      var r := InitialAnalysis(description, validationResponse, freshId);
      && (r.Ok? <==> v.isValid)
      && (r.Err? ==> r.error.ValueError? && StartsWith(r.error.message, v.message))
      && (r.Ok? ==> r.value.sessionId == freshId && |r.value.selectedMethods| == 2 && r.value.selectedMethods[0] != r.value.selectedMethods[1])
  {
    SelectAnalysisMethodsFacts(ClassifySpec(description));
  }

  /** Without a session, or with an empty one, both later steps raise the invalid-session error. */
  lemma MissingSessionRejected(sessions: Sessions, sessionId: string, responses: seq<Option<string>>, createdAt: string)
    requires MissingSession(sessions, sessionId)
    ensures QuestionsFor(sessions, sessionId, responses) == Err(ValueError(INVALID_SESSION))
    ensures FinalReportFor(sessions, sessionId, createdAt) == Err(ValueError(INVALID_SESSION))
  {
  }

  /**
   * A session as the first step stores it: the question step succeeds with
   * the stored methods unless the investment cannot be formatted for a
   * prompt, while the report step raises `KeyError` for the missing
   * questions, since no stage is checked.
   */
  lemma AfterFirstStage(sessions: Sessions, name: string, description: string, investment: Value,
                        categories: seq<IndustryCategoryInfo>, methods: seq<AnalysisMethod>,
                        freshId: string, createdAt: string, responses: seq<Option<string>>, reportedAt: string)
    ensures var created := sessions[freshId := WithCreatedAt(FirstStageData(name, description, investment, categories, MethodValues(methods)), createdAt)];
      var questions := GeneratedQuestions(methods, responses);
      && (methods == [] || InvestmentInfo(investment).Ok? ==>
            QuestionsFor(created, freshId, responses) == Ok(QuestionGenerationResponse(freshId, questions, |questions|)))
      && (methods != [] && InvestmentInfo(investment).Err? ==>
            QuestionsFor(created, freshId, responses) == Err(InvestmentInfo(investment).error))
      && FinalReportFor(created, freshId, reportedAt) == Err(KeyError("questions"))
  {
    var first := WithCreatedAt(FirstStageData(name, description, investment, categories, MethodValues(methods)), createdAt);
    var created := sessions[freshId := first];
    assert created[freshId] == first;
    FirstStageFacts(name, description, investment, categories, MethodValues(methods), createdAt);
    assert MethodsOf(first["methods"]) == Ok(methods) by {
      ParseMethodNamesRoundTrip(methods);
    }
    assert first["investment_amount"] == investment;
    var questions := GeneratedQuestions(methods, responses);
    assert QuestionsFor(created, freshId, responses) ==
      match QuestionPromptError(investment, methods)
      case Some(e) => Err(e)
      case None => Ok(QuestionGenerationResponse(freshId, questions, |questions|));
    assert IndustryOf(first).Ok?;
    assert ReportContext(created, freshId) == Err(KeyError("questions"));
  }

  /**
   * A session as the first two steps store it: the report step's checks
   * pass, with the first category's industry and the stored methods.
   */
  lemma AfterQuestionStage(sessions: Sessions, name: string, description: string, investment: Value,
                           categories: seq<IndustryCategoryInfo>, methods: seq<AnalysisMethod>,
                           freshId: string, createdAt: string, questions: seq<Question>)
    requires categories != []
    ensures var created := sessions[freshId := WithCreatedAt(FirstStageData(name, description, investment, categories, MethodValues(methods)), createdAt)];
      var asked := UpdatedSessions(created, freshId, QuestionUpdates(questions));
      && asked[freshId]["stage"] == Str("questions_generated")
      && asked[freshId]["questions"] == Questions(questions)
      && asked[freshId]["business_name"] == Str(name)
      && asked[freshId]["investment_amount"] == investment
      && ReportContext(asked, freshId) == Ok((categories[0].categoryId, methods))
  {
    var first := WithCreatedAt(FirstStageData(name, description, investment, categories, MethodValues(methods)), createdAt);
    var created := sessions[freshId := first];
    var asked := UpdatedSessions(created, freshId, QuestionUpdates(questions));
    var session := asked[freshId];
    assert session == Merge(first, QuestionUpdates(questions));
    FirstStageFacts(name, description, investment, categories, MethodValues(methods), createdAt);
    assert FirstMissing(session, BUSINESS_KEYS).None?;
    assert session["methods"] == first["methods"] && session["categories"] == first["categories"];
    assert MethodsOf(session["methods"]) == Ok(methods) by {
      ParseMethodNamesRoundTrip(methods);
    }
  }

  /**
   * After the first two steps the report step raises what the prompt raises
   * (an investment it cannot format, fewer than two methods), then
   * `TypeError` for an investment the cost engine cannot multiply; the
   * report exists exactly when the investment is a number and there are
   * two methods or more.
   */
  lemma AfterQuestionReport(sessions: Sessions, name: string, description: string, investment: Value,
                            categories: seq<IndustryCategoryInfo>, methods: seq<AnalysisMethod>,
                            freshId: string, createdAt: string, questions: seq<Question>, reportedAt: string)
    requires categories != []
    ensures var created := sessions[freshId := WithCreatedAt(FirstStageData(name, description, investment, categories, MethodValues(methods)), createdAt)];
      var r := FinalReportFor(UpdatedSessions(created, freshId, QuestionUpdates(questions)), freshId, reportedAt);
      && (InvestmentInfo(investment).Err? ==> r == Err(InvestmentInfo(investment).error))
      && (InvestmentInfo(investment).Ok? && |methods| < 2 ==> r == Err(IndexError))
      && (InvestmentInfo(investment).Ok? && |methods| >= 2 && !investment.Int? ==> r == Err(TypeError))
      && (r.Ok? <==> investment.Int? && |methods| >= 2)
      && (r.Ok? ==> r.value == AssembleReport(freshId, name, FallbackOsdReport(methods), methods, investment.i, categories[0].categoryId, reportedAt))
  {
    var created := sessions[freshId := WithCreatedAt(FirstStageData(name, description, investment, categories, MethodValues(methods)), createdAt)];
    var asked := UpdatedSessions(created, freshId, QuestionUpdates(questions));
    AfterQuestionStage(sessions, name, description, investment, categories, methods, freshId, createdAt, questions);
    var session := asked[freshId];
    assert session["investment_amount"] == investment && session["business_name"] == Str(name);
    var r := FinalReportFor(asked, freshId, reportedAt);
    assert r ==
      if OsdPromptError(investment, methods).Some? then Err(OsdPromptError(investment, methods).value)
      else if !investment.Int? then Err(TypeError)
      else Ok(AssembleReport(freshId, name, FallbackOsdReport(methods), methods, investment.i, categories[0].categoryId, reportedAt));
  }

  /**
   * A non-empty string stored as the investment makes both later steps raise
   * `ValueError` from the prompt's thousands format.
   */
  lemma StringInvestmentRejected(sessions: Sessions, name: string, description: string, text: string,
                                 categories: seq<IndustryCategoryInfo>, methods: seq<AnalysisMethod>,
                                 freshId: string, createdAt: string, responses: seq<Option<string>>,
                                 questions: seq<Question>, reportedAt: string)
    requires text != "" && methods != [] && categories != []
    ensures var created := sessions[freshId := WithCreatedAt(FirstStageData(name, description, Str(text), categories, MethodValues(methods)), createdAt)];
      && QuestionsFor(created, freshId, responses) == Err(ValueError(COMMA_WITH_STRING))
      && FinalReportFor(UpdatedSessions(created, freshId, QuestionUpdates(questions)), freshId, reportedAt) == Err(ValueError(COMMA_WITH_STRING))
  {
    AfterFirstStage(sessions, name, description, Str(text), categories, methods, freshId, createdAt, responses, reportedAt);
    AfterQuestionReport(sessions, name, description, Str(text), categories, methods, freshId, createdAt, questions, reportedAt);
  }

  /** A stored list of one method makes the report prompt raise `IndexError`, whatever the investment. */
  lemma OneMethodReportRejected(sessions: Sessions, name: string, description: string, investment: int,
                                categories: seq<IndustryCategoryInfo>, m: AnalysisMethod,
                                freshId: string, createdAt: string, questions: seq<Question>, reportedAt: string)
    requires categories != []
    ensures var created := sessions[freshId := WithCreatedAt(FirstStageData(name, description, Int(investment), categories, MethodValues([m])), createdAt)];
      FinalReportFor(UpdatedSessions(created, freshId, QuestionUpdates(questions)), freshId, reportedAt) == Err(IndexError)
  {
    AfterQuestionReport(sessions, name, description, Int(investment), categories, [m], freshId, createdAt, questions, reportedAt);
  }

  /** The report step's update moves the session to the last stage and keeps what the earlier steps stored. */
  lemma ReportStage(sessions: Sessions, sessionId: string, answers: seq<Answer>, report: FinalRiskReport, key: string)
    requires sessionId in sessions
    requires key in sessions[sessionId] && key != "answers" && key != "stage" && key != "final_report"
    ensures var done := UpdatedSessions(sessions, sessionId, ReportUpdates(answers, report));
      && done[sessionId]["stage"] == Str("report_generated")
      && done[sessionId]["answers"] == Answers(answers)
      && done[sessionId]["final_report"] == Report(report)
      && done[sessionId][key] == sessions[sessionId][key]
  {
  }

  /**
   * The three steps in a row: straight after the first step the question
   * step succeeds with the selected methods and the report step fails for
   * want of questions; after the question step the report exists exactly
   * when an investment was given, and is built from the first classified
   * category's industry and the selected methods.
   */
  lemma Workflow(sessions: Sessions, name: string, description: string, investment: Option<int>,
                 freshId: string, createdAt: string, responses: seq<Option<string>>, reportedAt: string)
    ensures var created := sessions[freshId := WithCreatedAt(InitialSessionData(name, description, investment), createdAt)];
      var methods := SelectedMethods(description);
      var questions := GeneratedQuestions(methods, responses);
      var asked := UpdatedSessions(created, freshId, QuestionUpdates(questions));
      var r := FinalReportFor(asked, freshId, reportedAt);
      && created[freshId]["stage"] == Str("initial_analyzed")
      && QuestionsFor(created, freshId, responses) == Ok(QuestionGenerationResponse(freshId, questions, |questions|))
      && FinalReportFor(created, freshId, reportedAt) == Err(KeyError("questions"))
      && asked[freshId]["stage"] == Str("questions_generated")
      && (r.Ok? <==> investment.Some?)
      && (r.Ok? ==> r.value == AssembleReport(freshId, name, FallbackOsdReport(methods), methods, investment.value,
                                              ClassifySpec(description)[0].categoryId, reportedAt))
  {
    var categories := ClassifySpec(description);
    var methods := SelectedMethods(description);
    var value := InvestmentValue(investment);
    assert InitialSessionData(name, description, investment) == FirstStageData(name, description, value, categories, MethodValues(methods));
    FirstStageFacts(name, description, value, categories, MethodValues(methods), createdAt);
    AfterFirstStage(sessions, name, description, value, categories, methods, freshId, createdAt, responses, reportedAt);
    assert categories != [] by {
      ClassifyShape(description);
    }
    AfterQuestionStage(sessions, name, description, value, categories, methods, freshId, createdAt, GeneratedQuestions(methods, responses));
    AfterQuestionReport(sessions, name, description, value, categories, methods, freshId, createdAt, GeneratedQuestions(methods, responses), reportedAt);
  }

  /** One method's fallback risks score 336, 315 and 180 and lose 44.46% of the investment together. */
  lemma FallbackMethodLoss(m: AnalysisMethod, investment: int)
    ensures ScoresOf(FallbackRisks(m)) == [336, 315, 180]
    ensures TotalLoss(FallbackRisks(m), investment) == 0.4446 * investment as real
  {
    var rs := FallbackRisks(m);
    assert ScoresOf(rs[1..][1..]) == [180] by {
      assert rs[1..][1..][1..] == [];
    }
    assert ScoresOf(rs[1..]) == [315, 180];
    ImpactRatioBands(8);
    ImpactRatioBands(9);
    ImpactRatioBands(6);
    assert RiskLoss(rs[0], investment) == 0.336 * 0.6 * investment as real;
    assert RiskLoss(rs[1], investment) == 0.315 * 0.6 * investment as real;
    assert RiskLoss(rs[2], investment) == 0.18 * 0.3 * investment as real;
    assert TotalLoss(rs[..1], investment) == RiskLoss(rs[0], investment) by {
      assert rs[..1][..0] == [];
    }
    assert TotalLoss(rs[..2], investment) == RiskLoss(rs[0], investment) + RiskLoss(rs[1], investment) by {
      assert rs[..2][..1] == rs[..1];
    }
  }

  /** The fallback report for two methods lists the first method's three risks, then the second's. */
  lemma TwoFallbackRisks(m1: AnalysisMethod, m2: AnalysisMethod)
    ensures AllRisks(FallbackOsdReport([m1, m2]).methodResults) == FallbackRisks(m1) + FallbackRisks(m2)
  {
    var results := FallbackOsdReport([m1, m2]).methodResults;
    assert results == [FallbackMethodResult(m1), FallbackMethodResult(m2)] by {
      assert [m1, m2][..1] == [m1] && [m1][..0] == [];
      assert Map(FallbackMethodResult, [m1]) == [FallbackMethodResult(m1)];
    }
    assert results[..1] == [FallbackMethodResult(m1)] && [FallbackMethodResult(m1)][..0] == [];
    assert AllRisks(results[..1]) == FallbackRisks(m1) by {
      assert AllRisks(results[..1][..0]) == [];
    }
  }

  /** Six scores 336, 315, 180 twice over: weighted sum 320.7, score 32.07, level high, grade D. */
  lemma SixScoresOverall(scores: seq<int>)
    requires scores == [336, 315, 180, 336, 315, 180]
    ensures OverallRiskOfScores(scores) == OverallRisk(32.07, High, D)
  {
    SixSortedOrder(scores);
    SortedSixOverall();
  }

  /** Sorting the six example scores from highest to lowest. */
  lemma SixSortedOrder(scores: seq<int>)
    requires scores == [336, 315, 180, 336, 315, 180]
    ensures SortDesc(scores) == [336, 336, 315, 315, 180, 180]
  {
    SixMultiset();
    SixSorted();
    SortDescIs(scores, [336, 336, 315, 315, 180, 180]);
  }

  lemma SixSorted()
    ensures SortedDesc([336, 336, 315, 315, 180, 180])
  {
  }

  /** The six example scores and their descending order hold the same values. */
  lemma SixMultiset()
    ensures multiset([336, 315, 180, 336, 315, 180]) == multiset([336, 336, 315, 315, 180, 180])
  {
  }

  lemma SortedSixOverall()
    ensures OverallRiskOfSorted([336, 336, 315, 315, 180, 180]) == OverallRisk(32.07, High, D)
  {
    var sorted := [336, 336, 315, 315, 180, 180];
    assert WeightedAggregate(sorted) == 320.7 by {
      SixWeightedSum();
    }
    OverallRiskOfAggregate(sorted, 320.7);
    assert TruncToInt(320.7) == 320;
    assert RoundTo2(320.7 / 1000.0 * 100.0) == 32.07 by {
      assert 320.7 / 1000.0 * 100.0 * 100.0 == 3207.0;
      assert Round(3207.0) == 3207;
    }
  }

  /**
   * The report for two methods without a model answer: six risks, the
   * overall score 32.07 at level high and grade D, and 88.92% of the
   * investment as expected loss.
   */
  lemma TwoFallbackMethodsExample(m1: AnalysisMethod, m2: AnalysisMethod, investment: int)
    ensures var risks := AllRisks(FallbackOsdReport([m1, m2]).methodResults);
      && ScoresOf(risks) == [336, 315, 180, 336, 315, 180]
      && CalculateOverallRisk(risks) == OverallRisk(32.07, High, D)
      && TotalLoss(risks, investment) == 0.8892 * investment as real
  {
    TwoFallbackRisks(m1, m2);
    var risks := FallbackRisks(m1) + FallbackRisks(m2);
    FallbackPairScores(m1, m2);
    FallbackPairLoss(m1, m2, investment);
    assert CalculateOverallRisk(risks) == OverallRisk(32.07, High, D) by {
      SixScoresOverall(ScoresOf(risks));
    }
  }

  lemma FallbackPairScores(m1: AnalysisMethod, m2: AnalysisMethod)
    ensures ScoresOf(FallbackRisks(m1) + FallbackRisks(m2)) == [336, 315, 180, 336, 315, 180]
  {
    FallbackMethodLoss(m1, 0);
    FallbackMethodLoss(m2, 0);
    ScoresOfAppend(FallbackRisks(m1), FallbackRisks(m2));
  }

  lemma FallbackPairLoss(m1: AnalysisMethod, m2: AnalysisMethod, investment: int)
    ensures TotalLoss(FallbackRisks(m1) + FallbackRisks(m2), investment) == 0.8892 * investment as real
  {
    FallbackMethodLoss(m1, investment);
    FallbackMethodLoss(m2, investment);
    TotalLossAppend(FallbackRisks(m1), FallbackRisks(m2), investment);
  }

  /** The weighted sum of the six sorted scores: 0.4, 0.3 and 0.2 on the top three, a third of 0.1 on each other. */
  lemma SixWeightedSum()
    ensures WeightedAggregate([336, 336, 315, 315, 180, 180]) == 320.7
  {
    var w := Weights(6);
    assert w == [0.4, 0.3, 0.2, 0.1 / 3.0, 0.1 / 3.0, 0.1 / 3.0];
    var xs := [336, 336, 315, 315, 180, 180];
    assert WeightedSum(xs[5..], w[5..]) == 6.0 by {
      assert xs[5..][1..] == [];
    }
    assert WeightedSum(xs[4..], w[4..]) == 12.0 by {
      assert xs[4..][1..] == xs[5..] && w[4..][1..] == w[5..];
    }
    assert WeightedSum(xs[3..], w[3..]) == 22.5 by {
      assert xs[3..][1..] == xs[4..] && w[3..][1..] == w[4..];
    }
    assert WeightedSum(xs[2..], w[2..]) == 85.5 by {
      assert xs[2..][1..] == xs[3..] && w[2..][1..] == w[3..];
    }
    assert WeightedSum(xs[1..], w[1..]) == 186.3 by {
      assert xs[1..][1..] == xs[2..] && w[1..][1..] == w[2..];
    }
    assert xs[1..] == xs[1..] && w[1..] == w[1..];
  }
}
