# Risk_api_server core in Dafny

This project models the deterministic core of Risk_api_server, a service
that turns a free-text business description into a risk report. The service
runs in three steps:

1. It validates the description, classifies it into at most two industry
   categories by keyword matching, and picks exactly two analysis methods
   (SWOT, Lean Canvas, FMEA, and so on). It stores all of this in a new
   session.
2. It asks a language model for questions about each method. When the call
   fails, it uses five fixed questions per method.
3. It builds a report from scored risks, using the OSD score
   (Occurrence × Severity × Detection, 1..1000). Risk scores are weighted
   into one overall score out of 100, with a level and an A–F grade. The
   investment is split into cost items, and each risk is turned into an
   expected cash loss.

The model has one module per source file:

- `Models` (`app/models.py`): the two enumerations and the records.
- `Constants` (`app/constants.py`): the per-industry tables.
- `RiskEngine` (`OSDRiskEngine`): scores, levels, grades, the industry correction and the weighted aggregate.
- `CostEngine` (`CostAnalysisEngine`): the cost breakdown, the per-risk impact cost and the total expected loss.
- `Classifier` (`IndustryClassifier`): classification, method selection and the reasoning text.
- `GptService`: the deterministic parts of `GPTService`. These are the question-line parser, the fallback questions, the validation-response parser with its keyword fallback, and the fallback OSD report. Every call to the model is a parameter:
  - `Some(text)` is the text the model answered;
  - `None` means the call raised.
- `Service`:
  - `SessionStore`, a class whose `sessions` field is a map from session id to session dictionary;
  - `RiskAnalysisService`, a class whose three step methods change that store.

Three helper modules sit underneath:

- `Wrappers`: `Option`, `Result` and the Python exception kinds.
- `Seqs`: list comprehensions.
- `Text`: the Python string operations the source uses, such as `lower`, `upper`, `strip`, `split`, `join`, `in`, `startswith`, `replace` with an empty string, and `str(int)`.

Loops in the source become methods with loop invariants. Each is proved equal to a specification function, and the properties are proved about that function. The modelled loops are:

- the keyword count;
- the classification;
- the method selection;
- the cost breakdown;
- the total expected loss;
- the question parser;
- the question generation;
- the validation parser;
- the fallback builders;
- the service's loop over the report's method results.

Money, weights and ratios are `real`. Python's `int()` on a float becomes truncation toward zero. `round` becomes rounding to nearest.

Where the code and the design description of the system differ, the model follows the code:

- **Cash-loss analysis.** The report always carries a cash-loss analysis. The design description says it is only there when an investment amount was given. In the code, the cost engine multiplies the stored amount unconditionally, so a session created without an amount raises `TypeError` at the report step. `Service.AfterQuestionReport` and `Service.Workflow` state this.
- **Prompt errors.** The prompts are built before the `try` that guards each call, so their errors are not caught by the fallbacks. A report for fewer than two methods raises `IndexError` (the prompt names `methods[1]`), and an investment that is neither a number nor false raises at the thousands format. `Service.AfterQuestionReport`, `Service.OneMethodReportRejected` and `Service.StringInvestmentRejected` state this.
- **Report before questions.** Asking for the report before questions were generated raises `KeyError('questions')`. The design description expects a "missing session data" client error. `Service.AfterFirstStage` states this.
- **Deleting sessions.** Sessions can be deleted: `SessionStore.delete_session` exists. The description says sessions are never deleted.
- **Ties in classification.** Equal confidences are ordered by the declaration order of the keyword table. The description leaves this tie-break open, but the code sorts stably, with Python's `sorted`, over a dictionary that keeps insertion order. So declaration order is what the code does (`Classifier.ClassifyOrdered`, `Classifier.SortKeepsTies`).

## Model

| member | source | states |
|---|---|---|
| Models.CategoryValueRoundTrip | app/models.py:6-15 | converting a category to its string value and back gives the same category |
| Models.MethodValueRoundTrip | app/models.py:18-54 | `AnalysisMethod(m.value) == m` for each of the twenty methods |
| Constants.IndustryMethodsComplete | app/constants.py:6-49 | every category has a list of at least three methods, none repeated |
| Constants.IndustryNamesComplete | app/constants.py:53-62 | every category has a display name |
| Constants.KeywordCategoriesExact | app/constants.py:66-95 | the keyword table has seven entries, in declaration order, one per category other than general business, all distinct |
| Constants.MethodDescriptionsComplete | app/constants.py:99-120 | every method has a description |
| RiskEngine.CalculateOsdScore | app/risk_engine.py:23-36 | for axes in 1..10 the OSD score lies in 1..1000 |
| RiskEngine.RiskLevelByThresholds | app/risk_engine.py:38-56 | the level's rank is the number of thresholds 100, 300 and 600 that the score reaches |
| RiskEngine.RiskGradeByThresholds | app/risk_engine.py:58-80 | the grade's rank is the number of thresholds 50, 100, 200, 400 and 700 that the score reaches |
| RiskEngine.LevelAndGradeMonotone | app/risk_engine.py:49-80 | a higher score never gets a lower level or a better grade |
| RiskEngine.LevelAndGradeBoundaries | app/risk_engine.py:49-80 | exact boundaries: 99 is low, 100 medium, 299 medium, 300 high, 599 high, 600 very high; 49 is A, 50 B, 99 B, 100 C, 199 C, 200 D, 399 D, 400 E, 699 E, 700 F; 336 is high and D |
| RiskEngine.CorrectionTableFacts | app/risk_engine.py:12-21 | every category has a triple of factors, each in [0.8, 1.5]; service and general business have the identity |
| RiskEngine.Round | app/risk_engine.py:103-105 | `round` gives an integer within one half of its argument |
| RiskEngine.CorrectAxis | app/risk_engine.py:103-105 | a corrected axis is at most 10. It is either the clamp 10, reached only when value × factor is at least 9.5, or the integer nearest to value × factor; so it is min(10, round(value × factor)). It is at least 1 for a value of at least 1 and a factor of at least 0.8 |
| RiskEngine.ApplyIndustryCorrection | app/risk_engine.py:82-108 | every corrected axis is at most 10; values all within 1..10 stay within 1..10 |
| RiskEngine.IdentityCorrection | app/risk_engine.py:97-106 | for service and general business the correction leaves values of at most 10 unchanged |
| RiskEngine.FinanceCorrectionExample | app/risk_engine.py:17 | finance turns (7, 8, 6) into (6, 10, 7): severity is clamped at 10 |
| RiskEngine.InsertDescPermutes | app/risk_engine.py:125 | inserting a score into the descending list adds exactly that score to the multiset |
| RiskEngine.InsertDescSorted | app/risk_engine.py:125 | inserting into a descending list keeps it descending |
| RiskEngine.SortDescFacts | app/risk_engine.py:125 | `sorted(scores, reverse=True)` is descending and a permutation of the scores |
| RiskEngine.SortedUnique | app/risk_engine.py:125 | two descending lists with the same multiset are equal, so the sorted list does not depend on the sort used |
| RiskEngine.SortDescIs | app/risk_engine.py:125 | the sort of any list is the one descending list with its elements |
| RiskEngine.WeightsSum | app/risk_engine.py:131-132 | the weights are non-negative and sum to 0.7 for two scores, 0.9 for three and 1.0 for four or more (the design's under-weighting for at most three) |
| RiskEngine.WeightedSumBounds | app/risk_engine.py:133 | for scores in 0..1000 the weighted sum lies between 0 and 1000 × the sum of the weights |
| RiskEngine.WeightedAggregateBounds | app/risk_engine.py:127-133 | for any non-empty list of scores in 0..1000 the weighted aggregate lies in [0, 1000] |
| RiskEngine.TruncToInt | app/risk_engine.py:140-141 | `int()` truncates toward zero |
| RiskEngine.OverallRiskEmpty | app/risk_engine.py:121-122 | no risks give (0.0, low, A) |
| RiskEngine.OverallRiskSingle | app/risk_engine.py:127-128 | one risk enters undivided: its score / 10 rounded to two places, with its own level and grade |
| RiskEngine.OverallRiskOfAggregate | app/risk_engine.py:137-143 | the score is the aggregate / 1000 × 100 rounded to two places. Level and grade come from the truncated unscaled aggregate |
| RiskEngine.OverallRiskOrderIndependent | app/risk_engine.py:125-143 | the overall result depends only on the multiset of scores |
| RiskEngine.CalculateOverallRiskPermutation | app/risk_engine.py:110-143 | reordering the risks does not change the overall score, level or grade |
| RiskEngine.OverallScoreBounded | app/risk_engine.py:110-143 | for valid OSD records the overall score lies in [0, 100], the range `FinalRiskReport` demands |
| RiskEngine.ThreeAggregate | app/risk_engine.py:131-133 | scores 336, 315 and 180 aggregate to 264.9 |
| RiskEngine.OverallRiskExample | app/risk_engine.py:121-143 | scores 336, 315 and 180 give (26.49, medium, D) |
| CostEngine.ScaleTableAt | app/risk_engine.py:231-232 | each cost item keeps its label and gets investment × ratio |
| CostEngine.EstimateCostBreakdown | app/risk_engine.py:210-234 | the loop over the industry's ratio table builds the scaled table, item by item in order |
| CostEngine.CostStructureFacts | app/risk_engine.py:150-208 | every category has a ratio table of at least five distinct labels; the ratios sum to 1.0 and the last item is "기타" at 0.1 |
| CostEngine.SumScaled | app/risk_engine.py:231-232 | the scaled amounts sum to investment × the sum of the ratios |
| CostEngine.BreakdownSplitsInvestment | app/risk_engine.py:210-234 | the breakdown keeps the table's distinct labels and its amounts add up to the investment |
| CostEngine.ImpactRatioBands | app/risk_engine.py:254-265 | severity 1–3 gives 0.1, 4–6 gives 0.3 and 7–10 gives 0.6; anything else gives the default 0.3 |
| CostEngine.Probability | app/risk_engine.py:252 | the probability is at most 1, not negative for a non-negative score, and score / 1000 up to 1000 |
| CostEngine.CalculateRiskImpactCost | app/risk_engine.py:236-270 | the expected loss is probability × impact ratio × investment |
| CostEngine.RiskLossBounds | app/risk_engine.py:251-268 | for a valid OSD record and a non-negative investment, one risk's loss lies in [0, 0.6 × investment] |
| CostEngine.CalculateTotalExpectedLoss | app/risk_engine.py:272-330 | the analysis has the breakdown, the 60/40 CAPEX/OPEX split and one entry per risk in order. Its total, its risk impact cost and its probability-weighted loss are all the sum of the losses |
| CostEngine.TotalLossBounds | app/risk_engine.py:300-318 | n valid risks lose between 0 and n × 0.6 × investment |
| CostEngine.TotalLossAppend | app/risk_engine.py:303-308 | the total loss of two lists of risks is the sum of their totals |
| CostEngine.TotalLossNotCapped | app/risk_engine.py:317-321 | two maximal risks lose 1.2 × investment, which is more than the investment: the total is not capped |
| Classifier.CountMatches | app/classifier.py:28-30 | a category matches at most as many keywords as it has |
| Classifier.CountKeywordMatches | app/classifier.py:25-31 | the keyword loop counts the keywords that occur in the lower-cased description |
| Classifier.Confidence | app/classifier.py:33-35 | a category with a match has a confidence from 15 to 95 |
| Classifier.ScoreEntriesEmpty | app/classifier.py:24-39 | no category is scored exactly when no category's keyword occurs |
| Classifier.ScoreEntriesMembers | app/classifier.py:24-39 | an entry is produced exactly for a table row with a match, as that row's category with the capped score of its match count |
| Classifier.CategoryScoreOf | app/classifier.py:23-46 | an entry is in the scores exactly when it is the fallback and no keyword matched, or some row's category with a match and its capped score |
| Classifier.CategoryScoresFacts | app/classifier.py:23-46 | the scores list at least one category, in table order, each once. The fallback has 50 and the others 15..95 |
| Classifier.SortFacts | app/classifier.py:49-52 | the ranking is a permutation of the scores, confidence descending, categories still distinct |
| Classifier.SortKeepsTies | app/classifier.py:49-52 | the ranking is stable: the categories with any given confidence keep their order |
| Classifier.TopTwo | app/classifier.py:53 | `[:2]` keeps two entries, or all of them when fewer |
| Classifier.ClassifyBusiness | app/classifier.py:9-63 | the method computes the top two of the stably ranked scores as category records |
| Classifier.ClassifyShape | app/classifier.py:10-63 | one or two results, distinct, named from `INDUSTRY_NAMES`. General business has confidence 50 and every other category 15..95 |
| Classifier.ClassifyOrdered | app/classifier.py:48-53 | two results are in descending confidence, and on a tie in declaration order |
| Classifier.ClassifyFallback | app/classifier.py:41-46 | the result is the general-business fallback exactly when no keyword of any category occurs |
| Classifier.FallbackExactlyWhenNoEntry | app/classifier.py:33-46 | the fallback is returned exactly when no category was scored |
| Classifier.EntryNoFallback | app/classifier.py:41-53 | when some category matched, the first result is not general business |
| Classifier.ClassifyPicksHighest | app/classifier.py:48-53 | a scored category left out has a confidence no higher than the last one returned |
| Classifier.FirstNotIn | app/classifier.py:93-96 | the method found is in the list and not yet selected; when none is found, every method of the list is selected |
| Classifier.FillToTwo | app/classifier.py:103-108 | filling keeps what was selected as a prefix, stops at two and adds no duplicate |
| Classifier.FallbackIsGeneralBusiness | app/classifier.py:112-116 | the fallback methods are the general-business list |
| Classifier.FillFromFallback | app/classifier.py:110-121 | from at most one selected method, the fallback list completes two distinct methods |
| Classifier.LeadSelection | app/classifier.py:84-87 | the first category's first method is selected, if it has one |
| Classifier.PairSelectionFacts | app/classifier.py:84-100 | the first two choices are at most two, distinct for a table without repeats, and led by the first category's first method |
| Classifier.SelectionCompletes | app/classifier.py:102-124 | the two filling stages keep the first choices and end with exactly two methods, distinct for a table without repeats |
| Classifier.SelectionOf | app/classifier.py:66-124 | the selection always has exactly two methods |
| Classifier.SelectionFacts | app/classifier.py:66-124 | for any table: no categories give SWOT and Lean Canvas. Otherwise the first category's first method leads, a single category adds its own second method, and a second category adds its first other method. The two are distinct when the table has no repeats |
| Classifier.SelectAnalysisMethodsFrom | app/classifier.py:66-124 | the method's steps compute the selection over the given table |
| Classifier.FillFirstCategory | app/classifier.py:103-108 | the loop over the first category's methods fills to two |
| Classifier.FillFallback | app/classifier.py:111-121 | the loop over the fallback methods fills to two |
| Classifier.SelectAnalysisMethods | app/classifier.py:66-124 | with the real table the method computes the selection |
| Classifier.SelectAnalysisMethodsFacts | app/classifier.py:66-124 | with the real table the two methods are always distinct, and the second category always contributes |
| Classifier.FusedSelectionExample | app/classifier.py:90-96 | IT startup then education: education's first method other than the IT lead is Logic Model |
| Classifier.GenerateClassificationReasoning | app/classifier.py:126-171 | no categories raise `IndexError`; otherwise the text is the concatenation of the sentence parts |
| Classifier.ReasoningListsMethods | app/classifier.py:143-171 | the text starts with the category sentence and contains the numbered line of each method |
| GptService.QuestionType | app/gpt_service.py:260-263 | the answer type is always text, number or choice |
| GptService.QuestionChoices | app/gpt_service.py:265-268 | choices, when present, are at least one |
| GptService.ParseLine | app/gpt_service.py:245-276 | a line that yields a question starts with "Q" after stripping, and its type is valid |
| GptService.ParseQuestionsFromResponse | app/gpt_service.py:233-283 | the loop numbers the accepted lines' questions in order |
| GptService.SkippedLineConsumesNoNumber | app/gpt_service.py:246-248 | a line that does not start with "Q" changes neither the questions nor their numbering |
| GptService.ParsedQuestionsFacts | app/gpt_service.py:241-283 | the k-th question has id prefix_q(k), the given method and a valid type, and the ids are distinct |
| GptService.QuestionIdInjective | app/gpt_service.py:271 | two numbers give the same id only when they are equal |
| GptService.ParseFormatLine | app/gpt_service.py:250-276 | a question written in the line format the prompt asks for (number, text, type and choices separated by bars) parses back to itself |
| GptService.ParseFormatResponse | app/gpt_service.py:241-283 | a response made of such lines parses to exactly those questions, numbered in order |
| GptService.EmptyResponse | app/gpt_service.py:241-283 | an empty response gives no questions |
| GptService.GetFallbackQuestions | app/gpt_service.py:285-330 | the loop builds the numbered fallback questions |
| GptService.FallbackQuestionsFacts | app/gpt_service.py:293-330 | five text questions numbered prefix_q1..q5 with distinct ids, from the SWOT, Lean Canvas or default list |
| GptService.ParseValidationResponse | app/gpt_service.py:77-97 | the loop over the stripped response's lines computes the parsed validation |
| GptService.ApplyCases | app/gpt_service.py:84-91 | each line follows exactly one of four branches: VALID sets validity to "YES" occurring in the upper-cased line; MESSAGE and SUGGESTION set their field to the stripped rest; any other line changes nothing |
| GptService.LastValidLineDecides | app/gpt_service.py:84-87 | the last VALID line alone decides validity |
| GptService.LastMessageLineDecides | app/gpt_service.py:84-89 | the last MESSAGE line alone decides the message |
| GptService.LastSuggestionLineDecides | app/gpt_service.py:84-91 | the last SUGGESTION line alone decides the suggestion |
| GptService.UntaggedKeepsDefaults | app/gpt_service.py:80-82 | without a VALID line the input is invalid; without a MESSAGE or SUGGESTION line that field keeps its default |
| GptService.KeywordValidationMonotone | app/gpt_service.py:102-115 | a description the keyword check accepts is still accepted inside a longer text |
| GptService.LongSAccepted | app/gpt_service.py:84-87 | `upper()` turns 'ſ' into 'S', so the answer "VALID: YEſ" accepts the input |
| GptService.UpperFindsLongSYes | app/gpt_service.py:87 | wherever "YEſ" occurs in a line, its upper case contains "YES" |
| Text.UpperAppend | app/gpt_service.py:87 | upper-casing distributes over concatenation |
| GptService.KeywordRejectsShortAscii | app/gpt_service.py:108-121 | a description of at most 20 ASCII characters is rejected, since every keyword is Hangul |
| GptService.ValidateBusinessInput | app/gpt_service.py:23-121 | a failed call falls back to the keyword check; an answer is parsed |
| GptService.InvestmentInfo | app/gpt_service.py:498 | a false investment prints as "미정"; a nonzero integer prints as its digits with thousands separators and "원"; a non-empty string raises `ValueError` and any other truthy value `TypeError` |
| Text.FormatThousandsUngroups | app/gpt_service.py:199 | `format(n, ",")` with its separators removed is `str(n)` |
| GptService.GenerateQuestions | app/gpt_service.py:123-199 | with at least one method, an investment the prompt cannot format raises its error before any call; otherwise the loop concatenates per-method blocks: the parsed answer, or the fallback questions when the call failed |
| GptService.QuestionBlockFacts | app/gpt_service.py:174-185 | the questions for method i have ids method(i+1)_q1, q2, … and that method |
| GptService.QuestionIdDecodes | app/gpt_service.py:178 | a question id determines its method's position and its number |
| GptService.GeneratedQuestionsValid | app/gpt_service.py:142-187 | every generated question is valid and belongs to one of the methods |
| GptService.GeneratedIdsDistinct | app/gpt_service.py:142-187 | all generated question ids are distinct |
| GptService.AllFallbackCount | app/gpt_service.py:182-185 | when every call fails there are exactly five questions per method |
| GptService.FallbackRisksFacts | app/gpt_service.py:565-587 | the three sample risks are valid, each score is its OSD product, and market competition is the highest |
| GptService.GetFallbackOsdReport | app/gpt_service.py:555-653 | the loop builds one result per method, then the fixed recommendations and the stripped summary |
| GptService.FallbackReportFacts | app/gpt_service.py:555-653 | one result per method, in order, with the three sample risks and three findings; five recommendations |
| GptService.ParseOsdReport | app/gpt_service.py:545-553 | whatever the text, the report has one result per method in order, with the sample risks and the fixed recommendations and summary |
| GptService.GenerateRiskReport | app/gpt_service.py:332-530 | the prompt, built before the `try`, raises the investment line's error first, then `IndexError` for fewer than two methods; otherwise the report is the fallback report both when the call answers and when it raises |
| Service.WithCreatedAt | app/service.py:32-35 | the new session has the given keys plus "created_at". The timestamp overrides a given "created_at", and every other key keeps its value |
| Service.Merge | app/service.py:45 | `dict.update`: the keys of both, the update's values win, the others are kept |
| Service.UpdatedSessions | app/service.py:42-45 | updating a known session merges into it and leaves the other sessions alone; an unknown id changes nothing |
| Service.UpdateIdempotent | app/service.py:42-45 | applying the same update twice equals applying it once |
| Service.UpdateUnknownIsNoOp | app/service.py:44 | an update for an unknown id leaves the store as it was |
| Service.DeleteFacts | app/service.py:47-50 | deletion removes just that id; an unknown id changes nothing |
| Service.CreateFacts | app/service.py:29-36 | the new id holds the data with its timestamp, and the other sessions stay as they were |
| Service.SessionStore.constructor | app/service.py:26-27 | the store starts empty |
| Service.SessionStore.CreateSession | app/service.py:29-36 | the store maps the new id to the data with "created_at"; the id is returned |
| Service.SessionStore.GetSession | app/service.py:38-40 | the session is found exactly when the id is known, and then it is the stored one |
| Service.SessionStore.UpdateSession | app/service.py:42-45 | the store becomes the updated sessions |
| Service.SessionStore.DeleteSession | app/service.py:47-50 | the id is removed from the store |
| Service.FirstMissing | app/service.py:128-130 | nothing is missing exactly when every key is present; a key reported is one the session lacks |
| Service.FirstMissingIsFirst | app/service.py:169-171 | the `KeyError` names the first missing key in reading order |
| Service.MethodValues | app/service.py:104 | one stored name per method |
| Service.ParseMethodNamesRoundTrip | app/service.py:104 | the stored method values read back, as in line 134, to the selected methods |
| Service.ParseMethodNamesOk | app/service.py:134 | reading names succeeds exactly when every name is a method value, and then gives those methods in order |
| Service.ValidationError | app/service.py:76-81 | the error message is the validation message, followed by a blank line and the suggestion when there is one |
| Service.IndustryOf | app/service.py:173-175 | the industry is the first stored category, or general business when there is none; a stored value that is not a category list is an error |
| Service.ReportContext | app/service.py:163-180 | the report's inputs are read only from a present, non-empty session holding all three business keys |
| Service.CollectResults | app/service.py:193-206 | the loop keeps the method results and concatenates their risks |
| Service.AllRisksAppend | app/service.py:197-199 | the risks of two lists of results are the concatenation of their risks |
| Service.AllRisksValid | app/service.py:193-206 | results of three valid risks each give three valid risks per result |
| Service.AssembleReportValid | app/service.py:230-243 | the assembled report meets the `FinalRiskReport` constraints, with an overall score in [0, 100] |
| Service.AssembleReportMethods | app/service.py:231-243 | the report keeps the id, name and time, has one result per method in order, and names each method used by its value |
| Service.AssembleReportCashLoss | app/service.py:211-223 | the cash-loss analysis is the cost engine's result over all three risks of every method |
| Service.LossAnalysisBounds | app/service.py:211-223 | the analysis has one entry per risk and a total between 0 and n × 0.6 × investment |
| Service.FirstStageFacts | app/service.py:98-107 | the first session holds name, description, investment, categories, method values, the stage "initial_analyzed" and the timestamp |
| Service.InitialAnalysisFacts | app/service.py:71-114 | the step succeeds exactly when the input is valid. A rejection is a `ValueError` that starts with the message. Success returns the new id and two distinct methods |
| Service.MissingSessionRejected | app/service.py:123-125 | both later steps reject an unknown or empty session with the invalid-session `ValueError` |
| Service.AfterFirstStage | app/service.py:123-180 | after the first step, the question step succeeds, unless there is a method and the prompt cannot format the investment, when it raises that error; the report step raises `KeyError('questions')` |
| Service.AfterQuestionStage | app/service.py:144-148 | the question step stores the questions and the stage "questions_generated". It keeps the business keys, and the report step then finds the first category's industry and the methods |
| Service.AfterQuestionReport | app/service.py:156-252 | after the question step the report raises the prompt's investment error first, then `IndexError` for fewer than two methods, then `TypeError` for an investment that is not an integer; it succeeds exactly when the investment is an integer and there are at least two methods, and then it is the assembled fallback report |
| Service.StringInvestmentRejected | app/gpt_service.py:199 | a non-empty string stored as the investment makes both later steps raise `ValueError("Cannot specify ',' with 's'.")` |
| Service.OneMethodReportRejected | app/gpt_service.py:524-530 | a stored list of one method makes the report step raise `IndexError`, whatever the integer investment |
| Service.ReportStage | app/service.py:245-250 | the report step stores answers, the stage "report_generated" and the report, and keeps every other key |
| Service.RiskAnalysisService.constructor | app/service.py:56-59 | the service uses the given store |
| Service.RiskAnalysisService.AnalyzeInitialBusiness | app/service.py:61-114 | the step's result, with the store changed only on success, to hold the new session |
| Service.RiskAnalysisService.GenerateQuestionsFor | app/service.py:116-154 | the step's result (the session and key errors, the prompt's investment error, or the generated questions), with the store changed only on success, by the question updates |
| Service.RiskAnalysisService.GenerateFinalReport | app/service.py:156-252 | the step's result (the session and key errors, the prompt's investment or `IndexError`, the cost engine's `TypeError`, or the assembled report), with the store changed only on success, by the report updates |
| Service.Workflow | app/service.py:61-252 | the three steps in order from a new session; the report succeeds exactly when an investment amount was given |
| Service.FallbackMethodLoss | app/service.py:212-216 | each method of the fallback report has scores 336, 315 and 180 and loses 0.4446 × investment |
| Service.TwoFallbackMethodsExample | app/service.py:193-216 | two methods of the fallback report give (32.07, high, D) and a loss of 0.8892 × investment |

## Left out

- Calls to the language model are not modelled. Each call is a parameter: `Some(text)` is the answer, `None` means the call raised. The text of the prompts is not modelled either, since no result depends on it. What the prompt builders can raise is modelled, because they run before the `try`: the investment line (`GptService.InvestmentInfo`) and the first two method names of the report prompt (`GptService.OsdPromptError`). The console messages the source prints are left out.
- `GPTService.__init__` (API key from the environment, the OpenAI client) and the model name are configuration, not logic.
- `app/main.py`, `app/config.py`, `test_api.py` and `examples/usage_example.py` are not part of this model. They cover the HTTP routes, configuration, a manual test client and a usage script.
- `uuid.uuid4()` and `datetime.now().isoformat()` are parameters (`freshId`, `createdAt`). A repeated id overwrites the old session, as the dictionary does.
- Concurrency: the store is a single-threaded object, as in the source.
- Floating point: amounts, ratios and weights are exact reals. Python's `round` rounds halves to even; the model's `Round` rounds halves up. `round(x, 2)` is modelled as `Round(100·x)/100`.
- CostEngine.BreakdownSplitsInvestment: proves the amounts add up to the investment exactly. That holds for reals; with Python floats it holds only within rounding.
- Text.Lower: changes ASCII letters only. The classifier's keywords are Hangul, which has no case, or ASCII. The only non-ASCII characters Python lower-cases to ASCII letters are the Kelvin sign and 'İ', and neither can form these keywords, so matching is unaffected.
- Text.Upper: maps the ASCII letters and the characters whose upper case begins with `S` ('ſ', 'ß', 'ﬅ', 'ﬆ'). Other non-ASCII characters are kept as they are. Only whether "YES" occurs is read from the result. Of the other characters only 'ẙ' upper-cases to an ASCII 'Y', 'E' or 'S', and its 'Y' is followed by a combining ring, so it cannot start a "YES".
- The `matched_keywords` lists in classification are collected but never reach the result, so they are not modelled.
- The `except` branch of the question parser is not modelled. No step inside the `try` can raise for a stripped line, because every index is guarded.
- Pydantic validation and `.dict()` are not modelled. Records are Dafny datatypes, and the field ranges are predicates (`ValidOsdScore`, `ValidCategoryInfo`, `ValidFinalRiskReport`).
- `InitialBusinessInput` declares only `concept`, while the service reads `business_name`, `business_description` and `investment_amount`. The model takes those three as inputs of `AnalyzeInitialBusiness`. The `AttributeError` the declared record would raise is not modelled.
- `InitialAnalysisResponse` declares only `session_id` and `selected_methods`. Pydantic ignores the categories and reasoning passed to it, so the model keeps only the two declared fields. The reasoning is still computed, as the source does, by `GenerateClassificationReasoning`.
- No step checks the session's `stage`. A step that runs out of order fails on the first missing key with `KeyError`, as in the source.
- The enum `ValueError` message starts with `'name'`. Python quotes the name with `repr`, but the model pastes it without escaping.
- A stored session value of the wrong shape is modelled as `TypeError`. Examples are a method list that is not a list, a non-empty list or dictionary as the investment (the prompt's `,` format), or a false investment such as `None` (the cost engine's multiplication). A non-empty string investment raises `ValueError` from the prompt instead.
- The fallback report's executive summary is stored already stripped, as the `.strip()` call leaves it.
- `GenerateQuestions` takes one optional answer per method. A method without an entry counts as a failed call.
- The model's report text is never parsed by the source (`_parse_osd_report` returns the fallback), so the report never depends on it.
- Both sorts are insertion sorts. Python's `sorted` is stable. For the classifier, `Classifier.SortKeepsTies` shows the model's sort is stable as well. For the risk scores, `RiskEngine.SortedUnique` shows any correct sort gives the same list.
