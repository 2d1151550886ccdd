/**
 * The deterministic parts of `GPTService`: the line-oriented question
 * parser, the fallback questions, the validation-response parser, the
 * keyword fallback validator and the fallback OSD report. Every call to
 * the language model is an oracle: `Some(text)` is the text it returned,
 * `None` a call that raised.
 */
module GptService {
  import opened Wrappers
  import opened Text
  import opened Models
  import opened Constants
  import opened RiskEngine
  import opened Seqs

  // ---------------------------------------------------------------------
  // Question parsing
  // ---------------------------------------------------------------------

  /** What one accepted `Q…` line yields before it is numbered. */
  datatype ParsedQuestion = ParsedQuestion(text: string, questionType: string, choices: Option<seq<string>>)

  /** `[c.strip() for c in parts]`. */
  function StripAll(parts: seq<string>): (r: seq<string>)
    ensures |r| == |parts| && forall k :: 0 <= k < |parts| ==> r[k] == Strip(parts[k])
  {
    seq(|parts|, k requires 0 <= k < |parts| => Strip(parts[k]))
  }

  /** The question text: everything after the first `:` of the first field, trimmed; none without a `:`. */
  function QuestionText(field: string): Option<string> {
    var colon := FindChar(field, ':');
    if colon == |field| then None else Some(Strip(field[colon + 1..]))
  }

  /** The declared type when it is a known one, else "text". */
  function QuestionType(parts: seq<string>): (t: string)
    ensures IsQuestionType(t)
  {
    var declared := if |parts| > 1 then Strip(parts[1]) else "text";
    if IsQuestionType(declared) then declared else "text"
  }

  /** The trimmed `,`-separated pieces of a non-blank third field; none otherwise. */
  function QuestionChoices(parts: seq<string>): (r: Option<seq<string>>)
    ensures r.Some? ==> |r.value| >= 1
  {
    if |parts| > 2 && Strip(parts[2]) != [] then Some(StripAll(Split(parts[2], ','))) else None
  }

  /** The `|`-separated fields of a `Q` line. */
  function ParseFields(parts: seq<string>): (r: Option<ParsedQuestion>)
    requires |parts| >= 1
    ensures r.Some? ==> IsQuestionType(r.value.questionType)
  {
    match QuestionText(parts[0])
    case None => None
    case Some(text) => Some(ParsedQuestion(text, QuestionType(parts), QuestionChoices(parts)))
  }

  /** A stripped line: nothing when blank or when it does not start with `Q`. */
  function ParseStripped(line: string): (r: Option<ParsedQuestion>)
    ensures r.Some? ==> StartsWith(line, "Q") && IsQuestionType(r.value.questionType)
  {
    if line == [] || !StartsWith(line, "Q") then None else ParseFields(Split(line, '|'))
  }

  /** One response line, trimmed first. */
  function ParseLine(raw: string): (r: Option<ParsedQuestion>)
    ensures r.Some? ==> StartsWith(Strip(raw), "Q") && IsQuestionType(r.value.questionType)
  {
    ParseStripped(Strip(raw))
  }

  /** The outcome of each line. */
  function ParseEach(lines: seq<string>): seq<Option<ParsedQuestion>> {
    Map(ParseLine, lines)
  }

  lemma ParseEachAt(lines: seq<string>, k: nat)
    requires k < |lines|
    ensures ParseEach(lines)[k] == ParseLine(lines[k])
  {
    MapAt(ParseLine, lines, k);
  }

  lemma ParseEachAppend(a: seq<string>, b: seq<string>)
    ensures ParseEach(a + b) == ParseEach(a) + ParseEach(b)
  {
    MapAppend(ParseLine, a, b);
  }

  /** The questions among the outcomes, in order. */
  function Collect(os: seq<Option<ParsedQuestion>>): seq<ParsedQuestion> {
    if os == [] then []
    else
      var n := |os| - 1;
      Collect(os[..n]) + (if os[n].Some? then [os[n].value] else [])
  }

  /** `f"{method_prefix}_q{number}"`. */
  function QuestionId(prefix: string, number: nat): string {
    prefix + "_q" + NatToString(number)
  }

  /** The parsed questions numbered from 1 under a prefix. */
  function Numbered(ps: seq<ParsedQuestion>, m: AnalysisMethod, prefix: string): seq<Question> {
    seq(|ps|, k requires 0 <= k < |ps| => Question(QuestionId(prefix, k + 1), m, ps[k].text, ps[k].questionType, ps[k].choices))
  }

  /** The lines of a response: the trimmed text split at line breaks. */
  function ResponseLines(responseText: string): seq<string> {
    Split(Strip(responseText), '\n')
  }

  /** What `_parse_questions_from_gpt_response` returns for a response text. */
  function ParsedQuestions(responseText: string, m: AnalysisMethod, prefix: string): seq<Question> {
    Numbered(Collect(ParseEach(ResponseLines(responseText))), m, prefix)
  }

  lemma NumberedAppend(ps: seq<ParsedQuestion>, p: ParsedQuestion, m: AnalysisMethod, prefix: string)
    ensures Numbered(ps + [p], m, prefix) ==
      Numbered(ps, m, prefix) + [Question(QuestionId(prefix, |ps| + 1), m, p.text, p.questionType, p.choices)]
  {
  }

  lemma CollectStep(os: seq<Option<ParsedQuestion>>, i: nat)
    requires i < |os|
    ensures Collect(os[..i + 1]) == Collect(os[..i]) + (if os[i].Some? then [os[i].value] else [])
  {
    assert os[..i + 1][..i] == os[..i];
  }

  /** `_parse_questions_from_gpt_response`: one pass over the lines with a running question number. */
  method ParseQuestionsFromResponse(responseText: string, m: AnalysisMethod, prefix: string) returns (questions: seq<Question>)
    ensures questions == ParsedQuestions(responseText, m, prefix)
  {
    questions := [];
    var lines := Split(Strip(responseText), '\n');
    var qCount := 1;
    var i := 0;
    while i < |lines|
      invariant 0 <= i <= |lines|
      invariant questions == Numbered(Collect(ParseEach(lines[..i])), m, prefix)
      invariant qCount == |questions| + 1
    {
      var parsed := ParseLine(lines[i]);
      ParseStep(lines, i, m, prefix);
      if parsed.Some? {
        var p := parsed.value;
        questions := questions + [Question(QuestionId(prefix, qCount), m, p.text, p.questionType, p.choices)];
        qCount := qCount + 1;
      }
      i := i + 1;
    }
    assert lines[..i] == lines;
  }

  /** One more line appends its question, numbered after those before it, if it has one. */
  lemma ParseStep(lines: seq<string>, i: nat, m: AnalysisMethod, prefix: string)
    requires i < |lines|
    ensures var before := Numbered(Collect(ParseEach(lines[..i])), m, prefix);
      var o := ParseLine(lines[i]);
      Numbered(Collect(ParseEach(lines[..i + 1])), m, prefix) ==
        before + (if o.Some? then [Question(QuestionId(prefix, |before| + 1), m, o.value.text, o.value.questionType, o.value.choices)] else [])
  {
    var os, o := ParseEach(lines[..i]), ParseLine(lines[i]);
    ParseEachSnoc(lines, i);
    NumberedSnoc(os, o, m, prefix);
    var before := Numbered(Collect(os), m, prefix);
    var after := Numbered(Collect(os + [o]), m, prefix);
    assert |before| == |Collect(os)|;
    if o.Some? {
      assert after == before + [Question(QuestionId(prefix, |before| + 1), m, o.value.text, o.value.questionType, o.value.choices)];
    } else {
      assert after == before;
    }
  }

  lemma ParseEachSnoc(lines: seq<string>, i: nat)
    requires i < |lines|
    ensures ParseEach(lines[..i + 1]) == ParseEach(lines[..i]) + [ParseLine(lines[i])]
  {
    MapSnoc(ParseLine, lines, i);
  }

  /** One more outcome numbers its question, if it has one, after those before it. */
  lemma NumberedSnoc(os: seq<Option<ParsedQuestion>>, o: Option<ParsedQuestion>, m: AnalysisMethod, prefix: string)
    ensures o.None? ==> Numbered(Collect(os + [o]), m, prefix) == Numbered(Collect(os), m, prefix)
    ensures o.Some? ==>
      Numbered(Collect(os + [o]), m, prefix) ==
        Numbered(Collect(os), m, prefix) + [Question(QuestionId(prefix, |Collect(os)| + 1), m, o.value.text, o.value.questionType, o.value.choices)]
  {
    assert Collect(os + [o]) == Collect(os) + (if o.Some? then [o.value] else []) by {
      assert (os + [o])[..|os|] == os;
    }
    if o.Some? {
      NumberedAppend(Collect(os), o.value, m, prefix);
    } else {
      assert Collect(os + [o]) == Collect(os);
    }
  }

  lemma {:induction false} CollectAppend(a: seq<Option<ParsedQuestion>>, b: seq<Option<ParsedQuestion>>)
    ensures Collect(a + b) == Collect(a) + Collect(b)
    decreases |b|
  {
    if b == [] {
      assert a + b == a;
    } else {
      var n := |b| - 1;
      var ab := a + b;
      assert ab[..|ab| - 1] == a + b[..n];
      assert ab[|ab| - 1] == b[n];
      CollectAppend(a, b[..n]);
    }
  }

  lemma CollectSkipsNone(x: seq<Option<ParsedQuestion>>, y: seq<Option<ParsedQuestion>>)
    ensures Collect(x + [None] + y) == Collect(x + y)
  {
    var none: seq<Option<ParsedQuestion>> := [None];
    assert Collect(none) == [] by {
      assert none[..0] == [];
    }
    CollectAppend(x + none, y);
    CollectAppend(x, none);
    CollectAppend(x, y);
  }

  /** A line that is not a question changes neither the questions nor their numbering. */
  lemma SkippedLineConsumesNoNumber(a: seq<string>, line: string, b: seq<string>, m: AnalysisMethod, prefix: string)
    requires !StartsWith(Strip(line), "Q")
    ensures Numbered(Collect(ParseEach(a + [line] + b)), m, prefix) == Numbered(Collect(ParseEach(a + b)), m, prefix)
  {
    SkippedLineParse(line);
    ParseEachAround(a, line, b);
    CollectSkipsNone(ParseEach(a), ParseEach(b));
  }

  lemma SkippedLineParse(line: string)
    requires !StartsWith(Strip(line), "Q")
    ensures ParseLine(line) == None
  {
  }

  lemma ParseEachAround(a: seq<string>, line: string, b: seq<string>)
    ensures ParseEach(a + [line] + b) == ParseEach(a) + [ParseLine(line)] + ParseEach(b)
    ensures ParseEach(a + b) == ParseEach(a) + ParseEach(b)
  {
    ParseEachAppend(a + [line], b);
    ParseEachAppend(a, [line]);
    ParseEachAppend(a, b);
    assert [line][..0] == [];
  }

  /** Collecting keeps only questions with a valid type when every outcome has one. */
  lemma {:induction false} CollectValid(os: seq<Option<ParsedQuestion>>, k: nat)
    requires k <= |os|
    requires forall j :: 0 <= j < |os| && os[j].Some? ==> IsQuestionType(os[j].value.questionType)
    ensures forall j :: 0 <= j < |Collect(os[..k])| ==> IsQuestionType(Collect(os[..k])[j].questionType)
    decreases k
  {
    if k > 0 {
      CollectValid(os, k - 1);
      CollectStep(os, k - 1);
    }
  }

  /** A prefix never gives the same id to two different numbers. */
  lemma QuestionIdInjective(prefix: string, a: nat, b: nat)
    requires QuestionId(prefix, a) == QuestionId(prefix, b)
    ensures a == b
  {
    var n := |prefix| + 2;
    assert QuestionId(prefix, a)[n..] == NatToString(a);
    assert QuestionId(prefix, b)[n..] == NatToString(b);
    NatToStringInjective(a, b);
  }

  /** Numbering gives `prefix_q1`, `prefix_q2`, … and keeps valid types valid. */
  lemma NumberedFacts(ps: seq<ParsedQuestion>, m: AnalysisMethod, prefix: string)
    requires forall k :: 0 <= k < |ps| ==> IsQuestionType(ps[k].questionType)
    ensures |Numbered(ps, m, prefix)| == |ps|
    ensures forall k :: 0 <= k < |ps| ==>
      && ValidQuestion(Numbered(ps, m, prefix)[k])
      && Numbered(ps, m, prefix)[k].questionId == QuestionId(prefix, k + 1)
      && Numbered(ps, m, prefix)[k].analysisMethod == m
    ensures forall i, j :: 0 <= i < j < |ps| ==> Numbered(ps, m, prefix)[i].questionId != Numbered(ps, m, prefix)[j].questionId
  {
    var qs := Numbered(ps, m, prefix);
    forall i, j | 0 <= i < j < |ps| ensures qs[i].questionId != qs[j].questionId {
      assert qs[i].questionId == QuestionId(prefix, i + 1) && qs[j].questionId == QuestionId(prefix, j + 1);
      QuestionIdsDistinct(prefix, i + 1, j + 1);
    }
  }

  /** Different numbers give different ids. */
  lemma QuestionIdsDistinct(prefix: string, a: nat, b: nat)
    requires a != b
    ensures QuestionId(prefix, a) != QuestionId(prefix, b)
  {
    if QuestionId(prefix, a) == QuestionId(prefix, b) {
      QuestionIdInjective(prefix, a, b);
    }
  }

  /** Every question a response yields has a known type. */
  lemma ParsedTypesValid(responseText: string)
    ensures forall k :: 0 <= k < |Collect(ParseEach(ResponseLines(responseText)))| ==>
      IsQuestionType(Collect(ParseEach(ResponseLines(responseText)))[k].questionType)
  {
    var lines := ResponseLines(responseText);
    var os := ParseEach(lines);
    assert forall j :: 0 <= j < |os| && os[j].Some? ==> IsQuestionType(os[j].value.questionType) by {
      forall j | 0 <= j < |os| && os[j].Some? ensures IsQuestionType(os[j].value.questionType) {
        ParseEachAt(lines, j);
      }
    }
    CollectValid(os, |os|);
    assert os[..|os|] == os;
  }

  /** Parsed questions are valid and carry pairwise distinct ids `prefix_q1`, `prefix_q2`, … */
  lemma ParsedQuestionsFacts(responseText: string, m: AnalysisMethod, prefix: string)
    ensures forall k :: 0 <= k < |ParsedQuestions(responseText, m, prefix)| ==>
      && ValidQuestion(ParsedQuestions(responseText, m, prefix)[k])
      && ParsedQuestions(responseText, m, prefix)[k].questionId == QuestionId(prefix, k + 1)
      && ParsedQuestions(responseText, m, prefix)[k].analysisMethod == m
    ensures forall i, j :: 0 <= i < j < |ParsedQuestions(responseText, m, prefix)| ==>
      ParsedQuestions(responseText, m, prefix)[i].questionId != ParsedQuestions(responseText, m, prefix)[j].questionId
  {
    ParsedTypesValid(responseText);
    NumberedFacts(Collect(ParseEach(ResponseLines(responseText))), m, prefix);
  }

  // Writing questions in the line format, for the round trip.

  /** A piece of text that survives the line format unchanged. */
  predicate PlainField(s: string) {
    IsStripped(s) && '|' !in s && '\n' !in s
  }

  /** A question that the line format can carry. */
  predicate Formattable(p: ParsedQuestion) {
    && PlainField(p.text)
    && IsQuestionType(p.questionType)
    && (p.choices.Some? ==>
          && |p.choices.value| >= 1
          && forall k :: 0 <= k < |p.choices.value| ==>
               PlainField(p.choices.value[k]) && p.choices.value[k] != [] && ',' !in p.choices.value[k])
  }

  /** The fields of the line `Q<n>:<text>|<type>[|<choice>,<choice>…]`. */
  function LineFields(n: nat, p: ParsedQuestion): seq<string> {
    var head := "Q" + NatToString(n) + ":" + p.text;
    match p.choices
    case None => [head, p.questionType]
    case Some(cs) => [head, p.questionType, Join(cs, ",")]
  }

  function FormatLine(n: nat, p: ParsedQuestion): string {
    Join(LineFields(n, p), "|")
  }

  lemma DigitsAvoid(n: nat, c: char)
    requires !('0' <= c <= '9')
    ensures c !in NatToString(n)
  {
  }

  lemma {:induction false} FieldsFacts(n: nat, p: ParsedQuestion)
    requires Formattable(p)
    ensures forall k :: 0 <= k < |LineFields(n, p)| ==> '|' !in LineFields(n, p)[k] && '\n' !in LineFields(n, p)[k]
    ensures LineFields(n, p)[|LineFields(n, p)| - 1] != []
    ensures !IsSpace(LineFields(n, p)[|LineFields(n, p)| - 1][|LineFields(n, p)[|LineFields(n, p)| - 1]| - 1])
  {
    DigitsAvoid(n, '|');
    DigitsAvoid(n, '\n');
    var head := "Q" + NatToString(n) + ":" + p.text;
    assert '|' !in head && '\n' !in head;
    if p.choices.Some? {
      var cs := p.choices.value;
      JoinAvoids(cs, ",", '|');
      JoinAvoids(cs, ",", '\n');
      JoinLast(cs, ",");
    }
  }

  /** The formatted line starts with `Q` and ends with a character that is not white space. */
  lemma FormatLineStripped(n: nat, p: ParsedQuestion)
    requires Formattable(p)
    ensures |FormatLine(n, p)| >= 1 && FormatLine(n, p)[0] == 'Q'
    ensures IsStripped(FormatLine(n, p))
    ensures '\n' !in FormatLine(n, p)
  {
    var fields := LineFields(n, p);
    FieldsFacts(n, p);
    JoinStartsWith(fields, "|");
    JoinLast(fields, "|");
    JoinAvoids(fields, "|", '\n');
    assert FormatLine(n, p)[..|fields[0]|] == fields[0];
    assert fields[0][0] == 'Q';
  }

  lemma FieldText(n: nat, p: ParsedQuestion)
    requires Formattable(p)
    ensures QuestionText(LineFields(n, p)[0]) == Some(p.text)
  {
    var field := LineFields(n, p)[0];
    DigitsAvoid(n, ':');
    var lead := "Q" + NatToString(n);
    assert field == lead + [':'] + p.text;
    FindFirst(lead, ':', p.text);
    assert field[|lead| + 1..] == p.text;
    StripOfStripped(p.text);
  }

  lemma FieldType(n: nat, p: ParsedQuestion)
    requires Formattable(p)
    ensures QuestionType(LineFields(n, p)) == p.questionType
  {
    assert IsStripped(p.questionType);
    StripOfStripped(p.questionType);
  }

  lemma FieldChoices(n: nat, p: ParsedQuestion)
    requires Formattable(p)
    ensures QuestionChoices(LineFields(n, p)) == p.choices
  {
    if p.choices.Some? {
      var cs := p.choices.value;
      var joined := Join(cs, ",");
      assert LineFields(n, p)[2] == joined;
      JoinStartsWith(cs, ",");
      assert joined[0] == cs[0][0];
      StripNonBlank(joined, 0);
      SplitJoin(cs, ',');
      assert StripAll(cs) == cs by {
        forall k | 0 <= k < |cs| ensures Strip(cs[k]) == cs[k] {
          StripOfStripped(cs[k]);
        }
      }
    }
  }

  /** The fields of a formatted line parse back into the question. */
  lemma ParseLineFields(n: nat, p: ParsedQuestion)
    requires Formattable(p)
    ensures ParseFields(LineFields(n, p)) == Some(p)
  {
    FieldText(n, p);
    FieldType(n, p);
    FieldChoices(n, p);
  }

  /** A stripped `Q` line parses as the `|`-separated fields that make it up. */
  lemma ParseJoinedFields(fields: seq<string>)
    requires |fields| >= 1 && StartsWith(fields[0], "Q")
    requires forall k :: 0 <= k < |fields| ==> '|' !in fields[k]
    requires IsStripped(Join(fields, "|"))
    ensures ParseLine(Join(fields, "|")) == ParseFields(fields)
  {
    var line := Join(fields, "|");
    assert Strip(line) == line by {
      StripOfStripped(line);
    }
    assert StartsWith(line, "Q") by {
      JoinStartsWith(fields, "|");
      StartsWithPrefix(line, fields[0], "Q");
    }
    assert Split(line, '|') == fields by {
      SplitJoin(fields, '|');
    }
  }

  lemma LeadStartsWithQ(n: nat, p: ParsedQuestion)
    ensures StartsWith(LineFields(n, p)[0], "Q")
  {
    var lead := LineFields(n, p)[0];
    assert lead == "Q" + (NatToString(n) + ":" + p.text);
  }

  /** Parsing a formatted line gives back the question. */
  lemma ParseFormatLine(n: nat, p: ParsedQuestion)
    requires Formattable(p)
    ensures ParseLine(FormatLine(n, p)) == Some(p)
  {
    FormatLineStripped(n, p);
    FieldsFacts(n, p);
    LeadStartsWithQ(n, p);
    ParseJoinedFields(LineFields(n, p));
    ParseLineFields(n, p);
  }

  /** The response that lists the questions one per line, numbered from 1. */
  function FormatLines(ps: seq<ParsedQuestion>): seq<string> {
    seq(|ps|, k requires 0 <= k < |ps| => FormatLine(k + 1, ps[k]))
  }

  function FormatResponse(ps: seq<ParsedQuestion>): string {
    Join(FormatLines(ps), "\n")
  }

  lemma {:induction false} CollectAllAccepted(os: seq<Option<ParsedQuestion>>, ps: seq<ParsedQuestion>)
    requires |os| == |ps|
    requires forall k :: 0 <= k < |os| ==> os[k] == Some(ps[k])
    ensures Collect(os) == ps
    decreases |os|
  {
    if os != [] {
      var n := |os| - 1;
      CollectAllAccepted(os[..n], ps[..n]);
      assert ps == ps[..n] + [ps[n]];
    }
  }

  /** The lines of a formatted response are the formatted lines. */
  lemma FormatResponseLines(ps: seq<ParsedQuestion>)
    requires forall k :: 0 <= k < |ps| ==> Formattable(ps[k])
    requires ps != []
    ensures ResponseLines(FormatResponse(ps)) == FormatLines(ps)
  {
    FormatLinesSingle(ps);
    FormatLinesEnds(ps);
    SplitStrippedJoin(FormatLines(ps), '\n');
  }

  /** No formatted line holds a line break. */
  lemma FormatLinesSingle(ps: seq<ParsedQuestion>)
    requires forall k :: 0 <= k < |ps| ==> Formattable(ps[k])
    ensures forall k :: 0 <= k < |ps| ==> '\n' !in FormatLines(ps)[k]
  {
    forall k | 0 <= k < |ps| ensures '\n' !in FormatLines(ps)[k] {
      FormatLineStripped(k + 1, ps[k]);
    }
  }

  /** The first and the last formatted line start and end with a non-space. */
  lemma FormatLinesEnds(ps: seq<ParsedQuestion>)
    requires forall k :: 0 <= k < |ps| ==> Formattable(ps[k])
    requires ps != []
    ensures var lines := FormatLines(ps);
      && lines[0] != [] && !IsSpace(lines[0][0])
      && lines[|ps| - 1] != [] && !IsSpace(lines[|ps| - 1][|lines[|ps| - 1]| - 1])
  {
    FormatLineStripped(1, ps[0]);
    FormatLineStripped(|ps|, ps[|ps| - 1]);
  }

  /** A blank response has no questions. */
  lemma EmptyResponse(m: AnalysisMethod, prefix: string)
    ensures ParsedQuestions("", m, prefix) == []
  {
    assert ResponseLines("") == [""];
    var os := ParseEach([""]);
    assert os == [None];
    assert os[..0] == [];
  }

  /** Lines that all parse collect into exactly their questions. */
  lemma AllLinesAccepted(lines: seq<string>, ps: seq<ParsedQuestion>)
    requires |lines| == |ps|
    requires forall k :: 0 <= k < |lines| ==> ParseLine(lines[k]) == Some(ps[k])
    ensures Collect(ParseEach(lines)) == ps
  {
    var os := ParseEach(lines);
    forall k | 0 <= k < |os| ensures os[k] == Some(ps[k]) {
      ParseEachAt(lines, k);
    }
    CollectAllAccepted(os, ps);
  }

  /**
   * Round trip: a response written in the line format parses back into
   * exactly the questions it lists, numbered `prefix_q1`, `prefix_q2`, …
   */
  lemma ParseFormatResponse(ps: seq<ParsedQuestion>, m: AnalysisMethod, prefix: string)
    requires forall k :: 0 <= k < |ps| ==> Formattable(ps[k])
    ensures ParsedQuestions(FormatResponse(ps), m, prefix) == Numbered(ps, m, prefix)
  {
    if ps == [] {
      assert FormatResponse(ps) == "";
      EmptyResponse(m, prefix);
    } else {
      var lines := FormatLines(ps);
      FormatResponseLines(ps);
      FormatLinesCollected(ps);
      assert ParsedQuestions(FormatResponse(ps), m, prefix) == Numbered(Collect(ParseEach(lines)), m, prefix);
    }
  }

  /** Every formatted line parses back to its question. */
  lemma FormatLinesCollected(ps: seq<ParsedQuestion>)
    requires forall k :: 0 <= k < |ps| ==> Formattable(ps[k])
    ensures Collect(ParseEach(FormatLines(ps))) == ps
  {
    var lines := FormatLines(ps);
    forall k | 0 <= k < |ps| ensures ParseLine(lines[k]) == Some(ps[k]) {
      ParseFormatLine(k + 1, ps[k]);
    }
    AllLinesAccepted(lines, ps);
  }

  // ---------------------------------------------------------------------
  // Fallback questions
  // ---------------------------------------------------------------------

  const SWOT_QUESTIONS: seq<string> := [
    "우리 사업의 가장 큰 강점은 무엇인가요?",
    "우리 사업의 주요 약점은 무엇인가요?",
    "시장에서 어떤 기회를 포착하고 있나요?",
    "가장 큰 위협 요소는 무엇인가요?",
    "경쟁사 대비 우리의 차별점은 무엇인가요?"
  ]

  const LEAN_CANVAS_QUESTIONS: seq<string> := [
    "해결하려는 고객의 핵심 문제는 무엇인가요?",
    "목표 고객 세그먼트는 누구인가요?",
    "제공하는 고유한 가치는 무엇인가요?",
    "주요 수익원은 무엇인가요?",
    "핵심 비용 구조는 어떻게 되나요?"
  ]

  const DEFAULT_QUESTIONS: seq<string> := [
    "사업의 핵심 목표는 무엇인가요?",
    "주요 고객층은 누구인가요?",
    "예상되는 주요 리스크는 무엇인가요?",
    "경쟁 환경은 어떠한가요?",
    "성공의 핵심 요소는 무엇인가요?"
  ]

  /** `fallback_map.get(method, default_questions)`. */
  function FallbackTexts(m: AnalysisMethod): seq<string> {
    if m == Swot then SWOT_QUESTIONS
    else if m == LeanCanvas then LEAN_CANVAS_QUESTIONS
    else DEFAULT_QUESTIONS
  }

  /** Free-text questions with the given texts. */
  function TextQuestions(texts: seq<string>): seq<ParsedQuestion> {
    seq(|texts|, k requires 0 <= k < |texts| => ParsedQuestion(texts[k], "text", None))
  }

  /** What `_get_fallback_questions` returns. */
  function FallbackQuestions(m: AnalysisMethod, prefix: string): seq<Question> {
    Numbered(TextQuestions(FallbackTexts(m)), m, prefix)
  }

  /** `_get_fallback_questions`: one free-text question per fallback text, numbered from 1. */
  method GetFallbackQuestions(m: AnalysisMethod, prefix: string) returns (questions: seq<Question>)
    ensures questions == FallbackQuestions(m, prefix)
  {
    var questionTexts := FallbackTexts(m);
    questions := [];
    var i := 0;
    while i < |questionTexts|
      invariant 0 <= i <= |questionTexts|
      invariant questions == Numbered(TextQuestions(questionTexts[..i]), m, prefix)
    {
      assert TextQuestions(questionTexts[..i + 1]) == TextQuestions(questionTexts[..i]) + [ParsedQuestion(questionTexts[i], "text", None)];
      NumberedAppend(TextQuestions(questionTexts[..i]), ParsedQuestion(questionTexts[i], "text", None), m, prefix);
      questions := questions + [Question(QuestionId(prefix, i + 1), m, questionTexts[i], "text", None)];
      i := i + 1;
    }
    assert questionTexts[..i] == questionTexts;
  }

  /**
   * Exactly five valid free-text questions without choices, with ids
   * `prefix_q1` to `prefix_q5`; SWOT and Lean Canvas have their own texts,
   * every other method the default ones.
   */
  lemma FallbackQuestionsFacts(m: AnalysisMethod, prefix: string)
    ensures |FallbackQuestions(m, prefix)| == 5
    ensures forall k :: 0 <= k < 5 ==>
      && FallbackQuestions(m, prefix)[k] == Question(QuestionId(prefix, k + 1), m, FallbackTexts(m)[k], "text", None)
      && ValidQuestion(FallbackQuestions(m, prefix)[k])
    ensures FallbackTexts(m) == if m == Swot then SWOT_QUESTIONS else if m == LeanCanvas then LEAN_CANVAS_QUESTIONS else DEFAULT_QUESTIONS
    ensures forall i, j :: 0 <= i < j < 5 ==> FallbackQuestions(m, prefix)[i].questionId != FallbackQuestions(m, prefix)[j].questionId
  {
    assert |FallbackTexts(m)| == 5;
    TextQuestionsNumbered(FallbackTexts(m), m, prefix);
  }

  /** Free-text questions numbered under a prefix: one per text, in order, with distinct ids. */
  lemma TextQuestionsNumbered(texts: seq<string>, m: AnalysisMethod, prefix: string)
    ensures var qs := Numbered(TextQuestions(texts), m, prefix);
      && |qs| == |texts|
      && (forall k :: 0 <= k < |texts| ==> qs[k] == Question(QuestionId(prefix, k + 1), m, texts[k], "text", None) && ValidQuestion(qs[k]))
      && forall i, j :: 0 <= i < j < |texts| ==> qs[i].questionId != qs[j].questionId
  {
    var qs := Numbered(TextQuestions(texts), m, prefix);
    forall i, j | 0 <= i < j < |texts| ensures qs[i].questionId != qs[j].questionId {
      assert qs[i].questionId == QuestionId(prefix, i + 1) && qs[j].questionId == QuestionId(prefix, j + 1);
      QuestionIdsDistinct(prefix, i + 1, j + 1);
    }
  }

  // ---------------------------------------------------------------------
  // Input validation
  // ---------------------------------------------------------------------

  /** The `is_valid` / `message` / `suggestion` answer of `validate_business_input`. */
  datatype Validation = Validation(isValid: bool, message: string, suggestion: string)

  const DEFAULT_MESSAGE: string := "입력을 다시 확인해주세요."
  const DEFAULT_VALIDATION: Validation := Validation(false, DEFAULT_MESSAGE, "")

  const VALID_TAG: string := "VALID:"
  const MESSAGE_TAG: string := "MESSAGE:"
  const SUGGESTION_TAG: string := "SUGGESTION:"

  /** A line that, once trimmed, starts with the tag. */
  predicate Tagged(raw: string, tag: string) {
    StartsWith(Strip(raw), tag)
  }

  /** One line of the model's answer, matched against the tags in the order of the source's `if`/`elif`. */
  function ApplyValidationLine(v: Validation, raw: string): Validation {
    var line := Strip(raw);
    if StartsWith(line, VALID_TAG) then v.(isValid := Contains(Upper(line), "YES"))
    else if StartsWith(line, MESSAGE_TAG) then v.(message := Strip(RemoveAll(line, MESSAGE_TAG)))
    else if StartsWith(line, SUGGESTION_TAG) then v.(suggestion := Strip(RemoveAll(line, SUGGESTION_TAG)))
    else v
  }

  /** The defaults updated by each line in turn. */
  function ValidationOf(lines: seq<string>): Validation {
    if lines == [] then DEFAULT_VALIDATION
    else ApplyValidationLine(ValidationOf(lines[..|lines| - 1]), lines[|lines| - 1])
  }

  /** What the validation parser makes of the model's answer. */
  function ParsedValidation(content: string): Validation {
    ValidationOf(Split(Strip(content), '\n'))
  }

  /** The answer parser of `validate_business_input`: one pass over the trimmed lines. */
  method ParseValidationResponse(content: string) returns (v: Validation)
    ensures v == ParsedValidation(content)
  {
    var resultText := Strip(content);
    var lines := Split(resultText, '\n');
    var isValid := false;
    var message := DEFAULT_MESSAGE;
    var suggestion := "";
    var i := 0;
    while i < |lines|
      invariant 0 <= i <= |lines|
      invariant Validation(isValid, message, suggestion) == ValidationOf(lines[..i])
    {
      ghost var before := Validation(isValid, message, suggestion);
      ValidationOfPrefix(lines, i);
      ApplyCases(before, lines[i]);
      var line := Strip(lines[i]);
      if StartsWith(line, VALID_TAG) {
        isValid := Contains(Upper(line), "YES");
        assert Validation(isValid, message, suggestion) == ApplyValidationLine(before, lines[i]);
      } else if StartsWith(line, MESSAGE_TAG) {
        message := Strip(RemoveAll(line, MESSAGE_TAG));
        assert Validation(isValid, message, suggestion) == ApplyValidationLine(before, lines[i]);
      } else if StartsWith(line, SUGGESTION_TAG) {
        suggestion := Strip(RemoveAll(line, SUGGESTION_TAG));
        assert Validation(isValid, message, suggestion) == ApplyValidationLine(before, lines[i]);
      }
      i := i + 1;
    }
    assert lines[..i] == lines;
    v := Validation(isValid, message, suggestion);
  }

  /** The four branches of one validation step. */
  lemma ApplyCases(v: Validation, raw: string)
    ensures var line := Strip(raw);
      && (StartsWith(line, VALID_TAG) ==> ApplyValidationLine(v, raw) == v.(isValid := Contains(Upper(line), "YES")))
      && (!StartsWith(line, VALID_TAG) && StartsWith(line, MESSAGE_TAG) ==>
            ApplyValidationLine(v, raw) == v.(message := Strip(RemoveAll(line, MESSAGE_TAG))))
      && (!StartsWith(line, VALID_TAG) && !StartsWith(line, MESSAGE_TAG) && StartsWith(line, SUGGESTION_TAG) ==>
            ApplyValidationLine(v, raw) == v.(suggestion := Strip(RemoveAll(line, SUGGESTION_TAG))))
      && (!StartsWith(line, VALID_TAG) && !StartsWith(line, MESSAGE_TAG) && !StartsWith(line, SUGGESTION_TAG) ==>
            ApplyValidationLine(v, raw) == v)
  {
  }

  /** One more line applies one more step. */
  lemma ValidationOfPrefix(lines: seq<string>, i: nat)
    requires i < |lines|
    ensures ValidationOf(lines[..i + 1]) == ApplyValidationLine(ValidationOf(lines[..i]), lines[i])
  {
    assert lines[..i + 1][..i] == lines[..i];
  }

  /** No line carries two tags: they start with different letters. */
  lemma TagsExclusive(raw: string)
    ensures Tagged(raw, VALID_TAG) ==> !Tagged(raw, MESSAGE_TAG) && !Tagged(raw, SUGGESTION_TAG)
    ensures Tagged(raw, MESSAGE_TAG) ==> !Tagged(raw, SUGGESTION_TAG)
  {
    var line := Strip(raw);
    assert VALID_TAG[0] == 'V' && MESSAGE_TAG[0] == 'M' && SUGGESTION_TAG[0] == 'S';
    StartsWithDiffer(line, VALID_TAG, MESSAGE_TAG);
    StartsWithDiffer(line, VALID_TAG, SUGGESTION_TAG);
    StartsWithDiffer(line, MESSAGE_TAG, SUGGESTION_TAG);
  }

  /** The last line sets `is_valid` when it is tagged `VALID:`, and leaves it as the lines before it left it otherwise. */
  lemma LastLineValid(lines: seq<string>)
    requires lines != []
    ensures var n := |lines| - 1;
      ValidationOf(lines).isValid ==
        if Tagged(lines[n], VALID_TAG) then Contains(Upper(Strip(lines[n])), "YES") else ValidationOf(lines[..n]).isValid
  {
    var n := |lines| - 1;
    assert ValidationOf(lines) == ApplyValidationLine(ValidationOf(lines[..n]), lines[n]);
    ApplyValid(ValidationOf(lines[..n]), lines[n]);
  }

  /** Only a `VALID:` line changes `is_valid`. */
  lemma ApplyValid(v: Validation, raw: string)
    ensures ApplyValidationLine(v, raw).isValid ==
      if Tagged(raw, VALID_TAG) then Contains(Upper(Strip(raw)), "YES") else v.isValid
  {
  }

  /** The last line sets the message when it is tagged `MESSAGE:`, and leaves it otherwise. */
  lemma LastLineMessage(lines: seq<string>)
    requires lines != []
    ensures var n := |lines| - 1;
      ValidationOf(lines).message ==
        if Tagged(lines[n], MESSAGE_TAG) then Strip(RemoveAll(Strip(lines[n]), MESSAGE_TAG)) else ValidationOf(lines[..n]).message
  {
    var n := |lines| - 1;
    assert ValidationOf(lines) == ApplyValidationLine(ValidationOf(lines[..n]), lines[n]);
    ApplyMessage(ValidationOf(lines[..n]), lines[n]);
  }

  /** Only a `MESSAGE:` line changes the message. */
  lemma ApplyMessage(v: Validation, raw: string)
    ensures ApplyValidationLine(v, raw).message ==
      if Tagged(raw, MESSAGE_TAG) then Strip(RemoveAll(Strip(raw), MESSAGE_TAG)) else v.message
  {
    TagsExclusive(raw);
  }

  /** The last line sets the suggestion when it is tagged `SUGGESTION:`, and leaves it otherwise. */
  lemma LastLineSuggestion(lines: seq<string>)
    requires lines != []
    ensures var n := |lines| - 1;
      ValidationOf(lines).suggestion ==
        if Tagged(lines[n], SUGGESTION_TAG) then Strip(RemoveAll(Strip(lines[n]), SUGGESTION_TAG)) else ValidationOf(lines[..n]).suggestion
  {
    var n := |lines| - 1;
    assert ValidationOf(lines) == ApplyValidationLine(ValidationOf(lines[..n]), lines[n]);
    ApplySuggestion(ValidationOf(lines[..n]), lines[n]);
  }

  /** Only a `SUGGESTION:` line changes the suggestion. */
  lemma ApplySuggestion(v: Validation, raw: string)
    ensures ApplyValidationLine(v, raw).suggestion ==
      if Tagged(raw, SUGGESTION_TAG) then Strip(RemoveAll(Strip(raw), SUGGESTION_TAG)) else v.suggestion
  {
    TagsExclusive(raw);
  }

  /** The last `VALID:` line decides `is_valid`: it holds when that line has `YES` in any case. */
  lemma {:induction false} LastValidLineDecides(lines: seq<string>, i: nat)
    requires i < |lines| && Tagged(lines[i], VALID_TAG)
    requires forall j :: i < j < |lines| ==> !Tagged(lines[j], VALID_TAG)
    ensures ValidationOf(lines).isValid == Contains(Upper(Strip(lines[i])), "YES")
    decreases |lines|
  {
    var n := |lines| - 1;
    LastLineValid(lines);
    if i < n {
      var before := lines[..n];
      assert before[i] == lines[i];
      assert forall j :: i < j < |before| ==> before[j] == lines[j];
      LastValidLineDecides(before, i);
    }
  }

  /** The last `MESSAGE:` line, with the tag removed and trimmed, is the message. */
  lemma {:induction false} LastMessageLineDecides(lines: seq<string>, i: nat)
    requires i < |lines| && Tagged(lines[i], MESSAGE_TAG)
    requires forall j :: i < j < |lines| ==> !Tagged(lines[j], MESSAGE_TAG)
    ensures ValidationOf(lines).message == Strip(RemoveAll(Strip(lines[i]), MESSAGE_TAG))
    decreases |lines|
  {
    var n := |lines| - 1;
    LastLineMessage(lines);
    if i < n {
      var before := lines[..n];
      assert before[i] == lines[i];
      assert forall j :: i < j < |before| ==> before[j] == lines[j];
      LastMessageLineDecides(before, i);
    }
  }

  /** The last `SUGGESTION:` line, with the tag removed and trimmed, is the suggestion. */
  lemma {:induction false} LastSuggestionLineDecides(lines: seq<string>, i: nat)
    requires i < |lines| && Tagged(lines[i], SUGGESTION_TAG)
    requires forall j :: i < j < |lines| ==> !Tagged(lines[j], SUGGESTION_TAG)
    ensures ValidationOf(lines).suggestion == Strip(RemoveAll(Strip(lines[i]), SUGGESTION_TAG))
    decreases |lines|
  {
    var n := |lines| - 1;
    LastLineSuggestion(lines);
    if i < n {
      var before := lines[..n];
      assert before[i] == lines[i];
      assert forall j :: i < j < |before| ==> before[j] == lines[j];
      LastSuggestionLineDecides(before, i);
    }
  }

  /** A field no line sets keeps its default: invalid, the retry message, no suggestion. */
  lemma {:induction false} UntaggedKeepsDefaults(lines: seq<string>)
    ensures (forall j :: 0 <= j < |lines| ==> !Tagged(lines[j], VALID_TAG)) ==> !ValidationOf(lines).isValid
    ensures (forall j :: 0 <= j < |lines| ==> !Tagged(lines[j], MESSAGE_TAG)) ==> ValidationOf(lines).message == DEFAULT_MESSAGE
    ensures (forall j :: 0 <= j < |lines| ==> !Tagged(lines[j], SUGGESTION_TAG)) ==> ValidationOf(lines).suggestion == ""
    decreases |lines|
  {
    if lines != [] {
      var n := |lines| - 1;
      UntaggedKeepsDefaults(lines[..n]);
      LastLineValid(lines);
      LastLineMessage(lines);
      LastLineSuggestion(lines);
    }
  }

  // The keyword check used when the model cannot be asked.

  const BUSINESS_KEYWORDS: seq<string> := [
    "사업", "창업", "서비스", "제품", "플랫폼", "앱", "웹사이트",
    "고객", "시장", "판매", "유통", "제조", "개발", "솔루션",
    "비즈니스", "스타트업", "기업", "회사", "매출", "수익"
  ]

  const ACCEPTED: Validation := Validation(true, "비즈니스 아이디어가 확인되었습니다.", "")
  const REJECTED: Validation := Validation(
    false,
    "비즈니스 아이디어를 구체적으로 입력해주세요. 예: '온라인 중고 도서 거래 플랫폼', 'AI 기반 학습 관리 시스템'",
    "사업 아이템, 목표 고객, 제공할 가치를 포함하여 설명해주세요.")

  predicate HasBusinessKeyword(description: string) {
    exists k :: 0 <= k < |BUSINESS_KEYWORDS| && Contains(description, BUSINESS_KEYWORDS[k])
  }

  /** Accepted when a business keyword occurs or the text is longer than 20 characters. */
  function KeywordValidation(description: string): Validation {
    if HasBusinessKeyword(description) || |description| > 20 then ACCEPTED else REJECTED
  }

  /** Adding text around an accepted description keeps it accepted. */
  lemma KeywordValidationMonotone(pre: string, description: string, post: string)
    requires KeywordValidation(description).isValid
    ensures KeywordValidation(pre + description + post) == ACCEPTED
  {
    if HasBusinessKeyword(description) {
      var k :| 0 <= k < |BUSINESS_KEYWORDS| && Contains(description, BUSINESS_KEYWORDS[k]);
      ContainsExtended(pre, description, post, BUSINESS_KEYWORDS[k]);
    }
  }

  /** `upper()` turns the long s into `S`, so a `VALID:` line ending in "YEſ" accepts the input. */
  lemma LongSAccepted()
    ensures ParsedValidation("VALID: YE\U{017F}").isValid
  {
    var tag, word := "VALID: ", ['Y', 'E', '\U{017F}'];
    var line := tag + word + [];
    UpperFindsLongSYes(tag, []);
    assert line == "VALID: YE\U{017F}";
    assert line[..|VALID_TAG|] == VALID_TAG;
    SingleValidLine(line);
  }

  /** A stripped answer of one line that starts with `VALID:` is decided by that line's `YES`. */
  lemma SingleValidLine(line: string)
    requires StartsWith(line, VALID_TAG) && IsStripped(line) && '\n' !in line
    ensures ParsedValidation(line).isValid == Contains(Upper(line), "YES")
  {
    StripOfStripped(line);
    SplitAbsent(line, '\n');
    var lines: seq<string> := [line];
    assert lines[..0] == [];
    assert ValidationOf(lines) == ApplyValidationLine(ValidationOf([]), line);
  }

  /** Wherever "YEſ" occurs, the upper case holds "YES". */
  lemma UpperFindsLongSYes(before: string, after: string)
    ensures Contains(Upper(before + ['Y', 'E', '\U{017F}'] + after), "YES")
  {
    var word := ['Y', 'E', '\U{017F}'];
    UpperAppend(before + word, after);
    UpperAppend(before, word);
    UpperThree('Y', 'E', '\U{017F}');
    var yes := Upper(word);
    assert yes == "YES";
    ContainsSelf(yes);
    ContainsExtended(Upper(before), yes, Upper(after), yes);
  }

  /** Every keyword is Korean, so a short text in ASCII is always rejected. */
  lemma KeywordRejectsShortAscii(description: string)
    requires |description| <= 20
    requires forall i :: 0 <= i < |description| ==> description[i] < 128 as char
    ensures KeywordValidation(description) == REJECTED
  {
    forall k | 0 <= k < |BUSINESS_KEYWORDS| ensures !Contains(description, BUSINESS_KEYWORDS[k]) {
      assert BUSINESS_KEYWORDS[k][0] >= 128 as char;
      if Contains(description, BUSINESS_KEYWORDS[k]) {
        ContainsHead(description, BUSINESS_KEYWORDS[k]);
      }
    }
  }

  /**
   * `validate_business_input`: the model's answer when the call returned
   * one, the keyword check when it raised.
   */
  method ValidateBusinessInput(description: string, response: Option<string>) returns (v: Validation)
    ensures response.None? ==> v == KeywordValidation(description)
    ensures response.Some? ==> v == ParsedValidation(response.value)
  {
    match response {
      case Some(content) =>
        v := ParseValidationResponse(content);
      case None =>
        v := KeywordValidation(description);
    }
  }

  // ---------------------------------------------------------------------
  // The investment line of the prompts
  // ---------------------------------------------------------------------

  const UNDECIDED: string := "미정"
  const WON: string := "원"

  /** The message of the `ValueError` that `format(s, ",")` raises for a string `s`. */
  const COMMA_WITH_STRING: string := "Cannot specify ',' with 's'."

  /**
   * `f"{investment_amount:,}원" if investment_amount else "미정"`, the line
   * both prompt builders compute before their `try`. A false value prints
   * as "미정" and a number grouped in thousands; a non-empty string has no
   * ',' format and raises `ValueError`, a non-empty list or a dictionary
   * raises `TypeError`.
   */
  function InvestmentInfo(investment: Value): (r: Result<string>)
    ensures !Truthy(investment) ==> r == Ok(UNDECIDED)
    ensures investment.Int? && investment.i != 0 ==> r.Ok? && RemoveAll(r.value, ",") == IntToString(investment.i) + WON
    ensures r.Ok? <==> investment.Int? || !Truthy(investment)
    ensures r.Err? ==> (r.error.ValueError? <==> investment.Str?)
  {
    if !Truthy(investment) then Ok(UNDECIDED)
    else
      match investment
      case Int(i) => InvestmentDigits(i); Ok(FormatThousands(i) + WON)
      case Str(_) => Err(ValueError(COMMA_WITH_STRING))
      case _ => Err(TypeError)
  }

  /** The printed amount, without its separators, is `str(i)` and the currency. */
  lemma InvestmentDigits(i: int)
    ensures RemoveAll(FormatThousands(i) + WON, ",") == IntToString(i) + WON
  {
    FormatThousandsUngroups(i);
    RemoveCharAppend(FormatThousands(i), WON, ',');
    RemoveCharAbsent(WON, ',');
  }

  /**
   * What `_create_question_generation_prompt` raises, if anything. It runs
   * once per method, so a bad investment fails on the first method, and
   * nothing fails when there is no method.
   */
  function QuestionPromptError(investment: Value, methods: seq<AnalysisMethod>): Option<Error> {
    if methods != [] && InvestmentInfo(investment).Err? then Some(InvestmentInfo(investment).error) else None
  }

  /**
   * What `_create_osd_report_prompt` raises, if anything: the investment
   * line first, then `IndexError` from the output format, which names the
   * first two methods.
   */
  function OsdPromptError(investment: Value, methods: seq<AnalysisMethod>): Option<Error> {
    if InvestmentInfo(investment).Err? then Some(InvestmentInfo(investment).error)
    else if |methods| < 2 then Some(IndexError)
    else None
  }

  // ---------------------------------------------------------------------
  // Question generation
  // ---------------------------------------------------------------------

  /** `f"method{i+1}"` for the method at position `index`. */
  function MethodPrefix(index: nat): string {
    "method" + NatToString(index + 1)
  }

  /** The questions for one method: parsed from the model's text, or the fallback ones when the call raised. */
  function QuestionBlock(m: AnalysisMethod, response: Option<string>, index: nat): seq<Question> {
    match response
    case Some(text) => ParsedQuestions(text, m, MethodPrefix(index))
    case None => FallbackQuestions(m, MethodPrefix(index))
  }

  /**
   * The model's answer for the method at position `i`: `None` when the call
   * raised, and also for positions the list of answers does not reach.
   */
  function ResponseAt(responses: seq<Option<string>>, i: nat): Option<string> {
    if i < |responses| then responses[i] else None
  }

  /** What `generate_questions` returns, given the model's answer for each method in turn. */
  function GeneratedQuestions(methods: seq<AnalysisMethod>, responses: seq<Option<string>>): seq<Question>
  {
    if methods == [] then []
    else
      var n := |methods| - 1;
      GeneratedQuestions(methods[..n], responses) + QuestionBlock(methods[n], ResponseAt(responses, n), n)
  }

  /**
   * `generate_questions`: the blocks of the methods, in order. Each method's
   * prompt is built before its `try`, so a bad investment raises.
   */
  method GenerateQuestions(investment: Value, methods: seq<AnalysisMethod>, responses: seq<Option<string>>)
    returns (r: Result<seq<Question>>)
    ensures methods != [] && InvestmentInfo(investment).Err? ==> r == Err(InvestmentInfo(investment).error)
    ensures methods == [] || InvestmentInfo(investment).Ok? ==> r == Ok(GeneratedQuestions(methods, responses))
  {
    var questions := [];
    var i := 0;
    while i < |methods|
      invariant 0 <= i <= |methods|
      invariant i > 0 ==> InvestmentInfo(investment).Ok?
      invariant questions == GeneratedQuestions(methods[..i], responses)
    {
      var investmentInfo := InvestmentInfo(investment);
      if investmentInfo.Err? {
        return Err(investmentInfo.error);
      }
      var block: seq<Question>;
      match ResponseAt(responses, i) {
        case Some(generatedText) =>
          block := ParseQuestionsFromResponse(generatedText, methods[i], MethodPrefix(i));
        case None =>
          block := GetFallbackQuestions(methods[i], MethodPrefix(i));
      }
      assert block == QuestionBlock(methods[i], ResponseAt(responses, i), i);
      GeneratedStep(methods, responses, i);
      questions := questions + block;
      i := i + 1;
    }
    assert methods[..i] == methods;
    r := Ok(questions);
  }

  lemma GeneratedStep(methods: seq<AnalysisMethod>, responses: seq<Option<string>>, i: nat)
    requires i < |methods|
    ensures GeneratedQuestions(methods[..i + 1], responses) ==
      GeneratedQuestions(methods[..i], responses) + QuestionBlock(methods[i], ResponseAt(responses, i), i)
  {
    assert methods[..i + 1][..i] == methods[..i];
  }

  /** An id names its method's position and its number: `method<a>_q<x>` determines `a` and `x`. */
  lemma QuestionIdDecodes(a: nat, x: nat, b: nat, y: nat)
    requires QuestionId(MethodPrefix(a), x) == QuestionId(MethodPrefix(b), y)
    ensures a == b && x == y
  {
    IdAroundUnderscore(a, x);
    IdAroundUnderscore(b, y);
    SplitAtFirst(MethodPrefix(a), MethodPrefix(b), '_', "q" + NatToString(x), "q" + NatToString(y));
    MethodPrefixInjective(a, b);
    QuestionIdInjective(MethodPrefix(a), x, y);
  }

  /** `method<a+1>_q<x>` has its first `_` right after the prefix. */
  lemma IdAroundUnderscore(a: nat, x: nat)
    ensures '_' !in MethodPrefix(a)
    ensures QuestionId(MethodPrefix(a), x) == MethodPrefix(a) + ['_'] + ("q" + NatToString(x))
  {
    DigitsAvoid(a + 1, '_');
    assert "_q" + NatToString(x) == ['_'] + ("q" + NatToString(x));
  }

  /** Two strings cut at their first `c` agree on both sides of it. */
  lemma SplitAtFirst(pa: string, pb: string, c: char, ta: string, tb: string)
    requires c !in pa && c !in pb
    requires pa + [c] + ta == pb + [c] + tb
    ensures pa == pb && ta == tb
  {
    FindFirst(pa, c, ta);
    FindFirst(pb, c, tb);
    var w := pa + [c] + ta;
    assert w[..|pa|] == pa && w[|pa| + 1..] == ta;
  }

  lemma MethodPrefixInjective(a: nat, b: nat)
    requires MethodPrefix(a) == MethodPrefix(b)
    ensures a == b
  {
    assert MethodPrefix(a)[6..] == NatToString(a + 1);
    assert MethodPrefix(b)[6..] == NatToString(b + 1);
    NatToStringInjective(a + 1, b + 1);
  }

  /** Each block holds valid questions numbered from 1 under its own prefix. */
  lemma QuestionBlockFacts(m: AnalysisMethod, response: Option<string>, index: nat)
    ensures forall k :: 0 <= k < |QuestionBlock(m, response, index)| ==>
      && ValidQuestion(QuestionBlock(m, response, index)[k])
      && QuestionBlock(m, response, index)[k].questionId == QuestionId(MethodPrefix(index), k + 1)
      && QuestionBlock(m, response, index)[k].analysisMethod == m
  {
    match response
    case Some(text) => ParsedQuestionsFacts(text, m, MethodPrefix(index));
    case None => FallbackQuestionsFacts(m, MethodPrefix(index));
  }

  /** An id given by a block before `n`. */
  ghost predicate IdBefore(id: string, n: nat) {
    exists i: nat, k: nat :: i < n && id == QuestionId(MethodPrefix(i), k)
  }

  /** Where every id of a question list comes from: a block before `n`. */
  ghost predicate IdsBefore(qs: seq<Question>, n: nat) {
    forall p :: 0 <= p < |qs| ==> IdBefore(qs[p].questionId, n)
  }

  /** Every generated question is valid and belongs to one of the selected methods. */
  lemma {:induction false} GeneratedQuestionsValid(methods: seq<AnalysisMethod>, responses: seq<Option<string>>)
    ensures forall p :: 0 <= p < |GeneratedQuestions(methods, responses)| ==>
      ValidQuestion(GeneratedQuestions(methods, responses)[p]) && GeneratedQuestions(methods, responses)[p].analysisMethod in methods
    decreases |methods|
  {
    if methods != [] {
      var n := |methods| - 1;
      var before := GeneratedQuestions(methods[..n], responses);
      var block := QuestionBlock(methods[n], ResponseAt(responses, n), n);
      var all: seq<Question> := before + block;
      GeneratedQuestionsValid(methods[..n], responses);
      QuestionBlockFacts(methods[n], ResponseAt(responses, n), n);
      forall p | 0 <= p < |before + block|
        ensures ValidQuestion(all[p]) && all[p].analysisMethod in methods
      {
        if p < |before| {
          assert all[p] == before[p];
          assert before[p].analysisMethod in methods[..n];
        } else {
          assert all[p] == block[p - |before|];
        }
      }
    }
  }

  /** Every generated id is that of a block at a position before `|methods|`. */
  lemma {:induction false} GeneratedIdsBefore(methods: seq<AnalysisMethod>, responses: seq<Option<string>>)
    ensures IdsBefore(GeneratedQuestions(methods, responses), |methods|)
    decreases |methods|
  {
    if methods != [] {
      var n := |methods| - 1;
      var before := GeneratedQuestions(methods[..n], responses);
      var block := QuestionBlock(methods[n], ResponseAt(responses, n), n);
      GeneratedIdsBefore(methods[..n], responses);
      QuestionBlockFacts(methods[n], ResponseAt(responses, n), n);
      ConcatIdsBefore(before, block, n);
    }
  }

  lemma ConcatIdsBefore(before: seq<Question>, block: seq<Question>, n: nat)
    requires IdsBefore(before, n)
    requires forall k :: 0 <= k < |block| ==> block[k].questionId == QuestionId(MethodPrefix(n), k + 1)
    ensures IdsBefore(before + block, n + 1)
  {
    var all := before + block;
    forall p | 0 <= p < |all| ensures IdBefore(all[p].questionId, n + 1) {
      if p < |before| {
        assert all[p] == before[p];
        var i: nat, k: nat :| i < n && before[p].questionId == QuestionId(MethodPrefix(i), k);
        assert all[p].questionId == QuestionId(MethodPrefix(i), k);
      } else {
        assert all[p].questionId == QuestionId(MethodPrefix(n), p - |before| + 1);
      }
    }
  }

  /** Pairwise distinct ids. */
  ghost predicate DistinctIds(qs: seq<Question>) {
    forall p, q :: 0 <= p < q < |qs| ==> qs[p].questionId != qs[q].questionId
  }

  /** A block numbered under prefix `n` shares no id with questions from blocks before `n`. */
  lemma AcrossBlocks(before: seq<Question>, block: seq<Question>, n: nat)
    requires IdsBefore(before, n)
    requires forall k :: 0 <= k < |block| ==> block[k].questionId == QuestionId(MethodPrefix(n), k + 1)
    ensures forall p, q :: 0 <= p < |before| && 0 <= q < |block| ==> before[p].questionId != block[q].questionId
  {
    forall p, q | 0 <= p < |before| && 0 <= q < |block| ensures before[p].questionId != block[q].questionId {
      var i: nat, k: nat :| i < n && before[p].questionId == QuestionId(MethodPrefix(i), k);
      if before[p].questionId == block[q].questionId {
        QuestionIdDecodes(i, k, n, q + 1);
      }
    }
  }

  lemma ConcatDistinct(before: seq<Question>, block: seq<Question>)
    requires DistinctIds(before) && DistinctIds(block)
    requires forall p, q :: 0 <= p < |before| && 0 <= q < |block| ==> before[p].questionId != block[q].questionId
    ensures DistinctIds(before + block)
  {
    var all := before + block;
    forall p, q | 0 <= p < q < |all| ensures all[p].questionId != all[q].questionId {
      if q < |before| {
        assert all[p] == before[p] && all[q] == before[q];
      } else if p >= |before| {
        assert all[p] == block[p - |before|] && all[q] == block[q - |before|];
      } else {
        assert all[p] == before[p] && all[q] == block[q - |before|];
      }
    }
  }

  /** Whatever the model answered, no two generated questions share an id. */
  lemma {:induction false} GeneratedIdsDistinct(methods: seq<AnalysisMethod>, responses: seq<Option<string>>)
    ensures forall p, q :: 0 <= p < q < |GeneratedQuestions(methods, responses)| ==>
      GeneratedQuestions(methods, responses)[p].questionId != GeneratedQuestions(methods, responses)[q].questionId
    decreases |methods|
  {
    if methods != [] {
      var n := |methods| - 1;
      var before := GeneratedQuestions(methods[..n], responses);
      var block := QuestionBlock(methods[n], ResponseAt(responses, n), n);
      assert DistinctIds(before) by {
        GeneratedIdsDistinct(methods[..n], responses);
      }
      assert DistinctIds(before + block) by {
        QuestionBlockFacts(methods[n], ResponseAt(responses, n), n);
        BlockDistinct(block, n);
        GeneratedIdsBefore(methods[..n], responses);
        AcrossBlocks(before, block, n);
        ConcatDistinct(before, block);
      }
      assert GeneratedQuestions(methods, responses) == before + block;
    }
  }

  lemma BlockDistinct(block: seq<Question>, n: nat)
    requires forall k :: 0 <= k < |block| ==> block[k].questionId == QuestionId(MethodPrefix(n), k + 1)
    ensures DistinctIds(block)
  {
    forall p, q | 0 <= p < q < |block| ensures block[p].questionId != block[q].questionId {
      if block[p].questionId == block[q].questionId {
        QuestionIdInjective(MethodPrefix(n), p + 1, q + 1);
      }
    }
  }

  /** When every call raised, each method gets its five fallback questions. */
  lemma {:induction false} AllFallbackCount(methods: seq<AnalysisMethod>, responses: seq<Option<string>>)
    requires forall i :: 0 <= i < |methods| ==> ResponseAt(responses, i).None?
    ensures |GeneratedQuestions(methods, responses)| == 5 * |methods|
    decreases |methods|
  {
    if methods != [] {
      var n := |methods| - 1;
      AllFallbackCount(methods[..n], responses);
      FallbackQuestionsFacts(methods[n], MethodPrefix(n));
    }
  }

  // ---------------------------------------------------------------------
  // The OSD risk report
  // ---------------------------------------------------------------------

  /** The `method_results` / `ai_recommendations` / `executive_summary` dictionary. */
  datatype GptReport = GptReport(methodResults: seq<MethodAnalysisResult>, aiRecommendations: seq<AIRecommendation>, executiveSummary: string)

  /** The three sample risks of a method: market competition, operations and finance. */
  function FallbackRisks(m: AnalysisMethod): seq<OsdScore> {
    [
      OsdScore(7, 8, 6, 336, MethodValue(m) + " 분석 결과 - 시장 경쟁 리스크"),
      OsdScore(5, 9, 7, 315, MethodValue(m) + " 분석 결과 - 운영 리스크"),
      OsdScore(6, 6, 5, 180, MethodValue(m) + " 분석 결과 - 재무 리스크")
    ]
  }

  function FallbackMethodResult(m: AnalysisMethod): MethodAnalysisResult {
    MethodAnalysisResult(
      m,
      FallbackRisks(m),
      [
        MethodValue(m) + " 기법을 통해 핵심 리스크 영역을 식별했습니다",
        "개선이 필요한 영역이 명확히 파악되었습니다",
        "단계적 리스크 완화 전략이 필요합니다"
      ],
      MethodValue(m) + " 분석을 통해 사업의 구조적 리스크를 파악할 수 있었습니다.")
  }

  const FALLBACK_RECOMMENDATIONS: seq<AIRecommendation> := [
    AIRecommendation("시장 검증", "높음", "초기 고객 인터뷰를 통한 문제-해결책 적합도 재검증", "제품-시장 적합성 향상 및 피벗 리스크 감소", "쉬움"),
    AIRecommendation("MVP 개발", "높음", "핵심 기능만 포함한 최소 기능 제품(MVP) 우선 출시", "개발 비용 절감 및 빠른 시장 피드백", "보통"),
    AIRecommendation("재무 관리", "중간", "월별 번다운(Burn Rate) 모니터링 시스템 구축", "자금 소진 리스크 조기 감지", "쉬움"),
    AIRecommendation("팀 역량", "중간", "핵심 기술 스택에 대한 팀 교육 및 역량 강화", "개발 속도 향상 및 기술 부채 감소", "보통"),
    AIRecommendation("고객 피드백", "높음", "사용자 피드백 수집 자동화 시스템 도입", "제품 개선 속도 향상 및 이탈 방지", "쉬움")
  ]

  /**
   * The summary paragraphs, as the source's `.strip()` leaves them: the
   * line breaks that open and close the literal are already removed.
   */
  const EXECUTIVE_SUMMARY: string := @"이 사업은 중간 수준의 리스크를 보이고 있으며, 체계적인 준비를 통해 충분히 관리 가능합니다.

주요 리스크는 시장 경쟁 강도와 초기 고객 확보에 집중되어 있으나, 적절한 MVP 전략과
고객 피드백 루프를 구축한다면 성공 확률을 크게 높일 수 있습니다.

투자금액 대비 리스크를 고려할 때, 단계적 투자 집행과 주요 마일스톤 달성 시점에서의
재평가가 권장됩니다."

  /** What `_get_fallback_osd_report` returns. */
  function FallbackOsdReport(methods: seq<AnalysisMethod>): GptReport {
    GptReport(Map(FallbackMethodResult, methods), FALLBACK_RECOMMENDATIONS, EXECUTIVE_SUMMARY)
  }

  /** `_get_fallback_osd_report`: one result per method, in order. */
  method GetFallbackOsdReport(methods: seq<AnalysisMethod>) returns (report: GptReport)
    ensures report == FallbackOsdReport(methods)
  {
    var methodResults: seq<MethodAnalysisResult> := [];
    var i := 0;
    while i < |methods|
      invariant 0 <= i <= |methods|
      invariant methodResults == Map(FallbackMethodResult, methods[..i])
    {
      MapSnoc(FallbackMethodResult, methods, i);
      methodResults := methodResults + [FallbackMethodResult(methods[i])];
      i := i + 1;
    }
    assert methods[..i] == methods;
    report := GptReport(methodResults, FALLBACK_RECOMMENDATIONS, EXECUTIVE_SUMMARY);
  }

  /**
   * `_parse_osd_report`: the model's text is not read. Whatever it says,
   * the report has one result per requested method, in order, each with
   * the three sample risks, and the fixed recommendations and summary.
   */
  function ParseOsdReport(reportText: string, methods: seq<AnalysisMethod>): (r: GptReport)
    ensures |r.methodResults| == |methods|
    ensures forall k :: 0 <= k < |methods| ==>
      r.methodResults[k].analysisMethod == methods[k] && r.methodResults[k].osdRisks == FallbackRisks(methods[k])
    ensures r.aiRecommendations == FALLBACK_RECOMMENDATIONS && r.executiveSummary == EXECUTIVE_SUMMARY
  {
    FallbackReportFacts(methods);
    FallbackOsdReport(methods)
  }

  /**
   * `generate_risk_report`: the prompt is built before the `try`, so a bad
   * investment or fewer than two methods raise. Otherwise the report does
   * not depend on the model at all: whether the call returned a text or
   * raised, it is the fallback report.
   */
  method GenerateRiskReport(investment: Value, methods: seq<AnalysisMethod>, response: Option<string>)
    returns (r: Result<GptReport>)
    ensures InvestmentInfo(investment).Err? ==> r == Err(InvestmentInfo(investment).error)
    ensures InvestmentInfo(investment).Ok? && |methods| < 2 ==> r == Err(IndexError)
    ensures InvestmentInfo(investment).Ok? && |methods| >= 2 ==> r == Ok(FallbackOsdReport(methods))
  {
    var investmentInfo := InvestmentInfo(investment);
    if investmentInfo.Err? {
      return Err(investmentInfo.error);
    }
    if |methods| < 2 {
      return Err(IndexError);
    }
    var report: GptReport;
    match response {
      case Some(reportText) =>
        report := ParseOsdReport(reportText, methods);
      case None =>
        report := GetFallbackOsdReport(methods);
    }
    r := Ok(report);
  }

  /**
   * Each sample risk is valid, its score is the OSD product, and the
   * first one, market competition, is the highest.
   */
  lemma FallbackRisksFacts(m: AnalysisMethod)
    ensures |FallbackRisks(m)| == 3
    ensures forall j :: 0 <= j < 3 ==>
      && ValidOsdScore(FallbackRisks(m)[j])
      && FallbackRisks(m)[j].riskScore == CalculateOsdScore(FallbackRisks(m)[j].occurrence, FallbackRisks(m)[j].severity, FallbackRisks(m)[j].detection)
      && FallbackRisks(m)[j].riskScore <= FallbackRisks(m)[0].riskScore
  {
    var rs := FallbackRisks(m);
    assert rs[0].riskScore == CalculateOsdScore(7, 8, 6);
    assert rs[1].riskScore == CalculateOsdScore(5, 9, 7);
    assert rs[2].riskScore == CalculateOsdScore(6, 6, 5);
  }

  /**
   * The fallback report has one result per method, in order, each with
   * the three sample risks and three findings; five recommendations
   * follow, and the trimmed summary.
   */
  lemma FallbackReportFacts(methods: seq<AnalysisMethod>)
    ensures |FallbackOsdReport(methods).methodResults| == |methods|
    ensures forall k :: 0 <= k < |methods| ==>
      && FallbackOsdReport(methods).methodResults[k].analysisMethod == methods[k]
      && FallbackOsdReport(methods).methodResults[k].osdRisks == FallbackRisks(methods[k])
      && |FallbackOsdReport(methods).methodResults[k].keyFindings| == 3
    ensures |FallbackOsdReport(methods).aiRecommendations| == 5
    ensures FallbackOsdReport(methods).executiveSummary == EXECUTIVE_SUMMARY
  {
    forall k | 0 <= k < |methods| ensures Map(FallbackMethodResult, methods)[k] == FallbackMethodResult(methods[k]) {
      MapAt(FallbackMethodResult, methods, k);
    }
  }
}
