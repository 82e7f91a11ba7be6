/** The two critics.  The rule-based one (`CriticAgent.review` in
    app/agents.py) checks the draft against the element's record and scores
    by the number of issues; the language-model one
    (docstring_agent/agents/critic_agent.py) reads the model's free-text
    answer line by line.  The model's answer is a parameter: `None` when the
    call raises. */
module Critic {
  import opened Wrappers
  import opened Models
  import opened Lists
  import Text

  // ---------------------------------------------------------------------------
  // The rule-based critic

  function ParamIssue(name: string): string {
    "Parameter '" + name + "' not documented"
  }

  function ParamSuggestion(name: string): string {
    "Add documentation for parameter '" + name + "'"
  }

  function ExceptionIssue(exceptionType: string): string {
    "Exception '" + exceptionType + "' not documented"
  }

  const ReturnIssue := "Return value not documented"
  const ReturnSuggestion := "Add Returns section"

  /** `param.name not in docstring.lower()`. */
  predicate ParamMissing(docLower: string, p: Parameter) {
    !Text.Contains(docLower, p.name)
  }

  /** The record promises a return value and the draft never says `returns`. */
  predicate ReturnMissing(c: CodeContext, docLower: string) {
    DocumentsReturn(c) && !Text.Contains(docLower, "returns")
  }

  /** `exc.exception_type.lower() not in docstring.lower()`. */
  predicate ExceptionMissing(docLower: string, e: ExceptionInfo) {
    !Text.Contains(docLower, Text.Lower(e.exceptionType))
  }

  /** The issue lines for the parameters, in order. */
  function ParamIssues(docLower: string, params: seq<Parameter>): seq<string> {
    if params == [] then []
    else
      var p := params[|params| - 1];
      ParamIssues(docLower, params[..|params| - 1]) + (if ParamMissing(docLower, p) then [ParamIssue(p.name)] else [])
  }

  function ParamSuggestions(docLower: string, params: seq<Parameter>): seq<string> {
    if params == [] then []
    else
      var p := params[|params| - 1];
      ParamSuggestions(docLower, params[..|params| - 1])
        + (if ParamMissing(docLower, p) then [ParamSuggestion(p.name)] else [])
  }

  function ExceptionIssues(docLower: string, raises: seq<ExceptionInfo>): seq<string> {
    if raises == [] then []
    else
      var e := raises[|raises| - 1];
      ExceptionIssues(docLower, raises[..|raises| - 1])
        + (if ExceptionMissing(docLower, e) then [ExceptionIssue(e.exceptionType)] else [])
  }

  /** All issues found, before truncation: parameters, then the return value,
      then the exceptions. */
  function RuleIssues(c: CodeContext, doc: string): seq<string> {
    var docLower := Text.Lower(doc);
    ParamIssues(docLower, c.parameters) + (if ReturnMissing(c, docLower) then [ReturnIssue] else [])
      + ExceptionIssues(docLower, c.raises)
  }

  /** All suggestions made, before truncation: exceptions get none. */
  function RuleSuggestions(c: CodeContext, doc: string): seq<string> {
    var docLower := Text.Lower(doc);
    ParamSuggestions(docLower, c.parameters) + (if ReturnMissing(c, docLower) then [ReturnSuggestion] else [])
  }

  function Max(a: real, b: real): real {
    if a >= b then a else b
  }

  /** 0.7 with no issue, else `max(0.4, 0.7 - 0.1 * issues)`. */
  function RuleScore(issueCount: nat): real {
    if issueCount == 0 then 0.7 else Max(0.4, 0.7 - issueCount as real * 0.1)
  }

  /** The review the rule-based critic returns. */
  function RuleReview(c: CodeContext, doc: string): CriticReview {
    var issues := RuleIssues(c, doc);
    var score := RuleScore(|issues|);
    CriticReview(score, Take(issues, 5), Take(RuleSuggestions(c, doc), 5), [], score > 0.7, score * 0.9)
  }

  /** `CriticAgent.review` of app/agents.py: the three checks append their
      issues and suggestions, then the score is lowered by the issue count. */
  method ReviewByRules(code: string, doc: string, c: CodeContext) returns (review: CriticReview)
    ensures review == RuleReview(c, doc)
  {
    var score := 0.7;
    var docLower := Text.Lower(doc);
    var issues, suggestions := CheckParameters(docLower, c.parameters);
    if c.returnInfo.Some? && c.returnInfo.value.inferredType != Some("None") {
      if !Text.Contains(docLower, "returns") {
        issues := issues + [ReturnIssue];
        suggestions := suggestions + [ReturnSuggestion];
      }
    }
    var more := CheckExceptions(docLower, c.raises);
    issues := issues + more;
    if |issues| > 0 {
      score := Max(0.4, 0.7 - |issues| as real * 0.1);
    }
    review := CriticReview(score, Take(issues, 5), Take(suggestions, 5), [], score > 0.7, score * 0.9);
  }

  /** The parameter check of `CriticAgent.review`. */
  method CheckParameters(docLower: string, params: seq<Parameter>) returns (issues: seq<string>, suggestions: seq<string>)
    ensures issues == ParamIssues(docLower, params) && suggestions == ParamSuggestions(docLower, params)
  {
    issues, suggestions := [], [];
    var i := 0;
    while i < |params|
      invariant 0 <= i <= |params|
      invariant issues == ParamIssues(docLower, params[..i])
      invariant suggestions == ParamSuggestions(docLower, params[..i])
    {
      assert params[..i + 1][..i] == params[..i];
      var param := params[i];
      if !Text.Contains(docLower, param.name) {
        issues := issues + [ParamIssue(param.name)];
        suggestions := suggestions + [ParamSuggestion(param.name)];
      }
      i := i + 1;
    }
    assert params[..i] == params;
  }

  /** The exception check of `CriticAgent.review`: the issues it appends. */
  method CheckExceptions(docLower: string, raises: seq<ExceptionInfo>) returns (issues: seq<string>)
    ensures issues == ExceptionIssues(docLower, raises)
  {
    issues := [];
    var j := 0;
    while j < |raises|
      invariant 0 <= j <= |raises|
      invariant issues == ExceptionIssues(docLower, raises[..j])
    {
      assert raises[..j + 1][..j] == raises[..j];
      var exc := raises[j];
      if !Text.Contains(docLower, Text.Lower(exc.exceptionType)) {
        issues := issues + [ExceptionIssue(exc.exceptionType)];
      }
      j := j + 1;
    }
    assert raises[..j] == raises;
  }

  /** One issue per parameter whose name the draft lacks. */
  lemma {:induction false} ParamIssuesCount(docLower: string, params: seq<Parameter>)
    ensures |ParamIssues(docLower, params)| == CountWhere(p => ParamMissing(docLower, p), params)
    ensures |ParamSuggestions(docLower, params)| == CountWhere(p => ParamMissing(docLower, p), params)
    decreases |params|
  {
    if params != [] {
      ParamIssuesCount(docLower, params[..|params| - 1]);
    }
  }

  /** One issue per exception the draft does not name. */
  lemma {:induction false} ExceptionIssuesCount(docLower: string, raises: seq<ExceptionInfo>)
    ensures |ExceptionIssues(docLower, raises)| == CountWhere(e => ExceptionMissing(docLower, e), raises)
    decreases |raises|
  {
    if raises != [] {
      ExceptionIssuesCount(docLower, raises[..|raises| - 1]);
    }
  }

  /** The issues count the undocumented parameters, the missing return
      section and the unnamed exceptions; the suggestions count only the
      first two.  There is no issue exactly when every parameter and exception
      is named and a promised return value is mentioned. */
  lemma RuleIssuesCharacterized(c: CodeContext, doc: string)
    ensures var docLower := Text.Lower(doc);
            |RuleIssues(c, doc)|
            == CountWhere(p => ParamMissing(docLower, p), c.parameters) + (if ReturnMissing(c, docLower) then 1 else 0)
               + CountWhere(e => ExceptionMissing(docLower, e), c.raises)
    ensures var docLower := Text.Lower(doc);
            |RuleSuggestions(c, doc)|
            == CountWhere(p => ParamMissing(docLower, p), c.parameters) + (if ReturnMissing(c, docLower) then 1 else 0)
    ensures var docLower := Text.Lower(doc);
            RuleIssues(c, doc) == []
            <==> (forall k :: 0 <= k < |c.parameters| ==> Text.Contains(docLower, c.parameters[k].name))
                 && !ReturnMissing(c, docLower)
                 && (forall k :: 0 <= k < |c.raises| ==> Text.Contains(docLower, Text.Lower(c.raises[k].exceptionType)))
  {
    var docLower := Text.Lower(doc);
    ParamIssuesCount(docLower, c.parameters);
    ExceptionIssuesCount(docLower, c.raises);
    CountWhereBounds(p => ParamMissing(docLower, p), c.parameters);
    CountWhereBounds(e => ExceptionMissing(docLower, e), c.raises);
  }

  /** The score lies in [0.4, 0.7] and is 0.7 exactly when nothing is wrong,
      so the review never claims accuracy; clarity is 0.9 times the score, the
      review meets the record's bounds, and at most five issues and five
      suggestions are kept, the first ones. */
  lemma RuleReviewCharacterized(c: CodeContext, doc: string)
    ensures var r := RuleReview(c, doc);
            0.4 <= r.score <= 0.7 && (r.score == 0.7 <==> RuleIssues(c, doc) == [])
    ensures var r := RuleReview(c, doc);
            !r.isAccurate && r.clarityScore == 0.9 * r.score && r.missingInfo == []
    ensures ValidReview(RuleReview(c, doc))
    ensures var r := RuleReview(c, doc);
            MakeCriticReview(r.score, r.issues, r.suggestions, r.missingInfo, r.isAccurate, r.clarityScore) == Some(r)
    ensures var r := RuleReview(c, doc);
            |r.issues| <= 5 && |r.suggestions| <= 5
            && (|RuleIssues(c, doc)| <= 5 ==> r.issues == RuleIssues(c, doc))
            && (|RuleIssues(c, doc)| > 5 ==> r.issues == RuleIssues(c, doc)[..5])
  {
    var issues := RuleIssues(c, doc);
    if |issues| > 5 {
      assert Take(issues, 5) == issues[..5];
    }
  }

  // ---------------------------------------------------------------------------
  // The language-model critic's answer parser

  /** A line carrying a score. */
  predicate IsScoreLine(line: string) {
    Text.Contains(line, "score:") || Text.Contains(line, "rating:")
  }

  predicate IsIssueLine(line: string) {
    Text.Contains(line, "issue:") || Text.Contains(line, "problem:")
  }

  predicate IsSuggestionLine(line: string) {
    Text.Contains(line, "suggest:") || Text.Contains(line, "fix:")
  }

  /** Every marker ends in a colon, so a marked line has one. */
  lemma MarkerHasColon(line: string)
    requires IsIssueLine(line) || IsSuggestionLine(line)
    ensures ':' in line
  {
    if Text.Contains(line, "issue:") {
      Text.ContainsChar(line, "issue:", ':');
    } else if Text.Contains(line, "problem:") {
      Text.ContainsChar(line, "problem:", ':');
    } else if Text.Contains(line, "suggest:") {
      Text.ContainsChar(line, "suggest:", ':');
    } else {
      Text.ContainsChar(line, "fix:", ':');
    }
  }

  /** `float(''.join(c for c in line if c.isdigit() or c == '.'))`, `None`
      where `float` raises. */
  function LineScore(line: string): Option<real> {
    Text.ParseDecimal(Text.KeepNumeric(line))
  }

  /** `line.split(':', 1)[1].strip()`. */
  function Payload(line: string): string
    requires ':' in line
  {
    Text.Strip(Text.AfterFirst(line, ':'))
  }

  /** The running state of the parser: the score so far and the issues and
      suggestions collected. */
  datatype Draft = Draft(score: real, issues: seq<string>, suggestions: seq<string>)

  /** One line of the answer: a score line sets the score when its digits
      parse, otherwise an issue or suggestion line adds its payload. */
  function ReadLine(d: Draft, line: string): Draft {
    if IsScoreLine(line) then
      match LineScore(line)
      case Some(x) => d.(score := x)
      case None => d
    else if IsIssueLine(line) then
      MarkerHasColon(line);
      d.(issues := d.issues + [Payload(line)])
    else if IsSuggestionLine(line) then
      MarkerHasColon(line);
      d.(suggestions := d.suggestions + [Payload(line)])
    else d
  }

  /** The state after reading `lines` in order, from the default score 0.7. */
  function ReadLines(lines: seq<string>): Draft {
    if lines == [] then Draft(0.7, [], [])
    else ReadLine(ReadLines(lines[..|lines| - 1]), lines[|lines| - 1])
  }

  /** `content.lower().split('\n')`. */
  function AnswerLines(content: string): seq<string> {
    Text.Split(Text.Lower(content), '\n')
  }

  function Clamp(x: real): real {
    if x > 1.0 then 1.0 else if x < 0.0 then 0.0 else x
  }

  /** `_parse_review`'s result: the score is clamped, but accuracy and clarity
      come from the raw score, and constructing the record fails (`None`)
      when that clarity breaks its bound. */
  function ParsedReview(content: string): Option<CriticReview> {
    var d := ReadLines(AnswerLines(content));
    MakeCriticReview(Clamp(d.score), Take(d.issues, 5), Take(d.suggestions, 5), [], d.score > 0.7, d.score * 0.9)
  }

  /** `_parse_review`: one pass over the lines of the answer. */
  method ParseReview(content: string) returns (review: Option<CriticReview>)
    ensures review == ParsedReview(content)
  {
    var score := 0.7;
    var issues: seq<string> := [];
    var suggestions: seq<string> := [];
    var lines := Text.Split(Text.Lower(content), '\n');
    var i := 0;
    while i < |lines|
      invariant 0 <= i <= |lines|
      invariant Draft(score, issues, suggestions) == ReadLines(lines[..i])
    {
      ReadLinesStep(lines, i);
      score, issues, suggestions := ParseLine(score, issues, suggestions, lines[i]);
      i := i + 1;
    }
    assert lines[..i] == lines;
    review := MakeCriticReview(Clamp(score), Take(issues, 5), Take(suggestions, 5), [], score > 0.7, score * 0.9);
  }

  lemma ReadLinesStep(lines: seq<string>, i: nat)
    requires i < |lines|
    ensures ReadLines(lines[..i + 1]) == ReadLine(ReadLines(lines[..i]), lines[i])
  {
    assert lines[..i + 1][..i] == lines[..i];
  }

  /** The body of the line loop of `_parse_review`. */
  method ParseLine(score: real, issues: seq<string>, suggestions: seq<string>, line: string)
    returns (score': real, issues': seq<string>, suggestions': seq<string>)
    ensures Draft(score', issues', suggestions') == ReadLine(Draft(score, issues, suggestions), line)
  {
    score', issues', suggestions' := score, issues, suggestions;
    if Text.Contains(line, "score:") || Text.Contains(line, "rating:") {
      var parsed := Text.ParseDecimal(Text.KeepNumeric(line));
      if parsed.Some? {
        score' := parsed.value;
      }
    } else if Text.Contains(line, "issue:") || Text.Contains(line, "problem:") {
      MarkerHasColon(line);
      issues' := issues + [Payload(line)];
    } else if Text.Contains(line, "suggest:") || Text.Contains(line, "fix:") {
      MarkerHasColon(line);
      suggestions' := suggestions + [Payload(line)];
    }
  }

  /** Without a score line the score stays at its default 0.7. */
  lemma {:induction false} DefaultScore(lines: seq<string>)
    requires forall k :: 0 <= k < |lines| ==> !IsScoreLine(lines[k])
    ensures ReadLines(lines).score == 0.7
    decreases |lines|
  {
    if lines != [] {
      DefaultScore(lines[..|lines| - 1]);
    }
  }

  /** A score line's value stands unless a later score line parses: the last
      parsable score wins. */
  lemma {:induction false} LastScoreWins(lines: seq<string>, k: nat)
    requires k < |lines| && IsScoreLine(lines[k]) && LineScore(lines[k]).Some?
    requires forall j :: k < j < |lines| ==> !(IsScoreLine(lines[j]) && LineScore(lines[j]).Some?)
    ensures ReadLines(lines).score == LineScore(lines[k]).value
    decreases |lines|
  {
    var front := lines[..|lines| - 1];
    if k < |front| {
      assert front[k] == lines[k];
      assert forall j :: k < j < |front| ==> front[j] == lines[j];
      LastScoreWins(front, k);
      assert !(IsScoreLine(lines[|lines| - 1]) && LineScore(lines[|lines| - 1]).Some?);
    }
  }

  /** The raw score is never negative: only digits and dots are parsed. */
  lemma {:induction false} ScoreNonnegative(lines: seq<string>)
    ensures ReadLines(lines).score >= 0.0
    decreases |lines|
  {
    if lines != [] {
      ScoreNonnegative(lines[..|lines| - 1]);
    }
  }

  /** A line read as an issue carries `issue:` or `problem:` and no score
      marker. */
  predicate IssueOnly(line: string) {
    !IsScoreLine(line) && IsIssueLine(line)
  }

  predicate SuggestionOnly(line: string) {
    !IsScoreLine(line) && !IsIssueLine(line) && IsSuggestionLine(line)
  }

  /** One issue per issue line that is not a score line, one suggestion per
      suggestion line that is neither; a score line is never an issue. */
  lemma {:induction false} CollectedCounts(lines: seq<string>)
    ensures |ReadLines(lines).issues| == CountWhere(IssueOnly, lines)
    ensures |ReadLines(lines).suggestions| == CountWhere(SuggestionOnly, lines)
    decreases |lines|
  {
    if lines != [] {
      CollectedCounts(lines[..|lines| - 1]);
    }
  }

  /** The parsed review exists exactly when 0.9 times the raw score is at most
      1; it then holds the clamped score, accuracy and clarity from the raw
      score, at most five issues and suggestions and no missing information. */
  lemma ParsedReviewCharacterized(content: string)
    ensures var raw := ReadLines(AnswerLines(content)).score;
            ParsedReview(content).Some? <==> raw * 0.9 <= 1.0
    ensures var raw := ReadLines(AnswerLines(content)).score;
            ParsedReview(content).Some? ==>
              var r := ParsedReview(content).value;
              0.0 <= r.score <= 1.0 && (raw <= 1.0 ==> r.score == raw) && (raw > 1.0 ==> r.score == 1.0)
              && (r.isAccurate <==> raw > 0.7) && r.clarityScore == raw * 0.9
              && |r.issues| <= 5 && |r.suggestions| <= 5 && r.missingInfo == []
  {
    ScoreNonnegative(AnswerLines(content));
  }

  /** The review returned when the model call or the record construction raises. */
  const NeutralReview := CriticReview(0.5, ["Unable to complete review due to error"], ["Regenerate docstring"],
                                      ["Complete review failed"], false, 0.5)

  /** `review` of docstring_agent/agents/critic_agent.py, given the model's
      answer (`None` when the call raises): the parsed review, or the neutral
      one when anything raises.  Either way the bounds hold. */
  function ModelReview(answer: Option<string>): (r: CriticReview)
    ensures ValidReview(r)
    ensures answer.None? ==> r == NeutralReview
    ensures answer.Some? && ParsedReview(answer.value).Some? ==> r == ParsedReview(answer.value).value
    ensures answer.Some? && ParsedReview(answer.value).None? ==> r == NeutralReview
  {
    match answer
    case None => NeutralReview
    case Some(content) =>
      match ParsedReview(content)
      case Some(review) => review
      case None => NeutralReview
  }

  /** A model answering "Score: 8/10" (lower-cased before parsing) gives the
      score 810: the filter keeps the digits of both numbers and drops the
      slash. */
  lemma EightOutOfTen()
    ensures LineScore("score: 8/10") == Some(810.0)
  {
    Text.FilterEightOutOfTen();
    assert "8" + "10" == "810";
    Text.ParseEightHundredTen();
  }

  /** An answer that is the single line "Score: 8/10" yields the neutral
      review, not a high score. */
  lemma EightOutOfTenGivesNeutralReview()
    ensures ModelReview(Some("Score: 8/10")) == NeutralReview
  {
    EightOutOfTenLines();
    EightOutOfTen();
    HighScoreGivesNeutralReview("Score: 8/10", 0);
  }

  lemma EightOutOfTenLines()
    ensures AnswerLines("Score: 8/10") == ["score: 8/10"] && IsScoreLine("score: 8/10")
  {
    var line := "score: 8/10";
    Text.LowerScoreLine();
    Text.SplitNoSeparator(line, '\n');
    assert Text.StartsWith(line, "score:");
  }

  /** When the last parsable score line reads above 10/9 (an answer grading
      "8/10" keeps the digits 810), the clarity breaks its bound and the
      neutral review comes back instead of a high score. */
  lemma HighScoreGivesNeutralReview(content: string, k: nat)
    requires var lines := AnswerLines(content);
             k < |lines| && IsScoreLine(lines[k]) && LineScore(lines[k]).Some?
             && LineScore(lines[k]).value * 0.9 > 1.0
             && forall j :: k < j < |lines| ==> !(IsScoreLine(lines[j]) && LineScore(lines[j]).Some?)
    ensures ModelReview(Some(content)) == NeutralReview
  {
    LastScoreWins(AnswerLines(content), k);
    ParsedReviewCharacterized(content);
  }
}
