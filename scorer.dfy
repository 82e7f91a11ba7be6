/** The confidence scorer: a weighted sum of the critic's score and four
    checks of the draft against the element's record.  The two copies in the
    repository (docstring_agent/utils/confidence_scorer.py and
    `ConfidenceScorer` in app/tools.py) are the same code and share this
    module.  Arithmetic is exact; the source's binary floating point is not
    modelled. */
module Scorer {
  import opened Wrappers
  import opened Models
  import opened Lists
  import Text

  /** `count / total`, the fraction the two coverage checks return; `1.0`
      when there is nothing to cover. */
  function Fraction(count: nat, total: nat): real {
    if total == 0 then 1.0 else count as real / total as real
  }

  lemma FractionBounds(count: nat, total: nat)
    requires count <= total
    ensures 0.0 <= Fraction(count, total) <= 1.0
    ensures Fraction(count, total) == 1.0 <==> count == total
  {
  }

  // ---------------------------------------------------------------------------
  // Parameter coverage

  /** `param.name in doc_lower`: the name as written, against the lower-cased draft. */
  predicate Mentions(docLower: string, p: Parameter) {
    Text.Contains(docLower, p.name)
  }

  /** `_check_param_coverage`'s value. */
  function ParamCoverage(c: CodeContext, doc: string): real {
    Fraction(CountWhere(p => Mentions(Text.Lower(doc), p), c.parameters), |c.parameters|)
  }

  /** The parameter coverage is a fraction in [0, 1]; it is `1.0` exactly
      when every parameter's name occurs in the lower-cased draft, so a
      parameter whose name has an upper-case letter never counts. */
  lemma ParamCoverageCharacterized(c: CodeContext, doc: string)
    ensures 0.0 <= ParamCoverage(c, doc) <= 1.0
    ensures ParamCoverage(c, doc) == 1.0
            <==> forall k :: 0 <= k < |c.parameters| ==> Text.Contains(Text.Lower(doc), c.parameters[k].name)
    ensures |c.parameters| > 0 ==>
              (ParamCoverage(c, doc) == 0.0
               <==> forall k :: 0 <= k < |c.parameters| ==> !Text.Contains(Text.Lower(doc), c.parameters[k].name))
  {
    var P := p => Mentions(Text.Lower(doc), p);
    CountWhereBounds(P, c.parameters);
    FractionBounds(CountWhere(P, c.parameters), |c.parameters|);
  }

  /** `_check_param_coverage`: one pass counting the documented parameters. */
  method CheckParamCoverage(c: CodeContext, doc: string) returns (coverage: real)
    ensures coverage == ParamCoverage(c, doc)
  {
    if |c.parameters| == 0 {
      return 1.0;
    }
    var documented := 0;
    var docLower := Text.Lower(doc);
    var i := 0;
    while i < |c.parameters|
      invariant 0 <= i <= |c.parameters|
      invariant documented == CountWhere(p => Mentions(docLower, p), c.parameters[..i])
    {
      assert c.parameters[..i + 1][..i] == c.parameters[..i];
      if Text.Contains(docLower, c.parameters[i].name) {
        documented := documented + 1;
      }
      i := i + 1;
    }
    assert c.parameters[..i] == c.parameters;
    coverage := documented as real / |c.parameters| as real;
  }

  // ---------------------------------------------------------------------------
  // Return coverage

  /** One of the four return keywords occurs in the lower-cased draft. */
  predicate MentionsReturn(doc: string) {
    var docLower := Text.Lower(doc);
    Text.Contains(docLower, "returns") || Text.Contains(docLower, "return")
    || Text.Contains(docLower, "yields") || Text.Contains(docLower, "generator")
  }

  /** `_check_return_coverage`: `1.0` when nothing needs documenting or a
      keyword occurs, else `0.0`. */
  function ReturnCoverage(c: CodeContext, doc: string): (r: real)
    ensures r == 0.0 || r == 1.0
    ensures r == 0.0 <==> DocumentsReturn(c) && !MentionsReturn(doc)
  {
    if !DocumentsReturn(c) then 1.0
    else if MentionsReturn(doc) then 1.0
    else 0.0
  }

  /** `returns` contains `return`, so the first keyword of the list never
      decides anything on its own. */
  lemma ReturnsKeywordRedundant(s: string)
    requires Text.Contains(s, "returns")
    ensures Text.Contains(s, "return")
  {
    Text.ContainsIff(s, "returns");
    var i :| Text.OccursAt(s, "returns", i);
    assert s[i..i + 6] == s[i..i + 7][..6];
    assert Text.OccursAt(s, "return", i);
    Text.ContainsAt(s, "return", i);
  }

  // ---------------------------------------------------------------------------
  // Exception coverage

  /** `exc.exception_type.lower() in doc_lower`. */
  predicate MentionsException(docLower: string, e: ExceptionInfo) {
    Text.Contains(docLower, Text.Lower(e.exceptionType))
  }

  /** `_check_exception_coverage`'s value; duplicates in the list count each time. */
  function ExceptionCoverage(c: CodeContext, doc: string): real {
    Fraction(CountWhere(e => MentionsException(Text.Lower(doc), e), c.raises), |c.raises|)
  }

  /** The exception coverage is a fraction in [0, 1], `1.0` exactly when every
      listed exception's lower-cased name occurs in the lower-cased draft. */
  lemma ExceptionCoverageCharacterized(c: CodeContext, doc: string)
    ensures 0.0 <= ExceptionCoverage(c, doc) <= 1.0
    ensures ExceptionCoverage(c, doc) == 1.0
            <==> forall k :: 0 <= k < |c.raises| ==>
                   Text.Contains(Text.Lower(doc), Text.Lower(c.raises[k].exceptionType))
  {
    var P := e => MentionsException(Text.Lower(doc), e);
    CountWhereBounds(P, c.raises);
    FractionBounds(CountWhere(P, c.raises), |c.raises|);
  }

  /** `_check_exception_coverage`: one pass counting the documented exceptions. */
  method CheckExceptionCoverage(c: CodeContext, doc: string) returns (coverage: real)
    ensures coverage == ExceptionCoverage(c, doc)
  {
    if |c.raises| == 0 {
      return 1.0;
    }
    var documented := 0;
    var docLower := Text.Lower(doc);
    var i := 0;
    while i < |c.raises|
      invariant 0 <= i <= |c.raises|
      invariant documented == CountWhere(e => MentionsException(docLower, e), c.raises[..i])
    {
      assert c.raises[..i + 1][..i] == c.raises[..i];
      if Text.Contains(docLower, Text.Lower(c.raises[i].exceptionType)) {
        documented := documented + 1;
      }
      i := i + 1;
    }
    assert c.raises[..i] == c.raises;
    coverage := documented as real / |c.raises| as real;
  }

  // ---------------------------------------------------------------------------
  // Clarity

  /** Between 10 and 200 whitespace-separated words. */
  predicate GoodLength(doc: string) {
    10 <= Text.WordCount(doc) <= 200
  }

  /** `len(docstring.split('.')) >= 2`. */
  predicate HasSentences(doc: string) {
    |Text.Split(doc, '.')| >= 2
  }

  predicate HasQuotes(doc: string) {
    Text.Contains(doc, "\"\"\"")
  }

  /** `'Args:' in docstring or 'Parameters' in docstring`, case-sensitive. */
  predicate HasSections(doc: string) {
    Text.Contains(doc, "Args:") || Text.Contains(doc, "Parameters")
  }

  /** The four clarity points before the cap. */
  function ClarityPoints(doc: string): real {
    (if GoodLength(doc) then 0.3 else 0.0) + (if HasSentences(doc) then 0.3 else 0.0)
    + (if HasQuotes(doc) then 0.2 else 0.0) + (if HasSections(doc) then 0.2 else 0.0)
  }

  /** `_check_clarity`'s value: the points, capped at 1. */
  function Clarity(doc: string): real {
    if ClarityPoints(doc) < 1.0 then ClarityPoints(doc) else 1.0
  }

  /** The points never exceed 1, so the cap never changes anything; the
      sentence check holds exactly when the draft has a `.`; the clarity is
      1 exactly when all four checks pass and 0 exactly when none does. */
  lemma ClarityCharacterized(doc: string)
    ensures Clarity(doc) == ClarityPoints(doc)
    ensures 0.0 <= Clarity(doc) <= 1.0
    ensures HasSentences(doc) <==> '.' in doc
    ensures Clarity(doc) == 1.0 <==> GoodLength(doc) && HasSentences(doc) && HasQuotes(doc) && HasSections(doc)
    ensures Clarity(doc) == 0.0 <==> !GoodLength(doc) && !HasSentences(doc) && !HasQuotes(doc) && !HasSections(doc)
  {
    Text.CountPositive(doc, '.');
  }

  /** `_check_clarity`: four independent checks adding to a running score,
      then the cap. */
  method CheckClarity(doc: string) returns (score: real)
    ensures score == Clarity(doc)
  {
    score := 0.0;
    var words := Text.WordCount(doc);
    if 10 <= words <= 200 {
      score := score + 0.3;
    }
    var sentences := Text.Split(doc, '.');
    if |sentences| >= 2 {
      score := score + 0.3;
    }
    if Text.Contains(doc, "\"\"\"") {
      score := score + 0.2;
    }
    if Text.Contains(doc, "Args:") || Text.Contains(doc, "Parameters") {
      score := score + 0.2;
    }
    if score > 1.0 {
      score := 1.0;
    }
  }

  // ---------------------------------------------------------------------------
  // The weighted sum

  /** The five weights applied to the critic score and the four checks. */
  function Weighted(critic: real, params: real, returned: real, exceptions: real, clarity: real): real {
    0.4 * critic + 0.2 * params + 0.15 * returned + 0.1 * exceptions + 0.15 * clarity
  }

  /** `calculate`'s value for a critic score `critic`. */
  function Confidence(c: CodeContext, doc: string, critic: real): real {
    Weighted(critic, ParamCoverage(c, doc), ReturnCoverage(c, doc), ExceptionCoverage(c, doc), Clarity(doc))
  }

  /** Sum of a list of reals, `sum(scores)`. */
  function Sum(s: seq<real>): real {
    if s == [] then 0.0 else Sum(s[..|s| - 1]) + s[|s| - 1]
  }

  /** Appending a term adds it to the sum. */
  lemma SumAppend(scores: seq<real>, x: real)
    ensures Sum(scores + [x]) == Sum(scores) + x
  {
    assert (scores + [x])[..|scores|] == scores;
  }

  /** `calculate`: the five weighted terms are appended to a list, which is
      then summed. */
  method Calculate(c: CodeContext, doc: string, review: CriticReview) returns (confidence: real)
    ensures confidence == Confidence(c, doc, review.score)
  {
    var scores: seq<real> := [];
    SumAppend(scores, review.score * 0.4);
    scores := scores + [review.score * 0.4];
    var paramCoverage := CheckParamCoverage(c, doc);
    SumAppend(scores, paramCoverage * 0.2);
    scores := scores + [paramCoverage * 0.2];
    var returnCoverage := ReturnCoverage(c, doc);
    SumAppend(scores, returnCoverage * 0.15);
    scores := scores + [returnCoverage * 0.15];
    var exceptionCoverage := CheckExceptionCoverage(c, doc);
    SumAppend(scores, exceptionCoverage * 0.1);
    scores := scores + [exceptionCoverage * 0.1];
    var clarity := CheckClarity(doc);
    SumAppend(scores, clarity * 0.15);
    scores := scores + [clarity * 0.15];
    confidence := Sum(scores);
  }

  /** The weights add up to 1, so five values in [0, 1] give a value in
      [0, 1], and raising any one of them never lowers the result. */
  lemma WeightedBounds(critic: real, params: real, returned: real, exceptions: real, clarity: real)
    requires 0.0 <= critic <= 1.0 && 0.0 <= params <= 1.0 && 0.0 <= returned <= 1.0
    requires 0.0 <= exceptions <= 1.0 && 0.0 <= clarity <= 1.0
    ensures 0.0 <= Weighted(critic, params, returned, exceptions, clarity) <= 1.0
    ensures Weighted(critic, params, returned, exceptions, clarity) == 1.0
            <==> critic == 1.0 && params == 1.0 && returned == 1.0 && exceptions == 1.0 && clarity == 1.0
  {
  }

  lemma WeightedMonotone(c1: real, p1: real, r1: real, e1: real, l1: real,
                         c2: real, p2: real, r2: real, e2: real, l2: real)
    requires c1 <= c2 && p1 <= p2 && r1 <= r2 && e1 <= e2 && l1 <= l2
    ensures Weighted(c1, p1, r1, e1, l1) <= Weighted(c2, p2, r2, e2, l2)
  {
  }

  /** Every check lies in [0, 1], so a critic score in [0, 1] gives a
      confidence in [0, 1]; outside that range nothing clamps the result. */
  lemma ConfidenceBounds(c: CodeContext, doc: string, critic: real)
    requires 0.0 <= critic <= 1.0
    ensures 0.0 <= Confidence(c, doc, critic) <= 1.0
  {
    ParamCoverageCharacterized(c, doc);
    ExceptionCoverageCharacterized(c, doc);
    ClarityCharacterized(doc);
    WeightedBounds(critic, ParamCoverage(c, doc), ReturnCoverage(c, doc), ExceptionCoverage(c, doc), Clarity(doc));
  }

  /** A perfect critic score with every parameter named and nothing returned
      or raised scores at least 0.85 whatever the draft's clarity. */
  lemma WellDocumentedScoresHigh(c: CodeContext, doc: string)
    requires c.returnInfo.None? && c.raises == []
    requires forall k :: 0 <= k < |c.parameters| ==> Text.Contains(Text.Lower(doc), c.parameters[k].name)
    ensures Confidence(c, doc, 1.0) >= 0.85
  {
    ParamCoverageCharacterized(c, doc);
    ClarityCharacterized(doc);
  }

  /** A middling critic score, two parameters of which one goes unmentioned,
      and no `Args:` or `Parameters` heading score below 0.7. */
  lemma UndocumentedParameterScoresLow(c: CodeContext, doc: string)
    requires |c.parameters| == 2
    requires exists k :: 0 <= k < 2 && !Text.Contains(Text.Lower(doc), c.parameters[k].name)
    requires !HasSections(doc)
    ensures Confidence(c, doc, 0.5) < 0.7
  {
    var P := p => Mentions(Text.Lower(doc), p);
    CountWhereBounds(P, c.parameters);
    ExceptionCoverageCharacterized(c, doc);
    ClarityCharacterized(doc);
  }

  /** With no parameters, nothing returned and nothing raised, a critic score
      of 0.8 already reaches 0.77. */
  lemma NoParametersScoresWell(c: CodeContext, doc: string)
    requires c.parameters == [] && c.returnInfo.None? && c.raises == []
    ensures Confidence(c, doc, 0.8) >= 0.77
  {
    ClarityCharacterized(doc);
  }
}
