/** The records passed between the components: the structural facts of one
    code element (`CodeContext`), the result of one refinement iteration
    (`DocstringResult`), the critic's verdict (`CriticReview`) and the
    generator's structured answer (`DocstringSuggestion`).  Both copies of the
    record declarations in the repository are identical and share this module. */
module Models {
  import opened Wrappers

  datatype ElementType = Function | Class | Method | Constructor

  /** The enum's string value. */
  function ElementTypeValue(t: ElementType): string {
    match t
    case Function => "function"
    case Class => "class"
    case Method => "method"
    case Constructor => "constructor"
  }

  /** Looking a member up by value, `CodeElementType(s)`; `None` when Python raises. */
  function ParseElementType(s: string): (r: Option<ElementType>)
    ensures r.Some? ==> ElementTypeValue(r.value) == s
  {
    if s == "function" then Some(Function)
    else if s == "class" then Some(Class)
    else if s == "method" then Some(Method)
    else if s == "constructor" then Some(Constructor)
    else None
  }

  /** Exactly four values, each with its own string. */
  lemma ElementTypeRoundTrip(t: ElementType)
    ensures ParseElementType(ElementTypeValue(t)) == Some(t)
  {
  }

  datatype DocstringStyle = Google | Numpy | Rst

  function StyleValue(s: DocstringStyle): string {
    match s
    case Google => "google"
    case Numpy => "numpy"
    case Rst => "rst"
  }

  /** `DocstringStyle(s)`; `None` when Python raises. */
  function ParseStyle(s: string): (r: Option<DocstringStyle>)
    ensures r.Some? ==> StyleValue(r.value) == s
  {
    if s == "google" then Some(Google)
    else if s == "numpy" then Some(Numpy)
    else if s == "rst" then Some(Rst)
    else None
  }

  /** Exactly three styles, each with its own string. */
  lemma StyleRoundTrip(s: DocstringStyle)
    ensures ParseStyle(StyleValue(s)) == Some(s)
  {
  }

  datatype Parameter = Parameter(
    name: string,
    typeHint: Option<string>,
    defaultValue: Option<string>,
    inferredType: Option<string>,
    description: Option<string>)

  /** `Parameter(name=...)` with every optional field left at its default. */
  function NewParameter(name: string): (p: Parameter)
    ensures p.name == name
    ensures p.typeHint.None? && p.defaultValue.None? && p.inferredType.None? && p.description.None?
  {
    Parameter(name, None, None, None, None)
  }

  datatype ReturnInfo = ReturnInfo(
    typeHint: Option<string>,
    inferredType: Option<string>,
    description: Option<string>,
    isGenerator: bool,
    isMultiple: bool)

  /** `ReturnInfo()`: no types, neither a generator nor multiple values. */
  function NewReturnInfo(): (r: ReturnInfo)
    ensures r.typeHint.None? && r.inferredType.None? && r.description.None?
    ensures !r.isGenerator && !r.isMultiple
  {
    ReturnInfo(None, None, None, false, false)
  }

  datatype ExceptionInfo = ExceptionInfo(exceptionType: string, description: Option<string>)

  datatype CodeContext = CodeContext(
    elementType: ElementType,
    name: string,
    qualifiedName: string,
    parameters: seq<Parameter>,
    returnInfo: Option<ReturnInfo>,
    raises: seq<ExceptionInfo>,
    existingDocstring: Option<string>,
    sourceCode: string,
    lineNumber: int,
    complexityScore: Option<int>,
    decorators: seq<string>,
    isAsync: bool,
    bodySummary: Option<string>)

  /** `CodeContext(...)` given only its required fields. */
  function NewCodeContext(elementType: ElementType, name: string, qualifiedName: string,
                          sourceCode: string, lineNumber: int): (c: CodeContext)
    ensures c.elementType == elementType && c.name == name && c.qualifiedName == qualifiedName
    ensures c.sourceCode == sourceCode && c.lineNumber == lineNumber
    ensures c.parameters == [] && c.raises == [] && c.decorators == []
    ensures c.returnInfo.None? && c.existingDocstring.None? && c.complexityScore.None?
    ensures c.bodySummary.None? && !c.isAsync
  {
    CodeContext(elementType, name, qualifiedName, [], None, [], None, sourceCode, lineNumber,
                None, [], false, None)
  }

  datatype DocstringResult = DocstringResult(
    elementName: string,
    generatedDocstring: string,
    confidenceScore: real,
    style: string,
    reasoning: string,
    warnings: seq<string>,
    processingTime: real,
    improvedFrom: Option<string>,
    iteration: int)

  /** `DocstringResult(...)` given only its required fields; the confidence is
      stored as given, without any range check. */
  function NewDocstringResult(elementName: string, generatedDocstring: string,
                              confidenceScore: real, style: string, reasoning: string,
                              processingTime: real): (r: DocstringResult)
    ensures r.elementName == elementName && r.generatedDocstring == generatedDocstring
    ensures r.confidenceScore == confidenceScore && r.style == style
    ensures r.reasoning == reasoning && r.processingTime == processingTime
    ensures r.warnings == [] && r.improvedFrom.None? && r.iteration == 1
  {
    DocstringResult(elementName, generatedDocstring, confidenceScore, style, reasoning, [],
                    processingTime, None, 1)
  }

  datatype CriticReview = CriticReview(
    score: real,
    issues: seq<string>,
    suggestions: seq<string>,
    missingInfo: seq<string>,
    isAccurate: bool,
    clarityScore: real)

  /** The field bounds `ge=0, le=1` on `score` and `clarity_score`. */
  predicate ValidReview(r: CriticReview) {
    0.0 <= r.score <= 1.0 && 0.0 <= r.clarityScore <= 1.0
  }

  /** `CriticReview(...)`: construction validates the bounds and raises
      (`None` here) when either score is out of range. */
  function MakeCriticReview(score: real, issues: seq<string>, suggestions: seq<string>,
                            missingInfo: seq<string>, isAccurate: bool,
                            clarityScore: real): (r: Option<CriticReview>)
    ensures r.Some? <==> 0.0 <= score <= 1.0 && 0.0 <= clarityScore <= 1.0
    ensures r.Some? ==> ValidReview(r.value)
    ensures r.Some? ==> r.value == CriticReview(score, issues, suggestions, missingInfo,
                                                isAccurate, clarityScore)
  {
    var review := CriticReview(score, issues, suggestions, missingInfo, isAccurate, clarityScore);
    if ValidReview(review) then Some(review) else None
  }

  /** What the generator's language model is asked to return. */
  datatype DocstringSuggestion = DocstringSuggestion(
    summary: string,
    description: string,
    argsDescription: seq<string>,
    returnsDescription: string,
    raisesDescription: seq<string>,
    sideEffects: seq<string>,
    example: Option<string>)

  /** Python truthiness of an optional string: present and non-empty. */
  predicate Truthy(o: Option<string>) {
    o.Some? && o.value != ""
  }

  /** `a or b` for an optional string `a`. */
  function Or(a: Option<string>, b: string): string {
    if Truthy(a) then a.value else b
  }

  /** `p.inferred_type or p.type_hint or 'Any'`, the type shown for a parameter. */
  function TypeShown(p: Parameter): string {
    Or(p.inferredType, Or(p.typeHint, "Any"))
  }

  /** `context.returns and context.returns.inferred_type != 'None'`: whether a
      template documents a return value. */
  predicate DocumentsReturn(c: CodeContext) {
    c.returnInfo.Some? && c.returnInfo.value.inferredType != Some("None")
  }

  /** `context.returns.inferred_type or 'Any'`. */
  function ReturnTypeShown(c: CodeContext): string
    requires c.returnInfo.Some?
  {
    Or(c.returnInfo.value.inferredType, "Any")
  }
}
