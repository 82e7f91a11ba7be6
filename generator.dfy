/** The docstring generators.  The package generator
    (docstring_agent/agents/generator_agent.py) lays the language model's
    structured answer out in one of three styles, and falls back to a
    rule-based template when the call raises; the app generator
    (`GeneratorAgent` in app/agents.py) always uses fixed templates built from
    the record alone.  Each formatter appends lines to a list and joins them
    with newlines; the model's answer is a parameter (`None` when the call
    raises). */
module Generator {
  import opened Wrappers
  import opened Models
  import Text

  const Quotes := "\"\"\""

  function Min(a: nat, b: nat): nat {
    if a <= b then a else b
  }

  /** `'\n'.join(lines)`. */
  function Render(lines: seq<string>): string {
    Text.Join(lines, "\n")
  }

  // ---------------------------------------------------------------------------
  // `_format_parameters`

  /** `"name (type)"` for one parameter. */
  function ParamSummary(p: Parameter): string {
    p.name + " (" + TypeShown(p) + ")"
  }

  /** `_format_parameters`: `"None"` for no parameters, else the summaries
      joined by `", "`. */
  function FormatParameters(ps: seq<Parameter>): string {
    if ps == [] then "None"
    else Text.Join(seq(|ps|, k requires 0 <= k < |ps| => ParamSummary(ps[k])), ", ")
  }

  /** A non-empty list always renders with the first parameter's summary in
      front, so it never reads as the empty list's `"None"`. */
  lemma FormatParametersCharacterized(ps: seq<Parameter>)
    ensures ps == [] <==> FormatParameters(ps) == "None"
    ensures ps != [] ==> Text.StartsWith(FormatParameters(ps), ParamSummary(ps[0]))
  {
    if ps != [] {
      var parts := seq(|ps|, k requires 0 <= k < |ps| => ParamSummary(ps[k]));
      Text.JoinStartsWith(parts, ", ");
      var r := FormatParameters(ps);
      var first := ParamSummary(ps[0]);
      assert first[|ps[0].name| + 1] == '(';
      assert r[|ps[0].name| + 1] == '(';
      assert r != "None";
    }
  }

  // ---------------------------------------------------------------------------
  // The line blocks

  /** `['', description]` when the description is non-empty. */
  function DescriptionLines(s: DocstringSuggestion): seq<string> {
    if s.description != "" then ["", s.description] else []
  }

  /** Google `Args:` lines for the first `n` pairs of `zip(parameters, descriptions)`. */
  function GoogleArgLines(ps: seq<Parameter>, ds: seq<string>, n: nat): seq<string>
    requires n <= |ps| && n <= |ds|
  {
    if n == 0 then []
    else GoogleArgLines(ps, ds, n - 1) + ["    " + ps[n - 1].name + " (" + TypeShown(ps[n - 1]) + "): " + ds[n - 1]]
  }

  /** Google `Raises:` lines for the first `n` pairs of `zip(raises, descriptions)`. */
  function RaiseLines(es: seq<ExceptionInfo>, ds: seq<string>, n: nat): seq<string>
    requires n <= |es| && n <= |ds|
  {
    if n == 0 then [] else RaiseLines(es, ds, n - 1) + ["    " + es[n - 1].exceptionType + ": " + ds[n - 1]]
  }

  /** Google `Note:` lines, one per side effect. */
  function NoteLines(effects: seq<string>, n: nat): seq<string>
    requires n <= |effects|
  {
    if n == 0 then [] else NoteLines(effects, n - 1) + ["    " + effects[n - 1]]
  }

  /** NumPy parameter lines: a `name : type` line and an indented description. */
  function NumpyArgLines(ps: seq<Parameter>, ds: seq<string>, n: nat): seq<string>
    requires n <= |ps| && n <= |ds|
  {
    if n == 0 then []
    else NumpyArgLines(ps, ds, n - 1) + [ps[n - 1].name + " : " + TypeShown(ps[n - 1]), "    " + ds[n - 1]]
  }

  /** reST parameter lines: an indented `:param` and `:type` pair. */
  function RstArgLines(ps: seq<Parameter>, ds: seq<string>, n: nat): seq<string>
    requires n <= |ps| && n <= |ds|
  {
    if n == 0 then []
    else
      RstArgLines(ps, ds, n - 1)
        + ["    :param " + ps[n - 1].name + ": " + ds[n - 1], "    :type " + ps[n - 1].name + ": " + TypeShown(ps[n - 1])]
  }

  /** The fallback's `name: Description missing` lines. */
  function FallbackArgLines(ps: seq<Parameter>, n: nat): seq<string>
    requires n <= |ps|
  {
    if n == 0 then [] else FallbackArgLines(ps, n - 1) + ["    " + ps[n - 1].name + ": Description missing"]
  }

  /** The app's reST parameter lines: an unindented `:param` and `:type` pair. */
  function AppRstArgLines(ps: seq<Parameter>, n: nat): seq<string>
    requires n <= |ps|
  {
    if n == 0 then []
    else
      AppRstArgLines(ps, n - 1)
        + [":param " + ps[n - 1].name + ": " + ParamDescription(ps[n - 1].name),
           ":type " + ps[n - 1].name + ": " + TypeShown(ps[n - 1])]
  }

  /** Each zip block has one line per pair; the NumPy and reST blocks two. */
  lemma {:induction false} BlockLengths(ps: seq<Parameter>, es: seq<ExceptionInfo>, ds: seq<string>, effects: seq<string>, n: nat)
    ensures n <= |ps| && n <= |ds| ==> |GoogleArgLines(ps, ds, n)| == n && |NumpyArgLines(ps, ds, n)| == 2 * n
                                       && |RstArgLines(ps, ds, n)| == 2 * n
    ensures n <= |es| && n <= |ds| ==> |RaiseLines(es, ds, n)| == n
    ensures n <= |effects| ==> |NoteLines(effects, n)| == n
    ensures n <= |ps| ==> |FallbackArgLines(ps, n)| == n && |AppRstArgLines(ps, n)| == 2 * n
  {
    if n > 0 {
      BlockLengths(ps, es, ds, effects, n - 1);
    }
  }

  /** Line `k` of the Google `Args:` block pairs parameter `k` with
      description `k`. */
  lemma {:induction false} GoogleArgLine(ps: seq<Parameter>, ds: seq<string>, n: nat, k: nat)
    requires n <= |ps| && n <= |ds| && k < n
    ensures |GoogleArgLines(ps, ds, n)| == n
    ensures GoogleArgLines(ps, ds, n)[k] == "    " + ps[k].name + " (" + TypeShown(ps[k]) + "): " + ds[k]
  {
    BlockLengths(ps, [], ds, [], n - 1);
    if k < n - 1 {
      GoogleArgLine(ps, ds, n - 1, k);
    }
  }

  // ---------------------------------------------------------------------------
  // The package formatters

  /** The Google `Args:` section: present when there are parameters. */
  function GoogleArgs(s: DocstringSuggestion, c: CodeContext): seq<string> {
    var ps := c.parameters;
    if ps != [] then ["", "Args:"] + GoogleArgLines(ps, s.argsDescription, Min(|ps|, |s.argsDescription|)) else []
  }

  /** The Google `Returns:` section: present when a return value is documented. */
  function GoogleReturns(s: DocstringSuggestion, c: CodeContext): seq<string> {
    if DocumentsReturn(c) then ["", "Returns:", "    " + ReturnTypeShown(c) + ": " + s.returnsDescription] else []
  }

  /** The Google `Raises:` section: present when there are exceptions. */
  function GoogleRaises(s: DocstringSuggestion, c: CodeContext): seq<string> {
    var es := c.raises;
    if es != [] then ["", "Raises:"] + RaiseLines(es, s.raisesDescription, Min(|es|, |s.raisesDescription|)) else []
  }

  /** The Google `Note:` section: present when there are side effects. */
  function GoogleNote(s: DocstringSuggestion): seq<string> {
    if s.sideEffects != [] then ["", "Note:"] + NoteLines(s.sideEffects, |s.sideEffects|) else []
  }

  /** `_format_google`'s lines. */
  function GoogleLines(s: DocstringSuggestion, c: CodeContext): seq<string> {
    [Quotes + s.summary] + DescriptionLines(s) + GoogleArgs(s, c) + GoogleReturns(s, c) + GoogleRaises(s, c)
    + GoogleNote(s) + [Quotes]
  }

  function NumpyArgs(s: DocstringSuggestion, c: CodeContext): seq<string> {
    var ps := c.parameters;
    if ps != [] then ["", "Parameters", "----------"] + NumpyArgLines(ps, s.argsDescription, Min(|ps|, |s.argsDescription|))
    else []
  }

  function NumpyReturns(s: DocstringSuggestion, c: CodeContext): seq<string> {
    if DocumentsReturn(c) then ["", "Returns", "-------", ReturnTypeShown(c), "    " + s.returnsDescription] else []
  }

  /** `_format_numpy`'s lines. */
  function NumpyLines(s: DocstringSuggestion, c: CodeContext): seq<string> {
    [Quotes + s.summary] + DescriptionLines(s) + NumpyArgs(s, c) + NumpyReturns(s, c) + [Quotes]
  }

  function RstArgs(s: DocstringSuggestion, c: CodeContext): seq<string> {
    var ps := c.parameters;
    if ps != [] then ["", ":param:"] + RstArgLines(ps, s.argsDescription, Min(|ps|, |s.argsDescription|)) else []
  }

  function RstReturns(s: DocstringSuggestion, c: CodeContext): seq<string> {
    if DocumentsReturn(c) then ["", ":returns: " + s.returnsDescription, ":rtype: " + ReturnTypeShown(c)] else []
  }

  /** `_format_rst`'s lines. */
  function RstLines(s: DocstringSuggestion, c: CodeContext): seq<string> {
    [Quotes + s.summary] + DescriptionLines(s) + RstArgs(s, c) + RstReturns(s, c) + [Quotes]
  }

  /** `_format_docstring`'s dispatch: Google, NumPy, and reST for anything else. */
  function StyledLines(s: DocstringSuggestion, c: CodeContext, style: DocstringStyle): seq<string> {
    match style
    case Google => GoogleLines(s, c)
    case Numpy => NumpyLines(s, c)
    case Rst => RstLines(s, c)
  }

  function FallbackArgs(c: CodeContext): seq<string> {
    if c.parameters != [] then ["", "Args:"] + FallbackArgLines(c.parameters, |c.parameters|) else []
  }

  function FallbackReturns(c: CodeContext): seq<string> {
    if DocumentsReturn(c) then ["", "Returns:", "    " + ReturnTypeShown(c) + ": Description missing"] else []
  }

  /** `_fallback_generate`'s lines, whatever the style. */
  function FallbackLines(c: CodeContext): seq<string> {
    [Quotes + c.name + " function."] + FallbackArgs(c) + FallbackReturns(c) + [Quotes]
  }

  /** `generate` given the model's answer: the styled layout of the answer,
      or the fallback when the call raised. */
  function Generated(c: CodeContext, style: DocstringStyle, answer: Option<DocstringSuggestion>): string {
    match answer
    case Some(s) => Render(StyledLines(s, c, style))
    case None => Render(FallbackLines(c))
  }

  /** The Google layout: the summary line, the description when there is one,
      `Args:` with one line per parameter that has a description (the shorter
      of the two lists), `Returns:` when a return value is documented,
      `Raises:` with one line per exception that has a description, `Note:`
      with one line per side effect, and the closing quotes. */
  lemma GoogleLinesCount(s: DocstringSuggestion, c: CodeContext)
    ensures var ps := c.parameters; var es := c.raises;
            |GoogleLines(s, c)|
            == 2 + (if s.description != "" then 2 else 0)
               + (if ps != [] then 2 + Min(|ps|, |s.argsDescription|) else 0)
               + (if DocumentsReturn(c) then 3 else 0)
               + (if es != [] then 2 + Min(|es|, |s.raisesDescription|) else 0)
               + (if s.sideEffects != [] then 2 + |s.sideEffects| else 0)
    ensures GoogleLines(s, c)[0] == Quotes + s.summary && GoogleLines(s, c)[|GoogleLines(s, c)| - 1] == Quotes
  {
    GoogleSectionLengths(s, c);
  }

  lemma GoogleSectionLengths(s: DocstringSuggestion, c: CodeContext)
    ensures |GoogleArgs(s, c)| == if c.parameters != [] then 2 + Min(|c.parameters|, |s.argsDescription|) else 0
    ensures |GoogleRaises(s, c)| == if c.raises != [] then 2 + Min(|c.raises|, |s.raisesDescription|) else 0
    ensures |GoogleNote(s)| == if s.sideEffects != [] then 2 + |s.sideEffects| else 0
  {
    var ps := c.parameters;
    BlockLengths(ps, c.raises, s.argsDescription, s.sideEffects, Min(|ps|, |s.argsDescription|));
    BlockLengths(ps, c.raises, s.raisesDescription, s.sideEffects, Min(|c.raises|, |s.raisesDescription|));
    BlockLengths(ps, c.raises, s.raisesDescription, s.sideEffects, |s.sideEffects|);
  }

  /** The NumPy layout has two lines per described parameter, five for the
      return value, and no Raises or Note section. */
  lemma NumpyLinesCount(s: DocstringSuggestion, c: CodeContext)
    ensures var ps := c.parameters;
            |NumpyLines(s, c)|
            == 2 + (if s.description != "" then 2 else 0)
               + (if ps != [] then 3 + 2 * Min(|ps|, |s.argsDescription|) else 0)
               + (if DocumentsReturn(c) then 5 else 0)
    ensures NumpyLines(s, c)[0] == Quotes + s.summary && NumpyLines(s, c)[|NumpyLines(s, c)| - 1] == Quotes
  {
    BlockLengths(c.parameters, [], s.argsDescription, [], Min(|c.parameters|, |s.argsDescription|));
  }

  /** The reST layout: a `:param:` header, then a `:param`/`:type` pair per
      described parameter, and no Raises or Note section. */
  lemma RstLinesCount(s: DocstringSuggestion, c: CodeContext)
    ensures var ps := c.parameters;
            |RstLines(s, c)|
            == 2 + (if s.description != "" then 2 else 0)
               + (if ps != [] then 2 + 2 * Min(|ps|, |s.argsDescription|) else 0)
               + (if DocumentsReturn(c) then 3 else 0)
    ensures RstLines(s, c)[0] == Quotes + s.summary && RstLines(s, c)[|RstLines(s, c)| - 1] == Quotes
    ensures c.parameters != [] ==> RstLines(s, c)[|DescriptionLines(s)| + 2] == ":param:"
  {
    BlockLengths(c.parameters, [], s.argsDescription, [], Min(|c.parameters|, |s.argsDescription|));
  }

  /** The fallback names the element, has one `Description missing` line per
      parameter, a Returns section when a return value is documented, and no
      Raises section. */
  lemma FallbackLinesCount(c: CodeContext)
    ensures |FallbackLines(c)|
            == 2 + (if c.parameters != [] then 2 + |c.parameters| else 0) + (if DocumentsReturn(c) then 3 else 0)
    ensures FallbackLines(c)[0] == Quotes + c.name + " function."
    ensures FallbackLines(c)[|FallbackLines(c)| - 1] == Quotes
  {
    BlockLengths(c.parameters, [], [], [], |c.parameters|);
  }

  /** Splitting a rendered docstring at its newlines gives its lines back, as
      long as no field brought a newline of its own. */
  lemma RenderedLines(lines: seq<string>)
    requires lines != [] && forall k :: 0 <= k < |lines| ==> '\n' !in lines[k]
    ensures Text.Split(Render(lines), '\n') == lines
  {
    Text.SplitJoin(lines, '\n');
  }

  /** `_format_google`. */
  method FormatGoogle(s: DocstringSuggestion, c: CodeContext) returns (doc: string)
    ensures doc == Render(GoogleLines(s, c))
  {
    var lines := [Quotes + s.summary];
    if s.description != "" {
      lines := lines + ["", s.description];
    }
    assert lines == [Quotes + s.summary] + DescriptionLines(s);
    lines := AddGoogleArgs(lines, s, c);
    assert lines == [Quotes + s.summary] + DescriptionLines(s) + GoogleArgs(s, c);
    if c.returnInfo.Some? && c.returnInfo.value.inferredType != Some("None") {
      lines := lines + ["", "Returns:", "    " + Or(c.returnInfo.value.inferredType, "Any") + ": " + s.returnsDescription];
    }
    assert lines == [Quotes + s.summary] + DescriptionLines(s) + GoogleArgs(s, c) + GoogleReturns(s, c);
    lines := AddGoogleRaises(lines, s, c);
    lines := AddNote(lines, s);
    lines := lines + [Quotes];
    assert lines == GoogleLines(s, c);
    doc := Render(lines);
  }

  /** The `Args:` block of `_format_google`. */
  method AddGoogleArgs(lines: seq<string>, s: DocstringSuggestion, c: CodeContext) returns (r: seq<string>)
    ensures r == lines + GoogleArgs(s, c)
  {
    r := lines;
    if c.parameters != [] {
      r := r + ["", "Args:"];
      var ps, ds := c.parameters, s.argsDescription;
      var n := Min(|ps|, |ds|);
      var i := 0;
      while i < n
        invariant 0 <= i <= n
        invariant r == lines + ["", "Args:"] + GoogleArgLines(ps, ds, i)
      {
        r := r + ["    " + ps[i].name + " (" + TypeShown(ps[i]) + "): " + ds[i]];
        i := i + 1;
      }
    }
  }

  /** The `Raises:` block of `_format_google`. */
  method AddGoogleRaises(lines: seq<string>, s: DocstringSuggestion, c: CodeContext) returns (r: seq<string>)
    ensures r == lines + GoogleRaises(s, c)
  {
    r := lines;
    if c.raises != [] {
      r := r + ["", "Raises:"];
      var es, ds := c.raises, s.raisesDescription;
      var n := Min(|es|, |ds|);
      var i := 0;
      while i < n
        invariant 0 <= i <= n
        invariant r == lines + ["", "Raises:"] + RaiseLines(es, ds, i)
      {
        r := r + ["    " + es[i].exceptionType + ": " + ds[i]];
        i := i + 1;
      }
    }
  }

  /** The `Note:` block of `_format_google`. */
  method AddNote(lines: seq<string>, s: DocstringSuggestion) returns (r: seq<string>)
    ensures r == lines + GoogleNote(s)
  {
    r := lines;
    if s.sideEffects != [] {
      r := r + ["", "Note:"];
      var i := 0;
      while i < |s.sideEffects|
        invariant 0 <= i <= |s.sideEffects|
        invariant r == lines + ["", "Note:"] + NoteLines(s.sideEffects, i)
      {
        r := r + ["    " + s.sideEffects[i]];
        i := i + 1;
      }
    }
  }

  /** `_format_numpy`. */
  method FormatNumpy(s: DocstringSuggestion, c: CodeContext) returns (doc: string)
    ensures doc == Render(NumpyLines(s, c))
  {
    var lines := [Quotes + s.summary];
    if s.description != "" {
      lines := lines + ["", s.description];
    }
    assert lines == [Quotes + s.summary] + DescriptionLines(s);
    lines := AddNumpyArgs(lines, s, c);
    assert lines == [Quotes + s.summary] + DescriptionLines(s) + NumpyArgs(s, c);
    if c.returnInfo.Some? && c.returnInfo.value.inferredType != Some("None") {
      lines := lines + ["", "Returns", "-------", Or(c.returnInfo.value.inferredType, "Any"), "    " + s.returnsDescription];
    }
    assert lines == [Quotes + s.summary] + DescriptionLines(s) + NumpyArgs(s, c) + NumpyReturns(s, c);
    lines := lines + [Quotes];
    doc := Render(lines);
  }

  /** The `Parameters` block of `_format_numpy`. */
  method AddNumpyArgs(lines: seq<string>, s: DocstringSuggestion, c: CodeContext) returns (r: seq<string>)
    ensures r == lines + NumpyArgs(s, c)
  {
    r := lines;
    if c.parameters != [] {
      r := r + ["", "Parameters", "----------"];
      var ps, ds := c.parameters, s.argsDescription;
      var n := Min(|ps|, |ds|);
      var i := 0;
      while i < n
        invariant 0 <= i <= n
        invariant r == lines + ["", "Parameters", "----------"] + NumpyArgLines(ps, ds, i)
      {
        r := r + [ps[i].name + " : " + TypeShown(ps[i])];
        r := r + ["    " + ds[i]];
        i := i + 1;
      }
    }
  }

  /** `_format_rst`. */
  method FormatRst(s: DocstringSuggestion, c: CodeContext) returns (doc: string)
    ensures doc == Render(RstLines(s, c))
  {
    var lines := [Quotes + s.summary];
    if s.description != "" {
      lines := lines + ["", s.description];
    }
    assert lines == [Quotes + s.summary] + DescriptionLines(s);
    lines := AddRstArgs(lines, s, c);
    assert lines == [Quotes + s.summary] + DescriptionLines(s) + RstArgs(s, c);
    if c.returnInfo.Some? && c.returnInfo.value.inferredType != Some("None") {
      lines := lines + ["", ":returns: " + s.returnsDescription, ":rtype: " + Or(c.returnInfo.value.inferredType, "Any")];
    }
    assert lines == [Quotes + s.summary] + DescriptionLines(s) + RstArgs(s, c) + RstReturns(s, c);
    lines := lines + [Quotes];
    doc := Render(lines);
  }

  /** The `:param:` block of `_format_rst`. */
  method AddRstArgs(lines: seq<string>, s: DocstringSuggestion, c: CodeContext) returns (r: seq<string>)
    ensures r == lines + RstArgs(s, c)
  {
    r := lines;
    if c.parameters != [] {
      r := r + ["", ":param:"];
      var ps, ds := c.parameters, s.argsDescription;
      var n := Min(|ps|, |ds|);
      var i := 0;
      while i < n
        invariant 0 <= i <= n
        invariant r == lines + ["", ":param:"] + RstArgLines(ps, ds, i)
      {
        r := r + ["    :param " + ps[i].name + ": " + ds[i]];
        r := r + ["    :type " + ps[i].name + ": " + TypeShown(ps[i])];
        i := i + 1;
      }
    }
  }

  /** `_fallback_generate`. */
  method FallbackGenerate(c: CodeContext, style: DocstringStyle) returns (doc: string)
    ensures doc == Render(FallbackLines(c))
  {
    var lines := [Quotes + c.name + " function."];
    if c.parameters != [] {
      lines := lines + ["", "Args:"];
      var i := 0;
      while i < |c.parameters|
        invariant 0 <= i <= |c.parameters|
        invariant lines == [Quotes + c.name + " function."] + ["", "Args:"] + FallbackArgLines(c.parameters, i)
      {
        lines := lines + ["    " + c.parameters[i].name + ": Description missing"];
        i := i + 1;
      }
    }
    assert lines == [Quotes + c.name + " function."] + FallbackArgs(c);
    if c.returnInfo.Some? && c.returnInfo.value.inferredType != Some("None") {
      lines := lines + ["", "Returns:", "    " + Or(c.returnInfo.value.inferredType, "Any") + ": Description missing"];
    }
    assert lines == [Quotes + c.name + " function."] + FallbackArgs(c) + FallbackReturns(c);
    lines := lines + [Quotes];
    doc := Render(lines);
  }

  /** `_format_docstring`. */
  method FormatDocstring(s: DocstringSuggestion, c: CodeContext, style: DocstringStyle) returns (doc: string)
    ensures doc == Render(StyledLines(s, c, style))
  {
    if style == Google {
      doc := FormatGoogle(s, c);
    } else if style == Numpy {
      doc := FormatNumpy(s, c);
    } else {
      doc := FormatRst(s, c);
    }
  }

  /** `generate` of the package generator. */
  method Generate(c: CodeContext, style: DocstringStyle, answer: Option<DocstringSuggestion>) returns (doc: string)
    ensures doc == Generated(c, style, answer)
    ensures answer.None? ==> doc == Render(FallbackLines(c))
  {
    if answer.Some? {
      doc := FormatDocstring(answer.value, c, style);
    } else {
      doc := FallbackGenerate(c, style);
    }
  }

  // ---------------------------------------------------------------------------
  // The app formatters

  function ParamDescription(name: string): string {
    "Description of " + name + "."
  }

  const ReturnDescription := "Description of return value."
  const RaiseDescription := "When this exception is raised."

  /** The fixed descriptions the app templates write, as a suggestion: the
      summary `"<name> function."`, `"Description of <param>."` per
      parameter, and the same sentence for every return value and exception. */
  function TemplateSuggestion(c: CodeContext): DocstringSuggestion {
    DocstringSuggestion(
      c.name + " function.", "",
      seq(|c.parameters|, k requires 0 <= k < |c.parameters| => ParamDescription(c.parameters[k].name)),
      ReturnDescription,
      seq(|c.raises|, k requires 0 <= k < |c.raises| => RaiseDescription),
      [], None)
  }

  function AppRstArgs(c: CodeContext): seq<string> {
    if c.parameters != [] then [""] + AppRstArgLines(c.parameters, |c.parameters|) else []
  }

  function AppRstReturns(c: CodeContext): seq<string> {
    if DocumentsReturn(c) then ["", ":returns: " + ReturnDescription, ":rtype: " + ReturnTypeShown(c)] else []
  }

  /** The app's reST lines: no `:param:` header and no indentation. */
  function AppRstLines(c: CodeContext): seq<string> {
    [Quotes + c.name + " function."] + AppRstArgs(c) + AppRstReturns(c) + [Quotes]
  }

  /** The app's `_format_docstring`. */
  function AppStyledLines(c: CodeContext, style: DocstringStyle): seq<string> {
    match style
    case Google => GoogleLines(TemplateSuggestion(c), c)
    case Numpy => NumpyLines(TemplateSuggestion(c), c)
    case Rst => AppRstLines(c)
  }

  /** The app's `_format_google`: the package's Google layout of the fixed
      template, so every parameter and every exception gets its line. */
  method AppFormatGoogle(c: CodeContext) returns (doc: string)
    ensures doc == Render(GoogleLines(TemplateSuggestion(c), c))
  {
    ghost var s := TemplateSuggestion(c);
    var lines := [Quotes + c.name + " function."];
    assert Quotes + c.name + " function." == Quotes + s.summary;
    assert lines == [Quotes + s.summary] + DescriptionLines(s);
    lines := AddAppGoogleArgs(lines, c);
    assert lines == [Quotes + s.summary] + DescriptionLines(s) + GoogleArgs(s, c);
    if c.returnInfo.Some? && c.returnInfo.value.inferredType != Some("None") {
      lines := lines + ["", "Returns:", "    " + Or(c.returnInfo.value.inferredType, "Any") + ": " + ReturnDescription];
    }
    assert lines == [Quotes + s.summary] + DescriptionLines(s) + GoogleArgs(s, c) + GoogleReturns(s, c);
    lines := AddAppGoogleRaises(lines, c);
    assert lines == [Quotes + s.summary] + DescriptionLines(s) + GoogleArgs(s, c) + GoogleReturns(s, c)
                    + GoogleRaises(s, c) + GoogleNote(s);
    lines := lines + [Quotes];
    doc := Render(lines);
  }

  /** The `Args:` block of the app's `_format_google`. */
  method AddAppGoogleArgs(lines: seq<string>, c: CodeContext) returns (r: seq<string>)
    ensures r == lines + GoogleArgs(TemplateSuggestion(c), c)
  {
    ghost var ds := TemplateSuggestion(c).argsDescription;
    r := lines;
    if c.parameters != [] {
      r := r + ["", "Args:"];
      var i := 0;
      while i < |c.parameters|
        invariant 0 <= i <= |c.parameters|
        invariant r == lines + ["", "Args:"] + GoogleArgLines(c.parameters, ds, i)
      {
        var param := c.parameters[i];
        var typeStr := Or(param.inferredType, Or(param.typeHint, "Any"));
        r := r + ["    " + param.name + " (" + typeStr + "): " + ParamDescription(param.name)];
        i := i + 1;
      }
    }
  }

  /** The `Raises:` block of the app's `_format_google`. */
  method AddAppGoogleRaises(lines: seq<string>, c: CodeContext) returns (r: seq<string>)
    ensures r == lines + GoogleRaises(TemplateSuggestion(c), c)
  {
    ghost var ds := TemplateSuggestion(c).raisesDescription;
    r := lines;
    if c.raises != [] {
      r := r + ["", "Raises:"];
      var i := 0;
      while i < |c.raises|
        invariant 0 <= i <= |c.raises|
        invariant r == lines + ["", "Raises:"] + RaiseLines(c.raises, ds, i)
      {
        r := r + ["    " + c.raises[i].exceptionType + ": " + RaiseDescription];
        i := i + 1;
      }
    }
  }

  /** The app's `_format_numpy`: the package's NumPy layout of the fixed template. */
  method AppFormatNumpy(c: CodeContext) returns (doc: string)
    ensures doc == Render(NumpyLines(TemplateSuggestion(c), c))
  {
    ghost var s := TemplateSuggestion(c);
    var lines := [Quotes + c.name + " function."];
    assert Quotes + c.name + " function." == Quotes + s.summary;
    assert lines == [Quotes + s.summary] + DescriptionLines(s);
    lines := AddAppNumpyArgs(lines, c);
    assert lines == [Quotes + s.summary] + DescriptionLines(s) + NumpyArgs(s, c);
    if c.returnInfo.Some? && c.returnInfo.value.inferredType != Some("None") {
      lines := lines + ["", "Returns", "-------", Or(c.returnInfo.value.inferredType, "Any"), "    " + ReturnDescription];
    }
    assert lines == [Quotes + s.summary] + DescriptionLines(s) + NumpyArgs(s, c) + NumpyReturns(s, c);
    lines := lines + [Quotes];
    doc := Render(lines);
  }

  /** The `Parameters` block of the app's `_format_numpy`. */
  method AddAppNumpyArgs(lines: seq<string>, c: CodeContext) returns (r: seq<string>)
    ensures r == lines + NumpyArgs(TemplateSuggestion(c), c)
  {
    ghost var ds := TemplateSuggestion(c).argsDescription;
    r := lines;
    if c.parameters != [] {
      r := r + ["", "Parameters", "----------"];
      var i := 0;
      while i < |c.parameters|
        invariant 0 <= i <= |c.parameters|
        invariant r == lines + ["", "Parameters", "----------"] + NumpyArgLines(c.parameters, ds, i)
      {
        var param := c.parameters[i];
        var typeStr := Or(param.inferredType, Or(param.typeHint, "Any"));
        r := r + [param.name + " : " + typeStr];
        r := r + ["    " + ParamDescription(param.name)];
        i := i + 1;
      }
    }
  }

  /** The app's `_format_rst`. */
  method AppFormatRst(c: CodeContext) returns (doc: string)
    ensures doc == Render(AppRstLines(c))
  {
    var lines := [Quotes + c.name + " function."];
    if c.parameters != [] {
      lines := lines + [""];
      var i := 0;
      while i < |c.parameters|
        invariant 0 <= i <= |c.parameters|
        invariant lines == [Quotes + c.name + " function."] + [""] + AppRstArgLines(c.parameters, i)
      {
        var param := c.parameters[i];
        var typeStr := Or(param.inferredType, Or(param.typeHint, "Any"));
        lines := lines + [":param " + param.name + ": " + ParamDescription(param.name)];
        lines := lines + [":type " + param.name + ": " + typeStr];
        i := i + 1;
      }
    }
    assert lines == [Quotes + c.name + " function."] + AppRstArgs(c);
    if c.returnInfo.Some? && c.returnInfo.value.inferredType != Some("None") {
      lines := lines + ["", ":returns: " + ReturnDescription, ":rtype: " + Or(c.returnInfo.value.inferredType, "Any")];
    }
    assert lines == [Quotes + c.name + " function."] + AppRstArgs(c) + AppRstReturns(c);
    lines := lines + [Quotes];
    doc := Render(lines);
  }

  /** The app's `generate`: always the fixed template of the chosen style. */
  method AppGenerate(c: CodeContext, style: DocstringStyle) returns (doc: string)
    ensures doc == Render(AppStyledLines(c, style))
  {
    if style == Google {
      doc := AppFormatGoogle(c);
    } else if style == Numpy {
      doc := AppFormatNumpy(c);
    } else {
      doc := AppFormatRst(c);
    }
  }

  /** The app's Google template names every parameter and every exception:
      its line count is that of the package layout with every description
      present, and it has no description block or Note section. */
  lemma AppGoogleCount(c: CodeContext)
    ensures |AppStyledLines(c, Google)|
            == 2 + (if c.parameters != [] then 2 + |c.parameters| else 0) + (if DocumentsReturn(c) then 3 else 0)
               + (if c.raises != [] then 2 + |c.raises| else 0)
  {
    GoogleLinesCount(TemplateSuggestion(c), c);
  }
}
