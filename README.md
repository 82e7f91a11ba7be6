# docstring_agent in Dafny

A model of the deterministic core of *docstring_agent*, a tool that writes
docstrings for Python code. The core runs between parsing a source file and
printing it back:

- **Structural extractor** (`Analyzer`). It walks the syntax tree breadth-first
  (`ast.walk`) and emits one `CodeContext` record per function and one per
  method of every class. A record holds the parameters, type hints, defaults, a
  heuristically inferred type per parameter, the return-type set and flags, the
  raised exceptions, the cyclomatic complexity and the decorators. The
  package variant (`docstring_agent/core/ast_analyzer.py`) and the app variant
  (`app/tools.py`) share one model; `Analyzer.Variant` carries their two
  differences.
- **Confidence scorer** (`Scorer`). A weighted sum of the critic's score and
  four text checks on the draft: parameter, return and exception coverage,
  and clarity.
- **Critics** (`Critic`). The app's rule-based reviewer, and the package's
  parser of a language model's review text with its neutral fallback.
- **Template formatters** (`Generator`). The Google, NumPy and reST layouts of
  the package generator, its fallback, and the app's fixed templates.
- **Refinement loop and driver** (`Orchestrator`).
  - `_process_element` drafts, reviews and scores up to `max_iterations`
    times. It stops at the first confidence that reaches the threshold,
    tracks the best draft so far, and writes the critic's feedback into the
    record between iterations.
  - `process_file`, `process_code` and `get_results` skip documented
    elements, refine the others and inject the results.
- **Injector** (`Injector`). It maps element names to generated text, walks the
  tree and replaces or inserts the leading docstring statement of every
  matching definition.
- **Data models** (`Models`). The enums and records, with the `[0, 1]` bounds of
  `CriticReview`.

`Syntax` is the small syntax tree the analyzer and the injector work on. It
includes `ast.walk` as a breadth-first queue traversal, proved to visit
exactly the nodes of the subtree. `Text` and `Lists` hold the string and list
operations the source takes from Python (`in`, `lower`, `split`, `join`,
`strip`, `float`, slicing).

### Form of the model

The source's loops are methods with loop invariants. Each is proved equal to
a function that folds over the same input, and the properties are lemmas
about those functions.

- The refinement loop is proved against `Orchestrator.Select`, the loop's
  bookkeeping over the iterations' confidences and drafts. The record as
  each iteration sees it is `Orchestrator.ContextAt`.
- The generator, critic and scorer are parameters of the loop
  (`Orchestrator.Agents`). `AppAgents` and `PackageAgents` instantiate them
  with the modelled components. The language models' outputs and the clock
  are parameters of those.
- Library calls the model does not open are fields of `Analyzer.Library`:
  unparsing, the regular-expression table, the join over a Python set, and
  `ast.get_docstring`.

### Where the model follows the code

- **Method records come twice.** `analyze` emits a class's method records
  when the walk reaches the class, and again as function records when it
  reaches the methods themselves (docstring_agent/core/ast_analyzer.py:27-32).
  `Analyzer.RecordCount` states this count, although
  tests/unit/test_ast_analyzer.py:43 expects two records for a class with
  two methods.
- **The inferred return type can be absent even when the function returns a
  value.** It is absent exactly when no `return` contributes a type, which
  happens when no pattern matches the returned text.
- **The return-type join is not in table order.** It joins a Python set, so
  its order is not the pattern table's; the model leaves the join to a
  parameter.
- **A loop with no pass has no result.** With `max_iterations <= 0`, the
  package's `_process_element` returns a variable it never bound. The app's
  returns `None`, and its injector then fails on the missing result. Both are
  modelled as `None`, and the pipeline result as `None` (`Orchestrator.EnhancedFails`).

## Model

| member | source | states |
|---|---|---|
| Models.ParseElementType | app/models.py:8-13 | a string parses to an element type only when it is that type's value |
| Models.ElementTypeRoundTrip | docstring_agent/models/code_context.py:5-9 | each of the four element types is recovered from its value, so the four values are distinct |
| Models.ParseStyle | app/models.py:16-20 | a string parses to a style only when it is that style's value |
| Models.StyleRoundTrip | docstring_agent/models/code_context.py:11-14 | each of the three styles is recovered from its value |
| Models.NewParameter | docstring_agent/models/code_context.py:16-21 | a parameter needs only its name; hint, default, inferred type and description start absent |
| Models.NewReturnInfo | app/models.py:32-38 | a fresh return record has no types and is neither a generator nor multiple |
| Models.NewCodeContext | app/models.py:47-61 | given the required fields, a record has no parameters, exceptions, decorators, return record, docstring, complexity or summary, and is not async |
| Models.NewDocstringResult | docstring_agent/models/docstring_result.py:5-14 | a result keeps its confidence unchecked, has no warnings and no `improved_from`, and is iteration 1 |
| Models.MakeCriticReview | app/models.py:77-84 | construction succeeds exactly when score and clarity lie in [0, 1], and then keeps every field |
| Lists.CountWhereBounds | docstring_agent/utils/confidence_scorer.py:40-47 | a count of qualifying elements is at most the length, equals it exactly when all qualify, and is zero exactly when none does |
| Lists.Take | docstring_agent/agents/critic_agent.py:111-112 | `s[:n]` keeps the first `min(n, len(s))` elements in order |
| Text.Lower | docstring_agent/utils/confidence_scorer.py:41 | lower-casing keeps the length, maps each ASCII capital to its own small letter (32 code points on) and leaves every other character alone |
| Text.ContainsIff | docstring_agent/utils/confidence_scorer.py:44 | `needle in s` holds exactly when the needle occurs at some position |
| Text.Split | docstring_agent/utils/confidence_scorer.py:85 | splitting at a character gives one part more than its occurrences, none containing it |
| Text.JoinSplit | docstring_agent/agents/critic_agent.py:97 | joining the parts of a split with the separator gives the text back |
| Text.SplitJoin | docstring_agent/agents/generator_agent.py:133 | splitting a join of separator-free parts gives the parts back |
| Text.Strip | docstring_agent/agents/critic_agent.py:105 | `strip()` is the slice of the text left after removing whitespace-only runs at both ends: it neither starts nor ends with whitespace, and is non-empty when the text has a non-whitespace character |
| Text.AfterFirst | docstring_agent/agents/critic_agent.py:105 | `split(':', 1)[1]` is the suffix right after the first colon |
| Text.KeepNumeric | docstring_agent/agents/critic_agent.py:101 | the filtered line holds only digits and dots and is no longer than the line |
| Text.KeepNumericAppend | docstring_agent/agents/critic_agent.py:101 | the filter works character by character in order: it distributes over concatenation, and keeps one character exactly when it is a digit or a dot |
| Text.KeepNumericKeepsNumeric | docstring_agent/agents/critic_agent.py:101 | a line of digits and dots passes the filter unchanged |
| Text.ParseDecimal | docstring_agent/agents/critic_agent.py:101 | `float` succeeds exactly on at most one dot and at least one digit, and the value is never negative |
| Text.ParseWhole | docstring_agent/agents/critic_agent.py:101 | `float` of a non-empty digit string is its base-ten value |
| Text.ParseFraction | docstring_agent/agents/critic_agent.py:101 | `float` of `w.f`, either part possibly empty but not both, is `w` plus `f` over ten to the length of `f` |
| Syntax.RawDocstring | docstring_agent/core/docstring_injector.py:34-37 | a body has a docstring exactly when its first statement is an expression holding a string constant, and it is that string |
| Syntax.WalkIsSubtree | docstring_agent/core/ast_analyzer.py:27 | `ast.walk` starts at the node and visits every node of its subtree once: its length is the subtree's size and it permutes the pre-order |
| Syntax.WalkQueuePermutesPreorder | app/tools.py:38 | the breadth-first queue traversal is a permutation of the pre-order of the queued trees |
| Syntax.SumWalk | app/tools.py:167-171 | a count accumulated along the walk equals the count over the subtree, whatever the order |
| Syntax.EverywhereWalk | docstring_agent/core/docstring_injector.py:19-22 | a property holds at every node the walk yields exactly when it holds everywhere in the subtree |
| Analyzer.TypeTableComplete | docstring_agent/core/ast_analyzer.py:11-20 | the type table lists every type |
| Analyzer.BestTypeIsFirstMax | docstring_agent/core/ast_analyzer.py:143 | `max` over the scores returns a key with the greatest score, and every key before it scores strictly less |
| Analyzer.InferredTypeCharacterized | docstring_agent/core/ast_analyzer.py:141-145 | the inferred type is absent exactly when every type scored zero; otherwise it is the first type of the table with the greatest score |
| Analyzer.InferParameterType | docstring_agent/core/ast_analyzer.py:117-145 | the scoring loop and the pick return the inferred type of the parameter over the walk |
| Analyzer.ScoreWalk | docstring_agent/core/ast_analyzer.py:119-139 | after the loop every type's score is the sum of the points each visited node gives it |
| Analyzer.ScoreNode | docstring_agent/core/ast_analyzer.py:122-139 | one visited node adds its points to every type's score |
| Analyzer.ScoreBinOp | docstring_agent/core/ast_analyzer.py:122-129 | an arithmetic `BinOp` with the parameter on the left adds 2 to `int` and 1 to `float` (`%` only in the package) |
| Analyzer.ScoreCall | docstring_agent/core/ast_analyzer.py:131-139 | a call adds one vote per positional argument that is the parameter |
| Analyzer.Vote | docstring_agent/core/ast_analyzer.py:134-139 | a constructor call adds 3 to its own type; an aggregate call adds 2 to `list` and `tuple` (package only) |
| Analyzer.PickType | docstring_agent/core/ast_analyzer.py:142-145 | scanning the table for a strictly greater score, then checking it is positive, yields the inferred type |
| Analyzer.PackageScoresAtLeastApp | app/tools.py:105-117 | the package variant never scores a type lower than the app variant |
| Analyzer.VariantsAgree | app/tools.py:105-117 | without `%` and without aggregate calls both variants score every type alike |
| Analyzer.UnlistedCallScoresNothing | docstring_agent/core/ast_analyzer.py:134-139 | a call to a function in neither table never changes a score |
| Analyzer.ReturnTypesMembers | docstring_agent/core/ast_analyzer.py:152-165 | a type is collected exactly when some visited `return` with a value contributes it |
| Analyzer.ReturnsCharacterized | docstring_agent/core/ast_analyzer.py:147-170 | the inferred return type is absent exactly when no `return` contributes a type, hence whenever none returns a value; `is_multiple` implies `tuple` is collected; `is_generator` holds exactly when `generator` is |
| Analyzer.AnalyzeReturns | app/tools.py:124-146 | the loop sets the flags and collects the types of the return model, then joins them |
| Analyzer.MatchingTypes | app/tools.py:138-141 | the pattern loop collects exactly the types whose pattern matches the text |
| Analyzer.ExceptionsCharacterized | docstring_agent/core/ast_analyzer.py:172-187 | one entry per visited `raise Name(...)`, duplicates kept, each naming the called exception of a visited `raise` |
| Analyzer.ExceptionCount | app/tools.py:148-161 | the number of exceptions is the number of `raise Name(...)` statements anywhere in the subtree |
| Analyzer.DetectExceptions | docstring_agent/core/ast_analyzer.py:172-187 | the loop appends exactly the exception list of the walk |
| Analyzer.CalculateComplexity | docstring_agent/core/ast_analyzer.py:189-199 | complexity is 1 plus the number of branching nodes the walk visits |
| Analyzer.ComplexityCharacterized | app/tools.py:163-173 | complexity counts the branching nodes of the whole subtree, so it is at least 1 and exactly 1 when there are none |
| Analyzer.ParametersAligned | docstring_agent/core/ast_analyzer.py:40-55 | one parameter per positional argument, in order; in the package, parameter `i` has a default exactly when it is among the last `len(defaults)`, and it is `defaults[i - (len(args) - len(defaults))]`; the app records none |
| Analyzer.DecoratorsAligned | docstring_agent/core/ast_analyzer.py:83 | one decorator string per decorator, in order, each its unparsed text |
| Analyzer.AnalyzeParameters | docstring_agent/core/ast_analyzer.py:40-55 | the parameter loop builds exactly the aligned parameter list |
| Analyzer.AnalyzeParameter | app/tools.py:50-55 | one parameter holds the argument's name, its hint and its inferred type |
| Analyzer.WithDefault | docstring_agent/core/ast_analyzer.py:49-53 | the default is set exactly when the aligned default exists, and nothing else changes |
| Analyzer.FunctionContextFromTree | docstring_agent/core/ast_analyzer.py:58-67 | with a library that behaves as Python's, the record has a docstring exactly when the body starts with a string statement, and its return type is absent exactly when no type was collected and otherwise names every collected type |
| Analyzer.AnalyzeFunction | docstring_agent/core/ast_analyzer.py:36-85 | a function's record holds its name as both names, its parameters, return record, exceptions, docstring, source, line, complexity, decorators and async flag |
| Analyzer.MethodContext | docstring_agent/core/ast_analyzer.py:96-102 | a method's record is the constructor exactly for `__init__`, else a method, qualified as `Class.method` |
| Analyzer.MethodContextsCharacterized | app/tools.py:79-93 | one record per function in the class body, each a method record of the class; the class itself has none |
| Analyzer.AnalyzeClass | docstring_agent/core/ast_analyzer.py:87-105 | the loop over the class body yields exactly the method records, in order |
| Analyzer.AnalyzeItem | app/tools.py:84-91 | a function item yields its method record, anything else nothing |
| Analyzer.Analyze | docstring_agent/core/ast_analyzer.py:22-34 | `analyze` yields each visited node's records, in walk order |
| Analyzer.AnalyzeNodes | app/tools.py:38-43 | the loop concatenates the records of the visited nodes |
| Analyzer.AnalyzeNode | app/tools.py:39-43 | a function yields its record, a class its method records, anything else nothing |
| Analyzer.RecordCount | docstring_agent/core/ast_analyzer.py:27-32 | there is one record per function anywhere in the tree, plus one more per function directly in a class body |
| Analyzer.ContextsComeFromNodes | docstring_agent/core/ast_analyzer.py:27-32 | every record comes from a node the walk reaches |
| Analyzer.NodeContextsAppear | docstring_agent/core/ast_analyzer.py:27-32 | conversely, every visited node's records appear in the result, together, right after the records of the nodes visited before it |
| Scorer.FractionBounds | docstring_agent/utils/confidence_scorer.py:47 | a count over a total lies in [0, 1], and is 1 exactly when all are counted or there is nothing to count |
| Scorer.ParamCoverageCharacterized | docstring_agent/utils/confidence_scorer.py:35-47 | parameter coverage lies in [0, 1]; it is 1 exactly when every name, as written, occurs in the lower-cased draft, and 0 exactly when none does |
| Scorer.CheckParamCoverage | app/tools.py:241-253 | the counting loop computes the parameter coverage |
| Scorer.ReturnCoverage | docstring_agent/utils/confidence_scorer.py:49-59 | return coverage is 0 or 1, and 0 exactly when a return value must be documented and no keyword occurs |
| Scorer.ReturnsKeywordRedundant | docstring_agent/utils/confidence_scorer.py:55 | `returns` contains `return`, so the first keyword never decides alone |
| Scorer.ExceptionCoverageCharacterized | docstring_agent/utils/confidence_scorer.py:61-73 | exception coverage lies in [0, 1], and is 1 exactly when every listed exception's lower-cased name occurs in the lower-cased draft |
| Scorer.CheckExceptionCoverage | app/tools.py:267-279 | the counting loop computes the exception coverage |
| Scorer.ClarityCharacterized | docstring_agent/utils/confidence_scorer.py:75-97 | the cap never bites; the sentence check holds exactly when the draft has a `.`; clarity is 1 exactly when all four checks pass and 0 exactly when none does |
| Scorer.CheckClarity | app/tools.py:281-303 | the running score of the four checks, capped, is the clarity |
| Scorer.SumAppend | docstring_agent/utils/confidence_scorer.py:33 | appending a term adds it to the sum |
| Scorer.Calculate | app/tools.py:214-239 | `calculate` is the 0.4/0.2/0.15/0.1/0.15 weighted sum of the critic score and the four checks |
| Scorer.WeightedBounds | docstring_agent/utils/confidence_scorer.py:8-33 | five values in [0, 1] weigh to a value in [0, 1], which is 1 exactly when all five are |
| Scorer.WeightedMonotone | docstring_agent/utils/confidence_scorer.py:8-33 | raising any term never lowers the confidence |
| Scorer.ConfidenceBounds | docstring_agent/utils/confidence_scorer.py:8-33 | a critic score in [0, 1] gives a confidence in [0, 1] |
| Scorer.WellDocumentedScoresHigh | tests/unit/test_confidence_scorer.py:10-40 | a perfect critic score with every parameter named and nothing returned or raised gives at least 0.85 |
| Scorer.UndocumentedParameterScoresLow | tests/unit/test_confidence_scorer.py:42-64 | critic 0.5, one of two parameters unnamed and no `Args:`/`Parameters` gives below 0.7 |
| Scorer.NoParametersScoresWell | tests/unit/test_confidence_scorer.py:66-88 | no parameters, returns or raises with critic 0.8 gives at least 0.77 |
| Critic.ReviewByRules | app/agents.py:129-168 | the rule-based review appends the issues and suggestions of the three checks, then scores by their number |
| Critic.CheckParameters | app/agents.py:139-143 | one issue and one suggestion per parameter whose name the lower-cased draft lacks |
| Critic.CheckExceptions | app/agents.py:152-155 | one issue per exception the lower-cased draft does not name |
| Critic.ParamIssuesCount | app/agents.py:139-143 | as many parameter issues, and suggestions, as undocumented parameters |
| Critic.ExceptionIssuesCount | app/agents.py:152-155 | as many exception issues as unnamed exceptions |
| Critic.RuleIssuesCharacterized | app/agents.py:139-155 | issues count undocumented parameters, a missing `returns` and unnamed exceptions; suggestions only the first two; no issue exactly when everything is named |
| Critic.RuleReviewCharacterized | app/agents.py:157-167 | the score lies in [0.4, 0.7] and is 0.7 exactly without issues; it is never accurate; clarity is 0.9 times the score; the bounds hold; the first five issues and suggestions are kept |
| Critic.MarkerHasColon | docstring_agent/agents/critic_agent.py:104-107 | an issue or suggestion line always has a colon to split at |
| Critic.ParseReview | docstring_agent/agents/critic_agent.py:90-116 | the line loop reads the lower-cased answer into the parsed review |
| Critic.ParseLine | docstring_agent/agents/critic_agent.py:98-107 | one line sets the score, or adds an issue or a suggestion, as the line reader says |
| Critic.DefaultScore | docstring_agent/agents/critic_agent.py:93 | without a score line the score stays 0.7 |
| Critic.LastScoreWins | docstring_agent/agents/critic_agent.py:99-103 | the last score line whose digits parse decides the score; unparsable ones change nothing |
| Critic.ScoreNonnegative | docstring_agent/agents/critic_agent.py:101 | the raw score is never negative |
| Critic.CollectedCounts | docstring_agent/agents/critic_agent.py:99-107 | one issue per issue line that is no score line, one suggestion per suggestion line that is neither |
| Critic.ParsedReviewCharacterized | docstring_agent/agents/critic_agent.py:109-116 | the record is built exactly when 0.9 times the raw score is at most 1; it then holds the clamped score, accuracy and clarity from the raw score, at most five issues and suggestions, and no missing information |
| Critic.ModelReview | docstring_agent/agents/critic_agent.py:71-88 | `review` always meets the bounds; it is the parsed review when that can be built, and the neutral one when the call or the construction raises |
| Critic.HighScoreGivesNeutralReview | docstring_agent/agents/critic_agent.py:14 | a last score above 10/9 yields the neutral review |
| Critic.EightOutOfTen | docstring_agent/agents/critic_agent.py:99-103 | the score line "score: 8/10" reads as 810: the filter keeps the digits of both numbers |
| Critic.EightOutOfTenGivesNeutralReview | docstring_agent/agents/critic_agent.py:80-88 | an answer "Score: 8/10" yields the neutral review, not a high score |
| Generator.FormatParametersCharacterized | docstring_agent/agents/generator_agent.py:81-85 | `"None"` exactly for no parameters; otherwise the text starts with the first `name (type)` |
| Generator.BlockLengths | docstring_agent/agents/generator_agent.py:110-130 | each zipped block has one line per pair (two for NumPy and reST) |
| Generator.GoogleArgLine | docstring_agent/agents/generator_agent.py:110-112 | `Args:` line `k` pairs parameter `k`, its shown type and description `k` |
| Generator.GoogleLinesCount | docstring_agent/agents/generator_agent.py:99-133 | the Google layout: quotes and summary first, description only when non-empty, `Args:`/`Raises:` with the shorter zip length, `Returns:` when documented, `Note:` per side effect, quotes last |
| Generator.NumpyLinesCount | docstring_agent/agents/generator_agent.py:135-161 | the NumPy layout has two lines per described parameter, five for the return value, and no Raises or Note |
| Generator.RstLinesCount | docstring_agent/agents/generator_agent.py:163-186 | the reST layout has a `:param:` header, then a `:param`/`:type` pair per described parameter, and no Raises or Note |
| Generator.FallbackLinesCount | docstring_agent/agents/generator_agent.py:188-204 | the fallback names the element, has one `Description missing` line per parameter, Returns when documented, and no Raises |
| Generator.RenderedLines | docstring_agent/agents/generator_agent.py:133 | the rendered docstring splits at newlines back into its lines when no field has one |
| Generator.FormatGoogle | docstring_agent/agents/generator_agent.py:99-133 | the appends build the Google layout |
| Generator.AddGoogleArgs | docstring_agent/agents/generator_agent.py:107-112 | the `Args:` block appends exactly the Google argument section |
| Generator.AddGoogleRaises | docstring_agent/agents/generator_agent.py:120-124 | the `Raises:` block appends exactly the Google raises section |
| Generator.AddNote | docstring_agent/agents/generator_agent.py:126-130 | the `Note:` block appends one line per side effect |
| Generator.FormatNumpy | docstring_agent/agents/generator_agent.py:135-161 | the appends build the NumPy layout |
| Generator.AddNumpyArgs | docstring_agent/agents/generator_agent.py:143-150 | the `Parameters` block appends exactly the NumPy argument section |
| Generator.FormatRst | docstring_agent/agents/generator_agent.py:163-186 | the appends build the reST layout |
| Generator.AddRstArgs | docstring_agent/agents/generator_agent.py:171-177 | the `:param:` block appends exactly the reST argument section |
| Generator.FallbackGenerate | docstring_agent/agents/generator_agent.py:188-204 | the appends build the fallback layout, whatever the style |
| Generator.FormatDocstring | docstring_agent/agents/generator_agent.py:87-97 | Google and NumPy get their layouts, any other style reST |
| Generator.Generate | docstring_agent/agents/generator_agent.py:62-79 | the model's suggestion is laid out in the style, and any exception yields the fallback |
| Generator.AppFormatGoogle | app/agents.py:46-70 | the app's Google template is the Google layout of the fixed descriptions |
| Generator.AddAppGoogleArgs | app/agents.py:50-55 | one `name (type): Description of name.` line per parameter |
| Generator.AddAppGoogleRaises | app/agents.py:63-67 | one line per exception |
| Generator.AppFormatNumpy | app/agents.py:72-94 | the app's NumPy template is the NumPy layout of the fixed descriptions |
| Generator.AddAppNumpyArgs | app/agents.py:76-83 | a `name : type` line and a description line per parameter |
| Generator.AppFormatRst | app/agents.py:96-114 | the app's reST template, with no `:param:` header |
| Generator.AppGenerate | app/agents.py:25-29 | `generate` always returns the fixed template of the style |
| Generator.AppGoogleCount | app/agents.py:46-70 | the app's Google template has one line per parameter and per exception, Returns when documented, and no description or Note |
| Orchestrator.AppSettings | app/agents.py:180-183 | an absent or zero `max_iterations` or threshold falls back to the configuration; any other value is kept |
| Orchestrator.ProcessElement | docstring_agent/agents/orchestrator.py:74-125 | `_process_element` returns the last iteration's result, or none without a pass, and leaves the record its last iteration saw |
| Orchestrator.RefinementLoop | app/agents.py:241-277 | the loop ends in the state the bookkeeping describes, returning the last iteration's result |
| Orchestrator.Iteration | docstring_agent/agents/orchestrator.py:82-123 | one pass advances the bookkeeping, builds its result, and either breaks off or writes the feedback |
| Orchestrator.RunIteration | docstring_agent/agents/orchestrator.py:86-106 | one pass drafts, reviews, scores and builds that iteration's result |
| Orchestrator.SelectAgrees | docstring_agent/agents/orchestrator.py:110-118 | the bookkeeping after `k` passes depends only on the first `k` iterations |
| Orchestrator.ContextStep | docstring_agent/agents/orchestrator.py:121-123 | the next record carries the feedback unless the iteration was the last one allowed |
| Orchestrator.StaysStopped | docstring_agent/agents/orchestrator.py:116-118 | once broken off, later passes change nothing |
| Orchestrator.SelectShape | docstring_agent/agents/orchestrator.py:82 | every pass runs one iteration until the loop breaks off, which happens only after one ran |
| Orchestrator.BelowWhileRunning | docstring_agent/agents/orchestrator.py:116-118 | while the loop runs, every confidence so far is below the threshold |
| Orchestrator.StopsAtFirstSuccess | docstring_agent/agents/orchestrator.py:116-118 | the loop breaks off at the first confidence that reaches the threshold |
| Orchestrator.BestScoreBounds | docstring_agent/agents/orchestrator.py:78-79 | the best score is never negative, is positive exactly when a best draft exists, and bounds every confidence so far |
| Orchestrator.BestIsEarliestMaximum | docstring_agent/agents/orchestrator.py:111-113 | the best draft is the earliest one with the best score |
| Orchestrator.BestExistsIffPositive | app/agents.py:264-266 | a best draft exists exactly when some iteration scored above zero |
| Orchestrator.RefinedBounds | docstring_agent/agents/orchestrator.py:82 | the loop runs at most `max_iterations` times, at least once when that is positive, and all of them unless it breaks off |
| Orchestrator.StopsAtThreshold | docstring_agent/agents/orchestrator.py:116-118 | when the loop breaks off, it is at the first iteration at or above the threshold |
| Orchestrator.ExhaustsBelowThreshold | app/agents.py:268-270 | a loop that does not break off scored every iteration below the threshold |
| Orchestrator.StopsIffReached | docstring_agent/agents/orchestrator.py:115-118 | the loop breaks off exactly when some allowed iteration reaches the threshold |
| Orchestrator.OnlyFeedbackChanges | docstring_agent/agents/orchestrator.py:121-123 | the loop writes only the existing docstring and the body summary |
| Orchestrator.FeedbackWritten | docstring_agent/agents/orchestrator.py:120-123 | each iteration but the last allowed leaves its draft and its first three suggestions, one per line, for the next |
| Orchestrator.FinalIsLastSeen | app/agents.py:272-275 | the record left behind is the one the last iteration saw |
| Orchestrator.IterationResultFields | docstring_agent/agents/orchestrator.py:96-106 | iteration `j`'s result holds the element's name, the style's value, its draft, confidence and issues, numbered `j + 1` |
| Orchestrator.ImprovedFromIsEarlierBest | docstring_agent/agents/orchestrator.py:104 | `improved_from` is never empty and absent when no earlier iteration scored above zero. When present, it is the draft of the earliest earlier iteration with the highest confidence above zero. Conversely, when that draft is not empty, `improved_from` is exactly that draft |
| Orchestrator.EarliestMaximumIsBest | docstring_agent/agents/orchestrator.py:111-113 | the earliest iteration with the highest confidence above zero is the one whose draft the loop keeps as best |
| Orchestrator.OutcomeIsLastIteration | docstring_agent/agents/orchestrator.py:105-125 | a result exists exactly when `max_iterations` is positive; it is the last iteration's, numbered by how many ran, not the best one |
| Orchestrator.NamedAfterContext | app/agents.py:251-252 | a result carries the name of its record |
| Orchestrator.ProcessContexts | docstring_agent/agents/orchestrator.py:55-64 | the driver loop collects the result of every record not skipped |
| Orchestrator.CollectResults | app/agents.py:222-227 | each kept record is refined and its result appended |
| Orchestrator.SkipsOnlyDocumented | docstring_agent/agents/orchestrator.py:55-57 | with a library that behaves as Python's, no function or method without a leading string statement is skipped |
| Orchestrator.KeptAppend | app/agents.py:287-292 | the filter keeps the analyzer's order |
| Orchestrator.KeptCharacterized | docstring_agent/agents/orchestrator.py:57 | a record is kept exactly when it is not skipped (`skip_existing`, a docstring, no `overwrite`), and the count matches |
| Orchestrator.NothingSkipped | app/agents.py:204-205 | without `skip_existing`, or with `overwrite`, every record is refined |
| Orchestrator.ResultsOfKept | app/agents.py:287-292 | the results are the kept records' outcomes, one each, in order |
| Orchestrator.AllPresent | app/tools.py:185 | the results are usable exactly when every one is present, and then kept in order |
| Orchestrator.ProcessCode | app/agents.py:215-232 | `process_code` analyses, refines the kept records and injects their results |
| Orchestrator.GetResults | app/agents.py:279-294 | `get_results` returns the kept records' results without injecting |
| Orchestrator.EnhancedFails | docstring_agent/agents/orchestrator.py:62-70 | injection fails exactly when a record is kept and the loop has no pass |
| Orchestrator.EnhancedDocumentsKept | docstring_agent/agents/orchestrator.py:62-70 | every definition of the result named like a kept record carries the draft of the last such record |
| Orchestrator.EnhancedKeepsDefinitions | docstring_agent/agents/orchestrator.py:62-70 | every definition of the parsed tree is still in the printed tree under its name, carrying the draft in the result of the last kept record of that name (the results being the kept records' outcomes, by `PresentResults`), or its own docstring when no kept record has the name |
| Orchestrator.PresentResults | docstring_agent/agents/orchestrator.py:62-70 | when every kept record has a result, the results are the kept records' outcomes, one each, in order, each named after its record |
| Orchestrator.LastNamedGivesDraft | docstring_agent/agents/orchestrator.py:62-70 | a definition named like a kept record gets the draft of the result of the last kept record of that name |
| Orchestrator.UnnamedKeepsDocstring | docstring_agent/agents/orchestrator.py:62-70 | a definition named like no kept record keeps its own docstring |
| Orchestrator.KeptDrafts | docstring_agent/agents/orchestrator.py:62-70 | the injected map names only kept records, and the last kept record of each name gives its text |
| Orchestrator.EnhancedLeavesOthers | app/agents.py:226-230 | a tree with no definition named like a kept record comes back unchanged |
| Orchestrator.PackageConfidenceBounds | docstring_agent/agents/orchestrator.py:92-94 | with the package's agents every confidence lies in [0, 1] |
| Orchestrator.TemplateIgnoresFeedback | app/agents.py:25-29 | the app's templates do not read the feedback fields |
| Orchestrator.RulesIgnoreFeedback | app/agents.py:129-168 | the rule-based review does not read the feedback fields |
| Orchestrator.ScoreIgnoresFeedback | app/tools.py:214-239 | the scorer does not read the feedback fields |
| Orchestrator.AppIterationsRepeat | app/agents.py:241-275 | with the app's agents every iteration drafts, reviews and scores as the first did |
| Orchestrator.AppRunsOnceOrAll | app/agents.py:241-277 | the app's loop runs once or `max_iterations` times, and returns the first draft either way |
| Injector.DocstringMapLastWins | docstring_agent/core/docstring_injector.py:16 | a name is mapped exactly when a result carries it, to the text of the last such result |
| Injector.AddDocstring | app/tools.py:196-208 | `pop(0)` of a leading string statement, then `insert(0, ...)`, give the edited body |
| Injector.WithDocstringShape | docstring_agent/core/docstring_injector.py:27-41 | afterwards the docstring is exactly the text; the body grows only without a leading string; the rest keeps its order; a non-string constant stays second |
| Injector.WithDocstringTwice | tests/unit/test_docstring_injector.py:26-44 | a second edit replaces the first: twice with one text is once, and the old docstring is gone |
| Injector.InjectDocstrings | docstring_agent/core/docstring_injector.py:9-22 | the walk edits every definition named in the map |
| Injector.UntouchedWithoutMatch | app/tools.py:188-191 | a tree whose walk meets no definition named in the map comes back unchanged |
| Injector.EveryMatchEdited | docstring_agent/core/docstring_injector.py:19-22 | every definition the edited tree's walk meets whose name is mapped, at any depth, carries that name's text as its docstring |
| Injector.DefinitionsKept | docstring_agent/core/docstring_injector.py:19-22 | every definition of the original tree, at any depth, is still met by the edited tree's walk under its own name: a mapped name gets the map's text as docstring, and any other definition keeps its own docstring |
| Injector.InjectedKeepsDocstring | docstring_agent/core/docstring_injector.py:19-22 | editing the definitions inside a body never adds or removes the body's own leading docstring |

## Left out

- The language-model calls. What the generator's model suggests and what the critic's model answers are parameters, `None` when the call raises. Prompts, model selection and credentials are not modelled.
- Parsing and printing. `ast.parse` is replaced by taking a tree as input. `ast.unparse`, `astor.to_source` and `ast.get_docstring` are fields of `Analyzer.Library`, and the injector returns the edited tree rather than its printed text. What the model relies on of them is `Analyzer.ValidLibrary`: `ast.get_docstring` finds a docstring exactly when the body starts with a string statement, and the join names every collected type. The lemmas that need this require it. The whitespace cleaning `ast.get_docstring` applies to the text is not modelled.
- The regular-expression table. `re.match` against each pattern is an uninterpreted predicate, `Library.matches`.
- Analyzer.ReturnsCharacterized: the order of the joined type names is not stated, because the source joins a Python set whose order depends on hashing.
- The command line, the server, file reading and writing, and the console output and progress bar. This includes `_show_report`, which only presents results.
- Configuration: app/config.py reads the environment. Its `max_iterations` and `quality_threshold` are fields of `Orchestrator.Config`.
- The clock: `processing_time` is `Agents.elapsed(j)`, a parameter. The text of `reasoning` is `Agents.reasoning(score)`, a parameter.
- Scorer.Calculate: computes with exact reals, not binary floating point, so rounding at the threshold boundary is not modelled.
- Critic.ParsedReviewCharacterized: the critic's parsed score, its clamp to [0, 1], the `> 0.7` accuracy test and the `* 0.9` clarity scaling are computed with exact reals, not binary floating point. So rounding at the 10/9 clarity bound and at the 0.7 accuracy bound is not modelled. Python rounds `float("1.1111111111111112") * 0.9` to exactly 1.0 and builds the review, where the model's exact product exceeds 1. Python also reads "0.70000000000000001" as 0.7, which is not above 0.7.
- Critic.HighScoreGivesNeutralReview: the bound "score times 0.9 above 1" is exact. Python builds a review for scores whose rounded product is 1.0, just above 10/9 (see the line above).
- Critic.RuleReviewCharacterized: `0.7 - issues * 0.1` is exact. Python's float gives 0.49999999999999994 for two issues, where the model gives 0.5.
- Text.Lower: lower-cases only ASCII letters. `Text.IsSpace` follows Python's whitespace set, and the digit filter accepts only ASCII digits, which matches Python's `isdigit` only on ASCII text.
- Orchestrator.ProcessElement: returns the final record instead of mutating the caller's object. No caller reads the mutated record again, so aliasing is not modelled.
- Injector.InjectDocstrings: rebuilds the tree instead of editing `node.body` in place. The walk queues a node's children before editing it, and an edit only moves non-definition statements, so the rebuild edits the same definitions.
- The package loop's `iterations` list: it is appended to and never read.
- The syntax tree keeps only the node kinds the core inspects. Other statements and expressions are `Block` nodes with their children.
- The `arguments`, `arg` and `keyword` wrapper nodes are folded into their parents: every expression they hold is a direct child of the `FunctionDef`, `ClassDef` or `Call`. This includes the annotations of positional-only, `*args`, keyword-only and `**kwargs` parameters, the keyword-only defaults, and a class's keyword values, so the walk still visits and counts them. The wrappers hold no statements, so the order in which the walk meets statements is unchanged; only the position of these expressions among the walk's other nodes differs, and everything the core computes from expressions is a count. Operator nodes and expression-context markers have no children and are dropped.
