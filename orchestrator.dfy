/** The self-refinement loop (`_process_element`) and the per-file driver
    around it, shared by docstring_agent/agents/orchestrator.py and the
    `DocstringOrchestrator` of app/agents.py.

    The agents the loop calls are passed in as an `Agents` value: the draft
    the generator returns and the review the critic returns at iteration `i`
    for the record as it stands then, the confidence the scorer gives the
    pair, the clock reading, and the text of the `reasoning` field.  Both
    variants plug in the scorer of `Scorer`; the app variant's generator and
    critic are the templates of `Generator` and the rules of `Critic`
    (`AppAgents` below).

    The loop writes its feedback into the record it was given
    (`context.existing_docstring`, `context.body_summary`); here the record
    is a value and the loop returns its final state beside the result.

    `ContextAt` gives the record each iteration sees, `TraceDraft`,
    `TraceReview` and `TraceConfidence` what the agents return for it, and
    `Select` the loop's bookkeeping after `k` passes over any sequence of
    confidences and drafts; it stops stepping once an iteration has met the
    threshold, as the `break` does. */
module Orchestrator {
  import opened Wrappers
  import opened Models
  import opened Lists
  import Text
  import Scorer
  import Critic
  import Generator
  import Syntax
  import Analyzer
  import Injector

  datatype Agents = Agents(
    generate: (CodeContext, DocstringStyle, nat) -> string,
    review: (string, string, CodeContext, nat) -> CriticReview,
    score: (CodeContext, string, CriticReview) -> real,
    elapsed: nat -> real,
    reasoning: real -> string)

  /** The orchestrator's settings: `style`, `max_iterations`,
      `quality_threshold` and `skip_existing`. */
  datatype Settings = Settings(style: DocstringStyle, maxIterations: int, threshold: real, skipExisting: bool)

  /** The package constructor's defaults: Google style, three iterations,
      threshold 0.8, skipping documented elements. */
  const PackageDefaults := Settings(Google, 3, 0.8, true)

  /** The configured defaults of app/config.py. */
  datatype Config = Config(maxIterations: int, qualityThreshold: real)

  /** The app constructor: `max_iterations or config.max_iterations` and
      `quality_threshold or config.quality_threshold`, so an absent value and
      an explicit zero alike fall back to the configuration. */
  function AppSettings(style: DocstringStyle, maxIterations: Option<int>, threshold: Option<real>,
                       skipExisting: bool, config: Config): (s: Settings)
    ensures s.style == style && s.skipExisting == skipExisting
    ensures s.maxIterations == config.maxIterations <==>
              maxIterations.None? || maxIterations.value == 0 || maxIterations.value == config.maxIterations
    ensures maxIterations.Some? && maxIterations.value != 0 ==> s.maxIterations == maxIterations.value
    ensures s.threshold == config.qualityThreshold <==>
              threshold.None? || threshold.value == 0.0 || threshold.value == config.qualityThreshold
    ensures threshold.Some? && threshold.value != 0.0 ==> s.threshold == threshold.value
  {
    var iterations := if maxIterations.Some? && maxIterations.value != 0 then maxIterations.value else config.maxIterations;
    var quality := if threshold.Some? && threshold.value != 0.0 then threshold.value else config.qualityThreshold;
    Settings(style, iterations, quality, skipExisting)
  }

  /** The loop's variables between iterations: the best draft so far and
      its confidence, how many iterations have run, and whether the loop
      has broken off. */
  datatype LoopState = LoopState(best: Option<string>, bestScore: real, executed: nat, stopped: bool)

  const Initial := LoopState(None, 0.0, 0, false)

  function DraftAt(a: Agents, style: DocstringStyle, c: CodeContext, i: nat): string {
    a.generate(c, style, i)
  }

  function ReviewAt(a: Agents, style: DocstringStyle, c: CodeContext, i: nat): CriticReview {
    a.review(c.sourceCode, DraftAt(a, style, c, i), c, i)
  }

  /** The critic's feedback written into the record for the next iteration:
      the draft becomes the existing docstring, and the first three
      suggestions, one per line, the body summary. */
  function Feedback(c: CodeContext, doc: string, review: CriticReview): CodeContext {
    c.(existingDocstring := Some(doc),
       bodySummary := Some(Text.Join(Take(review.suggestions, 3), "\n")))
  }

  /** The record as the agents see it at iteration `j`, provided the loop
      has not broken off before: every iteration but the last one allowed
      writes its feedback into it. */
  function ContextAt(a: Agents, s: Settings, context: CodeContext, j: nat): CodeContext {
    if j == 0 then context
    else
      var c := ContextAt(a, s, context, j - 1);
      if j - 1 < s.maxIterations - 1 then Feedback(c, DraftAt(a, s.style, c, j - 1), ReviewAt(a, s.style, c, j - 1))
      else c
  }

  /** The draft, review and confidence of iteration `j`. */
  function TraceDraft(a: Agents, s: Settings, context: CodeContext, j: nat): string {
    DraftAt(a, s.style, ContextAt(a, s, context, j), j)
  }

  function TraceReview(a: Agents, s: Settings, context: CodeContext, j: nat): CriticReview {
    ReviewAt(a, s.style, ContextAt(a, s, context, j), j)
  }

  function TraceConfidence(a: Agents, s: Settings, context: CodeContext, j: nat): real {
    var c := ContextAt(a, s, context, j);
    a.score(c, DraftAt(a, s.style, c, j), ReviewAt(a, s.style, c, j))
  }

  /** One pass of the loop body, given the confidence and the draft of the
      iteration at index `i`: the best draft is replaced only by a strictly
      higher confidence, and the loop breaks off on a confidence at the
      threshold. */
  function Advance(st: LoopState, confidence: real, draft: string, i: nat, threshold: real): LoopState {
    var improved := confidence > st.bestScore;
    LoopState(if improved then Some(draft) else st.best,
              if improved then confidence else st.bestScore,
              i + 1,
              confidence >= threshold)
  }

  /** The loop's bookkeeping after the first `k` passes, given the
      confidence `conf(j)` and the draft `draft(j)` of every iteration `j`. */
  function Select(conf: nat -> real, draft: nat -> string, threshold: real, k: nat): LoopState {
    if k == 0 then Initial
    else
      var st := Select(conf, draft, threshold, k - 1);
      if st.stopped then st else Advance(st, conf(k - 1), draft(k - 1), k - 1, threshold)
  }

  function Confidences(a: Agents, s: Settings, context: CodeContext): nat -> real {
    (j: nat) => TraceConfidence(a, s, context, j)
  }

  function Drafts(a: Agents, s: Settings, context: CodeContext): nat -> string {
    (j: nat) => TraceDraft(a, s, context, j)
  }

  /** The state after the first `k` passes of `range(max_iterations)`. */
  function Run(a: Agents, s: Settings, context: CodeContext, k: nat): LoopState {
    Select(Confidences(a, s, context), Drafts(a, s, context), s.threshold, k)
  }

  /** The result built by iteration `j`; `improved_from` is the best draft
      of the iterations before it, when that draft is not empty. */
  function IterationResult(a: Agents, s: Settings, context: CodeContext, j: nat): DocstringResult {
    var c := ContextAt(a, s, context, j);
    var review := TraceReview(a, s, context, j);
    var best := Run(a, s, context, j).best;
    DocstringResult(c.name, TraceDraft(a, s, context, j), TraceConfidence(a, s, context, j),
                    StyleValue(s.style), a.reasoning(review.score), review.issues, a.elapsed(j),
                    if Truthy(best) then best else None, j + 1)
  }

  /** The record seen and the result built by each iteration. */
  function Seen(a: Agents, s: Settings, context: CodeContext): nat -> CodeContext {
    (j: nat) => ContextAt(a, s, context, j)
  }

  function Built(a: Agents, s: Settings, context: CodeContext): nat -> DocstringResult {
    (j: nat) => IterationResult(a, s, context, j)
  }

  function Passes(maxIterations: int): nat {
    if maxIterations > 0 then maxIterations else 0
  }

  /** The loop's final state. */
  function Refined(a: Agents, s: Settings, context: CodeContext): LoopState {
    Select(Confidences(a, s, context), Drafts(a, s, context), s.threshold, Passes(s.maxIterations))
  }

  /** `conf`, `draft`, `seen` and `built` name, for every iteration `j`, its
      confidence, its draft, the record it sees and the result it builds. */
  ghost predicate Traces(a: Agents, s: Settings, context: CodeContext, conf: nat -> real, draft: nat -> string,
                         seen: nat -> CodeContext, built: nat -> DocstringResult)
  {
    && (forall j {:trigger TraceConfidence(a, s, context, j)} :: conf(j) == TraceConfidence(a, s, context, j))
    && (forall j {:trigger TraceDraft(a, s, context, j)} :: draft(j) == TraceDraft(a, s, context, j))
    && (forall j {:trigger ContextAt(a, s, context, j)} :: seen(j) == ContextAt(a, s, context, j))
    && (forall j {:trigger IterationResult(a, s, context, j)} :: built(j) == IterationResult(a, s, context, j))
  }

  /** `_process_element`.  The result is `None` when `max_iterations` is not
      positive: the app returns `None` then, and the package raises, since its
      `iteration_result` is never bound.  `final` is the record as the loop
      leaves it. */
  method ProcessElement(a: Agents, s: Settings, context: CodeContext)
    returns (result: Option<DocstringResult>, final: CodeContext)
    ensures var st := Select(Confidences(a, s, context), Drafts(a, s, context), s.threshold, Passes(s.maxIterations));
            && result == (if st.executed == 0 then None else Some(IterationResult(a, s, context, st.executed - 1)))
            && final == (if st.stopped && st.executed >= 1 then ContextAt(a, s, context, st.executed - 1) else ContextAt(a, s, context, Passes(s.maxIterations)))
  {
    TracesOfRun(a, s, context);
    result, final := RefinementLoop(a, s, context, Confidences(a, s, context), Drafts(a, s, context),
                                    Seen(a, s, context), Built(a, s, context));
  }

  lemma TracesOfRun(a: Agents, s: Settings, context: CodeContext)
    ensures Traces(a, s, context, Confidences(a, s, context), Drafts(a, s, context), Seen(a, s, context), Built(a, s, context))
  {
  }

  /** The loop of `_process_element`, over the iterations' outcomes as
      named by `Traces`. */
  method RefinementLoop(a: Agents, s: Settings, context: CodeContext, ghost conf: nat -> real,
                        ghost draft: nat -> string, ghost seen: nat -> CodeContext,
                        ghost built: nat -> DocstringResult)
    returns (result: Option<DocstringResult>, final: CodeContext)
    requires Traces(a, s, context, conf, draft, seen, built)
    ensures var st := Select(conf, draft, s.threshold, Passes(s.maxIterations));
            && result == (if st.executed == 0 then None else Some(built(st.executed - 1)))
            && final == (if st.stopped && st.executed >= 1 then seen(st.executed - 1) else seen(Passes(s.maxIterations)))
  {
    var c := context;
    var best: Option<string> := None;
    var bestScore: real := 0.0;
    result := None;
    var i := 0;
    assert seen(0) == ContextAt(a, s, context, 0);
    while i < s.maxIterations
      invariant 0 <= i <= Passes(s.maxIterations)
      invariant var st := Select(conf, draft, s.threshold, i);
                !st.stopped && st.executed == i && best == st.best && bestScore == st.bestScore
      invariant result == (if i == 0 then None else Some(built(i - 1)))
      invariant c == seen(i)
    {
      var stop;
      c, best, bestScore, result, stop := Iteration(a, s, context, conf, draft, seen, built, c, i, best, bestScore);
      if stop {
        StaysStopped(conf, draft, s.threshold, i + 1, Passes(s.maxIterations));
        final := c;
        return;
      }
      i := i + 1;
    }
    final := c;
  }

  /** One iteration of the loop at index `i`: generate, review, score,
      build the result, keep the best draft, and either break off or write
      the critic's feedback into the record. */
  method Iteration(a: Agents, s: Settings, context: CodeContext, ghost conf: nat -> real,
                   ghost draft: nat -> string, ghost seen: nat -> CodeContext,
                   ghost built: nat -> DocstringResult,
                   c: CodeContext, i: nat, best: Option<string>, bestScore: real)
    returns (c': CodeContext, best': Option<string>, bestScore': real, result: Option<DocstringResult>, stop: bool)
    requires Traces(a, s, context, conf, draft, seen, built)
    requires var st := Select(conf, draft, s.threshold, i);
             !st.stopped && st.executed == i && best == st.best && bestScore == st.bestScore
    requires c == seen(i)
    ensures var st := Select(conf, draft, s.threshold, i + 1);
            stop == st.stopped && st.executed == i + 1 && best' == st.best && bestScore' == st.bestScore
    ensures result == Some(built(i))
    ensures stop ==> c' == c
    ensures !stop ==> c' == seen(i + 1)
  {
    assert c == ContextAt(a, s, context, i);
    SelectAgrees(conf, draft, Confidences(a, s, context), Drafts(a, s, context), s.threshold, i);
    var doc, review, confidence, r := RunIteration(a, s, context, c, i, best);
    result := Some(r);
    best', bestScore' := best, bestScore;
    if confidence > bestScore {
      best' := Some(doc);
      bestScore' := confidence;
    }
    c' := c;
    stop := confidence >= s.threshold;
    if !stop {
      if i < s.maxIterations - 1 {
        c' := c.(existingDocstring := Some(doc),
                 bodySummary := Some(Text.Join(Take(review.suggestions, 3), "\n")));
      }
      ContextStep(a, s, context, i);
    }
  }

  /** The body of one iteration up to the bookkeeping: generate, review,
      score, and build the iteration's result. */
  method RunIteration(a: Agents, s: Settings, context: CodeContext, c: CodeContext, i: nat, best: Option<string>)
    returns (doc: string, review: CriticReview, confidence: real, result: DocstringResult)
    requires c == ContextAt(a, s, context, i)
    requires best == Run(a, s, context, i).best
    ensures doc == TraceDraft(a, s, context, i) && review == TraceReview(a, s, context, i)
    ensures confidence == TraceConfidence(a, s, context, i)
    ensures result == IterationResult(a, s, context, i)
  {
    doc := a.generate(c, s.style, i);
    review := a.review(c.sourceCode, doc, c, i);
    confidence := a.score(c, doc, review);
    var improvedFrom := if Truthy(best) then best else None;
    result := DocstringResult(c.name, doc, confidence, StyleValue(s.style),
                              a.reasoning(review.score), review.issues, a.elapsed(i),
                              improvedFrom, i + 1);
  }

  /** The bookkeeping after `k` passes depends only on the confidences and
      drafts of the first `k` iterations. */
  lemma {:induction false} SelectAgrees(conf: nat -> real, draft: nat -> string, conf': nat -> real,
                                        draft': nat -> string, threshold: real, k: nat)
    requires forall j :: 0 <= j < k ==> conf(j) == conf'(j) && draft(j) == draft'(j)
    ensures Select(conf, draft, threshold, k) == Select(conf', draft', threshold, k)
  {
    if k > 0 {
      SelectAgrees(conf, draft, conf', draft', threshold, k - 1);
    }
  }

  /** The record the next iteration sees. */
  lemma ContextStep(a: Agents, s: Settings, context: CodeContext, i: nat)
    ensures ContextAt(a, s, context, i + 1)
            == if i < s.maxIterations - 1
               then Feedback(ContextAt(a, s, context, i), TraceDraft(a, s, context, i), TraceReview(a, s, context, i))
               else ContextAt(a, s, context, i)
  {
  }

  /** Once the loop has broken off, later passes change nothing. */
  lemma {:induction false} StaysStopped(conf: nat -> real, draft: nat -> string, threshold: real, k: nat, m: nat)
    requires k <= m
    requires Select(conf, draft, threshold, k).stopped
    ensures Select(conf, draft, threshold, m) == Select(conf, draft, threshold, k)
    decreases m - k
  {
    if k < m {
      StaysStopped(conf, draft, threshold, k, m - 1);
    }
  }

  /** Every pass runs one iteration until the loop breaks off, which it
      only does after an iteration has run. */
  lemma {:induction false} SelectShape(conf: nat -> real, draft: nat -> string, threshold: real, k: nat)
    ensures var st := Select(conf, draft, threshold, k);
            st.executed <= k && (!st.stopped ==> st.executed == k) && (st.stopped ==> st.executed >= 1)
  {
    if k > 0 {
      SelectShape(conf, draft, threshold, k - 1);
    }
  }

  /** While the loop runs, every confidence so far is below the threshold. */
  lemma {:induction false} BelowWhileRunning(conf: nat -> real, draft: nat -> string, threshold: real, k: nat)
    requires !Select(conf, draft, threshold, k).stopped
    ensures forall j :: 0 <= j < k ==> conf(j) < threshold
  {
    if k > 0 {
      BelowWhileRunning(conf, draft, threshold, k - 1);
    }
  }

  /** Once the loop has broken off, the iteration it stopped at is the
      first whose confidence reached the threshold. */
  lemma {:induction false} StopsAtFirstSuccess(conf: nat -> real, draft: nat -> string, threshold: real, k: nat)
    requires Select(conf, draft, threshold, k).stopped
    ensures var n := Select(conf, draft, threshold, k).executed;
            1 <= n <= k && conf(n - 1) >= threshold
            && forall j :: 0 <= j < n - 1 ==> conf(j) < threshold
  {
    var prev := Select(conf, draft, threshold, k - 1);
    if prev.stopped {
      StopsAtFirstSuccess(conf, draft, threshold, k - 1);
    } else {
      BelowWhileRunning(conf, draft, threshold, k - 1);
      SelectShape(conf, draft, threshold, k - 1);
    }
  }

  /** The best score is never negative, is positive exactly when a best
      draft exists, and bounds the confidence of every iteration that ran. */
  lemma {:induction false} BestScoreBounds(conf: nat -> real, draft: nat -> string, threshold: real, k: nat)
    ensures var st := Select(conf, draft, threshold, k);
            st.bestScore >= 0.0
            && (st.best.Some? <==> st.bestScore > 0.0)
            && forall j :: 0 <= j < st.executed ==> conf(j) <= st.bestScore
  {
    if k > 0 {
      BestScoreBounds(conf, draft, threshold, k - 1);
      SelectShape(conf, draft, threshold, k - 1);
    }
  }

  /** The best draft is the one of the earliest iteration that reached the
      best score: later iterations only replace it when strictly better. */
  lemma {:induction false} BestIsEarliestMaximum(conf: nat -> real, draft: nat -> string, threshold: real, k: nat)
    ensures var st := Select(conf, draft, threshold, k);
            st.best.Some? ==>
              exists j :: 0 <= j < st.executed && draft(j) == st.best.value && conf(j) == st.bestScore
                          && forall i :: 0 <= i < j ==> conf(i) < st.bestScore
  {
    if k > 0 {
      var prev := Select(conf, draft, threshold, k - 1);
      BestIsEarliestMaximum(conf, draft, threshold, k - 1);
      if !prev.stopped {
        SelectShape(conf, draft, threshold, k - 1);
        BestScoreBounds(conf, draft, threshold, k - 1);
      }
    }
  }

  /** Conversely, the earliest iteration with the highest confidence, when
      that confidence is above zero, is the one whose draft is kept as best. */
  lemma EarliestMaximumIsBest(conf: nat -> real, draft: nat -> string, threshold: real, k: nat, i: nat)
    requires !Select(conf, draft, threshold, k).stopped
    requires i < k && conf(i) > 0.0
    requires forall l :: 0 <= l < k ==> conf(l) <= conf(i)
    requires forall l :: 0 <= l < i ==> conf(l) < conf(i)
    ensures Select(conf, draft, threshold, k).best == Some(draft(i))
  {
    var st := Select(conf, draft, threshold, k);
    SelectShape(conf, draft, threshold, k);
    BestScoreBounds(conf, draft, threshold, k);
    BestIsEarliestMaximum(conf, draft, threshold, k);
    var w :| 0 <= w < st.executed && draft(w) == st.best.value && conf(w) == st.bestScore
             && forall l :: 0 <= l < w ==> conf(l) < st.bestScore;
    assert w == i;
  }

  /** A best draft exists exactly when some iteration that ran scored above
      zero, the initial best score. */
  lemma BestExistsIffPositive(conf: nat -> real, draft: nat -> string, threshold: real, k: nat)
    ensures var st := Select(conf, draft, threshold, k);
            st.best.Some? <==> exists j :: 0 <= j < st.executed && conf(j) > 0.0
  {
    BestScoreBounds(conf, draft, threshold, k);
    BestIsEarliestMaximum(conf, draft, threshold, k);
  }

  // ---------------------------------------------------------------------------
  // What `_process_element` returns

  /** The loop runs at most `max_iterations` times, and at least once when
      that is positive; it breaks off only after an iteration has run. */
  lemma RefinedBounds(a: Agents, s: Settings, context: CodeContext)
    ensures var st := Refined(a, s, context);
            && st.executed <= Passes(s.maxIterations)
            && (s.maxIterations > 0 ==> st.executed >= 1)
            && (!st.stopped ==> st.executed == Passes(s.maxIterations))
  {
    SelectShape(Confidences(a, s, context), Drafts(a, s, context), s.threshold, Passes(s.maxIterations));
  }

  /** When the loop breaks off, it does so at the first iteration whose
      confidence reaches the threshold. */
  lemma StopsAtThreshold(a: Agents, s: Settings, context: CodeContext)
    requires Refined(a, s, context).stopped
    ensures var n := Refined(a, s, context).executed;
            && 1 <= n <= Passes(s.maxIterations)
            && TraceConfidence(a, s, context, n - 1) >= s.threshold
            && forall j :: 0 <= j < n - 1 ==> TraceConfidence(a, s, context, j) < s.threshold
  {
    var st := Refined(a, s, context);
    StoppedAt(a, s, context, Confidences(a, s, context), Drafts(a, s, context), Passes(s.maxIterations), st);
  }

  lemma StoppedAt(a: Agents, s: Settings, context: CodeContext, conf: nat -> real, draft: nat -> string, k: nat,
                  st: LoopState)
    requires forall j {:trigger TraceConfidence(a, s, context, j)} :: conf(j) == TraceConfidence(a, s, context, j)
    requires st == Select(conf, draft, s.threshold, k) && st.stopped
    ensures && 1 <= st.executed <= k
            && TraceConfidence(a, s, context, st.executed - 1) >= s.threshold
            && forall j :: 0 <= j < st.executed - 1 ==> TraceConfidence(a, s, context, j) < s.threshold
  {
    StopsAtFirstSuccess(conf, draft, s.threshold, k);
  }

  /** When the loop does not break off, every iteration ran and each was
      below the threshold. */
  lemma ExhaustsBelowThreshold(a: Agents, s: Settings, context: CodeContext)
    requires !Refined(a, s, context).stopped
    ensures forall j :: 0 <= j < Passes(s.maxIterations) ==> TraceConfidence(a, s, context, j) < s.threshold
  {
    var conf := Confidences(a, s, context);
    BelowWhileRunning(conf, Drafts(a, s, context), s.threshold, Passes(s.maxIterations));
    forall j | 0 <= j < Passes(s.maxIterations)
      ensures TraceConfidence(a, s, context, j) < s.threshold
    {
      assert conf(j) == TraceConfidence(a, s, context, j);
    }
  }

  /** The loop breaks off exactly when some iteration reaches the threshold. */
  lemma StopsIffReached(a: Agents, s: Settings, context: CodeContext)
    ensures Refined(a, s, context).stopped
            <==> exists j :: 0 <= j < Passes(s.maxIterations) && TraceConfidence(a, s, context, j) >= s.threshold
  {
    if Refined(a, s, context).stopped {
      StopsAtThreshold(a, s, context);
      var n := Refined(a, s, context).executed;
      assert 0 <= n - 1 < Passes(s.maxIterations) && TraceConfidence(a, s, context, n - 1) >= s.threshold;
    } else {
      ExhaustsBelowThreshold(a, s, context);
    }
  }

  /** The loop only ever writes the two feedback fields of the record. */
  lemma {:induction false} OnlyFeedbackChanges(a: Agents, s: Settings, context: CodeContext, j: nat)
    ensures ContextAt(a, s, context, j).(existingDocstring := context.existingDocstring,
                                         bodySummary := context.bodySummary) == context
  {
    if j > 0 {
      OnlyFeedbackChanges(a, s, context, j - 1);
    }
  }

  /** Every iteration but the last one allowed leaves its draft as the
      existing docstring, and its first three suggestions, one per line, as
      the body summary of the record the next iteration sees; the last one
      allowed writes nothing. */
  lemma FeedbackWritten(a: Agents, s: Settings, context: CodeContext, j: nat)
    ensures j + 1 < Passes(s.maxIterations) ==>
              && ContextAt(a, s, context, j + 1).existingDocstring == Some(TraceDraft(a, s, context, j))
              && ContextAt(a, s, context, j + 1).bodySummary
                 == Some(Text.Join(Take(TraceReview(a, s, context, j).suggestions, 3), "\n"))
    ensures j + 1 >= Passes(s.maxIterations) ==> ContextAt(a, s, context, j + 1) == ContextAt(a, s, context, j)
  {
  }

  /** The record the loop leaves behind is the one its last iteration saw:
      the iteration that broke off wrote nothing, and neither did the last
      one allowed. */
  lemma FinalIsLastSeen(a: Agents, s: Settings, context: CodeContext)
    requires s.maxIterations > 0
    ensures var st := Refined(a, s, context);
            && st.executed >= 1
            && (if st.stopped && st.executed >= 1 then ContextAt(a, s, context, st.executed - 1)
                else ContextAt(a, s, context, Passes(s.maxIterations)))
               == ContextAt(a, s, context, st.executed - 1)
  {
    RefinedBounds(a, s, context);
    FeedbackWritten(a, s, context, Passes(s.maxIterations) - 1);
  }

  /** The result iteration `j` builds is its own: the element's name, the
      style's value, its draft, its confidence and its review's issues,
      numbered `j + 1`. */
  lemma IterationResultFields(a: Agents, s: Settings, context: CodeContext, j: nat)
    ensures var r := IterationResult(a, s, context, j);
            && r.elementName == context.name && r.style == StyleValue(s.style)
            && r.generatedDocstring == TraceDraft(a, s, context, j)
            && r.confidenceScore == TraceConfidence(a, s, context, j)
            && r.warnings == TraceReview(a, s, context, j).issues
            && r.iteration == j + 1
  {
    OnlyFeedbackChanges(a, s, context, j);
  }

  /** The `improved_from` of iteration `j` is the best draft of the
      iterations before it, the earliest one with the highest confidence
      above zero, whenever that draft is not empty; it is `None` when none of
      them scored above zero, and never an empty draft. */
  lemma ImprovedFromIsEarlierBest(a: Agents, s: Settings, context: CodeContext, j: nat)
    requires !Run(a, s, context, j).stopped
    ensures var imp := IterationResult(a, s, context, j).improvedFrom;
            && ((forall i :: 0 <= i < j ==> TraceConfidence(a, s, context, i) <= 0.0) ==> imp.None?)
            && (imp.Some? ==>
                  && imp.value != ""
                  && exists i :: && 0 <= i < j && TraceDraft(a, s, context, i) == imp.value
                                 && TraceConfidence(a, s, context, i) > 0.0
                                 && (forall k :: 0 <= k < j ==> TraceConfidence(a, s, context, k) <= TraceConfidence(a, s, context, i))
                                 && (forall k :: 0 <= k < i ==> TraceConfidence(a, s, context, k) < TraceConfidence(a, s, context, i)))
    ensures forall i :: && 0 <= i < j && TraceConfidence(a, s, context, i) > 0.0
                        && (forall k :: 0 <= k < j ==> TraceConfidence(a, s, context, k) <= TraceConfidence(a, s, context, i))
                        && (forall k :: 0 <= k < i ==> TraceConfidence(a, s, context, k) < TraceConfidence(a, s, context, i))
                        && TraceDraft(a, s, context, i) != ""
                        ==> IterationResult(a, s, context, j).improvedFrom == Some(TraceDraft(a, s, context, i))
  {
    var conf, draft := Confidences(a, s, context), Drafts(a, s, context);
    var st := Select(conf, draft, s.threshold, j);
    SelectShape(conf, draft, s.threshold, j);
    BestScoreBounds(conf, draft, s.threshold, j);
    BestIsEarliestMaximum(conf, draft, s.threshold, j);
    forall i | 0 <= i < j
      ensures conf(i) == TraceConfidence(a, s, context, i) && draft(i) == TraceDraft(a, s, context, i)
    {
    }
    forall i | && 0 <= i < j && conf(i) > 0.0
               && (forall k :: 0 <= k < j ==> conf(k) <= conf(i))
               && (forall k :: 0 <= k < i ==> conf(k) < conf(i))
      ensures st.best == Some(draft(i))
    {
      EarliestMaximumIsBest(conf, draft, s.threshold, j, i);
    }
  }

  /** What `_process_element` returns for `context`: the last iteration's
      result, or `None` when no iteration ran. */
  function Outcome(a: Agents, s: Settings, context: CodeContext): Option<DocstringResult> {
    var st := Select(Confidences(a, s, context), Drafts(a, s, context), s.threshold, Passes(s.maxIterations));
    if st.executed == 0 then None else Some(IterationResult(a, s, context, st.executed - 1))
  }

  /** There is a result exactly when `max_iterations` is positive, and it is
      the last iteration's, numbered by how many ran: the one that reached
      the threshold, or the last one allowed, not the best one so far. */
  lemma OutcomeIsLastIteration(a: Agents, s: Settings, context: CodeContext)
    ensures Outcome(a, s, context).Some? <==> s.maxIterations > 0
    ensures var st := Refined(a, s, context);
            Outcome(a, s, context).Some? ==>
              && Outcome(a, s, context).value.iteration == st.executed
              && Outcome(a, s, context).value.generatedDocstring == TraceDraft(a, s, context, st.executed - 1)
              && Outcome(a, s, context).value.confidenceScore == TraceConfidence(a, s, context, st.executed - 1)
              && (st.stopped || st.executed == s.maxIterations)
  {
    RefinedBounds(a, s, context);
    var st := Refined(a, s, context);
    if st.executed > 0 {
      IterationResultFields(a, s, context, st.executed - 1);
    }
  }

  // ---------------------------------------------------------------------------
  // The skip filter of `process_file`, `process_code` and `get_results`

  /** `skip_existing and context.existing_docstring and not overwrite`. */
  predicate Skipped(s: Settings, overwrite: bool, c: CodeContext) {
    s.skipExisting && Truthy(c.existingDocstring) && !overwrite
  }

  /** With a library that behaves as Python's, the driver never skips a
      function or method whose body has no leading string statement. */
  lemma SkipsOnlyDocumented(s: Settings, overwrite: bool, v: Analyzer.Variant, lib: Analyzer.Library,
                            fn: Syntax.Node, className: string)
    requires Analyzer.ValidLibrary(lib) && fn.FunctionDef? && Syntax.RawDocstring(fn.body).None?
    ensures !Skipped(s, overwrite, Analyzer.FunctionContext(v, lib, fn))
    ensures !Skipped(s, overwrite, Analyzer.MethodContext(v, lib, className, fn))
  {
    Analyzer.FunctionContextFromTree(v, lib, fn);
  }

  /** The records the driver refines, in the analyzer's order. */
  function Kept(s: Settings, overwrite: bool, contexts: seq<CodeContext>): seq<CodeContext> {
    if contexts == [] then []
    else
      var last := contexts[|contexts| - 1];
      Kept(s, overwrite, contexts[..|contexts| - 1]) + if Skipped(s, overwrite, last) then [] else [last]
  }

  /** The results collected when `outcome` gives each record's result. */
  function Collected(outcome: CodeContext -> Option<DocstringResult>, s: Settings, overwrite: bool,
                     contexts: seq<CodeContext>): seq<Option<DocstringResult>>
  {
    if contexts == [] then []
    else
      var last := contexts[|contexts| - 1];
      Collected(outcome, s, overwrite, contexts[..|contexts| - 1])
      + if Skipped(s, overwrite, last) then [] else [outcome(last)]
  }

  /** The results the driver collects: the outcome of every record not
      skipped. */
  function Results(a: Agents, s: Settings, overwrite: bool, contexts: seq<CodeContext>): seq<Option<DocstringResult>> {
    Collected((c: CodeContext) => Outcome(a, s, c), s, overwrite, contexts)
  }

  /** The loop of `process_file`, `process_code` and `get_results`. */
  method ProcessContexts(a: Agents, s: Settings, contexts: seq<CodeContext>, overwrite: bool)
    returns (results: seq<Option<DocstringResult>>)
    ensures results == Results(a, s, overwrite, contexts)
  {
    results := CollectResults(a, s, contexts, overwrite, (c: CodeContext) => Outcome(a, s, c));
  }

  /** Every record not skipped is refined, and its result appended. */
  method CollectResults(a: Agents, s: Settings, contexts: seq<CodeContext>, overwrite: bool,
                        ghost outcome: CodeContext -> Option<DocstringResult>)
    returns (results: seq<Option<DocstringResult>>)
    requires forall c {:trigger Outcome(a, s, c)} :: outcome(c) == Outcome(a, s, c)
    ensures results == Collected(outcome, s, overwrite, contexts)
  {
    results := [];
    var i := 0;
    while i < |contexts|
      invariant 0 <= i <= |contexts|
      invariant results == Collected(outcome, s, overwrite, contexts[..i])
    {
      var context := contexts[i];
      CollectedStep(outcome, s, overwrite, contexts, i);
      if !Skipped(s, overwrite, context) {
        var result, _ := ProcessElement(a, s, context);
        ResultIsOutcome(a, s, context, result);
        results := results + [result];
      }
      i := i + 1;
    }
    assert contexts[..|contexts|] == contexts;
  }

  lemma ResultIsOutcome(a: Agents, s: Settings, context: CodeContext, result: Option<DocstringResult>)
    requires var st := Select(Confidences(a, s, context), Drafts(a, s, context), s.threshold, Passes(s.maxIterations));
             result == (if st.executed == 0 then None else Some(IterationResult(a, s, context, st.executed - 1)))
    ensures result == Outcome(a, s, context)
  {
  }

  lemma CollectedStep(outcome: CodeContext -> Option<DocstringResult>, s: Settings, overwrite: bool,
                      contexts: seq<CodeContext>, i: nat)
    requires i < |contexts|
    ensures Collected(outcome, s, overwrite, contexts[..i + 1])
            == Collected(outcome, s, overwrite, contexts[..i])
               + if Skipped(s, overwrite, contexts[i]) then [] else [outcome(contexts[i])]
  {
    assert contexts[..i + 1][..i] == contexts[..i];
  }

  /** Filtering distributes over concatenation, so the records kept stay in
      the analyzer's order. */
  lemma {:induction false} KeptAppend(s: Settings, overwrite: bool, xs: seq<CodeContext>, ys: seq<CodeContext>)
    ensures Kept(s, overwrite, xs + ys) == Kept(s, overwrite, xs) + Kept(s, overwrite, ys)
    decreases |ys|
  {
    if ys != [] {
      var front := ys[..|ys| - 1];
      assert (xs + ys)[..|xs + ys| - 1] == xs + front;
      assert (xs + ys)[|xs + ys| - 1] == ys[|ys| - 1];
      KeptAppend(s, overwrite, xs, front);
    } else {
      assert xs + ys == xs;
    }
  }

  /** A record is kept exactly when it is not skipped, and as many are kept
      as there are records not skipped. */
  lemma {:induction false} KeptCharacterized(s: Settings, overwrite: bool, contexts: seq<CodeContext>)
    ensures forall c :: c in Kept(s, overwrite, contexts) <==> c in contexts && !Skipped(s, overwrite, c)
    ensures |Kept(s, overwrite, contexts)|
            == |contexts| - CountWhere((c: CodeContext) => Skipped(s, overwrite, c), contexts)
    decreases |contexts|
  {
    if contexts != [] {
      var front := contexts[..|contexts| - 1];
      KeptCharacterized(s, overwrite, front);
      CountWhereBounds((c: CodeContext) => Skipped(s, overwrite, c), front);
      assert contexts == front + [contexts[|contexts| - 1]];
    }
  }

  /** Without `skip_existing`, or with `overwrite`, every record is refined. */
  lemma {:induction false} NothingSkipped(s: Settings, overwrite: bool, contexts: seq<CodeContext>)
    requires !s.skipExisting || overwrite
    ensures Kept(s, overwrite, contexts) == contexts
    decreases |contexts|
  {
    if contexts != [] {
      NothingSkipped(s, overwrite, contexts[..|contexts| - 1]);
      assert contexts == contexts[..|contexts| - 1] + [contexts[|contexts| - 1]];
    }
  }

  /** The results are the outcomes of the records kept, one each, in order. */
  lemma ResultsOfKept(a: Agents, s: Settings, overwrite: bool, contexts: seq<CodeContext>)
    ensures |Results(a, s, overwrite, contexts)| == |Kept(s, overwrite, contexts)|
    ensures forall k :: 0 <= k < |Results(a, s, overwrite, contexts)| ==>
              Results(a, s, overwrite, contexts)[k] == Outcome(a, s, Kept(s, overwrite, contexts)[k])
  {
    CollectedOfKept((c: CodeContext) => Outcome(a, s, c), s, overwrite, contexts);
  }

  lemma {:induction false} CollectedOfKept(outcome: CodeContext -> Option<DocstringResult>, s: Settings,
                                           overwrite: bool, contexts: seq<CodeContext>)
    ensures |Collected(outcome, s, overwrite, contexts)| == |Kept(s, overwrite, contexts)|
    ensures forall k :: 0 <= k < |Collected(outcome, s, overwrite, contexts)| ==>
              Collected(outcome, s, overwrite, contexts)[k] == outcome(Kept(s, overwrite, contexts)[k])
    decreases |contexts|
  {
    if contexts != [] {
      CollectedOfKept(outcome, s, overwrite, contexts[..|contexts| - 1]);
    }
  }

  // ---------------------------------------------------------------------------
  // The whole file: analyse, refine the kept records, inject

  /** The results once every kept record produced one; `None` when one did
      not.  A loop with no pass fails in both variants: the package's
      `_process_element` returns a variable it never assigned, and the app's
      injector reads the name of a missing result. */
  function AllPresent(rs: seq<Option<DocstringResult>>): (r: Option<seq<DocstringResult>>)
    ensures r.Some? <==> forall k :: 0 <= k < |rs| ==> rs[k].Some?
    ensures r.Some? ==> |r.value| == |rs| && forall k :: 0 <= k < |rs| ==> rs[k] == Some(r.value[k])
    decreases |rs|
  {
    if rs == [] then Some([])
    else
      var rest := AllPresent(rs[1..]);
      if rs[0].None? || rest.None? then None else Some([rs[0].value] + rest.value)
  }

  /** The tree `process_file` and `process_code` print back: the analysed
      tree with the kept records' results injected. */
  function Enhanced(a: Agents, s: Settings, overwrite: bool, contexts: seq<CodeContext>, tree: Syntax.Node)
    : Option<Syntax.Node>
  {
    var results := AllPresent(Results(a, s, overwrite, contexts));
    if results.None? then None else Some(Injector.Injected(tree, Injector.DocstringMap(results.value)))
  }

  /** `process_code`, and `process_file` once the file is read: analyse the
      parsed tree, refine every kept record, inject the results. */
  method ProcessCode(a: Agents, s: Settings, v: Analyzer.Variant, lib: Analyzer.Library, tree: Syntax.Node,
                     overwrite: bool) returns (edited: Option<Syntax.Node>)
    ensures edited == Enhanced(a, s, overwrite, Analyzer.ContextsOf(v, lib, Syntax.Walk(tree)), tree)
  {
    var contexts := Analyzer.Analyze(v, lib, tree);
    var results := ProcessContexts(a, s, contexts, overwrite);
    var present := AllPresent(results);
    if present.None? {
      edited := None;
    } else {
      var e := Injector.InjectDocstrings(tree, present.value);
      edited := Some(e);
    }
  }

  /** `get_results`: the kept records' results, without injecting. */
  method GetResults(a: Agents, s: Settings, v: Analyzer.Variant, lib: Analyzer.Library, tree: Syntax.Node,
                    overwrite: bool) returns (results: seq<Option<DocstringResult>>)
    ensures results == Results(a, s, overwrite, Analyzer.ContextsOf(v, lib, Syntax.Walk(tree)))
  {
    var contexts := Analyzer.Analyze(v, lib, tree);
    results := ProcessContexts(a, s, contexts, overwrite);
  }

  /** Injection fails exactly when some record is kept and the loop may not
      run at all. */
  lemma EnhancedFails(a: Agents, s: Settings, overwrite: bool, contexts: seq<CodeContext>, tree: Syntax.Node)
    ensures Enhanced(a, s, overwrite, contexts, tree).None? <==> s.maxIterations <= 0 && Kept(s, overwrite, contexts) != []
  {
    var rs := Results(a, s, overwrite, contexts);
    var kept := Kept(s, overwrite, contexts);
    ResultsOfKept(a, s, overwrite, contexts);
    forall k | 0 <= k < |kept|
      ensures rs[k].Some? <==> s.maxIterations > 0
    {
      OutcomeIsLastIteration(a, s, kept[k]);
    }
    if s.maxIterations <= 0 && kept != [] {
      assert rs[0].None?;
    }
  }

  /** Every definition of the printed tree named like a kept record carries,
      as its docstring, the draft of the last kept record of that name. */
  lemma EnhancedDocumentsKept(a: Agents, s: Settings, overwrite: bool, contexts: seq<CodeContext>,
                              tree: Syntax.Node)
    requires Enhanced(a, s, overwrite, contexts, tree).Some?
    ensures var kept := Kept(s, overwrite, contexts);
            forall x :: x in Syntax.Walk(Enhanced(a, s, overwrite, contexts, tree).value) && Syntax.IsDefinition(x) ==>
              forall k :: 0 <= k < |kept| && kept[k].name == x.name
                          && (forall l :: k < l < |kept| ==> kept[l].name != x.name) ==>
                Outcome(a, s, kept[k]).Some?
                && Syntax.RawDocstring(x.body) == Some(Outcome(a, s, kept[k]).value.generatedDocstring)
  {
    var kept := Kept(s, overwrite, contexts);
    var rs := AllPresent(Results(a, s, overwrite, contexts)).value;
    var m := Injector.DocstringMap(rs);
    ResultsOfKept(a, s, overwrite, contexts);
    assert |rs| == |kept|;
    forall k | 0 <= k < |kept|
      ensures rs[k] == Outcome(a, s, kept[k]).value && rs[k].elementName == kept[k].name
    {
      NamedAfterContext(a, s, kept[k]);
    }
    Injector.DocstringMapLastWins(rs);
    Injector.EveryMatchEdited(tree, m);
  }

  /** A definition `x` of the printed tree stands for the definition `y` of
      the parsed one, given the kept records and their results `rs` (which
      `PresentResults` shows are the records' outcomes): same name, and as
      docstring the draft in the result of the last kept record of that
      name, or `y`'s own docstring when no kept record has that name. */
  predicate StandsFor(kept: seq<CodeContext>, rs: seq<DocstringResult>, y: Syntax.Node, x: Syntax.Node) {
    Syntax.IsDefinition(y) && Syntax.IsDefinition(x) && x.name == y.name
    && ((forall c :: c in kept ==> c.name != y.name) ==> Syntax.RawDocstring(x.body) == Syntax.RawDocstring(y.body))
    && (forall k :: 0 <= k < |kept| && kept[k].name == y.name
                    && (forall l :: k < l < |kept| ==> kept[l].name != y.name) ==>
          k < |rs| && Syntax.RawDocstring(x.body) == Some(rs[k].generatedDocstring))
  }

  /** Every definition of the parsed tree, at any depth, is still in the
      printed tree, standing for itself as `StandsFor` says. */
  lemma EnhancedKeepsDefinitions(a: Agents, s: Settings, overwrite: bool, contexts: seq<CodeContext>,
                                 tree: Syntax.Node)
    requires Enhanced(a, s, overwrite, contexts, tree).Some?
    ensures var printed := Enhanced(a, s, overwrite, contexts, tree).value;
            var kept, rs := Kept(s, overwrite, contexts), AllPresent(Results(a, s, overwrite, contexts)).value;
            forall y :: y in Syntax.Walk(tree) && Syntax.IsDefinition(y) ==>
              exists x :: x in Syntax.Walk(printed) && StandsFor(kept, rs, y, x)
  {
    var kept, rs := Kept(s, overwrite, contexts), AllPresent(Results(a, s, overwrite, contexts)).value;
    var m := Injector.DocstringMap(rs);
    Injector.DefinitionsKept(tree, m);
    ResultsNamed(a, s, overwrite, contexts);
    forall y | y in Syntax.Walk(tree) && Syntax.IsDefinition(y)
      ensures StandsFor(kept, rs, y, Injector.Injected(y, m))
    {
      NamedStandsFor(kept, rs, y);
    }
  }

  /** `StandsFor` for any results named after the kept records, one each. */
  lemma {:induction false} NamedStandsFor(kept: seq<CodeContext>, rs: seq<DocstringResult>, y: Syntax.Node)
    requires |rs| == |kept| && forall k :: 0 <= k < |kept| ==> rs[k].elementName == kept[k].name
    requires Syntax.IsDefinition(y)
    ensures StandsFor(kept, rs, y, Injector.Injected(y, Injector.DocstringMap(rs)))
  {
    Injector.InjectedDefinition(y, Injector.DocstringMap(rs));
    if forall c :: c in kept ==> c.name != y.name {
      UnnamedKeepsDocstring(kept, rs, y);
    }
    forall k | 0 <= k < |kept| && kept[k].name == y.name && (forall l :: k < l < |kept| ==> kept[l].name != y.name)
      ensures k < |rs|
              && Syntax.RawDocstring(Injector.Injected(y, Injector.DocstringMap(rs)).body) == Some(rs[k].generatedDocstring)
    {
      LastNamedGivesDraft(kept, rs, y, k);
    }
  }

  /** A definition no kept record is named after keeps its own docstring. */
  lemma {:induction false} UnnamedKeepsDocstring(kept: seq<CodeContext>, rs: seq<DocstringResult>, y: Syntax.Node)
    requires |rs| == |kept| && forall k :: 0 <= k < |kept| ==> rs[k].elementName == kept[k].name
    requires Syntax.IsDefinition(y) && forall c :: c in kept ==> c.name != y.name
    ensures Syntax.RawDocstring(Injector.Injected(y, Injector.DocstringMap(rs)).body) == Syntax.RawDocstring(y.body)
  {
    NamedMap(rs, kept);
    Injector.InjectedDefinition(y, Injector.DocstringMap(rs));
  }

  /** A definition named after kept record `k`, the last of that name, gets
      the draft in `k`'s result. */
  lemma {:induction false} LastNamedGivesDraft(kept: seq<CodeContext>, rs: seq<DocstringResult>, y: Syntax.Node, k: nat)
    requires |rs| == |kept| && forall k :: 0 <= k < |kept| ==> rs[k].elementName == kept[k].name
    requires Syntax.IsDefinition(y) && k < |kept| && kept[k].name == y.name
    requires forall l :: k < l < |kept| ==> kept[l].name != y.name
    ensures k < |rs|
            && Syntax.RawDocstring(Injector.Injected(y, Injector.DocstringMap(rs)).body) == Some(rs[k].generatedDocstring)
  {
    NamedMap(rs, kept);
    Injector.InjectedDefinition(y, Injector.DocstringMap(rs));
  }

  /** When every kept record has a result, the results are named after the
      kept records, one each. */
  lemma ResultsNamed(a: Agents, s: Settings, overwrite: bool, contexts: seq<CodeContext>)
    requires AllPresent(Results(a, s, overwrite, contexts)).Some?
    ensures var kept, rs := Kept(s, overwrite, contexts), AllPresent(Results(a, s, overwrite, contexts)).value;
            |rs| == |kept| && forall k :: 0 <= k < |kept| ==> rs[k].elementName == kept[k].name
  {
    PresentResults(a, s, overwrite, contexts);
  }

  /** When every kept record has a result, the results are the kept
      records' outcomes, in order, each named after its record. */
  lemma PresentResults(a: Agents, s: Settings, overwrite: bool, contexts: seq<CodeContext>)
    requires AllPresent(Results(a, s, overwrite, contexts)).Some?
    ensures var kept, rs := Kept(s, overwrite, contexts), AllPresent(Results(a, s, overwrite, contexts)).value;
            |rs| == |kept|
            && forall k :: 0 <= k < |kept| ==>
                 Outcome(a, s, kept[k]).Some? && rs[k] == Outcome(a, s, kept[k]).value
                 && rs[k].elementName == kept[k].name
  {
    var kept := Kept(s, overwrite, contexts);
    ResultsOfKept(a, s, overwrite, contexts);
    forall k | 0 <= k < |kept|
      ensures Outcome(a, s, kept[k]).Some? && AllPresent(Results(a, s, overwrite, contexts)).value[k].elementName == kept[k].name
    {
      NamedAfterContext(a, s, kept[k]);
    }
  }

  /** The map the injector receives: every name in it belongs to a kept
      record, and the result of the last kept record of each name gives its
      text. */
  lemma KeptDrafts(a: Agents, s: Settings, overwrite: bool, contexts: seq<CodeContext>)
    requires AllPresent(Results(a, s, overwrite, contexts)).Some?
    ensures var kept, rs := Kept(s, overwrite, contexts), AllPresent(Results(a, s, overwrite, contexts)).value;
            var m := Injector.DocstringMap(rs);
            (forall name :: name in m ==> exists c :: c in kept && c.name == name)
            && forall k :: 0 <= k < |kept| && (forall l :: k < l < |kept| ==> kept[l].name != kept[k].name) ==>
                 k < |rs| && kept[k].name in m && m[kept[k].name] == rs[k].generatedDocstring
  {
    var kept := Kept(s, overwrite, contexts);
    var rs := AllPresent(Results(a, s, overwrite, contexts)).value;
    PresentResults(a, s, overwrite, contexts);
    NamedMap(rs, kept);
  }

  /** The same facts for any results named after a list of records. */
  lemma NamedMap(rs: seq<DocstringResult>, kept: seq<CodeContext>)
    requires |rs| == |kept| && forall k :: 0 <= k < |kept| ==> rs[k].elementName == kept[k].name
    ensures var m := Injector.DocstringMap(rs);
            (forall name :: name in m ==> exists c :: c in kept && c.name == name)
            && forall k :: 0 <= k < |kept| && (forall l :: k < l < |kept| ==> kept[l].name != kept[k].name) ==>
                 kept[k].name in m && m[kept[k].name] == rs[k].generatedDocstring
  {
    Injector.DocstringMapLastWins(rs);
  }

  /** When no definition of the tree is named like a kept record, the tree
      comes back unchanged. */
  lemma EnhancedLeavesOthers(a: Agents, s: Settings, overwrite: bool, contexts: seq<CodeContext>,
                             tree: Syntax.Node)
    requires Enhanced(a, s, overwrite, contexts, tree).Some?
    requires forall x, c :: x in Syntax.Walk(tree) && Syntax.IsDefinition(x) && c in Kept(s, overwrite, contexts)
                            ==> x.name != c.name
    ensures Enhanced(a, s, overwrite, contexts, tree) == Some(tree)
  {
    var kept := Kept(s, overwrite, contexts);
    var rs := AllPresent(Results(a, s, overwrite, contexts)).value;
    var m := Injector.DocstringMap(rs);
    ResultsOfKept(a, s, overwrite, contexts);
    forall k | 0 <= k < |kept|
      ensures rs[k].elementName == kept[k].name
    {
      NamedAfterContext(a, s, kept[k]);
    }
    Injector.DocstringMapLastWins(rs);
    Injector.UntouchedWithoutMatch(tree, m);
  }

  /** A result carries the name of the record it was made for. */
  lemma NamedAfterContext(a: Agents, s: Settings, context: CodeContext)
    requires Outcome(a, s, context).Some?
    ensures Outcome(a, s, context).value.elementName == context.name
  {
    forall j: nat
      ensures IterationResult(a, s, context, j).elementName == context.name
    {
      ResultNamed(a, s, context, j);
    }
  }

  lemma ResultNamed(a: Agents, s: Settings, context: CodeContext, j: nat)
    ensures IterationResult(a, s, context, j).elementName == context.name
  {
    IterationResultFields(a, s, context, j);
  }

  // ---------------------------------------------------------------------------
  // The two variants' agents

  /** The app's agents: the fixed template of the style, the rule-based
      critic, and the scorer.  The clock and the text of `reasoning` are
      parameters. */
  function AppAgents(elapsed: nat -> real, reasoning: real -> string): Agents {
    Agents((c: CodeContext, style: DocstringStyle, i: nat) => Generator.Render(Generator.AppStyledLines(c, style)),
           (code: string, doc: string, c: CodeContext, i: nat) => Critic.RuleReview(c, doc),
           (c: CodeContext, doc: string, review: CriticReview) => Scorer.Confidence(c, doc, review.score),
           elapsed, reasoning)
  }

  /** The package's agents: the generator formats what its language model
      suggests (`None` when the call raises) and the critic reads what its
      model answers; both models' outputs are parameters. */
  function PackageAgents(suggest: (CodeContext, DocstringStyle, nat) -> Option<DocstringSuggestion>,
                         answer: (string, string, CodeContext, nat) -> Option<string>,
                         elapsed: nat -> real, reasoning: real -> string): Agents
  {
    Agents((c: CodeContext, style: DocstringStyle, i: nat) => Generator.Generated(c, style, suggest(c, style, i)),
           (code: string, doc: string, c: CodeContext, i: nat) => Critic.ModelReview(answer(code, doc, c, i)),
           (c: CodeContext, doc: string, review: CriticReview) => Scorer.Confidence(c, doc, review.score),
           elapsed, reasoning)
  }

  /** With the package's agents every confidence lies in [0, 1], since the
      critic's review always meets its bounds. */
  lemma PackageConfidenceBounds(suggest: (CodeContext, DocstringStyle, nat) -> Option<DocstringSuggestion>,
                                answer: (string, string, CodeContext, nat) -> Option<string>,
                                elapsed: nat -> real, reasoning: real -> string,
                                s: Settings, context: CodeContext, j: nat)
    ensures 0.0 <= TraceConfidence(PackageAgents(suggest, answer, elapsed, reasoning), s, context, j) <= 1.0
  {
    var a := PackageAgents(suggest, answer, elapsed, reasoning);
    var c := ContextAt(a, s, context, j);
    var review := TraceReview(a, s, context, j);
    assert review == Critic.ModelReview(answer(c.sourceCode, TraceDraft(a, s, context, j), c, j));
    Scorer.ConfidenceBounds(c, TraceDraft(a, s, context, j), review.score);
  }

  /** Two records that agree on everything but the feedback fields. */
  predicate SameFacts(c1: CodeContext, c2: CodeContext) {
    c1.(existingDocstring := None, bodySummary := None) == c2.(existingDocstring := None, bodySummary := None)
  }

  lemma TemplateIgnoresFeedback(c1: CodeContext, c2: CodeContext, style: DocstringStyle)
    requires SameFacts(c1, c2)
    ensures Generator.AppStyledLines(c1, style) == Generator.AppStyledLines(c2, style)
  {
    assert c1.name == c2.name && c1.parameters == c2.parameters && c1.returnInfo == c2.returnInfo
           && c1.raises == c2.raises;
  }

  lemma RulesIgnoreFeedback(c1: CodeContext, c2: CodeContext, doc: string)
    requires SameFacts(c1, c2)
    ensures Critic.RuleReview(c1, doc) == Critic.RuleReview(c2, doc)
  {
    assert c1.parameters == c2.parameters && c1.returnInfo == c2.returnInfo && c1.raises == c2.raises;
  }

  lemma ScoreIgnoresFeedback(c1: CodeContext, c2: CodeContext, doc: string, critic: real)
    requires SameFacts(c1, c2)
    ensures Scorer.Confidence(c1, doc, critic) == Scorer.Confidence(c2, doc, critic)
  {
    assert c1.parameters == c2.parameters && c1.returnInfo == c2.returnInfo && c1.raises == c2.raises;
  }

  /** The app's agents ignore the feedback: every iteration drafts, reviews
      and scores exactly as the first one did. */
  lemma AppIterationsRepeat(elapsed: nat -> real, reasoning: real -> string, s: Settings, context: CodeContext, j: nat)
    ensures var a := AppAgents(elapsed, reasoning);
            && TraceDraft(a, s, context, j) == TraceDraft(a, s, context, 0)
            && TraceReview(a, s, context, j) == TraceReview(a, s, context, 0)
            && TraceConfidence(a, s, context, j) == TraceConfidence(a, s, context, 0)
  {
    var a := AppAgents(elapsed, reasoning);
    var c := ContextAt(a, s, context, j);
    OnlyFeedbackChanges(a, s, context, j);
    TemplateIgnoresFeedback(c, context, s.style);
    var doc := Generator.Render(Generator.AppStyledLines(context, s.style));
    assert TraceDraft(a, s, context, j) == doc == TraceDraft(a, s, context, 0);
    RulesIgnoreFeedback(c, context, doc);
    assert TraceReview(a, s, context, j) == Critic.RuleReview(context, doc) == TraceReview(a, s, context, 0);
    ScoreIgnoresFeedback(c, context, doc, Critic.RuleReview(context, doc).score);
  }

  /** So the app's loop runs once when the first confidence reaches the
      threshold and `max_iterations` times otherwise, and returns the first
      draft either way. */
  lemma AppRunsOnceOrAll(elapsed: nat -> real, reasoning: real -> string, s: Settings, context: CodeContext)
    requires s.maxIterations > 0
    ensures var a := AppAgents(elapsed, reasoning);
            var st := Refined(a, s, context);
            && (TraceConfidence(a, s, context, 0) >= s.threshold ==> st.stopped && st.executed == 1)
            && (TraceConfidence(a, s, context, 0) < s.threshold ==> !st.stopped && st.executed == s.maxIterations)
            && Outcome(a, s, context).Some?
            && Outcome(a, s, context).value.generatedDocstring == TraceDraft(a, s, context, 0)
  {
    var a := AppAgents(elapsed, reasoning);
    var st := Refined(a, s, context);
    RefinedBounds(a, s, context);
    OutcomeIsLastIteration(a, s, context);
    AppIterationsRepeat(elapsed, reasoning, s, context, st.executed - 1);
    if st.stopped {
      StopsAtThreshold(a, s, context);
      if st.executed > 1 {
        assert false;
      }
    } else {
      ExhaustsBelowThreshold(a, s, context);
    }
  }
}
