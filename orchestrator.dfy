/** The pipeline graph (orchestrator/main.py): the edge table, the two routers, and a walker
    that runs the stages from the entry point until the finish point. Everything the stages
    get from outside (the search result, the model replies, the pytest outcome, the clock,
    the cost ledger and the Slack POST) comes from an environment `Env`. */
module Orchestrator {
  import opened Common
  import opened Text
  import opened PipelineState
  import Parser
  import Coder
  import Evaluator
  import Reviewer
  import Metric
  import Alert

  /** The seven registered nodes. */
  datatype Node =
    | QueryStage | ParserStage | CoderStage | EvaluatorStage | ReviewerStage | MetricStage | AlertStage

  /** `route_from_evaluator`: a pass goes to review; a failure (an absent verdict counts as one)
      goes back to the coder while fewer than three failures are counted, and to review after. */
  function RouteFromEvaluator(s: State): (n: Node)
    ensures s.testPassed == Some(true) ==> n == ReviewerStage
    ensures s.testPassed != Some(true) ==>
              (n == CoderStage <==> Retries(s) < RETRY_CEILING)
              && (n == ReviewerStage <==> Retries(s) >= RETRY_CEILING)
  {
    if !s.testPassed.GetOr(false) then
      (if Retries(s) < RETRY_CEILING then CoderStage else ReviewerStage)
    else ReviewerStage
  }

  /** `route_from_reviewer`: a rejection goes back to the coder; anything else, an absent review,
      an approval or the override included, goes on to the metrics. */
  function RouteFromReviewer(s: State): (n: Node)
    ensures n == CoderStage <==> IsRejection(Review(s))
    ensures n == MetricStage <==> !IsRejection(Review(s))
  {
    if IsRejection(Review(s)) then CoderStage else MetricStage
  }

  /** The edge table: the fixed edges and the targets each conditional edge can choose. */
  predicate IsEdge(from: Node, to: Node) {
    match from
    case QueryStage => to == ParserStage
    case ParserStage => to == CoderStage
    case CoderStage => to == EvaluatorStage
    case EvaluatorStage => to == CoderStage || to == ReviewerStage
    case ReviewerStage => to == CoderStage || to == MetricStage
    case MetricStage => to == AlertStage
    case AlertStage => false
  }

  /** The routers only ever name nodes the edge table allows. */
  lemma RoutersFollowEdgeTable(s: State)
    ensures IsEdge(EvaluatorStage, RouteFromEvaluator(s))
    ensures IsEdge(ReviewerStage, RouteFromReviewer(s))
    ensures forall n: Node :: IsEdge(AlertStage, n) == false
  {
  }

  /** Entry and finish points. */
  const ENTRY := QueryStage
  const FINISH := AlertStage

  /** The outside world as the stages see it. The model and test oracles take the number of
      earlier calls to the same stage, so that each attempt may get a different answer.
      `coderModel(i, s)` is the reply of the i-th coder call to the prompt `Coder.CoderPrompt(s)`,
      `reviewerModel(i, code)` that of the i-th review call to `Reviewer.ReviewPrompt(code)`, and
      `pytest(i, code)` the outcome of the i-th test run against the file holding
      `Evaluator.StripFence(code)`. Keying the oracles by what their input is built from makes
      them more general (an oracle that sees only the prompt or the file is one of them), so what
      is proved for every `Env` holds for those, and the prompt and file texts stay out of the
      orchestration proofs. */
  datatype Env = Env(
    search: string -> Outcome<string>,
    coderModel: (nat, State) -> Outcome<string>,
    pytest: (nat, string) -> Evaluator.TestRun,
    reviewerModel: (nat, string) -> Outcome<string>,
    metric: Metric.MetricInputs,
    alert: Alert.AlertInputs)

  /** How often each stage that consults an oracle has been entered. */
  datatype Calls = Calls(coder: nat, evaluator: nat, reviewer: nat)

  /** A point of the run: the node about to execute and the state it receives. */
  datatype Config = Config(node: Node, state: State, calls: Calls)

  /** What one stage did: hand a configuration on, end the run (only the finish point does),
      or raise. */
  datatype StepResult = Next(next: Config) | Halt(final: State) | Fault(error: string)

  /** `query_node`: `state["keyword"]` (a `KeyError` when absent) is searched and the text is
      stored as `article`; a failed search escapes. */
  function QueryNode(s: State, search: string -> Outcome<string>): (r: Outcome<State>)
    ensures r.Ok? <==> s.keyword.Some? && search(s.keyword.value).Ok?
    ensures r.Ok? ==> r.value == s.(article := Some(search(s.keyword.value).value))
    ensures s.keyword.None? ==> r == Raised(KeyErrorText("keyword"))
  {
    match s.keyword
    case None => Raised(KeyErrorText("keyword"))
    case Some(k) =>
      match search(k)
      case Ok(text) => Ok(s.(article := Some(text)))
      case Raised(e) => Raised(e)
  }

  /** The measures the run decreases: first whether the retry loop is still open, then how
      many failures it may still count, then the distance along the fixed edges. */
  function Phase(n: Node): nat {
    if n == MetricStage || n == AlertStage then 0 else 1
  }

  function Budget(s: State): nat {
    if Retries(s) < RETRY_CEILING then RETRY_CEILING - Retries(s) else 0
  }

  function Rank(n: Node): nat {
    match n
    case QueryStage => 6
    case ParserStage => 5
    case CoderStage => 4
    case EvaluatorStage => 3
    case ReviewerStage => 2
    case MetricStage => 1
    case AlertStage => 0
  }

  /** `b` comes strictly after `a` in the lexicographic order of the three measures. */
  predicate Below(b: Config, a: Config) {
    || Phase(b.node) < Phase(a.node)
    || (Phase(b.node) == Phase(a.node)
        && (|| Budget(b.state) < Budget(a.state)
            || (Budget(b.state) == Budget(a.state) && Rank(b.node) < Rank(a.node))))
  }

  /** The query stage: on success the parser runs next with an article stored. */
  function QueryStep(env: Env, s: State, calls: Calls): (r: StepResult)
    ensures r.Halt? == false
    ensures r.Next? ==> r.next.node == ParserStage && r.next.state.article.Some?
                        && Retries(r.next.state) == Retries(s)
    ensures s.keyword.Some? && env.search(s.keyword.value).Ok? ==> r.Next?
  {
    match QueryNode(s, env.search)
    case Ok(s') => Next(Config(ParserStage, s', calls))
    case Raised(e) => Fault(e)
  }

  /** The parser stage: on success the coder runs next. */
  function ParserStep(s: State, calls: Calls): (r: StepResult)
    ensures r.Halt? == false
    ensures r.Next? ==> r.next.node == CoderStage && Retries(r.next.state) == Retries(s)
    ensures s.article.Some? ==> r.Next?
  {
    match Parser.ParserNode(s)
    case Ok(s') => Next(Config(CoderStage, s', calls))
    case Raised(e) => Fault(e)
  }

  /** The coder stage: on success the evaluator runs next with code stored. */
  function CoderStep(env: Env, s: State, calls: Calls): (r: StepResult)
    ensures r.Halt? == false
    ensures r.Next? ==> r.next.node == EvaluatorStage && r.next.state.code.Some?
                        && Retries(r.next.state) == Retries(s)
    ensures env.coderModel(calls.coder, s).Ok? ==> r.Next?
  {
    var reply := env.coderModel(calls.coder, s);
    match Coder.HandleCoder(s, reply)
    case Ok(s') => Next(Config(EvaluatorStage, s', calls.(coder := calls.coder + 1)))
    case Raised(e) => Fault(e)
  }

  /** The evaluator stage: it never raises; going back to the coder spends one failure. */
  function EvaluatorStep(env: Env, s: State, calls: Calls): (r: Config)
    ensures r.node == CoderStage || r.node == ReviewerStage
    ensures r.state.code == s.code
    ensures Budget(r.state) <= Budget(s)
    ensures r.node == CoderStage ==> 1 <= Budget(r.state) < Budget(s)
  {
    var run := env.pytest(calls.evaluator, s.code.GetOr(""));
    var s' := Evaluator.Evaluated(s, run);
    Config(RouteFromEvaluator(s'), s', calls.(evaluator := calls.evaluator + 1))
  }

  /** The reviewer stage: going back to the coder spends one failure; otherwise the metrics
      stage runs next. */
  function ReviewerStep(env: Env, s: State, calls: Calls): (r: StepResult)
    ensures r.Halt? == false
    ensures r.Next? ==> r.next.node == MetricStage
                        || (r.next.node == CoderStage && 1 <= Budget(r.next.state) < Budget(s))
    ensures (s.code.Some? && env.reviewerModel(calls.reviewer, s.code.value).Ok?)
              ==> r.Next?
  {
    var reply := env.reviewerModel(calls.reviewer, s.code.GetOr(""));
    match Reviewer.Reviewed(s, reply)
    case Ok(s') => Next(Config(RouteFromReviewer(s'), s', calls.(reviewer := calls.reviewer + 1)))
    case Raised(e) => Fault(e)
  }

  /** One stage of the graph. Only the query, parser, coder, reviewer and alert stages can
      raise, and only the alert stage ends the run. */
  function Step(env: Env, c: Config): (r: StepResult)
    ensures r.Halt? ==> c.node == AlertStage
    ensures c.node == AlertStage ==> !r.Next?
    ensures r.Fault? ==> c.node in {QueryStage, ParserStage, CoderStage, ReviewerStage, AlertStage}
  {
    var s := c.state;
    match c.node
    case QueryStage => QueryStep(env, s, c.calls)
    case ParserStage => ParserStep(s, c.calls)
    case CoderStage => CoderStep(env, s, c.calls)
    case EvaluatorStage => Next(EvaluatorStep(env, s, c.calls))
    case ReviewerStage => ReviewerStep(env, s, c.calls)
    case MetricStage => Next(Config(AlertStage, Metric.Measured(s, env.metric), c.calls))
    case AlertStage =>
      match Alert.AlertNode(s, env.alert)
      case Ok(s') => Halt(s')
      case Raised(e) => Fault(e)
  }

  /** A step that is well behaved at `c`: it follows the edge table and lowers the measures,
      ends the run only at the finish point, and raises only in a stage that can. */
  predicate Sound(c: Config, r: StepResult) {
    && (r.Next? ==> IsEdge(c.node, r.next.node) && Below(r.next, c))
    && (r.Halt? ==> c.node == FINISH)
    && (r.Fault? ==> c.node in {QueryStage, ParserStage, CoderStage, ReviewerStage, AlertStage})
  }

  /** The most coder entries still possible from `c`. */
  function CoderBound(c: Config): nat {
    var b := Budget(c.state);
    match c.node
    case QueryStage | ParserStage | CoderStage => if b >= 1 then b else 1
    case EvaluatorStage | ReviewerStage => if b >= 1 then b - 1 else 0
    case MetricStage | AlertStage => 0
  }

  /** A step that spends at most what the bound allows: entering the coder costs one. */
  predicate WithinBound(c: Config, r: StepResult) {
    r.Next? ==> CoderBound(r.next) + (if c.node == CoderStage then 1 else 0) <= CoderBound(c)
  }

  /** The search, every coder call and the timestamp conversion succeed. */
  ghost predicate ReliableBesidesReviewer(env: Env) {
    && (forall k: string :: env.search(k).Ok?)
    && (forall i: nat, s: State :: env.coderModel(i, s).Ok?)
    && env.alert.currentTime.Ok?
  }

  /** Nothing outside the state raises: neither a stage oracle nor the timestamp conversion. */
  ghost predicate Reliable(env: Env) {
    && ReliableBesidesReviewer(env)
    && (forall i: nat, code: string :: env.reviewerModel(i, code).Ok?)
  }

  /** The keys the stage about to run reads with `state[...]` are present. */
  predicate Ready(c: Config) {
    match c.node
    case QueryStage => c.state.keyword.Some?
    case ParserStage => c.state.article.Some?
    case EvaluatorStage | ReviewerStage => c.state.code.Some?
    case CoderStage | MetricStage | AlertStage => true
  }

  /** A step that, at a ready point, does not raise and leaves a ready point behind. */
  predicate KeepsReady(c: Config, r: StepResult) {
    Ready(c) ==> !r.Fault? && (r.Next? ==> Ready(r.next))
  }

  /** What the walker needs of one step of the pipeline. */
  ghost predicate StepFacts(env: Env, c: Config, r: StepResult) {
    && Sound(c, r)
    && WithinBound(c, r)
    && (Reliable(env) ==> KeepsReady(c, r))
  }

  lemma QueryFacts(env: Env, s: State, calls: Calls)
    ensures StepFacts(env, Config(QueryStage, s, calls), QueryStep(env, s, calls))
  {
    if Reliable(env) && s.keyword.Some? {
      assert env.search(s.keyword.value).Ok?;
    }
  }

  lemma ParserFacts(s: State, calls: Calls, env: Env)
    ensures StepFacts(env, Config(ParserStage, s, calls), ParserStep(s, calls))
  {
    ParserStepFacts(env, Config(ParserStage, s, calls), ParserStep(s, calls));
  }

  /** What the parser step's contract gives is all its facts need. */
  lemma ParserStepFacts(env: Env, c: Config, r: StepResult)
    requires c.node == ParserStage && !r.Halt?
    requires r.Next? ==> r.next.node == CoderStage && Retries(r.next.state) == Retries(c.state)
    requires c.state.article.Some? ==> r.Next?
    ensures StepFacts(env, c, r)
  {
  }

  lemma CoderFacts(env: Env, s: State, calls: Calls)
    ensures StepFacts(env, Config(CoderStage, s, calls), CoderStep(env, s, calls))
  {
    var c := Config(CoderStage, s, calls);
    var reply := env.coderModel(calls.coder, s);
    var r := CoderStep(env, s, calls);
    if reply.Ok? {
      var c' := Config(EvaluatorStage, s.(code := Some(reply.value)), calls.(coder := calls.coder + 1));
      assert r == Next(c');
      assert Budget(c'.state) == Budget(s);
      assert Sound(c, r) && WithinBound(c, r) && KeepsReady(c, r);
    } else {
      assert r.Fault?;
      assert Sound(c, r) && WithinBound(c, r);
    }
    if Reliable(env) {
      assert reply.Ok?;
    }
  }

  lemma EvaluatorFacts(env: Env, s: State, calls: Calls)
    ensures StepFacts(env, Config(EvaluatorStage, s, calls), Next(EvaluatorStep(env, s, calls)))
  {
    var c' := EvaluatorStep(env, s, calls);
    assert c'.state.code == s.code && Budget(c'.state) <= Budget(s);
    assert c'.node == CoderStage ==> 1 <= Budget(c'.state) < Budget(s);
  }

  lemma ReviewerFacts(env: Env, s: State, calls: Calls)
    ensures StepFacts(env, Config(ReviewerStage, s, calls), ReviewerStep(env, s, calls))
  {
    var r := ReviewerStep(env, s, calls);
    if r.Next? {
      assert r.next.node == MetricStage
             || (r.next.node == CoderStage && 1 <= Budget(r.next.state) < Budget(s));
    }
    if Reliable(env) && s.code.Some? {
      assert env.reviewerModel(calls.reviewer, s.code.value).Ok?;
      assert r.Next?;
    }
  }

  /** Every stage of the pipeline follows the graph, spends the coder bound correctly and, with
      reliable oracles, keeps the keys it needs present. */
  lemma StageFacts(env: Env, c: Config)
    ensures StepFacts(env, c, Step(env, c))
  {
    match c.node
    case QueryStage => QueryFacts(env, c.state, c.calls);
    case ParserStage => ParserFacts(c.state, c.calls, env);
    case CoderStage => CoderFacts(env, c.state, c.calls);
    case EvaluatorStage => EvaluatorFacts(env, c.state, c.calls);
    case ReviewerStage => ReviewerFacts(env, c.state, c.calls);
    case MetricStage =>
    case AlertStage =>
  }

  /** A step function over configurations. The walker and its lemmas are stated for any step
      function with the right properties; `Pipeline` is the one the graph defines. */
  type Stepper = Config -> StepResult

  ghost predicate SoundEverywhere(step: Stepper) {
    forall c: Config :: Sound(c, step(c))
  }

  ghost predicate BoundedEverywhere(step: Stepper) {
    forall c: Config :: WithinBound(c, step(c))
  }

  ghost predicate ReadyEverywhere(step: Stepper) {
    forall c: Config :: KeepsReady(c, step(c))
  }

  /** The graph compiled with the stages above, in the environment `env`. */
  function Pipeline(env: Env): Stepper {
    c => Step(env, c)
  }

  /** The compiled graph has every property the walker's lemmas ask for. */
  lemma PipelineFacts(env: Env)
    ensures SoundEverywhere(Pipeline(env)) && BoundedEverywhere(Pipeline(env))
    ensures Reliable(env) ==> ReadyEverywhere(Pipeline(env))
  {
    forall c: Config ensures StepFacts(env, c, Pipeline(env)(c)) {
      StageFacts(env, c);
    }
  }

  /** How a run ends: at the finish point with the final state, or with the exception of the
      stage that raised. `trace` lists the nodes executed, in order. */
  datatype RunResult =
    | Finished(final: State, trace: seq<Node>)
    | Aborted(at: Node, error: string, trace: seq<Node>)

  /** The walker: execute stages from `c` until one ends the run or raises. */
  function Run(step: Stepper, c: Config): (r: RunResult)
    requires SoundEverywhere(step)
    decreases Phase(c.node), Budget(c.state), Rank(c.node)
    ensures |r.trace| >= 1 && r.trace[0] == c.node
    ensures r.Finished? ==> r.trace[|r.trace| - 1] == FINISH
    ensures r.Aborted? ==> r.trace[|r.trace| - 1] == r.at
                           && r.at in {QueryStage, ParserStage, CoderStage, ReviewerStage, AlertStage}
    ensures forall i :: 0 <= i < |r.trace| - 1 ==> IsEdge(r.trace[i], r.trace[i + 1])
  {
    assert Sound(c, step(c));
    match step(c)
    case Halt(s) => Finished(s, [c.node])
    case Fault(e) => Aborted(c.node, e, [c.node])
    case Next(c') =>
      var rest := Run(step, c');
      var trace := [c.node] + rest.trace;
      assert forall i :: 1 <= i < |trace| - 1 ==> trace[i] == rest.trace[i - 1] && trace[i + 1] == rest.trace[i];
      match rest
      case Finished(s, _) => Finished(s, trace)
      case Aborted(at, e, _) => Aborted(at, e, trace)
  }

  /** `app.invoke` on a configuration. */
  function Invoke(env: Env, c: Config): RunResult {
    PipelineFacts(env);
    Run(Pipeline(env), c)
  }

  /** The dictionary the script invokes the graph with, at the entry point. */
  function Start(task: string, keyword: string): Config {
    Config(ENTRY, Initial(task, keyword), Calls(0, 0, 0))
  }

  /** Any walk whose steps respect the bound enters the coder at most `CoderBound` times. */
  lemma {:induction false} CoderVisitsBounded(step: Stepper, c: Config)
    requires SoundEverywhere(step) && BoundedEverywhere(step)
    decreases Phase(c.node), Budget(c.state), Rank(c.node)
    ensures multiset(Run(step, c).trace)[CoderStage] <= CoderBound(c)
  {
    assert Sound(c, step(c)) && WithinBound(c, step(c));
    match step(c)
    case Halt(_) =>
    case Fault(_) =>
    case Next(c') =>
      CoderVisitsBounded(step, c');
      assert Run(step, c).trace == [c.node] + Run(step, c').trace;
  }

  /** Any walk whose steps keep the run ready ends at the finish point. */
  lemma {:induction false} RunCompletes(step: Stepper, c: Config)
    requires SoundEverywhere(step) && ReadyEverywhere(step) && Ready(c)
    decreases Phase(c.node), Budget(c.state), Rank(c.node)
    ensures Run(step, c).Finished?
  {
    assert Sound(c, step(c)) && KeepsReady(c, step(c));
    match step(c)
    case Halt(_) =>
    case Next(c') =>
      RunCompletes(step, c');
  }

  /** The invocation of the script: the coder runs at most three times whatever the oracles
      do, and with reliable oracles the run reaches `alert`. */
  lemma InvocationIsBounded(env: Env, task: string, keyword: string)
    ensures multiset(Invoke(env, Start(task, keyword)).trace)[CoderStage] <= RETRY_CEILING
    ensures Reliable(env) ==> Invoke(env, Start(task, keyword)).Finished?
  {
    PipelineFacts(env);
    CoderVisitsBounded(Pipeline(env), Start(task, keyword));
    if Reliable(env) {
      RunCompletes(Pipeline(env), Start(task, keyword));
    }
  }

  /** No pytest run passes, whatever code it is given: each exits with a non-zero code or
      raises. */
  ghost predicate TestsNeverPass(env: Env) {
    forall i: nat, code: string :: !(env.pytest(i, code).Exited? && env.pytest(i, code).returnCode == 0)
  }

  /** Every pytest run passes and every review, once stripped, is a rejection. */
  ghost predicate ReviewsAlwaysReject(env: Env) {
    && (forall i: nat, code: string :: env.pytest(i, code).Exited? && env.pytest(i, code).returnCode == 0)
    && (forall i: nat, code: string :: env.reviewerModel(i, code).Ok? && IsRejection(Strip(env.reviewerModel(i, code).value)))
  }

  /** The nodes executed from `n` with `k` failures counted when every test fails. */
  function FailTrace(n: Node, k: int): seq<Node>
    decreases Phase(n), if k < RETRY_CEILING then RETRY_CEILING - k else 0, Rank(n)
  {
    match n
    case QueryStage => [QueryStage] + FailTrace(ParserStage, k)
    case ParserStage => [ParserStage] + FailTrace(CoderStage, k)
    case CoderStage => [CoderStage] + FailTrace(EvaluatorStage, k)
    case EvaluatorStage =>
      [EvaluatorStage] + (if k + 1 < RETRY_CEILING then FailTrace(CoderStage, k + 1)
                          else FailTrace(ReviewerStage, k + 1))
    case ReviewerStage => [ReviewerStage] + FailTrace(MetricStage, k + 1)
    case MetricStage => [MetricStage, AlertStage]
    case AlertStage => [AlertStage]
  }

  /** What holds at each point of a run whose tests always fail: below the ceiling until the
      third failure, then the reviewer sees the failed verdict, then four failures and the
      override. */
  predicate FailInvariant(c: Config) {
    var s := c.state;
    match c.node
    case QueryStage => s.keyword.Some? && 0 <= Retries(s) < RETRY_CEILING
    case ParserStage => s.article.Some? && 0 <= Retries(s) < RETRY_CEILING
    case CoderStage => 0 <= Retries(s) < RETRY_CEILING
    case EvaluatorStage => s.code.Some? && 0 <= Retries(s) < RETRY_CEILING
    case ReviewerStage => s.code.Some? && s.testPassed == Some(false) && Retries(s) == RETRY_CEILING
    case MetricStage | AlertStage => s.retries == Some(RETRY_CEILING + 1) && s.review == Some(FORCE_MERGE)
  }

  /** The step from `c` when tests always fail: the invariant and the trace carry over, and
      the final stage keeps the bookkeeping. */
  predicate FailStepOk(c: Config, r: StepResult) {
    if c.node == FINISH then
      r.Halt? && r.final.retries == c.state.retries && r.final.review == c.state.review
    else
      && r.Next?
      && FailInvariant(r.next)
      && FailTrace(c.node, Retries(c.state)) == [c.node] + FailTrace(r.next.node, Retries(r.next.state))
  }

  ghost predicate FailsEverywhere(step: Stepper) {
    forall c: Config :: FailInvariant(c) ==> FailStepOk(c, step(c))
  }

  /** Any walk whose steps behave as failing tests make them runs the loop out. */
  lemma {:induction false} FailRun(step: Stepper, c: Config)
    requires SoundEverywhere(step) && FailsEverywhere(step) && FailInvariant(c)
    decreases Phase(c.node), Budget(c.state), Rank(c.node)
    ensures var r := Run(step, c);
            && r.Finished?
            && r.trace == FailTrace(c.node, Retries(c.state))
            && r.final.retries == Some(RETRY_CEILING + 1)
            && r.final.review == Some(FORCE_MERGE)
  {
    assert Sound(c, step(c)) && FailStepOk(c, step(c));
    if c.node != FINISH {
      var c' := step(c).next;
      FailRun(step, c');
      assert Run(step, c).trace == [c.node] + Run(step, c').trace;
    }
  }

  lemma FailQuery(env: Env, s: State, calls: Calls)
    requires ReliableBesidesReviewer(env) && FailInvariant(Config(QueryStage, s, calls))
    ensures FailStepOk(Config(QueryStage, s, calls), QueryStep(env, s, calls))
  {
    assert env.search(s.keyword.value).Ok?;
  }

  lemma FailParser(s: State, calls: Calls)
    requires FailInvariant(Config(ParserStage, s, calls))
    ensures FailStepOk(Config(ParserStage, s, calls), ParserStep(s, calls))
  {
    var r := ParserStep(s, calls);
    assert r.Next? && r.next.node == CoderStage && Retries(r.next.state) == Retries(s);
  }

  lemma FailCoder(env: Env, s: State, calls: Calls)
    requires ReliableBesidesReviewer(env) && FailInvariant(Config(CoderStage, s, calls))
    ensures FailStepOk(Config(CoderStage, s, calls), CoderStep(env, s, calls))
  {
    assert env.coderModel(calls.coder, s).Ok?;
    var r := CoderStep(env, s, calls);
    assert r.Next? && r.next.node == EvaluatorStage && r.next.state.code.Some?;
    assert Retries(r.next.state) == Retries(s);
  }

  /** A failed test counts one more failure; the third goes to the reviewer. */
  lemma FailEvaluator(env: Env, s: State, calls: Calls)
    requires TestsNeverPass(env) && FailInvariant(Config(EvaluatorStage, s, calls))
    ensures FailStepOk(Config(EvaluatorStage, s, calls), Next(EvaluatorStep(env, s, calls)))
  {
    var run := env.pytest(calls.evaluator, s.code.GetOr(""));
    assert !(run.Exited? && run.returnCode == 0);
    var s' := Evaluator.Evaluated(s, run);
    assert s'.testPassed == Some(false) && Retries(s') == Retries(s) + 1;
    var c' := EvaluatorStep(env, s, calls);
    assert c' == Config(RouteFromEvaluator(s'), s', calls.(evaluator := calls.evaluator + 1));
    if Retries(s) + 1 < RETRY_CEILING {
      assert c'.node == CoderStage;
    } else {
      assert c'.node == ReviewerStage && s'.review == Some(FORCE_MERGE);
    }
  }

  /** After failed tests the reviewer counts a fourth failure and keeps the override. */
  lemma FailReviewer(env: Env, s: State, calls: Calls)
    requires FailInvariant(Config(ReviewerStage, s, calls))
    ensures FailStepOk(Config(ReviewerStage, s, calls), ReviewerStep(env, s, calls))
  {
    var reply := env.reviewerModel(calls.reviewer, s.code.GetOr(""));
    var s' := Reviewer.Reviewed(s, reply).value;
    assert s'.retries == Some(RETRY_CEILING + 1) && s'.review == Some(FORCE_MERGE);
    assert !IsRejection(FORCE_MERGE) by { assert FORCE_MERGE[0] != REJECTED[0]; }
  }

  /** Tests that always fail make the pipeline's steps behave as `FailRun` asks. */
  lemma PipelineFails(env: Env)
    requires ReliableBesidesReviewer(env) && TestsNeverPass(env)
    ensures FailsEverywhere(Pipeline(env))
  {
    forall c: Config | FailInvariant(c) ensures FailStepOk(c, Pipeline(env)(c)) {
      match c.node
      case QueryStage => FailQuery(env, c.state, c.calls);
      case ParserStage => FailParser(c.state, c.calls);
      case CoderStage => FailCoder(env, c.state, c.calls);
      case EvaluatorStage => FailEvaluator(env, c.state, c.calls);
      case ReviewerStage => FailReviewer(env, c.state, c.calls);
      case MetricStage =>
      case AlertStage =>
    }
  }

  /** The script's invocation with tests that always fail: three coder attempts, then the
      reviewer counts a fourth failure under the override, and the job is reported. */
  lemma AlwaysFailingTests(env: Env, task: string, keyword: string)
    requires ReliableBesidesReviewer(env) && TestsNeverPass(env)
    ensures var r := Invoke(env, Start(task, keyword));
            && r.Finished?
            && r.trace == [QueryStage, ParserStage, CoderStage, EvaluatorStage, CoderStage,
                           EvaluatorStage, CoderStage, EvaluatorStage, ReviewerStage,
                           MetricStage, AlertStage]
            && r.final.retries == Some(4)
            && r.final.review == Some(FORCE_MERGE)
  {
    var c := Start(task, keyword);
    assert FailInvariant(c) && Retries(c.state) == 0;
    PipelineFacts(env);
    PipelineFails(env);
    FailRun(Pipeline(env), c);
    FailTraceFromEntry();
  }

  /** The failing run's trace from the entry point, written out. */
  lemma FailTraceFromEntry()
    ensures FailTrace(QueryStage, 0)
         == [QueryStage, ParserStage, CoderStage, EvaluatorStage, CoderStage, EvaluatorStage,
             CoderStage, EvaluatorStage, ReviewerStage, MetricStage, AlertStage]
  {
  }

  /** The nodes executed from `n` with `k` rejections counted when tests pass and every review
      rejects. */
  function RejectTrace(n: Node, k: int): seq<Node>
    decreases Phase(n), if k < RETRY_CEILING then RETRY_CEILING - k else 0, Rank(n)
  {
    match n
    case QueryStage => [QueryStage] + RejectTrace(ParserStage, k)
    case ParserStage => [ParserStage] + RejectTrace(CoderStage, k)
    case CoderStage => [CoderStage] + RejectTrace(EvaluatorStage, k)
    case EvaluatorStage => [EvaluatorStage] + RejectTrace(ReviewerStage, k)
    case ReviewerStage =>
      [ReviewerStage] + (if k + 1 < RETRY_CEILING then RejectTrace(CoderStage, k + 1)
                         else RejectTrace(MetricStage, k + 1))
    case MetricStage => [MetricStage, AlertStage]
    case AlertStage => [AlertStage]
  }

  /** What holds at each point of a run whose tests pass and whose reviews all reject. */
  predicate RejectInvariant(c: Config) {
    var s := c.state;
    match c.node
    case QueryStage => s.keyword.Some? && 0 <= Retries(s) < RETRY_CEILING
    case ParserStage => s.article.Some? && 0 <= Retries(s) < RETRY_CEILING
    case CoderStage => 0 <= Retries(s) < RETRY_CEILING
    case EvaluatorStage => s.code.Some? && 0 <= Retries(s) < RETRY_CEILING
    case ReviewerStage => s.code.Some? && s.testPassed == Some(true) && 0 <= Retries(s) < RETRY_CEILING
    case MetricStage | AlertStage => s.retries == Some(RETRY_CEILING) && s.review == Some(FORCE_MERGE)
  }

  /** The step from `c` when tests pass and reviews reject. */
  predicate RejectStepOk(c: Config, r: StepResult) {
    if c.node == FINISH then
      r.Halt? && r.final.retries == c.state.retries && r.final.review == c.state.review
    else
      && r.Next?
      && RejectInvariant(r.next)
      && RejectTrace(c.node, Retries(c.state)) == [c.node] + RejectTrace(r.next.node, Retries(r.next.state))
  }

  ghost predicate RejectsEverywhere(step: Stepper) {
    forall c: Config :: RejectInvariant(c) ==> RejectStepOk(c, step(c))
  }

  /** Any walk whose steps behave as passing tests and rejecting reviews make them runs the
      loop out. */
  lemma {:induction false} RejectRun(step: Stepper, c: Config)
    requires SoundEverywhere(step) && RejectsEverywhere(step) && RejectInvariant(c)
    decreases Phase(c.node), Budget(c.state), Rank(c.node)
    ensures var r := Run(step, c);
            && r.Finished?
            && r.trace == RejectTrace(c.node, Retries(c.state))
            && r.final.retries == Some(RETRY_CEILING)
            && r.final.review == Some(FORCE_MERGE)
  {
    assert Sound(c, step(c)) && RejectStepOk(c, step(c));
    if c.node != FINISH {
      var c' := step(c).next;
      RejectRun(step, c');
      assert Run(step, c).trace == [c.node] + Run(step, c').trace;
    }
  }

  lemma RejectQuery(env: Env, s: State, calls: Calls)
    requires Reliable(env) && RejectInvariant(Config(QueryStage, s, calls))
    ensures RejectStepOk(Config(QueryStage, s, calls), QueryStep(env, s, calls))
  {
    assert env.search(s.keyword.value).Ok?;
  }

  lemma RejectParser(s: State, calls: Calls)
    requires RejectInvariant(Config(ParserStage, s, calls))
    ensures RejectStepOk(Config(ParserStage, s, calls), ParserStep(s, calls))
  {
    var r := ParserStep(s, calls);
    assert r.Next? && r.next.node == CoderStage && Retries(r.next.state) == Retries(s);
  }

  lemma RejectCoder(env: Env, s: State, calls: Calls)
    requires Reliable(env) && RejectInvariant(Config(CoderStage, s, calls))
    ensures RejectStepOk(Config(CoderStage, s, calls), CoderStep(env, s, calls))
  {
    assert env.coderModel(calls.coder, s).Ok?;
    var r := CoderStep(env, s, calls);
    assert r.Next? && r.next.node == EvaluatorStage && r.next.state.code.Some?;
    assert Retries(r.next.state) == Retries(s);
  }

  /** A passing test leaves the count alone and goes to review. */
  lemma RejectEvaluator(env: Env, s: State, calls: Calls)
    requires ReviewsAlwaysReject(env) && RejectInvariant(Config(EvaluatorStage, s, calls))
    ensures RejectStepOk(Config(EvaluatorStage, s, calls), Next(EvaluatorStep(env, s, calls)))
  {
    var run := env.pytest(calls.evaluator, s.code.GetOr(""));
    assert run.Exited? && run.returnCode == 0;
    var s' := Evaluator.Evaluated(s, run);
    assert s'.testPassed == Some(true) && Retries(s') == Retries(s);
  }

  /** A rejection counts one more failure; the third becomes the override. */
  lemma RejectReviewer(env: Env, s: State, calls: Calls)
    requires RejectInvariant(Config(ReviewerStage, s, calls))
    requires var reply := env.reviewerModel(calls.reviewer, s.code.GetOr(""));
             reply.Ok? && IsRejection(Strip(reply.value))
    ensures RejectStepOk(Config(ReviewerStage, s, calls), ReviewerStep(env, s, calls))
  {
    ReviewerCountsRejection(env, s, calls);
    RejectionStepOk(Config(ReviewerStage, s, calls), ReviewerStep(env, s, calls));
  }

  /** The reviewer step on a rejecting reply, below the ceiling. */
  lemma ReviewerCountsRejection(env: Env, s: State, calls: Calls)
    requires 0 <= Retries(s) < RETRY_CEILING && s.code.Some? && s.testPassed == Some(true)
    requires var reply := env.reviewerModel(calls.reviewer, s.code.GetOr(""));
             reply.Ok? && IsRejection(Strip(reply.value))
    ensures var r := ReviewerStep(env, s, calls);
            && r.Next?
            && r.next.node == (if Retries(s) + 1 < RETRY_CEILING then CoderStage else MetricStage)
            && Retries(r.next.state) == Retries(s) + 1
            && (Retries(s) + 1 == RETRY_CEILING ==>
                  r.next.state.retries == Some(RETRY_CEILING) && r.next.state.review == Some(FORCE_MERGE))
  {
    var reply := env.reviewerModel(calls.reviewer, s.code.GetOr(""));
    var s' := CountFailure(s.(review := Some(Strip(reply.value))));
    assert Reviewer.Reviewed(s, reply) == Ok(s');
    if Retries(s) + 1 < RETRY_CEILING {
      RejectionSendsBack(s, Strip(reply.value));
    } else {
      RejectionOverridden(s, Strip(reply.value));
    }
  }

  /** The reviewer's step as `RejectRun` asks, from where it goes and what it counts. */
  lemma RejectionStepOk(c: Config, r: StepResult)
    requires c.node == ReviewerStage && 0 <= Retries(c.state) < RETRY_CEILING
    requires r.Next? && Retries(r.next.state) == Retries(c.state) + 1
    requires r.next.node == if Retries(c.state) + 1 < RETRY_CEILING then CoderStage else MetricStage
    requires Retries(c.state) + 1 == RETRY_CEILING ==>
               r.next.state.retries == Some(RETRY_CEILING) && r.next.state.review == Some(FORCE_MERGE)
    ensures RejectStepOk(c, r)
  {
  }

  /** A rejection below the ceiling is kept and sends the code back. */
  lemma RejectionSendsBack(s: State, verdict: string)
    requires IsRejection(verdict) && 0 <= Retries(s) && Retries(s) + 1 < RETRY_CEILING
    ensures var s' := CountFailure(s.(review := Some(verdict)));
            && Retries(s') == Retries(s) + 1
            && RouteFromReviewer(s') == CoderStage
  {
  }

  /** The rejection that reaches the ceiling becomes the override and goes on to the metrics. */
  lemma RejectionOverridden(s: State, verdict: string)
    requires Retries(s) + 1 == RETRY_CEILING
    ensures var s' := CountFailure(s.(review := Some(verdict)));
            && s'.retries == Some(RETRY_CEILING) && s'.review == Some(FORCE_MERGE)
            && RouteFromReviewer(s') == MetricStage
  {
    assert !IsRejection(FORCE_MERGE) by { assert FORCE_MERGE[0] != REJECTED[0]; }
  }

  /** Passing tests and rejecting reviews make the pipeline's steps behave as `RejectRun`
      asks. */
  lemma PipelineRejects(env: Env)
    requires Reliable(env) && ReviewsAlwaysReject(env)
    ensures RejectsEverywhere(Pipeline(env))
  {
    forall c: Config | RejectInvariant(c) ensures RejectStepOk(c, Pipeline(env)(c)) {
      match c.node
      case QueryStage => RejectQuery(env, c.state, c.calls);
      case ParserStage => RejectParser(c.state, c.calls);
      case CoderStage => RejectCoder(env, c.state, c.calls);
      case EvaluatorStage => RejectEvaluator(env, c.state, c.calls);
      case ReviewerStage =>
        assert env.reviewerModel(c.calls.reviewer, c.state.code.GetOr("")).Ok?;
        RejectReviewer(env, c.state, c.calls);
      case MetricStage =>
      case AlertStage =>
    }
  }

  /** The script's invocation with passing tests and a reviewer that always rejects: the third
      rejection is overridden with three failures counted, and the job is reported. */
  lemma AlwaysRejectingReviews(env: Env, task: string, keyword: string)
    requires Reliable(env) && ReviewsAlwaysReject(env)
    ensures var r := Invoke(env, Start(task, keyword));
            && r.Finished?
            && r.trace == [QueryStage, ParserStage, CoderStage, EvaluatorStage, ReviewerStage,
                           CoderStage, EvaluatorStage, ReviewerStage, CoderStage, EvaluatorStage,
                           ReviewerStage, MetricStage, AlertStage]
            && r.final.retries == Some(3)
            && r.final.review == Some(FORCE_MERGE)
  {
    var c := Start(task, keyword);
    assert RejectInvariant(c) && Retries(c.state) == 0;
    PipelineFacts(env);
    PipelineRejects(env);
    RejectRun(Pipeline(env), c);
    RejectTraceFromEntry();
  }

  /** The rejected run's trace from the entry point, written out. */
  lemma RejectTraceFromEntry()
    ensures RejectTrace(QueryStage, 0)
         == [QueryStage, ParserStage, CoderStage, EvaluatorStage, ReviewerStage, CoderStage,
             EvaluatorStage, ReviewerStage, CoderStage, EvaluatorStage, ReviewerStage,
             MetricStage, AlertStage]
  {
  }
}
