/** The metrics stage (agents/metric.py): the token estimate, the `metrics` record and what is
    handed to the cost ledger. The ledger's pricing and files are not modelled: `finops` is what
    its calls produced, a daily report or the exception one of them raised. */
module Metric {
  import opened Common
  import opened PipelineState

  const DEFAULT_MODEL := "gpt-4o-mini"

  /** The per-agent token guesses derived from the lengths of `query` and `code`. */
  datatype TokenEstimate = TokenEstimate(
    queryTokens: int, codeTokens: int, parserTokens: int, coderInputTokens: int,
    coderOutputTokens: int, reviewerTokens: int, inputTokens: int, outputTokens: int,
    totalTokens: int)

  /** Four characters per token, rounded down, plus fixed allowances per agent. */
  function EstimateTokens(queryLength: nat, codeLength: nat): (e: TokenEstimate)
    ensures 4 * e.queryTokens <= queryLength < 4 * e.queryTokens + 4
    ensures 4 * e.codeTokens <= codeLength < 4 * e.codeTokens + 4
    ensures e.totalTokens == 2 * e.queryTokens + 2 * e.codeTokens + 1100
    ensures e.inputTokens + e.outputTokens == e.totalTokens
    ensures e.coderInputTokens + e.coderOutputTokens == e.queryTokens + 500 + e.codeTokens
    ensures e.parserTokens == e.queryTokens + 100 && e.reviewerTokens == e.codeTokens + 300
  {
    var q := queryLength / 4;
    var c := codeLength / 4;
    var parser := q + 100;
    var coderIn := q + 500;
    var reviewer := c + 300;
    var input := parser + coderIn + reviewer;
    var output := c + 200;
    TokenEstimate(q, c, parser, coderIn, c, reviewer, input, output, input + output)
  }

  /** The estimate for a state; absent `query` and `code` count as empty. */
  function StateEstimate(s: State): TokenEstimate {
    EstimateTokens(|s.query.GetOr("")|, |s.code.GetOr("")|)
  }

  /** What the cost-ledger calls produced. */
  datatype FinOpsOutcome =
    | DailyReport(totalCost: real, openaiCost: real, flyCost: real, dailyBudget: real)
    | FinOpsFailed(error: string)

  /** The node's inputs from outside the state: the two clock readings, the `OPENAI_MODEL`
      variable and the ledger's outcome. */
  datatype MetricInputs = MetricInputs(
    clockAtEntry: real, clockAtEnd: real, modelEnv: Option<string>, finops: FinOpsOutcome)

  /** One usage record the node asks the ledger to store. */
  datatype UsageRequest =
    | ModelUsage(agent: string, inputTokens: int, outputTokens: int, reviewReason: Option<string>)
    | MachineUsage(durationSeconds: real)

  /** `state.get("start_time", time.time())`, subtracted from a second clock reading. */
  function ExecutionTime(s: State, inputs: MetricInputs): real {
    inputs.clockAtEnd - s.startTime.GetOr(inputs.clockAtEntry)
  }

  /** The reviewer's usage is recorded only after retries or without a pass (`None` is not a
      pass); its reason says which. */
  function ReviewerUsage(retries: int, passed: Option<bool>, codeTokens: int): (u: Option<UsageRequest>)
    ensures u.Some? <==> retries > 0 || passed != Some(true)
    ensures u.Some? ==> u.value.ModelUsage? && u.value.agent == "reviewer"
    ensures u.Some? ==> u.value.reviewReason == Some(if retries > 0 then "retry" else "failure")
  {
    if retries > 0 || passed != Some(true) then
      Some(ModelUsage("reviewer", codeTokens + 200, 100,
                      Some(if retries > 0 then "retry" else "failure")))
    else None
  }

  /** Everything the node submits to the ledger, in order. */
  function UsageRequests(s: State, inputs: MetricInputs): (us: seq<UsageRequest>)
    ensures 3 <= |us| <= 4
    ensures us[0].ModelUsage? && us[0].agent == "parser" && us[1].ModelUsage? && us[1].agent == "coder"
    ensures us[|us| - 1] == MachineUsage(ExecutionTime(s, inputs))
    ensures |us| == 4 <==> Retries(s) > 0 || s.testPassed != Some(true)
  {
    var e := StateEstimate(s);
    var model := [ModelUsage("parser", e.parserTokens, 50, None),
                  ModelUsage("coder", e.coderInputTokens, e.coderOutputTokens, None)];
    var reviewer := match ReviewerUsage(Retries(s), s.testPassed, e.codeTokens)
      case Some(u) => [u]
      case None => [];
    model + reviewer + [MachineUsage(ExecutionTime(s, inputs))]
  }

  /** `metric_node`: only `metrics` is written. A ledger failure is caught: the record stays,
      with the error in place of the cost summary. */
  function Measured(s: State, inputs: MetricInputs): (r: State)
    ensures r.(metrics := s.metrics) == s
    ensures r.metrics.Some?
    ensures var m := r.metrics.value;
            && m.pass == s.testPassed
            && m.retries == Retries(s)
            && m.tokens == m.breakdown.inputTokens + m.breakdown.outputTokens
            && m.tokens == 2 * StateEstimate(s).queryTokens + 2 * StateEstimate(s).codeTokens + 1100
            && m.model == inputs.modelEnv.GetOr(DEFAULT_MODEL)
            && m.executionTime == ExecutionTime(s, inputs)
    ensures var m := r.metrics.value; var e := StateEstimate(s);
            && m.breakdown.parserTokens == e.queryTokens + 100
            && m.breakdown.coderTokens == e.queryTokens + 500 + e.codeTokens
            && m.breakdown.reviewerTokens == e.codeTokens + 300
            && m.breakdown.inputTokens == e.inputTokens && m.breakdown.outputTokens == e.outputTokens
    ensures var m := r.metrics.value;
            match inputs.finops
            case FinOpsFailed(e) => m.finopsError == Some(e) && m.costSummary.None? && !m.budgetAlert
            case DailyReport(total, _, _, budget) =>
              && m.finopsError.None?
              && m.costSummary == Some(CostSummary(total, inputs.finops.openaiCost,
                                                   inputs.finops.flyCost, budget - total))
              && (m.budgetAlert <==> total > budget * 0.8)
  {
    var e := StateEstimate(s);
    var base := Metrics(s.testPassed, Retries(s), e.totalTokens, inputs.modelEnv.GetOr(DEFAULT_MODEL),
                        ExecutionTime(s, inputs),
                        Breakdown(e.parserTokens, e.coderInputTokens + e.coderOutputTokens,
                                  e.reviewerTokens, e.inputTokens, e.outputTokens),
                        None, false, None);
    var m := match inputs.finops
      case FinOpsFailed(err) => base.(finopsError := Some(err))
      case DailyReport(total, openai, fly, budget) =>
        base.(costSummary := Some(CostSummary(total, openai, fly, budget - total)),
              budgetAlert := total > budget * 0.8);
    s.(metrics := Some(m))
  }

  /** The node as the source writes it: the record first, then the keys the ledger adds. */
  method MetricNode(s: State, inputs: MetricInputs) returns (r: State)
    ensures r == Measured(s, inputs)
  {
    var e := EstimateTokens(|s.query.GetOr("")|, |s.code.GetOr("")|);
    var metrics := Metrics(s.testPassed, s.retries.GetOr(0), e.totalTokens,
                           inputs.modelEnv.GetOr(DEFAULT_MODEL), ExecutionTime(s, inputs),
                           Breakdown(e.parserTokens, e.coderInputTokens + e.coderOutputTokens,
                                     e.reviewerTokens, e.inputTokens, e.outputTokens),
                           None, false, None);
    r := s.(metrics := Some(metrics));
    match inputs.finops {
      case DailyReport(total, openai, fly, budget) =>
        metrics := metrics.(costSummary := Some(CostSummary(total, openai, fly, budget - total)));
        if total > budget * 0.8 {
          metrics := metrics.(budgetAlert := true);
        }
      case FinOpsFailed(err) =>
        metrics := metrics.(finopsError := Some(err));
    }
    r := r.(metrics := Some(metrics));
  }
}
