/** The shared record every stage of the pipeline reads and writes (a Python `dict` in the
    original), with the retry bookkeeping the evaluator and the reviewer share. */
module PipelineState {
  import opened Common
  import opened Text

  /** The review literal that sends the job back to the coder. */
  const REJECTED := "REJECTED"
  /** The review literal that ends the retry loop with an override. */
  const FORCE_MERGE := "FORCE_MERGE"
  /** Failures allowed before the override takes effect. */
  const RETRY_CEILING := 3

  /** `state["metrics"]["breakdown"]` */
  datatype Breakdown = Breakdown(
    parserTokens: int, coderTokens: int, reviewerTokens: int, inputTokens: int, outputTokens: int)

  /** `state["metrics"]["cost_summary"]` */
  datatype CostSummary = CostSummary(
    totalCostToday: real, openaiCostToday: real, flyCostToday: real, budgetRemaining: real)

  /** `state["metrics"]`; `budgetAlert` stands for the presence of the `budget_alert: True` key. */
  datatype Metrics = Metrics(
    pass: Option<bool>, retries: int, tokens: int, model: string, executionTime: real,
    breakdown: Breakdown, costSummary: Option<CostSummary>, budgetAlert: bool,
    finopsError: Option<string>)

  /** What `alert_slack` returns: `{"success": True, "status_code": ...}` or `{"error": ...}`. */
  datatype SlackResult = SlackSent(statusCode: int) | SlackError(error: string)

  /** The keys of the workflow dictionary that the pipeline reads or writes; `None` is an
      absent key. */
  datatype State = State(
    keyword: Option<string>, task: Option<string>, jobId: Option<string>, query: Option<string>,
    article: Option<string>, context: Option<string>, code: Option<string>,
    testPassed: Option<bool>, testDetails: Option<string>,
    retries: Option<int>, review: Option<string>,
    startTime: Option<real>, metrics: Option<Metrics>,
    alertSent: Option<bool>, alertResult: Option<SlackResult>)

  /** The dictionary `app.invoke` is called with: only `keyword` and `task`. */
  function Initial(task: string, keyword: string): (s: State)
    ensures s.retries.None? && s.review.None? && s.testPassed.None? && s.code.None?
  {
    State(Some(keyword), Some(task), None, None, None, None, None, None, None,
          None, None, None, None, None, None)
  }

  /** `state.get("retries", 0)` */
  function Retries(s: State): int {
    s.retries.GetOr(0)
  }

  /** `state.get("review", "")` */
  function Review(s: State): string {
    s.review.GetOr("")
  }

  /** `review.startswith("REJECTED")` */
  predicate IsRejection(review: string) {
    StartsWith(review, REJECTED)
  }

  /** The failure bookkeeping both the evaluator and the reviewer perform: count one more
      failure (absent counts as 0) and switch the review to the override once the count
      reaches the ceiling. */
  function CountFailure(s: State): (r: State)
    ensures r.retries == Some(Retries(s) + 1)
    ensures r.review == if Retries(s) + 1 >= RETRY_CEILING then Some(FORCE_MERGE) else s.review
    ensures r.(retries := s.retries, review := s.review) == s
    ensures IsRejection(Review(r)) ==> Retries(r) < RETRY_CEILING && IsRejection(Review(s))
  {
    assert !IsRejection(FORCE_MERGE) by { assert FORCE_MERGE[0] != REJECTED[0]; }
    var n := Retries(s) + 1;
    var counted := s.(retries := Some(n));
    if n >= RETRY_CEILING then counted.(review := Some(FORCE_MERGE)) else counted
  }
}
