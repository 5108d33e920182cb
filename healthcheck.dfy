/** The batch executor behind the container health check (healthcheck_server.py): the
    bookkeeping `run_batch` does for each outcome of the batch subprocess, the health score, the
    `/health` threshold and the single-flight guard of `/trigger`. The subprocess, the clock and
    the environment variable are inputs. */
module HealthCheck {
  import opened Common
  import opened Text

  /** `str(ValueError(...))` when the key is missing: the list of names is printed with `repr`. */
  const MISSING_ENV_ERROR := "Missing required environment variables: ['OPENAI_API_KEY']"
  const TIMEOUT_ERROR := "Process timeout after 300 seconds"
  /** How much of the batch's standard output a success reports. */
  const OUTPUT_TAIL := 1000
  /** The lowest score `/health` still calls healthy. */
  const HEALTHY_THRESHOLD := 0.3

  /** What `subprocess.run([... "orchestrator.main"], timeout=300)` did: the process exited, the
      timeout expired, or the call raised something else (`str(e)` is kept). */
  datatype ProcessOutcome =
    | Exited(returnCode: int, stdout: string, stderr: string)
    | TimedOut
    | Crashed(error: string)

  /** The dictionary `run_batch` returns, one constructor per `status`. */
  datatype BatchResult =
    | Success(duration: real, output: Option<string>)
    | Failed(duration: real, error: string, exitCode: int)
    | Timeout(duration: real, error: string)
    | Error(duration: real, error: string)

  /** The `status` string of a result, which is also what `last_status` records. */
  function StatusName(r: BatchResult): string {
    match r
    case Success(_, _) => "success"
    case Failed(_, _, _) => "failed"
    case Timeout(_, _) => "timeout"
    case Error(_, _) => "error"
  }

  /** The executor's fields as a value; `lastRun` is the clock reading of the last completed run. */
  datatype Executor = Executor(
    isRunning: bool, lastRun: Option<real>, lastStatus: Option<string>, lastError: Option<string>,
    runCount: nat, errorCount: nat, consecutiveErrors: nat)

  /** The executor `__init__` builds. */
  function Fresh(): Executor {
    Executor(false, None, None, None, 0, 0, 0)
  }

  /** `not os.getenv("OPENAI_API_KEY")`: unset or empty. */
  predicate KeyMissing(apiKey: Option<string>) {
    apiKey.GetOr("") == []
  }

  /** The subprocess was started and exited, with whatever code. */
  predicate Completes(apiKey: Option<string>, outcome: ProcessOutcome) {
    !KeyMissing(apiKey) && outcome.Exited?
  }

  /** The batch ran and exited with code 0. */
  predicate Succeeds(apiKey: Option<string>, outcome: ProcessOutcome) {
    Completes(apiKey, outcome) && outcome.returnCode == 0
  }

  datatype BatchStep = BatchStep(after: Executor, result: BatchResult)

  /** `run_batch` on the executor `e`, given the key, the subprocess outcome, the seconds it took
      and the clock when it ended. A run is counted only when the process exits; every outcome
      other than a success counts an error and extends the streak, and a success ends it. */
  function AfterBatch(e: Executor, apiKey: Option<string>, outcome: ProcessOutcome, elapsed: real,
                      now: real): (r: BatchStep)
    ensures !r.after.isRunning
    ensures r.result.Success? <==> Succeeds(apiKey, outcome)
    ensures r.after.runCount == e.runCount + (if Completes(apiKey, outcome) then 1 else 0)
    ensures r.after.errorCount == e.errorCount + (if Succeeds(apiKey, outcome) then 0 else 1)
    ensures r.after.consecutiveErrors == if Succeeds(apiKey, outcome) then 0 else e.consecutiveErrors + 1
    ensures e.consecutiveErrors <= e.errorCount ==> r.after.consecutiveErrors <= r.after.errorCount
    ensures r.after.lastRun == if Completes(apiKey, outcome) then Some(now) else e.lastRun
    ensures r.after.lastStatus == Some(StatusName(r.result))
    ensures r.result.Success? ==> r.after.lastError.None?
    ensures !r.result.Success? ==> r.after.lastError == Some(r.result.error)
    ensures KeyMissing(apiKey) ==> r.result == Error(elapsed, MISSING_ENV_ERROR)
    ensures r.result.Failed? ==> r.result.exitCode != 0 && r.result.error != []
    ensures Completes(apiKey, outcome) && outcome.returnCode != 0 ==>
              var code := outcome.returnCode;
              && r.result == Failed(elapsed, if outcome.stderr != [] then outcome.stderr
                                             else "Exit code: " + IntToString(code), code)
              && r.after.lastError == Some(r.result.error)
    ensures !KeyMissing(apiKey) && outcome.TimedOut? ==>
              r.result == Timeout(elapsed, TIMEOUT_ERROR) && r.after.lastStatus == Some("timeout")
    ensures !KeyMissing(apiKey) && outcome.Crashed? ==>
              r.result == Error(elapsed, outcome.error) && r.after.lastError == Some(outcome.error)
    ensures r.result.Success? ==> (r.result.output.Some? <==> outcome.stdout != [])
    ensures r.result.Success? && r.result.output.Some? ==>
              var out := r.result.output.value;
              && out != [] && |out| == (if |outcome.stdout| <= OUTPUT_TAIL then |outcome.stdout| else OUTPUT_TAIL)
              && out == outcome.stdout[|outcome.stdout| - |out|..]
    ensures r.result.duration == elapsed
  {
    var e := e.(isRunning := false);
    if KeyMissing(apiKey) then
      BatchStep(e.(lastStatus := Some("error"), lastError := Some(MISSING_ENV_ERROR),
                   errorCount := e.errorCount + 1, consecutiveErrors := e.consecutiveErrors + 1),
                Error(elapsed, MISSING_ENV_ERROR))
    else
      match outcome
      case TimedOut =>
        BatchStep(e.(lastStatus := Some("timeout"), lastError := Some(TIMEOUT_ERROR),
                     errorCount := e.errorCount + 1, consecutiveErrors := e.consecutiveErrors + 1),
                  Timeout(elapsed, TIMEOUT_ERROR))
      case Crashed(msg) =>
        BatchStep(e.(lastStatus := Some("error"), lastError := Some(msg),
                     errorCount := e.errorCount + 1, consecutiveErrors := e.consecutiveErrors + 1),
                  Error(elapsed, msg))
      case Exited(code, stdout, stderr) =>
        var ran := e.(lastRun := Some(now), runCount := e.runCount + 1);
        if code == 0 then
          var output := if stdout == [] then None else Some(TakeLast(stdout, OUTPUT_TAIL));
          BatchStep(ran.(lastStatus := Some("success"), lastError := None, consecutiveErrors := 0),
                    Success(elapsed, output))
        else
          var error := if stderr != [] then stderr else "Exit code: " + IntToString(code);
          BatchStep(ran.(lastStatus := Some("failed"), lastError := Some(error),
                         errorCount := e.errorCount + 1, consecutiveErrors := e.consecutiveErrors + 1),
                    Failed(elapsed, error, code))
  }

  /** `min(consecutive_errors * 0.2, 0.8)` */
  function Penalty(consecutiveErrors: nat): (p: real)
    ensures 0.0 <= p <= 0.8
    ensures consecutiveErrors >= 4 ==> p == 0.8
  {
    var p := consecutiveErrors as real * 0.2;
    if p <= 0.8 then p else 0.8
  }

  /** `_calculate_health_score`: 1.0 before any completed run, otherwise one minus the error
      rate and the streak penalty, floored at 0. The error rate can exceed 1, because timeouts
      and exceptions count errors without counting runs. */
  function HealthScore(e: Executor): (h: real)
    ensures 0.0 <= h <= 1.0
    ensures e.runCount == 0 ==> h == 1.0
    ensures e.runCount > 0 ==> h >= 1.0 - e.errorCount as real / e.runCount as real - Penalty(e.consecutiveErrors)
    ensures e.errorCount == 0 && e.consecutiveErrors == 0 ==> h == 1.0
    ensures e.runCount > 0 && e.consecutiveErrors >= 4 ==> h < HEALTHY_THRESHOLD
  {
    if e.runCount == 0 then 1.0
    else
      var errorRate := e.errorCount as real / e.runCount as real;
      assert errorRate >= 0.0;
      var score := 1.0 - errorRate - Penalty(e.consecutiveErrors);
      if score <= 0.0 then 0.0 else score
  }

  /** The body of the `/health` reply that depends on the executor. */
  datatype HealthReply = HealthReply(status: string, healthScore: real)

  /** `health_check`: healthy exactly when the score reaches the threshold. */
  function HealthCheck(e: Executor): (r: HealthReply)
    ensures r.healthScore == HealthScore(e)
    ensures r.status == "healthy" <==> HealthScore(e) >= HEALTHY_THRESHOLD
    ensures r.status != "healthy" ==> r.status == "unhealthy"
    ensures e.runCount == 0 ==> r.status == "healthy"
    ensures e.runCount > 0 && e.consecutiveErrors >= 4 ==> r.status == "unhealthy"
  {
    var score := HealthScore(e);
    HealthReply(if score >= HEALTHY_THRESHOLD then "healthy" else "unhealthy", score)
  }

  /** Cross-multiplication: `p / q <= r / s` when `p * s <= r * q` and both divisors are positive. */
  lemma DivLe(p: real, q: real, r: real, s: real)
    requires q > 0.0 && s > 0.0 && p * s <= r * q
    ensures p / q <= r / s
  {
    var x, y := p / q, r / s;
    assert p == x * q && r == y * s;
    assert p * s == x * (q * s) && r * q == y * (q * s);
  }

  /** A rate above one: `p / q > 1` when `p > q > 0`. */
  lemma DivAboveOne(p: real, q: real)
    requires 0.0 < q < p
    ensures p / q > 1.0
  {
    var x := p / q;
    assert p == x * q;
  }

  /** A batch that does not succeed never raises the health score. */
  lemma FailureNeverRaisesScore(e: Executor, apiKey: Option<string>, outcome: ProcessOutcome,
                                elapsed: real, now: real)
    requires !Succeeds(apiKey, outcome)
    ensures HealthScore(AfterBatch(e, apiKey, outcome, elapsed, now).after) <= HealthScore(e)
  {
    var e' := AfterBatch(e, apiKey, outcome, elapsed, now).after;
    if e.runCount > 0 {
      var k, r := e.errorCount as real, e.runCount as real;
      var k', r' := e'.errorCount as real, e'.runCount as real;
      assert e'.consecutiveErrors == e.consecutiveErrors + 1;
      assert Penalty(e'.consecutiveErrors) >= Penalty(e.consecutiveErrors);
      if e'.runCount == e.runCount {
        assert k * r <= k' * r;
        DivLe(k, r, k', r');
      } else if e.errorCount <= e.runCount {
        assert k * r' <= k' * r;
        DivLe(k, r, k', r');
      } else {
        DivAboveOne(k, r);
        DivAboveOne(k', r');
      }
    }
  }

  /** A successful batch never lowers the health score, unless no run has been counted yet while
      errors have: then the first success divides those errors by one. */
  lemma SuccessNeverLowersScore(e: Executor, apiKey: Option<string>, outcome: ProcessOutcome,
                                elapsed: real, now: real)
    requires Succeeds(apiKey, outcome)
    requires e.runCount > 0 || e.errorCount == 0
    ensures HealthScore(AfterBatch(e, apiKey, outcome, elapsed, now).after) >= HealthScore(e)
  {
    var e' := AfterBatch(e, apiKey, outcome, elapsed, now).after;
    if e.runCount > 0 {
      var k, r := e.errorCount as real, e.runCount as real;
      assert k * r <= k * (r + 1.0);
      DivLe(k, r + 1.0, k, r);
      assert Penalty(e'.consecutiveErrors) == 0.0;
    }
  }

  /** Three timeouts leave the service healthy, since no run is counted; the success that
      follows makes it unhealthy, with an error rate of three. */
  lemma SuccessAfterTimeoutsTurnsUnhealthy(now: real)
    ensures var e := RunAll(Fresh(), [BatchInput(Some("k"), TimedOut, 300.0, now),
                                      BatchInput(Some("k"), TimedOut, 300.0, now),
                                      BatchInput(Some("k"), TimedOut, 300.0, now)]);
            && HealthCheck(e).status == "healthy"
            && HealthCheck(AfterBatch(e, Some("k"), Exited(0, "", ""), 1.0, now).after).status
               == "unhealthy"
  {
    var b := BatchInput(Some("k"), TimedOut, 300.0, now);
    var e := RunAll(Fresh(), [b, b, b]);
    assert [b, b, b][..2] == [b, b] && [b, b][..1] == [b] && [b][..0] == [];
    assert RunAll(Fresh(), [b]).errorCount == 1;
    assert RunAll(Fresh(), [b, b]).errorCount == 2;
    assert e.runCount == 0 && e.errorCount == 3;
    var e' := AfterBatch(e, Some("k"), Exited(0, "", ""), 1.0, now).after;
    assert e'.runCount == 1 && e'.errorCount == 3;
  }

  /** The inputs of one `run_batch` call. */
  datatype BatchInput = BatchInput(apiKey: Option<string>, outcome: ProcessOutcome, elapsed: real,
                                   now: real)

  /** The executor after the batches, oldest first. */
  function RunAll(e: Executor, batches: seq<BatchInput>): Executor
    decreases |batches|
  {
    if batches == [] then e
    else
      var b := batches[|batches| - 1];
      AfterBatch(RunAll(e, batches[..|batches| - 1]), b.apiKey, b.outcome, b.elapsed, b.now).after
  }

  predicate Succeeded(b: BatchInput) {
    Succeeds(b.apiKey, b.outcome)
  }

  /** How many batches, counted back from the latest, failed since the last success. */
  function TrailingFailures(batches: seq<BatchInput>): nat
    decreases |batches|
  {
    if batches == [] || Succeeded(batches[|batches| - 1]) then 0
    else 1 + TrailingFailures(batches[..|batches| - 1])
  }

  /** How many batches did not succeed. */
  function Failures(batches: seq<BatchInput>): nat
    decreases |batches|
  {
    if batches == [] then 0
    else (if Succeeded(batches[|batches| - 1]) then 0 else 1) + Failures(batches[..|batches| - 1])
  }

  /** How many batches ran the subprocess to its exit. */
  function Completions(batches: seq<BatchInput>): nat
    decreases |batches|
  {
    if batches == [] then 0
    else
      var b := batches[|batches| - 1];
      (if Completes(b.apiKey, b.outcome) then 1 else 0) + Completions(batches[..|batches| - 1])
  }

  /** From a fresh executor the counters are exactly the history's: runs are completed
      subprocesses, errors are the batches that did not succeed, and the streak is the failures
      since the last success, so it never exceeds the error count. */
  lemma {:induction false} CountersFollowHistory(batches: seq<BatchInput>)
    decreases |batches|
    ensures var e := RunAll(Fresh(), batches);
            && e.runCount == Completions(batches)
            && e.errorCount == Failures(batches)
            && e.consecutiveErrors == TrailingFailures(batches)
            && e.consecutiveErrors <= e.errorCount
  {
    if batches != [] {
      var prefix := batches[..|batches| - 1];
      CountersFollowHistory(prefix);
    }
  }

  /** With the key never set no run is ever counted, so however many batches fail `/health`
      keeps reporting a healthy service. */
  lemma {:induction false} MissingKeyStaysHealthy(batches: seq<BatchInput>)
    requires forall i :: 0 <= i < |batches| ==> KeyMissing(batches[i].apiKey)
    decreases |batches|
    ensures RunAll(Fresh(), batches).runCount == 0
    ensures RunAll(Fresh(), batches).errorCount == |batches|
    ensures HealthCheck(RunAll(Fresh(), batches)).status == "healthy"
  {
    if batches != [] {
      var prefix := batches[..|batches| - 1];
      assert forall i :: 0 <= i < |prefix| ==> prefix[i] == batches[i];
      MissingKeyStaysHealthy(prefix);
    }
  }

  /** The reply of `/trigger`. */
  datatype TriggerReply = TriggerReply(status: string, message: string)

  /** `get_status`: the fields and the current score. */
  datatype StatusReport = StatusReport(executor: Executor, healthScore: real)

  class BatchExecutor {
    var isRunning: bool
    var lastRun: Option<real>
    var lastStatus: Option<string>
    var lastError: Option<string>
    var runCount: nat
    var errorCount: nat
    var consecutiveErrors: nat

    function Snapshot(): Executor
      reads this
    {
      Executor(isRunning, lastRun, lastStatus, lastError, runCount, errorCount, consecutiveErrors)
    }

    constructor ()
      ensures Snapshot() == Fresh()
    {
      isRunning := false;
      lastRun := None;
      lastStatus := None;
      lastError := None;
      runCount := 0;
      errorCount := 0;
      consecutiveErrors := 0;
    }

    /** `run_batch`: the flag is raised for the duration of the call and lowered in `finally`. */
    method RunBatch(apiKey: Option<string>, outcome: ProcessOutcome, elapsed: real, now: real)
      returns (result: BatchResult)
      modifies this
      ensures Snapshot() == AfterBatch(old(Snapshot()), apiKey, outcome, elapsed, now).after
      ensures result == AfterBatch(old(Snapshot()), apiKey, outcome, elapsed, now).result
    {
      isRunning := true;
      if apiKey.GetOr("") == [] {
        lastStatus := Some("error");
        lastError := Some(MISSING_ENV_ERROR);
        errorCount := errorCount + 1;
        consecutiveErrors := consecutiveErrors + 1;
        result := Error(elapsed, MISSING_ENV_ERROR);
      } else {
        match outcome
        case TimedOut =>
          lastStatus := Some("timeout");
          lastError := Some(TIMEOUT_ERROR);
          errorCount := errorCount + 1;
          consecutiveErrors := consecutiveErrors + 1;
          result := Timeout(elapsed, TIMEOUT_ERROR);
        case Crashed(msg) =>
          lastStatus := Some("error");
          lastError := Some(msg);
          errorCount := errorCount + 1;
          consecutiveErrors := consecutiveErrors + 1;
          result := Error(elapsed, msg);
        case Exited(code, stdout, stderr) =>
          lastRun := Some(now);
          runCount := runCount + 1;
          if code == 0 {
            lastStatus := Some("success");
            lastError := None;
            consecutiveErrors := 0;
            result := Success(elapsed, if stdout == [] then None else Some(TakeLast(stdout, OUTPUT_TAIL)));
          } else {
            lastStatus := Some("failed");
            lastError := Some(if stderr != [] then stderr else "Exit code: " + IntToString(code));
            errorCount := errorCount + 1;
            consecutiveErrors := consecutiveErrors + 1;
            result := Failed(elapsed, lastError.value, code);
          }
      }
      isRunning := false;
    }

    /** `get_status` */
    method GetStatus() returns (r: StatusReport)
      ensures r.executor == Snapshot()
      ensures 0.0 <= r.healthScore <= 1.0 && r.healthScore == HealthScore(Snapshot())
    {
      r := StatusReport(Snapshot(), HealthScore(Snapshot()));
    }
  }

  /** The part of the server the endpoints share: its executor. */
  class HealthCheckServer {
    const batchExecutor: BatchExecutor

    constructor ()
      ensures fresh(batchExecutor) && batchExecutor.Snapshot() == Fresh()
    {
      batchExecutor := new BatchExecutor();
    }

    /** `/health` */
    method HealthCheckEndpoint() returns (r: HealthReply)
      ensures r == HealthCheck(batchExecutor.Snapshot())
    {
      r := HealthCheck(batchExecutor.Snapshot());
    }

    /** `/trigger`: while a batch is running nothing is started; otherwise the batch runs (here to
        completion before the reply, where the server hands it to a worker thread). */
    method TriggerBatch(apiKey: Option<string>, outcome: ProcessOutcome, elapsed: real, now: real)
      returns (reply: TriggerReply)
      modifies batchExecutor
      ensures old(batchExecutor.isRunning) ==>
                reply == TriggerReply("already_running", "Batch is already running")
                && unchanged(batchExecutor)
      ensures !old(batchExecutor.isRunning) ==>
                reply == TriggerReply("started", "Batch execution started")
                && batchExecutor.Snapshot()
                   == AfterBatch(old(batchExecutor.Snapshot()), apiKey, outcome, elapsed, now).after
    {
      if batchExecutor.isRunning {
        return TriggerReply("already_running", "Batch is already running");
      }
      var _ := batchExecutor.RunBatch(apiKey, outcome, elapsed, now);
      reply := TriggerReply("started", "Batch execution started");
    }
  }
}
