# ai-stack pipeline core in Dafny

This project models the control core of ai-stack. ai-stack is a LangGraph pipeline that:

- searches the web for a keyword;
- cleans the article it finds;
- asks a language model for a FizzBuzz implementation;
- runs pytest against that implementation;
- asks a second model to review it;
- records metrics and posts a Slack alert.

The model covers three parts of that system, and proves properties about each.

**The pipeline.** The model covers:

- the shared workflow dictionary (`PipelineState.State`, one `Option` per key);
- every stage node as a function of that state:
  - query (`Orchestrator.QueryNode`);
  - parser (`Parser`);
  - coder (`Coder`);
  - evaluator (`Evaluator`);
  - reviewer (`Reviewer`);
  - metric (`Metric`);
  - alert (`Alert`);
- the graph of orchestrator/main.py: its edge table, its two routers, and a walker (`Orchestrator.Run`) that executes stages from the entry point until the finish point.

The evaluator, reviewer and metric nodes update the dictionary key by key. Each of them also has a `method` that does the same updates one at a time, and that method is proved equal to its function.

Anything a stage gets from outside the process is an input, collected in `Orchestrator.Env`:

- the search result;
- the two model replies;
- the pytest outcome;
- the clock;
- the cost ledger;
- the conversion of the `CURRENT_TIME` variable;
- the Slack POST.

The headline results are these:

- `Orchestrator.InvocationIsBounded`: whatever those inputs are, the script's invocation enters the coder at most three times, and with oracles that do not raise it always reaches `alert`.
- `Orchestrator.AlwaysFailingTests` and `Orchestrator.AlwaysRejectingReviews` give the exact traces and final counters of the two exhaustion scenarios.

**The health-check server's batch executor.** `HealthCheck.BatchExecutor` is a class whose `RunBatch` updates its counters in place, one branch per outcome of the batch subprocess. The model also covers:

- the health score;
- the `/health` threshold;
- the single-flight guard of `/trigger`.

**The monitoring collector and the error-tracking event filter.**

- `Monitoring.MetricsCollector` has `record_batch_end` and `get_metrics`, with the error history bounded to its latest hundred entries.
- `Sentry.BeforeSendFilter` redacts secret-looking keys and drops health-check access logs. It is a loop over the `extra` keys, proved equal to a map comprehension.

Python's string behaviour that these rely on (`strip`, `\s`, `startswith`, `in`, slicing, `lower`, `str(int)`) is in `Text`.

The code and the system's documented behaviour disagree in two places. The model follows the code in both:

- **Four failures, not three.** The documented scenario has tests that always fail ending with `retries == 3`. In the code, the evaluator counts three failures. The router then sends the job to the reviewer, and the reviewer's test-failed branch (agents/reviewer.py:21-25) counts a fourth. So the run ends with `retries == 4` and `review == "FORCE_MERGE"` (`Orchestrator.AlwaysFailingTests`).
- **The evaluator router checks the ceiling.** It is documented as inspecting only `test_passed` at the evaluator exit. The code's router also checks `retries < 3` (orchestrator/main.py:21), so a third failure goes to the reviewer rather than back to the coder.

Two behaviours of the health score follow from the code as written, and the model proves both:

- **Timeouts and exceptions count errors without counting runs.**
  - `HealthCheck.SuccessAfterTimeoutsTurnsUnhealthy`: three timeouts leave the service healthy, and the success that follows makes it unhealthy.
  - `HealthCheck.MissingKeyStaysHealthy`: from a fresh executor, batches that all lack the API key count only errors and no runs, so `/health` keeps reporting healthy however many there are. A missing key after counted runs can still lower the score.
- **A success can lower the score.** `HealthCheck.SuccessNeverLowersScore` states that a success never lowers the score, but only when a run has been counted or no error has. The timeout example above shows why that condition is needed.

## Model

| member | source | states |
|---|---|---|
| PipelineState.Initial | orchestrator/main.py:64-70 | the invoked dictionary holds only `keyword` and `task`: no counter, review, verdict or code yet |
| PipelineState.CountFailure | agents/evaluator.py:61-64 | one more failure is counted (absent counts as 0); the review becomes `FORCE_MERGE` exactly when the new count reaches 3, otherwise it is kept; no other key changes; a rejection survives only below the ceiling |
| Text.LStrip | agents/evaluator.py:12 | the result is the suffix left after only whitespace is dropped, and it does not start with whitespace |
| Text.RStrip | agents/evaluator.py:12 | the result is the prefix left after only whitespace is dropped, and it does not end with whitespace |
| Text.Strip | agents/reviewer.py:40 | the stripped reply has no whitespace at either end and is no longer than the reply |
| Text.StripCore | agents/reviewer.py:40 | what `strip()` keeps is one contiguous slice of the input, and everything outside it is whitespace |
| Text.StripIdempotent | agents/reviewer.py:40 | stripping a stripped text changes nothing |
| Text.StripKeepsTrimmedHead | agents/coder.py:46 | stripping the joined prompt keeps a head with no whitespace at its ends and only trims the tail |
| Text.FindFrom | agents/evaluator.py:11 | the search returns the first occurrence at or after the start position, or reports that there is none |
| Text.Take | agents/coder.py:32 | `s[:n]` is a prefix of at most `n` characters, all of `s` when it is shorter |
| Text.TakeLast | healthcheck_server.py:86 | `s[-1000:]` is the suffix of exactly 1000 characters, or all of `s` when it is shorter |
| Text.Lower | sentry_integration.py:59 | lower-casing keeps the length and maps each character on its own: ASCII capitals and the Kelvin sign to their lower-case letters, everything else to itself |
| Text.IntToString | healthcheck_server.py:90 | `str(n)` is non-empty and starts with `-` exactly for negative `n` |
| Text.NatToStringDenotes | healthcheck_server.py:90 | `str(n)` of a non-negative `n` is all digits, has no leading zero unless it is `0`, and its decimal value is `n` |
| Text.IntToStringDenotes | healthcheck_server.py:90 | `str(n)` is the canonical numeral of `n`, preceded by `-` exactly when `n` is negative |
| Parser.Collapse | agents/parser.py:6 | `re.sub(r"\s+", " ", raw)` leaves only single plain spaces, is empty only for empty input, and starts and ends with whitespace exactly where the input does |
| Parser.CollapseOfSpaces | agents/parser.py:6 | a run of whitespace on its own becomes a single space |
| Parser.CollapseOfVisibleChar | agents/parser.py:6 | a character that is not whitespace is kept as it is |
| Parser.CollapseSpaceRun | agents/parser.py:6 | a maximal run of whitespace before the end or a visible character becomes one space, and the rest is replaced on its own |
| Parser.CollapseAppend | agents/parser.py:6 | cutting the input after a visible character cuts the output at the same place: no replacement spans the cut. With the two lemmas above this fixes the result for every input |
| Parser.CollapseKeepsVisible | agents/parser.py:6 | collapsing whitespace keeps every other character, in order |
| Parser.VisibleSurvivesStrip | agents/parser.py:6 | `strip()` keeps every non-whitespace character, in order |
| Parser.StripKeepsSingleSpaced | agents/parser.py:6 | stripping single-spaced text leaves it single-spaced |
| Parser.CutPoint | agents/parser.py:7 | the cut is the last word boundary at or before the limit, or 0 when there is none |
| Parser.Shorten | agents/parser.py:7 | the result fits the width; text that fits is returned as it is; non-empty text stays non-empty; a cut result is a prefix of the text followed by `…` |
| Parser.CleanText | agents/parser.py:4-7 | a width below 1 raises; otherwise the result fits `max_len`, is non-empty exactly when the input has a non-whitespace character, and when it fits it is the collapsed, stripped, single-spaced text with the input's characters in order |
| Parser.ParserNode | agents/parser.py:9-11 | a missing `article` raises; otherwise only `context` is written, with the cleaned article of at most 8000 characters |
| Evaluator.OpenerEnd | agents/evaluator.py:11 | an opener is found exactly when three backticks are followed by a newline, or by `python` in any letter case and a newline; the body starts after that newline |
| Evaluator.SearchFence | agents/evaluator.py:11 | the match found is the leftmost one; its body runs from the opener to the first closing fence after it; no match means no position starts one |
| Evaluator.FenceBodyIsMinimal | agents/evaluator.py:11 | the extracted body never contains a fence, and no earlier position starts a match |
| Evaluator.NoFenceMeansWholeInput | agents/evaluator.py:12 | without a fenced block the whole input comes back stripped |
| Evaluator.TestVerdict | agents/evaluator.py:51-58 | the run passes exactly when `code` is present and pytest exits with 0; whenever pytest exits its output is the details; a missing `code` or a raised call gives `Evaluator Exception: ` followed by the exception's text |
| Evaluator.Evaluated | agents/evaluator.py:50-66 | `test_passed` and `test_details` are always written; a missing `code` is a failure; a pass leaves the counter and the review alone; a failure counts one more and forces the merge at 3; no other key changes |
| Evaluator.EvaluatorNode | agents/evaluator.py:50-66 | the key-by-key updates produce exactly `Evaluated` |
| Reviewer.Reviewed | agents/reviewer.py:14-52 | failed or absent tests write the test-failed rejection and count it without consulting the model; otherwise the stripped reply is the review; a rejection counts one more failure and becomes `FORCE_MERGE` at 3; anything else removes the counter; only `review` and `retries` change; a rejection left in place means the counter is below 3 |
| Reviewer.FailedTestsIgnoreReply | agents/reviewer.py:21-26 | when the tests did not pass, the model's reply plays no part |
| Reviewer.ApprovalResetsCounter | agents/reviewer.py:49-50 | approval removes the counter, and removing an absent one changes nothing |
| Reviewer.HandleReviewer | agents/reviewer.py:14-52 | the key-by-key updates produce exactly `Reviewed` |
| Coder.PriorTestDetails | agents/coder.py:30-32 | test details are passed back only after a recorded failure (absent counts as a pass), as the first 1000 characters of the details |
| Coder.ReviewFeedback | agents/coder.py:35-37 | feedback is the review exactly when it is a rejection; the override is never fed back |
| Coder.Section | agents/coder.py:40-45 | a block is omitted exactly when its content is empty, and otherwise has its heading before the content |
| Coder.PromptOpensWithTask | agents/coder.py:21-46 | the prompt is the fixed instruction followed by the context, test-details and feedback blocks in that order, with only trailing whitespace stripped |
| Coder.PromptIgnoresTaskAndKeyword | agents/coder.py:19-25 | the state's `task` and `keyword` never affect the prompt |
| Coder.FirstAttemptPrompt | agents/coder.py:27-46 | with no context, no failure and no rejection the prompt is exactly the instruction |
| Coder.HandleCoder | agents/coder.py:49-59 | the reply becomes `code` and nothing else changes; an exception from the model call escapes |
| Metric.EstimateTokens | agents/metric.py:22-42 | query and code tokens are lengths divided by 4, rounded down; the total is 2·query + 2·code + 1100 and splits into input and output; the coder's share is query + 500 + code |
| Metric.ReviewerUsage | agents/metric.py:93-102 | reviewer usage is recorded exactly when there were retries or no pass (`None` is not a pass), with reason `retry` or `failure` |
| Metric.UsageRequests | agents/metric.py:72-109 | the ledger is sent parser and coder usage, the optional reviewer usage, and finally the machine time |
| Metric.Measured | agents/metric.py:9-133 | only `metrics` is written; pass, retries (default 0), tokens, model (default `gpt-4o-mini`) and execution time; the breakdown gives parser, coder, reviewer, input and output tokens; a ledger failure leaves the record with the error and no cost summary; otherwise the summary holds the day's three costs and the remaining budget, and the alert is set exactly above 80 % of the budget |
| Metric.MetricNode | agents/metric.py:50-128 | building the record and then adding the ledger's keys produces exactly `Measured` |
| Alert.AlertMessage | agents/alert.py:54-63 | the message fields take the defaults `Unknown task`, `False`, 0 and `unknown` |
| Alert.Classify | agents/alert.py:15-31 | good exactly for a pass that is `True` with no retries, warning for `True` with retries, danger for everything else; exactly one applies |
| Alert.TruthyIsNotTrue | agents/alert.py:15-31 | a truthy `pass` that is not the boolean `True` is classified as danger |
| Alert.AlertSlack | agents/alert.py:7-49 | without a webhook nothing is posted and an error is returned; otherwise a `CURRENT_TIME` that is not an integer raises, and else the classified attachment with that timestamp is posted, and a failed POST comes back as an error |
| Alert.AlertNode | agents/alert.py:51-72 | the node raises exactly when a webhook is set and the timestamp does not convert; otherwise only `alert_sent` and `alert_result` are added, and `alert_sent` is the result's success flag, true only with a webhook and a delivered POST |
| Alert.CleanPassIsGood | agents/alert.py:15-19 | a job that passed without retries is announced as a success |
| Alert.FailedTestsAreDanger | agents/alert.py:27-31 | a job whose tests did not pass is announced as a failure |
| Orchestrator.RouteFromEvaluator | orchestrator/main.py:17-23 | a pass goes to review; a failure (absent counts as one) goes back to the coder exactly while fewer than 3 failures are counted, and to review otherwise |
| Orchestrator.RouteFromReviewer | orchestrator/main.py:25-27 | back to the coder exactly on a rejection; an absent review, an approval and the override go to the metrics |
| Orchestrator.RoutersFollowEdgeTable | orchestrator/main.py:45-56 | the routers only name targets the edge table allows, and the finish point has no successor |
| Orchestrator.QueryNode | agents/query_ddg.py:22-25 | a missing `keyword` raises; otherwise the search result is stored as `article` and nothing else changes |
| Orchestrator.QueryStep | orchestrator/main.py:36-45 | the query stage hands on to the parser with an article stored, and does so whenever the keyword is present and the search succeeds |
| Orchestrator.ParserStep | orchestrator/main.py:37-46 | the parser stage hands on to the coder, and does so whenever an article is present |
| Orchestrator.CoderStep | orchestrator/main.py:38-47 | the coder stage hands on to the evaluator with code stored, and does so whenever the model replies |
| Orchestrator.EvaluatorStep | orchestrator/main.py:39-51 | the evaluator never raises; it goes to the coder or the reviewer; going back to the coder spends one unit of the retry budget |
| Orchestrator.ReviewerStep | orchestrator/main.py:40-52 | the reviewer goes to the metrics, or back to the coder spending one unit of the retry budget; it does not raise when code is present and the model replies |
| Orchestrator.Step | orchestrator/main.py:36-56 | only the finish point ends the run and it hands on to no stage; only the query, parser, coder, reviewer and alert stages can raise |
| Orchestrator.StageFacts | orchestrator/main.py:36-56 | every stage follows the edge table, lowers the run's measure, spends the coder bound correctly and, with reliable oracles, keeps the keys the next stage reads present |
| Orchestrator.PipelineFacts | orchestrator/main.py:33-58 | the compiled graph has those properties at every configuration |
| Orchestrator.Run | orchestrator/main.py:55-58 | a run starts at its first node, moves only along edges, and ends at the finish point or at a stage that can raise |
| Orchestrator.CoderVisitsBounded | orchestrator/main.py:17-27 | a run enters the coder no more often than the bound of its starting point |
| Orchestrator.RunCompletes | orchestrator/main.py:55-56 | a run that never raises ends at `alert` |
| Orchestrator.InvocationIsBounded | orchestrator/main.py:64-70 | the script's invocation enters the coder at most 3 times whatever the oracles do, and completes `alert` when neither they nor the timestamp conversion raise |
| Orchestrator.FailEvaluator | agents/evaluator.py:61-64 | with failing tests each evaluator visit counts a failure; the third goes to the reviewer |
| Orchestrator.FailReviewer | agents/reviewer.py:21-25 | after failed tests the reviewer counts a fourth failure and keeps the override |
| Orchestrator.FailRun | orchestrator/main.py:17-27 | a run whose tests always fail follows the failing trace and ends with 4 failures and the override |
| Orchestrator.PipelineFails | orchestrator/main.py:36-52 | tests that never pass make every stage of the graph step along the failing trace, whatever the review model would reply |
| Orchestrator.AlwaysFailingTests | orchestrator/main.py:64-70 | tests that never pass (a non-zero exit or a raised run): three coder attempts, then reviewer, metric and alert, ending with `retries == 4` and `FORCE_MERGE`; the review model is never needed |
| Orchestrator.RejectEvaluator | agents/evaluator.py:57-61 | a passing test leaves the counter alone and goes to review |
| Orchestrator.RejectReviewer | agents/reviewer.py:45-48 | each rejection counts one more failure, and the third becomes the override |
| Orchestrator.RejectionSendsBack | agents/reviewer.py:45-46 | a rejection below the ceiling is kept and sends the code back to the coder |
| Orchestrator.RejectionOverridden | agents/reviewer.py:47-48 | the rejection that reaches the ceiling becomes `FORCE_MERGE` and goes on to the metrics |
| Orchestrator.RejectRun | orchestrator/main.py:25-27 | a run whose tests pass and whose reviews reject follows the rejecting trace and ends with 3 failures and the override |
| Orchestrator.PipelineRejects | orchestrator/main.py:36-52 | passing tests and rejecting reviews make every stage step along the rejecting trace |
| Orchestrator.AlwaysRejectingReviews | orchestrator/main.py:64-70 | passing tests and rejecting reviews: three rounds of coder, evaluator and reviewer, then metric and alert, ending with `retries == 3` and `FORCE_MERGE` |
| HealthCheck.AfterBatch | healthcheck_server.py:50-129 | the flag is down afterwards; a run is counted only when the process exits; every outcome other than exit code 0 counts an error and extends the streak, and a success ends it; a missing key, a timeout and an exception give their error results; a non-zero exit reports stderr, or `Exit code: ` and the code when stderr is empty; a success has output exactly when stdout is non-empty, and then it is stdout's last 1000 characters |
| HealthCheck.Penalty | healthcheck_server.py:151 | the streak penalty lies in [0, 0.8] and is 0.8 from four errors on |
| HealthCheck.HealthScore | healthcheck_server.py:144-153 | the score lies in [0, 1]; it is 1 before any counted run and with no errors; otherwise it is at least one minus the error rate and the penalty; a counted run with four straight errors scores below 0.3 |
| HealthCheck.HealthCheck | healthcheck_server.py:167-180 | `healthy` exactly when the score is at least 0.3, `unhealthy` otherwise |
| HealthCheck.FailureNeverRaisesScore | healthcheck_server.py:144-153 | a batch that does not succeed never raises the score |
| HealthCheck.SuccessNeverLowersScore | healthcheck_server.py:144-153 | a successful batch never lowers the score once a run has been counted or no error has |
| HealthCheck.SuccessAfterTimeoutsTurnsUnhealthy | healthcheck_server.py:102-106 | three timeouts leave the service healthy, and one success afterwards makes it unhealthy |
| HealthCheck.CountersFollowHistory | healthcheck_server.py:50-129 | from a fresh executor, runs count exited processes, errors count batches that did not succeed, and the streak counts failures since the last success, so it never exceeds the errors |
| HealthCheck.MissingKeyStaysHealthy | healthcheck_server.py:58-62 | from a fresh executor, when every batch lacks the key, each counts an error, no run is counted, and `/health` stays healthy |
| HealthCheck.BatchExecutor.constructor | healthcheck_server.py:41-48 | a new executor is idle with every counter at zero |
| HealthCheck.BatchExecutor.RunBatch | healthcheck_server.py:50-129 | the fields and the returned dictionary are exactly those `AfterBatch` gives for the old fields |
| HealthCheck.BatchExecutor.GetStatus | healthcheck_server.py:131-142 | the report holds the fields and their health score, in [0, 1] |
| HealthCheck.HealthCheckServer.constructor | healthcheck_server.py:159-165 | the server starts with a fresh executor |
| HealthCheck.HealthCheckServer.HealthCheckEndpoint | healthcheck_server.py:167-180 | the reply is the threshold verdict on the executor's score |
| HealthCheck.HealthCheckServer.TriggerBatch | healthcheck_server.py:200-216 | while a batch runs, `already_running` is returned and nothing changes; otherwise `started` is returned and the batch's bookkeeping is applied |
| Monitoring.Latest | monitoring_setup.py:86 | `s[-100:]` keeps the last 100 elements, or all when there are fewer |
| Monitoring.Recorded | monitoring_setup.py:58-86 | one more run, and one more success or failure; the duration is added and remembered; a success keeps the last error and the history; a failure records its error and leaves 1 to 100 history entries; consistent data stays consistent |
| Monitoring.FailureAppendsEntry | monitoring_setup.py:79-86 | a failure's entry is last in the history, after the latest earlier entries, and nothing is dropped below the limit |
| Monitoring.LatestAfterAppend | monitoring_setup.py:81-86 | appending then keeping the latest `n` puts the new element last, after the latest of the others |
| Monitoring.LatestOfAppend | monitoring_setup.py:81-86 | cutting before each append gives the same history as cutting once at the end |
| Monitoring.HistoryIsLatestFailures | monitoring_setup.py:42-86 | from the initial data the history is exactly the latest hundred failures, the totals count the records, and successes plus failures make the total |
| Monitoring.SharesAddUp | monitoring_setup.py:99-100 | the success and error rates of a consistent record add up to 1 |
| Monitoring.Report | monitoring_setup.py:94-101 | the data is returned as it is; the rates appear exactly when a run was recorded, and then lie in [0, 1] and add up to 1 |
| Monitoring.MetricsCollector.constructor | monitoring_setup.py:42-50 | a new collector holds the zero counters and an empty history |
| Monitoring.MetricsCollector.RecordBatchEnd | monitoring_setup.py:58-86 | the fields become exactly `Recorded` of the old fields, and consistency is kept |
| Monitoring.MetricsCollector.GetMetrics | monitoring_setup.py:94-101 | the report is `Report` of the fields and nothing changes; the two rates add up to 1 |
| Sentry.Redacted | sentry_integration.py:57-60 | the keys are kept; a key containing `api_key` or `token` in lower case gets `[REDACTED]`; every other value is kept |
| Sentry.Filtered | sentry_integration.py:54-67 | the event is dropped exactly when it is an `aiohttp.access` log whose message mentions `/health`; otherwise it is returned with the same logger and message and its `extra` redacted |
| Sentry.RedactedIdempotent | sentry_integration.py:57-60 | masking twice masks nothing more |
| Sentry.FilterIdempotent | sentry_integration.py:54-67 | an event the filter returns comes out of a second pass unchanged |
| Sentry.BeforeSendFilter | sentry_integration.py:54-67 | the key-by-key overwrite loop followed by the drop check computes exactly `Filtered` |

## Left out

- The LangGraph runtime (orchestrator/main.py:2, 33, 58) is not modelled. `Orchestrator.Run` walks the same edge table instead.
- Several outside calls are not modelled and become inputs instead:
  - the DuckDuckGo search, page fetch and HTML scraping in agents/query_ddg.py:5-20;
  - the OpenAI completions in agents/coder.py:49-56 and agents/reviewer.py:32-39;
  - pytest and the FizzBuzz test file in agents/evaluator.py:15-47;
  - the batch subprocess in healthcheck_server.py:65-70;
  - the Slack POST;
  - `time.time()` and `datetime.now()`;
  - the environment variables `OPENAI_MODEL`, `SLACK_WEBHOOK_URL`, `OPENAI_API_KEY` and `CURRENT_TIME`.
- The oracles are keyed by what their input is built from, not by the text actually sent:
  - the coder's reply by the state its prompt is built from;
  - the reviewer's reply by the code in its prompt;
  - pytest's outcome by the code before fence stripping.

  This is a more general oracle than one keyed by the prompt or the file. A consequence is that the orchestration lemmas do not use the prompt texts.
- Orchestrator.QueryNode: `query_web`'s own result text, including its "No result" message, is part of the search input and is not derived.
- Metric.Measured: the FinOps ledger (agents/finops.py) is one input. That input is either a daily report or the exception one of its calls raised. Its pricing, JSON files and Slack budget alert are not modelled, and neither is the `timestamp` key or the log lines.
- Parser.Shorten: `textwrap.shorten`'s line breaking after hyphens (`break_on_hyphens`) is not modelled. The model cuts only at spaces.
- Text.Lower: only the ASCII capitals and U+212A KELVIN SIGN are lower-cased. These are the only characters whose Python lower case is one of the ASCII letters of `api_key`, `token` or `python`. Python's `str.lower` also changes other letters, which then still match none of those words, so `Sentry.Sensitive` and `Evaluator.OpenerEnd` decide as Python does.
- Text.TakeLast, Monitoring.Latest: for `n = 0` they return nothing, whereas Python's `s[-0:]` is the whole of `s`. The source slices only with the widths 1000 and 100.
- Floating point is modelled as exact `real` arithmetic. This affects the health score, the penalty `0.2 * n`, the rates, durations and costs. A score within rounding of the 0.3 threshold may be classified differently by the Python code.
- Timestamps (`last_run`, the ISO time of an error entry) are the clock reading as a `real`, not formatted strings.
- HealthCheck.HealthCheckServer.TriggerBatch: the batch runs to completion before the reply. The server runs it on a worker thread, and the race between the reply and the worker setting `is_running` is not modelled.
- Several parts of the health-check server are not modelled:
  - HTTP servers, asyncio, signal handling and the thread pool;
  - `detailed_status`;
  - `_get_memory_usage` (psutil);
  - the `timestamp`, `service` and `version` keys of `/health` (healthcheck_server.py:182-341).
- Several parts of monitoring_setup.py are not modelled:
  - Prometheus metrics and `get_prometheus_metrics`;
  - `record_batch_start`, which only reads the clock and bumps a gauge;
  - `ErrorTracker`, `StructuredLogger`, `monitor_performance` and `MonitoredBatchExecutor` (monitoring_setup.py:14-27, 52-56, 62-69, 103-322).
- Monitoring.MetricsCollector.GetMetrics: `metrics_data.copy()` is shallow, so the returned `error_history` list is shared with the collector. The model returns a value and does not capture that aliasing.
- Sentry.BeforeSendFilter: the event is returned as a new value. The source overwrites it in place, and the caller then sees that mutation. Keys other than `extra`, `logger` and `message` are not modelled, nor is an `extra` that is not a dictionary.
- The Sentry SDK setup, `track_agent_error`, `SentryMetrics` and the health endpoint in sentry_integration.py:17-52, 69-199 are not modelled.
- Evaluator.StripFence: its own contract states only that the result has no surrounding whitespace. Which block it takes is stated by `Evaluator.SearchFence`, `Evaluator.FenceBodyIsMinimal` and `Evaluator.NoFenceMeansWholeInput`.
- Parts of the alert are not modelled: the Slack message text (icon, JSON dump of the message, footer) and the message's `test_results` and `metrics` fields, which do not affect the classification.
- Alert.AlertSlack: `int(os.environ.get('CURRENT_TIME', 0))` (agents/alert.py:40) is an input, the integer or the `ValueError` text. Python's rules for which strings `int()` accepts are not modelled.
- The system prompts and model parameters of the two model calls are not modelled. A reply whose content is missing is modelled as a raised exception, like any failed call.
