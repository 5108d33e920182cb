/** The run bookkeeping of the monitoring setup (monitoring_setup.py): `MetricsCollector`'s
    counters, durations and bounded error history, and the rates `get_metrics` derives. The clock
    is an input; the Prometheus gauges are not modelled. */
module Monitoring {
  import opened Common

  /** `error_history` keeps this many of the latest entries. */
  const HISTORY_LIMIT := 100

  /** An entry of `error_history`: when the failure was recorded and the error passed in. */
  datatype ErrorEntry = ErrorEntry(timestamp: real, error: Option<string>)

  /** The `metrics_data` dictionary as a value. */
  datatype MetricsData = MetricsData(
    totalRuns: nat, successfulRuns: nat, failedRuns: nat, totalDuration: real,
    lastRunDuration: real, lastError: Option<string>, errorHistory: seq<ErrorEntry>)

  /** `metrics_data` as `__init__` builds it. */
  function Initial(): MetricsData {
    MetricsData(0, 0, 0, 0.0, 0.0, None, [])
  }

  /** What every sequence of recorded runs keeps: the total splits into successes and failures,
      and the history holds at most one entry per failure and never more than the limit. */
  predicate Consistent(m: MetricsData) {
    && m.totalRuns == m.successfulRuns + m.failedRuns
    && |m.errorHistory| <= HISTORY_LIMIT
    && |m.errorHistory| <= m.failedRuns
  }

  /** The last `n` elements, or all of them when there are fewer: the source's `s[-100:]` with
      `n = 100`. For `n = 0` this is empty, whereas Python's `s[-0:]` is the whole list; the
      source never slices with a zero width, and the lemmas below use `n = 0` only for the
      empty prefix. */
  function Latest<T>(s: seq<T>, n: nat): (r: seq<T>)
    ensures |r| == if |s| <= n then |s| else n
    ensures r == s[|s| - |r|..]
  {
    if |s| <= n then s else s[|s| - n..]
  }

  /** `record_batch_end(start_time, success, error)` with the clock reading `now`: one more run,
      counted as a success or as a failure; a failure also records its error and appends it to
      the history, which then keeps only its latest entries. */
  function Recorded(m: MetricsData, startTime: real, success: bool, error: Option<string>,
                    now: real): (r: MetricsData)
    ensures r.totalRuns == m.totalRuns + 1
    ensures success ==> r.successfulRuns == m.successfulRuns + 1 && r.failedRuns == m.failedRuns
    ensures !success ==> r.failedRuns == m.failedRuns + 1 && r.successfulRuns == m.successfulRuns
    ensures r.lastRunDuration == now - startTime
    ensures r.totalDuration == m.totalDuration + (now - startTime)
    ensures success ==> r.lastError == m.lastError && r.errorHistory == m.errorHistory
    ensures !success ==> r.lastError == error && 1 <= |r.errorHistory| <= HISTORY_LIMIT
    ensures Consistent(m) ==> Consistent(r)
  {
    var duration := now - startTime;
    var ran := m.(totalRuns := m.totalRuns + 1, totalDuration := m.totalDuration + duration,
                  lastRunDuration := duration);
    if success then ran.(successfulRuns := m.successfulRuns + 1)
    else
      var kept := Latest(m.errorHistory + [ErrorEntry(now, error)], HISTORY_LIMIT);
      ran.(failedRuns := m.failedRuns + 1, lastError := error, errorHistory := kept)
  }

  /** A failure is appended last, after the latest of the earlier entries; while the history
      is below its limit nothing is dropped. */
  lemma FailureAppendsEntry(m: MetricsData, startTime: real, error: Option<string>, now: real)
    ensures var h := Recorded(m, startTime, false, error, now).errorHistory;
            && h[|h| - 1] == ErrorEntry(now, error)
            && h[..|h| - 1] == Latest(m.errorHistory, |h| - 1)
            && (|m.errorHistory| < HISTORY_LIMIT ==> |h| == |m.errorHistory| + 1)
  {
    LatestAfterAppend(m.errorHistory, ErrorEntry(now, error), HISTORY_LIMIT);
  }

  /** `Recorded` written as the field updates `record_batch_end` performs one after another. */
  lemma RecordedStepwise(m: MetricsData, startTime: real, success: bool, error: Option<string>,
                         now: real)
    ensures var ran := m.(totalRuns := m.totalRuns + 1, totalDuration := m.totalDuration + (now - startTime),
                          lastRunDuration := now - startTime);
            Recorded(m, startTime, success, error, now)
              == if success then ran.(successfulRuns := m.successfulRuns + 1)
                 else ran.(failedRuns := m.failedRuns + 1, lastError := error,
                           errorHistory := Latest(m.errorHistory + [ErrorEntry(now, error)], HISTORY_LIMIT))
  {
  }

  /** The latest `n` after appending `x`: `x` last, after the latest of the others. */
  lemma LatestAfterAppend<T>(s: seq<T>, x: T, n: nat)
    requires n >= 1
    ensures var r := Latest(s + [x], n);
            && 1 <= |r| <= n
            && r[|r| - 1] == x
            && r[..|r| - 1] == Latest(s, |r| - 1)
            && (|s| < n ==> |r| == |s| + 1)
  {
    var r := Latest(s + [x], n);
    assert r == (s + [x])[|s| + 1 - |r|..];
    assert r[..|r| - 1] == s[|s| - (|r| - 1)..];
  }

  /** The arguments of one `record_batch_end` call. */
  datatype Record = Record(startTime: real, success: bool, error: Option<string>, now: real)

  /** The data after the records, oldest first. */
  function RecordAll(m: MetricsData, records: seq<Record>): MetricsData
    decreases |records|
  {
    if records == [] then m
    else
      var x := records[|records| - 1];
      Recorded(RecordAll(m, records[..|records| - 1]), x.startTime, x.success, x.error, x.now)
  }

  /** The history entries of the failed records, oldest first. */
  function FailureEntries(records: seq<Record>): seq<ErrorEntry>
    decreases |records|
  {
    if records == [] then []
    else
      var x := records[|records| - 1];
      FailureEntries(records[..|records| - 1]) + (if x.success then [] else [ErrorEntry(x.now, x.error)])
  }

  /** Cutting before appending one more element changes nothing: the latest `n` of the cut list
      plus `x` are the latest `n` of the whole list plus `x`. */
  lemma LatestOfAppend<T>(s: seq<T>, x: T, n: nat)
    requires n >= 1
    ensures Latest(Latest(s, n) + [x], n) == Latest(s + [x], n)
  {
    var a := Latest(s + [x], n);
    var b := Latest(Latest(s, n) + [x], n);
    assert |a| == |b|;
    forall i | 0 <= i < |a| ensures a[i] == b[i] {
      if i == |a| - 1 {
        assert a[i] == x == b[i];
      }
    }
  }

  /** From the initial data, the history is exactly the latest hundred failures, the counters
      count the records, and the data stays consistent. */
  lemma {:induction false} HistoryIsLatestFailures(records: seq<Record>)
    decreases |records|
    ensures var m := RecordAll(Initial(), records);
            && m.errorHistory == Latest(FailureEntries(records), HISTORY_LIMIT)
            && m.totalRuns == |records|
            && m.failedRuns == |FailureEntries(records)|
            && Consistent(m)
  {
    if records != [] {
      var prefix := records[..|records| - 1];
      var x := records[|records| - 1];
      HistoryIsLatestFailures(prefix);
      if !x.success {
        LatestOfAppend(FailureEntries(prefix), ErrorEntry(x.now, x.error), HISTORY_LIMIT);
      }
    }
  }

  /** The keys `get_metrics` adds when at least one run was recorded. */
  datatype Rates = Rates(averageDuration: real, successRate: real, errorRate: real)

  /** What `get_metrics` returns: a copy of the data and, after the first run, the rates. */
  datatype MetricsReport = MetricsReport(data: MetricsData, rates: Option<Rates>)

  /** Two shares of a positive whole that add up to it add up to one. */
  lemma SharesAddUp(s: nat, f: nat)
    requires s + f > 0
    ensures s as real / (s + f) as real + f as real / (s + f) as real == 1.0
  {
    var a, b := s as real, f as real;
    var t := (s + f) as real;
    assert t == a + b;
    assert a / t + b / t == (a + b) / t;
  }

  /** A share of a whole lies between zero and one. */
  lemma ShareBounded(part: nat, whole: nat)
    requires part <= whole && whole > 0
    ensures 0.0 <= part as real / whole as real <= 1.0
  {
    var x := part as real / whole as real;
    assert x * whole as real == part as real;
  }

  /** `get_metrics` on the data `m`: the rates appear exactly when a run was recorded, and on
      consistent data they are shares that add up to one. */
  function Report(m: MetricsData): (r: MetricsReport)
    ensures r.data == m
    ensures r.rates.Some? <==> m.totalRuns > 0
    ensures Consistent(m) && r.rates.Some? ==>
              && r.rates.value.successRate + r.rates.value.errorRate == 1.0
              && 0.0 <= r.rates.value.successRate <= 1.0
              && 0.0 <= r.rates.value.errorRate <= 1.0
  {
    if m.totalRuns > 0 then
      var total := m.totalRuns as real;
      var rates := Rates(m.totalDuration / total, m.successfulRuns as real / total,
                         m.failedRuns as real / total);
      assert Consistent(m) ==>
               && rates.successRate + rates.errorRate == 1.0
               && 0.0 <= rates.successRate <= 1.0 && 0.0 <= rates.errorRate <= 1.0 by {
        if Consistent(m) {
          SharesAddUp(m.successfulRuns, m.failedRuns);
          ShareBounded(m.successfulRuns, m.totalRuns);
          ShareBounded(m.failedRuns, m.totalRuns);
        }
      }
      MetricsReport(m, Some(rates))
    else MetricsReport(m, None)
  }

  class MetricsCollector {
    var totalRuns: nat
    var successfulRuns: nat
    var failedRuns: nat
    var totalDuration: real
    var lastRunDuration: real
    var lastError: Option<string>
    var errorHistory: seq<ErrorEntry>

    function Data(): MetricsData
      reads this
    {
      MetricsData(totalRuns, successfulRuns, failedRuns, totalDuration, lastRunDuration, lastError,
                  errorHistory)
    }

    predicate Valid()
      reads this
    {
      Consistent(Data())
    }

    constructor ()
      ensures Data() == Initial() && Valid()
    {
      totalRuns := 0;
      successfulRuns := 0;
      failedRuns := 0;
      totalDuration := 0.0;
      lastRunDuration := 0.0;
      lastError := None;
      errorHistory := [];
    }

    /** `record_batch_end`: the counters are bumped in place, and on failure the entry is appended
        and the list is then cut to its latest entries. */
    method RecordBatchEnd(startTime: real, success: bool, error: Option<string>, now: real)
      requires Valid()
      modifies this
      ensures Valid()
      ensures Data() == Recorded(old(Data()), startTime, success, error, now)
    {
      ghost var m := Data();
      RecordedStepwise(m, startTime, success, error, now);
      var duration := now - startTime;
      totalRuns := totalRuns + 1;
      totalDuration := totalDuration + duration;
      lastRunDuration := duration;
      if success {
        successfulRuns := successfulRuns + 1;
        assert Data() == Recorded(m, startTime, success, error, now);
      } else {
        failedRuns := failedRuns + 1;
        lastError := error;
        errorHistory := errorHistory + [ErrorEntry(now, error)];
        errorHistory := Latest(errorHistory, HISTORY_LIMIT);
        assert Data() == Recorded(m, startTime, success, error, now);
      }
    }

    /** `get_metrics`: nothing is changed. */
    method GetMetrics() returns (r: MetricsReport)
      requires Valid()
      ensures r == Report(Data())
      ensures r.rates.Some? ==> r.rates.value.successRate + r.rates.value.errorRate == 1.0
    {
      r := Report(Data());
    }
  }
}
