/** The test-execution stage (agents/evaluator.py): fence stripping, the pytest verdict and the
    first half of the retry bookkeeping. */
module Evaluator {
  import opened Common
  import opened Text
  import opened PipelineState

  const FENCE := "```"
  const EXCEPTION_PREFIX := "Evaluator Exception: "

  /** Where the body starts when a fence opener `(?:python)?\n` begins at `i`: three backticks,
      then either `python` in any letter case and a newline, or a newline right away. */
  function OpenerEnd(s: string, i: nat): (r: Option<nat>)
    ensures r.Some? ==> OccursAt(s, FENCE, i) && i + 4 <= r.value <= |s| && s[r.value - 1] == '\n'
    ensures r.Some? ==> r.value == i + 4 || (r.value == i + 10 && EqualsIgnoreCase(s[i + 3..i + 9], "python"))
    ensures (OccursAt(s, FENCE, i) && i + 10 <= |s| && EqualsIgnoreCase(s[i + 3..i + 9], "python")
             && s[i + 9] == '\n') ==> r == Some(i + 10)
    ensures OccursAt(s, FENCE, i) && i + 4 <= |s| && s[i + 3] == '\n' ==> r == Some(i + 4)
  {
    if !OccursAt(s, FENCE, i) then None
    else if i + 10 <= |s| && EqualsIgnoreCase(s[i + 3..i + 9], "python") && s[i + 9] == '\n' then
      Some(i + 10)
    else if i + 4 <= |s| && s[i + 3] == '\n' then Some(i + 4)
    else None
  }

  /** A match of the regular expression: the opener starts at `start`, the body is `s[bodyStart..bodyEnd]`
      and the closing fence starts at `bodyEnd`. */
  datatype FenceMatch = FenceMatch(start: nat, bodyStart: nat, bodyEnd: nat)

  /** `m` is what the lazy `(.*?)` yields for an opener at `m.start`: the body runs to the first
      closing fence after the opener. */
  ghost predicate MatchAt(s: string, m: FenceMatch) {
    && OpenerEnd(s, m.start) == Some(m.bodyStart)
    && m.bodyStart <= m.bodyEnd
    && OccursAt(s, FENCE, m.bodyEnd)
    && forall q: nat :: m.bodyStart <= q < m.bodyEnd ==> !OccursAt(s, FENCE, q)
  }

  /** The pattern can match starting at `p`: an opener there and a closing fence somewhere after. */
  ghost predicate HasMatchAt(s: string, p: nat) {
    OpenerEnd(s, p).Some? && exists k: nat :: OpenerEnd(s, p).value <= k && OccursAt(s, FENCE, k)
  }

  /** `re.search` from position `i`: the leftmost start at which the pattern matches. */
  function SearchFence(s: string, i: nat): (r: Option<FenceMatch>)
    decreases |s| - i
    ensures r.Some? ==> i <= r.value.start && MatchAt(s, r.value)
    ensures r.Some? ==> forall p: nat :: i <= p < r.value.start ==> !HasMatchAt(s, p)
    ensures r.None? ==> forall p: nat :: i <= p ==> !HasMatchAt(s, p)
  {
    if i + |FENCE| > |s| then None
    else match OpenerEnd(s, i)
      case None => SearchFence(s, i + 1)
      case Some(j) =>
        match FindFrom(s, FENCE, j)
        case Some(k) => Some(FenceMatch(i, j, k))
        case None => SearchFence(s, i + 1)
  }

  /** `strip_fence`: the stripped body of the first fenced block, or the whole stripped input. */
  function StripFence(code: string): (r: string)
    ensures Trimmed(r)
  {
    match SearchFence(code, 0)
    case Some(m) => Strip(code[m.bodyStart..m.bodyEnd])
    case None => Strip(code)
  }

  /** The match is lazy: the extracted body never contains a fence of its own, and it is the
      leftmost match, so no earlier position starts one. */
  lemma FenceBodyIsMinimal(code: string)
    requires SearchFence(code, 0).Some?
    ensures var m := SearchFence(code, 0).value;
            !Contains(code[m.bodyStart..m.bodyEnd], FENCE)
            && forall p: nat :: p < m.start ==> !HasMatchAt(code, p)
  {
    var m := SearchFence(code, 0).value;
    var body := code[m.bodyStart..m.bodyEnd];
    forall q: nat | q <= |body| ensures !OccursAt(body, FENCE, q) {
      OccursInSlice(code, m.bodyStart, m.bodyEnd, FENCE, q);
    }
  }

  /** Without any fenced block, the whole input comes back stripped. */
  lemma NoFenceMeansWholeInput(code: string)
    requires forall p: nat :: !HasMatchAt(code, p)
    ensures StripFence(code) == Strip(code)
  {
    if SearchFence(code, 0).Some? {
      var m := SearchFence(code, 0).value;
      assert HasMatchAt(code, m.start);
    }
  }

  /** What `run_pytest(strip_fence(state["code"]))` did: the process exited with a return code
      and printed output, or the call raised (a timeout, a failed spawn). */
  datatype TestRun = Exited(returnCode: int, output: string) | Threw(error: string)

  /** `passed, details` after the `try` of `evaluator_node`; a missing `code` key is a caught
      `KeyError`. */
  function TestVerdict(s: State, run: TestRun): (v: (bool, string))
    ensures v.0 <==> s.code.Some? && run.Exited? && run.returnCode == 0
    ensures !v.0 ==> StartsWith(v.1, EXCEPTION_PREFIX) || (run.Exited? && v.1 == run.output)
    ensures s.code.Some? && run.Exited? ==> v.1 == run.output
    ensures s.code.Some? && run.Threw? ==> v.1 == EXCEPTION_PREFIX + run.error
    ensures s.code.None? ==> v.1 == EXCEPTION_PREFIX + KeyErrorText("code")
  {
    if s.code.None? then (false, EXCEPTION_PREFIX + KeyErrorText("code"))
    else match run
      case Exited(rc, out) => (rc == 0, out)
      case Threw(e) => (false, EXCEPTION_PREFIX + e)
  }

  /** `evaluator_node`: record the verdict; on failure count it and force the merge at the
      ceiling. A pass leaves the counter as it was. */
  function Evaluated(s: State, run: TestRun): (r: State)
    ensures r.testPassed == Some(TestVerdict(s, run).0)
    ensures r.testDetails == Some(TestVerdict(s, run).1)
    ensures s.code.None? ==> r.testPassed == Some(false)
    ensures r.testPassed == Some(true) ==> r.retries == s.retries && r.review == s.review
    ensures r.testPassed == Some(false) ==>
              && r.retries == Some(Retries(s) + 1)
              && r.review == (if Retries(s) + 1 >= RETRY_CEILING then Some(FORCE_MERGE) else s.review)
    ensures r.(testPassed := s.testPassed, testDetails := s.testDetails,
               retries := s.retries, review := s.review) == s
  {
    var (passed, details) := TestVerdict(s, run);
    var recorded := s.(testPassed := Some(passed), testDetails := Some(details));
    if passed then recorded else CountFailure(recorded)
  }

  /** The node as the source writes it: one key at a time into the state it was given. */
  method EvaluatorNode(s: State, run: TestRun) returns (r: State)
    ensures r == Evaluated(s, run)
  {
    var passed: bool;
    var details: string;
    if s.code.None? {
      passed, details := false, EXCEPTION_PREFIX + KeyErrorText("code");
    } else {
      match run
      case Exited(rc, out) =>
        passed, details := rc == 0, out;
      case Threw(e) =>
        passed, details := false, EXCEPTION_PREFIX + e;
    }
    r := s.(testPassed := Some(passed));
    r := r.(testDetails := Some(details));
    if !passed {
      r := r.(retries := Some(Retries(r) + 1));
      if Retries(r) >= RETRY_CEILING {
        r := r.(review := Some(FORCE_MERGE));
      }
    }
  }
}
