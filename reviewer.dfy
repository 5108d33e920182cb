/** The review stage (agents/reviewer.py): the second half of the retry bookkeeping. The
    language-model call is an input: `reply` is what the completion returned (or the exception
    it raised) when asked about `ReviewPrompt(code)`. */
module Reviewer {
  import opened Common
  import opened Text
  import opened PipelineState

  /** The review written when the tests did not pass; no model is consulted then. */
  const TEST_FAILED_REVIEW := "REJECTED: test_failed"

  /** The user message sent to the reviewing model. */
  function ReviewPrompt(code: string): string {
    "Please review the following code:\n```python\n" + code + "\n```"
  }

  /** The model is consulted only when the tests passed. */
  predicate ConsultsModel(s: State) {
    s.testPassed == Some(true)
  }

  /** `handle_reviewer` */
  function Reviewed(s: State, reply: Outcome<string>): (r: Outcome<State>)
    ensures r.Raised? <==> ConsultsModel(s) && (s.code.None? || reply.Raised?)
    ensures r.Ok? ==> r.value.(review := s.review, retries := s.retries) == s
    ensures !ConsultsModel(s) ==>
              && r.Ok?
              && r.value.retries == Some(Retries(s) + 1)
              && r.value.review == Some(if Retries(s) + 1 >= RETRY_CEILING then FORCE_MERGE
                                        else TEST_FAILED_REVIEW)
    ensures ConsultsModel(s) && r.Ok? ==>
              var verdict := Strip(reply.value);
              if IsRejection(verdict) then
                && r.value.retries == Some(Retries(s) + 1)
                && r.value.review == Some(if Retries(s) + 1 >= RETRY_CEILING then FORCE_MERGE
                                          else verdict)
              else
                r.value.retries.None? && r.value.review == Some(verdict)
    ensures r.Ok? && IsRejection(Review(r.value)) ==>
              r.value.retries == Some(Retries(s) + 1) && Retries(s) + 1 < RETRY_CEILING
  {
    if !ConsultsModel(s) then
      Ok(CountFailure(s.(review := Some(TEST_FAILED_REVIEW))))
    else if s.code.None? then
      Raised(KeyErrorText("code"))
    else
      match reply
      case Raised(e) => Raised(e)
      case Ok(text) =>
        var verdict := Strip(text);
        var reviewed := s.(review := Some(verdict));
        if IsRejection(verdict) then Ok(CountFailure(reviewed)) else Ok(reviewed.(retries := None))
  }

  /** When the tests failed the reply plays no part: no model call is made. */
  lemma FailedTestsIgnoreReply(s: State, a: Outcome<string>, b: Outcome<string>)
    requires !ConsultsModel(s)
    ensures Reviewed(s, a) == Reviewed(s, b)
  {
  }

  /** Approval removes the counter, and removing an absent one is harmless. */
  lemma ApprovalResetsCounter(s: State, text: string)
    requires ConsultsModel(s) && s.code.Some? && !IsRejection(Strip(text))
    ensures Reviewed(s, Ok(text)) == Ok(s.(review := Some(Strip(text)), retries := None))
    ensures s.retries.None? ==> Reviewed(s, Ok(text)) == Ok(s.(review := Some(Strip(text))))
  {
  }

  /** The node as the source writes it: one key at a time into the state it was given. */
  method HandleReviewer(s: State, reply: Outcome<string>) returns (r: Outcome<State>)
    ensures r == Reviewed(s, reply)
  {
    var st := s;
    if st.testPassed != Some(true) {
      st := st.(review := Some(TEST_FAILED_REVIEW));
      st := st.(retries := Some(Retries(st) + 1));
      if Retries(st) >= RETRY_CEILING {
        st := st.(review := Some(FORCE_MERGE));
      }
      return Ok(st);
    }
    if st.code.None? {
      return Raised(KeyErrorText("code"));
    }
    if reply.Raised? {
      return Raised(reply.error);
    }
    var reviewResult := Strip(reply.value);
    st := st.(review := Some(reviewResult));
    if StartsWith(reviewResult, REJECTED) {
      st := st.(retries := Some(Retries(st) + 1));
      if Retries(st) >= RETRY_CEILING {
        st := st.(review := Some(FORCE_MERGE));
      }
    } else {
      st := st.(retries := None);
    }
    r := Ok(st);
  }
}
