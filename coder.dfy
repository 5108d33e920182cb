/** The code-generation stage (agents/coder.py): how the prompt is assembled from the state.
    The completion itself is an input: `reply` is what the model returned for the prompt, or
    the exception the call raised. */
module Coder {
  import opened Common
  import opened Text
  import opened PipelineState

  /** The fixed instruction; the state's own `task` and `keyword` are not used. */
  const CODER_TASK := "Write a production-ready " + "Python function `solve_fizzbuzz(n)` **that returns** a list of strings following the classic FizzBuzz rules.\nIt must **return**, not print, so that pytest can assert the value."

  /** How much of the previous test output is passed back. */
  const DETAILS_LIMIT := 1000

  /** The previous test output, only after a recorded failure (an absent `test_passed` counts as
      a pass), cut to its first 1000 characters. */
  function PriorTestDetails(s: State): (d: string)
    ensures |d| <= DETAILS_LIMIT
    ensures d != [] ==> s.testPassed == Some(false)
    ensures s.testPassed == Some(false) ==>
              StartsWith(s.testDetails.GetOr(""), d)
              && |d| == if |s.testDetails.GetOr("")| < DETAILS_LIMIT then |s.testDetails.GetOr("")|
                        else DETAILS_LIMIT
  {
    if s.testPassed == Some(false) then Take(s.testDetails.GetOr(""), DETAILS_LIMIT) else ""
  }

  /** The previous review, only when it was a rejection; an override is never fed back. */
  function ReviewFeedback(s: State): (fb: string)
    ensures fb != [] <==> IsRejection(Review(s))
    ensures fb != [] ==> fb == Review(s)
    ensures fb != FORCE_MERGE
  {
    assert FORCE_MERGE[0] != REJECTED[0];
    if IsRejection(Review(s)) then Review(s) else ""
  }

  /** One optional block of the prompt: omitted when its content is empty. */
  function Section(heading: string, content: string): (r: string)
    ensures r == [] <==> content == []
    ensures content != [] ==> r == "\n\n" + heading + ":\n" + content
  {
    if content == [] then "" else "\n\n" + heading + ":\n" + content
  }

  /** The optional blocks, in the order context, test details, review feedback. */
  function PromptSections(s: State): string {
    Section("Context", s.context.GetOr(""))
    + Section("Previous test details", PriorTestDetails(s))
    + Section("Previous review feedback", ReviewFeedback(s))
  }

  /** `user_prompt`: the parts joined and stripped. */
  function CoderPrompt(s: State): string {
    Strip(CODER_TASK + PromptSections(s))
  }

  /** The prompt always opens with the fixed instruction; only trailing whitespace of the last
      block is lost to the final `strip()`. */
  lemma PromptOpensWithTask(s: State)
    ensures CoderPrompt(s) == CODER_TASK + RStrip(PromptSections(s))
    ensures StartsWith(CoderPrompt(s), CODER_TASK)
  {
    assert CODER_TASK[0] == 'W';
    assert CODER_TASK[|CODER_TASK| - 1] == '.';
    StripKeepsTrimmedHead(CODER_TASK, PromptSections(s));
  }

  /** The state's own task and keyword never reach the model. */
  lemma PromptIgnoresTaskAndKeyword(s: State, task: Option<string>, keyword: Option<string>)
    ensures CoderPrompt(s.(task := task, keyword := keyword)) == CoderPrompt(s)
  {
  }

  /** With nothing to report the prompt is exactly the instruction. */
  lemma FirstAttemptPrompt(s: State)
    requires s.context.GetOr("") == [] && s.testPassed != Some(false) && !IsRejection(Review(s))
    ensures CoderPrompt(s) == CODER_TASK
  {
    PromptOpensWithTask(s);
    assert PromptSections(s) == [];
  }

  /** `handle_coder`: the reply becomes `code` and nothing else is written; an exception from the
      model call escapes. */
  function HandleCoder(s: State, reply: Outcome<string>): (r: Outcome<State>)
    ensures r.Ok? <==> reply.Ok?
    ensures r.Ok? ==> r.value.code == Some(reply.value) && r.value.(code := s.code) == s
  {
    match reply
    case Ok(content) => Ok(s.(code := Some(content)))
    case Raised(e) => Raised(e)
  }
}
