/** The alerting stage (agents/alert.py): the message built from the state, the three-way
    classification of the Slack notification and the write-back of the result. The webhook
    variable, the conversion of the timestamp variable and the HTTP POST are inputs. */
module Alert {
  import opened Common
  import opened Text
  import opened PipelineState

  /** The fields of the message dictionary that decide what is sent. `pass` keeps Python's
      dynamic typing because the classification tests it with `is True`. */
  datatype Message = Message(
    task: string, pass: PyValue, retries: Option<int>, code: string, review: string, jobId: string)

  /** `alert_node`'s message: every field read with its default. */
  function AlertMessage(s: State): (m: Message)
    ensures m.task == s.task.GetOr("Unknown task") && m.jobId == s.jobId.GetOr("unknown")
    ensures m.pass == BoolValue(s.testPassed.GetOr(false))
    ensures m.retries == Some(Retries(s))
  {
    Message(s.task.GetOr("Unknown task"), BoolValue(s.testPassed.GetOr(false)), Some(Retries(s)),
            s.code.GetOr(""), Review(s), s.jobId.GetOr("unknown"))
  }

  /** The Slack attachment colour. */
  datatype Color = Good | Warning | Danger

  /** `message.get("pass") is True`: only the boolean `True` itself. */
  predicate PassIsTrue(m: Message) {
    m.pass == BoolValue(true)
  }

  /** The if/elif/else of `alert_slack`. */
  function Classify(m: Message): (c: Color)
    ensures c == Good <==> PassIsTrue(m) && m.retries.GetOr(0) == 0
    ensures c == Warning <==> PassIsTrue(m) && m.retries.GetOr(0) > 0
    ensures c == Danger <==> !PassIsTrue(m) || m.retries.GetOr(0) < 0
  {
    if PassIsTrue(m) && m.retries.GetOr(0) == 0 then Good
    else if PassIsTrue(m) && m.retries.GetOr(0) > 0 then Warning
    else Danger
  }

  /** A truthy `pass` that is not the boolean `True` (the integer 1, a non-empty string) is a
      failure notice. */
  lemma TruthyIsNotTrue(m: Message)
    requires m.pass.IntValue? || m.pass.StrValue?
    ensures Classify(m) == Danger
  {
  }

  function Title(c: Color): string {
    match c
    case Good => "AI-Stack Job Success"
    case Warning => "AI-Stack Job Success (with retries)"
    case Danger => "AI-Stack Job Failed"
  }

  /** The part of the Slack payload the model keeps: colour, title and the `ts` timestamp. */
  datatype Attachment = Attachment(color: Color, title: string, ts: int)

  /** What `requests.post(...)` followed by `raise_for_status()` did. */
  datatype PostOutcome = Delivered(statusCode: int) | PostFailed(error: string)

  /** The value `alert_slack` returns and the payload it posted, if any. */
  datatype SlackCall = SlackCall(result: SlackResult, posted: Option<Attachment>)

  /** `alert_slack`: nothing is sent without a webhook; with one, the timestamp is converted
      before the `try`, so a value that is not an integer raises out of the function, and a
      failed POST comes back as an error. `currentTime` is what
      `int(os.environ.get('CURRENT_TIME', 0))` gave: the integer, or the `ValueError` text. */
  function AlertSlack(m: Message, webhook: Option<string>, currentTime: Outcome<int>,
                      post: PostOutcome): (r: Outcome<SlackCall>)
    ensures webhook.GetOr("") == [] ==>
              r == Ok(SlackCall(SlackError("SLACK_WEBHOOK_URL not set"), None))
    ensures webhook.GetOr("") != [] ==> (r.Raised? <==> currentTime.Raised?)
    ensures webhook.GetOr("") != [] && currentTime.Raised? ==> r.error == currentTime.error
    ensures webhook.GetOr("") != [] && currentTime.Ok? ==>
              && r.value.posted == Some(Attachment(Classify(m), Title(Classify(m)), currentTime.value))
              && r.value.result == match post
                                   case Delivered(code) => SlackSent(code)
                                   case PostFailed(e) => SlackError(e)
    ensures r.Ok? && r.value.result.SlackSent? ==> r.value.posted.Some?
  {
    if webhook.GetOr("") == [] then Ok(SlackCall(SlackError("SLACK_WEBHOOK_URL not set"), None))
    else
      var color := Classify(m);
      match currentTime
      case Raised(e) => Raised(e)
      case Ok(ts) =>
        var attachment := Attachment(color, Title(color), ts);
        match post
        case Delivered(code) => Ok(SlackCall(SlackSent(code), Some(attachment)))
        case PostFailed(e) => Ok(SlackCall(SlackError(e), Some(attachment)))
  }

  /** The node's inputs from outside the state: the webhook variable, the converted timestamp
      variable (`Ok(0)` when it is unset) and the outcome of the POST. */
  datatype AlertInputs = AlertInputs(webhook: Option<string>, currentTime: Outcome<int>,
                                     post: PostOutcome)

  /** `alert_node`: only `alert_sent` (the result's success flag, `False` when absent) and
      `alert_result` are added; a timestamp that does not convert raises out of the node. */
  function AlertNode(s: State, inputs: AlertInputs): (r: Outcome<State>)
    ensures r.Raised? <==> inputs.webhook.GetOr("") != [] && inputs.currentTime.Raised?
    ensures r.Ok? ==>
              && r.value.(alertSent := s.alertSent, alertResult := s.alertResult) == s
              && r.value.alertResult.Some?
              && r.value.alertSent == Some(r.value.alertResult.value.SlackSent?)
    ensures r.Ok? && r.value.alertSent == Some(true) ==>
              inputs.webhook.GetOr("") != [] && inputs.post.Delivered?
  {
    match AlertSlack(AlertMessage(s), inputs.webhook, inputs.currentTime, inputs.post)
    case Raised(e) => Raised(e)
    case Ok(call) => Ok(s.(alertSent := Some(call.result.SlackSent?), alertResult := Some(call.result)))
  }

  /** A job that passed on its first attempt is announced as a success. */
  lemma CleanPassIsGood(s: State)
    requires s.testPassed == Some(true) && Retries(s) == 0
    ensures Classify(AlertMessage(s)) == Good
  {
  }

  /** A forced merge after failed tests is announced as a failure. */
  lemma FailedTestsAreDanger(s: State)
    requires s.testPassed != Some(true)
    ensures Classify(AlertMessage(s)) == Danger
  {
  }
}
