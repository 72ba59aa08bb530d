/**
 * The server's chat handler, `POST /api/chat/geeta`: it validates the
 * question, makes one call to the AI service with the trimmed text, and
 * turns the outcome into a JSON reply. The AI service is a parameter, a
 * function from the question sent to what came back; the handler returns,
 * beside the reply, the list of questions it sent, so that "at most one
 * call, with exactly the trimmed text" is a statement about that list.
 */
module ChatController {
  import opened Wrappers
  import opened JsText

  const MaxQuestionLength := 1000

  const InvalidQuestionMessage := "Please provide a valid question"
  const TooLongMessage := "Question is too long. Please keep it under 1000 characters."
  const RateLimitedMessage := "Too many requests. Please wait a moment and try again."
  const MisconfiguredMessage := "AI service configuration error. Please contact support."
  const GenericFailureMessage := "I apologize for the inconvenience. Please try again or rephrase your question."

  /**
   * The `question` field of the request body: `Missing` is any falsy value
   * other than a string (absent, `null`, `0`, `false`), `NotText` any other
   * value that is not a string, `Text` a string.
   */
  datatype RawQuestion = Missing | NotText | Text(text: string)

  /** What the AI call gave: an answer, or a thrown error with its HTTP status (if any) and message. */
  datatype AiOutcome =
    | Answered(answer: string)
    | Threw(status: Option<int>, message: string)

  /** The JSON body of the reply; `detail` is the `error` field, omitted when `None`. */
  datatype Body =
    | Answer(question: string, answer: string, timestamp: string)
    | Failure(message: string, detail: Option<string>)

  datatype Reply = Reply(status: int, body: Body) {
    /** The `success` field. */
    predicate Success() { body.Answer? }
  }

  /** The reply together with the questions sent to the AI service, in order. */
  datatype Handled = Handled(reply: Reply, aiCalls: seq<string>)

  /** The error classes of the handler. */
  datatype ErrorKind = InvalidQuestion | TooLong | RateLimited | Misconfigured | Unknown

  /**
   * The two validation steps, in order: the question must be a string that
   * is not blank, and its trimmed text must be at most 1000 long. On success
   * the trimmed text is what goes on.
   */
  function Validate(q: RawQuestion): (r: Result<string, ErrorKind>)
    ensures r.Err? ==> r.error == InvalidQuestion || r.error == TooLong
    ensures r == Err(InvalidQuestion) <==> !q.Text? || AllWhiteSpace(q.text)
    ensures r == Err(TooLong) <==> q.Text? && !AllWhiteSpace(q.text) && |Trim(q.text)| > MaxQuestionLength
    ensures r.Ok? ==> q.Text? && r.value == Trim(q.text) && 0 < |r.value| <= MaxQuestionLength
  {
    match q
    case Text(s) =>
      var t := Trim(s);
      if t == [] then Err(InvalidQuestion)
      else if |t| > MaxQuestionLength then Err(TooLong)
      else Ok(t)
    case _ => Err(InvalidQuestion)
  }

  /** The class of a thrown AI error: 429 first, then 401, then everything else. */
  function Classify(status: Option<int>): (k: ErrorKind)
    ensures k == RateLimited || k == Misconfigured || k == Unknown
    ensures k == RateLimited <==> status == Some(429)
    ensures k == Misconfigured <==> status == Some(401)
  {
    if status == Some(429) then RateLimited
    else if status == Some(401) then Misconfigured
    else Unknown
  }

  /** HTTP status and message for each error class; an upstream 401 is reported as 500. */
  function StatusOf(k: ErrorKind): (code: int)
    ensures code == 400 || code == 429 || code == 500
  {
    match k
    case InvalidQuestion => 400
    case TooLong => 400
    case RateLimited => 429
    case Misconfigured => 500
    case Unknown => 500
  }

  function MessageOf(k: ErrorKind): (m: string)
    ensures k == Unknown <==> m == GenericFailureMessage
  {
    match k
    case InvalidQuestion => InvalidQuestionMessage
    case TooLong => TooLongMessage
    case RateLimited => RateLimitedMessage
    case Misconfigured => MisconfiguredMessage
    case Unknown => GenericFailureMessage
  }

  /** `process.env.NODE_ENV === 'development'`: strict equality, so an unset or any other mode is not development. */
  function IsDevelopment(nodeEnv: Option<string>): (b: bool)
    ensures b ==> nodeEnv.Some?
    ensures nodeEnv == None || nodeEnv == Some("production") || nodeEnv == Some("test") || nodeEnv == Some("Development") ==> !b
  {
    nodeEnv == Some("development")
  }

  /** Each error class has a message of its own. */
  lemma MessagesDistinct(a: ErrorKind, b: ErrorKind)
    ensures MessageOf(a) == MessageOf(b) <==> a == b
  {
    if a != b {
      assert |MessageOf(a)| != |MessageOf(b)|;
    }
  }

  /**
   * `getGitaResponse`. `ai` is the AI service, `nodeEnv` the value of
   * `NODE_ENV`, `now` the ISO timestamp the reply carries.
   */
  function Handle(q: RawQuestion, ai: string -> AiOutcome, nodeEnv: Option<string>, now: string): (h: Handled)
    // at most one call, and only after validation, with the trimmed question
    ensures |h.aiCalls| <= 1
    ensures Validate(q).Err? ==> h.aiCalls == [] && h.reply.status == 400
    ensures Validate(q).Ok? ==> h.aiCalls == [Validate(q).value]
    // success is exactly an accepted question that the AI answered; the reply echoes it
    ensures h.reply.Success() <==> h.reply.status == 200
    ensures h.reply.Success() <==> |h.aiCalls| == 1 && ai(h.aiCalls[0]).Answered?
    ensures h.reply.Success() ==>
      h.reply.body == Answer(h.aiCalls[0], ai(h.aiCalls[0]).answer, now)
    // the failure taxonomy
    ensures h.reply.status == 400 || h.reply.status == 200 || h.reply.status == 429 || h.reply.status == 500
    ensures h.reply.status == 429 <==> |h.aiCalls| == 1 && ai(h.aiCalls[0]).Threw? && ai(h.aiCalls[0]).status == Some(429)
    // a refused question gets the reply of its own validation error
    ensures Validate(q).Err? ==> h.reply == Reply(400, Failure(MessageOf(Validate(q).error), None))
    // a thrown AI error gets the status and message of its own class
    ensures Validate(q).Ok? && ai(Validate(q).value).Threw? ==>
      var k := Classify(ai(Validate(q).value).status);
      h.reply.status == StatusOf(k) && h.reply.body.message == MessageOf(k)
    // technical detail only in development, only for unclassified errors, and then the error's own message
    ensures h.reply.body.Failure? && h.reply.body.detail.Some? ==>
      IsDevelopment(nodeEnv) && h.reply.body.message == GenericFailureMessage
      && h.reply.body.detail == Some(ai(h.aiCalls[0]).message)
  {
    match Validate(q)
    case Err(k) => Handled(Reply(StatusOf(k), Failure(MessageOf(k), None)), [])
    case Ok(t) =>
      var reply := match ai(t)
        case Answered(a) => Reply(200, Answer(t, a, now))
        case Threw(status, message) =>
          var k := Classify(status);
          Reply(StatusOf(k), Failure(MessageOf(k),
                if k == Unknown && IsDevelopment(nodeEnv) then Some(message) else None));
      Handled(reply, [t])
  }

  /** A blank or missing question is refused with 400 and the AI is never asked. */
  lemma BlankQuestionRefused(q: RawQuestion, ai: string -> AiOutcome, nodeEnv: Option<string>, now: string)
    requires !q.Text? || AllWhiteSpace(q.text)
    ensures Handle(q, ai, nodeEnv, now) == Handled(Reply(400, Failure(InvalidQuestionMessage, None)), [])
  {
  }

  /** A trimmed question of 1000 characters is sent on; one of 1001 is refused. */
  lemma LengthBoundary(ws: string, t: string, ai: string -> AiOutcome, nodeEnv: Option<string>, now: string)
    requires AllWhiteSpace(ws) && IsTrimmed(t) && t != []
    ensures |t| == 1000 ==> Handle(Text(ws + t + ws), ai, nodeEnv, now).aiCalls == [t]
    ensures |t| == 1001 ==>
      Handle(Text(ws + t + ws), ai, nodeEnv, now) == Handled(Reply(400, Failure(TooLongMessage, None)), [])
  {
    TrimPadded(ws, t, ws);
  }

  /** Every question whose trimmed text is longer than 1000 is refused with the too-long message. */
  lemma TooLongRefused(q: RawQuestion, ai: string -> AiOutcome, nodeEnv: Option<string>, now: string)
    requires q.Text? && |Trim(q.text)| > MaxQuestionLength
    ensures Handle(q, ai, nodeEnv, now) == Handled(Reply(400, Failure(TooLongMessage, None)), [])
  {
  }

  /** An upstream 401 becomes a 500 carrying the configuration message, never a 401. */
  lemma UpstreamUnauthorized(q: RawQuestion, ai: string -> AiOutcome, nodeEnv: Option<string>, now: string)
    requires Validate(q).Ok? && ai(Validate(q).value).Threw? && ai(Validate(q).value).status == Some(401)
    ensures Handle(q, ai, nodeEnv, now).reply == Reply(500, Failure(MisconfiguredMessage, None))
  {
  }

  /** An upstream 429 becomes a 429 with the exact waiting message. */
  lemma UpstreamRateLimited(q: RawQuestion, ai: string -> AiOutcome, nodeEnv: Option<string>, now: string)
    requires Validate(q).Ok? && ai(Validate(q).value).Threw? && ai(Validate(q).value).status == Some(429)
    ensures Handle(q, ai, nodeEnv, now).reply == Reply(429, Failure(RateLimitedMessage, None))
  {
  }

  /** Any other failure is a 500 with the apology, with the error's message attached only in development. */
  lemma UpstreamOtherFailure(q: RawQuestion, ai: string -> AiOutcome, nodeEnv: Option<string>, now: string)
    requires Validate(q).Ok? && ai(Validate(q).value).Threw?
    requires ai(Validate(q).value).status != Some(429) && ai(Validate(q).value).status != Some(401)
    ensures Handle(q, ai, nodeEnv, now).reply == Reply(500, Failure(GenericFailureMessage,
              if IsDevelopment(nodeEnv) then Some(ai(Validate(q).value).message) else None))
  {
  }

  /** An accepted question that the AI answers comes back echoed, trimmed, with the answer unchanged. */
  lemma AnsweredQuestionEchoed(ws: string, t: string, ai: string -> AiOutcome, nodeEnv: Option<string>, now: string)
    requires AllWhiteSpace(ws) && IsTrimmed(t) && 0 < |t| <= MaxQuestionLength
    requires ai(t).Answered?
    ensures Handle(Text(ws + t + ws), ai, nodeEnv, now) == Handled(Reply(200, Answer(t, ai(t).answer, now)), [t])
  {
    TrimPadded(ws, t, ws);
  }
}
