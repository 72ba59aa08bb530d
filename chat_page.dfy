/**
 * The chat page: a transcript that starts with one greeting, an input box,
 * and a submit handler that appends the user's trimmed question and then
 * one AI message (the answer, or a fixed apology). `loading` and `typing`
 * are true while the request is out.
 */
module ChatPage {
  import opened Wrappers
  import opened JsText
  import ChatController

  datatype Role = User | Ai

  datatype Message = Message(role: Role, content: string)

  const GreetingText := "Namaste 🙏 I am Margdarshi, your guide powered by the wisdom of Shrimad Bhagavad Gita. Ask me any question about life, purpose, dharma, or karma, and I will share insights from this eternal scripture."
  const ApologyText := "I apologize, but I encountered an issue. Please try again or rephrase your question. Remember, I can only answer questions related to spiritual guidance based on Bhagavad Gita."

  const Greeting := Message(Ai, GreetingText)

  /** How the request to `/api/chat/geeta` ended: a 2xx reply's `answer`, or a thrown error. */
  datatype ChatReply = Received(answer: string) | RequestFailed

  /** The AI message appended for a reply. */
  function AiMessage(reply: ChatReply): (m: Message)
    ensures m.role == Ai
    ensures m.content == if reply.Received? then reply.answer else ApologyText
  {
    match reply
    case Received(a) => Message(Ai, a)
    case RequestFailed => Message(Ai, ApologyText)
  }

  /**
   * What the page sees of the server's reply: axios resolves only for a
   * 2xx status, and then the page reads the `answer` field (a 2xx reply
   * without one is not something the server sends).
   */
  function ReplyFor(r: ChatController.Reply): (c: ChatReply)
    ensures c.Received? <==> 200 <= r.status < 300 && r.Success()
    ensures c.Received? ==> c.answer == r.body.answer
  {
    if 200 <= r.status < 300 && r.body.Answer? then Received(r.body.answer) else RequestFailed
  }

  /**
   * Across the two ends: the page shows the AI's answer exactly when the
   * server accepted the question and the AI answered it, and the apology
   * for every refusal and every upstream failure.
   */
  lemma ShownReply(q: ChatController.RawQuestion, ai: string -> ChatController.AiOutcome, nodeEnv: Option<string>, now: string)
    ensures var h := ChatController.Handle(q, ai, nodeEnv, now);
      AiMessage(ReplyFor(h.reply)).content ==
        if ChatController.Validate(q).Ok? && ai(ChatController.Validate(q).value).Answered?
        then ai(ChatController.Validate(q).value).answer else ApologyText
  {
  }

  /**
   * The shape of the transcript: the greeting, then user and AI messages
   * alternating, ending on a user message exactly while a request is out.
   */
  predicate WellFormed(ms: seq<Message>, pending: bool) {
    |ms| >= 1 && ms[0] == Greeting
    && (forall i :: 1 <= i < |ms| ==> ms[i].role == if i % 2 == 1 then User else Ai)
    && (pending <==> |ms| % 2 == 0)
  }

  lemma WellFormedAppend(ms: seq<Message>, pending: bool, m: Message)
    requires WellFormed(ms, pending)
    requires m.role == if pending then Ai else User
    ensures WellFormed(ms + [m], !pending)
  {
    var ns := ms + [m];
    forall i | 1 <= i < |ns| ensures ns[i].role == if i % 2 == 1 then User else Ai {
      if i < |ms| { assert ns[i] == ms[i]; }
    }
  }

  class ChatView {
    var messages: seq<Message>
    var input: string
    var loading: bool
    var typing: bool

    ghost predicate Valid()
      reads this
    {
      typing == loading && WellFormed(messages, loading)
    }

    constructor ()
      ensures Valid()
      ensures messages == [Greeting] && input == "" && !loading && !typing
    {
      messages := [Greeting];
      input := "";
      loading, typing := false, false;
    }

    method SetInput(value: string)
      requires Valid()
      modifies this
      ensures Valid()
      ensures input == value && messages == old(messages) && loading == old(loading) && typing == old(typing)
    {
      input := value;
    }

    /**
     * The part of `handleSubmit` before the request: a blank input, or a
     * submission while one is out, changes nothing; otherwise the input is
     * cleared, the trimmed text is appended as the user's message and sent,
     * and `loading` and `typing` go up.
     */
    method BeginSubmit() returns (question: Option<string>)
      requires Valid()
      modifies this
      ensures Valid()
      ensures (AllWhiteSpace(old(input)) || old(loading)) ==>
        question.None? && messages == old(messages) && input == old(input)
        && loading == old(loading) && typing == old(typing)
      ensures !(AllWhiteSpace(old(input)) || old(loading)) ==>
        question == Some(Trim(old(input))) && input == ""
        && messages == old(messages) + [Message(User, Trim(old(input)))]
        && loading && typing
    {
      if Trim(input) == [] || loading {
        question := None;
        return;
      }
      var userMessage := Trim(input);
      input := "";
      WellFormedAppend(messages, loading, Message(User, userMessage));
      messages := messages + [Message(User, userMessage)];
      loading := true;
      typing := true;
      question := Some(userMessage);
    }

    /**
     * The part of `handleSubmit` after the request ended; it runs only for
     * a submission that `BeginSubmit` started. One AI message is appended
     * and both flags go down.
     */
    method CompleteSubmit(reply: ChatReply)
      requires Valid() && loading
      modifies this
      ensures Valid()
      ensures messages == old(messages) + [AiMessage(reply)]
      ensures input == old(input) && !loading && !typing
    {
      typing := false;
      WellFormedAppend(messages, true, AiMessage(reply));
      messages := messages + [AiMessage(reply)];
      loading := false;
    }

    /**
     * `handleSubmit` as a whole for a request that ends with `reply`: either
     * nothing changes, or exactly two messages are appended, the user's
     * trimmed text and then the AI's, after an unchanged transcript.
     */
    method Submit(reply: ChatReply) returns (question: Option<string>)
      requires Valid()
      modifies this
      ensures Valid()
      ensures (AllWhiteSpace(old(input)) || old(loading)) ==>
        question.None? && messages == old(messages) && input == old(input) && loading == old(loading)
      ensures !(AllWhiteSpace(old(input)) || old(loading)) ==>
        question == Some(Trim(old(input))) && input == "" && !loading && !typing
        && messages == old(messages) + [Message(User, Trim(old(input))), AiMessage(reply)]
    {
      question := BeginSubmit();
      if question.Some? {
        CompleteSubmit(reply);
      }
    }
  }
}
