/**
 * Two separate scenarios. `LogInThenReload` logs in and reloads the page,
 * so the stored token is checked again. `AskOnChatPage` starts from a fresh
 * chat page and asks a question that the server's handler answers through
 * the AI service; it does not depend on the session of the first.
 */
module Scenario {
  import opened Wrappers
  import opened JsText
  import opened Navigation
  import opened AuthContext
  import opened LoginPage
  import opened ChatPage
  import ChatController

  const Question := "What is dharma?"

  /** A login with a token that decodes to unexpired claims survives a reload. */
  method LogInThenReload(token: string, c: Claims, decode: string -> Option<Claims>, nowMs: int)
    returns (navigation: Option<Navigation>, session: Session)
    requires token != "" && decode(token) == Some(c) && Unexpired(c, nowMs)
    ensures navigation == Some(Navigate("/chat", None))
    ensures session == Session(Some(token), Some(BearerHeader(token)), Some(c), false)
  {
    var auth := new AuthProvider(None);
    auth.RestoreSession(decode, nowMs);
    var form := new LoginForm();
    form.SetEmail("arjun@gita.in");
    form.SetPassword("secret");
    navigation := form.Submit(auth, TokenIssued(token), decode);
    var reloaded := new AuthProvider(auth.storedToken);
    reloaded.RestoreSession(decode, nowMs);
    session := reloaded.State();
  }

  /** The question is already trimmed, and so is anything that pads it with white space. */
  lemma QuestionTrims(ws: string, ws2: string)
    requires AllWhiteSpace(ws) && AllWhiteSpace(ws2)
    ensures Trim(ws + Question + ws2) == Question
  {
    assert IsTrimmed(Question) by { assert Question[0] == 'W' && Question[|Question| - 1] == '?'; }
    TrimPadded(ws, Question, ws2);
  }

  lemma QuestionIsTrimmed()
    ensures Trim(Question) == Question
  {
    QuestionTrims("", "");
    assert "" + Question + "" == Question;
  }

  /**
   * Whatever the user typed around the question, the page sends it trimmed,
   * the server echoes it with the AI's answer, and the transcript shows the
   * greeting, the question and the answer.
   */
  method AskOnChatPage(typed: string, ai: string -> ChatController.AiOutcome, nodeEnv: Option<string>, now: string)
    returns (reply: ChatController.Reply, transcript: seq<Message>)
    requires Trim(typed) == Question
    requires ai(Question).Answered?
    ensures reply == ChatController.Reply(200, ChatController.Answer(Question, ai(Question).answer, now))
    ensures |transcript| == 3 && transcript[0] == Greeting
    ensures transcript[1] == Message(User, Question) && transcript[2] == Message(Ai, ai(Question).answer)
  {
    QuestionIsTrimmed();
    var chat := new ChatView();
    chat.SetInput(typed);
    var sent := chat.BeginSubmit();
    var handled := ChatController.Handle(ChatController.Text(sent.value), ai, nodeEnv, now);
    reply := handled.reply;
    chat.CompleteSubmit(ReplyFor(reply));
    transcript := chat.messages;
  }
}
