/** The chat page: an optimistic, append-only transcript sent whole to POST /ai/chat, with a
    fixed assistant apology on failure, and the quick-action dispatch. */
module ChatPage {
  import opened Common
  import opened Wire
  import ChatBox

  const ChatFailureText := "Sorry, something went wrong with the AI request."

  function UserTurn(content: string): Message
  {
    Message("user", content)
  }

  /** The assistant turn the page appends once the request settles. */
  function AssistantReply(res: Outcome<Body>): (m: Message)
    ensures m.role == "assistant"
    ensures res.Success? ==> m.content == FieldText(res.data, "answer")
    ensures res.Failure? ==> m.content == ChatFailureText
  {
    match res
    case Success(body) => Message("assistant", FieldText(body, "answer"))
    case Failure(_) => Message("assistant", ChatFailureText)
  }

  /** The canned message each quick action sends; any other kind sends nothing. */
  function QuickPrompt(kind: string): (p: Option<string>)
    ensures p.Some? <==> kind == "mcq" || kind == "summary" || kind == "plan"
    ensures kind == "mcq" ==> p == Some("Generate 100 multiple-choice questions from my current notebook.")
    ensures kind == "summary" ==> p == Some("Create a concise exam summary for this notebook.")
    ensures kind == "plan" ==> p == Some("Make a day-by-day study plan for this exam.")
  {
    if kind == "mcq" then Some("Generate 100 multiple-choice questions from my current notebook.")
    else if kind == "summary" then Some("Create a concise exam summary for this notebook.")
    else if kind == "plan" then Some("Make a day-by-day study plan for this exam.")
    else None
  }

  /** Every quick button of the chat box reaches a canned prompt. */
  lemma QuickButtonsAllDispatch()
    ensures forall i :: 0 <= i < |ChatBox.QuickButtons| ==> QuickPrompt(ChatBox.QuickButtons[i].1).Some?
  {
  }

  /** A transcript built by complete exchanges only: user turns at even positions, assistant
      turns at odd ones, and no unanswered user turn. */
  predicate Alternating(ms: seq<Message>)
  {
    |ms| % 2 == 0 && forall i :: 0 <= i < |ms| ==> ms[i].role == (if i % 2 == 0 then "user" else "assistant")
  }

  /** One complete exchange keeps the transcript alternating. */
  lemma ExchangeKeepsAlternation(ms: seq<Message>, content: string, res: Outcome<Body>)
    requires Alternating(ms)
    ensures Alternating(ms + [UserTurn(content), AssistantReply(res)])
  {
    var t := ms + [UserTurn(content), AssistantReply(res)];
    forall i | 0 <= i < |t|
      ensures t[i].role == (if i % 2 == 0 then "user" else "assistant")
    {
      if i < |ms| {
        assert t[i] == ms[i];
      }
    }
  }

  /** What the `send` closure holds across its await: the transcript with the new user turn. */
  datatype PendingChat = PendingChat(newMessages: seq<Message>)

  class ChatSession {
    var messages: seq<Message>
    var notebookId: string
    var loading: bool

    constructor ()
      ensures messages == [] && notebookId == "" && !loading
    {
      messages, notebookId, loading := [], "", false;
    }

    /** The part of `send` before its await: the user turn is appended at once, the page is busy,
        and the request carries the whole new transcript, with an empty id sent as null. */
    method BeginSend(content: string) returns (pending: PendingChat, sent: Request)
      modifies this`messages, this`loading
      ensures messages == old(messages) + [UserTurn(content)] && loading
      ensures pending == PendingChat(messages)
      ensures sent == PostChat(NullIfEmpty(notebookId), messages)
    {
      var newMessages := messages + [UserTurn(content)];
      messages := newMessages;
      loading := true;
      pending := PendingChat(newMessages);
      sent := PostChat(NullIfEmpty(notebookId), newMessages);
    }

    /** The part after the await: the captured transcript plus one assistant turn, not busy. */
    method CompleteSend(pending: PendingChat, res: Outcome<Body>)
      modifies this`messages, this`loading
      ensures messages == pending.newMessages + [AssistantReply(res)] && !loading
    {
      messages := pending.newMessages + [AssistantReply(res)];
      loading := false;
    }

    /** A send that settles before anything else happens: the transcript grows by exactly the user
        turn and one assistant turn, the old turns stay as they were, and alternation is kept. */
    method Send(content: string, res: Outcome<Body>) returns (sent: Request)
      modifies this`messages, this`loading
      ensures messages == old(messages) + [UserTurn(content), AssistantReply(res)]
      ensures |messages| == |old(messages)| + 2 && messages[..|old(messages)|] == old(messages)
      ensures sent == PostChat(NullIfEmpty(notebookId), old(messages) + [UserTurn(content)])
      ensures Alternating(old(messages)) ==> Alternating(messages)
      ensures !loading
    {
      var pending;
      pending, sent := BeginSend(content);
      CompleteSend(pending, res);
      assert messages == old(messages) + [UserTurn(content), AssistantReply(res)];
      if Alternating(old(messages)) {
        ExchangeKeepsAlternation(old(messages), content, res);
      }
    }

    /** `handleQuick`: a known kind sends its canned prompt through `send`; any other kind
        changes nothing. */
    method HandleQuick(kind: string, res: Outcome<Body>) returns (sent: Option<Request>)
      modifies this`messages, this`loading
      ensures QuickPrompt(kind).None? ==> (sent == None && messages == old(messages) && loading == old(loading))
      ensures QuickPrompt(kind).Some? ==> (sent == Some(PostChat(NullIfEmpty(notebookId), old(messages) + [UserTurn(QuickPrompt(kind).value)]))
        && messages == old(messages) + [UserTurn(QuickPrompt(kind).value), AssistantReply(res)] && !loading)
    {
      match QuickPrompt(kind)
      case None => sent := None;
      case Some(prompt) =>
        var one := Send(prompt, res);
        sent := Some(one);
    }
  }
}
