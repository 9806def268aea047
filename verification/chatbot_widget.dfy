/**
 * The chat widget's conversation state: the message history, the text in
 * the input box and the loading flag, and the send handler that moves them
 * step by step. The answer of the chat endpoint is a parameter.
 */
module ChatbotWidget {
  import opened Wrappers
  import opened Text
  import ChatRoute

  datatype Sender = User | Bot

  datatype Message = Message(text: string, sender: Sender)

  /** How the request to the chat endpoint ended: a reply, or a non-ok status or thrown error. */
  datatype Outcome = Answered(reply: string) | Failed

  const WelcomeText := "Hi there! I'm your DeGi assistant. I can help analyze your skills and find opportunities. Start by submitting your profiles!"
  const ApologyText := "Sorry, I'm having trouble responding right now. Please try again later."

  const Welcome := Message(WelcomeText, Bot)

  /** The bot message appended when a request ends. */
  function BotMessage(outcome: Outcome): Message
  {
    match outcome
    case Answered(reply) => Message(reply, Bot)
    case Failed => Message(ApologyText, Bot)
  }

  /**
   * What the in-repository chat endpoint makes of a sent text, when the
   * request reaches it: its 400 is a non-ok response, which the widget turns
   * into a thrown error and so into the apology.
   */
  function EndpointOutcome(sent: string): (r: Outcome)
    ensures r.Failed? <==> ChatRoute.Post(Some(sent)).BadRequest?
    ensures r.Failed? <==> sent == ""
    ensures r.Answered? ==> r.reply == ChatRoute.Reply(sent) && r.reply in ChatRoute.Replies
  {
    match ChatRoute.Post(Some(sent))
    case Replied(reply) => Answered(reply)
    case BadRequest(_) => Failed
  }

  /** A text the widget lets through is never refused by the endpoint, and gets one of its fixed replies. */
  lemma SentTextIsAnswered(sent: string)
    requires !IsBlank(sent)
    ensures EndpointOutcome(sent) == Answered(ChatRoute.Reply(sent))
    ensures ChatRoute.Reply(sent) in ChatRoute.Replies
  {
    assert sent != "";
  }

  class Widget {
    var isOpen: bool
    var messages: seq<Message>
    var currentMessage: string
    var isLoading: bool

    /**
     * The history opens with the welcome message, then alternates user and
     * bot messages; no user message is blank; a request is in flight
     * exactly when the last message is the user's; and while it is, the
     * input box is empty (it was cleared on sending and is disabled).
     */
    ghost predicate Valid()
      reads this
    {
      && |messages| >= 1
      && messages[0] == Welcome
      && (forall i :: 0 <= i < |messages| ==> messages[i].sender == (if i % 2 == 0 then Bot else User))
      && (forall i :: 0 <= i < |messages| && messages[i].sender == User ==> !IsBlank(messages[i].text))
      && (isLoading <==> |messages| % 2 == 0)
      && (isLoading ==> currentMessage == "")
    }

    constructor ()
      ensures Valid()
      ensures messages == [Welcome] && currentMessage == "" && !isLoading && !isOpen
    {
      isOpen := false;
      messages := [Welcome];
      currentMessage := "";
      isLoading := false;
    }

    /** The launcher button opens the panel. */
    method Open()
      requires Valid()
      modifies this`isOpen
      ensures Valid() && isOpen
    {
      isOpen := true;
    }

    /** The close button hides the panel; the conversation is kept. */
    method Close()
      requires Valid()
      modifies this`isOpen
      ensures Valid() && !isOpen
    {
      isOpen := false;
    }

    /** Typing into the input box; the box is disabled while a request is in flight. */
    method Edit(text: string)
      requires Valid()
      modifies this`currentMessage
      ensures Valid()
      ensures currentMessage == if old(isLoading) then old(currentMessage) else text
    {
      if !isLoading {
        currentMessage := text;
      }
    }

    /**
     * The synchronous part of the send handler: blank input, or a request
     * already in flight, changes nothing; otherwise the input text, untrimmed,
     * is appended as a user message, the box is cleared, loading is set and
     * the text to send is returned.
     */
    method BeginSend() returns (sent: Option<string>)
      requires Valid()
      modifies this`messages, this`currentMessage, this`isLoading
      ensures Valid()
      ensures sent.None? <==> old(IsBlank(currentMessage)) || old(isLoading)
      ensures sent.None? ==> messages == old(messages) && currentMessage == old(currentMessage) && isLoading == old(isLoading)
      ensures sent.Some? ==> && sent.value == old(currentMessage)
                             && messages == old(messages) + [Message(old(currentMessage), User)]
                             && currentMessage == ""
                             && isLoading
    {
      if Trim(currentMessage) == "" || isLoading {
        return None;
      }
      sent := Some(currentMessage);
      messages := messages + [Message(currentMessage, User)];
      currentMessage := "";
      isLoading := true;
    }

    /** The end of the request: one bot message (the reply or the apology) is appended and loading ends. */
    method Complete(outcome: Outcome)
      requires Valid() && isLoading
      modifies this`messages, this`isLoading
      ensures Valid()
      ensures outcome.Answered? ==> messages == old(messages) + [Message(outcome.reply, Bot)]
      ensures outcome.Failed? ==> messages == old(messages) + [Message(ApologyText, Bot)]
      ensures !isLoading
    {
      messages := messages + [BotMessage(outcome)];
      isLoading := false;
    }

    /**
     * `handleSendMessage` from start to finish, with the endpoint's outcome
     * as a parameter: an accepted send grows the history by exactly the
     * user message and one bot message.
     */
    method HandleSendMessage(outcome: Outcome) returns (sent: Option<string>)
      requires Valid()
      modifies this`messages, this`currentMessage, this`isLoading
      ensures Valid()
      ensures sent.None? <==> old(IsBlank(currentMessage)) || old(isLoading)
      ensures sent.None? ==> messages == old(messages) && currentMessage == old(currentMessage) && isLoading == old(isLoading)
      ensures sent.Some? ==> && sent.value == old(currentMessage)
                             && |messages| == old(|messages|) + 2
                             && messages[..|messages| - 1] == old(messages) + [Message(old(currentMessage), User)]
                             && currentMessage == ""
                             && !isLoading
      ensures sent.Some? && outcome.Answered? ==> messages[|messages| - 1] == Message(outcome.reply, Bot)
      ensures sent.Some? && outcome.Failed? ==> messages[|messages| - 1] == Message(ApologyText, Bot)
    {
      sent := BeginSend();
      if sent.Some? {
        Complete(outcome);
      }
    }
  }

  /**
   * A conversation seen from the outside: "hello" is sent and answered by
   * the chat endpoint with its greeting. While that request is in flight the
   * input box is disabled, so typing into it changes nothing and pressing
   * send again is ignored.
   */
  method Conversation() returns (history: seq<Message>, ignored: bool)
    ensures history == [Welcome, Message("hello", User), Message(ChatRoute.GreetingReply, Bot)]
    ensures ignored
  {
    var w := new Widget();
    w.Edit("hello");
    var first := w.BeginSend();
    assert first == Some("hello") by {
      assert !IsBlank("hello") by { assert !IsWhitespace("hello"[0]); }
    }
    w.Edit("hello again");
    var second := w.BeginSend();
    ignored := second.None?;
    ChatRouteGreeting();
    w.Complete(EndpointOutcome("hello"));
    history := w.messages;
  }

  /** The chat endpoint greets "hello". */
  lemma ChatRouteGreeting()
    ensures EndpointOutcome("hello") == Answered(ChatRoute.GreetingReply)
  {
    assert ToLower("hello") == "hello";
    assert OccursAt("hello", "hello", 0);
    IncludesIff("hello", "hello");
    ChatRoute.GreetingWins("hello");
  }
}
