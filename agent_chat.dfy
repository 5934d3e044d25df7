/** The `useAgentChat` hook: the canned responder and the sequence of store
    updates that `sendMessage` performs around one awaited response. The
    await splits `sendMessage` into `StartSend`, which runs up to the call
    of the responder, and `Settle`, which runs once the responder has
    settled with the outcome supplied by the caller. */
module AgentChat {
  import opened Common
  import opened Text
  import opened ChatStore

  /** A value caught by `catch (err)`: an `Error` with its message, or
      anything else. */
  datatype Thrown = ErrorInstance(message: string) | OtherValue

  /** How the awaited responder settled. */
  datatype Outcome = Resolved(response: string) | Rejected(reason: Thrown)

  /** `err instanceof Error ? err.message : 'An error occurred'`. */
  function ErrorText(e: Thrown): (text: string)
    ensures e.ErrorInstance? ==> text == e.message
    ensures e.OtherValue? ==> text == "An error occurred"
  {
    match e
    case ErrorInstance(message) => message
    case OtherValue => "An error occurred"
  }

  const HelloReply := "Hello! I'm Oxid, your AI coding assistant. How can I help you today?"
  const HelpReply := "I can help you with:\n• Code generation and editing\n• Project structure\n• File operations\n• Debugging\n\nWhat would you like to work on?"
  const TestReply := "This is a test response from the mock AI. In the future, I'll be powered by real AI models like Claude or GPT!"

  function EchoReply(userMessage: string): string {
    "I received your message: \"" + userMessage + "\". This is a mock response for now. Soon I'll be powered by real AI capabilities!"
  }

  /** `userMessage.toLowerCase().includes(keyword)`. */
  predicate Mentions(userMessage: string, keyword: string) {
    Contains(ToLower(userMessage), keyword)
  }

  predicate MentionsKeyword(userMessage: string) {
    Mentions(userMessage, "hello") || Mentions(userMessage, "help") || Mentions(userMessage, "test")
  }

  /** The mock responder (its delay left out): a case-insensitive keyword
      cascade in which "hello" beats "help" and "help" beats "test", and
      otherwise a reply that quotes the message verbatim. */
  function MockAIResponse(userMessage: string): (r: string)
    ensures Mentions(userMessage, "hello") ==> r == HelloReply
    ensures !Mentions(userMessage, "hello") && Mentions(userMessage, "help") ==> r == HelpReply
    ensures !Mentions(userMessage, "hello") && !Mentions(userMessage, "help") && Mentions(userMessage, "test") ==>
              r == TestReply
    ensures !MentionsKeyword(userMessage) ==> r == EchoReply(userMessage) && Contains(r, userMessage)
  {
    if Mentions(userMessage, "hello") then HelloReply
    else if Mentions(userMessage, "help") then HelpReply
    else if Mentions(userMessage, "test") then TestReply
    else
      ContainsMiddle("I received your message: \"", userMessage,
                     "\". This is a mock response for now. Soon I'll be powered by real AI capabilities!");
      EchoReply(userMessage)
  }

  /** Only the lower-cased message decides a keyword reply: lowering the
      message first gives the same reply. */
  lemma MockIgnoresCase(userMessage: string)
    requires MentionsKeyword(userMessage)
    ensures MockAIResponse(ToLower(userMessage)) == MockAIResponse(userMessage)
  {
    ToLowerIdempotent(userMessage);
  }

  /** The greeting wins over the other keywords, whatever the case. */
  lemma MockHelloFirst()
    ensures MockAIResponse("HELP, HeLLo") == HelloReply
  {
    var s := "HELP, HeLLo";
    var lowered := ToLower(s);
    assert s[6] == 'H' && s[7] == 'e' && s[8] == 'L' && s[9] == 'L' && s[10] == 'o';
    assert lowered[6] == 'h' && lowered[7] == 'e' && lowered[8] == 'l' && lowered[9] == 'l' && lowered[10] == 'o';
    assert lowered[6..][..5] == "hello";
    assert IsPrefix("hello", lowered[6..]);
  }

  /** The store actions `sendMessage` performs before the await: none for
      blank input; otherwise clear the error, append the trimmed input as a
      user message, and raise the loading flag. */
  function StartActions(content: string, id: Id, timestamp: Date): (acts: seq<Action>)
    ensures NoClear(acts)
    ensures acts == [] <==> IsBlank(content)
    ensures acts != [] ==>
      && acts[0] == SetError(None)
      && (forall k :: 0 <= k < |acts| && acts[k].AddMessage? ==>
            acts[k] == AddMessage(Trim(content), User, id, timestamp))
      && acts[|acts| - 1] == SetLoading(true)
  {
    if IsBlank(content) then []
    else [SetError(None), AddMessage(Trim(content), User, id, timestamp), SetLoading(true)]
  }

  /** The store actions after the await: on success the `try` block appends
      the reply, on failure the `catch` block records the error text; the
      `finally` block lowers the loading flag in both cases. */
  function SettleActions(outcome: Outcome, id: Id, timestamp: Date): (acts: seq<Action>)
    ensures NoClear(acts)
    ensures |acts| == 2 && acts[1] == SetLoading(false)
    ensures outcome.Resolved? ==> acts[0] == AddMessage(outcome.response, Assistant, id, timestamp)
    ensures outcome.Rejected? ==> forall k :: 0 <= k < |acts| ==> !acts[k].AddMessage?
  {
    match outcome
    case Resolved(response) => [AddMessage(response, Assistant, id, timestamp), SetLoading(false)]
    case Rejected(reason) => [SetError(Some(ErrorText(reason))), SetLoading(false)]
  }

  /** Blank input leaves the store alone. Any other input, whatever the
      loading flag was, clears the error, appends exactly one user message
      holding the trimmed input, and sets the loading flag. */
  lemma {:induction false} StartSendEffect(s: ChatState, content: string, id: Id, timestamp: Date)
    ensures IsBlank(content) ==> Run(s, StartActions(content, id, timestamp)) == s
    ensures !IsBlank(content) ==>
      var t := Run(s, StartActions(content, id, timestamp));
      && t.messages == s.messages + [Message(id, User, Trim(content), timestamp)]
      && t.isLoading
      && t.error == None
  {
    if !IsBlank(content) {
      var acts := StartActions(content, id, timestamp);
      var s1 := Apply(s, acts[0]);
      var s2 := Apply(s1, acts[1]);
      var s3 := Apply(s2, acts[2]);
      assert acts[1..][1..][1..] == [];
      assert Run(s, acts) == Run(s1, acts[1..]) == Run(s2, acts[1..][1..]) == Run(s3, []);
    }
  }

  /** A success appends exactly one assistant message with the reply and
      keeps the error; a failure appends nothing and records the error text.
      Either way the loading flag ends false. */
  lemma {:induction false} SettleEffect(s: ChatState, outcome: Outcome, id: Id, timestamp: Date)
    ensures var t := Run(s, SettleActions(outcome, id, timestamp));
      && !t.isLoading
      && (outcome.Resolved? ==>
            t.messages == s.messages + [Message(id, Assistant, outcome.response, timestamp)] && t.error == s.error)
      && (outcome.Rejected? ==>
            t.messages == s.messages && t.error == Some(ErrorText(outcome.reason)))
  {
    var acts := SettleActions(outcome, id, timestamp);
    var s1 := Apply(s, acts[0]);
    var s2 := Apply(s1, acts[1]);
    assert acts[1..][1..] == [];
    assert Run(s, acts) == Run(s1, acts[1..]) == Run(s2, []);
  }

  /** One whole `sendMessage` of non-blank input with nothing in between:
      the transcript gains the user message and, on success, the reply after
      it; the error is cleared or is the failure's text; loading ends false. */
  lemma SendMessageEffect(s: ChatState, content: string, outcome: Outcome,
                          userId: Id, userTime: Date, replyId: Id, replyTime: Date)
    requires !IsBlank(content)
    ensures var t := Run(s, StartActions(content, userId, userTime) + SettleActions(outcome, replyId, replyTime));
      var sent := Message(userId, User, Trim(content), userTime);
      && !t.isLoading
      && (outcome.Resolved? ==>
            t.messages == s.messages + [sent, Message(replyId, Assistant, outcome.response, replyTime)]
            && t.error == None)
      && (outcome.Rejected? ==>
            t.messages == s.messages + [sent] && t.error == Some(ErrorText(outcome.reason)))
  {
    var starts := StartActions(content, userId, userTime);
    RunAppend(s, starts, SettleActions(outcome, replyId, replyTime));
    StartSendEffect(s, content, userId, userTime);
    SettleEffect(Run(s, starts), outcome, replyId, replyTime);
  }

  /** There is no request token: a reply that arrives after `clearChat`
      is still appended, to the emptied transcript. */
  lemma StaleReplyAfterClear(s: ChatState, content: string, response: string,
                             userId: Id, userTime: Date, replyId: Id, replyTime: Date)
    requires !IsBlank(content)
    ensures Run(s, StartActions(content, userId, userTime) + [ClearChat]
                   + SettleActions(Resolved(response), replyId, replyTime))
            == ChatState([Message(replyId, Assistant, response, replyTime)], false, None)
  {
    var starts := StartActions(content, userId, userTime);
    var settles := SettleActions(Resolved(response), replyId, replyTime);
    RunAppend(s, starts + [ClearChat], settles);
    RunAppend(s, starts, [ClearChat]);
    assert Run(Run(s, starts), [ClearChat]) == Initial();
    SettleEffect(Initial(), Resolved(response), replyId, replyTime);
  }

  lemma HelloIsTrimmed()
    ensures Trim("Hello") == "Hello" && !IsBlank("Hello")
  {
    var s := "Hello";
    assert s[0] == 'H' && s[4] == 'o';
    assert Unpadded(s);
    TrimUnpadded(s);
  }

  /** "Hello" answered with "Hi there", from the initial state. */
  lemma HelloAnswered(userId: Id, userTime: Date, replyId: Id, replyTime: Date)
    ensures Run(Initial(), StartActions("Hello", userId, userTime)
                           + SettleActions(Resolved("Hi there"), replyId, replyTime))
            == ChatState([Message(userId, User, "Hello", userTime),
                          Message(replyId, Assistant, "Hi there", replyTime)], false, None)
  {
    HelloIsTrimmed();
    SendMessageEffect(Initial(), "Hello", Resolved("Hi there"), userId, userTime, replyId, replyTime);
  }

  /** "Hello" met by a rejection with `Error("network down")`. */
  lemma HelloRejected(userId: Id, userTime: Date, replyId: Id, replyTime: Date)
    ensures Run(Initial(), StartActions("Hello", userId, userTime)
                           + SettleActions(Rejected(ErrorInstance("network down")), replyId, replyTime))
            == ChatState([Message(userId, User, "Hello", userTime)], false, Some("network down"))
  {
    HelloIsTrimmed();
    SendMessageEffect(Initial(), "Hello", Rejected(ErrorInstance("network down")),
                      userId, userTime, replyId, replyTime);
  }

  /** `sendMessage` up to the await. `request` is the text the responder is
      called with: the trimmed input, or nothing when the input is blank.
      The loading flag is not consulted. */
  method StartSend(store: AgentChatStore, content: string, id: Id, timestamp: Date)
      returns (request: Option<string>)
    modifies store
    ensures store.State() == Run(old(store.State()), StartActions(content, id, timestamp))
    ensures request == if IsBlank(content) then None else Some(Trim(content))
  {
    if IsBlank(content) {
      return None;
    }
    ghost var s0 := store.State();
    store.SetError(None);
    store.AddMessage(Trim(content), User, id, timestamp);
    store.SetLoading(true);
    StartSendEffect(s0, content, id, timestamp);
    request := Some(Trim(content));
  }

  /** `sendMessage` after the await, given how the responder settled. */
  method Settle(store: AgentChatStore, outcome: Outcome, id: Id, timestamp: Date)
    modifies store
    ensures store.State() == Run(old(store.State()), SettleActions(outcome, id, timestamp))
  {
    ghost var s0 := store.State();
    match outcome {
      case Resolved(response) =>
        store.AddMessage(response, Assistant, id, timestamp);
      case Rejected(reason) =>
        store.SetError(Some(ErrorText(reason)));
    }
    store.SetLoading(false);
    SettleEffect(s0, outcome, id, timestamp);
  }

  /** `sendMessage` with the mock responder, which never rejects: the reply
      is computed from the trimmed input. */
  method SendMessage(store: AgentChatStore, content: string,
                     userId: Id, userTime: Date, replyId: Id, replyTime: Date)
    modifies store
    ensures store.State() ==
      Run(old(store.State()),
          if IsBlank(content) then []
          else StartActions(content, userId, userTime)
               + SettleActions(Resolved(MockAIResponse(Trim(content))), replyId, replyTime))
  {
    ghost var s0 := store.State();
    var request := StartSend(store, content, userId, userTime);
    if request.Some? {
      Settle(store, Resolved(MockAIResponse(request.value)), replyId, replyTime);
      RunAppend(s0, StartActions(content, userId, userTime),
                SettleActions(Resolved(MockAIResponse(request.value)), replyId, replyTime));
    }
  }
}
