/** The agent-chat store: a transcript of messages, a loading flag and an
    error, replaced field by field by four actions. */
module ChatStore {
  import opened Common

  datatype Message = Message(id: Id, role: Role, content: string, timestamp: Date)

  /** A snapshot of the store's three fields. */
  datatype ChatState = ChatState(messages: seq<Message>, isLoading: bool, error: Option<string>)

  /** The store's actions, with the id and timestamp that `addMessage`
      draws from the clock and the random generator passed in. */
  datatype Action =
    | AddMessage(content: string, role: Role, id: Id, timestamp: Date)
    | SetLoading(loading: bool)
    | SetError(error: Option<string>)
    | ClearChat

  /** The state the store is created in. */
  function Initial(): (s: ChatState)
    ensures s.messages == [] && !s.isLoading && s.error == None
  {
    ChatState([], false, None)
  }

  /** The state after one action. Every action but `ClearChat` keeps the
      transcript as a prefix; `AddMessage` puts exactly one message, the
      one described, at the end; each action leaves the fields it does not
      name alone; `ClearChat` gives the initial state whatever came before. */
  function Apply(s: ChatState, a: Action): (t: ChatState)
    ensures !a.ClearChat? ==> IsPrefix(s.messages, t.messages)
    ensures a.AddMessage? ==>
      && |t.messages| == |s.messages| + 1
      && t.messages[|s.messages|] == Message(a.id, a.role, a.content, a.timestamp)
      && t.isLoading == s.isLoading && t.error == s.error
    ensures a.SetLoading? ==> t.messages == s.messages && t.isLoading == a.loading && t.error == s.error
    ensures a.SetError? ==> t.messages == s.messages && t.isLoading == s.isLoading && t.error == a.error
    ensures a.ClearChat? ==> t == Initial()
  {
    match a
    case AddMessage(c, r, id, ts) => s.(messages := s.messages + [Message(id, r, c, ts)])
    case SetLoading(b) => s.(isLoading := b)
    case SetError(e) => s.(error := e)
    case ClearChat => Initial()
  }

  /** The state after a sequence of actions, in order. */
  function Run(s: ChatState, actions: seq<Action>): ChatState
    decreases |actions|
  {
    if actions == [] then s else Run(Apply(s, actions[0]), actions[1..])
  }

  lemma {:induction false} RunAppend(s: ChatState, xs: seq<Action>, ys: seq<Action>)
    ensures Run(s, xs + ys) == Run(Run(s, xs), ys)
    decreases |xs|
  {
    if xs == [] {
      assert xs + ys == ys;
    } else {
      assert (xs + ys)[0] == xs[0] && (xs + ys)[1..] == xs[1..] + ys;
      RunAppend(Apply(s, xs[0]), xs[1..], ys);
    }
  }

  predicate NoClear(actions: seq<Action>) {
    forall k :: 0 <= k < |actions| ==> !actions[k].ClearChat?
  }

  /** The transcript never shrinks or changes its past except through
      `clearChat`: over any run without it, the old transcript is a prefix
      of the new one. */
  lemma {:induction false} TranscriptGrowsWithoutClear(s: ChatState, actions: seq<Action>)
    requires NoClear(actions)
    ensures IsPrefix(s.messages, Run(s, actions).messages)
    decreases |actions|
  {
    if actions != [] {
      var s1 := Apply(s, actions[0]);
      TranscriptGrowsWithoutClear(s1, actions[1..]);
      var m := Run(s, actions).messages;
      assert m[..|s1.messages|] == s1.messages;
      assert m[..|s.messages|] == m[..|s1.messages|][..|s.messages|];
    }
  }

  /** `clearChat` is idempotent, and after it the past is irrelevant: the
      same later actions give the same state whatever state was cleared. */
  lemma {:induction false} ClearForgetsHistory(s: ChatState, s': ChatState, later: seq<Action>)
    ensures Run(s, [ClearChat, ClearChat]) == Run(s, [ClearChat])
    ensures Run(s, [ClearChat] + later) == Run(s', [ClearChat] + later)
  {
    assert ([ClearChat] + later)[1..] == later;
  }

  /** The zustand store, as an object whose fields the actions replace. */
  class AgentChatStore {
    var messages: seq<Message>
    var isLoading: bool
    var error: Option<string>

    function State(): ChatState
      reads this
    {
      ChatState(messages, isLoading, error)
    }

    constructor ()
      ensures State() == Initial()
    {
      messages, isLoading, error := [], false, None;
    }

    /** `addMessage(content, role)`, with the new message's id and
        timestamp supplied. */
    method AddMessage(content: string, role: Role, id: Id, timestamp: Date)
      modifies this
      ensures State() == Apply(old(State()), Action.AddMessage(content, role, id, timestamp))
      ensures messages == old(messages) + [Message(id, role, content, timestamp)]
      ensures isLoading == old(isLoading) && error == old(error)
    {
      messages := messages + [Message(id, role, content, timestamp)];
    }

    method SetLoading(loading: bool)
      modifies this
      ensures State() == Apply(old(State()), Action.SetLoading(loading))
      ensures isLoading == loading && messages == old(messages) && error == old(error)
    {
      isLoading := loading;
    }

    method SetError(e: Option<string>)
      modifies this
      ensures State() == Apply(old(State()), Action.SetError(e))
      ensures error == e && messages == old(messages) && isLoading == old(isLoading)
    {
      error := e;
    }

    method ClearChat()
      modifies this
      ensures State() == Apply(old(State()), Action.ClearChat)
      ensures State() == Initial()
    {
      messages, isLoading, error := [], false, None;
    }
  }
}
