/** `formatMessageContent`: the processing applied to a message before it
    is saved, which for now is `content.trim()`. */
module FormatMessage {
  import opened Text

  /** The content without surrounding white space: a slice of the input
      with only white space around it that neither starts nor ends with
      white space. Blank input gives the empty string and input without
      surrounding white space is returned as it is. */
  function FormatMessageContent(content: string): (r: string)
    ensures r == Trim(content)
    ensures Unpadded(r)
    ensures exists i :: TrimmedAt(content, r, i)
    ensures r == [] <==> AllWhiteSpace(content)
    ensures Unpadded(content) ==> r == content
  {
    BlankIffAllWhiteSpace(content);
    TrimUnpadded(content);
    Trim(content)
  }

  /** Formatting formatted content changes nothing. */
  lemma FormatIdempotent(content: string)
    ensures FormatMessageContent(FormatMessageContent(content)) == FormatMessageContent(content)
  {
    TrimIdempotent(content);
  }
}

/** `createMessageQuery`: the stand-in for the database insert, which
    builds the stored record from its argument. */
module CreateMessage {
  import opened Common

  datatype NewMessageData = NewMessageData(content: string, chatId: string, createdAt: Date)

  /** The record `createMessageQuery` returns, with exactly these fields. */
  datatype StoredMessage = StoredMessage(id: string, content: string, chatId: string, createdAt: Date, role: Role)

  /** `now` is the value of `Date.now()` at the call. The content, chat and
      date are copied unchanged, the role is always the user's, and the id
      is `msg-` followed by the clock's digits. */
  function CreateMessageQuery(data: NewMessageData, now: nat): (r: StoredMessage)
    ensures r.content == data.content && r.chatId == data.chatId && r.createdAt == data.createdAt
    ensures r.role == User
    ensures IsPrefix("msg-", r.id)
    ensures forall k :: 4 <= k < |r.id| ==> '0' <= r.id[k] <= '9'
  {
    var id := "msg-" + DecimalText(now);
    assert id[..4] == "msg-";
    StoredMessage(id, data.content, data.chatId, data.createdAt, User)
  }
}

/** The `sendMessage` controller: format the content, then create the
    record. */
module SendMessageController {
  import opened Common
  import opened Text
  import opened FormatMessage
  import opened CreateMessage

  /** The saved record holds the trimmed content and the given chat id,
      and is exactly the record the query builds from them. `createdAt`
      stands for `new Date()` and `now` for `Date.now()`. */
  function SendMessage(content: string, chatId: string, createdAt: Date, now: nat): (r: StoredMessage)
    ensures r == CreateMessageQuery(NewMessageData(Trim(content), chatId, createdAt), now)
    ensures r.content == Trim(content) && Unpadded(r.content)
    ensures r.chatId == chatId && r.createdAt == createdAt && r.role == User
  {
    var formatted := FormatMessageContent(content);
    CreateMessageQuery(NewMessageData(formatted, chatId, createdAt), now)
  }

  /** Sending the content of a sent message again saves the same content. */
  lemma ResendKeepsContent(content: string, chatId: string, createdAt: Date, now: nat,
                           chatId': string, createdAt': Date, now': nat)
    ensures var first := SendMessage(content, chatId, createdAt, now);
      SendMessage(first.content, chatId', createdAt', now').content == first.content
  {
    TrimIdempotent(content);
  }
}

/** The backend client object. Its `chat.sendMessage` is the controller's
    `SendMessage` itself; `agent.processMessage` answers with an echo. */
module BackendClient {
  import opened Common

  /** The record `processMessage` returns. */
  datatype AgentReply = AgentReply(id: string, content: string, role: Role, createdAt: Date)

  /** The reply echoes the content untrimmed after the six characters
      "Echo: ", so the input is a suffix of the reply; the role is the
      assistant's and the id is `response-` followed by the clock's
      digits. */
  function ProcessMessage(content: string, now: nat, createdAt: Date): (r: AgentReply)
    ensures |r.content| == |content| + 6
    ensures r.content[..6] == "Echo: " && r.content[6..] == content
    ensures r.role == Assistant && r.createdAt == createdAt
    ensures IsPrefix("response-", r.id)
  {
    var id := "response-" + DecimalText(now);
    assert id[..9] == "response-";
    AgentReply(id, "Echo: " + content, Assistant, createdAt)
  }
}
