/** `AgentChatContainer`: the input box's state, the guard in front of
    `sendMessage`, the Enter-key rule, and the flags the view derives from
    the store. */
module ChatContainer {
  import opened Common
  import opened Text
  import opened ChatStore
  import opened AgentChat

  /** `!inputValue.trim() || isLoading`: both the send button's `disabled`
      and the early return of `handleSend`. */
  predicate SendDisabled(inputValue: string, isLoading: bool): (disabled: bool)
    ensures disabled <==> AllWhiteSpace(inputValue) || isLoading
  {
    BlankIffAllWhiteSpace(inputValue);
    IsBlank(inputValue) || isLoading
  }

  /** The text area's `disabled`: while it holds, the send button is
      disabled too, whatever the input. */
  predicate TextAreaDisabled(isLoading: bool): (disabled: bool)
    ensures disabled ==> forall input :: SendDisabled(input, isLoading)
  {
    isLoading
  }

  /** An empty transcript shows the welcome panel; otherwise the messages
      are shown, followed by the "thinking" indicator while loading. */
  predicate ShowsThinking(messages: seq<Message>, isLoading: bool): (shown: bool)
    ensures shown ==> messages != [] && TextAreaDisabled(isLoading)
    ensures !isLoading ==> !shown
  {
    |messages| != 0 && isLoading
  }

  /** Enter without Shift sends; Shift+Enter and other keys do not. */
  predicate SendsOnKey(key: string, shiftKey: bool): (sends: bool)
    ensures sends ==> key == "Enter"
    ensures shiftKey ==> !sends
  {
    key == "Enter" && !shiftKey
  }

  /** Once a send has started, the indicator is up and both the button and
      the text area are disabled, whatever the input box holds, so the
      container cannot start a second send. */
  lemma StartLocksInput(s: ChatState, content: string, id: Id, timestamp: Date, input: string)
    requires !IsBlank(content)
    ensures var t := Run(s, StartActions(content, id, timestamp));
      ShowsThinking(t.messages, t.isLoading) && SendDisabled(input, t.isLoading) && TextAreaDisabled(t.isLoading)
  {
    StartSendEffect(s, content, id, timestamp);
  }

  /** Once the response has settled, the indicator is gone and the text
      area is enabled again; the button is enabled exactly for non-blank
      input. */
  lemma SettleUnlocksInput(s: ChatState, outcome: Outcome, id: Id, timestamp: Date, input: string)
    ensures var t := Run(s, SettleActions(outcome, id, timestamp));
      && !ShowsThinking(t.messages, t.isLoading) && !TextAreaDisabled(t.isLoading)
      && (SendDisabled(input, t.isLoading) <==> AllWhiteSpace(input))
  {
    SettleEffect(s, outcome, id, timestamp);
    BlankIffAllWhiteSpace(input);
  }

  class AgentChatContainer {
    var inputValue: string
    const store: AgentChatStore

    constructor (store: AgentChatStore)
      ensures inputValue == "" && this.store == store
    {
      inputValue := "";
      this.store := store;
    }

    /** The text area's `onChange`. */
    method HandleChange(value: string)
      modifies this
      ensures inputValue == value
    {
      inputValue := value;
    }

    /** `handleSend`, up to the await inside `sendMessage`. When the guard
        rejects, nothing changes and nothing is sent. Otherwise the input
        box is emptied and `sendMessage` receives the input as typed,
        untrimmed; `request` is what the responder is then called with. */
    method HandleSend(id: Id, timestamp: Date) returns (request: Option<string>)
      modifies this, store
      ensures SendDisabled(old(inputValue), old(store.isLoading)) ==>
        request == None && inputValue == old(inputValue) && store.State() == old(store.State())
      ensures !SendDisabled(old(inputValue), old(store.isLoading)) ==>
        && inputValue == ""
        && request == Some(Trim(old(inputValue)))
        && store.State() == Run(old(store.State()), StartActions(old(inputValue), id, timestamp))
    {
      if IsBlank(inputValue) || store.isLoading {
        return None;
      }
      var message := inputValue;
      inputValue := "";
      request := StartSend(store, message, id, timestamp);
    }

    /** `handleKeyDown`: Enter without Shift prevents the default action
        and sends; any other key does neither. */
    method HandleKeyDown(key: string, shiftKey: bool, id: Id, timestamp: Date)
        returns (preventDefault: bool, request: Option<string>)
      modifies this, store
      ensures preventDefault == SendsOnKey(key, shiftKey)
      ensures !SendsOnKey(key, shiftKey) ==>
        request == None && inputValue == old(inputValue) && store.State() == old(store.State())
      ensures SendsOnKey(key, shiftKey) && SendDisabled(old(inputValue), old(store.isLoading)) ==>
        request == None && inputValue == old(inputValue) && store.State() == old(store.State())
      ensures SendsOnKey(key, shiftKey) && !SendDisabled(old(inputValue), old(store.isLoading)) ==>
        && inputValue == ""
        && request == Some(Trim(old(inputValue)))
        && store.State() == Run(old(store.State()), StartActions(old(inputValue), id, timestamp))
    {
      preventDefault, request := false, None;
      if key == "Enter" && !shiftKey {
        preventDefault := true;
        request := HandleSend(id, timestamp);
      }
    }
  }
}
