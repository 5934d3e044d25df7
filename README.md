# Oxid chat core and split-pane controller, modelled in Dafny

This project models the parts of the Oxid desktop app that have real behaviour.

- **The agent-chat state.** A zustand store holds a transcript of messages, a loading flag and an error. Four actions replace those fields: `addMessage`, `setLoading`, `setError` and `clearChat`.
- **The `useAgentChat` hook.** Its `sendMessage` runs a fixed sequence of store updates around one awaited reply. Its mock responder picks a canned reply by keyword.
- **The `AgentChatContainer` component.** It holds the input box. It guards `sendMessage` with "not blank and not loading" and sends on Enter without Shift. It derives the disabled flags and the "thinking" indicator from the store.
- **The `ResizableContainer` component.** It is a two-state drag controller. Each pointer move recomputes the left pane's width, as a percentage, from the raw pointer position, clamped to the two pane minimums.
- **The backend stubs.** `formatMessageContent` trims. `sendMessage` formats the content and then builds a `user` record through `createMessageQuery`. `backend.agent.processMessage` builds an `"Echo: "` assistant record.

Files and modules:

- `common.dfy` (`Common`): `Option`, `Role`, `Date`, and the decimal text of a clock reading.
- `text.dfy` (`Text`): ECMAScript `trim`, `toLowerCase` and `includes`. `IsWhiteSpace` is ECMAScript's WhiteSpace and LineTerminator set. `Trim` is characterised as the unpadded slice of the input with only white space around it, and the characterisation is proved unique.
- `chat_store.dfy` (`ChatStore`): the `AgentChatStore` class over the three fields. Beside it is a pure specification: `Action`, `Apply` (one action) and `Run` (a sequence). Every store method is proved to produce `Apply` of the old state.
- `agent_chat.dfy` (`AgentChat`): `MockAIResponse`, plus `sendMessage` split at its await. `StartSend` runs up to the call of the responder and returns the text the responder receives. `Settle` runs when the responder settles, with the outcome (a reply, or a thrown value) supplied by the caller. `StartActions` and `SettleActions` list the store actions each half performs, in source order. `SendMessage` runs both halves with the mock responder.
- `chat_container.dfy` (`ChatContainer`): the container's `inputValue` state, `handleSend`, `handleKeyDown`, and the view predicates.
- `resizable_container.dfy` (`Resizable`): the drag controller class, plus the clamp (`ClampPx`) and percentage (`LeftPercent`) as functions over exact reals.
- `backend.dfy`: one module per backend file (`FormatMessage`, `CreateMessage`, `SendMessageController`, `BackendClient`).

Two points about the code shape the model:

- `sendMessage` never reads `isLoading`. Only the container does (src/features/agent-chat/components/containers/AgentChatContainer.tsx): `handleSend`'s guard (line 25), the button's and the text area's `disabled` (lines 118 and 113), and the thinking indicator (line 74). A disabled text area gets no key events, so the Enter path (lines 32-35) is gated too, as `TextAreaDisabled` records. `StartSendEffect` therefore has no precondition on the loading flag.
- There is no request token. A reply that arrives after `clearChat` is still appended to the emptied transcript, and loading is then lowered. `StaleReplyAfterClear` proves this.

## Model

| member | source | states |
|---|---|---|
| `Text.Trim` | backend/resources/chat/services/formatMessage.service.ts:12 | The result is a slice of the input with only white space around it, and it neither starts nor ends with white space. |
| `Text.TrimUnique` | backend/resources/chat/services/formatMessage.service.ts:12 | Any unpadded slice of `s` with only white space around it equals `Trim(s)`, so the characterisation fixes trim's result. |
| `Text.TrimIdempotent` | backend/resources/chat/services/formatMessage.service.ts:12 | Trimming an already trimmed string changes nothing. |
| `Text.TrimUnpadded` | backend/resources/chat/services/formatMessage.service.ts:12 | A string with no white space at either end is returned unchanged. |
| `Text.IsWhiteSpace` | backend/resources/chat/services/formatMessage.service.ts:12 | The characters `trim` strips: ECMAScript's WhiteSpace and LineTerminator sets. No visible ASCII character is among them. |
| `Text.Contains` | src/features/agent-chat/hooks/useAgentChat.ts:21-29 | `includes`: some suffix of the string starts with the substring. The empty substring is always found, and a found substring is no longer than the string. |
| `Text.BlankIffAllWhiteSpace` | src/features/agent-chat/hooks/useAgentChat.ts:37 | `!content.trim()` holds exactly when every character is white space. |
| `Text.ToLower` | src/features/agent-chat/hooks/useAgentChat.ts:21 | Lower-casing keeps the length and maps each character through `LowerChar` (which lowers A-Z). |
| `Text.ToLowerIdempotent` | src/features/agent-chat/hooks/useAgentChat.ts:21-29 | Lower-casing twice is lower-casing once. |
| `Common.DecimalText` | backend/resources/chat/queries/createMessage.query.ts:16 | A clock reading joined to a string gives one or more digits, with no leading zero unless it is 0, whose decimal value is the reading. |
| `ChatStore.Initial` | src/features/agent-chat/store/agentChatStore.ts:8-10 | The store starts with an empty transcript, not loading and no error. |
| `ChatStore.Apply` | src/features/agent-chat/store/agentChatStore.ts:13-40 | `addMessage` appends exactly the described message at the end and keeps earlier messages, loading and error. `setLoading` and `setError` (null included) change only their field. `clearChat` gives the initial state from any state. |
| `ChatStore.TranscriptGrowsWithoutClear` | src/features/agent-chat/store/agentChatStore.ts:13-40 | Over any run of actions without `clearChat`, the old transcript is a prefix of the new one. |
| `ChatStore.ClearForgetsHistory` | src/features/agent-chat/store/agentChatStore.ts:34-40 | `clearChat` is idempotent, and after it the state no longer depends on what came before. |
| `ChatStore.AgentChatStore.constructor` | src/features/agent-chat/store/agentChatStore.ts:6-11 | The new store is in the initial state. |
| `ChatStore.AgentChatStore.AddMessage` | src/features/agent-chat/store/agentChatStore.ts:13-24 | The new state is `Apply` of `AddMessage`: one message appended, loading and error untouched. |
| `ChatStore.AgentChatStore.SetLoading` | src/features/agent-chat/store/agentChatStore.ts:26-28 | The new state is `Apply` of `SetLoading`: only the flag changes. |
| `ChatStore.AgentChatStore.SetError` | src/features/agent-chat/store/agentChatStore.ts:30-32 | The new state is `Apply` of `SetError`: only the error changes, and it may become null. |
| `ChatStore.AgentChatStore.ClearChat` | src/features/agent-chat/store/agentChatStore.ts:34-40 | The new state is the initial state. |
| `AgentChat.MockAIResponse` | src/features/agent-chat/hooks/useAgentChat.ts:21-33 | On the lower-cased message, "hello" beats "help", which beats "test". With no keyword, the reply is the echo template, which contains the message verbatim. |
| `AgentChat.MockIgnoresCase` | src/features/agent-chat/hooks/useAgentChat.ts:21-29 | When a keyword matches, lower-casing the message first gives the same reply. |
| `AgentChat.MockHelloFirst` | src/features/agent-chat/hooks/useAgentChat.ts:21-25 | "HELP, HeLLo" gets the greeting: the match ignores case and "hello" takes precedence over "help". |
| `AgentChat.ErrorText` | src/features/agent-chat/hooks/useAgentChat.ts:55 | An `Error` gives its message; any other thrown value gives 'An error occurred'. |
| `AgentChat.StartActions` | src/features/agent-chat/hooks/useAgentChat.ts:37-46 | Blank input performs no action. Otherwise the error is cleared first, the only message appended is the trimmed user input, and loading is raised last. No action clears the chat. |
| `AgentChat.SettleActions` | src/features/agent-chat/hooks/useAgentChat.ts:49-58 | Two actions, the second lowering loading (the `finally`). On success the first appends the reply as an assistant message. On failure no message is appended. No action clears the chat. |
| `AgentChat.StartSendEffect` | src/features/agent-chat/hooks/useAgentChat.ts:37-46 | Blank input leaves the state unchanged. Otherwise, whatever the loading flag was, the error is cleared, exactly one user message holding the trimmed input is appended, and loading is set. |
| `AgentChat.SettleEffect` | src/features/agent-chat/hooks/useAgentChat.ts:49-58 | On success, exactly one assistant message with the reply is appended and the error is kept. On failure, nothing is appended and the error is the `Error`'s message or 'An error occurred'. Loading ends false in both cases. |
| `AgentChat.SendMessageEffect` | src/features/agent-chat/hooks/useAgentChat.ts:36-59 | A whole send of non-blank input leaves the user message, then the reply on success. The error ends null on success and the failure text on failure. Loading ends false. |
| `AgentChat.StaleReplyAfterClear` | src/features/agent-chat/hooks/useAgentChat.ts:49-57 | A `clearChat` during the await does not stop the reply: the transcript ends as just the assistant message, not loading, no error. |
| `AgentChat.HelloAnswered` | src/features/agent-chat/hooks/useAgentChat.ts:36-59 | From the initial state, "Hello" answered with "Hi there" leaves exactly those two messages, not loading, no error. |
| `AgentChat.HelloRejected` | src/features/agent-chat/hooks/useAgentChat.ts:36-59 | From the initial state, "Hello" rejected with `Error("network down")` leaves the user message alone, error "network down", not loading. |
| `AgentChat.StartSend` | src/features/agent-chat/hooks/useAgentChat.ts:37-49 | The store ends as `StartActions` applied to the old state. The responder receives the trimmed input, or nothing when the input is blank. |
| `AgentChat.Settle` | src/features/agent-chat/hooks/useAgentChat.ts:49-58 | The store ends as `SettleActions` of the outcome applied to the old state. |
| `AgentChat.SendMessage` | src/features/agent-chat/hooks/useAgentChat.ts:36-59 | With the mock responder, the store ends as the start actions followed by the settle actions for the mock's reply to the trimmed input. Blank input changes nothing. |
| `ChatContainer.SendDisabled` | src/features/agent-chat/components/containers/AgentChatContainer.tsx:118 | The button is disabled exactly when the input is all white space or a reply is loading. The same expression is `handleSend`'s guard at line 25. |
| `ChatContainer.TextAreaDisabled` | src/features/agent-chat/components/containers/AgentChatContainer.tsx:113 | The text area is disabled while loading, and then the send button is disabled whatever the input. |
| `ChatContainer.ShowsThinking` | src/features/agent-chat/components/containers/AgentChatContainer.tsx:45-74 | The indicator appears only under a non-empty transcript while loading, so only while the text area is disabled. |
| `ChatContainer.SendsOnKey` | src/features/agent-chat/components/containers/AgentChatContainer.tsx:33 | Only Enter sends, and never with Shift held. |
| `ChatContainer.StartLocksInput` | src/features/agent-chat/components/containers/AgentChatContainer.tsx:74-118 | Once a send has started, the thinking indicator shows and both the button and the text area are disabled, so a second send cannot start from the container. |
| `ChatContainer.SettleUnlocksInput` | src/features/agent-chat/components/containers/AgentChatContainer.tsx:74-118 | Once the reply settles, the indicator is gone and the text area is enabled. The button is disabled exactly for all-white-space input. |
| `ChatContainer.AgentChatContainer.constructor` | src/features/agent-chat/components/containers/AgentChatContainer.tsx:9-10 | The input box starts empty. |
| `ChatContainer.AgentChatContainer.HandleChange` | src/features/agent-chat/components/containers/AgentChatContainer.tsx:108 | Typing replaces the input value. |
| `ChatContainer.AgentChatContainer.HandleSend` | src/features/agent-chat/components/containers/AgentChatContainer.tsx:24-30 | Nothing changes and nothing is sent exactly when the button is disabled (blank input or loading). Otherwise the input is cleared and the untrimmed input is passed to `sendMessage`'s start. |
| `ChatContainer.AgentChatContainer.HandleKeyDown` | src/features/agent-chat/components/containers/AgentChatContainer.tsx:32-37 | Enter without Shift prevents the default action and acts as `HandleSend`. Any other key prevents nothing and changes nothing. |
| `Resizable.ClampPx` | src/ui/molecules/ResizableContainer/ResizableContainer.tsx:29 | The width is at least the left minimum. When both minimums fit, it is at most the width minus the right minimum, follows the pointer inside that range, and stays at the nearer bound outside it. When they do not fit, it is exactly the left minimum. |
| `Resizable.LeftPercent` | src/ui/molecules/ResizableContainer/ResizableContainer.tsx:26-30 | Converting the percentage back to pixels gives exactly the clamped pointer offset. |
| `Resizable.PanesMeetMinimums` | src/ui/molecules/ResizableContainer/ResizableContainer.tsx:29-30 | When the container has room for both minimums, both panes meet them. |
| `Resizable.PercentInRange` | src/ui/molecules/ResizableContainer/ResizableContainer.tsx:29-30 | With non-negative minimums that fit, the percentage lies in [0, 100]. |
| `Resizable.LeftMinimumWins` | src/ui/molecules/ResizableContainer/ResizableContainer.tsx:29-30 | When the container is too narrow for both minimums, the left pane gets exactly its minimum, wherever the pointer is. |
| `Resizable.MonotoneInPointer` | src/ui/molecules/ResizableContainer/ResizableContainer.tsx:29-30 | The percentage never decreases as the pointer moves right. |
| `Resizable.NarrowPointerSnapsToHalf` | src/ui/molecules/ResizableContainer/ResizableContainer.tsx:29-30 | A width of 400, both minimums 200 and a pointer 50 pixels in give 50%, not 12.5%. |
| `Resizable.ResizableContainer.constructor` | src/ui/molecules/ResizableContainer/ResizableContainer.tsx:4-13 | The controller starts at the given split and not dragging. |
| `Resizable.ResizableContainer.WithDefaults` | src/ui/molecules/ResizableContainer/ResizableContainer.tsx:7-13 | Without properties, the split is 50, both minimums are 200, and the controller is not dragging. |
| `Resizable.ResizableContainer.HandleMouseDown` | src/ui/molecules/ResizableContainer/ResizableContainer.tsx:16-19 | Dragging becomes true and the width is unchanged, so repeating it changes nothing. |
| `Resizable.ResizableContainer.HandleMouseUp` | src/ui/molecules/ResizableContainer/ResizableContainer.tsx:35-37 | Dragging becomes false and the width is unchanged, so repeating it changes nothing. |
| `Resizable.ResizableContainer.HandleMouseMove` | src/ui/molecules/ResizableContainer/ResizableContainer.tsx:21-33 | With no drag or no container, the width is unchanged. Otherwise it is `LeftPercent` of the pointer and the container, never a function of the previous width. |
| `FormatMessage.FormatMessageContent` | backend/resources/chat/services/formatMessage.service.ts:5-13 | The result is the trimmed content: unpadded, a slice with only white space around it, empty exactly for all-white-space input, and the input itself when the input is unpadded. |
| `FormatMessage.FormatIdempotent` | backend/resources/chat/services/formatMessage.service.ts:12 | Formatting formatted content changes nothing. |
| `CreateMessage.CreateMessageQuery` | backend/resources/chat/queries/createMessage.query.ts:5-22 | Content, chat id and date are copied unchanged. The role is `user`. The id is `msg-` followed by digits. |
| `SendMessageController.SendMessage` | backend/resources/chat/controllers/sendMessage.controller.ts:8-20 | The result is exactly the query's record for the trimmed content and the given chat id. Its content is unpadded. |
| `SendMessageController.ResendKeepsContent` | backend/resources/chat/controllers/sendMessage.controller.ts:10-17 | Sending a saved message's content again saves the same content. |
| `BackendClient.ProcessMessage` | backend/index.ts:24-35 | The reply is "Echo: " followed by the untrimmed input, so it is six characters longer and has the input as a suffix. The role is `assistant`. The id begins with `response-`. |

## Left out

- Clocks and randomness: ids and timestamps from `Date.now`, `Math.random` and `new Date()` are values the caller supplies. The code does not make ids unique, so uniqueness is not proved.
- The responder's delay (`setTimeout` with a random duration) is not modelled. The awaited result is the `Outcome` passed to `Settle`.
- Async interleaving is modelled only as calls to `StartSend` and `Settle` in a caller-chosen order. No scheduler is modelled.
- React's re-rendering and the subscription mechanism of the store are not modelled. Each store method is one synchronous `set`.
- `backend.chat.sendMessage` (backend/index.ts:11) is bound to the controller's function itself, so it has no separate member: `SendMessageController.SendMessage` stands for both.
- DOM work in `ResizableContainer` is not modelled: listener registration, body cursor and selection styles, `preventDefault` on mouse-down, `getBoundingClientRect` (its result is the `Rect` argument) and inline width styles.
- The backend functions `formatMessageContent`, `createMessageQuery`, the controller's `sendMessage` and `processMessage` are `async` and return Promises. The model returns their values directly. None of them can reject, so no outcome is lost.
- Floating point: `ResizableContainer`'s arithmetic uses exact reals, without IEEE-754 rounding.
- Resizable.LeftPercent: requires a positive container width; with width 0 the source divides by zero and stores Infinity or NaN.
- Resizable.ResizableContainer.HandleMouseMove: requires a positive container width when a drag is under way and a container is present, for the same reason. With no drag the source returns before it reads the rectangle, so any width is accepted there.
- Text.ToLower: lowers only A-Z, where `toLowerCase` covers all of Unicode. The keyword test gives the same answer either way, because no non-ASCII character lower-cases to any letter of "hello", "help" or "test".
- JSX rendering, auto-scroll, focus on mount, `MessageBubble` (locale-dependent time formatting), the UI atoms and molecules that wrap library primitives, the placeholder panels, the router, the pages and the build configuration.
