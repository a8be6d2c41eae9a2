# Conversation state machine of the AI-Chat client

This project models the conversation state of the chat client's top-level
component (`App.tsx`) in Dafny and proves properties of it. The state is a
`ChatState`. It holds the ordered `messages`, the `isLoading` flag and an
optional `error` text. It opens with the fixed `'welcome'` greeting.
Five updates change it:

- **begin-send** appends the user message and an empty assistant placeholder, sets `isLoading` and clears `error`.
- **chunk** extends a running buffer with a streamed fragment. It writes the buffer into the last message, but only if that message is the placeholder.
- **complete** clears `isLoading`.
- **fail** filters the placeholder out, clears `isLoading` and sets a fixed error text.
- **clear chat** truncates the messages to the first one and clears `error`.

Files:

- `wrappers.dfy`: `Option`, which stands for a field that may be `null`.
- `conversation.dfy` (module `Conversation`): the data model and the five updates as pure functions. These are the `setState` updaters. The file also holds lemmas about each update on its own.
- `session.dfy` (module `Session`): one session run against a scripted stream. The script is a sequence of `Event`s. Each event is a `Fragment(text)` or a `UserClear` (the user clicking "clear chat" while the reply streams). The script ends `Ended` or `Failed`, and a failure may come before any fragment. `Deliver` and `Run` are the reference definitions. The lemmas state what a whole session does.
- `chat_app.dfy` (module `ChatApp`): class `App`, which owns the `state` field. `HandleSendMessage` works as the source's handler does. It loops over the scripted events and keeps the running buffer `fullAssistantContent` in a local variable. It is proved equal to `Session.Run`. `ClearChat` is the clear-chat button.

Some behaviour is demanded by the code but not checked by it. The code reads the last message at line 69 and the first message at line 110 without checking that the list is non-empty. `ApplyChunk` and `Reset` therefore require a non-empty message list. `TransitionsKeepGreeting` and `SessionKeepsGreeting` prove that every state reached from the initial one starts with the greeting. `App.Valid()` keeps this as the class invariant, so the requirement always holds. `App.Valid()` also keeps message ids pairwise distinct.

`handleSendMessage` checks neither `isLoading` nor blank input. The only guard is `disabled={state.isLoading}`, passed to `ChatInput` at line 141, and `ChatInput` is not part of this model. So `HandleSendMessage` requires `!state.isLoading`.

Fail removes every message that carries the placeholder's id (`filter`, line 87). Because ids are fresh, that is exactly the placeholder.

## Model

| member | source | states |
|---|---|---|
| Conversation.InitialState | App.tsx:9-20 | the initial state has exactly one message, the `'welcome'` greeting; it is not loading and has no error |
| Conversation.BeginSend | App.tsx:38-57 | old messages stay as the prefix; exactly two messages follow: the user message with the given id, content and time, then the assistant placeholder with the given id and empty content; `isLoading` is true and `error` is null |
| Conversation.History | App.tsx:63 | the history handed to the stream has one more message than the pre-send snapshot and is exactly begin-send's message list without its last element (the placeholder) |
| Conversation.HistoryExcludesPlaceholder | App.tsx:45-63 | when the placeholder id is fresh, no message of the streamed history carries it |
| Conversation.ApplyChunk | App.tsx:66-76 | length is kept, every message but the last is kept, `isLoading`/`error` are kept; the last message keeps its id, role and timestamp; if it is the placeholder its content becomes the buffer, otherwise the whole state is unchanged |
| Conversation.Complete | App.tsx:80 | only `isLoading` changes, to false; messages (with the placeholder's final content) and error are kept |
| Conversation.RemoveId | App.tsx:87 | the filtered list is no longer than the input, holds no message with the id, holds only input messages, and holds every input message with another id |
| Conversation.RemoveIdAppend | App.tsx:87 | filtering distributes over concatenation, so the kept messages stay in their original order |
| Conversation.RemoveIdAbsent | App.tsx:87 | filtering out an id no message carries returns the list unchanged |
| Conversation.RemoveIdDistinct | App.tsx:87 | filtering keeps message ids pairwise distinct |
| Conversation.Fail | App.tsx:82-88 | messages become the input with the placeholder id filtered out; `isLoading` is false; `error` is the fixed failure text |
| Conversation.Reset | App.tsx:110 | messages become exactly `[old first message]`; `error` is null; `isLoading` is untouched |
| Conversation.BeginSendDistinct | App.tsx:38-54 | begin-send with two fresh, different ids keeps all ids pairwise distinct |
| Conversation.ApplyChunkDistinct | App.tsx:66-76 | a chunk update keeps all ids pairwise distinct |
| Conversation.TransitionsKeepGreeting | App.tsx:10-17 | if the greeting is first and the placeholder id is not `'welcome'`, then after begin-send, chunk, complete, fail and reset the greeting is still first (so the list is never empty) |
| Conversation.StaleAfterReset | App.tsx:66-88 | after a reset, a chunk for the old placeholder leaves the state unchanged and a failure leaves the messages unchanged |
| Session.Text | App.tsx:60-65 | the value `fullAssistantContent` reaches: a script of clears only contributes nothing, and a single event contributes its own fragment; `TextAppend` gives the rest |
| Session.Deliver | App.tsx:62-78 | processing scripted fragments and clears keeps the message list non-empty, keeps `isLoading`, and keeps a null error null |
| Session.Run | App.tsx:37-90 | the whole handler (begin-send, the scripted events, then complete or fail) always ends with loading stopped, and with the error set exactly when the stream failed |
| Session.TextAppend | App.tsx:65 | the reply text of a split script is the texts of its two parts joined |
| Session.TextPrefixStep | App.tsx:65 | proof helper for the send loop: one more event extends `Text` of the prefix by that event's fragment |
| Session.DeliverStep | App.tsx:64-76 | proof helper for the send loop: unfolds one step of `Deliver` at `events[i..]` |
| Session.StepTracks | App.tsx:65-76 | proof helper for the send loop: one event keeps the greeting first, and keeps the placeholder's content equal to the buffer |
| Session.DeliverTracksBuffer | App.tsx:60-76 | after any script, the placeholder, if still last, holds `buffer + Text(events)`; the first message is kept |
| Session.FirstKept | App.tsx:66-76 | proof helper: a chunk update does not change the first message unless that message is the placeholder |
| Session.DeliverWithoutClear | App.tsx:60-78 | without a clear, the fragments only rewrite the placeholder, which ends up holding the whole concatenated reply; nothing else changes |
| Session.DeliverAfterReset | App.tsx:64-76 | once only the greeting is left and the error is null, later fragments and clears change nothing |
| Session.DeliverWithClear | App.tsx:64-76 | a clear anywhere in the script leaves just the first message and a null error, whatever fragments come before or after it |
| Session.DeliverDistinct | App.tsx:64-76 | fragments and clears keep ids pairwise distinct |
| Session.StreamingWithoutClear | App.tsx:52-78 | just before the ending, a session without a clear has the pre-send messages, the user message and the placeholder holding the full reply, with loading on and no error |
| Session.SessionCompletes | App.tsx:37-80 | a session ending normally without a clear gives pre-send messages + user message + assistant message holding the concatenated reply; not loading; no error |
| Session.SessionFails | App.tsx:37-88 | a session failing without a clear, before or after any fragment, gives pre-send messages + user message; the placeholder and its partial content are gone; not loading; error set |
| Session.SessionWithClear | App.tsx:59-88 | a clear during a session leaves only the first message whatever the ending; not loading; error set exactly when the stream failed |
| Session.SessionKeepsGreeting | App.tsx:37-90 | every session keeps the greeting first |
| Session.SessionKeepsIdsDistinct | App.tsx:38-90 | a session started with two fresh, different ids keeps all ids pairwise distinct |
| Session.RunSummary | App.tsx:37-90 | every outcome of a session: greeting kept; loading stopped; the messages for each of the three cases above; error non-null exactly on failure |
| Session.HiThereScenario | App.tsx:37-80 | greeting only, send "Hi", fragments "Hi" and " there!", normal end: `[greeting, user "Hi", assistant "Hi there!"]`, not loading, no error |
| Session.FailBeforeFirstChunkScenario | App.tsx:37-88 | greeting only, send "fail", failure before any fragment: `[greeting, user "fail"]`, not loading, error set |
| ChatApp.App.constructor | App.tsx:9-20 | the component starts in the initial state (the greeting alone, not loading, no error) and the class invariant holds: greeting first, ids distinct |
| ChatApp.App.ClearChat | App.tsx:110 | the state becomes the reset of the old state: only the greeting, no error, loading untouched |
| ChatApp.App.HandleSendMessage | App.tsx:37-90 | the loop that keeps the running buffer ends in exactly `Session.Run` of the old state; the greeting stays first and ids stay distinct; the handed-over history is the pre-send messages plus the user message and does not hold the placeholder |

## Left out

- JSX rendering (header, message list, error banner, App.tsx:92-143): presentation only.
- Scrolling with `useRef`/`useEffect` (App.tsx:22-35): DOM side effects.
- Clock-based ids and timestamps (`Date.now()`, `new Date()`, App.tsx:15, 39, 42, 46, 49): ids are inputs that must be fresh and different from each other. Any id fresh for a state that starts with the greeting also differs from `'welcome'`. Timestamps are an opaque integer input. The user message and the placeholder of one send get the same input time, where the source reads the clock twice.
- The streaming client `streamChatResponse` (`services/geminiService` is not part of this model): a scripted sequence of fragments that ends normally or fails takes its place. The history it would receive is returned by `HandleSendMessage`.
- React's `setState` scheduling, batching and closure capture. The model applies each updater where the handler issues it. The history at line 63 is taken from the state just before begin-send, which is the snapshot that line reads. Two sessions that overlap are not modelled. The `disabled={state.isLoading}` guard lives in `ChatInput` (not part of this model), so it appears only as `HandleSendMessage`'s precondition.
- Blank-input rejection: `handleSendMessage` does not reject blank content (lines 37-57), and neither does `HandleSendMessage`: `BeginSend` appends the user message for any `content`, the empty string included. Any filtering would have to happen in `ChatInput`, which is not part of this model.
- `ChatMessage` and the `types` module are not part of this model. `Message` and `ChatState` are rebuilt from their uses in `App.tsx`.
- Conversation.ApplyChunk: requires a non-empty message list. On an empty list the source would throw a TypeError when it reads the last message's id at line 69. That state cannot be reached from the initial state.
- Conversation.Reset: requires a non-empty message list. On an empty list the source would produce `[undefined]`. That state cannot be reached from the initial state.
