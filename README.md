# kura-chat: the chat client's state machine and gateway client, in Dafny

This project models the browser side of kura-chat. That side is a chat screen that lists conversation
threads, shows one thread's messages, and sends questions to the Kura gateway. The model covers:

- **`ChatSession.Chat`**: the chat component (`src/components/Chat.jsx`). It is a class holding the
  component's seven pieces of state. Every asynchronous handler is split at its `await` into `BeginX`
  and `CompleteX`. `BeginX` runs the part before the await. It returns the request and whatever the
  handler's closure captured, such as the active thread id at call time. `CompleteX` applies the
  gateway's reply, given as an input, to the state as it is then. The effect that reloads messages when
  the active id changes is the explicit step `ActiveIdEffect`.
- **`ChatUpdates`**: the pure updates those handlers apply. These are the list filter and move-to-front,
  the rollback, payload normalisation, the refresh's choice of active id, reply reconciliation, and the
  active-thread lookup.
- **`ChatScenarios`**: runs of the component over several steps. Some are ordinary flows. Others show
  interleavings in which a reply lands after the user has moved to another thread. The handlers keep no
  per-thread state, so the scenarios show the reply being applied to whatever thread is shown then.
- **`Api`** (`src/lib/api.js`): how the API base URL is chosen from the build environment, the URL
  builder, and the authorisation header.
- **`Kura`** (`src/api/kura.js`): the request each gateway export issues (verb, path, headers, body), and
  how a response becomes a value or a thrown error.
- **`ChatInput`** (`src/components/ChatInput.jsx`): the input box. This covers the blank-text guard, the
  Enter / Shift+Enter dispatch, the disabled state, and the textarea height cap.
- **`MessageBubble`** (`src/components/MessageBubble.jsx`): which message fields supply the role, text
  and timestamp, and which side a bubble sits on.
- **`JsValue`** and **`JsString`**: support modules. `JsValue` gives parsed JSON values with JavaScript
  truthiness, `||`, `?.` and template-literal text. `JsString` gives `String.prototype.trim` over the
  ECMAScript white-space set.

## Model

| member | source | states |
|---|---|---|
| JsValue.ToTextOfIds | src/api/kura.js:34 | Distinct string ids give distinct path segments, and so do distinct integer ids, negative ones included; a non-negative integer id is written as its decimal digits |
| JsValue.ToText | src/api/kura.js:34 | A string interpolates as itself, and a non-negative integer as a run of decimal digits that spells it |
| JsValue.Decimal | src/components/Chat.jsx:126 | `Date.now()` in a message id is written as a non-empty run of decimal digits that spells the number, with no leading zero except for 0 itself |
| JsString.TrimStart | src/lib/api.js:11 | The leading part `trim()` removes is all white space, what remains is a suffix of the input, and it does not start with white space |
| JsString.TrimEnd | src/lib/api.js:11 | The trailing part `trim()` removes is all white space, what remains is a prefix, and it does not end with white space |
| JsString.Trim | src/components/ChatInput.jsx:15 | `trim()` returns the slice of its input left after removing all-white-space ends, and it has no white space at either end |
| JsString.TrimEmptyIffAllSpace | src/components/ChatInput.jsx:15 | Trimming gives "" exactly when every character is white space |
| JsString.TrimIdempotent | src/components/ChatInput.jsx:16 | Trimming an already trimmed string changes nothing |
| Api.ConfiguredBase | src/lib/api.js:8-11 | The configured base is the trimmed `VITE_KURA_API_BASE` when that is non-empty, else the trimmed `VITE_API_BASE_URL` when that is non-empty, else ""; it is "" exactly when the variable used is all white space |
| Api.BlankKuraBaseHidesApiBaseUrl | src/lib/api.js:8-11 | A set `VITE_KURA_API_BASE` made only of white space yields "", so `VITE_API_BASE_URL` is never consulted |
| Api.ForceHttps | src/lib/api.js:23-25 | A base starting with "http://" in any letter case gets "https://" in front of the rest; any other base is unchanged |
| Api.HttpsIsNotHttp | src/lib/api.js:24 | A base starting with "https://" never matches the `^http://` pattern |
| Api.ForceHttpsIdempotent | src/lib/api.js:24 | Rewriting to HTTPS a second time changes nothing |
| Api.StripTrailingSlash | src/lib/api.js:28 | At most one trailing "/" is removed, and it is removed exactly when the base ends in "/" |
| Api.ResolveApiBase | src/lib/api.js:8-28 | `API_BASE` is the DEV or production default when nothing usable is configured. Otherwise it is the configured base, forced to HTTPS outside DEV, with one trailing "/" removed |
| Api.BuildApiUrl | src/lib/api.js:31-34 | The URL is `API_BASE`, then "/", then the path without its own leading "/" if it had one |
| Api.BuildApiUrlLeadingSlashOptional | src/lib/api.js:31-34 | `buildApiUrl("x")` and `buildApiUrl("/x")` give the same URL |
| Api.ApiHeaders | src/lib/api.js:37-42 | No headers for an empty token; otherwise exactly `Authorization: Basic <token>` |
| Kura.JsonHeaders | src/api/kura.js:3-6 | Always `Content-Type: application/json`; `Authorization` exactly when the token is non-empty; no other header |
| Kura.PlainHeaders | src/api/kura.js:17-22 | Requests without a body carry `Authorization: Basic <token>` exactly when the token is non-empty, and no other header |
| Kura.FailureText | src/api/kura.js:9-11 | The error message is the body text if non-empty, else the status text if non-empty, else the fallback; it is never empty |
| Kura.HandleResponse | src/api/kura.js:8-15 | A non-2xx status fails with a non-empty message; 204 yields null; any other 2xx yields the parsed body |
| Kura.NoContentIgnoresBody | src/api/kura.js:13 | A 204's result does not depend on its body |
| Kura.DeleteResponse | src/api/kura.js:37-42 | A delete yields true for any 2xx; otherwise it fails with "Failed to delete thread" as the last fallback |
| Kura.DeleteIgnoresBody | src/api/kura.js:37-42 | A delete's result never depends on the body |
| Kura.RequestOf | src/api/kura.js:17-59 | Exactly create and send are POSTs with JSON headers and a body; the others carry plain headers and no body; `Authorization` is sent exactly when the token is non-empty |
| Kura.Endpoints | src/api/kura.js:17-50 | GET /threads, POST /threads with `{title}`, DELETE /threads/{id}, GET /messages/{threadId}, POST /ask |
| Kura.SendBodyHasOnlyThreadAndQuestion | src/api/kura.js:52-57 | The send body has exactly the keys `thread_id` and `question`, holding the given values |
| Kura.Settle | src/api/kura.js:17-59 | Every export succeeds exactly on a 2xx status, and its failures carry a non-empty message |
| MessageBubble.Render | src/components/MessageBubble.jsx:4-9 | Nothing is rendered exactly for a falsy message. The bubble is the user's exactly when the resolved role is "user". The bubble carries the resolved timestamp, and a timestamp line is shown exactly when `created_at` or `timestamp` is truthy |
| MessageBubble.Role | src/components/MessageBubble.jsx:6 | The role is `role` when truthy, else `author` when truthy, else "assistant"; it is never falsy |
| MessageBubble.Text | src/components/MessageBubble.jsx:7 | The text is the first truthy of `content`, `text` and `message`, else ""; a falsy text is always "" |
| MessageBubble.CreatedAt | src/components/MessageBubble.jsx:8 | The timestamp is `created_at` when truthy, else `timestamp`; it is truthy exactly when one of them is |
| MessageBubble.SideOf | src/components/MessageBubble.jsx:13 | A bubble sits on the right exactly when it is the user's |
| MessageBubble.OnlyUserRoleSitsRight | src/components/MessageBubble.jsx:9-13 | Only the role "user" puts a message on the right; a message with no role and no author sits on the left |
| ChatUpdates.WithoutId | src/components/Chat.jsx:108 | No thread with the deleted id remains, and the list never grows |
| ChatUpdates.WithoutIdCounts | src/components/Chat.jsx:108 | Every thread with another id keeps its number of occurrences; threads with the id are all removed |
| ChatUpdates.WithoutIdAppend | src/components/Chat.jsx:108 | Filtering a concatenation filters each part in place, so the survivors keep their order |
| ChatUpdates.WithoutIdSingle | src/components/Chat.jsx:108 | One thread is kept exactly when its id differs |
| ChatUpdates.WithoutIdUnlisted | src/components/Chat.jsx:108 | Deleting an id no thread has leaves the list unchanged |
| ChatUpdates.WithoutIdIdempotent | src/components/Chat.jsx:108 | Filtering twice is filtering once |
| ChatUpdates.MoveToFront | src/components/Chat.jsx:155-158 | The reply's thread is first, and no later entry shares its id |
| ChatUpdates.MoveToFrontCounts | src/components/Chat.jsx:155-158 | Every thread with another id keeps its number of occurrences |
| ChatUpdates.MoveToFrontKeepsOrder | src/components/Chat.jsx:156-157 | After the first entry come the other threads in their original order |
| ChatUpdates.MoveToFrontIdempotent | src/components/Chat.jsx:155-158 | Moving the same thread to the front twice is moving it once |
| ChatUpdates.DropLast | src/components/Chat.jsx:164 | The rollback removes the last message, whatever it is, and leaves an empty list empty |
| ChatUpdates.DropLastUndoesAppend | src/components/Chat.jsx:131 | Dropping the last message right after appending one gives back the list from before |
| ChatUpdates.DropLastIsBlind | src/components/Chat.jsx:164 | The rollback always shortens a non-empty list by one and loses one occurrence of its last element |
| ChatUpdates.NormaliseList | src/components/Chat.jsx:33 | An array under the key wins; otherwise a bare array is taken as is; anything else gives [] |
| ChatUpdates.NormaliseListCases | src/components/Chat.jsx:33 | A `{threads: [...]}` wrapper or a bare array gives its elements; anything else gives [] |
| ChatUpdates.RefreshedActiveCases | src/components/Chat.jsx:35-41 | With `selectFirst` and a non-empty list, the first thread's id is chosen. Otherwise a captured id missing from the list is replaced by the first id or null, and one still listed leaves the active id as it is |
| ChatUpdates.RefreshedActive | src/components/Chat.jsx:35-41 | A refresh never invents an id: it keeps the current one, clears it, or takes the first listed one or `selectNew`'s |
| ChatUpdates.UserMessage | src/components/Chat.jsx:125-130 | The optimistic message has exactly the keys id, role, content and created_at: id "user-" and the clock's digits, role "user", the typed text, and the ISO stamp |
| ChatUpdates.AssistantMessage | src/components/Chat.jsx:144-149 | The appended answer has exactly the keys id, role, content and created_at: id "assistant-" and the clock's digits, role "assistant", the answer text, and the ISO stamp |
| ChatUpdates.AnswerText | src/components/Chat.jsx:140 | The answer text is the reply's `answer`, its `message` or ""; when falsy it is "" |
| ChatUpdates.AnswerTextChoice | src/components/Chat.jsx:140 | The answer text is truthy exactly when `answer` or `message` is, and `answer` wins |
| ChatUpdates.CreatedThread | src/components/Chat.jsx:87 | The created thread is the reply's `thread` when truthy, and the reply itself otherwise |
| ChatUpdates.Reconciled | src/components/Chat.jsx:137-151 | A `messages` array replaces the list wholesale. Otherwise the old list is kept as a prefix and exactly one assistant message with the answer is appended when the answer is truthy, none when it is not |
| ChatUpdates.ErrorText | src/components/Chat.jsx:44 | The error shown is the thrown message if non-empty, else the handler's fallback |
| ChatUpdates.FirstWithId | src/components/Chat.jsx:23 | `find` stops at the first thread with the id, and reaches the end exactly when no thread has it |
| ChatUpdates.ActiveThread | src/components/Chat.jsx:22-25 | The active thread is null when no thread has the active id; otherwise it is the first listed thread with that id |
| ChatUpdates.BadgeModel | src/components/Chat.jsx:183 | The badge's model is the active thread's model when truthy, else the first listed thread's when truthy, else "mistral-local"; it is never falsy |
| ChatSession.Chat.constructor | src/components/Chat.jsx:14-20 | Starts with no threads, threads loading, no messages, nothing sending, no active id and no error |
| ChatSession.Chat.BeginRefresh | src/components/Chat.jsx:27-32 | Without a token nothing happens. Otherwise the loading flag is raised and GET /threads is issued, capturing the current active id |
| ChatSession.Chat.CompleteRefresh | src/components/Chat.jsx:32-47 | On success the threads become the normalised payload and the active id follows the refresh rule against the captured id. On failure only the error is set. Loading ends either way |
| ChatSession.Chat.BeginLoad | src/components/Chat.jsx:52-57 | A falsy id or an empty token does nothing. Otherwise loading is raised and the thread's messages are requested |
| ChatSession.Chat.CompleteLoad | src/components/Chat.jsx:57-66 | On success the messages become the normalised payload. On failure they become [] and the error is set. Loading ends either way |
| ChatSession.Chat.ActiveIdEffect | src/components/Chat.jsx:76-82 | A truthy active id loads that thread's messages; a falsy one empties the list |
| ChatSession.Chat.BeginCreate | src/components/Chat.jsx:84-86 | Creation POSTs the title "New Chat" and changes nothing yet |
| ChatSession.Chat.CompleteCreate | src/components/Chat.jsx:86-97 | A created thread with an id goes first with the old threads after it in order, becomes active, and empties the messages. A reply without an id, or a failure, changes only the error |
| ChatSession.Chat.Select | src/components/Chat.jsx:100-102 | Selecting changes only the active id |
| ChatSession.Chat.BeginDelete | src/components/Chat.jsx:104-107 | Declining the confirmation issues nothing. Otherwise the delete is issued, capturing the current active id |
| ChatSession.Chat.CompleteDelete | src/components/Chat.jsx:107-116 | On success the threads with the id are filtered out. The active id and messages are cleared only when the captured active id was the deleted one. A failure changes only the error |
| ChatSession.Chat.BeginSend | src/components/Chat.jsx:119-136 | With no active thread only a creation is started and nothing changes. Otherwise the user message is appended, `sending` is raised, the error is cleared, and the send goes to the active thread |
| ChatSession.Chat.CompleteSend | src/components/Chat.jsx:136-167 | Success reconciles the current list, and a returned thread moves to the front and becomes active. Failure sets the error and drops the current last message. `sending` ends either way |
| ChatInput.SubmittedText | src/components/ChatInput.jsx:15-16 | Nothing is sent exactly when the value is all white space; otherwise the trimmed value, which is non-empty, is sent |
| ChatInput.SubmittedTextIsStable | src/components/ChatInput.jsx:16 | The text sent would itself be sent unchanged |
| ChatInput.SubmitsOnKey | src/components/ChatInput.jsx:30 | Only Enter submits, and Enter submits exactly when Shift is not held |
| ChatInput.TextareaHeight | src/components/ChatInput.jsx:11 | The height is the scroll height capped at 220 px |
| ChatInput.Input.constructor | src/components/ChatInput.jsx:4 | The value starts empty |
| ChatInput.Input.Change | src/components/ChatInput.jsx:28 | The value becomes the textarea's text |
| ChatInput.Input.Submit | src/components/ChatInput.jsx:14-18 | Blank text sends nothing and keeps the value. Otherwise the trimmed text is sent once and the value is cleared |
| ChatInput.Input.KeyDown | src/components/ChatInput.jsx:29-34 | Enter without Shift suppresses the newline and submits. Any other key, Shift+Enter included, and any key while disabled, does nothing |
| ChatInput.Input.Click | src/components/ChatInput.jsx:37-40 | A click submits unless the button is disabled |
| ChatScenarios.UserMessageRendersAsUser | src/components/Chat.jsx:125-130 | The optimistic message renders on the right with the typed text, and with a timestamp when the ISO stamp is non-empty |
| ChatScenarios.AssistantMessageRendersAsAssistant | src/components/Chat.jsx:142-150 | An appended answer renders on the left showing the answer |
| ChatScenarios.AnswerOnlyReply | src/components/Chat.jsx:137-154 | A reply holding only `answer` lists no messages and no thread, and its answer text is the answer ("" when empty) |
| ChatScenarios.MountSelectsFirst | src/components/Chat.jsx:71-74 | The mount refresh lists the threads, selects the first one (none for an empty list), and ends loading |
| ChatScenarios.HelloExchange | src/components/Chat.jsx:119-152 | With "t1" selected, its messages are requested; once they load empty, sending "hello" goes to "t1", and the answer "hi there" leaves the user message followed by the assistant message |
| ChatScenarios.FailedSendRestoresList | src/components/Chat.jsx:131-164 | If nothing else touches the list, a failed send restores it to its pre-send value and shows the gateway's message |
| ChatScenarios.SendWithoutThreadOnlyCreates | src/components/Chat.jsx:120-123 | With no active thread a send only creates a thread; once that settles, the messages are empty and the new thread is active |
| ChatScenarios.InputBlockedWhileSending | src/components/ChatWindow.jsx:100 | While a send is in flight, the input (disabled by `sending`) sends nothing and keeps the typed text |
| ChatScenarios.RollbackAfterSwitchDropsOtherThreadsMessage | src/components/Chat.jsx:164 | A send that fails after the user has switched threads drops the other thread's last message |
| ChatScenarios.ReplyLandsOnOtherThread | src/components/Chat.jsx:140-151 | A send that succeeds after the user has switched threads appends its answer to the other thread's list |
| ChatScenarios.StaleLoadOverwrites | src/components/Chat.jsx:57-59 | A load that settles late overwrites the messages of the thread now active |
| ChatScenarios.DeleteClearsNewerSelection | src/components/Chat.jsx:107-112 | With threads A and B listed and A active, deleting A and selecting B before the delete settles leaves only B listed but clears the selection and the messages |
| ChatScenarios.MountRefreshDropsCreatedThread | src/components/Chat.jsx:32-36 | A thread created while the mount refresh is in flight, and missing from the list it returns, is dropped from the threads, and the selection moves from it to the first listed thread |

## Left out

- Networking: `fetch`, the HTTP transport, JSON parsing and `JSON.stringify` are not modelled. A request is
  described by `Kura.Request` (its path is the argument given to `buildApiUrl`), and a response by its status,
  status text, body text and parsed value. A body that fails to parse as JSON is not modelled.
- The URL each export fetches is `Api.BuildApiUrl` applied to the request's path. `Kura.RequestOf` does not
  call it, because it is a method and the request is a value.
- The build environment (`import.meta.env`) is the input `Api.Env`. `API_BASE` is computed once at module
  load in the source; in the model it is a parameter.
- Clocks: `Date.now()` and `new Date().toISOString()` are the opaque input `ChatUpdates.Stamp`. The ISO format
  and the uniqueness of the generated ids are not modelled. Neither is the `dayjs` timestamp formatting.
- `window.confirm` is the boolean input of `ChatSession.Chat.BeginDelete`.
- React scheduling is not modelled. Each `setX` call takes effect immediately, and updater callbacks apply to
  the state as it is when the step runs. Re-rendering, `useCallback`/`useMemo` identity, effect cleanup and
  unmounting are left out. The effect on `activeThreadId` is an explicit step the caller runs.
- Numbers are integers only. NaN, fractions and -0 are not modelled, since the payloads only use numbers as ids.
- JsValue.ToText: a number is an unbounded integer written out in full digits. A JavaScript number is a
  double, exact only up to 2^53, and a template literal writes it in exponent form from 1e21 up, so the
  digit claims of `JsValue.ToText` and `JsValue.ToTextOfIds` hold in JavaScript only below those bounds.
- JsValue.ToTextOfIds: by the same bound, distinct integer ids give distinct segments in JavaScript only
  while both are exact doubles below 1e21.
- JsValue.Member: `thread.id` on a null or undefined element reads as undefined. The source would throw a
  TypeError there, since it uses plain `.id` rather than `?.id`.
- `===` on ids is structural equality. Two distinct objects with equal contents compare equal in the model,
  but not in JavaScript.
- `console.error` logging, `res.text()` as a separate promise, and the error banner's markup are left out.
- The components outside the core are not part of this model. These are the thread list, the chat window
  beyond the `disabled={sending}` prop, the status badge's polling, the brain status panel, the theme toggle
  and the authentication gate.
- The code keeps one `sending` flag, which only disables the input, and no per-thread pending state, so a
  second send is not rejected by the handler. It creates no thread when the list is empty, does not coalesce
  concurrent refreshes, applies a reply to the list shown when it settles rather than to the thread it was
  sent to, and rolls back by dropping whatever message is last (`ChatScenarios` shows both). The send body
  has only `thread_id` and `question`, and nothing is cached. The model does the same.
- ChatSession.Chat: `token` is fixed when the chat is constructed. In the source it is a prop, and a new
  token re-runs the mount refresh (src/components/Chat.jsx:71-74); that re-run is not modelled.
