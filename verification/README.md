# Streaming text-to-SQL chat: the answer decoder, its socket and the chart switcher

This project models the core of a chat page that sends a question to a
text-to-SQL service over a WebSocket. It covers three parts of the page:

- **The answer decoder** (`app/page.tsx`). The service streams the answer back
  one frame at a time. Each frame may be:
  - a notice;
  - the end-of-answer token `DONE`;
  - a final SQL line;
  - a JSON query result;
  - the end-of-turn token `FLAG_DONE`;
  - a code fence;
  - a piece of prose or SQL.

  Four refs hold the decoder's state:
  - the id of the assistant message being written;
  - the prose received so far;
  - the SQL received so far;
  - whether a fence is open.

  An ordered, first-match chain of tests picks one branch per frame. That
  branch edits only messages with the active id and sends at most one PATCH
  request. A failure report, which the hook passes to the error callback,
  fails the message and resets the refs; the hook never calls that callback
  when the connection fails or closes. A new
  turn binds the new assistant message and names the conversation after its
  first question.
- **The socket hook** (`hooks/use-websocket.ts`). It does four things:
  - It routes each frame to the page's callbacks. The exact text `DONE` stops
    in the hook, and a failure report goes to the error callback first.
  - It retries a dropped connection at most three times without a successful
    open, waiting `min(2000·n, 10000)` ms before retry `n`.
  - It shows at most one connection-error notice between two opens.
  - It refuses to send a query unless the socket is open.
- **The chart switcher** (`components/charts/chart-container.tsx`). It decides
  which chart types a result may be switched between, and whether the
  switcher appears at all.

## Layout

| file | module | what it holds |
|---|---|---|
| `wrappers.dfy` | `Wrappers` | `Option` |
| `text.dfy` | `Text` | `trim`, `includes`, `indexOf`, `startsWith`, `replace` on strings. The white-space set is the exact one JavaScript uses. |
| `fence.dfy` | `Fence` | The fenced-block regex `/```(?:sql)?\s*([\s\S]*?)\s*```/i`, as a function. It is proved to return exactly the engine's first match, and it round-trips a block laid out from its pieces. |
| `messages.dfy` | `Messages` | The chat message, its status, and the PATCH request body. |
| `protocol.dfy` | `Protocol` | The notices and tokens the service sends. |
| `decoder_spec.dfy` | `DecoderSpec` | The decoder as pure functions: `Classify`, `Step`, `FailReported`, `BeginTurn` and `Run`. |
| `decoder_properties.dfy` | `DecoderProperties` | What each kind of frame does, proved about `Step`. |
| `decoder.dfy` | `Decoder` | The class `AnswerDecoder`. Its fields are the four refs and the message list. Every handler is proved equal to its `DecoderSpec` function. |
| `websocket.dfy` | `Transport` | The class `SocketHook`: the hook's refs and state, with the retry counter and the one-shot notice as a kept invariant. It also holds the pure `Route` and `RetryDelay`. |
| `composed.dfy` | `Composed` | The hook and the page together. One frame goes through `Route`, then the page's callbacks. |
| `charts.dfy` | `Charts` | `getSupportedTypes` and the switcher rule. |

### How the model handles the source's JavaScript

- **An empty id counts as no id.** The page tests the active id for
  truthiness, so an empty string counts as no message bound (`Accumulator.Bound`).
- **Body keys are written out.** `JSON.stringify` drops keys whose value is
  `undefined`. So an absent `queryResult` or `errorMessage` adds no key to the
  request (`OptionalEntry`).
- **`||` is modelled on strings.** `a || b` treats the empty string as false
  (`Or`).
- **The error callback is split at its `await`.** It sends its request
  first. It updates the messages and resets the refs only after that request
  completes. The hook calls the error callback and then the message callback
  synchronously, so the message callback handles the same frame in between.
  `Composed.Receive` puts the three steps in that order:
  `ErrorRequest`, then `Step`, then `ErrorSettle`.

## Model

| member | source | states |
|---|---|---|
| Text.Trim | app/page.tsx:44 | The trimmed text starts and ends with a non-space and is no longer than the input. |
| Text.TrimStartIsSuffix | app/page.tsx:44 | Trimming the start keeps a suffix of the text, and what it cuts off is white space. |
| Text.TrimEndIsPrefix | app/page.tsx:44 | Trimming the end keeps a prefix of the text, and what it cuts off is white space. |
| Text.TrimIsSlice | app/page.tsx:44 | What trimming keeps is one contiguous slice, and everything cut off on either side is white space. |
| Text.TrimPadded | app/page.tsx:44 | A trimmed text padded with white space on both sides trims back to itself. |
| Text.TrimIdempotent | app/page.tsx:44 | Trimming twice is trimming once. |
| Text.TrimEmptyIffAllSpace | app/page.tsx:44 | A text trims to empty exactly when it is all white space. |
| Text.IndexOfSpec | app/page.tsx:50 | The index returned is where the pattern occurs, with no earlier occurrence from the start position. No index is returned only when the pattern occurs nowhere after it. |
| Text.ContainsSpec | app/page.tsx:50-51 | `includes` holds exactly when the pattern occurs at some index. |
| Text.ReplaceFirstSpec | app/page.tsx:156 | Replacing a string pattern keeps a text without it, and otherwise replaces only the leftmost occurrence. |
| Fence.FindSqlBlock | app/page.tsx:77 | A block found lies within the text with its parts in order: fence, tag, body, closing fence. |
| Fence.SkippedIsSpace | app/page.tsx:77 | The regex's first `\s*` consumes only white space, and stops at a non-space or at the end. |
| Fence.SteppedOverIsSpace | app/page.tsx:77 | The regex's second `\s*`, which the lazy body leaves to it, consumes only white space. |
| Fence.FindSqlBlockCorrect | app/page.tsx:77 | The regex matches exactly when the text holds a fence followed, after it ends, by another. What it returns is the engine's first match: leftmost fence, tag taken when present, greedy spaces, and a lazy body up to the first closing fence. |
| Fence.BlockUnique | app/page.tsx:77 | At most one placement fits the description of the first match. |
| Fence.FindSqlBlockIsFirst | app/page.tsx:77 | Any placement that fits the description of the first match is the one returned. |
| Fence.BlockSqlIsBody | app/page.tsx:81 | The captured body is already trimmed, so trimming it again changes nothing. |
| Fence.LayoutIsFirstBlock | app/page.tsx:77-85 | For text laid out as prose, a fence, an optional `sql` tag, a padded body, a fence and more prose, the match is found, its SQL is that body, and removing it leaves the two pieces of prose. |
| Fence.WithoutLaidBlock | app/page.tsx:85 | Removing a match that spans exactly the laid-out block leaves the prose before it joined to the prose after it. |
| Fence.BlockRoundTrip | app/page.tsx:77-85 | Laying a block out from its pieces and matching it gives back the body as SQL, and the prose without the block. |
| DecoderSpec.Apply | app/page.tsx:54-351 | No branch's edit changes a message's id or role. |
| DecoderSpec.UpdateWhere | app/page.tsx:54-60 | The list keeps its length. Each message with the id is edited and every other message is kept. |
| DecoderSpec.Edited | app/page.tsx:89-100 | A branch's outcome changes only messages with the active id, keeps every id, and addresses its request to that id. |
| DecoderSpec.FinishAnswer | app/page.tsx:70-152 | The stream-end branch touches only the active message and its request is for it. |
| DecoderSpec.AnnounceSql | app/page.tsx:154-180 | The final-SQL branch touches only the active message and its request is for it. |
| DecoderSpec.ApplyResult | app/page.tsx:182-258 | The query-result branch touches only the active message and its request is for it. |
| DecoderSpec.ApplyResultTo | app/page.tsx:202-254 | Once any block has been moved out of the prose, applying a result touches only the active message and its request is for it. |
| DecoderSpec.AppendChunk | app/page.tsx:294-324 | A chunk touches only the active message and sends nothing addressed elsewhere. |
| DecoderSpec.Step | app/page.tsx:42-325 | With no message bound a frame changes nothing and sends nothing. Otherwise only messages with the active id change, none is added, removed or renamed, and any request is for the active id. |
| DecoderSpec.Dispatch | app/page.tsx:48-324 | Every branch of the chain is confined to the message it is given. |
| DecoderSpec.FailReported | app/page.tsx:327-357 | The error callback, which the hook calls only for a failure report. With no message bound nothing happens. Otherwise the refs are reset and unbound. The request marks the message as an error with the reason and the fixed failure text. The messages with the active id show the same in memory, and every other message is untouched. |
| DecoderSpec.Title | app/page.tsx:508 | A question of at most 30 characters is its own title. A longer one keeps its first 30 characters followed by "...". |
| DecoderSpec.BeginTurn | app/page.tsx:482-508 | The user message and the assistant placeholder are appended in that order. The placeholder is bound and the buffers are emptied. A title is made exactly when the conversation had no messages. |
| DecoderProperties.NoMarkersAround | app/page.tsx:49-65 | A frame that trims to a short token carries no thinking, executing or final-SQL notice, so no earlier test catches it. |
| DecoderProperties.DoneFrameClassified | app/page.tsx:71 | Any frame that trims to `DONE` takes the stream-end branch. |
| DecoderProperties.FlagDoneFrameClassified | app/page.tsx:262 | Any frame that trims to `FLAG_DONE` takes the session-end branch. |
| DecoderProperties.FenceFrameClassified | app/page.tsx:282 | A frame whose trimmed form opens with three backticks is a fence toggle unless it carries a notice or the final-SQL marker. |
| DecoderProperties.FinalSqlFrameClassified | app/page.tsx:155-156 | A frame carrying the final-SQL marker, and caught by no earlier test, announces the trimmed text with the marker removed. |
| DecoderProperties.ResultFrameClassified | app/page.tsx:183-186 | A frame that starts with `{` and mentions `query_result`, and is caught by no earlier test, is handed to `JSON.parse`. |
| DecoderProperties.FinishOverBlock | app/page.tsx:79-110 | At stream end over prose with a fenced block: the SQL buffer takes the block's SQL. The message and the request get the prose without the block as content, the SQL, and status completed. |
| DecoderProperties.FinishOverProse | app/page.tsx:111-127 | At stream end over prose without a block: the untrimmed prose becomes the content, with status completed, in memory and in the request. |
| DecoderProperties.FinishOverNothing | app/page.tsx:128-150 | At stream end with no prose: the message keeps its SQL unless the buffer has one. The request carries the buffer or `null`. |
| DecoderProperties.ApplySuccess | app/page.tsx:202-230 | A success result completes the message. The content is the extracted prose. The SQL is the result's own, else the buffer's, else the message's. The request holds `queryResult` only when the result has one. |
| DecoderProperties.ApplyFailure | app/page.tsx:231-253 | An error result marks the message as an error with the result's error text. The request carries `errorMessage` only when the result has one. |
| DecoderProperties.ThinkingFrame | app/page.tsx:49-61 | A thinking notice makes the active message processing again whatever its status was. No ref changes and nothing is sent. |
| DecoderProperties.ExecutingFrame | app/page.tsx:64-68 | An executing notice changes nothing and sends nothing. |
| DecoderProperties.DoneWithBlock | app/page.tsx:71-110 | `DONE` over prose with a block: the content, the SQL, the completed status and the request, as for `FinishOverBlock`. |
| DecoderProperties.DoneOnLaidOutAnswer | app/page.tsx:71-110 | `DONE` over an answer laid out as prose, a block and prose: the message's SQL is exactly the block body, and its content is the two pieces of prose joined and trimmed. |
| DecoderProperties.DoneWithProse | app/page.tsx:111-127 | `DONE` over prose without a block keeps the prose untrimmed as the content and leaves the SQL alone. |
| DecoderProperties.DoneWithoutProse | app/page.tsx:128-150 | `DONE` with no prose: the SQL buffer, if any, becomes the message's SQL, and the request carries it or `null`. |
| DecoderProperties.DoneCompletes | app/page.tsx:71-152 | Whatever the buffers hold, `DONE` completes the active message, sends a request saying so, and keeps the binding, the prose and the fence flag. |
| DecoderProperties.DoneWithoutProseDropsStoredSql | app/page.tsx:136-147 | With no prose and no buffered SQL, the page keeps a message's SQL while the request stores `null`. |
| DecoderProperties.FinalSqlFrame | app/page.tsx:154-180 | A final-SQL line stores the trimmed SQL in the buffer and the message and marks the message completed in memory. The request carries the SQL alone. |
| DecoderProperties.MarkerFirstAt | app/page.tsx:156 | When the text before the marker cannot hold it, the marker's first occurrence is right after that text. |
| DecoderProperties.FinalSqlExtraction | app/page.tsx:156 | The SQL taken from a final-SQL line is the text before and after the marker, joined and trimmed. |
| DecoderProperties.ResultUnparsable | app/page.tsx:183-258 | A result frame that `JSON.parse` rejects changes nothing and sends nothing. |
| DecoderProperties.ResultTakesBlockFromProse | app/page.tsx:189-200 | Before a result is applied, a block left in the prose moves into the SQL buffer and the prose loses it. Prose without a block is kept. |
| DecoderProperties.ResultSuccess | app/page.tsx:202-230 | A success frame completes the active message with the result, the extracted prose and the SQL chosen in that order of preference, and the request matches. |
| DecoderProperties.ResultError | app/page.tsx:231-253 | An error frame marks the active message as an error with the extracted prose and the result's error text, and the request matches. |
| DecoderProperties.ResultOtherStatus | app/page.tsx:189-258 | A result with another status only moves a block out of the prose. Messages are kept and nothing is sent. |
| DecoderProperties.ResultSuccessIdempotent | app/page.tsx:189-230 | A success frame applied twice leaves what it leaves once, as long as no second block remains in the prose. |
| DecoderProperties.FlagDoneFrame | app/page.tsx:261-279 | `FLAG_DONE` turns a processing message into a completed one and keeps any other status. It sends nothing and resets the refs, unbound. |
| DecoderProperties.IgnoredWhileUnbound | app/page.tsx:46 | With no message bound, any run of frames changes nothing and sends nothing. |
| DecoderProperties.NothingAfterSessionEnd | app/page.tsx:261-279 | After `FLAG_DONE`, every later frame is ignored until a new turn binds a message. |
| DecoderProperties.NothingAfterFailureReport | app/page.tsx:327-357 | After the error callback has handled a failure report, every later frame is ignored until a new turn binds a message. |
| DecoderProperties.FenceFrame | app/page.tsx:281-292 | A fence frame flips the fence flag. Opening empties the SQL buffer and closing keeps it. Prose, binding and messages are untouched and nothing is sent. |
| DecoderProperties.ChunkSkipsTag | app/page.tsx:295-303 | Inside a fence with an empty SQL buffer, a bare `sql` tag in any case and padding is dropped. |
| DecoderProperties.ChunkInsideFence | app/page.tsx:295-312 | Any other chunk inside a fence is appended to the SQL buffer, and the message shows the buffer trimmed. |
| DecoderProperties.ChunkOutsideFence | app/page.tsx:313-324 | A chunk outside a fence is appended to the prose, and the message shows the prose trimmed as its content. |
| DecoderProperties.TickFrameClassified | app/page.tsx:282 | A frame of three backticks alone takes the fence branch. |
| DecoderProperties.SqlTagClassified | app/page.tsx:295-299 | A frame that trims to `sql` in any letter case passes every earlier test and reaches the chunk branch. |
| DecoderProperties.OpenFence | app/page.tsx:282-286 | Outside a fence, a fence frame enters it and empties the SQL buffer. The messages, prose and id are unchanged and nothing is sent. |
| DecoderProperties.CloseFence | app/page.tsx:287-291 | Inside a fence, a fence frame leaves it and keeps the SQL buffer. Nothing else changes and nothing is sent. |
| DecoderProperties.BodyIntoEmptyFence | app/page.tsx:295-312 | In a fence with an empty buffer, a chunk that is not a bare `sql` tag becomes the whole buffer. The active message shows it trimmed as its SQL, other messages are unchanged, and nothing is sent. |
| DecoderProperties.QuietRun | app/page.tsx:42-325 | Frames that each send nothing and move the session through given states end the run in the last state, with nothing sent. |
| DecoderProperties.FencedBlockRoundTrip | app/page.tsx:282-312 | A block streamed as an opening fence, a `sql` tag, a body and a closing fence leaves exactly the body in the SQL buffer, outside the fence, with the prose and id kept. The active message's SQL is the body trimmed, other messages are unchanged, and nothing is sent. |
| DecoderProperties.SelectOneRoundTrip | app/page.tsx:282-312 | Streaming three backticks, `sql`, `SELECT 1` and three backticks leaves `SELECT 1` as the buffered SQL and as every active message's SQL. |
| DecoderProperties.SelectOneIsBody | app/page.tsx:295-304 | `SELECT 1` reaches the chunk branch, trims to itself and is not a bare `sql` tag. |
| Decoder.AnswerDecoder.constructor | app/page.tsx:34-40 | The page starts with no message bound, empty buffers and no messages. |
| Decoder.AnswerDecoder.HandleMessage | app/page.tsx:42-325 | The new refs, the new messages and the request sent are exactly what `Step` gives for the old state and the frame. |
| Decoder.AnswerDecoder.HandleRemaining | app/page.tsx:182-324 | On a frame past the first four tests, the handler matches `Step`. |
| Decoder.AnswerDecoder.HandleControl | app/page.tsx:261-324 | On a frame past the result test, the handler matches `Step`. |
| Decoder.AnswerDecoder.MarkThinking | app/page.tsx:49-61 | The active messages become processing, and nothing else changes. |
| Decoder.AnswerDecoder.TakeFinalSql | app/page.tsx:154-180 | The state and the request match `AnnounceSql`. |
| Decoder.AnswerDecoder.EndSession | app/page.tsx:261-279 | Processing messages are closed and all four refs are reset. |
| Decoder.AnswerDecoder.FlipFence | app/page.tsx:281-292 | Only the fence flag, and on opening the SQL buffer, change. |
| Decoder.AnswerDecoder.CompleteAnswer | app/page.tsx:70-152 | The state and the request match `FinishAnswer`. |
| Decoder.AnswerDecoder.ExtractPendingBlock | app/page.tsx:189-200 | The refs become `ExtractBeforeResult` of the old refs, and the messages are kept. |
| Decoder.AnswerDecoder.TakeResult | app/page.tsx:189-254 | The state and the request match `ApplyResult`. |
| Decoder.AnswerDecoder.TakeChunk | app/page.tsx:294-324 | The state matches `AppendChunk`. |
| Decoder.AnswerDecoder.HandleError | app/page.tsx:327-357 | The state and the request match `FailReported`. |
| Decoder.AnswerDecoder.StartTurn | app/page.tsx:482-508 | The state and the title match `BeginTurn`. |
| Transport.CountConnectionNotices | hooks/use-websocket.ts:26 | The count of connection notices is at most the number of notices, and zero exactly when there is none. |
| Transport.Route | hooks/use-websocket.ts:49-71 | The exact text `DONE` reaches no callback. Any other frame reaches `onMessage` once, and last. `onError` comes first exactly when the frame reports a failure and neither carries the final SQL nor reports success. |
| Transport.RetryDelay | hooks/use-websocket.ts:95 | The delay is 2 seconds per attempt capped at 10 seconds: it is one of the two and exceeds neither. |
| Transport.RetryDelaysAfterOpen | hooks/use-websocket.ts:93-95 | The three retries allowed wait 2, 4 and 6 seconds, so the cap is never reached. |
| Transport.SocketHook.constructor | hooks/use-websocket.ts:18-26 | The hook starts with no socket, not connected, not processing, no attempts, the notice armed and nothing shown or sent. |
| Transport.SocketHook.Connect | hooks/use-websocket.ts:28-117 | On an open socket nothing changes. Otherwise a new socket starts connecting, or, if the constructor throws, the hook is marked disconnected. The counter, the flag and the notices are kept. |
| Transport.SocketHook.RetryFires | hooks/use-websocket.ts:98-100 | A pending retry clears itself and connects. With none pending, nothing changes. |
| Transport.SocketHook.OnOpen | hooks/use-websocket.ts:42-47 | The socket is open and connected, the counter restarts and the error notice is re-armed. |
| Transport.SocketHook.OnError | hooks/use-websocket.ts:73-85 | The hook is disconnected. The connection notice is shown, once, only after a failed reconnect and only if none was shown since the last open. |
| Transport.SocketHook.OnClose | hooks/use-websocket.ts:87-112 | Processing stops. While retries remain, the counter goes up by one and a retry is scheduled after `RetryDelay` of the new count. Once they are used up, no retry is scheduled and the final notice appears unless one already did. The counter never passes 3. |
| Transport.SocketHook.OnMessage | hooks/use-websocket.ts:49-71 | The calls made are `Route` of the frame. Only the exact `DONE` stops processing, and nothing else changes. |
| Transport.SocketHook.SendQuery | hooks/use-websocket.ts:130-158 | A query is sent, and true returned, exactly when the socket is open and the send does not throw. Then the hook is processing. Otherwise one notice is shown and nothing is sent. A refused send also stops processing. |
| Transport.SocketHook.Disconnect | hooks/use-websocket.ts:119-128 | The pending retry is cancelled and the socket dropped, and the hook is disconnected. |
| Transport.SocketHook.NoticeShown | hooks/use-websocket.ts:79-83 | A notice is appended, and the count of connection notices since the last open grows only for a connection notice. |
| Composed.ErrorRequest | app/page.tsx:328-339 | The error callback sends a request exactly when a message is bound. The request is for that message and its status is "error". |
| Composed.ErrorSettle | app/page.tsx:340-356 | After the request, the refs are reset and unbound and no message is added or removed. With no id bound by then, the messages are kept. |
| Composed.Receive | hooks/use-websocket.ts:49-71 | The exact `DONE` does nothing on the page. With no message bound, nothing happens. No message is added or removed. |
| Composed.ErrorCallbackSplit | app/page.tsx:327-357 | With nothing run in between, the two halves of the error callback do exactly what `FailReported` does. |
| Composed.NoNoticesAround | hooks/use-websocket.ts:59-64 | A frame that trims to a short token carries neither the final-SQL marker nor the success or failure notices. |
| Composed.FailureIsNotSessionEnd | app/page.tsx:262 | A failure report never takes the session-end branch. |
| Composed.StepKeepsBinding | app/page.tsx:274 | Only the session-end branch unbinds the active message. |
| Composed.StreamEndThroughHook | hooks/use-websocket.ts:53-56 | Of the frames that trim to `DONE`, the exact `DONE` leaves the page's answer unfinished. Every other one finishes it and sends its request. |
| Composed.PaddedDoneFinishes | hooks/use-websocket.ts:53 | `DONE` followed by a line break reaches the page and finishes the answer. |
| Composed.FailureReportEndsTurn | hooks/use-websocket.ts:64-66 | A failure report sends the error request first. It ends with the bound message failed, showing the failure text and the report, every other message untouched, and the page unbound. |
| Composed.SettleAfterBranch | app/page.tsx:340-356 | Settling after a branch that touched only the bound message fails exactly the messages with that id. Every other message is as it was before the branch. |
| Composed.FailureChunkIsReportedFailure | app/page.tsx:313-357 | A failure report outside a fence, taken as a chunk, leaves exactly what `FailReported` leaves and sends its request. |
| Composed.FailureOverwritesContent | app/page.tsx:340-351 | Failing a message after showing new content leaves what failing it alone leaves. |
| Charts.SupportedTypes | components/charts/chart-container.tsx:26-43 | There is always at least one type. A non-empty list given by the configuration is returned unchanged. Without one, at most two types are offered. |
| Charts.EmptyListIgnored | components/charts/chart-container.tsx:27-29 | An empty list of types counts as no list. |
| Charts.DerivedTypesDrawable | components/charts/chart-container.tsx:31-42 | Without a list, every type offered other than the configured kind has the keys its chart dereferences at components/charts/chart-container.tsx:52-87, and when the switcher is shown every type offered has them. |
| Charts.ListedTypesUnchecked | components/charts/chart-container.tsx:27-29 | A listed type is offered even when the keys its chart dereferences are missing. |
| Charts.SwitcherShownIff | components/charts/chart-container.tsx:105 | The switcher appears exactly when the configuration lists more than one type, or lists none and has both axes or both names and values. |
| Charts.InitialKindMayBeUnlisted | components/charts/chart-container.tsx:46-47 | The kind drawn first need not be among the types offered: a stat card with both axes offers only area and bar. |

## Left out

- **Network requests are instantaneous.** `fetch` is taken to complete at once and never to fail. The PATCH request is an output of each step. A rejected `fetch` would leave the rest of a branch undone, and that is not modelled.
- **The result-error branch is treated as atomic.** It awaits its request before editing the messages, and reads the bound id again afterwards. The model treats the branch as one step.
- **Only one `await` interleaving is modelled.** Of the points where a frame can be handled while another handler is suspended, the model covers only the error callback's split. React's lazy `setMessages` updaters are evaluated at once. `DecoderProperties.FlagDoneFrame`, `DecoderSpec.FailReported`, `Composed.ErrorSettle` and `Composed.FailureReportEndsTurn` therefore describe the order the code is written in, not the order React may run it. The updaters at app/page.tsx:266-271 and app/page.tsx:340-351 read `currentMessageIdRef.current` when they run, and the same handler sets it to `null` at app/page.tsx:274 and app/page.tsx:353. If an earlier update is still pending, React runs such an updater after that, finds no message with a `null` id and changes nothing. The message then stays `processing` after `FLAG_DONE`, or is not marked failed in memory after a failure report, although its request was sent. The model does not capture this outcome.
- DecoderProperties.FlagDoneFrame: states that the active message becomes `completed` as if the updater ran before app/page.tsx:274 cleared the id, as the line above explains.
- DecoderSpec.FailReported: marks the message failed in memory as if the updater ran before app/page.tsx:353 cleared the id.
- Composed.ErrorSettle: same ordering as `DecoderSpec.FailReported`.
- Composed.FailureReportEndsTurn: same ordering as `DecoderSpec.FailReported`.
- **`JSON.parse` is an input.** It is a parameter, `Parser`, that returns the fields the page reads or nothing when parsing throws. A `sql` or `error` field that is not a string is not modelled.
- **String lengths count code points.** The title's 30-character cut counts code points, while JavaScript counts UTF-16 code units. The two differ only for characters outside the Basic Multilingual Plane.
- **The browser's objects are reduced.** Of the WebSocket object, timers and toasts, the model keeps only the socket's ready state, the delay of the pending retry and the list of notices shown. The toast texts, the URL and console output are left out.
- **A failing WebSocket constructor or `send` is an input.** Whether they throw is a boolean parameter.
- **Only one socket exists.** After a reconnect or a disconnect, the old socket's handlers may still fire. The model has a single socket, whose close event runs `OnClose` as any close does.
- **The hook's final-SQL extraction is left out.** The hook computes a trimmed SQL string at hooks/use-websocket.ts:60 and never uses it.
- **React rendering is left out.** This covers the chart switch statement, the sidebar and the conversation list. So are the conversation REST routes and loading past conversations, which are not part of this model.
- **The order of the hook's calls and the page is fixed.** The hook and the page are composed only through `Composed.Receive`. Starting a turn is not composed with `SendQuery`.
- **Behaviour of the code a reader may not expect, which the model follows:**
  - A thinking notice makes even a completed or failed message processing again (app/page.tsx:49-61).
  - A final-SQL line marks the message completed in memory only, not in its request (app/page.tsx:155-179).
  - `DONE` without a block keeps the prose untrimmed (app/page.tsx:111-127).
  - `DONE` with neither prose nor buffered SQL stores `null` while the page keeps the old SQL (app/page.tsx:128-150).
  - A socket error or close never reaches the page. `Transport.SocketHook.OnError` and `Transport.SocketHook.OnClose` deliver nothing (hooks/use-websocket.ts:73-112), and the only call to the error callback is for a failure report (hooks/use-websocket.ts:64-66). A message bound when the connection drops is therefore never finished or failed: it stays `processing`, the page stays bound to it, and frames received after a reconnect still go to it (`Composed.StepKeepsBinding`).
