# Mindly chat streaming: a Dafny model

This project models the two stateful pieces of the Mindly wellness chat:

* the chat page's turn state machine (`ChatPage` in `frontend/app/page.tsx`).
  `handleSend` appends the user's line and an empty assistant placeholder.
  Each server-sent fragment then rebuilds the transcript as the turn-start
  snapshot with its last entry replaced by the accumulated response.
  `onerror` and `onopen` clear the loading flag.
* the backend's `SSEStream` (`backend/utils/sse_stream.py`): a FIFO of
  strings closed by a `None` marker, whose async iterator frames each item
  as a Server-Sent Events `data:` frame.

Modules, one per concern:

| file | module | what it holds |
|---|---|---|
| `wrappers.dfy` | `Wrappers` | `Option`, used for the queue's end marker |
| `strings.dfy` | `Strings` | JavaScript `trim` and its white-space set; string concatenation |
| `chat_page.dfy` | `ChatPage` | the turn's pure specification (`HandleSend`, `Fragment`, `Deliver`, `Run`), its lemmas, and the class `Page` whose handler methods are proved to follow it |
| `event_stream.dfy` | `EventStream` | the `data:` framing as written and a corrected framing. Also a reference parser for the client side, following the event-stream format of the WHATWG HTML Living Standard (section 9.2.5 "Parsing an event stream" for the grammar and section 9.2.6 "Interpreting an event stream" for the line rules), with round-trip lemmas |
| `sse_stream.dfy` | `ServerSentEvents` | the queue's pure specification (`Init`, `Put`, `Closing`, `Take`, `Iterate`), its lemmas, and the class `SseStream` |

Assumptions of the model:

* Handlers run one at a time, in arrival order. Under that assumption the
  functional update `prev` (page.tsx line 21) and the captured `messages`
  (line 23) are the same transcript, so the model keeps one `messages`.
* The turn's closure variables `response` and `newMessages` are fields of
  the page state. A field `streamOpen` records whether the turn's
  EventSource exists and has not been closed. A closed EventSource
  dispatches nothing (line 43), so `Deliver` ignores events once it is closed.
* Strings are sequences of Unicode scalar values. The transcript prefixes
  are written with `\U{1F9E0}` (brain) and `\U{1F916}` (robot).
* `send` never reads `_closed`, so an item sent after `close` is queued
  behind the marker and no iteration that stops at the marker reaches it.
* `asyncio.Queue.get` on an empty queue waits. The model is sequential,
  so `SseStream.Next` requires a non-empty queue instead.

Facts about `page.tsx` that shape the model:

* `handleSend` never checks `loading`. Only the disabled text box and
  button (lines 74 and 79) prevent a send while loading. So `Page.Send` has
  this as its caller's precondition, and `HandleSend` itself ignores `loading`.
* The assistant entry is created at send time, as an empty placeholder
  (line 21), and each fragment replaces it (line 39).
* There is a single `loading` flag, and both `onopen` and `onerror` clear it
  (lines 44 and 48).

## Model

| member | source | states |
|---|---|---|
| `Strings.TrimStart` | frontend/app/page.tsx:19 | the result is the suffix of the input after its leading JavaScript white space; every removed character is white space and the result does not start with one |
| `Strings.TrimEnd` | frontend/app/page.tsx:19 | the result is the prefix of the input before its trailing white space; every removed character is white space and the result does not end with one |
| `Strings.Trim` | frontend/app/page.tsx:19 | `String.prototype.trim`, the two trims composed; stated by `TrimStart`, `TrimEnd` and `BlankIffAllWhitespace` |
| `Strings.IsBlank` | frontend/app/page.tsx:19 | `!input.trim()`: the trimmed input is empty; stated by `BlankIffAllWhitespace` |
| `Strings.BlankIffAllWhitespace` | frontend/app/page.tsx:19 | `!input.trim()` holds exactly when every character of the input is white space |
| `ChatPage.Initial` | frontend/app/page.tsx:13-15 | the mounted state: empty transcript and input, not loading, no stream; specification function, whose properties are the lemmas below |
| `ChatPage.ChangeInput` | frontend/app/page.tsx:73 | the text box's new value replaces `input`; specification function of `Page.Edit` |
| `ChatPage.HandleSend` | frontend/app/page.tsx:18-24 | specification function of `handleSend`; its meaning is stated by `SendChangesIffNotBlank`, `BlankSendIgnored` and `TurnTranscript` |
| `ChatPage.Fragment` | frontend/app/page.tsx:35-40 | specification function of `onmessage`; its meaning is stated by `RunInTurn` and `TurnTranscript` |
| `ChatPage.Deliver` | frontend/app/page.tsx:35-49 | one event reaching the page: message, open or error, and nothing once the EventSource is closed; its meaning is stated by `RunClosed` and `RunInTurn` |
| `ChatPage.Run` | frontend/app/page.tsx:35-49 | events delivered one at a time in arrival order; stated by `RunAppend`, `RunInTurn` and `TurnTranscript` |
| `ChatPage.RunAppend` | frontend/app/page.tsx:35-49 | delivering `xs + ys` is delivering `xs` and then `ys` |
| `ChatPage.TurnResumes` | frontend/app/page.tsx:35-49 | from any state, the state after all events is the state after the first `k` events with the remaining ones delivered to it |
| `ChatPage.SendChangesIffNotBlank` | frontend/app/page.tsx:18-24 | a send leaves the state unchanged exactly when the input is blank; an accepted send grows the transcript by two and keeps the old entries |
| `ChatPage.DropLast` | frontend/app/page.tsx:39 | `slice(0, -1)`: a non-empty array is the result plus its last element; an empty one stays empty |
| `ChatPage.BlankSendIgnored` | frontend/app/page.tsx:19 | with no stream open, a blank send followed by any events changes nothing |
| `ChatPage.RunClosed` | frontend/app/page.tsx:42-45 | once the turn's stream is closed, no later event changes the state |
| `ChatPage.RunInTurn` | frontend/app/page.tsx:33-49 | from any point of a turn, events keep the transcript equal to the snapshot with its last entry replaced by the assistant line; the response grows by the delivered fragments concatenated; loading stays only while nothing but messages arrived; the stream closes exactly on an error; the input is untouched |
| `ChatPage.TurnTranscript` | frontend/app/page.tsx:18-49 | after an accepted send and any events, the transcript is the old one plus the user line and exactly one assistant line holding the fragments before the first error, concatenated in arrival order; input is empty; loading is true exactly when only messages arrived; partial content survives an error |
| `ChatPage.AssistantLineGrows` | frontend/app/page.tsx:33-39 | at any two points of a turn the transcript has length old + 2 and the same entries up to the user line, and the earlier assistant line is a prefix of the later one |
| `ChatPage.Page.constructor` | frontend/app/page.tsx:13-15 | the page starts with an empty transcript, an empty input and loading false |
| `ChatPage.Page.Edit` | frontend/app/page.tsx:72-74 | the text box sets `input` and nothing else; it requires not loading (the box is disabled) |
| `ChatPage.Page.Send` | frontend/app/page.tsx:18-33 | a blank input leaves every field unchanged; otherwise the transcript gets `"🧠 You: " + input` and `"🤖 Assistant: "`, the snapshot equals that transcript, input is cleared, loading is set, the response is empty and the stream is open |
| `ChatPage.Page.OnMessage` | frontend/app/page.tsx:35-40 | the chunk is appended to the response and the transcript becomes the snapshot without its last entry plus the assistant line of the response; nothing else changes |
| `ChatPage.Page.OnError` | frontend/app/page.tsx:42-45 | the stream is closed and loading cleared; transcript, input and response are kept |
| `ChatPage.Page.OnOpen` | frontend/app/page.tsx:47-49 | loading is cleared; nothing else changes |
| `EventStream.Frame` | backend/utils/sse_stream.py:22 | the framing as written, `"data: " + d + "\n\n"`; its meaning for a client is stated by `FrameRoundTrip` and `FrameDropsAfterNewline` |
| `EventStream.FrameRoundTrip` | backend/utils/sse_stream.py:22 | a client parsing a frame as written recovers the item whole whenever the item holds no line break, and is ready for the next frame |
| `EventStream.FrameDropsAfterNewline` | backend/utils/sse_stream.py:22 | for an item `a + "\n" + b` where neither part holds a line break, `b` is non-empty, holds no colon and is not `data`, a client receives only `a` |
| `EventStream.FrameSplitsEmbeddedNewline` | backend/utils/sse_stream.py:22 | the item `"a\nb"` reaches a client as `"a"` |
| `EventStream.FrameLinesRoundTrip` | backend/utils/sse_stream.py:22 | with one `data:` line per line of the item, a client recovers every item without CR, line breaks included |
| `EventStream.WireRoundTrip` | backend/utils/sse_stream.py:18-22 | a client parsing the frames of a sequence of line-break-free items, sent back to back, gets the items back in order |
| `EventStream.WireLinesRoundTrip` | backend/utils/sse_stream.py:18-22 | the same for the corrected framing and any items without CR |
| `ServerSentEvents.Init` | backend/utils/sse_stream.py:4-6 | specification of `__init__`: empty queue, not closed; stated by `Lifecycle` |
| `ServerSentEvents.Put` | backend/utils/sse_stream.py:8-9 | specification of `send`; stated by `PutAllQueue` and `Lifecycle` |
| `ServerSentEvents.Closing` | backend/utils/sse_stream.py:11-13 | specification of `close`; stated by `Lifecycle` |
| `ServerSentEvents.Take` | backend/utils/sse_stream.py:18-22 | specification of `__anext__`; stated by `IterateInOrder` |
| `ServerSentEvents.Iterate` | backend/utils/sse_stream.py:15-22 | `async for` over the stream until the marker; stated by `IterateInOrder`, `Lifecycle` and `ClientReceivesSent` |
| `ServerSentEvents.PutAllQueue` | backend/utils/sse_stream.py:8-9 | sending items appends one entry per item, in order, at the back of the queue, and leaves `_closed` alone |
| `ServerSentEvents.IterateInOrder` | backend/utils/sse_stream.py:15-22 | iterating a queue of items followed by the marker yields each item's frame in queue order, stops at the marker, and leaves what is behind it |
| `ServerSentEvents.Lifecycle` | backend/utils/sse_stream.py:4-22 | after sends, a close and more sends, the queue is the early items, the marker and the late items, with `_closed` set; iteration yields exactly the early items' frames and stops, leaving the late items queued |
| `ServerSentEvents.ClientReceivesSent` | backend/utils/sse_stream.py:8-22 | a client parsing everything iteration yields gets back every line-break-free item sent before the close, in order |
| `ServerSentEvents.SseStream.constructor` | backend/utils/sse_stream.py:4-6 | a new stream has an empty queue and is not closed |
| `ServerSentEvents.SseStream.Send` | backend/utils/sse_stream.py:8-9 | `Some(d)` goes to the back of the queue and nothing else changes; the flag is not consulted |
| `ServerSentEvents.SseStream.Close` | backend/utils/sse_stream.py:11-13 | the flag is set and the `None` marker goes to the back of the queue |
| `ServerSentEvents.SseStream.Next` | backend/utils/sse_stream.py:18-22 | the head is removed; a marker gives StopIteration and no frame, an item `d` gives `"data: " + d + "\n\n"`; the flag is unchanged |

## Findings

| source | as written | input that shows it | evidently intended | confidence | as-written member | corrected member |
|---|---|---|---|---|---|---|
| backend/utils/sse_stream.py:22 | the item goes verbatim after one `data: `, so a line break inside it ends the data line early | the item `"a\nb"` is dispatched to the client as `"a"`; the line `b` is read as an unknown field and dropped | each line of the item on its own `data:` line, so the client's data buffer joins them with LF and receives `"a\nb"` | not executed | `EventStream.FrameSplitsEmbeddedNewline` | `EventStream.FrameLinesRoundTrip` |

The class `SseStream` keeps the framing as written, because it models the
code. `EventStream.FrameLines` is the drop-in correction.
`EventStream.WireLinesRoundTrip` proves that it delivers every item
without CR. The event-stream format joins data lines with LF only, so a CR
cannot be carried in any framing.

## Left out

- `ChatPage.Page.Send`: also requires that the previous turn's stream is closed. After `onopen` clears loading, the code allows a second send while the first stream is still live. Whether that second turn's transcript survives depends on how the two streams' handlers interleave, and the model keeps to one turn at a time.
- `ServerSentEvents.SseStream.Next`: requires a non-empty queue instead of waiting for a producer. The asyncio blocking and task scheduling are not modelled.
- `__aiter__` (sse_stream.py:15-16) returns the object itself. Its only effect is to allow `async for`, which `ServerSentEvents.Iterate` models.
- The EventSource transport, the URL and `encodeURIComponent` (page.tsx:29-31) are browser calls. Fragments, open and error arrive as abstract `StreamEvent` values.
- The `AbortController` (page.tsx:26-27) is created and never used.
- React rendering and `ReactMarkdown` (page.tsx:52-88) are presentation only.
- `frontend/components/ui/header.tsx` is a theme toggle with no logic beyond a DOM call.
- `backend/main.py` (FastAPI routing, CORS, the Gemini client and its `if chunk.text` filter) only wraps libraries whose objects are not visible.
- The reference parser covers only the `data` field. It ignores `event`, `id` and `retry`, and it does not model UTF-8 decoding or a leading byte order mark. SSEStream writes such a field only inside an item that holds a line break, for example `"a\nevent: x"`, which by the standard would set the event type so that `onmessage` sees nothing. The round-trip lemmas exclude those items.
