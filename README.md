# Broadcaster page: start, stop and chunk ingest

This project models the broadcaster page `StartStreamingPage`
(`src/app/broadcast/page.tsx`) of the live-streaming web client. A broadcaster does three things on this page:

- types a title;
- starts a broadcast, which gets camera and microphone, posts a start request, opens an ingest WebSocket on the stream key the server returns, and starts a `MediaRecorder` whose chunks are queued and drained into the socket one per step;
- stops the broadcast, which closes the socket, posts an end request and navigates to the host view.

The model is split into modules:

- `Wrappers`: `Option`.
- `JsText`: the JavaScript string semantics the page relies on:
  - `String.prototype.trim` (the ECMAScript white-space and line-terminator set);
  - template interpolation, `Interpolate`: a present value is inserted as it is and a missing one prints as `undefined`. The URL lemmas below are stated through it;
  - `JSON.stringify` string quoting, with an inverse parser as its partner.
- `Requests`: the start body, the start and end requests, the socket URL and the host redirect. Each comes with a parser that reads back what it was built from.
- `Lifecycle`: a start or stop handler run is a trace of `Effect`s, that is, React state setters and calls into the browser or the network, in program order. The visible page state (`View`) is the fold `Run` of the setters over the trace. `StartTrace` and `StopTrace` are the specification functions for the handlers, and the lemmas beside them state the lifecycle properties.
- `Ingest`: the `Socket` class, which has a ready state that only moves forward and a ghost log of sent frames. The `ChunkQueue` class holds `sendQueue` and `isSending`, with ghost logs of what was pushed and what was delivered.
- `Broadcast`: the `BroadcastPage` class.
  - It holds the page's state variables, the recorder ref and the socket, queue and key that the recorder's handlers capture.
  - Each handler is a method. What the browser and the network answer comes in as parameters (`StartOutcome`, `EndOutcome`, `ReadyState`, the chunk bytes).
  - `Valid()` holds between handler runs. It ties the state fields to `Run(Initial, trace)`. It also says that the socket received exactly what the queue delivered, and that a timer chain or a pending chunk read left over after streaming stopped can only find the socket closing or closed.

The start reply is read as `raw.result.streamKey`. A reply without `result` throws inside the `try` block, and a missing `streamKey` reaches the URLs as the text `undefined`.

## Model

| member | source | states |
|---|---|---|
| JsText.TrimStartDropsBlanks | src/app/broadcast/page.tsx:30 | the result is a suffix of the input, has no leading trimmable character, and only trimmable characters were dropped |
| JsText.TrimEndDropsBlanks | src/app/broadcast/page.tsx:30 | the result is a prefix of the input, has no trailing trimmable character, and only trimmable characters were dropped |
| JsText.BlankIffAllTrimmable | src/app/broadcast/page.tsx:30 | `!title.trim()` holds exactly when every character of the title is white space or a line terminator (both directions) |
| JsText.HexDigit | src/app/broadcast/page.tsx:48 | the lower-case hex digit `JSON.stringify` writes for a nibble reads back as that nibble |
| JsText.EscapeChar | src/app/broadcast/page.tsx:48 | a character's JSON form starts with a backslash exactly when it is a quote, a backslash or a control character; otherwise it is the character itself |
| JsText.UnescapeCharStep | src/app/broadcast/page.tsx:48 | the decoder reads one escaped character back and continues with what follows |
| JsText.UnescapeAllRoundTrip | src/app/broadcast/page.tsx:48 | decoding an escaped string up to the closing quote gives back the string and the untouched rest |
| JsText.QuoteRoundTrip | src/app/broadcast/page.tsx:48 | a quoted JSON string followed by anything reads back as exactly the original string and that rest |
| Requests.NatDigits | src/app/broadcast/page.tsx:48 | the decimal rendering of a number is all digits and parses back to the number |
| Requests.StartBodyRoundTrip | src/app/broadcast/page.tsx:48 | the start body reads back as the title as typed, untrimmed, with category 1 |
| Requests.StartRequestCarriesTitle | src/app/broadcast/page.tsx:42-49 | the start call is a POST to `<api>/start` with the JSON content type and the broadcaster id, and its body carries the title and category 1 |
| Requests.EndUrlCarriesKey | src/app/broadcast/page.tsx:79 | the end URL is `<api>/end?streamKey=` followed by exactly the key |
| Requests.EndRequestCarriesKey | src/app/broadcast/page.tsx:79-85 | the end call is a POST to the end URL of exactly the key, with the two broadcaster headers and no body |
| Requests.SocketUrlCarriesKey | src/app/broadcast/page.tsx:57 | the socket URL is `<ws>?streamKey=` followed by exactly the key |
| Requests.HostRedirectCarriesKey | src/app/broadcast/page.tsx:87 | the redirect is `/live/view/<key>?host=true` with exactly the key in the path |
| Lifecycle.LaterProgress | src/app/broadcast/page.tsx:54-90 | after the server's answer, what runs is a prefix of key, socket, recorder, start; all of it once socket and recorder are created; no flag setter among them |
| Lifecycle.Progress | src/app/broadcast/page.tsx:38-91 | whatever throws, the try block's effects are a prefix of media, start call, key, socket, recorder, with no flag setter; on success they are all of them with the issued key |
| Lifecycle.BlankTitleFailsFast | src/app/broadcast/page.tsx:30-33 | a blank title makes no media, request or socket call, sets the error message and changes nothing else, loading included |
| Lifecycle.ValidatedStartBracketsLoading | src/app/broadcast/page.tsx:35-97 | past the title check, loading is the first thing set and is set off last, so the attempt always ends not loading |
| Lifecycle.StartFailureRestoresFlags | src/app/broadcast/page.tsx:35-97 | a failed attempt leaves streaming as it was, shows the failure message and ends not loading |
| Lifecycle.StartFailureNeverStreams | src/app/broadcast/page.tsx:29-98 | a failed attempt never sets streaming at all |
| Lifecycle.FullProgressRun | src/app/broadcast/page.tsx:39-90 | the try block of a successful start stores the key and holds the socket, and changes no other state |
| Lifecycle.StartSuccess | src/app/broadcast/page.tsx:29-98 | a successful start ends streaming, not loading, without error, holding the socket, with the stored key equal to the key the server issued |
| Lifecycle.StreamingAfterRecorder | src/app/broadcast/page.tsx:90-91 | on success streaming is set, and every time it is set the recorder was started before |
| Lifecycle.StopClosesBeforeEnd | src/app/broadcast/page.tsx:74-85 | the end call is always issued, and the socket is closed and streaming cleared before it |
| Lifecycle.StopNavigatesWhateverStatus | src/app/broadcast/page.tsx:79-87 | navigation to the host view happens exactly when the end call returns a response, whatever its status, follows the end call, and names the key |
| Lifecycle.StopClearsStreaming | src/app/broadcast/page.tsx:74-88 | after the stop handler the page neither streams nor holds a socket; nothing else changes |
| Ingest.Socket.constructor | src/app/broadcast/page.tsx:57 | a new socket has the given URL, is connecting and has sent nothing |
| Ingest.Socket.Send | src/app/broadcast/page.tsx:24 | sending on an open socket appends exactly that frame |
| Ingest.Socket.Close | src/app/broadcast/page.tsx:75 | closing a connecting or open socket makes it closing; a closing or closed one is unchanged; nothing is sent |
| Ingest.Socket.Advance | src/app/broadcast/page.tsx:67 | the network moves the ready state forward only, sending nothing |
| Ingest.ChunkQueue.constructor | src/app/broadcast/page.tsx:17-18 | a new queue is empty, not sending, with empty logs |
| Ingest.ChunkQueue.Push | src/app/broadcast/page.tsx:69 | pushing appends the chunk at the tail and to the pushed log, keeping delivered plus queued equal to pushed |
| Ingest.ChunkQueue.ProcessQueue | src/app/broadcast/page.tsx:20-27 | a step runs exactly when not sending, non-empty and open; it then removes the head, sends exactly it and reschedules; otherwise nothing is removed, sent or rescheduled; the in-flight flag is as before on return |
| Broadcast.BroadcastPage.constructor | src/app/broadcast/page.tsx:9-18 | the page starts with an empty title, not loading or streaming, no error, no key, no socket and no recorder |
| Broadcast.BroadcastPage.Dispatch | src/app/broadcast/page.tsx:9-14 | a state setter or call is recorded and the visible state stays the fold of the recorded trace |
| Broadcast.BroadcastPage.HoldSocket | src/app/broadcast/page.tsx:59 | `setSocket` stores the socket, and the recorded trace says whether one is held |
| Broadcast.BroadcastPage.SentPrefixOfEnqueued | src/app/broadcast/page.tsx:20-27 | what the captured socket received is a prefix of what was queued, in queue order, and the queue holds exactly the rest |
| Broadcast.BroadcastPage.SetTitle | src/app/broadcast/page.tsx:112 | typing replaces the title and keeps the page valid |
| Broadcast.BroadcastPage.RequestStage | src/app/broadcast/page.tsx:39-53 | media, then preview and start call; throws unless media was granted, the status is 2xx and the reply has a result |
| Broadcast.BroadcastPage.ConnectStage | src/app/broadcast/page.tsx:54-59 | stores the key, opens a fresh connecting socket on the URL built from it and holds it; if the constructor throws, no socket is held |
| Broadcast.BroadcastPage.Capture | src/app/broadcast/page.tsx:61-72 | the new recorder's handlers capture the socket, a fresh empty queue and the key; no state setter runs |
| Broadcast.BroadcastPage.RecordStage | src/app/broadcast/page.tsx:61-91 | creates the recorder, starts it and sets streaming, stopping at whichever call throws |
| Broadcast.BroadcastPage.ConnectAndRecord | src/app/broadcast/page.tsx:54-91 | the stages after the server's answer record exactly the specified later progress, then streaming on success |
| Broadcast.BroadcastPage.TryStart | src/app/broadcast/page.tsx:38-91 | the try block records exactly the specified progress, throws exactly when the attempt does not succeed, and on success captures a fresh connecting socket on the key's URL |
| Broadcast.BroadcastPage.Begin | src/app/broadcast/page.tsx:35-36 | loading on and the error cleared, in that order |
| Broadcast.BroadcastPage.Conclude | src/app/broadcast/page.tsx:92-97 | the failure message only if the try block threw, then loading off |
| Broadcast.BroadcastPage.ValidatedStart | src/app/broadcast/page.tsx:35-97 | past the title check the page performs exactly the start trace and stays valid. Once a recorder was created, its handlers have captured the fresh connecting socket on the issued key, an empty queue and no pending work, and it is recording exactly when started. If the attempt failed earlier, the captures, the recorder and the title are as before |
| Broadcast.BroadcastPage.StartStreaming | src/app/broadcast/page.tsx:29-98 | the page performs exactly the specified start trace and its new state is that trace's fold over the old one. A blank title or a failure before the recorder exists keeps the captures, the recorder and the title; otherwise the new recorder's captures are as for ValidatedStart |
| Broadcast.BroadcastPage.OnDataAvailable | src/app/broadcast/page.tsx:66-68 | a chunk starts being read exactly when it is non-empty and the captured socket is open; otherwise it is dropped; nothing else changes |
| Broadcast.BroadcastPage.ResumeChunk | src/app/broadcast/page.tsx:68-70 | when a pending read resolves, that chunk is queued and one drain step runs. The head is sent exactly when the socket is still open; otherwise the chunk stays queued and nothing is sent |
| Broadcast.BroadcastPage.TimerFires | src/app/broadcast/page.tsx:26 | a pending drain timeout sends the head exactly when the queue is non-empty and the socket is open, and reschedules only then; only the timers, the queue and the socket change |
| Broadcast.BroadcastPage.SocketChanges | src/app/broadcast/page.tsx:21 | the captured socket's ready state moves forward and the page stays valid |
| Broadcast.BroadcastPage.EndStreaming | src/app/broadcast/page.tsx:100 | `stop()` on a recording recorder makes it stopping; with no recorder, or an inactive one, nothing happens |
| Broadcast.BroadcastPage.RecordStop | src/app/broadcast/page.tsx:76-87 | the stop handler's setters and calls are recorded in order, and no socket is held afterwards |
| Broadcast.BroadcastPage.OnStop | src/app/broadcast/page.tsx:74-88 | whether the recorder stops after `stop()` or by itself while recording, the page performs exactly the stop trace with the captured key. It closes the captured socket, stops streaming, drops the socket and sends nothing more; queued chunks stay unsent, and the title, the key, the timers and the pending reads are as before |

## Left out

- Browser and network I/O is not modelled: `getUserMedia`, the preview element, `fetch`, `response.json()`, the `WebSocket` and `MediaRecorder` constructors and `mediaRecorder.start`. Their results are parameters (`StartOutcome`, `EndOutcome`). The socket is seen only through its ready state and the frames it was given.
- Time is not modelled: the 50 ms `setTimeout` pacing and the 1000 ms timeslice. The timeslice appears only as the argument of the start call. A pending timeout is a counter, and firing one is a handler the environment may call at any moment.
- React render semantics are not modelled: `useState`/`useRef` mechanics, re-rendering and the markup. `sendQueue` and `isSending` are recreated on every render, so the model keeps the one queue captured by the recorder of the last successful start. A newly created recorder gets a fresh queue. The timer chains and pending reads of an earlier recorder are dropped from the model.
- Broadcast.BroadcastPage.ResumeChunk: the pending reads of `event.data.arrayBuffer()` may resolve in any order. The model has no notion of how long a read takes.
- The other interleavings across `await` inside `startStreaming` and `onstop` are not modelled. Each handler runs to completion in one method, and `Valid()` assumes loading is never seen on between handler runs.
- The stream key is assumed to be a string or absent. A `null` or non-string `streamKey` in the reply, which JavaScript would store and print as `null` or its own text, is not modelled.
- `console.error` in the catch block is output only and is not modelled.
- JsText.Quote: lone surrogate code units are not given the `\uXXXX` form that `JSON.stringify` uses, because Dafny `char` values are Unicode scalar values. The round trip is stated for every string Dafny can represent.
- A recorder that fails after the socket was created leaves that socket held and open, and the server session started. The model keeps this as written: nothing closes it.
- Lifecycle.StopNavigatesWhateverStatus: the redirect target `/live/view/<key>?host=true` is modelled as written. The viewer page (`src/app/view/[streamKey]`) is not part of this model, so whether that path reaches it is not stated.
- The live list, the live page, the header, the landing page and the HLS proxy route are not part of this model. They hold no state machine of their own.
