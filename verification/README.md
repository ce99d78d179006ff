# A Dafny model of the Ollama queueing gateway

The gateway is a Koa server in front of an Ollama instance. Every API call is
turned into a task on an in-memory request queue (`RequestQueue`). The queue
admits at most `concurrency` tasks at a time, in submission order. Each
admitted task is handed to the dispatcher (`OllamaService.processTask`), which
makes the upstream HTTP call. For a streaming task, the dispatcher decodes the
upstream's newline-delimited JSON into the task's `ReadableStream` and settles
the task's promise when the transport ends or fails. Nine facade methods
(`generate`, `chat`, `embedding`, `listModels`, `createModel`, `pullModel`,
`copyModel`, `deleteModel`, `showModel`) submit a task and adapt its outcome.
The routes under `/api` validate the body, call the facade, and pick 400, 500
or 200. A streamed answer is relayed to the client as one
`JSON.stringify(value) + '\n'` line per chunk. The chat route also
accumulates the streamed `message.content` and records the exchange.

The model is functional: immutable datatypes and pure step functions, with
lemmas over sequences of events.

| module (file) | models |
|---|---|
| `Text` (text.dfy) | `split('\n')`, `trim()` and the blank-line filter |
| `Js` (js.dfy) | JSON values, property lookup, truthiness, `=== true`, `JSON.stringify`, the `+=` string coercion |
| `Tasks` (tasks.dfy) | task kinds, `QueueTask`, the task's promise and its `resolve`/`reject` |
| `RequestQueue` (queue.dfy) | src/queue.ts: the events submit (`addTask`), admit (`processQueue`) and complete (the `catch`/`finally` after `processTask`) |
| `StreamController` (controller.dfy) | the task's `ReadableStream`: its default controller (`enqueue`, `close`, `error`) and a default reader (`read`), following the ReadableStreamDefaultController algorithms of the WHATWG Streams Standard |
| `Dispatcher` (dispatcher.dfy) | `processTask`: chunk decoding, the `end`/`error` listeners, the non-streaming call |
| `Facade` (facade.dfy) | the nine facade methods and their failure adaptation |
| `Routes` (routes.dfy) | the route checks, the 400/500/200 decision, the relay, the chat fold and its records, `/api/queue-status` |
| `Pipeline` (pipeline.dfy) | a request followed end to end |

Interfaces to the outside are parameters:
- `JSON.parse` is an arbitrary `Parser` (`string -> Option<Json>`, where None is a SyntaxError).
- The upstream HTTP exchange is an `Exchange`: refused, answered with one body, or a sequence of transport events (`Data`, `End`, `Failure`).
- A uuid is a fresh natural number.
- The id of a newly created conversation is a parameter.
- The database writes of the chat route are returned as `Effect` values.

Where two handlings are compared, a `Policy` chooses between the code as
written (`AsWritten`) and the corrected one (`Corrected`). See "Findings".

Some behaviour differs from a plain reading of the design, and the model
follows the code:
- A route reads a stream only after the facade's promise has settled.
  `error()` on a readable stream discards its queued chunks. So a transport
  error in the middle of a stream reaches the client as a destroyed response
  with no chunk at all (`Pipeline.ErrorMidStreamRelaysNothing`).
- A failed streaming request (src/ollama.ts:87-90) rejects the task but never
  errors its stream.
- The routes take the streaming branch on `stream === true`, but the queue
  and the dispatcher stream on any truthy `stream`. A body with
  `"stream": "yes"` is therefore streamed upstream and answered by the
  non-streaming branch. Corrected, the answer is always 200 with
  `{success: true}` (`Pipeline.StreamFlagMismatch`). As written, it is that
  same answer while no `done` line has closed the stream, and no answer at all
  once one has (`Pipeline.StreamFlagMismatchAsWritten`).
- A line that parses to `null` is enqueued, and then reading its `done`
  (src/ollama.ts:63) throws a TypeError. The loop over the chunk stops there,
  so the later lines of that chunk are dropped, including a `done` line.
  Transport end then finds the stream still open, closes it and resolves the
  promise, even as written (`Dispatcher.DecodeLinesSpec`,
  `Dispatcher.NdjsonAnswer`).

## Model

| member | source | states |
|---|---|---|
| `Text.TrimEmptyIffBlank` | src/ollama.ts:56 | `line.trim()` is empty exactly when the line is all ECMAScript whitespace, so the filter drops exactly the blank lines |
| `Text.Split` | src/ollama.ts:56 | `split` yields at least one piece and no piece contains the separator |
| `Text.JoinSplit` | src/ollama.ts:56 | the pieces of a split, joined with the separator, give back the chunk: no character is lost or reordered |
| `Text.SplitJoin` | src/ollama.ts:56 | splitting separator-free pieces joined by the separator gives back exactly those pieces |
| `Text.NonBlank` | src/ollama.ts:56 | the filter keeps only non-blank lines that occur in its input |
| `Text.NonBlankAppend` | src/ollama.ts:56 | the filter distributes over concatenation, so it keeps relative order |
| `Text.NonBlankSingle` | src/ollama.ts:56 | a single line is kept iff it is not blank |
| `Text.NonBlankKeepsNonBlank` | src/ollama.ts:56 | no non-blank line is dropped |
| `Js.Lookup` | src/ollama.ts:59-63 | a key is absent iff no member has it; otherwise it reads the value of a member with that key (the last of duplicates, as `JSON.parse` keeps it) |
| `Js.Get` | src/ollama.ts:63 | a property is present only on an object with a member of that key, with that member's value, and an object with such a member always has it |
| `Js.Truthy` | src/queue.ts:35 | `true` is truthy, and a truthy value is present and is none of `null`, `false`, `0` and `""` |
| `Js.Stringify` | src/routes/api.ts:63 | `JSON.stringify` output contains no line feed and starts with a non-whitespace character, so one value is one non-blank line |
| `Js.LinesOfNdjson` | src/ollama.ts:56 | the non-blank lines of newline-delimited JSON are exactly the serialised values, in order |
| `Js.NdjsonIsJoin` | src/routes/api.ts:63 | the concatenated frames are the serialised values joined by line feeds plus a final empty piece |
| `Tasks.Resolve` | src/queue.ts:16-30 | `resolve(v)` fulfils a pending promise with exactly `v`, and a settled promise ignores it |
| `Tasks.Reject` | src/queue.ts:16-30 | `reject(e)` rejects a pending promise with exactly `e`, and a settled promise ignores it |
| `RequestQueue.New` | src/queue.ts:9-11 | a new queue has nothing pending or processing, keeps its limit, and satisfies the queue invariant |
| `RequestQueue.QueueLength` | src/queue.ts:78-80 | with consistent bookkeeping, the pending, processing and finished tasks together account for every submitted task |
| `RequestQueue.ProcessingCount` | src/queue.ts:82-84 | with consistent bookkeeping the count never exceeds the limit, and under the invariant it equals the limit whenever a task waits |
| `RequestQueue.ProcessQueue` | src/queue.ts:49-57 | a task starts iff the list is non-empty and a slot is free; the started task followed by the new list is the old list, and only the started id joins `processing` |
| `RequestQueue.AddTask` | src/queue.ts:13-47 | the new task has the next id, its kind and request, and a stream handle iff `request.stream` is truthy; it joins the tail of the list, and it or an older task starts iff a slot is free |
| `RequestQueue.Complete` | src/queue.ts:59-68 | completion rejects with the thrown error iff `processTask` threw; it moves its id from `processing` to the finished ids, and starts the head of the list iff the list is non-empty and a slot is then free |
| `RequestQueue.ProcessQueueStep` | src/queue.ts:49-57 | one `processQueue` changes nothing when the list is empty or the limit is reached; otherwise it moves exactly the head task to `processing`, leaving the rest in order |
| `RequestQueue.AddTaskStep` | src/queue.ts:13-47 | `addTask` keeps the invariant and gives the task an id unused so far. The task has a stream handle iff `request.stream` is truthy. The started task followed by the new list equals the old list followed by the new task |
| `RequestQueue.CompleteStep` | src/queue.ts:59-68 | completion, normal or throwing, removes exactly that id from `processing` and rejects the task iff `processTask` threw, with that error. It starts the head of the list iff the list is non-empty, and keeps the invariant |
| `RequestQueue.StepKeepsInv` | src/queue.ts:43-68 | a submission or a completion keeps the invariant, and the task it starts, if any, is the oldest not yet started |
| `RequestQueue.ReplayKeepsInv` | src/queue.ts:43-68 | every event sequence keeps the invariant, and the j-th task to start has the j-th id after those already started (FIFO) |
| `RequestQueue.FreshQueueRuns` | src/queue.ts:9-68 | from a new queue: at most `concurrency` tasks process; a task waits only while every slot is busy; pending, processing and finished partition the submitted tasks; the j-th task started is the j-th submitted |
| `RequestQueue.DefaultProcessTask` | src/queue.ts:72-76 | the placeholder returns normally and leaves a pending promise pending |
| `RequestQueue.DefaultProcessingNeverSettles` | src/queue.ts:59-76 | with the placeholder, completion frees the slot and rejects nothing, and the task stays unsettled |
| `StreamController.Enqueue` | src/ollama.ts:61 | `enqueue` appends iff the stream can still close or enqueue; otherwise it throws a TypeError |
| `StreamController.Close` | src/ollama.ts:64 | `close` is legal only once, on a readable stream; it takes effect at once on an empty queue, and otherwise after the queued chunks |
| `StreamController.Error` | src/ollama.ts:83 | `error` on a readable stream errors it and discards its chunks; on a closed or errored stream it does nothing |
| `StreamController.ReadOne` | src/routes/api.ts:59 | a read yields and removes the oldest queued chunk of a readable stream; it yields the end of a closed stream and the stored error of an errored one, and waits on an open empty one, in these cases changing nothing |
| `StreamController.RunPreservesOrder` | src/ollama.ts:58-65 | across any operations, the reader receives a prefix of what was queued, in enqueue order; unless the stream errored, what was read followed by what is queued is exactly what was enqueued; a closing stream accepts nothing more |
| `StreamController.ErroredStaysErrored` | src/ollama.ts:80-86 | an errored stream stays errored and neither accepts nor delivers anything |
| `Dispatcher.UpstreamCall` | src/ollama.ts:46 | as written, every task is POSTed to `/api/generate` with its request; only `request.stream` picks a streamed response |
| `Dispatcher.AsWrittenCallIgnoresKind` | src/ollama.ts:94 | as written, a task of any kind but `generate` reaches an endpoint other than its own |
| `Dispatcher.CorrectedCall` | src/ollama.ts:46 | the corrected call goes to the endpoint of the task's kind, and coincides with the call as written only for `generate` |
| `Dispatcher.CorrectedCallsAreDistinct` | src/ollama.ts:94 | under the corrected call, tasks of different kinds reach different endpoints |
| `Dispatcher.DecodeLines` | src/ollama.ts:58-66 | the values enqueued come from a prefix of the lines and are appended after the stream's earlier chunks; the stream's state is untouched; stopping before the last line always comes with an exception |
| `Dispatcher.DecodeLinesSpec` | src/ollama.ts:53-70 | each enqueued value is the parse of its line, in order, and only the last can be `done` or `null`. The stream is closing afterwards iff it was before or that last value is `done`. The loop runs without an exception iff it handles every line and enqueues no `null`. An exception is a SyntaxError at a line that fails to parse, a TypeError at a line that cannot be enqueued on a closing stream, or a TypeError from reading `null.done` just after enqueueing that `null`; the values already enqueued stay |
| `Dispatcher.OnData` | src/ollama.ts:52-71 | the `data` listener leaves the stream's state as it was, appends at most one value per non-blank line of the chunk, and appends one for every line when nothing was thrown |
| `Dispatcher.FirstNull` | src/ollama.ts:63 | the index of the first `null` among some values, or their count: no value before it is `null` |
| `Dispatcher.Delivered` | src/ollama.ts:58-66 | the values a chunk gets onto the stream are a prefix of its values with no `null` before their last, and either all of them or ending in a `null` |
| `Dispatcher.DecodeParsedLines` | src/ollama.ts:58-66 | for lines that all parse, with only the last possibly `done`: the values up to the first `null` are enqueued in order, or all of them when none is `null`. A `null` ends the loop with a TypeError. The stream closes iff no value is `null` and the last is `done` |
| `Dispatcher.DecodeNdjson` | src/ollama.ts:52-71 | a chunk of newline-delimited JSON enqueues its values in order, up to and including the first `null`. Without a `null` there is no fault, and the stream closes iff the last value is `done`; a `null` throws a TypeError and leaves the stream open |
| `Dispatcher.OnEnd` | src/ollama.ts:73-78 | corrected, or as written on a stream that can still close, transport end closes the stream, keeping its chunks, and resolves a pending promise with `{success: true}`. As written on a stream already closing, the TypeError from `close()` escapes and nothing else changes |
| `Dispatcher.OnError` | src/ollama.ts:80-86 | transport error rejects a pending promise with that error and leaves a settled one alone. It errors a readable stream, discarding its chunks, and leaves a closed or errored one as it was |
| `Dispatcher.AsWrittenEndSettlesIffOpen` | src/ollama.ts:73-78 | as written, after any data, transport end resolves the promise with `{success: true}` exactly when the stream is still open; otherwise the promise stays pending and a TypeError escapes |
| `Dispatcher.RunEventsAppend` | src/ollama.ts:52-86 | the listeners' effect over two runs of transport events is their effect over the combined run |
| `Dispatcher.SettledStaysSettled` | src/ollama.ts:73-86 | a settled promise never changes; `data` events never settle it; a rejection comes from an `error` event with that very error |
| `Dispatcher.DataKeepsState` | src/ollama.ts:52-71 | `data` events never change the stream's state or the promise, and keep the stream well formed |
| `Dispatcher.TransportErrorSettles` | src/ollama.ts:80-86 | a transport error rejects the pending promise with that error and leaves the stream errored or closed; a still readable stream loses its queued chunks |
| `Dispatcher.DoneThenEndNeverSettles` | src/ollama.ts:63-77 | as written, a `done` line followed by transport end leaves the promise pending, because a TypeError escapes the `end` listener |
| `Dispatcher.CorrectedEndSettles` | src/ollama.ts:73-78 | corrected, transport end resolves a pending promise with `{success: true}` and leaves the stream closing, whatever data came first |
| `Dispatcher.CorrectedStreamAlwaysSettles` | src/ollama.ts:73-78 | corrected, every transport that delivers data and ends resolves the task, and nothing escapes a listener |
| `Dispatcher.ProcessTask` | src/ollama.ts:40-101 | `processTask` never throws to the queue. A non-streaming task settles before the call returns: with the body on success, with the error on failure. A streaming task is still pending when the call returns. As written, a failed streaming request leaves the stream untouched; corrected, it errors the stream |
| `Dispatcher.ProcessTaskIgnoresKind` | src/ollama.ts:41-43 | the dispatcher's behaviour depends on the request only, never on the task's kind |
| `Dispatcher.SetupFailureLeavesStreamOpen` | src/ollama.ts:87-90 | as written, a failed streaming request is rejected, but a reader of its stream waits for ever |
| `Dispatcher.CorrectedSetupFailureErrorsStream` | src/ollama.ts:87-90 | corrected, the reader of that stream receives the same error |
| `Dispatcher.NdjsonAnswer` | src/ollama.ts:52-78 | a streamed answer of newline-delimited JSON ending in `done`, followed by transport end, leaves on a closing stream the values up to the first `null`, or all of them, in order. Without a `null`: corrected, the promise is resolved; as written, it stays pending with a TypeError escaped. With one, it is resolved under both policies |
| `Facade.Await` | src/ollama.ts:103-203 | a facade method returns iff the task's promise has settled, and its result has the method's shape |
| `Facade.AwaitAdapts` | src/ollama.ts:103-203 | a value passes through unchanged. A rejection becomes `{response: null, stream}` for generate, chat, createModel and pullModel, keeping the stream handle; it becomes `null` for listModels, copyModel, deleteModel and showModel; only embedding rethrows, with the same error |
| `Facade.SubmitOneTask` | src/ollama.ts:103-203 | each method submits exactly one task of its kind at the tail of the queue. listModels submits `{}` and so never gets a stream handle; the other methods submit their body |
| `Routes.CorrectedCallMatchesRoute` | src/routes/api.ts:29-406 | with the corrected call, a task reaches the upstream endpoint of the route it arrived on, and routes do not share endpoints |
| `Routes.Validate` | src/routes/api.ts:32-395 | `/api/tags` accepts every request, and every other route rejects a body that is not an object |
| `Routes.ValidateIffRequiredFields` | src/routes/api.ts:32-395 | a body passes a route's check iff every field the route requires is truthy and, for chat, `messages` is a non-empty array |
| `Routes.HandleSubmitsIffValid` | src/routes/api.ts:32-42 | a route answers 400 and leaves the queue unchanged iff its check fails; otherwise it submits one task of its kind, keeping the queue invariant |
| `Routes.Respond` | src/routes/api.ts:38-83 | a route replies iff the facade returned, never 400. The event stream is chosen only on `stream === true` for the four streaming routes; a 200 body is always the truthy response |
| `Routes.StreamBranchNeverFails` | src/routes/api.ts:44-48 | once settled, the streaming branch always answers with an event stream: its 500 for a missing stream handle cannot happen |
| `Routes.PlainBranchAnswers` | src/routes/api.ts:76-82 | outside the streaming branch, the route answers 200 with the task's value iff the value is truthy, and 500 iff the task failed or its value is falsy |
| `Routes.Route` | src/routes/api.ts:29-84 | a route answers 400 iff its check fails; it never answers iff the check passes and the task's promise stays pending; it answers with an event stream only on the streaming branch |
| `Routes.Relay` | src/routes/api.ts:57-69 | the relay pushes at most one frame per queued chunk plus one, and only its last frame can be the end or a destroy |
| `Routes.ClosingRelay` | src/routes/api.ts:57-69 | a readable stream that is closing is relayed as its chunks, in order, then the end, and the text written is their newline-delimited JSON |
| `Routes.RelayFrames` | src/routes/api.ts:57-69 | the relay writes one `JSON.stringify(value) + '\n'` line per queued chunk, in order, then ends exactly once for a closing stream. An errored stream is only destroyed; an open stream stalls after its chunks |
| `Routes.EofIsLast` | src/routes/api.ts:59-62 | the end marker is pushed at most once and is the last thing pushed |
| `Routes.BodyOfFramed` | src/routes/api.ts:63 | the text a relay writes for some values is their newline-delimited JSON |
| `Routes.RelayRoundTrip` | src/routes/api.ts:57-69 | a client splitting the relayed text into non-blank lines recovers one serialised chunk per line, in order |
| `Routes.ChatRelay` | src/routes/api.ts:117-155 | the chat relay pushes at most one frame per chunk plus one, and only its last frame can be the end or a destroy. It ends with the end frame and an extension of the starting `fullMessage`, or with a destroy carrying the error |
| `Routes.ChatRelayFolds` | src/routes/api.ts:113-155 | at the end of the chat relay, `fullMessage` is the in-order concatenation of every relayed chunk's `message.content`, and the frames are those of the plain relay |
| `Routes.ChatRelayBreaks` | src/routes/api.ts:145-152 | a chunk without a `message` destroys the response with a TypeError after the earlier chunks and before its own |
| `Routes.Persist` | src/routes/api.ts:124-141 | the chat record's user is the request's `userId`, or 1 when that is falsy. A conversation is created exactly when `conversationId` is falsy, and the record uses the request's conversation or the new one |
| `Routes.ChatStreamSavesFullMessage` | src/routes/api.ts:120-141 | once the chat stream has been relayed to its end, the saved response is the concatenation of every chunk's content |
| `Routes.ChatPlainPersistsIffAnswered` | src/routes/api.ts:160-191 | the non-streaming chat route writes to the database exactly when it answers 200, and saves that answer |
| `Routes.QueueStatus` | src/routes/api.ts:409-415 | the queue status reports the queue's length, its processing count and its limit |
| `Pipeline.SubmitBuildsTaskFor` | src/queue.ts:14-41 | the task a route submits carries the next id, its kind and its request, with a stream handle iff `request.stream` is truthy |
| `Pipeline.SlotFreedBeforeStreamEnds` | src/ollama.ts:45-86 | a streaming task frees its processing slot when `processTask` returns, while its promise is still pending |
| `Pipeline.StreamFlagMismatch` | src/routes/api.ts:38 | corrected, a truthy `stream` other than `true` is streamed upstream yet answered by the non-streaming branch: 200 with `{success: true}`, whatever data came first |
| `Pipeline.StreamFlagMismatchAsWritten` | src/routes/api.ts:38 | as written, the same request gets 200 with `{success: true}` when the data left the stream open, and no answer once a `done` line closed it |
| `Pipeline.StreamedRoute` | src/routes/api.ts:38-71 | on the streaming branch the task's stream and promise are those the transport events leave; the route answers with the event stream once the promise settles and not before |
| `Pipeline.CorrectedStreamPipeline` | src/routes/api.ts:38-71 | corrected, a streamed request over upstream newline-delimited JSON ending in `done` is answered with an event stream relaying the values up to the first `null` and then the end; without a `null`, its text is exactly the upstream's |
| `Pipeline.AsWrittenStreamPipeline` | src/ollama.ts:63-78 | as written, the same request is never answered iff no value is `null`, and a TypeError escapes; after a `null`, it is answered with an event stream relaying the values up to that `null` and then the end |
| `Pipeline.ErrorMidStreamRelaysNothing` | src/ollama.ts:80-86 | a transport error after any chunks gives an event stream that is only destroyed with that error; the client receives no chunk |
| `Pipeline.AsWrittenSetupFailureStalls` | src/ollama.ts:87-90 | as written, a failed streaming request is answered with an event stream that never delivers anything and never ends |
| `Pipeline.CorrectedSetupFailureDestroys` | src/ollama.ts:87-90 | corrected, that stream is destroyed with the request's error |
| `Pipeline.RefusedNonStreamIs500` | src/app.ts:19-29 | a failed non-streaming request is answered 500: by the route on a `null` result, by the error middleware on embedding's rethrow |

## Left out

- HTTP transport: axios, Koa, Node `Readable` and CORS and body parsing are not modelled. The upstream exchange and `JSON.parse` are parameters.
- Timing and interleaving: there is no real async timing. Interleavings are sequences of discrete events. The relay reads only after all transport events of its task.
- Persistence: `Conversation.create` and `saveMessage` are returned as `Effect` values. Their failures are not modelled: a failing `saveMessage` is only logged, and a failing `Conversation.create` destroys a response that has already ended.
- Configuration: environment parsing and the token middleware are I/O-bound and outside the request path.
- Concurrency values: `concurrency` is a natural number. A `NaN` or negative value from `parseInt` is not modelled.
- JSON numbers: they are integers. Fractions and their `JSON.stringify` form are not modelled.
- Uncaught exceptions: an exception escaping a stream listener is recorded in `uncaught`. What Node then does with the process is not modelled.
- Routes.Respond: the error middleware answers `err.status || 500`. The model answers 500, because no modelled exception carries a status.
- Error bodies: the text of `{error: ...}` bodies and all console logging are not modelled.
- Request shapes: the Ollama request and response fields carry no logic and are generic JSON values.

## Findings

| source | as written | input that shows it | evidently intended | confidence | as-written member | corrected member |
|---|---|---|---|---|---|---|
| src/ollama.ts:63-77 | the `end` listener calls `close()` on a stream that a `done` line already closed; the TypeError escapes before `task.resolve` | upstream sends `{"done":true}\n`, then the transport ends | close only a stream that can still be closed, then resolve, so the task settles and the route answers | high, not executed | `Dispatcher.DoneThenEndNeverSettles` | `Dispatcher.CorrectedStreamAlwaysSettles` |
| src/ollama.ts:46 | every task is POSTed to `/api/generate`, whatever its kind | a chat, embedding, list, create, pull, copy, delete or show request | each kind goes to its own upstream endpoint, the one its route mirrors | high, not executed | `Dispatcher.AsWrittenCallIgnoresKind` | `Routes.CorrectedCallMatchesRoute` |
| src/ollama.ts:87-90 | a failed streaming request rejects the task but never errors its stream | `stream: true` while the upstream refuses the connection | error the stream as the `error` listener does, so the client's response ends with the error | medium, not executed | `Pipeline.AsWrittenSetupFailureStalls` | `Pipeline.CorrectedSetupFailureDestroys` |
