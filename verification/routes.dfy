/**
 * The decisions of the HTTP routes under `/api`: each route's required-field
 * check (400 and nothing submitted), the choice between the streaming and the
 * non-streaming branch (`stream === true`, for the four routes that have one),
 * the 500/200 decision on the facade's result, the relay that turns the
 * task's stream into newline-delimited text, and the chat route's
 * accumulation of `message.content` and its message record.
 *
 * Koa, Node streams and the database are not modelled; the database writes
 * the chat route makes are returned as a list of `Effect`s.
 */
module Routes {
  import opened Text
  import opened Js
  import opened Tasks
  import opened StreamController
  import RequestQueue
  import opened Facade
  import opened Dispatcher

  /** The route path of each kind of operation, after the `/api` prefix. */
  function RoutePath(kind: Kind): (Method, string) {
    match kind
    case Generate => (HttpPost, "/api/generate")
    case Chat => (HttpPost, "/api/chat")
    case Embedding => (HttpPost, "/api/embeddings")
    case List => (HttpGet, "/api/tags")
    case Create => (HttpPost, "/api/create")
    case Pull => (HttpPost, "/api/pull")
    case Copy => (HttpPost, "/api/copy")
    case Delete => (HttpDelete, "/api/delete")
    case Show => (HttpPost, "/api/show")
  }

  /**
   * The gateway mirrors the upstream API: with the endpoint chosen by kind, a
   * task reaches the upstream endpoint of the route it arrived on, and no two
   * routes share one.
   */
  lemma CorrectedCallMatchesRoute(task: Task, kind: Kind)
    ensures (CorrectedCall(task).verb, CorrectedCall(task).path) == RoutePath(task.kind)
    ensures RoutePath(kind) == RoutePath(task.kind) <==> kind == task.kind
  {
  }

  /** `!!x`. */
  predicate Has(body: Json, key: string) {
    Truthy(Get(body, key))
  }

  /** `Array.isArray(m) && m.length !== 0`. */
  predicate NonEmptyArray(o: Option<Json>) {
    o.Some? && o.value.JArr? && |o.value.items| > 0
  }

  /** The required-field check of each route; `/api/tags` has none. */
  function Validate(kind: Kind, body: Json): (b: bool)
    ensures kind == List ==> b
    ensures b && kind != List ==> body.JObj?
  {
    match kind
    case Generate => Has(body, "model") && Has(body, "prompt")
    case Embedding => Has(body, "model") && Has(body, "prompt")
    case Chat => Has(body, "model") && NonEmptyArray(Get(body, "messages"))
    case Create => Has(body, "name") && Has(body, "modelfile")
    case Copy => Has(body, "source") && Has(body, "destination")
    case Pull => Has(body, "name")
    case Delete => Has(body, "name")
    case Show => Has(body, "name")
    case List => true
  }

  /** The fields each route requires to be truthy. */
  function RequiredFields(kind: Kind): seq<string> {
    match kind
    case Generate => ["model", "prompt"]
    case Embedding => ["model", "prompt"]
    case Chat => ["model"]
    case Create => ["name", "modelfile"]
    case Copy => ["source", "destination"]
    case Pull => ["name"]
    case Delete => ["name"]
    case Show => ["name"]
    case List => []
  }

  /**
   * A request passes its route's check iff every required field is truthy
   * and, for chat, `messages` is a non-empty array.
   */
  lemma ValidateIffRequiredFields(kind: Kind, body: Json)
    ensures Validate(kind, body) <==>
      (forall i :: 0 <= i < |RequiredFields(kind)| ==> Has(body, RequiredFields(kind)[i]))
      && (kind == Chat ==> NonEmptyArray(Get(body, "messages")))
  {
    var fs := RequiredFields(kind);
    if |fs| > 0 { assert Has(body, fs[0]) ==> fs[0] in fs; }
    if |fs| > 1 { assert Has(body, fs[1]) ==> fs[1] in fs; }
  }

  /** A route's reply; `NoReply` is a request whose handler never finishes. */
  datatype Reply = BadRequest | ServerError | Body(json: Json) | EventStream | NoReply

  /** The routes with a streaming branch: those whose facade method keeps the stream handle. */
  predicate HasStreamBranch(kind: Kind) {
    AdaptationOf(kind) == KeepStream
  }

  /** A streaming branch is taken only on `request.stream === true`. */
  predicate TakesStreamBranch(kind: Kind, body: Json) {
    HasStreamBranch(kind) && IsTrue(Get(body, "stream"))
  }

  /**
   * The reply of a validated request once its facade call has returned with
   * `r` (None: it has not): in the streaming branch, 500 without a stream
   * handle and the event stream otherwise; in the other branch, 500 on a falsy
   * response and the response as the body otherwise. An exception escaping
   * the facade (only `embedding` rethrows) reaches the error middleware, which
   * answers 500.
   */
  function Respond(kind: Kind, body: Json, r: Option<FacadeResult>): (reply: Reply)
    requires r.Some? ==> Fits(kind, r.value)
    ensures reply.NoReply? <==> r.None?
    ensures reply != BadRequest
    ensures reply.EventStream? ==> TakesStreamBranch(kind, body)
    ensures reply.Body? ==> !TakesStreamBranch(kind, body) && Truthy(Some(reply.json))
  {
    match r
    case None => NoReply
    case Some(fr) =>
      match fr
      case Raised(_) => ServerError
      case Plain(v) => if Truthy(Some(v)) then Body(v) else ServerError
      case Pair(response, stream) =>
        if TakesStreamBranch(kind, body) then
          if stream then EventStream else ServerError
        else if Truthy(Some(response)) then Body(response) else ServerError
  }

  /** What a route did synchronously: its immediate reply (400) or the task it submitted. */
  datatype Handling = Handling(queue: RequestQueue.Queue, submitted: Option<Task>, started: Option<Task>)

  /** A route up to its `await`: validate, then call the facade method once. */
  function Handle(q: RequestQueue.Queue, kind: Kind, body: Json): Handling {
    if !Validate(kind, body) then Handling(q, None, None)
    else
      var s := Submit(q, kind, body);
      Handling(s.queue, Some(s.task), s.started)
  }

  /**
   * A route answers 400 exactly when its check fails, and then submits nothing
   * and leaves the queue as it was; otherwise it submits one task of its kind.
   */
  lemma HandleSubmitsIffValid(q: RequestQueue.Queue, kind: Kind, body: Json)
    requires RequestQueue.Inv(q)
    ensures var h := Handle(q, kind, body);
      && (h.submitted.None? <==> !Validate(kind, body))
      && (h.submitted.None? ==> h.queue == q)
      && (h.submitted.Some? ==> h.submitted.value.kind == kind && RequestQueue.QueueLength(h.queue) + |RequestQueue.Started(h.started)| == RequestQueue.QueueLength(q) + 1)
      && RequestQueue.Inv(h.queue)
  {
    if Validate(kind, body) {
      SubmitOneTask(q, kind, body);
      RequestQueue.AddTaskStep(q, kind, RequestOf(kind, body));
      var s := Submit(q, kind, body);
      assert |RequestQueue.Started(s.started) + s.queue.pending| == |q.pending + [s.task]|;
    }
  }

  /**
   * The whole reply of a route to a request: 400 when the check fails;
   * otherwise the reply to the facade's result once the task's promise is in
   * state `slot`.
   */
  function Route(kind: Kind, body: Json, slot: Slot): (r: Reply)
    ensures r == BadRequest <==> !Validate(kind, body)
    ensures r == NoReply <==> Validate(kind, body) && slot == Pending
    ensures r == EventStream ==> TakesStreamBranch(kind, body)
  {
    if !Validate(kind, body) then BadRequest
    else
      var request := RequestOf(kind, body);
      Respond(kind, body, Await(kind, slot, Truthy(Get(request, "stream"))))
  }

  /**
   * The streaming branch never answers 500: a request with `stream === true`
   * has a truthy `stream`, so its task always carries a stream handle.
   */
  lemma StreamBranchNeverFails(kind: Kind, body: Json, slot: Slot)
    requires Validate(kind, body) && TakesStreamBranch(kind, body) && slot != Pending
    ensures Route(kind, body, slot) == EventStream
  {
  }

  /**
   * Outside the streaming branch the answer is 200 with the task's value when
   * that value is truthy, and 500 when the task failed or its value is falsy.
   */
  lemma PlainBranchAnswers(kind: Kind, body: Json, slot: Slot)
    requires Validate(kind, body) && !TakesStreamBranch(kind, body) && slot != Pending
    ensures var r := Route(kind, body, slot);
      && (slot.Fulfilled? && Truthy(Some(slot.value)) <==> r.Body?)
      && (r.Body? ==> r.json == slot.value)
      && (r.ServerError? <==> slot.Rejected? || !Truthy(Some(slot.value)))
  {
  }

  /** What the relay pushes to the HTTP response: a line of text, the end (`push(null)`), or `destroy(error)`. */
  datatype Pushed = Text(s: string) | Eof | Destroyed(e: Exn)

  function Framed(vs: seq<Json>): (r: seq<Pushed>)
    ensures |r| == |vs|
    ensures forall i :: 0 <= i < |vs| ==> r[i] == Text(Frame(vs[i]))
    decreases |vs|
  {
    if |vs| == 0 then [] else [Text(Frame(vs[0]))] + Framed(vs[1..])
  }

  /** The text of a relay's frames, concatenated. */
  function Written(frames: seq<Pushed>): string
    decreases |frames|
  {
    if |frames| == 0 then ""
    else (if frames[0].Text? then frames[0].s else "") + Written(frames[1..])
  }

  /**
   * The relay's `read()` called until it stops: each chunk read is pushed as
   * `JSON.stringify(value) + '\n'`; the end of the stream pushes `null`; a
   * failed read destroys the response. A read on an open, empty stream never
   * resolves, and the relay stalls there.
   */
  function Relay(c: Controller): (r: seq<Pushed>)
    ensures |r| <= |c.queue| + 1
    ensures forall i :: 0 <= i < |r| - 1 ==> r[i].Text?
    decreases |c.queue|
  {
    var rd := ReadOne(c);
    match rd.result
    case Chunk(v) => [Text(Frame(v))] + Relay(rd.c)
    case Finished => [Eof]
    case Failed(e) => [Destroyed(e)]
    case Waiting => []
  }

  /**
   * Relay framing: a closing or closed stream is relayed as one line per
   * queued chunk, in order, followed by exactly one end marker; an errored
   * stream is relayed as `destroy` alone, whatever had been queued; an open
   * stream is relayed up to its queued chunks and then stalls.
   */
  lemma {:induction false} RelayFrames(c: Controller)
    requires Valid(c)
    ensures c.state.Errored? ==> Relay(c) == [Destroyed(c.state.reason)]
    ensures !c.state.Errored? && c.closeRequested ==> Relay(c) == Framed(c.queue) + [Eof]
    ensures c.state == Readable && !c.closeRequested ==> Relay(c) == Framed(c.queue)
    decreases |c.queue|
  {
    var rd := ReadOne(c);
    if rd.result.Chunk? {
      RelayFrames(rd.c);
      assert Framed(c.queue) == [Text(Frame(c.queue[0]))] + Framed(c.queue[1..]);
    }
  }

  /** The end marker is pushed at most once, and nothing follows it. */
  lemma EofIsLast(c: Controller)
    requires Valid(c)
    ensures forall i :: 0 <= i < |Relay(c)| && Relay(c)[i] == Eof ==> i == |Relay(c)| - 1
  {
    RelayFrames(c);
  }

  /** The text written by relaying values is the newline-delimited JSON of those values. */
  lemma {:induction false} BodyOfFramed(vs: seq<Json>)
    ensures Written(Framed(vs) + [Eof]) == Ndjson(vs)
    decreases |vs|
  {
    if |vs| > 0 {
      BodyOfFramed(vs[1..]);
      assert (Framed(vs) + [Eof])[1..] == Framed(vs[1..]) + [Eof];
    } else {
      assert Framed(vs) + [Eof] == [Eof];
    }
  }

  /** A readable stream that is closing relays its values, in order, then the end; the text written is their newline-delimited JSON. */
  lemma ClosingRelay(vs: seq<Json>)
    requires |vs| > 0
    ensures Relay(Controller(Readable, true, vs)) == Framed(vs) + [Eof]
    ensures Written(Relay(Controller(Readable, true, vs))) == Ndjson(vs)
  {
    RelayFrames(Controller(Readable, true, vs));
    BodyOfFramed(vs);
  }

  /** A client splitting the relayed text into non-blank lines gets one serialised value per line, in order. */
  lemma RelayRoundTrip(c: Controller)
    requires Valid(c) && !c.state.Errored? && c.closeRequested
    ensures Lines(Written(Relay(c))) == Serialised(c.queue)
  {
    RelayFrames(c);
    BodyOfFramed(c.queue);
    LinesOfNdjson(c.queue);
  }

  /** `value.message` exists and is not null, so reading its `content` does not throw. */
  predicate HasMessage(v: Json) {
    var m := Get(v, "message");
    m.Some? && !m.value.JNull?
  }

  /** What `fullMessage += value.message.content` appends. */
  function ContentOf(v: Json): string
    requires HasMessage(v)
  {
    JsToString(Get(Get(v, "message").value, "content"))
  }

  /** The in-order concatenation of the chunks' contents. */
  function Contents(vs: seq<Json>): string
    requires forall i :: 0 <= i < |vs| ==> HasMessage(vs[i])
    decreases |vs|
  {
    if |vs| == 0 then "" else ContentOf(vs[0]) + Contents(vs[1..])
  }

  /** How the chat relay stopped: at the end of the stream with the accumulated message, by `destroy`, or stalled. */
  datatype ChatEnd = Ended(fullMessage: string) | Broke(e: Exn) | Stalled

  datatype ChatRun = ChatRun(frames: seq<Pushed>, end: ChatEnd)

  /**
   * The chat route's relay: before a chunk is pushed its `message.content` is
   * appended to `fullMessage`; a chunk without a message throws a TypeError,
   * which destroys the response before the chunk is pushed.
   */
  function ChatRelay(c: Controller, fullMessage: string): (r: ChatRun)
    ensures |r.frames| <= |c.queue| + 1
    ensures forall i :: 0 <= i < |r.frames| - 1 ==> r.frames[i].Text?
    ensures r.end.Ended? ==> fullMessage <= r.end.fullMessage && r.frames != [] && r.frames[|r.frames| - 1] == Eof
    ensures r.end.Broke? ==> r.frames != [] && r.frames[|r.frames| - 1] == Destroyed(r.end.e)
    decreases |c.queue|
  {
    var rd := ReadOne(c);
    match rd.result
    case Chunk(v) =>
      if !HasMessage(v) then ChatRun([Destroyed(TypeError)], Broke(TypeError))
      else
        var rest := ChatRelay(rd.c, fullMessage + ContentOf(v));
        ChatRun([Text(Frame(v))] + rest.frames, rest.end)
    case Finished => ChatRun([Eof], Ended(fullMessage))
    case Failed(e) => ChatRun([Destroyed(e)], Broke(e))
    case Waiting => ChatRun([], Stalled)
  }

  /**
   * Chat fold: relaying a closing stream whose chunks all carry a message
   * pushes the same frames as the plain relay, and at the end `fullMessage` is
   * what it started as followed by every chunk's content, in order.
   */
  lemma ChatRelayFolds(c: Controller, acc: string)
    requires Valid(c) && !c.state.Errored? && c.closeRequested
    requires forall i :: 0 <= i < |c.queue| ==> HasMessage(c.queue[i])
    ensures ChatRelay(c, acc) == ChatRun(Relay(c), Ended(acc + Contents(c.queue)))
  {
    ChatRelayFrames(c, acc);
    ChatRelayEnd(c, acc);
  }

  lemma {:induction false} ChatRelayFrames(c: Controller, acc: string)
    requires Valid(c) && !c.state.Errored? && c.closeRequested
    requires forall i :: 0 <= i < |c.queue| ==> HasMessage(c.queue[i])
    ensures ChatRelay(c, acc).frames == Relay(c)
    decreases |c.queue|
  {
    var rd := ReadOne(c);
    if rd.result.Chunk? {
      var v := c.queue[0];
      assert forall i :: 0 <= i < |rd.c.queue| ==> rd.c.queue[i] == c.queue[i + 1];
      ChatRelayFrames(rd.c, acc + ContentOf(v));
      ChatRelayChunk(c, acc);
    }
  }

  lemma {:induction false} ChatRelayEnd(c: Controller, acc: string)
    requires Valid(c) && !c.state.Errored? && c.closeRequested
    requires forall i :: 0 <= i < |c.queue| ==> HasMessage(c.queue[i])
    ensures ChatRelay(c, acc).end == Ended(acc + Contents(c.queue))
    decreases |c.queue|
  {
    var rd := ReadOne(c);
    if rd.result.Chunk? {
      var v := c.queue[0];
      assert rd.c.queue == c.queue[1..];
      ChatRelayEnd(rd.c, acc + ContentOf(v));
      ChatRelayChunk(c, acc);
      ContentsCons(c.queue, acc);
    } else {
      assert rd.result == Finished;
      assert c.queue == [] && Contents(c.queue) == "" && acc + "" == acc;
    }
  }

  /** The fold's accumulation over one more chunk. */
  lemma ContentsCons(vs: seq<Json>, acc: string)
    requires |vs| > 0 && forall i :: 0 <= i < |vs| ==> HasMessage(vs[i])
    ensures acc + ContentOf(vs[0]) + Contents(vs[1..]) == acc + Contents(vs)
  {
  }

  /** The frames of a non-empty prefix, first one split off. */
  lemma FramedCons(vs: seq<Json>, k: nat)
    requires 0 < k <= |vs|
    ensures Framed(vs[..k]) == [Text(Frame(vs[0]))] + Framed(vs[1..][..k - 1])
  {
    assert vs[..k] == [vs[0]] + vs[1..][..k - 1];
  }

  /** One step of both relays on a readable chunk that carries a message. */
  lemma ChatRelayChunk(c: Controller, acc: string)
    requires c.state == Readable && |c.queue| > 0 && HasMessage(c.queue[0])
    ensures var rd := ReadOne(c);
      var rest := ChatRelay(rd.c, acc + ContentOf(c.queue[0]));
      && ChatRelay(c, acc) == ChatRun([Text(Frame(c.queue[0]))] + rest.frames, rest.end)
      && Relay(c) == [Text(Frame(c.queue[0]))] + Relay(rd.c)
  {
  }

  /**
   * A chunk without a message, preceded only by chunks with one, ends the chat
   * relay with a TypeError: the earlier chunks are pushed and that one is not.
   */
  lemma {:induction false} ChatRelayBreaks(c: Controller, acc: string, k: nat)
    requires Valid(c) && !c.state.Errored?
    requires k < |c.queue| && !HasMessage(c.queue[k])
    requires forall i :: 0 <= i < k ==> HasMessage(c.queue[i])
    ensures ChatRelay(c, acc) == ChatRun(Framed(c.queue[..k]) + [Destroyed(TypeError)], Broke(TypeError))
    decreases |c.queue|
  {
    var rd := ReadOne(c);
    assert rd.result == Chunk(c.queue[0]);
    if k > 0 {
      var v := c.queue[0];
      assert rd.c.queue == c.queue[1..];
      ChatRelayBreaks(rd.c, acc + ContentOf(v), k - 1);
      ChatRelayChunk(c, acc);
      FramedCons(c.queue, k);
    } else {
      assert c.queue[..0] == [];
    }
  }

  /** A database write the chat route makes. */
  datatype Effect =
    | CreateConversation(userId: Json)
    | SaveMessage(model: Json, messages: Json, response: Json, userId: Json, conversationId: Json, flag: string)

  /**
   * The owner of a chat exchange: `userId || 1`, and `conversationId`, or a new
   * conversation's id (`newConversation`, as the database assigns it) when that is falsy.
   */
  datatype Attribution = Attribution(userId: Json, conversationId: Json, created: seq<Effect>)

  function Attribute(body: Json, newConversation: Json): Attribution {
    var userId := if Has(body, "userId") then Get(body, "userId").value else JNum(1);
    if Has(body, "conversationId") then Attribution(userId, Get(body, "conversationId").value, [])
    else Attribution(userId, newConversation, [CreateConversation(userId)])
  }

  /**
   * The chat route's record of an exchange: at most one new conversation,
   * created exactly when the request names none, followed by one saved message
   * whose user is the request's (1 when it gives none) and whose conversation
   * is the request's or the new one.
   */
  function Persist(body: Json, response: Json, newConversation: Json): (effects: seq<Effect>)
    ensures |effects| >= 1 && effects[|effects| - 1].SaveMessage?
    ensures var save := effects[|effects| - 1];
      && save.response == response && save.flag == "model"
      && (Has(body, "userId") ==> Some(save.userId) == Get(body, "userId"))
      && (!Has(body, "userId") ==> save.userId == JNum(1))
      && (Has(body, "conversationId") <==> |effects| == 1)
      && (Has(body, "conversationId") ==> Some(save.conversationId) == Get(body, "conversationId"))
      && (!Has(body, "conversationId") ==> save.conversationId == newConversation && effects[0] == CreateConversation(save.userId))
  {
    var a := Attribute(body, newConversation);
    var model := if Get(body, "model").Some? then Get(body, "model").value else JNull;
    var messages := if Get(body, "messages").Some? then Get(body, "messages").value else JNull;
    a.created + [SaveMessage(model, messages, response, a.userId, a.conversationId, "model")]
  }

  /** The chat route, streaming branch, after the reply: the frames pushed and the database writes made at the end. */
  datatype ChatStream = ChatStream(frames: seq<Pushed>, effects: seq<Effect>)

  function ChatStreamRelay(body: Json, c: Controller, newConversation: Json): ChatStream {
    var run := ChatRelay(c, "");
    match run.end
    case Ended(full) => ChatStream(run.frames, Persist(body, JStr(full), newConversation))
    case _ => ChatStream(run.frames, [])
  }

  /**
   * The streaming chat route saves, once the stream has been relayed to its
   * end, one message whose response is the concatenation of every relayed
   * chunk's content.
   */
  lemma ChatStreamSavesFullMessage(body: Json, c: Controller, newConversation: Json)
    requires Valid(c) && !c.state.Errored? && c.closeRequested
    requires forall i :: 0 <= i < |c.queue| ==> HasMessage(c.queue[i])
    ensures var r := ChatStreamRelay(body, c, newConversation);
      && r.frames == Framed(c.queue) + [Eof]
      && |r.effects| >= 1
      && r.effects[|r.effects| - 1].response == JStr(Contents(c.queue))
  {
    ChatRelayFolds(c, "");
    RelayFrames(c);
    assert "" + Contents(c.queue) == Contents(c.queue);
  }

  /** The non-streaming chat route: 200 and one saved exchange on a truthy response, no write otherwise. */
  function ChatPlain(body: Json, slot: Slot, newConversation: Json): (Reply, seq<Effect>)
    requires Validate(Chat, body) && !TakesStreamBranch(Chat, body)
  {
    var reply := Route(Chat, body, slot);
    if reply.Body? then (reply, Persist(body, reply.json, newConversation)) else (reply, [])
  }

  /** The non-streaming chat route writes to the database exactly when it answers 200, saving the answer. */
  lemma ChatPlainPersistsIffAnswered(body: Json, slot: Slot, newConversation: Json)
    requires Validate(Chat, body) && !TakesStreamBranch(Chat, body)
    ensures var (reply, effects) := ChatPlain(body, slot, newConversation);
      && (|effects| > 0 <==> reply.Body?)
      && (reply.Body? ==> slot == Fulfilled(reply.json) && effects[|effects| - 1].response == slot.value)
  {
    if slot != Pending {
      PlainBranchAnswers(Chat, body, slot);
    }
  }

  /** `GET /api/queue-status`: the queue's length, its processing count and its limit. */
  function QueueStatus(q: RequestQueue.Queue): (r: Json)
    ensures Get(r, "queueLength") == Some(JNum(RequestQueue.QueueLength(q)))
    ensures Get(r, "processing") == Some(JNum(RequestQueue.ProcessingCount(q)))
    ensures Get(r, "concurrency") == Some(JNum(q.concurrency))
  {
    var ms := [
      Member("queueLength", JNum(RequestQueue.QueueLength(q))),
      Member("processing", JNum(RequestQueue.ProcessingCount(q))),
      Member("concurrency", JNum(q.concurrency))];
    assert ms[..2][..1] == [ms[0]] && ms[..2][1] == ms[1];
    JObj(ms)
  }
}
