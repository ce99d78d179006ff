/**
 * A request followed from its route through the queue, the dispatcher, the
 * facade and back to the route's reply and relay.
 */
module Pipeline {
  import opened Text
  import opened Js
  import opened Tasks
  import opened StreamController
  import RequestQueue
  import opened Dispatcher
  import opened Facade
  import opened Routes

  /** The task a route submits for a validated body, as the queue builds it. */
  function TaskFor(id: Id, kind: Kind, body: Json): (t: Task)
    ensures t.hasStream == Truthy(Get(t.request, "stream"))
  {
    var request := RequestOf(kind, body);
    Task(id, kind, request, Truthy(Get(request, "stream")))
  }

  /** The task `Submit` creates is `TaskFor` with the next id. */
  lemma SubmitBuildsTaskFor(q: RequestQueue.Queue, kind: Kind, body: Json)
    ensures Submit(q, kind, body).task == TaskFor(q.nextId, kind, body)
  {
  }

  /**
   * A streaming task's `processTask` returns while its promise is still
   * pending, and the queue frees its processing slot right then: a task that
   * starts at submission leaves `processing` as it was once `processTask`
   * returns, although its stream has not yet ended.
   */
  lemma SlotFreedBeforeStreamEnds(q: RequestQueue.Queue, kind: Kind, body: Json, events: seq<TransportEvent>, parse: Parser, policy: Policy)
    requires RequestQueue.Inv(q)
    requires kind != List && Truthy(Get(body, "stream"))
    requires |q.pending| == 0 && |q.processing| < q.concurrency
    ensures var s := Submit(q, kind, body);
      var d := ProcessTask(s.task, Streamed(events), parse, policy);
      && s.started == Some(s.task)
      && d.atReturn == Pending
      && RequestQueue.Complete(s.queue, s.task.id, d.outcome).queue.processing == q.processing
  {
    SubmitOneTask(q, kind, body);
    var s := Submit(q, kind, body);
    RequestQueue.AddTaskStep(q, kind, RequestOf(kind, body));
    assert s.queue.pending == [];
    assert s.started == Some(s.task) by {
      assert RequestQueue.Started(s.started) + s.queue.pending == [s.task];
    }
    RequestQueue.CompleteStep(s.queue, s.task.id, Returned);
  }

  /**
   * The routes test `stream === true` while the queue and the dispatcher test
   * truthiness: a body whose `stream` is truthy but not `true` is streamed
   * upstream, yet answered by the non-streaming branch. Corrected, whatever
   * the upstream sends before it ends, the client gets 200 with
   * `{success: true}` instead of the model's output.
   */
  lemma StreamFlagMismatch(kind: Kind, body: Json, datas: seq<TransportEvent>, parse: Parser)
    requires HasStreamBranch(kind) && Validate(kind, body)
    requires Truthy(Get(body, "stream")) && !IsTrue(Get(body, "stream"))
    requires forall i :: 0 <= i < |datas| ==> datas[i].Data?
    ensures var t := TaskFor(0, kind, body);
      var d := ProcessTask(t, Streamed(datas + [End]), parse, Corrected);
      && t.hasStream
      && !TakesStreamBranch(kind, body)
      && Route(kind, body, d.final.slot) == Routes.Body(SuccessAck())
  {
    var f := RunEvents(Live(Start(), Pending, None), datas + [End], parse, Corrected);
    var t := TaskFor(0, kind, body);
    assert t.hasStream;
    assert ProcessTask(t, Streamed(datas + [End]), parse, Corrected).final == f;
    CorrectedStreamAlwaysSettles(datas, parse);
    MismatchReply(kind, body, f.slot);
  }

  /**
   * As written, the same mismatch: when the data left the stream open, the
   * client gets 200 with `{success: true}`; when a `done` line already closed
   * it, transport end's `close()` throws and the request is never answered.
   */
  lemma StreamFlagMismatchAsWritten(kind: Kind, body: Json, datas: seq<TransportEvent>, parse: Parser)
    requires HasStreamBranch(kind) && Validate(kind, body)
    requires Truthy(Get(body, "stream")) && !IsTrue(Get(body, "stream"))
    requires forall i :: 0 <= i < |datas| ==> datas[i].Data?
    ensures var t := TaskFor(0, kind, body);
      var before := RunEvents(Live(Start(), Pending, None), datas, parse, AsWritten);
      var d := ProcessTask(t, Streamed(datas + [End]), parse, AsWritten);
      && t.hasStream
      && !TakesStreamBranch(kind, body)
      && (CanCloseOrEnqueue(before.c) ==> Route(kind, body, d.final.slot) == Routes.Body(SuccessAck()))
      && (!CanCloseOrEnqueue(before.c) ==> Route(kind, body, d.final.slot) == NoReply)
  {
    var s := Live(Start(), Pending, None);
    var before := RunEvents(s, datas, parse, AsWritten);
    var f := RunEvents(s, datas + [End], parse, AsWritten);
    var t := TaskFor(0, kind, body);
    assert t.hasStream;
    assert ProcessTask(t, Streamed(datas + [End]), parse, AsWritten).final == f;
    AsWrittenEndSettlesIffOpen(s, datas, parse);
    MismatchReply(kind, body, f.slot);
  }

  /** The reply to a request with a truthy `stream` that is not `true`, once its promise is pending or resolved with `{success: true}`. */
  lemma MismatchReply(kind: Kind, body: Json, slot: Slot)
    requires HasStreamBranch(kind) && Validate(kind, body)
    requires Truthy(Get(body, "stream")) && !IsTrue(Get(body, "stream"))
    ensures slot == Fulfilled(SuccessAck()) ==> Route(kind, body, slot) == Routes.Body(SuccessAck())
    ensures slot == Pending ==> Route(kind, body, slot) == NoReply
  {
    if slot == Fulfilled(SuccessAck()) {
      PlainBranchAnswers(kind, body, slot);
    }
  }

  /**
   * A request taking the streaming branch: its stream and promise are those the
   * transport events leave, and the route answers with the event stream once
   * the promise has settled and never while it is pending.
   */
  lemma StreamedRoute(kind: Kind, body: Json, events: seq<TransportEvent>, parse: Parser, policy: Policy)
    requires HasStreamBranch(kind) && Validate(kind, body) && IsTrue(Get(body, "stream"))
    ensures var d := ProcessTask(TaskFor(0, kind, body), Streamed(events), parse, policy);
      && d.final == RunEvents(Live(Start(), Pending, None), events, parse, policy)
      && (d.final.slot != Pending ==> Route(kind, body, d.final.slot) == EventStream)
      && (d.final.slot == Pending ==> Route(kind, body, d.final.slot) == NoReply)
  {
    var f := RunEvents(Live(Start(), Pending, None), events, parse, policy);
    if f.slot != Pending {
      StreamBranchNeverFails(kind, body, f.slot);
    }
  }

  /** Upstream newline-delimited JSON whose values parse back and whose last value, only, is `done`. */
  predicate Canonical(vs: seq<Json>, parse: Parser) {
    && |vs| > 0 && IsDone(vs[|vs| - 1])
    && (forall i :: 0 <= i < |vs| ==> parse(Stringify(vs[i])) == Some(vs[i]))
    && (forall i :: 0 <= i < |vs| - 1 ==> !IsDone(vs[i]))
  }

  /**
   * Corrected, a streamed request whose upstream sends canonical
   * newline-delimited JSON and ends is answered with an event stream that
   * relays, in order, every value up to the first `null` (all of them when
   * there is none) and then ends; without a `null`, the text written is
   * exactly the text the upstream sent.
   */
  lemma CorrectedStreamPipeline(kind: Kind, body: Json, vs: seq<Json>, parse: Parser)
    requires HasStreamBranch(kind) && Validate(kind, body) && IsTrue(Get(body, "stream"))
    requires Canonical(vs, parse)
    ensures var d := ProcessTask(TaskFor(0, kind, body), Streamed([Data(Ndjson(vs)), End]), parse, Corrected);
      && Route(kind, body, d.final.slot) == EventStream
      && Relay(d.final.c) == Framed(Delivered(vs)) + [Eof]
      && Written(Relay(d.final.c)) == Ndjson(Delivered(vs))
      && (FirstNull(vs) == |vs| ==> Written(Relay(d.final.c)) == Ndjson(vs))
  {
    StreamedRoute(kind, body, [Data(Ndjson(vs)), End], parse, Corrected);
    NdjsonAnswer(vs, parse, Corrected);
    ClosingRelay(Delivered(vs));
  }

  /**
   * As written, the same request is never answered when no value is `null`:
   * the `done` line closes the stream, transport end's `close()` throws, the
   * promise stays pending and the route waits on it for ever. A `null` value
   * makes the chunk's loop throw before the `done` line, so transport end
   * closes the stream and the route relays the values up to that `null`.
   */
  lemma AsWrittenStreamPipeline(kind: Kind, body: Json, vs: seq<Json>, parse: Parser)
    requires HasStreamBranch(kind) && Validate(kind, body) && IsTrue(Get(body, "stream"))
    requires Canonical(vs, parse)
    ensures var d := ProcessTask(TaskFor(0, kind, body), Streamed([Data(Ndjson(vs)), End]), parse, AsWritten);
      && (Route(kind, body, d.final.slot) == NoReply <==> FirstNull(vs) == |vs|)
      && (FirstNull(vs) == |vs| ==> d.final.uncaught == Some(TypeError))
      && (FirstNull(vs) < |vs| ==>
            Route(kind, body, d.final.slot) == EventStream && Relay(d.final.c) == Framed(Delivered(vs)) + [Eof])
  {
    StreamedRoute(kind, body, [Data(Ndjson(vs)), End], parse, AsWritten);
    NdjsonAnswer(vs, parse, AsWritten);
    if FirstNull(vs) < |vs| {
      ClosingRelay(Delivered(vs));
    }
  }

  /**
   * A transport error after some chunks: the route answers with an event
   * stream, but since it only starts reading once the promise has settled, and
   * erroring the stream discards what was queued, the client receives no
   * chunk at all, only the destroyed response.
   */
  lemma ErrorMidStreamRelaysNothing(kind: Kind, body: Json, datas: seq<TransportEvent>, e: Exn, parse: Parser, policy: Policy)
    requires HasStreamBranch(kind) && Validate(kind, body) && IsTrue(Get(body, "stream"))
    requires forall i :: 0 <= i < |datas| ==> datas[i].Data?
    ensures var d := ProcessTask(TaskFor(0, kind, body), Streamed(datas + [Failure(e)]), parse, policy);
      && Route(kind, body, d.final.slot) == EventStream
      && Relay(d.final.c) == [Destroyed(e)]
  {
    var s := Live(Start(), Pending, None);
    DataKeepsState(s, datas, parse, policy);
    TransportErrorSettles(s, datas, e, parse, policy);
    RunEventsAppend(s, datas, [Failure(e)], parse, policy);
    var f := RunEvents(s, datas + [Failure(e)], parse, policy);
    assert Valid(f.c);
    RelayFrames(f.c);
  }

  /**
   * As written, a streamed request that fails upstream is answered with an
   * event stream that never delivers anything and never ends: the task was
   * rejected, but its stream was left open.
   */
  lemma AsWrittenSetupFailureStalls(kind: Kind, body: Json, e: Exn, parse: Parser)
    requires HasStreamBranch(kind) && Validate(kind, body) && IsTrue(Get(body, "stream"))
    ensures var d := ProcessTask(TaskFor(0, kind, body), Refused(e), parse, AsWritten);
      && Route(kind, body, d.final.slot) == EventStream
      && Relay(d.final.c) == []
  {
  }

  /** Corrected, the same failure reaches the client as a destroyed response carrying the error. */
  lemma CorrectedSetupFailureDestroys(kind: Kind, body: Json, e: Exn, parse: Parser)
    requires HasStreamBranch(kind) && Validate(kind, body) && IsTrue(Get(body, "stream"))
    ensures var d := ProcessTask(TaskFor(0, kind, body), Refused(e), parse, Corrected);
      && Route(kind, body, d.final.slot) == EventStream
      && Relay(d.final.c) == [Destroyed(e)]
  {
  }

  /**
   * A rethrown embedding failure becomes a 500 from the error middleware; the
   * other non-streaming routes turn the `null` their method returns into a 500
   * of their own.
   */
  lemma RefusedNonStreamIs500(kind: Kind, body: Json, e: Exn, parse: Parser, policy: Policy)
    requires Validate(kind, body) && !TakesStreamBranch(kind, body)
    requires !Truthy(Get(RequestOf(kind, body), "stream"))
    ensures var d := ProcessTask(TaskFor(0, kind, body), Refused(e), parse, policy);
      Route(kind, body, d.final.slot) == ServerError
  {
  }
}
