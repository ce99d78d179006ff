/**
 * The ReadableStream that carries a streaming task's chunks, seen through its
 * default controller (producer side) and a default reader (consumer side),
 * following the ReadableStreamDefaultController algorithms of the WHATWG
 * Streams Standard: `enqueue` and `close` throw a TypeError unless the
 * controller can still close or enqueue; `error` does nothing unless the
 * stream is still readable; a close requested while chunks are queued takes
 * effect when the reader has drained them.
 */
module StreamController {
  import opened Js

  datatype State = Readable | Closed | Errored(reason: Exn)

  /** A stream: its state, whether `close()` has been called, and the chunks not yet read. */
  datatype Controller = Controller(state: State, closeRequested: bool, queue: seq<Json>)

  /** The controller handed to the `start` callback of a new stream. */
  function Start(): Controller {
    Controller(Readable, false, [])
  }

  /**
   * What the stream's state implies about the others: a closed or errored
   * stream has nothing queued, and a readable stream whose close has been
   * requested still has chunks to deliver (otherwise it would be closed).
   */
  ghost predicate Valid(c: Controller) {
    && (c.state == Closed ==> c.closeRequested && c.queue == [])
    && (c.state.Errored? ==> c.queue == [])
    && (c.state == Readable && c.closeRequested ==> c.queue != [])
  }

  /** ReadableStreamDefaultControllerCanCloseOrEnqueue. */
  predicate CanCloseOrEnqueue(c: Controller) {
    !c.closeRequested && c.state == Readable
  }

  /** The result of a controller call that may throw. */
  datatype Call = Done(c: Controller) | Thrown(e: Exn)

  /** `controller.enqueue(v)`: appends to the queue, or throws a TypeError once closing or not readable. */
  function Enqueue(c: Controller, v: Json): (r: Call)
    ensures r.Done? <==> CanCloseOrEnqueue(c)
    ensures r.Thrown? ==> r.e == TypeError
    ensures r.Done? ==> r.c.queue == c.queue + [v] && CanCloseOrEnqueue(r.c)
    ensures Valid(c) && r.Done? ==> Valid(r.c)
  {
    if CanCloseOrEnqueue(c) then Done(c.(queue := c.queue + [v])) else Thrown(TypeError)
  }

  /**
   * `controller.close()`: requests the close, which takes effect at once when
   * nothing is queued; throws a TypeError once closing or not readable.
   */
  function Close(c: Controller): (r: Call)
    ensures r.Done? <==> CanCloseOrEnqueue(c)
    ensures r.Thrown? ==> r.e == TypeError
    ensures r.Done? ==> r.c.closeRequested && !CanCloseOrEnqueue(r.c) && r.c.queue == c.queue
    ensures r.Done? ==> (r.c.state == Closed <==> c.queue == []) && !r.c.state.Errored?
    ensures Valid(c) && r.Done? ==> Valid(r.c)
  {
    if !CanCloseOrEnqueue(c) then Thrown(TypeError)
    else if |c.queue| == 0 then Done(Controller(Closed, true, []))
    else Done(c.(closeRequested := true))
  }

  /**
   * `controller.error(e)`: a readable stream becomes errored and loses its
   * unread chunks, even when a close was already requested; a closed or
   * errored stream is left as it is.
   */
  function Error(c: Controller, e: Exn): (r: Controller)
    ensures c.state == Readable ==> r.state == Errored(e) && r.queue == []
    ensures c.state != Readable ==> r == c
    ensures Valid(c) ==> Valid(r)
    ensures r.state != Readable
  {
    if c.state == Readable then Controller(Errored(e), c.closeRequested, []) else c
  }

  /** What one `reader.read()` yields: a chunk, the end of the stream, the stored error, or nothing yet. */
  datatype ReadResult = Chunk(value: Json) | Finished | Failed(reason: Exn) | Waiting

  datatype Read = Read(result: ReadResult, c: Controller)

  /** One `reader.read()`: dequeues the oldest chunk; the close takes effect once the queue is drained. */
  function ReadOne(c: Controller): (r: Read)
    ensures Valid(c) ==> Valid(r.c)
    ensures r.result.Chunk? <==> c.state == Readable && |c.queue| > 0
    ensures r.result.Chunk? ==> r.result.value == c.queue[0] && r.c.queue == c.queue[1..]
    ensures r.result.Finished? <==> c.state == Closed
    ensures r.result.Waiting? <==> c.state == Readable && |c.queue| == 0
    ensures c.state.Errored? ==> r.result == Failed(c.state.reason)
    ensures !r.result.Chunk? ==> r.c == c
  {
    match c.state
    case Errored(e) => Read(Failed(e), c)
    case Closed => Read(Finished, c)
    case Readable =>
      if |c.queue| > 0 then
        var rest := c.queue[1..];
        var state := if c.closeRequested && |rest| == 0 then Closed else Readable;
        Read(Chunk(c.queue[0]), Controller(state, c.closeRequested, rest))
      else Read(Waiting, c)
  }

  /** A producer call or a consumer read on one stream. */
  datatype Op = Push(v: Json) | Shut | Fail(e: Exn) | Pull

  /**
   * A stream after some operations, with the chunks its producer managed to
   * enqueue and the chunks its consumer read, both in order.
   */
  datatype Log = Log(c: Controller, accepted: seq<Json>, delivered: seq<Json>)

  /** One operation; a throwing producer call leaves the stream as it was. */
  function StepOp(c: Controller, op: Op): (l: Log)
    ensures Valid(c) ==> Valid(l.c)
    ensures !l.c.state.Errored? ==> l.delivered + l.c.queue == c.queue + l.accepted
    ensures Valid(c) && l.c.state.Errored? ==> l.accepted == [] && l.delivered == [] && l.c.queue == []
    ensures !CanCloseOrEnqueue(c) ==> l.accepted == [] && !CanCloseOrEnqueue(l.c)
  {
    match op
    case Push(v) =>
      (match Enqueue(c, v)
       case Done(c1) => Log(c1, [v], [])
       case Thrown(_) => Log(c, [], []))
    case Shut =>
      (match Close(c)
       case Done(c1) => Log(c1, [], [])
       case Thrown(_) => Log(c, [], []))
    case Fail(e) => Log(Error(c, e), [], [])
    case Pull =>
      var rd := ReadOne(c);
      Log(rd.c, [], if rd.result.Chunk? then [rd.result.value] else [])
  }

  function Run(c: Controller, ops: seq<Op>): Log
    decreases |ops|
  {
    if |ops| == 0 then Log(c, [], [])
    else
      var first := StepOp(c, ops[0]);
      var rest := Run(first.c, ops[1..]);
      Log(rest.c, first.accepted + rest.accepted, first.delivered + rest.delivered)
  }

  /**
   * Stream ordering: the consumer reads a prefix of what was queued followed by
   * what the producer enqueued, in the same order; unless the stream errored,
   * what it read followed by what is still queued is exactly that sequence.
   * Once a close has been requested nothing more is accepted.
   */
  lemma {:induction false} RunPreservesOrder(c: Controller, ops: seq<Op>)
    requires Valid(c)
    ensures var l := Run(c, ops);
      && Valid(l.c)
      && l.delivered <= c.queue + l.accepted
      && (!l.c.state.Errored? ==> l.delivered + l.c.queue == c.queue + l.accepted)
      && (!CanCloseOrEnqueue(c) ==> l.accepted == [])
    decreases |ops|
  {
    if |ops| > 0 {
      var first := StepOp(c, ops[0]);
      var rest := Run(first.c, ops[1..]);
      RunPreservesOrder(first.c, ops[1..]);
      if first.c.state.Errored? {
        ErroredStaysErrored(first.c, ops[1..]);
      } else {
        ConcatStep(c.queue, first.accepted, first.delivered, first.c.queue,
                   rest.accepted, rest.delivered, rest.c.queue, !rest.c.state.Errored?);
      }
    }
  }

  /**
   * Two runs in sequence: when the first delivers, with what it leaves queued,
   * what was queued and what it accepted, and the second delivers a prefix of
   * that leftover and what it accepted, the two together deliver a prefix of
   * all that was queued and accepted, exactly so when the second one is exact.
   */
  lemma ConcatStep<T>(q: seq<T>, a1: seq<T>, d1: seq<T>, q1: seq<T>, a2: seq<T>, d2: seq<T>, q2: seq<T>, exact: bool)
    requires d1 + q1 == q + a1
    requires d2 <= q1 + a2
    requires exact ==> d2 + q2 == q1 + a2
    ensures d1 + d2 <= q + (a1 + a2)
    ensures exact ==> (d1 + d2) + q2 == q + (a1 + a2)
  {
    var rest := (q1 + a2)[|d2|..];
    assert q1 + a2 == d2 + rest;
    calc {
      q + (a1 + a2);
      (q + a1) + a2;
      (d1 + q1) + a2;
      d1 + (q1 + a2);
      d1 + (d2 + rest);
      (d1 + d2) + rest;
    }
    if exact {
      assert q2 == rest;
    }
  }

  /** An errored stream stays errored, accepts nothing and delivers nothing. */
  lemma {:induction false} ErroredStaysErrored(c: Controller, ops: seq<Op>)
    requires c.state.Errored? && c.queue == []
    ensures var l := Run(c, ops); l.c == c && l.accepted == [] && l.delivered == []
    decreases |ops|
  {
    if |ops| > 0 {
      match ops[0] {
        case Push(v) => assert !CanCloseOrEnqueue(c);
        case Shut => assert !CanCloseOrEnqueue(c);
        case Fail(e) => assert Error(c, e) == c;
        case Pull => assert ReadOne(c).c == c;
      }
      assert StepOp(c, ops[0]) == Log(c, [], []);
      ErroredStaysErrored(c, ops[1..]);
    }
  }
}
