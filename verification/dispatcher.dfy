/**
 * `OllamaService.processTask`, the dispatcher the queue invokes on every
 * admitted task. A task whose `request.stream` is truthy gets a streamed
 * upstream exchange: each received chunk is split into lines, each non-blank
 * line is parsed and enqueued on the task's stream, a line with a truthy
 * `done` closes the stream, transport end closes the stream and resolves the
 * task, and a transport error errors the stream and rejects the task. Any other
 * task gets one request/response exchange.
 *
 * The upstream HTTP exchange is a parameter (`Exchange`), and so is
 * `JSON.parse` (`Parser`).
 */
module Dispatcher {
  import opened Text
  import opened Js
  import opened Tasks
  import opened StreamController

  /** `JSON.parse` of one line: the document, or None when it throws a SyntaxError. */
  type Parser = string -> Option<Json>

  /** A decoded line that ends the upstream's answer: its `done` is truthy. */
  predicate IsDone(v: Json) {
    Truthy(Get(v, "done"))
  }

  /** The HTTP call made upstream for a task. */
  datatype Method = HttpGet | HttpPost | HttpDelete
  datatype Call = Call(verb: Method, path: string, body: Json, streamed: bool)

  /**
   * The upstream call as written: every task, whatever its kind, is POSTed to
   * `/api/generate`; only `request.stream` picks the response type.
   */
  function UpstreamCall(task: Task): (r: Call)
    ensures r.verb == HttpPost && r.path == "/api/generate"
    ensures r.body == task.request && (r.streamed <==> Truthy(Get(task.request, "stream")))
  {
    Call(HttpPost, "/api/generate", task.request, Truthy(Get(task.request, "stream")))
  }

  /** The upstream endpoint serving each kind of operation. */
  function EndpointOf(kind: Kind): (Method, string) {
    match kind
    case Generate => (HttpPost, "/api/generate")
    case Chat => (HttpPost, "/api/chat")
    case Embedding => (HttpPost, "/api/embeddings")
    case List => (HttpGet, "/api/tags")
    case Create => (HttpPost, "/api/create")
    case Pull => (HttpPost, "/api/pull")
    case Copy => (HttpPost, "/api/copy")
    case Delete => (HttpDelete, "/api/delete")
    case Show => (HttpPost, "/api/show")
  }

  /** The upstream call with the endpoint chosen by the task's kind. */
  function CorrectedCall(task: Task): (r: Call)
    ensures (r.verb, r.path) == EndpointOf(task.kind)
    ensures r.body == task.request && (r.streamed <==> Truthy(Get(task.request, "stream")))
    ensures task.kind == Generate <==> r == UpstreamCall(task)
  {
    var (m, p) := EndpointOf(task.kind);
    Call(m, p, task.request, Truthy(Get(task.request, "stream")))
  }

  /** Tasks of different kinds go to different endpoints under the corrected call. */
  lemma CorrectedCallsAreDistinct(a: Task, b: Task)
    requires a.kind != b.kind
    ensures CorrectedCall(a) != CorrectedCall(b)
  {
  }

  /** As written, a task of any kind other than `generate` reaches the generate endpoint. */
  lemma AsWrittenCallIgnoresKind(task: Task)
    requires task.kind != Generate
    ensures UpstreamCall(task).path == "/api/generate"
    ensures (UpstreamCall(task).verb, UpstreamCall(task).path) != EndpointOf(task.kind)
  {
  }

  /** The stream after one chunk, the values it enqueued, and the exception that ended the loop, if any. */
  datatype Decoded = Decoded(c: Controller, values: seq<Json>, fault: Option<Exn>)

  /**
   * The body of the `for` loop over a chunk's lines inside its `try`: each line
   * is parsed and enqueued, and a `done` line closes the stream. The first
   * exception abandons the rest of the lines: a parse error, an `enqueue` on a
   * stream already closing, or the read of `data.done` when the line parsed to
   * `null` (which happens after that `null` was enqueued). Lines are handled
   * strictly in order, so the values enqueued are those of a prefix of the
   * lines.
   */
  function DecodeLines(c: Controller, lines: seq<string>, parse: Parser): (r: Decoded)
    ensures |r.values| <= |lines|
    ensures r.fault.None? ==> |r.values| == |lines|
    ensures |r.values| < |lines| ==> r.fault.Some?
    ensures r.c.queue == c.queue + r.values && r.c.state == c.state
    decreases |lines|
  {
    if |lines| == 0 then Decoded(c, [], None)
    else
      match parse(lines[0])
      case None => Decoded(c, [], Some(SyntaxError))
      case Some(data) =>
        match Enqueue(c, data)
        case Thrown(e) => Decoded(c, [], Some(e))
        case Done(c1) =>
          if data.JNull? then Decoded(c1, [data], Some(TypeError))
          else
            var c2 := if IsDone(data) then Close(c1).c else c1;
            var rest := DecodeLines(c2, lines[1..], parse);
            assert c.queue + ([data] + rest.values) == c2.queue + rest.values;
            Decoded(rest.c, [data] + rest.values, rest.fault)
  }

  /**
   * What a chunk's decoding does: the values enqueued are the parses of a
   * prefix of the lines, in order; only the last of them can be `done` or
   * `null`, and the stream is closing afterwards iff it was before or that last
   * value is `done`. The loop handles every line without an exception iff no
   * value is `null`; it stops early only at a line that does not parse
   * (SyntaxError), at a value that cannot be enqueued because the stream is
   * closing (TypeError), or right after enqueueing `null` (TypeError), keeping
   * the values already enqueued.
   */
  lemma DecodeLinesSpec(c: Controller, lines: seq<string>, parse: Parser)
    ensures var r := DecodeLines(c, lines, parse);
      && (Valid(c) ==> Valid(r.c))
      && (forall i :: 0 <= i < |r.values| ==> parse(lines[i]) == Some(r.values[i]))
      && (|r.values| > 0 ==> CanCloseOrEnqueue(c))
      && (forall i :: 0 <= i < |r.values| - 1 ==> !IsDone(r.values[i]) && !r.values[i].JNull?)
      && (r.c.closeRequested <==> c.closeRequested || (|r.values| > 0 && IsDone(r.values[|r.values| - 1])))
      && (r.fault.None? <==> |r.values| == |lines| && (r.values == [] || !r.values[|r.values| - 1].JNull?))
      && (r.fault.Some? ==>
            || (|r.values| < |lines| && parse(lines[|r.values|]).None? && r.fault == Some(SyntaxError))
            || (|r.values| < |lines| && parse(lines[|r.values|]).Some? && !CanCloseOrEnqueue(r.c) && r.fault == Some(TypeError))
            || (|r.values| > 0 && r.values[|r.values| - 1] == JNull && r.fault == Some(TypeError)))
  {
    DecodeLinesShape(c, lines, parse);
    DecodeLinesFault(c, lines, parse);
  }

  /** The values and the closing part of `DecodeLinesSpec`. */
  lemma {:induction false} DecodeLinesShape(c: Controller, lines: seq<string>, parse: Parser)
    ensures var r := DecodeLines(c, lines, parse);
      && (Valid(c) ==> Valid(r.c))
      && (forall i :: 0 <= i < |r.values| ==> parse(lines[i]) == Some(r.values[i]))
      && (|r.values| > 0 ==> CanCloseOrEnqueue(c))
      && (forall i :: 0 <= i < |r.values| - 1 ==> !IsDone(r.values[i]) && !r.values[i].JNull?)
      && (r.c.closeRequested <==> c.closeRequested || (|r.values| > 0 && IsDone(r.values[|r.values| - 1])))
    decreases |lines|
  {
    if |lines| > 0 {
      match parse(lines[0]) {
        case None =>
        case Some(data) =>
          match Enqueue(c, data) {
            case Thrown(e) =>
            case Done(c1) =>
              if !data.JNull? {
                var c2 := if IsDone(data) then Close(c1).c else c1;
                DecodeLinesShape(c2, lines[1..], parse);
                var rest := DecodeLines(c2, lines[1..], parse);
                var r := DecodeLines(c, lines, parse);
                assert r.values == [data] + rest.values;
                assert r.c == rest.c;
                if IsDone(data) {
                  assert !CanCloseOrEnqueue(c2);
                  assert rest.values == [];
                }
                forall i | 0 <= i < |r.values| ensures parse(lines[i]) == Some(r.values[i]) {
                  if i > 0 { assert lines[i] == lines[1..][i - 1]; }
                }
              }
          }
      }
    }
  }

  /** The fault part of `DecodeLinesSpec`. */
  lemma {:induction false} DecodeLinesFault(c: Controller, lines: seq<string>, parse: Parser)
    ensures var r := DecodeLines(c, lines, parse);
      && (r.fault.None? <==> |r.values| == |lines| && (r.values == [] || !r.values[|r.values| - 1].JNull?))
      && (r.fault.Some? ==>
            || (|r.values| < |lines| && parse(lines[|r.values|]).None? && r.fault == Some(SyntaxError))
            || (|r.values| < |lines| && parse(lines[|r.values|]).Some? && !CanCloseOrEnqueue(r.c) && r.fault == Some(TypeError))
            || (|r.values| > 0 && r.values[|r.values| - 1] == JNull && r.fault == Some(TypeError)))
    decreases |lines|
  {
    if |lines| > 0 {
      match parse(lines[0]) {
        case None =>
        case Some(data) =>
          match Enqueue(c, data) {
            case Thrown(e) =>
            case Done(c1) =>
              if !data.JNull? {
                var c2 := if IsDone(data) then Close(c1).c else c1;
                DecodeLinesFault(c2, lines[1..], parse);
                var rest := DecodeLines(c2, lines[1..], parse);
                var r := DecodeLines(c, lines, parse);
                assert r.values == [data] + rest.values;
                assert r.c == rest.c && r.fault == rest.fault;
                if |rest.values| > 0 {
                  assert r.values[|r.values| - 1] == rest.values[|rest.values| - 1];
                }
                if r.fault.Some? && |r.values| < |lines| {
                  assert lines[|r.values|] == lines[1..][|rest.values|];
                }
              }
          }
      }
    }
  }

  /** The `data` listener: the chunk's non-blank lines are decoded; its exceptions are caught and logged. */
  function OnData(c: Controller, text: string, parse: Parser): (r: Decoded)
    ensures r.c.state == c.state && r.c.queue == c.queue + r.values
    ensures |r.values| <= |Lines(text)|
    ensures r.fault.None? ==> |r.values| == |Lines(text)|
  {
    DecodeLines(c, Lines(text), parse)
  }

  /** The index of the first `null` among some values, or their count when there is none. */
  function FirstNull(vs: seq<Json>): (k: nat)
    ensures k <= |vs|
    ensures forall i :: 0 <= i < k ==> !vs[i].JNull?
    ensures k < |vs| ==> vs[k].JNull?
    decreases |vs|
  {
    if |vs| == 0 then 0 else if vs[0].JNull? then 0 else 1 + FirstNull(vs[1..])
  }

  /** The values a chunk of them gets onto the stream: all of them, or those up to and including the first `null`. */
  function Delivered(vs: seq<Json>): (r: seq<Json>)
    ensures r <= vs
    ensures forall i :: 0 <= i < |r| - 1 ==> !r[i].JNull?
    ensures r == vs || (|r| > 0 && r[|r| - 1].JNull?)
  {
    if FirstNull(vs) < |vs| then vs[..FirstNull(vs) + 1] else vs
  }

  /** Delivery past a first value that is not `null`. */
  lemma DeliveredCons(vs: seq<Json>)
    requires |vs| > 0 && !vs[0].JNull?
    ensures FirstNull(vs) == 1 + FirstNull(vs[1..])
    ensures Delivered(vs) == [vs[0]] + Delivered(vs[1..])
  {
    var tail := vs[1..];
    var k := FirstNull(tail);
    assert FirstNull(vs) == 1 + k;
    if k < |tail| {
      assert Delivered(tail) == tail[..k + 1];
      assert Delivered(vs) == vs[..k + 2];
      assert vs[..k + 2] == [vs[0]] + tail[..k + 1];
    } else {
      assert Delivered(vs) == vs;
      assert vs == [vs[0]] + tail;
    }
  }

  /**
   * Chunk decoding round trip: a chunk that is newline-delimited JSON of some
   * values, none but possibly the last of them `done`, enqueues exactly those
   * values in order and closes the stream iff the last is `done`; when one of
   * them is `null`, reading its `done` throws, and the values after it are
   * dropped.
   */
  lemma DecodeNdjson(c: Controller, vs: seq<Json>, parse: Parser)
    requires CanCloseOrEnqueue(c)
    requires forall i :: 0 <= i < |vs| ==> parse(Stringify(vs[i])) == Some(vs[i])
    requires forall i :: 0 <= i < |vs| - 1 ==> !IsDone(vs[i])
    ensures var r := OnData(c, Ndjson(vs), parse);
      && r.values == Delivered(vs)
      && (r.fault == None <==> FirstNull(vs) == |vs|)
      && (r.fault != None ==> r.fault == Some(TypeError))
      && r.c.queue == c.queue + Delivered(vs)
      && r.c.state == c.state
      && (r.c.closeRequested <==> FirstNull(vs) == |vs| && |vs| > 0 && IsDone(vs[|vs| - 1]))
  {
    LinesOfNdjson(vs);
    DecodeParsedLines(c, Serialised(vs), vs, parse);
  }

  /** `DecodeNdjson` for lines that are already known to parse to the given values. */
  lemma {:induction false} DecodeParsedLines(c: Controller, lines: seq<string>, vs: seq<Json>, parse: Parser)
    requires CanCloseOrEnqueue(c)
    requires |lines| == |vs|
    requires forall i :: 0 <= i < |vs| ==> parse(lines[i]) == Some(vs[i])
    requires forall i :: 0 <= i < |vs| - 1 ==> !IsDone(vs[i])
    ensures var r := DecodeLines(c, lines, parse);
      && r.values == Delivered(vs)
      && r.fault == (if FirstNull(vs) < |vs| then Some(TypeError) else None)
      && (r.c.closeRequested <==> FirstNull(vs) == |vs| && |vs| > 0 && IsDone(vs[|vs| - 1]))
    decreases |lines|
  {
    if |lines| > 0 {
      assert parse(lines[0]) == Some(vs[0]);
      var c1 := Enqueue(c, vs[0]).c;
      if vs[0].JNull? {
        assert FirstNull(vs) == 0;
        assert Delivered(vs) == [vs[0]];
      } else {
        var c2 := if IsDone(vs[0]) then Close(c1).c else c1;
        DeliveredCons(vs);
        if |lines| > 1 {
          assert !IsDone(vs[0]);
          assert c2 == c1;
          forall i | 0 <= i < |vs[1..]| ensures parse(lines[1..][i]) == Some(vs[1..][i]) {
            assert lines[1..][i] == lines[i + 1];
          }
          DecodeParsedLines(c2, lines[1..], vs[1..], parse);
        } else {
          assert vs == [vs[0]];
        }
      }
    }
  }

  /** The part of a streaming task that outlives `processTask`: its stream, its promise, and an exception that escaped a listener, if any. */
  datatype Live = Live(c: Controller, slot: Slot, uncaught: Option<Exn>)

  /**
   * Which handling of transport end and of a failed stream setup is meant:
   * the one written in the source, or the corrected one (close only a stream
   * that can still be closed; error the stream when the setup fails).
   */
  datatype Policy = AsWritten | Corrected

  /** What the upstream's response stream emits after `processTask` attached its listeners. */
  datatype TransportEvent = Data(text: string) | End | Failure(e: Exn)

  /**
   * The `end` listener: close the stream, then `resolve({success: true})`. As
   * written, `close()` on a stream already closing throws a TypeError out of the
   * listener before `resolve` runs.
   */
  function OnEnd(s: Live, policy: Policy): (r: Live)
    ensures policy == Corrected || CanCloseOrEnqueue(s.c) ==>
      && r.slot == Resolve(s.slot, SuccessAck()) && r.uncaught == s.uncaught
      && !CanCloseOrEnqueue(r.c) && r.c.queue == s.c.queue
    ensures policy == AsWritten && !CanCloseOrEnqueue(s.c) ==> r == s.(uncaught := Some(TypeError))
    ensures Valid(s.c) ==> Valid(r.c)
  {
    match policy
    case AsWritten =>
      (match Close(s.c)
       case Done(c1) => Live(c1, Resolve(s.slot, SuccessAck()), s.uncaught)
       case Thrown(e) => s.(uncaught := Some(e)))
    case Corrected =>
      var c1 := if CanCloseOrEnqueue(s.c) then Close(s.c).c else s.c;
      Live(c1, Resolve(s.slot, SuccessAck()), s.uncaught)
  }

  /** The `error` listener: error the stream, then `reject(err)`. */
  function OnError(s: Live, e: Exn): (r: Live)
    ensures s.slot.Pending? ==> r.slot == Rejected(e)
    ensures !s.slot.Pending? ==> r.slot == s.slot
    ensures r.c.state != Readable && r.uncaught == s.uncaught
    ensures s.c.state == Readable ==> r.c.state == Errored(e) && r.c.queue == []
    ensures s.c.state != Readable ==> r.c == s.c
  {
    Live(Error(s.c, e), Reject(s.slot, e), s.uncaught)
  }

  function OnEvent(s: Live, ev: TransportEvent, parse: Parser, policy: Policy): Live {
    match ev
    case Data(text) => s.(c := OnData(s.c, text, parse).c)
    case End => OnEnd(s, policy)
    case Failure(e) => OnError(s, e)
  }

  function RunEvents(s: Live, events: seq<TransportEvent>, parse: Parser, policy: Policy): Live
    decreases |events|
  {
    if |events| == 0 then s else RunEvents(OnEvent(s, events[0], parse, policy), events[1..], parse, policy)
  }

  lemma {:induction false} RunEventsAppend(s: Live, a: seq<TransportEvent>, b: seq<TransportEvent>, parse: Parser, policy: Policy)
    ensures RunEvents(s, a + b, parse, policy) == RunEvents(RunEvents(s, a, parse, policy), b, parse, policy)
    decreases |a|
  {
    if |a| > 0 {
      assert (a + b)[0] == a[0];
      assert (a + b)[1..] == a[1..] + b;
      RunEventsAppend(OnEvent(s, a[0], parse, policy), a[1..], b, parse, policy);
    } else {
      assert a + b == b;
    }
  }

  /**
   * Single settlement: a promise is settled only by transport end or error,
   * and once settled it never changes, whatever events follow.
   */
  lemma {:induction false} SettledStaysSettled(s: Live, events: seq<TransportEvent>, parse: Parser, policy: Policy)
    ensures var f := RunEvents(s, events, parse, policy);
      && (s.slot != Pending ==> f.slot == s.slot)
      && ((forall i :: 0 <= i < |events| ==> events[i].Data?) ==> f.slot == s.slot && f.uncaught == s.uncaught)
      && (f.slot.Rejected? && s.slot == Pending ==> exists i :: 0 <= i < |events| && events[i] == Failure(f.slot.reason))
    decreases |events|
  {
    if |events| > 0 {
      var s1 := OnEvent(s, events[0], parse, policy);
      SettledStaysSettled(s1, events[1..], parse, policy);
      var f := RunEvents(s, events, parse, policy);
      if f.slot.Rejected? && s.slot == Pending {
        if s1.slot == Pending {
          var i :| 0 <= i < |events[1..]| && events[1..][i] == Failure(f.slot.reason);
          assert events[i + 1] == Failure(f.slot.reason);
        } else {
          assert events[0] == Failure(f.slot.reason);
        }
      }
    }
  }

  /** Data events keep the stream well formed and in its state, and never touch the promise. */
  lemma {:induction false} DataKeepsState(s: Live, events: seq<TransportEvent>, parse: Parser, policy: Policy)
    requires forall i :: 0 <= i < |events| ==> events[i].Data?
    ensures var f := RunEvents(s, events, parse, policy);
      && (Valid(s.c) ==> Valid(f.c))
      && f.c.state == s.c.state && f.slot == s.slot && f.uncaught == s.uncaught
    decreases |events|
  {
    if |events| > 0 {
      DecodeLinesSpec(s.c, Lines(events[0].text), parse);
      DataKeepsState(OnEvent(s, events[0], parse, policy), events[1..], parse, policy);
    }
  }

  /**
   * Corrected: whatever data arrived, transport end leaves the stream closing
   * (so its reader finishes after the queued chunks) and resolves the pending
   * promise with `{success: true}`.
   */
  lemma CorrectedEndSettles(s: Live, datas: seq<TransportEvent>, parse: Parser)
    requires s.slot == Pending
    requires forall i :: 0 <= i < |datas| ==> datas[i].Data?
    ensures var f := RunEvents(s, datas + [End], parse, Corrected);
      f.slot == Fulfilled(SuccessAck()) && !CanCloseOrEnqueue(f.c) && f.uncaught == s.uncaught
  {
    RunEventsAppend(s, datas, [End], parse, Corrected);
    SettledStaysSettled(s, datas, parse, Corrected);
  }

  /**
   * As written: transport end resolves the pending promise with
   * `{success: true}` exactly when the data before it left the stream open;
   * when a `done` line already closed it, `close()` throws a TypeError out of
   * the listener and the promise stays pending.
   */
  lemma AsWrittenEndSettlesIffOpen(s: Live, datas: seq<TransportEvent>, parse: Parser)
    requires s.slot == Pending
    requires forall i :: 0 <= i < |datas| ==> datas[i].Data?
    ensures var before := RunEvents(s, datas, parse, AsWritten);
      var f := RunEvents(s, datas + [End], parse, AsWritten);
      && (CanCloseOrEnqueue(before.c) ==>
            f.slot == Fulfilled(SuccessAck()) && f.uncaught == s.uncaught && !CanCloseOrEnqueue(f.c))
      && (!CanCloseOrEnqueue(before.c) ==> f.slot == Pending && f.uncaught == Some(TypeError))
  {
    RunEventsAppend(s, datas, [End], parse, AsWritten);
    SettledStaysSettled(s, datas, parse, AsWritten);
  }

  /**
   * Both as written and corrected: a transport error rejects the pending
   * promise with that error and leaves the stream closed or errored; a stream
   * still readable at that moment loses its unread chunks.
   */
  lemma TransportErrorSettles(s: Live, datas: seq<TransportEvent>, e: Exn, parse: Parser, policy: Policy)
    requires s.slot == Pending
    requires forall i :: 0 <= i < |datas| ==> datas[i].Data?
    ensures var before := RunEvents(s, datas, parse, policy);
      var f := RunEvents(s, datas + [Failure(e)], parse, policy);
      && f.slot == Rejected(e)
      && f.c.state != Readable
      && (before.c.state == Readable ==> f.c.state == Errored(e) && f.c.queue == [])
  {
    RunEventsAppend(s, datas, [Failure(e)], parse, policy);
    SettledStaysSettled(s, datas, parse, policy);
  }

  /**
   * As written: when a `done` line arrives and the transport then ends, the
   * `end` listener's `close()` throws a TypeError and `resolve` is never
   * reached, so the task's promise stays pending for ever.
   */
  lemma DoneThenEndNeverSettles(line: string, v: Json, parse: Parser)
    requires parse(line) == Some(v) && IsDone(v)
    requires !Blank(line) && '\n' !in line
    ensures var f := RunEvents(Live(Start(), Pending, None), [Data(line + "\n"), End], parse, AsWritten);
      f.slot == Pending && f.uncaught == Some(TypeError) && f.c.queue == [v]
  {
    assert Join([line, ""], '\n') == line + "\n";
    SplitJoin([line, ""], '\n');
    TrimEmptyIffBlank(line);
    TrimEmptyIffBlank("");
    assert NonBlank([""]) == [];
    assert [line, ""][1..] == [""];
    assert NonBlank([line, ""]) == [line];
    assert Lines(line + "\n") == [line];
    var s0 := Live(Start(), Pending, None);
    DecodeParsedLines(Start(), [line], [v], parse);
    var s1 := OnEvent(s0, Data(line + "\n"), parse, AsWritten);
    assert s1.c == Controller(Readable, true, [v]);
    assert RunEvents(s0, [Data(line + "\n"), End], parse, AsWritten) == RunEvents(s1, [End], parse, AsWritten);
  }

  /**
   * Corrected: for every transport that delivers chunks and then ends, the
   * task's promise is resolved with `{success: true}` and the stream is left
   * closing, with nothing escaping a listener.
   */
  lemma CorrectedStreamAlwaysSettles(datas: seq<TransportEvent>, parse: Parser)
    requires forall i :: 0 <= i < |datas| ==> datas[i].Data?
    ensures var f := RunEvents(Live(Start(), Pending, None), datas + [End], parse, Corrected);
      f.slot == Fulfilled(SuccessAck()) && f.c.closeRequested && f.uncaught == None
  {
    var s := Live(Start(), Pending, None);
    CorrectedEndSettles(s, datas, parse);
    RunEventsAppend(s, datas, [End], parse, Corrected);
    DataKeepsState(s, datas, parse, Corrected);
  }

  /** The response the upstream gives: refused, one JSON body, or a stream of transport events. */
  datatype Exchange = Refused(e: Exn) | Answered(body: Json) | Streamed(events: seq<TransportEvent>)

  /**
   * One `processTask` call: how it ends as the queue sees it, the task's
   * promise when it returns, and the stream and promise after all transport
   * events. A non-streaming task has no stream; `final.c` is then unused.
   */
  datatype Dispatch = Dispatch(outcome: CallOutcome, atReturn: Slot, final: Live)

  /**
   * `processTask(task)`: the branch depends only on `request.stream`. Every path
   * is wrapped in `try`/`catch`, so the call never throws to the queue. A
   * streaming call returns as soon as its listeners are attached, before any
   * transport event, so the queue frees the task's processing slot then, not
   * at stream end.
   */
  function ProcessTask(task: Task, x: Exchange, parse: Parser, policy: Policy): (r: Dispatch)
    requires task.hasStream == Truthy(Get(task.request, "stream"))
    requires task.hasStream ==> !x.Answered?
    requires !task.hasStream ==> !x.Streamed?
    ensures r.outcome == Returned
    ensures !task.hasStream ==> r.final.slot == r.atReturn
    ensures !task.hasStream && x.Answered? ==> r.atReturn == Fulfilled(x.body)
    ensures x.Refused? ==> r.atReturn == Rejected(x.e) && r.final.slot == Rejected(x.e)
    ensures x.Streamed? ==> r.atReturn == Pending && r.final == RunEvents(Live(Start(), Pending, None), x.events, parse, policy)
    ensures task.hasStream && x.Refused? && policy == AsWritten ==> r.final.c == Start()
    ensures task.hasStream && x.Refused? && policy == Corrected ==> r.final.c.state == Errored(x.e)
  {
    var c := Start();
    if Truthy(Get(task.request, "stream")) then
      match x
      case Refused(e) =>
        var c1 := if policy == Corrected then Error(c, e) else c;
        Dispatch(Returned, Rejected(e), Live(c1, Rejected(e), None))
      case Streamed(events) =>
        Dispatch(Returned, Pending, RunEvents(Live(c, Pending, None), events, parse, policy))
    else
      match x
      case Refused(e) => Dispatch(Returned, Rejected(e), Live(c, Rejected(e), None))
      case Answered(body) => Dispatch(Returned, Fulfilled(body), Live(c, Fulfilled(body), None))
  }

  /** The dispatcher ignores the task's kind: two tasks differing only in kind are processed alike. */
  lemma ProcessTaskIgnoresKind(task: Task, kind: Kind, x: Exchange, parse: Parser, policy: Policy)
    requires task.hasStream == Truthy(Get(task.request, "stream"))
    requires task.hasStream ==> !x.Answered?
    requires !task.hasStream ==> !x.Streamed?
    ensures ProcessTask(task.(kind := kind), x, parse, policy) == ProcessTask(task, x, parse, policy)
  {
  }

  /**
   * As written: when the streamed request itself fails, the task is rejected but
   * its stream stays open with nothing queued, so a reader of it waits for ever.
   */
  lemma SetupFailureLeavesStreamOpen(task: Task, e: Exn, parse: Parser)
    requires task.hasStream && task.hasStream == Truthy(Get(task.request, "stream"))
    ensures var r := ProcessTask(task, Refused(e), parse, AsWritten);
      r.final.slot == Rejected(e) && ReadOne(r.final.c).result == Waiting
  {
  }

  /** Corrected: a failed streamed request errors the stream, so its reader sees the same error. */
  lemma CorrectedSetupFailureErrorsStream(task: Task, e: Exn, parse: Parser)
    requires task.hasStream && task.hasStream == Truthy(Get(task.request, "stream"))
    ensures var r := ProcessTask(task, Refused(e), parse, Corrected);
      r.final.slot == Rejected(e) && ReadOne(r.final.c).result == Failed(e)
  {
  }

  /**
   * A streamed answer that is newline-delimited JSON ending in a `done` value,
   * followed by transport end: the stream holds the values up to the first
   * `null`, or all of them when there is none, in order, and is closing.
   * Without a `null`, the `done` value closed the stream: corrected, the promise
   * is resolved with `{success: true}`; as written, it stays pending because
   * the `end` listener's `close()` throws. After a `null`, reading its `done`
   * threw, so the `done` line was never handled and transport end closes the
   * stream and resolves the promise under both policies.
   */
  lemma NdjsonAnswer(vs: seq<Json>, parse: Parser, policy: Policy)
    requires |vs| > 0 && IsDone(vs[|vs| - 1])
    requires forall i :: 0 <= i < |vs| ==> parse(Stringify(vs[i])) == Some(vs[i])
    requires forall i :: 0 <= i < |vs| - 1 ==> !IsDone(vs[i])
    ensures var f := RunEvents(Live(Start(), Pending, None), [Data(Ndjson(vs)), End], parse, policy);
      && f.c == Controller(Readable, true, Delivered(vs))
      && (policy == Corrected || FirstNull(vs) < |vs| ==> f.slot == Fulfilled(SuccessAck()) && f.uncaught == None)
      && (policy == AsWritten && FirstNull(vs) == |vs| ==> f.slot == Pending && f.uncaught == Some(TypeError))
  {
    var s0 := Live(Start(), Pending, None);
    DecodeNdjson(Start(), vs, parse);
    var sent := Delivered(vs);
    assert Start().queue + sent == sent;
    assert |sent| > 0;
    var s1 := OnEvent(s0, Data(Ndjson(vs)), parse, policy);
    assert s1.c == Controller(Readable, FirstNull(vs) == |vs|, sent) && s1.slot == Pending && s1.uncaught == None;
    assert RunEvents(s0, [Data(Ndjson(vs)), End], parse, policy) == RunEvents(s1, [End], parse, policy);
  }
}
