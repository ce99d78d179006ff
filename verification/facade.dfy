/**
 * The nine public methods of `OllamaService`: each submits one task of its own
 * kind to the queue and awaits the task's promise, then adapts a failure in
 * one of three ways. `generate`, `chat`, `createModel` and `pullModel` answer
 * `{response, stream}` and keep the stream handle whatever happens;
 * `listModels`, `copyModel`, `deleteModel` and `showModel` answer the value or
 * `null`; `embedding` answers the value or rethrows.
 */
module Facade {
  import opened Js
  import opened Tasks
  import RequestQueue

  /** How a method adapts a rejected promise. */
  datatype Adaptation = KeepStream | NullOnFailure | Rethrow

  function AdaptationOf(kind: Kind): Adaptation {
    match kind
    case Generate => KeepStream
    case Chat => KeepStream
    case Create => KeepStream
    case Pull => KeepStream
    case List => NullOnFailure
    case Copy => NullOnFailure
    case Delete => NullOnFailure
    case Show => NullOnFailure
    case Embedding => Rethrow
  }

  /**
   * What a method's returned promise settles with: the pair `{response, stream}`
   * (`stream` records whether a stream handle is present), a bare value, or a
   * rethrown exception.
   */
  datatype FacadeResult = Pair(response: Json, stream: bool) | Plain(value: Json) | Raised(error: Exn)

  /** The shape each method's result has. */
  predicate Fits(kind: Kind, r: FacadeResult) {
    match AdaptationOf(kind)
    case KeepStream => r.Pair?
    case NullOnFailure => r.Plain?
    case Rethrow => !r.Pair?
  }

  /** The request each method submits: `listModels` submits `{}`, every other method the body it is given. */
  function RequestOf(kind: Kind, body: Json): Json {
    if kind == List then JObj([]) else body
  }

  /** The synchronous part of a method: one `addTask` of the method's kind. */
  function Submit(q: RequestQueue.Queue, kind: Kind, body: Json): RequestQueue.Submission {
    RequestQueue.AddTask(q, kind, RequestOf(kind, body))
  }

  /**
   * The method's `await promise` and its `try`/`catch`, once the task's promise
   * is in state `slot`. None: the promise is still pending, so the method has
   * not returned.
   */
  function Await(kind: Kind, slot: Slot, hasStream: bool): (r: Option<FacadeResult>)
    ensures r.None? <==> slot.Pending?
    ensures r.Some? ==> Fits(kind, r.value)
  {
    match slot
    case Pending => None
    case Fulfilled(v) =>
      (match AdaptationOf(kind)
       case KeepStream => Some(Pair(v, hasStream))
       case _ => Some(Plain(v)))
    case Rejected(e) =>
      (match AdaptationOf(kind)
       case KeepStream => Some(Pair(JNull, hasStream))
       case NullOnFailure => Some(Plain(JNull))
       case Rethrow => Some(Raised(e)))
  }

  /**
   * Failure mapping: a fulfilled promise's value is passed through unchanged;
   * a rejection becomes `{response: null, stream}` with the stream handle kept
   * for `generate`, `chat`, `createModel` and `pullModel`, a bare `null` for
   * `listModels`, `copyModel`, `deleteModel` and `showModel`, and escapes only
   * from `embedding`, with the same error.
   */
  lemma AwaitAdapts(kind: Kind, slot: Slot, hasStream: bool)
    requires slot != Pending
    ensures var r := Await(kind, slot, hasStream).value;
      && (r.Raised? <==> kind == Embedding && slot.Rejected?)
      && (r.Raised? ==> r.error == slot.reason)
      && (r.Pair? <==> kind in {Generate, Chat, Create, Pull})
      && (r.Pair? ==> r.stream == hasStream)
      && (slot.Fulfilled? ==> (r.Pair? && r.response == slot.value) || r == Plain(slot.value))
      && (slot.Rejected? && kind != Embedding ==> r == Pair(JNull, hasStream) || r == Plain(JNull))
  {
  }

  /**
   * A method submits exactly one task, of its own kind, carrying the body it
   * was given (`{}` for `listModels`); so `listModels` never gets a stream
   * handle, and every other method gets one iff the body's `stream` is truthy.
   */
  lemma SubmitOneTask(q: RequestQueue.Queue, kind: Kind, body: Json)
    requires RequestQueue.Inv(q)
    ensures var s := Submit(q, kind, body);
      && s.task.kind == kind
      && s.task.id == q.nextId
      && RequestQueue.Started(s.started) + s.queue.pending == q.pending + [s.task]
      && (kind == List ==> !s.task.hasStream && s.task.request == JObj([]))
      && (kind != List ==> s.task.request == body && (s.task.hasStream <==> Truthy(Get(body, "stream"))))
  {
    RequestQueue.AddTaskStep(q, kind, RequestOf(kind, body));
  }
}
