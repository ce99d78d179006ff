/**
 * The queue's unit of work (`QueueTask`) and the promise each task carries.
 */
module Tasks {
  import opened Js

  /** Task identifiers: the source draws a fresh uuid per task; fresh naturals play that role here. */
  type Id = nat

  /** The nine operation kinds a task can have. */
  datatype Kind = Generate | Chat | Embedding | List | Create | Pull | Copy | Delete | Show

  /**
   * A submitted task. `hasStream` records whether a ReadableStream (and hence a
   * stream controller) was created for it at submission.
   */
  datatype Task = Task(id: Id, kind: Kind, request: Json, hasStream: bool)

  /** The state of a task's promise, settled through the task's `resolve`/`reject`. */
  datatype Slot = Pending | Fulfilled(value: Json) | Rejected(reason: Exn)

  /** `resolve(v)`: settles a pending promise; a settled promise ignores it. */
  function Resolve(s: Slot, v: Json): (r: Slot)
    ensures r != Pending
    ensures s.Pending? ==> r == Fulfilled(v)
    ensures s != Pending ==> r == s
  {
    if s.Pending? then Fulfilled(v) else s
  }

  /** `reject(e)`: settles a pending promise; a settled promise ignores it. */
  function Reject(s: Slot, e: Exn): (r: Slot)
    ensures r != Pending
    ensures s.Pending? ==> r == Rejected(e)
    ensures s != Pending ==> r == s
  {
    if s.Pending? then Rejected(e) else s
  }

  /** How the awaited `processTask(task)` call ended, as the queue observes it. */
  datatype CallOutcome = Returned | Threw(error: Exn)
}
