/**
 * `RequestQueue`: a FIFO list of pending tasks, a set of ids being processed
 * and a fixed concurrency limit. JavaScript runs the queue's bookkeeping on one
 * thread and nothing is awaited between the limit check and the insert, so the
 * queue is a sequential state machine driven by two events: a task is
 * submitted (`addTask`), and the `processTask` call of a processing task ends
 * (the `catch`/`finally` of `processQueue`).
 */
module RequestQueue {
  import opened Js
  import opened Tasks

  /**
   * The queue's state. `pending` is the array `queue`, `processing` the id set,
   * `concurrency` the limit. `nextId` supplies fresh ids; `finished` holds the
   * ids whose processing has ended. The source keeps no such history: it is
   * bookkeeping that lets conservation of tasks be stated.
   */
  datatype Queue = Queue(
    pending: seq<Task>,
    processing: set<Id>,
    concurrency: nat,
    nextId: Id,
    finished: set<Id>)

  /** `new RequestQueue(concurrency)`. */
  function New(concurrency: nat): (q: Queue)
    ensures Inv(q)
    ensures QueueLength(q) == 0 && ProcessingCount(q) == 0 && q.concurrency == concurrency
  {
    Queue([], {}, concurrency, 0, {})
  }

  /** `getQueueLength()`: with consistent bookkeeping, every submitted task is pending, processing or finished. */
  function QueueLength(q: Queue): (n: nat)
    ensures Consistent(q) ==> n + |q.processing| + |q.finished| == q.nextId
  {
    |q.pending|
  }

  /** `getProcessingCount()`: never above the limit, and at the limit whenever a task waits. */
  function ProcessingCount(q: Queue): (n: nat)
    ensures Consistent(q) ==> n <= q.concurrency
    ensures Inv(q) && |q.pending| > 0 ==> n == q.concurrency
  {
    |q.processing|
  }

  /** How many submitted tasks have left the pending list so far. */
  function StartedCount(q: Queue): int {
    q.nextId - |q.pending|
  }

  /**
   * The bookkeeping is consistent: the pending tasks are, in order, exactly the
   * last submitted ones (ids `StartedCount .. nextId - 1`), every earlier id is
   * either processing or finished and not both, and no more than `concurrency`
   * are processing.
   */
  ghost predicate Consistent(q: Queue) {
    && |q.pending| <= q.nextId
    && (forall i :: 0 <= i < |q.pending| ==> q.pending[i].id == StartedCount(q) + i)
    && q.processing !! q.finished
    && (forall id :: id in q.processing ==> id < StartedCount(q))
    && (forall id :: id in q.finished ==> id < StartedCount(q))
    && (forall id: Id :: id < StartedCount(q) ==> id in q.processing || id in q.finished)
    && |q.processing| + |q.finished| == StartedCount(q)
    && |q.processing| <= q.concurrency
  }

  /** No task waits while a processing slot is free. */
  ghost predicate WorkConserving(q: Queue) {
    |q.pending| > 0 ==> |q.processing| == q.concurrency
  }

  /** The invariant that holds between events. */
  ghost predicate Inv(q: Queue) {
    Consistent(q) && WorkConserving(q)
  }

  function Started(o: Option<Task>): seq<Task> {
    if o.Some? then [o.value] else []
  }

  function StartedIds(o: Option<Task>): set<Id> {
    if o.Some? then {o.value.id} else {}
  }

  datatype Admission = Admission(queue: Queue, started: Option<Task>)

  /**
   * One `processQueue` call up to its `await`: it returns at once when the list
   * is empty or the limit is reached, and otherwise shifts the head task and
   * adds its id to `processing`; the caller then invokes `processTask` on it.
   */
  function ProcessQueue(q: Queue): (a: Admission)
    ensures a.started.Some? <==> |q.pending| > 0 && |q.processing| < q.concurrency
    ensures Started(a.started) + a.queue.pending == q.pending
    ensures a.queue.processing == q.processing + StartedIds(a.started)
    ensures a.queue.concurrency == q.concurrency && a.queue.nextId == q.nextId && a.queue.finished == q.finished
  {
    if |q.pending| == 0 then Admission(q, None)
    else if |q.processing| >= q.concurrency then Admission(q, None)
    else
      var task := q.pending[0];
      Admission(q.(pending := q.pending[1..], processing := q.processing + {task.id}), Some(task))
  }

  /**
   * A `processQueue` call keeps the bookkeeping consistent, changes nothing when
   * the list is empty or the limit is reached, and otherwise moves exactly the
   * head task from the list to `processing`, growing it by one.
   */
  lemma ProcessQueueStep(q: Queue)
    requires Consistent(q)
    ensures var a := ProcessQueue(q);
      && Consistent(a.queue)
      && a.queue.concurrency == q.concurrency
      && a.queue.nextId == q.nextId
      && a.queue.finished == q.finished
      && (if |q.pending| > 0 && |q.processing| < q.concurrency then
            && a.started == Some(q.pending[0])
            && a.queue.pending == q.pending[1..]
            && a.queue.processing == q.processing + {q.pending[0].id}
            && |a.queue.processing| == |q.processing| + 1
          else
            a.started == None && a.queue == q)
  {
    var a := ProcessQueue(q);
    if |q.pending| > 0 && |q.processing| < q.concurrency {
      var head := q.pending[0];
      assert head.id == StartedCount(q);
      assert head.id !in q.processing;
      var q' := a.queue;
      assert StartedCount(q') == StartedCount(q) + 1;
      forall i | 0 <= i < |q'.pending| ensures q'.pending[i].id == StartedCount(q') + i {
        assert q'.pending[i] == q.pending[i + 1];
      }
      forall id: Id | id < StartedCount(q') ensures id in q'.processing || id in q'.finished {
        if id < StartedCount(q) {
          assert id in q.processing || id in q.finished;
        }
      }
    }
  }

  datatype Submission = Submission(queue: Queue, task: Task, started: Option<Task>)

  /**
   * `addTask(type, request)`: a task with a fresh id, carrying a stream handle
   * iff `request.stream` is truthy, is pushed at the tail of the list, and
   * `processQueue` runs once.
   */
  function AddTask(q: Queue, kind: Kind, request: Json): (s: Submission)
    ensures s.task == Task(q.nextId, kind, request, Truthy(Get(request, "stream")))
    ensures Started(s.started) + s.queue.pending == q.pending + [s.task]
    ensures s.queue.processing == q.processing + StartedIds(s.started)
    ensures s.started.Some? <==> |q.processing| < q.concurrency
    ensures s.queue.nextId == q.nextId + 1 && s.queue.finished == q.finished && s.queue.concurrency == q.concurrency
  {
    var task := Task(q.nextId, kind, request, Truthy(Get(request, "stream")));
    var a := ProcessQueue(q.(pending := q.pending + [task], nextId := q.nextId + 1));
    Submission(a.queue, task, a.started)
  }

  /**
   * `addTask` keeps the invariant, gives the task an id no earlier task has,
   * creates a stream handle iff `request.stream` is truthy, and appends the task
   * at the tail: the task that starts (if any) followed by the new list is the
   * old list followed by the new task. A task starts at submission exactly when
   * the list was empty and a slot was free.
   */
  lemma AddTaskStep(q: Queue, kind: Kind, request: Json)
    requires Inv(q)
    ensures var s := AddTask(q, kind, request);
      && Inv(s.queue)
      && s.task.id == q.nextId
      && s.task.id !in q.processing && s.task.id !in q.finished
      && (forall i :: 0 <= i < |q.pending| ==> q.pending[i].id < s.task.id)
      && s.task.kind == kind && s.task.request == request
      && (s.task.hasStream <==> Truthy(Get(request, "stream")))
      && Started(s.started) + s.queue.pending == q.pending + [s.task]
      && (s.started.Some? <==> |q.pending| == 0 && |q.processing| < q.concurrency)
      && s.queue.concurrency == q.concurrency
  {
    var task := Task(q.nextId, kind, request, Truthy(Get(request, "stream")));
    PushKeepsConsistent(q, task);
    ProcessQueueStep(q.(pending := q.pending + [task], nextId := q.nextId + 1));
  }

  /** Appending a task with the next id to the list keeps the bookkeeping consistent. */
  lemma PushKeepsConsistent(q: Queue, task: Task)
    requires Consistent(q) && task.id == q.nextId
    ensures Consistent(q.(pending := q.pending + [task], nextId := q.nextId + 1))
  {
    var pushed := q.(pending := q.pending + [task], nextId := q.nextId + 1);
    assert StartedCount(pushed) == StartedCount(q);
    forall i | 0 <= i < |pushed.pending| ensures pushed.pending[i].id == StartedCount(pushed) + i {
      if i < |q.pending| { assert pushed.pending[i] == q.pending[i]; }
    }
  }

  datatype Completion = Completion(queue: Queue, rejected: Option<Exn>, started: Option<Task>)

  /**
   * The end of the awaited `processTask(task)` inside `processQueue`: a throw is
   * turned into `task.reject(error)`; then, in `finally`, the id leaves
   * `processing` and `processQueue` runs once more.
   */
  function Complete(q: Queue, id: Id, outcome: CallOutcome): (c: Completion)
    requires id in q.processing
    ensures c.rejected == (if outcome.Threw? then Some(outcome.error) else None)
    ensures Started(c.started) + c.queue.pending == q.pending
    ensures c.queue.processing == (q.processing - {id}) + StartedIds(c.started)
    ensures c.queue.finished == q.finished + {id}
    ensures c.started.Some? <==> |q.pending| > 0 && |q.processing| - 1 < q.concurrency
  {
    var rejected := if outcome.Threw? then Some(outcome.error) else None;
    var a := ProcessQueue(q.(processing := q.processing - {id}, finished := q.finished + {id}));
    Completion(a.queue, rejected, a.started)
  }

  /**
   * Completion, normal or throwing, keeps the invariant, removes exactly its id
   * from `processing`, rejects the task with the thrown error iff
   * `processTask` threw, and starts the head of the list iff the list is
   * non-empty.
   */
  lemma CompleteStep(q: Queue, id: Id, outcome: CallOutcome)
    requires Inv(q)
    requires id in q.processing
    ensures var c := Complete(q, id, outcome);
      && Inv(c.queue)
      && id !in c.queue.processing && id in c.queue.finished
      && c.queue.processing == (q.processing - {id}) + StartedIds(c.started)
      && (c.rejected.Some? <==> outcome.Threw?)
      && (outcome.Threw? ==> c.rejected == Some(outcome.error))
      && Started(c.started) + c.queue.pending == q.pending
      && (c.started.Some? <==> |q.pending| > 0)
      && c.queue.concurrency == q.concurrency
  {
    var freed := q.(processing := q.processing - {id}, finished := q.finished + {id});
    assert |freed.processing| == |q.processing| - 1;
    assert |freed.finished| == |q.finished| + 1;
    forall x: Id | x < StartedCount(freed) ensures x in freed.processing || x in freed.finished {
      assert x in q.processing || x in q.finished;
    }
    assert Consistent(freed);
    ProcessQueueStep(freed);
    var a := ProcessQueue(freed);
    if |q.pending| > 0 {
      assert a.queue.processing == freed.processing + {q.pending[0].id};
      assert q.pending[0].id != id;
    }
  }

  /** An event the queue reacts to. */
  datatype Event =
    | Submit(kind: Kind, request: Json)
    | Finish(id: Id, outcome: CallOutcome)

  datatype Effects = Effects(queue: Queue, started: Option<Task>, rejected: Option<Exn>)

  /**
   * Reacts to one event. A `Finish` for an id that is not processing cannot be
   * delivered by the event loop; it leaves the queue unchanged here.
   */
  function Step(q: Queue, e: Event): Effects {
    match e
    case Submit(kind, request) =>
      var s := AddTask(q, kind, request);
      Effects(s.queue, s.started, None)
    case Finish(id, outcome) =>
      if id in q.processing then
        var c := Complete(q, id, outcome);
        Effects(c.queue, c.started, c.rejected)
      else Effects(q, None, None)
  }

  datatype History = History(queue: Queue, started: seq<Task>)

  /** The queue after a sequence of events, with the tasks started along the way in start order. */
  function Replay(q: Queue, events: seq<Event>): History
    decreases |events|
  {
    if |events| == 0 then History(q, [])
    else
      var e := Step(q, events[0]);
      var h := Replay(e.queue, events[1..]);
      History(h.queue, Started(e.started) + h.started)
  }

  /**
   * One event keeps the invariant, and the task it starts, if any, is the one
   * with the first id not yet started.
   */
  lemma StepKeepsInv(q: Queue, e: Event)
    requires Inv(q)
    ensures var r := Step(q, e);
      && Inv(r.queue)
      && r.queue.concurrency == q.concurrency
      && StartedCount(r.queue) == StartedCount(q) + |Started(r.started)|
      && (r.started.Some? ==> r.started.value.id == StartedCount(q))
  {
    match e {
      case Submit(kind, request) =>
        AddTaskStep(q, kind, request);
        var s := AddTask(q, kind, request);
        assert |Started(s.started)| + |s.queue.pending| == |q.pending| + 1 by {
          assert |Started(s.started) + s.queue.pending| == |q.pending + [s.task]|;
        }
        if s.started.Some? {
          assert s.started.value == (q.pending + [s.task])[0];
        }
      case Finish(id, outcome) =>
        if id in q.processing {
          CompleteStep(q, id, outcome);
          var c := Complete(q, id, outcome);
          assert |Started(c.started)| + |c.queue.pending| == |q.pending| by {
            assert |Started(c.started) + c.queue.pending| == |q.pending|;
          }
          if c.started.Some? {
            assert c.started.value == q.pending[0];
          }
        }
    }
  }

  /**
   * Every event sequence keeps the invariant (so the concurrency bound, work
   * conservation and conservation of tasks hold after every event), and tasks
   * start strictly in submission order: the j-th task to start is the one
   * with the j-th id after those already started.
   */
  lemma {:induction false} ReplayKeepsInv(q: Queue, events: seq<Event>)
    requires Inv(q)
    ensures var h := Replay(q, events);
      && Inv(h.queue)
      && h.queue.concurrency == q.concurrency
      && StartedCount(h.queue) == StartedCount(q) + |h.started|
      && (forall j :: 0 <= j < |h.started| ==> h.started[j].id == StartedCount(q) + j)
    decreases |events|
  {
    if |events| > 0 {
      var e := Step(q, events[0]);
      StepKeepsInv(q, events[0]);
      ReplayKeepsInv(e.queue, events[1..]);
      var rest := Replay(e.queue, events[1..]);
      assert Replay(q, events).started == Started(e.started) + rest.started;
      ConsecutiveIds(Started(e.started), rest.started, StartedCount(q));
    }
  }

  /** Ids counted up from `base` for at most one task, then on from there, are counted up from `base` throughout. */
  lemma ConsecutiveIds(first: seq<Task>, rest: seq<Task>, base: int)
    requires |first| <= 1 && (|first| == 1 ==> first[0].id == base)
    requires forall j :: 0 <= j < |rest| ==> rest[j].id == base + |first| + j
    ensures forall j :: 0 <= j < |first + rest| ==> (first + rest)[j].id == base + j
  {
    forall j | 0 <= j < |first + rest| ensures (first + rest)[j].id == base + j {
      if j >= |first| {
        assert (first + rest)[j] == rest[j - |first|];
      }
    }
  }

  /**
   * From a fresh queue, after any sequence of events: at most `concurrency`
   * tasks are processing, a task waits only while all slots are busy, every
   * submitted task is exactly one of pending, processing or finished, and the
   * j-th task to start is the j-th task submitted.
   */
  lemma FreshQueueRuns(concurrency: nat, events: seq<Event>)
    ensures var h := Replay(New(concurrency), events);
      && ProcessingCount(h.queue) <= concurrency
      && (QueueLength(h.queue) > 0 ==> ProcessingCount(h.queue) == concurrency)
      && QueueLength(h.queue) + ProcessingCount(h.queue) + |h.queue.finished| == h.queue.nextId
      && (forall i :: 0 <= i < |h.queue.pending| ==>
            h.queue.pending[i].id !in h.queue.processing && h.queue.pending[i].id !in h.queue.finished)
      && (forall j :: 0 <= j < |h.started| ==> h.started[j].id == j)
  {
    ReplayKeepsInv(New(concurrency), events);
  }

  /**
   * The placeholder `processTask`: it returns without calling `resolve` or
   * `reject`, so a task processed by it is never settled.
   */
  function DefaultProcessTask(task: Task, slot: Slot): (r: (CallOutcome, Slot))
    ensures r.0 == Returned
    ensures slot == Pending ==> r.1 == Pending
  {
    (Returned, slot)
  }

  /**
   * With the placeholder, a processed task frees its slot without being
   * settled: its completion rejects nothing and its promise stays pending.
   */
  lemma DefaultProcessingNeverSettles(q: Queue, task: Task)
    requires Inv(q) && task.id in q.processing
    ensures var (outcome, slot) := DefaultProcessTask(task, Pending);
      var c := Complete(q, task.id, outcome);
      && slot == Pending
      && c.rejected == None
      && task.id !in c.queue.processing
  {
    CompleteStep(q, task.id, Returned);
  }
}
