/** What the task scheduler does (src/orchestrator/scheduler.py), as functions on its state. */
module Scheduling {
  import opened Prelude
  import opened StableQueue

  /** A task dict once the scheduler has stamped it. */
  datatype Task = Task(id: TaskId, target: Id, payload: Json, queue: string, priority: int, retries: nat,
                       enqueuedAt: int)

  /** A task dict as callers hand it in: some keys may be missing. */
  datatype Request = Request(id: Option<string>, target: Id, payload: Json, retries: Option<nat>,
                             enqueuedAt: Option<int>)

  /** A delayed task: `request.id` holds the id under which it waits. */
  datatype Delayed = Delayed(id: TaskId, dueAt: int, request: Request, queue: string, priority: int)

  /** Each queue is in dispatch order; `scheduled` is in order of insertion. */
  datatype Scheduler = Scheduler(
    queues: map<string, seq<Waiting<Task>>>,
    scheduled: seq<Delayed>,
    inFlight: map<TaskId, Task>,
    maxRetries: nat)

  function NewScheduler(maxRetries: nat): Scheduler {
    Scheduler(map[], [], map[], maxRetries)
  }

  /** A missing or empty id is replaced by a new uuid. */
  function ResolveId(id: Option<string>, uuid: TaskId): TaskId {
    if id.Some? && id.value != "" then id.value else uuid
  }

  function Stamp(id: TaskId, r: Request, queue: string, priority: int, now: int): Task {
    Task(id, r.target, r.payload, queue, priority,
         if r.retries.Some? then r.retries.value else 0,
         if r.enqueuedAt.Some? then r.enqueuedAt.value else now)
  }

  /** The dict of a task that is handed back to `enqueue`. */
  function Resubmission(t: Task): Request {
    Request(Some(t.id), t.target, t.payload, Some(t.retries), Some(t.enqueuedAt))
  }

  function QueueOf<T>(queues: map<string, seq<Waiting<T>>>, queue: string): seq<Waiting<T>> {
    if queue in queues then queues[queue] else []
  }

  /** Enqueues a stamped task in its own queue with its own priority. */
  function Push(s: Scheduler, t: Task): Scheduler {
    s.(queues := s.queues[t.queue := StableInsert(QueueOf(s.queues, t.queue), Waiting(t, t.priority))])
  }

  // ---------- Delayed tasks ----------

  function DropDelayed(ds: seq<Delayed>, id: TaskId): (r: seq<Delayed>)
    ensures forall d :: d in r <==> d in ds && d.id != id
  {
    if ds == [] then []
    else if ds[0].id == id then DropDelayed(ds[1..], id)
    else [ds[0]] + DropDelayed(ds[1..], id)
  }

  /** Assigning to a dict key: an existing key keeps its place. */
  function PutDelayed(ds: seq<Delayed>, d: Delayed): (r: seq<Delayed>)
    ensures forall x :: x in r <==> x == d || (x in ds && x.id != d.id)
  {
    if ds == [] then [d]
    else if ds[0].id == d.id then [d] + DropDelayed(ds[1..], d.id)
    else [ds[0]] + PutDelayed(ds[1..], d)
  }

  function Due(ds: seq<Delayed>, now: int): (r: seq<Delayed>)
    ensures forall d :: d in r <==> d in ds && d.dueAt <= now
  {
    if ds == [] then []
    else if ds[0].dueAt <= now then [ds[0]] + Due(ds[1..], now)
    else Due(ds[1..], now)
  }

  function Schedule(s: Scheduler, id: TaskId, r: Request, dueAt: int, queue: string, priority: int): Scheduler {
    s.(scheduled := PutDelayed(s.scheduled, Delayed(id, dueAt, r.(id := Some(id)), queue, priority)))
  }

  function Promote(s: Scheduler, d: Delayed, now: int): Scheduler {
    Push(s.(scheduled := DropDelayed(s.scheduled, d.id)), Stamp(d.id, d.request, d.queue, d.priority, now))
  }

  function PromoteAll(s: Scheduler, due: seq<Delayed>, now: int): Scheduler
    decreases |due|
  {
    if due == [] then s else PromoteAll(Promote(s, due[0], now), due[1..], now)
  }

  function PromoteDue(s: Scheduler, now: int): Scheduler {
    PromoteAll(s, Due(s.scheduled, now), now)
  }

  // ---------- Dispatch and outcome ----------

  /** Takes the task that is first in dispatch order. */
  function Take(s: Scheduler, queue: string): (Scheduler, Option<Task>) {
    var w := QueueOf(s.queues, queue);
    if w == [] then (s, None)
    else (s.(queues := s.queues[queue := w[1..]], inFlight := s.inFlight[w[0].item.id := w[0].item]), Some(w[0].item))
  }

  function Dequeue(s: Scheduler, queue: string, now: int): (Scheduler, Option<Task>) {
    Take(PromoteDue(s, now), queue)
  }

  function Complete(s: Scheduler, id: TaskId): (Scheduler, bool) {
    (s.(inFlight := s.inFlight - {id}), id in s.inFlight)
  }

  /** A failed task goes back to its queue while retries remain. */
  function Fail(s: Scheduler, id: TaskId): (Scheduler, bool) {
    if id !in s.inFlight then (s, false)
    else
      var t := s.inFlight[id].(retries := s.inFlight[id].retries + 1);
      var s' := s.(inFlight := s.inFlight - {id});
      if t.retries <= s.maxRetries then (Push(s', t), true) else (s', false)
  }
}
