/** The scheduler's heaps refine the plainest scheduler there is: lists of tasks in order of arrival,
    from which a dequeue picks the first arrival of the highest priority. */
module DispatchRefinement {
  import opened Prelude
  import opened StableQueue
  import opened Scheduling

  datatype Op =
    | Enqueue(task: Task)
    | Schedule(id: TaskId, request: Request, dueAt: int, queue: string, priority: int)
    | Dequeue(from: string, now: int)
    | Complete(done: TaskId)
    | Fail(failed: TaskId)

  datatype Reply = Accepted | Dispatched(task: Option<Task>) | Answered(known: bool)

  function Do(s: Scheduler, op: Op): (Scheduler, Reply) {
    match op
    case Enqueue(t) => (Push(s, t), Accepted)
    case Schedule(id, r, dueAt, queue, priority) => (Scheduling.Schedule(s, id, r, dueAt, queue, priority), Accepted)
    case Dequeue(q, now) => var (s', t) := Scheduling.Dequeue(s, q, now); (s', Dispatched(t))
    case Complete(id) => var (s', b) := Scheduling.Complete(s, id); (s', Answered(b))
    case Fail(id) => var (s', b) := Scheduling.Fail(s, id); (s', Answered(b))
  }

  /** The replies of the scheduler to a sequence of operations. */
  function Replies(s: Scheduler, ops: seq<Op>): seq<Reply>
    decreases |ops|
  {
    if ops == [] then [] else [Do(s, ops[0]).1] + Replies(Do(s, ops[0]).0, ops[1..])
  }

  // ---------- The reference scheduler: queues in order of arrival ----------

  function Arrive(n: Scheduler, t: Task): Scheduler {
    n.(queues := n.queues[t.queue := QueueOf(n.queues, t.queue) + [Waiting(t, t.priority)]])
  }

  function ArriveDue(n: Scheduler, due: seq<Delayed>, now: int): Scheduler
    decreases |due|
  {
    if due == [] then n
    else
      var d := due[0];
      var n' := n.(scheduled := DropDelayed(n.scheduled, d.id));
      ArriveDue(Arrive(n', Stamp(d.id, d.request, d.queue, d.priority, now)), due[1..], now)
  }

  function Pick(n: Scheduler, queue: string): (Scheduler, Option<Task>) {
    var arrivals := QueueOf(n.queues, queue);
    if arrivals == [] then (n, None)
    else
      var i := FirstHighest(arrivals);
      var t := arrivals[i].item;
      (n.(queues := n.queues[queue := Without(arrivals, i)], inFlight := n.inFlight[t.id := t]), Some(t))
  }

  function GiveUpOrArrive(n: Scheduler, id: TaskId): (Scheduler, bool) {
    if id !in n.inFlight then (n, false)
    else
      var t := n.inFlight[id].(retries := n.inFlight[id].retries + 1);
      var n' := n.(inFlight := n.inFlight - {id});
      if t.retries <= n.maxRetries then (Arrive(n', t), true) else (n', false)
  }

  function DoPlainly(n: Scheduler, op: Op): (Scheduler, Reply) {
    match op
    case Enqueue(t) => (Arrive(n, t), Accepted)
    case Schedule(id, r, dueAt, queue, priority) => (Scheduling.Schedule(n, id, r, dueAt, queue, priority), Accepted)
    case Dequeue(q, now) =>
      var (n', t) := Pick(ArriveDue(n, Due(n.scheduled, now), now), q);
      (n', Dispatched(t))
    case Complete(id) => var (n', b) := Scheduling.Complete(n, id); (n', Answered(b))
    case Fail(id) => var (n', b) := GiveUpOrArrive(n, id); (n', Answered(b))
  }

  function PlainReplies(n: Scheduler, ops: seq<Op>): seq<Reply>
    decreases |ops|
  {
    if ops == [] then [] else [DoPlainly(n, ops[0]).1] + PlainReplies(DoPlainly(n, ops[0]).0, ops[1..])
  }

  // ---------- Refinement ----------

  /** `s` holds what `n` holds, each queue in dispatch order instead of arrival order. */
  ghost predicate Refines(s: Scheduler, n: Scheduler) {
    && s.scheduled == n.scheduled && s.inFlight == n.inFlight && s.maxRetries == n.maxRetries
    && s.queues.Keys == n.queues.Keys
    && (forall q :: q in s.queues ==> s.queues[q] == DispatchOrder(n.queues[q]))
  }

  lemma PushRefines(s: Scheduler, n: Scheduler, t: Task)
    requires Refines(s, n)
    ensures Refines(Push(s, t), Arrive(n, t))
  {
    AppendArrival(QueueOf(n.queues, t.queue), Waiting(t, t.priority));
    assert t.queue !in n.queues ==> DispatchOrder(QueueOf(n.queues, t.queue)) == QueueOf(s.queues, t.queue);
  }

  lemma TakeRefines(s: Scheduler, n: Scheduler, queue: string)
    requires Refines(s, n)
    ensures Refines(Take(s, queue).0, Pick(n, queue).0)
    ensures Take(s, queue).1 == Pick(n, queue).1
  {
    var arrivals := QueueOf(n.queues, queue);
    if arrivals != [] {
      HeadIsFirstHighest(arrivals);
    }
  }

  lemma {:induction false} PromotionRefines(s: Scheduler, n: Scheduler, due: seq<Delayed>, now: int)
    requires Refines(s, n)
    ensures Refines(PromoteAll(s, due, now), ArriveDue(n, due, now))
    decreases |due|
  {
    if due != [] {
      var d := due[0];
      var rest := DropDelayed(s.scheduled, d.id);
      PushRefines(s.(scheduled := rest), n.(scheduled := rest), Stamp(d.id, d.request, d.queue, d.priority, now));
      PromotionRefines(Promote(s, d, now),
                       Arrive(n.(scheduled := rest), Stamp(d.id, d.request, d.queue, d.priority, now)), due[1..], now);
    }
  }

  lemma FailRefines(s: Scheduler, n: Scheduler, id: TaskId)
    requires Refines(s, n)
    ensures Refines(Scheduling.Fail(s, id).0, GiveUpOrArrive(n, id).0)
    ensures Scheduling.Fail(s, id).1 == GiveUpOrArrive(n, id).1
  {
    if id in s.inFlight {
      var t := s.inFlight[id].(retries := s.inFlight[id].retries + 1);
      LandRefines(s, n, id);
      PushRefines(s.(inFlight := s.inFlight - {id}), n.(inFlight := n.inFlight - {id}), t);
    }
  }

  lemma LandRefines(s: Scheduler, n: Scheduler, id: TaskId)
    requires Refines(s, n)
    ensures Refines(s.(inFlight := s.inFlight - {id}), n.(inFlight := n.inFlight - {id}))
  {
  }

  lemma DoRefines(s: Scheduler, n: Scheduler, op: Op)
    requires Refines(s, n)
    ensures Refines(Do(s, op).0, DoPlainly(n, op).0)
    ensures Do(s, op).1 == DoPlainly(n, op).1
  {
    match op
    case Enqueue(t) => PushRefines(s, n, t);
    case Schedule(_, _, _, _, _) =>
    case Dequeue(q, now) =>
      PromotionRefines(s, n, Due(s.scheduled, now), now);
      TakeRefines(PromoteDue(s, now), ArriveDue(n, Due(n.scheduled, now), now), q);
    case Complete(_) =>
    case Fail(id) => FailRefines(s, n, id);
  }

  /** Over any sequence of operations, refining schedulers give the same replies. */
  lemma {:induction false} RunsRefine(s: Scheduler, n: Scheduler, ops: seq<Op>)
    requires Refines(s, n)
    ensures Replies(s, ops) == PlainReplies(n, ops)
    decreases |ops|
  {
    if ops != [] {
      DoRefines(s, n, ops[0]);
      RunsRefine(Do(s, ops[0]).0, DoPlainly(n, ops[0]).0, ops[1..]);
    }
  }

  /** From the start, every dequeue of every run hands out the first arrival of the highest priority:
      the heap scheduler and the arrival-list scheduler cannot be told apart. */
  lemma DispatchIsStablePriority(maxRetries: nat, ops: seq<Op>)
    ensures Replies(NewScheduler(maxRetries), ops) == PlainReplies(NewScheduler(maxRetries), ops)
  {
    RunsRefine(NewScheduler(maxRetries), NewScheduler(maxRetries), ops);
  }

  /** A retried task comes behind every waiting task of at least its priority, and before the others. */
  lemma RetryGoesBehindItsPeers(s: Scheduler, n: Scheduler, id: TaskId, i: nat)
    requires Refines(s, n)
    requires id in s.inFlight && s.inFlight[id].retries < s.maxRetries
    requires i < |QueueOf(s.queues, s.inFlight[id].queue)|
    ensures var t := s.inFlight[id];
            var w, w' := QueueOf(s.queues, t.queue), QueueOf(Scheduling.Fail(s, id).0.queues, t.queue);
            var k := InsertPos(w, t.priority);
            && |w'| == |w| + 1
            && w'[k] == Waiting(t.(retries := t.retries + 1), t.priority)
            && (if t.priority <= w[i].priority then i < k && w'[i] == w[i] else k <= i && w'[i + 1] == w[i])
  {
    var t := s.inFlight[id].(retries := s.inFlight[id].retries + 1);
    var w := QueueOf(s.queues, t.queue);
    DispatchOrderSorted(n.queues[t.queue]);
    InsertGoesBehindPeers(w, Waiting(t, t.priority), i);
  }
}
