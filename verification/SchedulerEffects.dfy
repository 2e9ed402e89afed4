/** What each scheduler operation does, in terms of the tasks that wait, are delayed and are in flight. */
module SchedulerEffects {
  import opened Prelude
  import opened StableQueue
  import opened Scheduling

  type Queues = map<string, seq<Waiting<Task>>>

  function WaitingIn(queues: Queues, queue: string): seq<Waiting<Task>> {
    if queue in queues then queues[queue] else []
  }

  predicate JoinsAt(w: seq<Waiting<Task>>, w': seq<Waiting<Task>>, e: Waiting<Task>, k: nat) {
    && k <= |w| && w' == w[..k] + [e] + w[k..]
    && (forall i :: 0 <= i < k ==> w[i].priority >= e.priority) && (k < |w| ==> w[k].priority < e.priority)
  }

  /** The task has joined its queue, behind everything of at least its priority that is ahead of all that is
      not, and no other queue has changed. */
  ghost predicate Joins(queues: Queues, queues': Queues, t: Task) {
    && (forall q :: q != t.queue ==> WaitingIn(queues', q) == WaitingIn(queues, q))
    && exists k :: JoinsAt(WaitingIn(queues, t.queue), WaitingIn(queues', t.queue), Waiting(t, t.priority), k)
  }

  lemma PushJoins(s: Scheduler, t: Task)
    ensures var s' := Push(s, t);
            s' == s.(queues := s'.queues) && Joins(s.queues, s'.queues, t)
  {
    var w, e := WaitingIn(s.queues, t.queue), Waiting(t, t.priority);
    InsertSplits(w, e);
    assert JoinsAt(w, WaitingIn(Push(s, t).queues, t.queue), e, InsertPos(w, t.priority));
  }

  /** A task is enqueued as it is handed in, under its own id if it has one that is not empty; stamps that it
      brings along are kept. */
  lemma EnqueueEffect(s: Scheduler, r: Request, queue: string, priority: int, uuid: TaskId, now: int)
    ensures var id, s' := ResolveId(r.id, uuid), Push(s, Stamp(ResolveId(r.id, uuid), r, queue, priority, now));
            && id == (if r.id == None || r.id.value == "" then uuid else r.id.value)
            && s' == s.(queues := s'.queues)
            && Joins(s.queues, s'.queues,
                     Task(id, r.target, r.payload, queue, priority,
                          if r.retries == None then 0 else r.retries.value,
                          if r.enqueuedAt == None then now else r.enqueuedAt.value))
  {
    PushJoins(s, Stamp(ResolveId(r.id, uuid), r, queue, priority, now));
  }

  /** A delayed task keeps its dict and waits for its queue, with its priority, until it is due. */
  lemma ScheduleEffect(s: Scheduler, id: TaskId, r: Request, dueAt: int, queue: string, priority: int)
    ensures var s' := Scheduling.Schedule(s, id, r, dueAt, queue, priority);
            && s' == s.(scheduled := s'.scheduled)
            && forall d :: d in s'.scheduled <==>
                 || d == Delayed(id, dueAt, Request(Some(id), r.target, r.payload, r.retries, r.enqueuedAt),
                                 queue, priority)
                 || (d in s.scheduled && d.id != id)
  {
  }

  /** A task that is scheduled under a new id comes last. */
  lemma {:induction false} NewComesLast(ds: seq<Delayed>, d: Delayed)
    requires forall j :: 0 <= j < |ds| ==> ds[j].id != d.id
    ensures PutDelayed(ds, d) == ds + [d]
  {
    if ds != [] {
      NewComesLast(ds[1..], d);
      assert [ds[0]] + (ds[1..] + [d]) == ds + [d];
    }
  }

  /** One that replaces another keeps its place. */
  lemma {:induction false} OldKeepsPlace(ds: seq<Delayed>, d: Delayed, i: nat)
    requires i < |ds| && ds[i].id == d.id && forall j :: 0 <= j < |ds| && j != i ==> ds[j].id != d.id
    ensures PutDelayed(ds, d) == ds[i := d]
  {
    if i == 0 {
      DropNothing(ds[1..], d.id);
      assert [d] + ds[1..] == ds[0 := d];
    } else {
      assert ds[0].id != d.id;
      OldKeepsPlace(ds[1..], d, i - 1);
      ReplaceBehind(ds, d, i);
    }
  }

  lemma ReplaceBehind(ds: seq<Delayed>, d: Delayed, i: nat)
    requires 0 < i < |ds|
    ensures [ds[0]] + ds[1..][i - 1 := d] == ds[i := d]
  {
  }

  lemma {:induction false} DropNothing(ds: seq<Delayed>, id: TaskId)
    requires forall i :: 0 <= i < |ds| ==> ds[i].id != id
    ensures DropDelayed(ds, id) == ds
  {
    if ds != [] {
      DropNothing(ds[1..], id);
    }
  }

  /** Promoting takes the task off the schedule and enqueues it as it was handed in. */
  lemma PromoteEffect(s: Scheduler, d: Delayed, now: int)
    ensures var s', r := Promote(s, d, now), d.request;
            && s' == s.(queues := s'.queues, scheduled := s'.scheduled)
            && (forall x :: x in s'.scheduled <==> x in s.scheduled && x.id != d.id)
            && Joins(s.queues, s'.queues,
                     Task(d.id, r.target, r.payload, d.queue, d.priority,
                          if r.retries == None then 0 else r.retries.value,
                          if r.enqueuedAt == None then now else r.enqueuedAt.value))
  {
    PushJoins(s.(scheduled := DropDelayed(s.scheduled, d.id)), Stamp(d.id, d.request, d.queue, d.priority, now));
  }

  /** The entry of a delayed task when it joins its queue. */
  function EntryOf(d: Delayed, now: int): Waiting<Task> {
    Waiting(Task(d.id, d.request.target, d.request.payload, d.queue, d.priority,
                 if d.request.retries == None then 0 else d.request.retries.value,
                 if d.request.enqueuedAt == None then now else d.request.enqueuedAt.value), d.priority)
  }

  /** The tasks of a queue that are due, in the order in which they were scheduled. */
  function DueFor(ds: seq<Delayed>, queue: string, now: int): seq<Waiting<Task>> {
    if ds == [] then []
    else
      var n := |ds| - 1;
      DueFor(ds[..n], queue, now)
      + if ds[n].dueAt <= now && ds[n].queue == queue then [EntryOf(ds[n], now)] else []
  }

  function EntriesFor(due: seq<Delayed>, queue: string, now: int): seq<Waiting<Task>> {
    if due == [] then []
    else
      var rest := EntriesFor(due[1..], queue, now);
      if due[0].queue == queue then [EntryOf(due[0], now)] + rest else rest
  }

  lemma {:induction false} EntriesConcat(a: seq<Delayed>, b: seq<Delayed>, queue: string, now: int)
    ensures EntriesFor(a + b, queue, now) == EntriesFor(a, queue, now) + EntriesFor(b, queue, now)
  {
    if a == [] {
      assert a + b == b;
    } else {
      assert (a + b)[1..] == a[1..] + b;
      EntriesConcat(a[1..], b, queue, now);
    }
  }

  lemma {:induction false} DueConcat(a: seq<Delayed>, b: seq<Delayed>, now: int)
    ensures Due(a + b, now) == Due(a, now) + Due(b, now)
  {
    if a == [] {
      assert a + b == b;
    } else {
      assert (a + b)[1..] == a[1..] + b;
      DueConcat(a[1..], b, now);
    }
  }

  lemma {:induction false} DueEntries(ds: seq<Delayed>, queue: string, now: int)
    ensures EntriesFor(Due(ds, now), queue, now) == DueFor(ds, queue, now)
  {
    if ds != [] {
      var n := |ds| - 1;
      DueEntries(ds[..n], queue, now);
      assert ds == ds[..n] + [ds[n]];
      DueConcat(ds[..n], [ds[n]], now);
      LastEntry(ds[n], queue, now);
      EntriesConcat(Due(ds[..n], now), Due([ds[n]], now), queue, now);
    }
  }

  lemma LastEntry(d: Delayed, queue: string, now: int)
    ensures EntriesFor(Due([d], now), queue, now)
         == if d.dueAt <= now && d.queue == queue then [EntryOf(d, now)] else []
  {
    assert [d][1..] == [] && Due([], now) == [];
    if d.dueAt <= now {
      assert Due([d], now) == [d];
      assert EntriesFor([d], queue, now) == (if d.queue == queue then [EntryOf(d, now)] else []) + [];
    }
  }

  lemma PromotedQueue(s: Scheduler, d: Delayed, queue: string, now: int)
    ensures WaitingIn(Promote(s, d, now).queues, queue)
         == if d.queue == queue then StableInsert(WaitingIn(s.queues, queue), EntryOf(d, now))
            else WaitingIn(s.queues, queue)
  {
  }

  function InsertAll(w: seq<Waiting<Task>>, es: seq<Waiting<Task>>): seq<Waiting<Task>>
    decreases |es|
  {
    if es == [] then w else InsertAll(StableInsert(w, es[0]), es[1..])
  }

  lemma {:induction false} InsertAllInOrder(arrivals: seq<Waiting<Task>>, es: seq<Waiting<Task>>)
    ensures InsertAll(DispatchOrder(arrivals), es) == DispatchOrder(arrivals + es)
    decreases |es|
  {
    if es == [] {
      assert arrivals + [] == arrivals;
    } else {
      AppendArrival(arrivals, es[0]);
      InsertAllInOrder(arrivals + [es[0]], es[1..]);
      assert arrivals + [es[0]] + es[1..] == arrivals + es;
    }
  }

  lemma {:induction false} PromotionJoins(s: Scheduler, due: seq<Delayed>, queue: string, now: int)
    ensures WaitingIn(PromoteAll(s, due, now).queues, queue)
         == InsertAll(WaitingIn(s.queues, queue), EntriesFor(due, queue, now))
    decreases |due|
  {
    if due != [] {
      PromotedQueue(s, due[0], queue, now);
      PromotionJoins(Promote(s, due[0], now), due[1..], queue, now);
      var rest := EntriesFor(due[1..], queue, now);
      if due[0].queue == queue {
        assert ([EntryOf(due[0], now)] + rest)[1..] == rest;
      }
    }
  }

  /** Promotion is as if the due tasks of a queue had arrived just now, in the order in which they were scheduled. */
  lemma PromotedInOrder(s: Scheduler, queue: string, now: int, arrivals: seq<Waiting<Task>>)
    requires WaitingIn(s.queues, queue) == DispatchOrder(arrivals)
    ensures WaitingIn(PromoteDue(s, now).queues, queue)
         == DispatchOrder(arrivals + DueFor(s.scheduled, queue, now))
  {
    DueEntries(s.scheduled, queue, now);
    PromotionJoins(s, Due(s.scheduled, now), queue, now);
    InsertAllInOrder(arrivals, DueFor(s.scheduled, queue, now));
  }

  /** The first task of the queue, if there is one, is handed out and in flight. */
  lemma TakeEffect(s: Scheduler, queue: string)
    ensures var (s', t) := Take(s, queue);
            var w := WaitingIn(s.queues, queue);
            if w == [] then s' == s && t == None
            else
              && t == Some(w[0].item)
              && s' == s.(queues := s.queues[queue := w[1..]],
                          inFlight := s.inFlight[w[0].item.id := w[0].item])
  {
  }

  /** A task that fails in flight waits again with one more retry while its budget lasts. */
  lemma FailEffect(s: Scheduler, id: TaskId)
    ensures var (s', retry) := Fail(s, id);
            && (retry <==> id in s.inFlight && s.inFlight[id].retries < s.maxRetries)
            && s' == s.(queues := s'.queues, inFlight := s.inFlight - {id})
            && (if retry then Joins(s.queues, s'.queues, s.inFlight[id].(retries := s.inFlight[id].retries + 1))
                else s'.queues == s.queues)
  {
    if id in s.inFlight {
      PushJoins(s.(inFlight := s.inFlight - {id}), s.inFlight[id].(retries := s.inFlight[id].retries + 1));
    } else {
      assert s.inFlight - {id} == s.inFlight;
    }
  }

  lemma CompleteEffect(s: Scheduler, id: TaskId)
    ensures var (s', known) := Complete(s, id);
            (known <==> id in s.inFlight) && s' == s.(inFlight := s.inFlight - {id})
  {
  }
}
