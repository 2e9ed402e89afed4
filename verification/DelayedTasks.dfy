/** Delayed tasks are neither early nor lost: every id the scheduler ever accepted is in one place. */
module DelayedTasks {
  import opened Prelude
  import opened StableQueue
  import opened Scheduling
  import opened TaskQueues
  import opened DispatchRefinement

  /** The queue and priority a task was accepted with. */
  datatype Acceptance = Acceptance(queue: string, priority: int)

  /** A scheduler together with everything it has accepted and finished so far. */
  datatype Tracked = Tracked(s: Scheduler, accepted: map<TaskId, Acceptance>, finished: set<TaskId>)

  /** A new task brings a new id. */
  predicate Fresh(tr: Tracked, op: Op) {
    match op
    case Enqueue(t) => t.id !in tr.accepted
    case Schedule(id, _, _, _, _) => id !in tr.accepted
    case _ => true
  }

  /** The operation and its entry in the books: a task finishes when it is completed, or fails for good. */
  function Track(tr: Tracked, op: Op): Tracked {
    var s' := Do(tr.s, op).0;
    match op
    case Enqueue(t) => Tracked(s', tr.accepted[t.id := Acceptance(t.queue, t.priority)], tr.finished)
    case Schedule(id, _, _, queue, priority) => Tracked(s', tr.accepted[id := Acceptance(queue, priority)], tr.finished)
    case Dequeue(_, _) => tr.(s := s')
    case Complete(id) => Tracked(s', tr.accepted, if Do(tr.s, op).1.known then tr.finished + {id} else tr.finished)
    case Fail(id) =>
      Tracked(s', tr.accepted,
              if id in tr.s.inFlight && !Do(tr.s, op).1.known then tr.finished + {id} else tr.finished)
  }

  ghost predicate IsScheduled(s: Scheduler, id: TaskId) {
    exists d :: d in s.scheduled && d.id == id
  }

  ghost predicate IsQueued(tr: Tracked, id: TaskId)
    requires id in tr.accepted
  {
    id in TaskIds(QueueOf(tr.s.queues, tr.accepted[id].queue))
  }

  ghost predicate DistinctDelayed(ds: seq<Delayed>) {
    forall i, j :: 0 <= i < j < |ds| ==> ds[i].id != ds[j].id
  }

  lemma TailDistinct(ds: seq<Delayed>)
    requires ds != [] && DistinctDelayed(ds)
    ensures DistinctDelayed(ds[1..])
    ensures forall d :: d in ds[1..] ==> d in ds && d.id != ds[0].id
    ensures forall d :: d in ds ==> d == ds[0] || d in ds[1..]
  {
    assert forall i :: 0 <= i < |ds| - 1 ==> ds[1..][i] == ds[i + 1];
  }

  lemma ConsDistinct(d: Delayed, ds: seq<Delayed>)
    requires DistinctDelayed(ds) && forall x :: x in ds ==> x.id != d.id
    ensures DistinctDelayed([d] + ds)
  {
  }

  ghost predicate ScheduledOk(tr: Tracked) {
    && (forall d :: d in tr.s.scheduled ==> d.id in tr.accepted && tr.accepted[d.id] == Acceptance(d.queue, d.priority))
    && DistinctDelayed(tr.s.scheduled)
  }

  /** What `e` promises when it waits in queue `q`. */
  ghost predicate EntryOk(tr: Tracked, q: string, e: Waiting<Task>) {
    && e.item.queue == q && e.item.priority == e.priority
    && e.item.id in tr.accepted && tr.accepted[e.item.id] == Acceptance(q, e.priority)
  }

  ghost predicate QueuesOk(tr: Tracked) {
    && (forall q, e :: q in tr.s.queues && e in tr.s.queues[q] ==> EntryOk(tr, q, e))
    && (forall q :: q in tr.s.queues ==> DistinctTasks(tr.s.queues[q]))
  }

  ghost predicate FlightOk(tr: Tracked) {
    forall id :: id in tr.s.inFlight ==>
      && tr.s.inFlight[id].id == id && id in tr.accepted
      && tr.accepted[id] == Acceptance(tr.s.inFlight[id].queue, tr.s.inFlight[id].priority)
  }

  /** The task is in exactly one of the four places, or is `loose` and in none of them. */
  ghost predicate InOnePlace(tr: Tracked, id: TaskId, loose: set<TaskId>)
    requires id in tr.accepted
  {
    var scheduled, queued, flying, finished :=
      IsScheduled(tr.s, id), IsQueued(tr, id), id in tr.s.inFlight, id in tr.finished;
    if id in loose then !scheduled && !queued && !flying && !finished
    else if scheduled then !queued && !flying && !finished
    else if queued then !flying && !finished
    else flying != finished
  }

  ghost predicate PlacedBut(tr: Tracked, loose: set<TaskId>) {
    && ScheduledOk(tr) && QueuesOk(tr) && FlightOk(tr) && tr.finished <= tr.accepted.Keys
    && (forall id :: id in tr.accepted ==> InOnePlace(tr, id, loose))
  }

  /** Scheduled, queued, in flight and finished tasks partition everything ever accepted. */
  ghost predicate Placed(tr: Tracked) {
    PlacedBut(tr, {})
  }

  // ---------- Elementary moves ----------

  lemma PushedEntries(tr: Tracked, t: Task)
    requires QueuesOk(tr) && t.id in tr.accepted && tr.accepted[t.id] == Acceptance(t.queue, t.priority)
    requires t.id !in TaskIds(QueueOf(tr.s.queues, t.queue))
    ensures QueuesOk(tr.(s := Push(tr.s, t)))
  {
    var e := Waiting(t, t.priority);
    InsertMembers(QueueOf(tr.s.queues, t.queue), e);
    InsertDistinct(QueueOf(tr.s.queues, t.queue), e);
    var tr' := tr.(s := Push(tr.s, t));
    forall q, x | q in tr'.s.queues && x in tr'.s.queues[q]
      ensures EntryOk(tr', q, x)
    {
      assert x != e ==> EntryOk(tr, q, x);
    }
  }

  lemma PushPlaces(tr: Tracked, t: Task)
    requires t.id in tr.accepted && tr.accepted[t.id] == Acceptance(t.queue, t.priority)
    requires PlacedBut(tr, {t.id})
    ensures Placed(tr.(s := Push(tr.s, t)))
  {
    var tr' := tr.(s := Push(tr.s, t));
    assert InOnePlace(tr, t.id, {t.id});
    PushedEntries(tr, t);
    InsertIds(QueueOf(tr.s.queues, t.queue), Waiting(t, t.priority));
    forall id | id in tr.accepted
      ensures InOnePlace(tr', id, {})
    {
      assert InOnePlace(tr, id, {t.id});
      assert IsScheduled(tr'.s, id) == IsScheduled(tr.s, id);
      assert IsQueued(tr', id) <==> id == t.id || IsQueued(tr, id);
    }
  }

  lemma {:induction false} DropDelayedDistinct(ds: seq<Delayed>, id: TaskId)
    requires DistinctDelayed(ds)
    ensures DistinctDelayed(DropDelayed(ds, id))
  {
    if ds != [] {
      TailDistinct(ds);
      DropDelayedDistinct(ds[1..], id);
      ConsDistinct(ds[0], DropDelayed(ds[1..], id));
    }
  }

  lemma UnschedulePlaces(tr: Tracked, id: TaskId)
    requires Placed(tr) && IsScheduled(tr.s, id)
    ensures PlacedBut(tr.(s := tr.s.(scheduled := DropDelayed(tr.s.scheduled, id))), {id})
  {
    var tr' := tr.(s := tr.s.(scheduled := DropDelayed(tr.s.scheduled, id)));
    DropDelayedDistinct(tr.s.scheduled, id);
    forall x | x in tr.accepted
      ensures InOnePlace(tr', x, {id})
    {
      assert InOnePlace(tr, x, {});
      assert IsScheduled(tr'.s, x) <==> x != id && IsScheduled(tr.s, x);
      assert IsQueued(tr', x) == IsQueued(tr, x);
    }
  }

  lemma LandPlaces(tr: Tracked, id: TaskId)
    requires Placed(tr) && id in tr.s.inFlight
    ensures PlacedBut(tr.(s := tr.s.(inFlight := tr.s.inFlight - {id})), {id})
  {
    var tr' := tr.(s := tr.s.(inFlight := tr.s.inFlight - {id}));
    forall x | x in tr.accepted
      ensures InOnePlace(tr', x, {id})
    {
      assert InOnePlace(tr, x, {});
      assert IsScheduled(tr'.s, x) == IsScheduled(tr.s, x);
      assert IsQueued(tr', x) == IsQueued(tr, x);
    }
  }

  lemma FinishPlaces(tr: Tracked, id: TaskId)
    requires PlacedBut(tr, {id}) && id in tr.accepted
    ensures Placed(tr.(finished := tr.finished + {id}))
  {
    var tr' := tr.(finished := tr.finished + {id});
    forall x | x in tr.accepted
      ensures InOnePlace(tr', x, {})
    {
      assert InOnePlace(tr, x, {id});
      assert IsQueued(tr', x) == IsQueued(tr, x);
    }
  }

  lemma TakePlaces(tr: Tracked, queue: string)
    requires Placed(tr)
    ensures Placed(tr.(s := Take(tr.s, queue).0))
  {
    var w := QueueOf(tr.s.queues, queue);
    if w != [] {
      var tr' := tr.(s := Take(tr.s, queue).0);
      var t := w[0].item;
      assert w[0] in w && EntryOk(tr, queue, w[0]);
      RestIds(w);
      forall q, e | q in tr'.s.queues && e in tr'.s.queues[q]
        ensures EntryOk(tr', q, e)
      {
        assert EntryOk(tr, q, e);
      }
      forall x | x in tr.accepted
        ensures InOnePlace(tr', x, {})
      {
        assert InOnePlace(tr, x, {});
        assert IsScheduled(tr'.s, x) == IsScheduled(tr.s, x);
        assert IsQueued(tr', x) <==> x != t.id && IsQueued(tr, x);
      }
    }
  }

  lemma AcceptPlaces(tr: Tracked, id: TaskId, a: Acceptance)
    requires Placed(tr) && id !in tr.accepted
    ensures PlacedBut(tr.(accepted := tr.accepted[id := a]), {id})
  {
    var tr' := tr.(accepted := tr.accepted[id := a]);
    forall q, e | q in tr'.s.queues && e in tr'.s.queues[q]
      ensures EntryOk(tr', q, e)
    {
      assert EntryOk(tr, q, e);
    }
    forall x | x in tr'.accepted
      ensures InOnePlace(tr', x, {id})
    {
      if x != id {
        assert InOnePlace(tr, x, {});
        assert IsQueued(tr', x) == IsQueued(tr, x);
      } else {
        forall e | e in QueueOf(tr.s.queues, a.queue)
          ensures e.item.id != id
        {
          assert EntryOk(tr, a.queue, e);
        }
      }
    }
  }

  lemma {:induction false} PutDelayedDistinct(ds: seq<Delayed>, d: Delayed)
    requires DistinctDelayed(ds)
    requires forall x :: x in ds ==> x.id != d.id
    ensures PutDelayed(ds, d) == ds + [d]
  {
    if ds != [] {
      assert ds[0] in ds;
      PutDelayedDistinct(ds[1..], d);
    }
  }

  lemma SchedulePlaces(tr: Tracked, d: Delayed)
    requires PlacedBut(tr, {d.id}) && d.id in tr.accepted && tr.accepted[d.id] == Acceptance(d.queue, d.priority)
    ensures Placed(tr.(s := tr.s.(scheduled := PutDelayed(tr.s.scheduled, d))))
  {
    var tr' := tr.(s := tr.s.(scheduled := PutDelayed(tr.s.scheduled, d)));
    assert InOnePlace(tr, d.id, {d.id});
    PutDelayedDistinct(tr.s.scheduled, d);
    forall i | 0 <= i < |tr.s.scheduled|
      ensures tr.s.scheduled[i].id != d.id
    {
      assert tr.s.scheduled[i] in tr.s.scheduled;
    }
    assert d in tr'.s.scheduled;
    forall x | x in tr.accepted
      ensures InOnePlace(tr', x, {})
    {
      assert InOnePlace(tr, x, {d.id});
      assert IsScheduled(tr'.s, x) <==> x == d.id || IsScheduled(tr.s, x);
      assert IsQueued(tr', x) == IsQueued(tr, x);
    }
  }

  // ---------- Operations and runs ----------

  /** Promotion keeps every task in one place, and takes exactly the listed tasks off the schedule. */
  lemma {:induction false} PromotionPlaces(tr: Tracked, due: seq<Delayed>, now: int)
    requires Placed(tr)
    requires forall d :: d in due ==> d in tr.s.scheduled
    requires DistinctDelayed(due)
    ensures Placed(tr.(s := PromoteAll(tr.s, due, now)))
    ensures forall d :: d in PromoteAll(tr.s, due, now).scheduled
                   <==> d in tr.s.scheduled && (forall x :: x in due ==> x.id != d.id)
    ensures PromoteAll(tr.s, due, now).inFlight == tr.s.inFlight
    decreases |due|
  {
    if due != [] {
      var d := due[0];
      TailDistinct(due);
      PromoteOnePlaces(tr, d, now);
      PromotionPlaces(tr.(s := Promote(tr.s, d, now)), due[1..], now);
    }
  }

  lemma PromoteOnePlaces(tr: Tracked, d: Delayed, now: int)
    requires Placed(tr) && d in tr.s.scheduled
    ensures Placed(tr.(s := Promote(tr.s, d, now)))
  {
    UnschedulePlaces(tr, d.id);
    PushPlaces(tr.(s := tr.s.(scheduled := DropDelayed(tr.s.scheduled, d.id))),
               Stamp(d.id, d.request, d.queue, d.priority, now));
  }

  lemma {:induction false} DueDistinct(ds: seq<Delayed>, now: int)
    requires DistinctDelayed(ds)
    ensures DistinctDelayed(Due(ds, now))
  {
    if ds != [] {
      TailDistinct(ds);
      DueDistinct(ds[1..], now);
      if ds[0].dueAt <= now {
        ConsDistinct(ds[0], Due(ds[1..], now));
      }
    }
  }

  /** Each dequeue promotes exactly the tasks that have fallen due: none early, none left behind,
      each with the queue and priority it was scheduled with. */
  lemma NeverEarlyNeverLate(tr: Tracked, queue: string, now: int)
    requires Placed(tr)
    ensures var promoted := PromoteDue(tr.s, now);
            && Placed(tr.(s := promoted))
            && (forall d :: d in promoted.scheduled <==> d in tr.s.scheduled && now < d.dueAt)
            && (forall d :: d in tr.s.scheduled && d.dueAt <= now ==>
                  d.id in tr.accepted && tr.accepted[d.id] == Acceptance(d.queue, d.priority)
                  && d.id in TaskIds(QueueOf(promoted.queues, d.queue)))
            && Do(tr.s, Dequeue(queue, now)).0.scheduled == promoted.scheduled
  {
    PromotionDone(tr, now);
    forall d | d in tr.s.scheduled && d.dueAt <= now
      ensures d.id in tr.accepted && tr.accepted[d.id] == Acceptance(d.queue, d.priority)
      ensures d.id in TaskIds(QueueOf(PromoteDue(tr.s, now).queues, d.queue))
    {
      DueIsQueued(tr, d, now);
    }
  }

  lemma PromotionDone(tr: Tracked, now: int)
    requires Placed(tr)
    ensures Placed(tr.(s := PromoteDue(tr.s, now)))
    ensures forall d :: d in PromoteDue(tr.s, now).scheduled <==> d in tr.s.scheduled && now < d.dueAt
    ensures PromoteDue(tr.s, now).inFlight == tr.s.inFlight
  {
    var due := Due(tr.s.scheduled, now);
    DueDistinct(tr.s.scheduled, now);
    PromotionPlaces(tr, due, now);
    forall d | d in tr.s.scheduled
      ensures d in PromoteDue(tr.s, now).scheduled <==> now < d.dueAt
    {
      SameDelayed(tr.s.scheduled, d, due);
    }
  }

  lemma DueIsQueued(tr: Tracked, d: Delayed, now: int)
    requires Placed(tr) && d in tr.s.scheduled && d.dueAt <= now
    ensures d.id in tr.accepted && tr.accepted[d.id] == Acceptance(d.queue, d.priority)
    ensures d.id in TaskIds(QueueOf(PromoteDue(tr.s, now).queues, d.queue))
  {
    var tr' := tr.(s := PromoteDue(tr.s, now));
    PromotionDone(tr, now);
    assert InOnePlace(tr, d.id, {}) && InOnePlace(tr', d.id, {});
    assert IsScheduled(tr.s, d.id);
    NotScheduledAgain(tr, d, now);
  }

  lemma NotScheduledAgain(tr: Tracked, d: Delayed, now: int)
    requires Placed(tr) && d in tr.s.scheduled && d.dueAt <= now
    ensures !IsScheduled(PromoteDue(tr.s, now), d.id)
  {
    PromotionDone(tr, now);
    if x :| x in PromoteDue(tr.s, now).scheduled && x.id == d.id {
      assert x in tr.s.scheduled && x != d;
    }
  }

  lemma SameDelayed(ds: seq<Delayed>, d: Delayed, due: seq<Delayed>)
    requires DistinctDelayed(ds)
    requires d in ds && forall x :: x in due ==> x in ds
    ensures (exists x :: x in due && x.id == d.id) ==> d in due
  {
    if x :| x in due && x.id == d.id {
      var i :| 0 <= i < |ds| && ds[i] == d;
      var j :| 0 <= j < |ds| && ds[j] == x;
    }
  }

  lemma EnqueueKeepsPlaces(tr: Tracked, t: Task)
    requires Placed(tr) && t.id !in tr.accepted
    ensures Placed(Track(tr, Op.Enqueue(t)))
  {
    AcceptPlaces(tr, t.id, Acceptance(t.queue, t.priority));
    PushPlaces(tr.(accepted := tr.accepted[t.id := Acceptance(t.queue, t.priority)]), t);
  }

  lemma ScheduleKeepsPlaces(tr: Tracked, op: Op)
    requires Placed(tr) && op.Schedule? && op.id !in tr.accepted
    ensures Placed(Track(tr, op))
  {
    var Schedule(id, r, dueAt, queue, priority) := op;
    AcceptPlaces(tr, id, Acceptance(queue, priority));
    SchedulePlaces(tr.(accepted := tr.accepted[id := Acceptance(queue, priority)]),
                   Delayed(id, dueAt, r.(id := Some(id)), queue, priority));
  }

  lemma CompleteKeepsPlaces(tr: Tracked, id: TaskId)
    requires Placed(tr)
    ensures Placed(Track(tr, Op.Complete(id)))
  {
    if id in tr.s.inFlight {
      LandPlaces(tr, id);
      FinishPlaces(tr.(s := tr.s.(inFlight := tr.s.inFlight - {id})), id);
    } else {
      assert tr.s.inFlight - {id} == tr.s.inFlight;
    }
  }

  lemma FailKeepsPlaces(tr: Tracked, id: TaskId)
    requires Placed(tr)
    ensures Placed(Track(tr, Op.Fail(id)))
  {
    if id in tr.s.inFlight {
      LandPlaces(tr, id);
      var tr1 := tr.(s := tr.s.(inFlight := tr.s.inFlight - {id}));
      var t := tr.s.inFlight[id].(retries := tr.s.inFlight[id].retries + 1);
      if t.retries <= tr.s.maxRetries {
        PushPlaces(tr1, t);
        assert Track(tr, Op.Fail(id)) == tr1.(s := Push(tr1.s, t));
      } else {
        FinishPlaces(tr1, id);
        assert Track(tr, Op.Fail(id)) == tr1.(finished := tr1.finished + {id});
      }
    } else {
      assert Track(tr, Op.Fail(id)) == tr;
    }
  }

  lemma TrackKeepsPlaces(tr: Tracked, op: Op)
    requires Placed(tr) && Fresh(tr, op)
    ensures Placed(Track(tr, op))
  {
    match op
    case Enqueue(t) => EnqueueKeepsPlaces(tr, t);
    case Schedule(_, _, _, _, _) => ScheduleKeepsPlaces(tr, op);
    case Dequeue(queue, now) =>
      NeverEarlyNeverLate(tr, queue, now);
      TakePlaces(tr.(s := PromoteDue(tr.s, now)), queue);
    case Complete(id) => CompleteKeepsPlaces(tr, id);
    case Fail(id) => FailKeepsPlaces(tr, id);
  }

  ghost predicate FreshRun(tr: Tracked, ops: seq<Op>)
    decreases |ops|
  {
    ops == [] || (Fresh(tr, ops[0]) && FreshRun(Track(tr, ops[0]), ops[1..]))
  }

  function TrackAll(tr: Tracked, ops: seq<Op>): Tracked
    decreases |ops|
  {
    if ops == [] then tr else TrackAll(Track(tr, ops[0]), ops[1..])
  }

  lemma {:induction false} RunKeepsPlaces(tr: Tracked, ops: seq<Op>)
    requires Placed(tr) && FreshRun(tr, ops)
    ensures Placed(TrackAll(tr, ops))
    decreases |ops|
  {
    if ops != [] {
      TrackKeepsPlaces(tr, ops[0]);
      RunKeepsPlaces(Track(tr, ops[0]), ops[1..]);
    }
  }

  /** No run with distinct ids loses or duplicates a task. */
  lemma NothingIsLost(maxRetries: nat, ops: seq<Op>)
    requires FreshRun(Tracked(NewScheduler(maxRetries), map[], {}), ops)
    ensures Placed(TrackAll(Tracked(NewScheduler(maxRetries), map[], {}), ops))
  {
    RunKeepsPlaces(Tracked(NewScheduler(maxRetries), map[], {}), ops);
  }
}
