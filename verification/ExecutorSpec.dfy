/** The semaphore-bounded executor (src/agent/executor.py) as a machine. Every event is a block between
    two awaits of `execute`, of the task it creates, or a call from outside. */
module ExecutorSpec {
  import opened Prelude

  /** The inner task, which runs the handler. */
  datatype Inner = Running | CancelRequested | Succeeded(value: Entry) | Failed(message: string) | Cancelled
  {
    predicate Done() {
      Succeeded? || Failed? || Cancelled?
    }
  }

  /** Where a call of `execute` is. `aborted` says that its caller has cancelled it and it does not know yet. */
  datatype Phase =
    | Waiting
    | Granted(aborted: bool)
    | Holding(inner: Inner, aborted: bool)
    | Returned
    | Raised

  /** What is stored about a finished execution. */
  datatype Entry = Envelope(execution: Id, agent: Id, task: Option<Id>, result: Json, duration: int, timestamp: int)
                 | ErrorEntry(message: string)

  /** `free` and `waiting` are the semaphore: its counter and its queue, first come first served. */
  datatype Pool = Pool(
    free: nat, waiting: seq<Id>, phases: map<Id, Phase>, active: set<Id>, results: map<Id, Entry>)

  datatype Event =
    | Execute(id: Id)
    | Enter(id: Id)
    | HandlerReturns(id: Id, agent: Id, task: Option<Id>, result: Json, duration: int, timestamp: int)
    | HandlerRaises(id: Id, message: string)
    | HandlerCancelled(id: Id)
    | Resume(id: Id)
    | Cancel(id: Id)
    | Abort(id: Id)
    | Shutdown

  function NewPool(maxConcurrent: nat): Pool {
    Pool(maxConcurrent, [], map[], {}, map[])
  }

  function In(p: Pool, id: Id, phase: Phase): Pool {
    p.(phases := p.phases[id := phase])
  }

  /** A permit comes back; the first waiter, if any, gets it at once. */
  function Release(p: Pool): Pool {
    if p.waiting == [] then p.(free := p.free + 1)
    else In(p, p.waiting[0], Granted(false)).(waiting := p.waiting[1..])
  }

  /** The task is created and can be cancelled from now on. */
  function Launch(p: Pool, id: Id): Pool {
    In(p, id, Holding(Inner.Running, false)).(active := p.active + {id})
  }

  function DoExecute(p: Pool, id: Id): Pool {
    if p.free > 0 && p.waiting == [] then Launch(p.(free := p.free - 1), id)
    else In(p, id, Waiting).(waiting := p.waiting + [id])
  }

  function DoEnter(p: Pool, id: Id): Pool
    requires id in p.phases && p.phases[id].Granted?
  {
    if p.phases[id].aborted then Release(In(p, id, Raised)) else Launch(p, id)
  }

  function InnerEnds(p: Pool, id: Id, inner: Inner): Pool
    requires id in p.phases && p.phases[id].Holding?
  {
    In(p, id, p.phases[id].(inner := inner))
  }

  /** `execute` goes on after its inner task is done: a cancellation passes through, anything else is stored. */
  function DoResume(p: Pool, id: Id): Pool
    requires id in p.phases && p.phases[id].Holding? && p.phases[id].inner.Done()
  {
    var Holding(inner, aborted) := p.phases[id];
    var p1 := p.(active := p.active - {id});
    if aborted || inner.Cancelled? then Release(In(p1, id, Raised))
    else
      Release(In(p1, id, Returned).(results := p.results[id := EntryOf(inner)]))
  }

  /** What is stored of an execution whose handler came to an end. */
  function EntryOf(inner: Inner): Entry
    requires inner.Succeeded? || inner.Failed?
  {
    if inner.Succeeded? then inner.value else ErrorEntry(inner.message)
  }

  predicate Cancellable(p: Pool, id: Id) {
    id in p.active && id in p.phases && p.phases[id].Holding? && !p.phases[id].inner.Done()
  }

  function Doomed(phase: Phase): Phase {
    if phase.Holding? && !phase.inner.Done() then phase.(inner := CancelRequested) else phase
  }

  /** `cancel`, which says whether there was something to cancel. */
  function DoCancel(p: Pool, id: Id): (Pool, bool) {
    if Cancellable(p, id) then (In(p, id, Doomed(p.phases[id])), true) else (p, false)
  }

  /** The caller of `execute` cancels it. */
  function DoAbort(p: Pool, id: Id): Pool
    requires id in p.phases
  {
    match p.phases[id]
    case Waiting => In(p, id, Raised).(waiting := Dropped(p.waiting, id))
    case Granted(_) => In(p, id, Granted(true))
    case Holding(inner, aborted) =>
      if inner.Done() then In(p, id, Holding(inner, true)) else In(p, id, Holding(CancelRequested, aborted))
    case _ => p
  }

  /** Cancels whatever is active; waiting executions stay. */
  function DoShutdown(p: Pool): Pool {
    p.(phases := map id | id in p.phases :: if id in p.active then Doomed(p.phases[id]) else p.phases[id])
  }

  predicate CanHappen(p: Pool, e: Event) {
    match e
    case Execute(id) => id !in p.phases
    case Enter(id) => id in p.phases && p.phases[id].Granted?
    case HandlerReturns(id, _, _, _, _, _) => id in p.phases && p.phases[id].Holding? && p.phases[id].inner.Running?
    case HandlerRaises(id, _) => id in p.phases && p.phases[id].Holding? && p.phases[id].inner.Running?
    case HandlerCancelled(id) => id in p.phases && p.phases[id].Holding? && !p.phases[id].inner.Done()
    case Resume(id) => id in p.phases && p.phases[id].Holding? && p.phases[id].inner.Done()
    case Cancel(_) => true
    case Abort(id) => id in p.phases
    case Shutdown => true
  }

  function Next(p: Pool, e: Event): Pool
    requires CanHappen(p, e)
  {
    match e
    case Execute(id) => DoExecute(p, id)
    case Enter(id) => DoEnter(p, id)
    case HandlerReturns(id, agent, task, result, duration, timestamp) =>
      InnerEnds(p, id, Succeeded(Envelope(id, agent, task, result, duration, timestamp)))
    case HandlerRaises(id, message) => InnerEnds(p, id, Failed(message))
    case HandlerCancelled(id) => InnerEnds(p, id, Cancelled)
    case Resume(id) => DoResume(p, id)
    case Cancel(id) => DoCancel(p, id).0
    case Abort(id) => DoAbort(p, id)
    case Shutdown => DoShutdown(p)
  }

  predicate CanRun(p: Pool, events: seq<Event>)
    decreases |events|
  {
    events == [] || (CanHappen(p, events[0]) && CanRun(Next(p, events[0]), events[1..]))
  }

  function Run(p: Pool, events: seq<Event>): Pool
    requires CanRun(p, events)
    decreases |events|
  {
    if events == [] then p else Run(Next(p, events[0]), events[1..])
  }

  // ---------- The invariant ----------

  predicate HoldsPermit(phase: Phase) {
    phase.Granted? || phase.Holding?
  }

  function Holders(p: Pool): set<Id> {
    set id | id in p.phases && HoldsPermit(p.phases[id])
  }

  ghost predicate QueueOk(p: Pool) {
    && NoDuplicates(p.waiting)
    && (forall id :: id in p.waiting <==> id in p.phases && p.phases[id].Waiting?)
    && (p.waiting != [] ==> p.free == 0)
  }

  ghost predicate ActiveOk(p: Pool) {
    forall id :: id in p.active <==> id in p.phases && p.phases[id].Holding?
  }

  /** Exactly the executions that returned have a result, their own. */
  ghost predicate ResultsOk(p: Pool) {
    && (forall id :: id in p.results <==> id in p.phases && p.phases[id].Returned?)
    && (forall id :: id in p.results && p.results[id].Envelope? ==> p.results[id].execution == id)
    && (forall id :: id in p.phases && p.phases[id].Holding? && p.phases[id].inner.Succeeded? ==>
          p.phases[id].inner.value.Envelope? && p.phases[id].inner.value.execution == id)
  }

  ghost predicate PoolInv(p: Pool, maxConcurrent: nat) {
    p.free + |Holders(p)| == maxConcurrent && QueueOk(p) && ActiveOk(p) && ResultsOk(p)
  }

  lemma HoldersIn(p: Pool, id: Id, phase: Phase)
    ensures Holders(In(p, id, phase)) == if HoldsPermit(phase) then Holders(p) + {id} else Holders(p) - {id}
    ensures |Holders(In(p, id, phase))| == |Holders(p)|
              + (if HoldsPermit(phase) then 1 else 0) - (if id in p.phases && HoldsPermit(p.phases[id]) then 1 else 0)
  {
    assert id in Holders(p) <==> id in p.phases && HoldsPermit(p.phases[id]);
    if id in Holders(p) {
      assert Holders(p) + {id} == Holders(p);
    } else {
      assert Holders(p) - {id} == Holders(p);
    }
  }

  /** All of the invariant, but for one permit that is on its way back. */
  ghost predicate OneLoose(p: Pool, maxConcurrent: nat) {
    p.free + |Holders(p)| + 1 == maxConcurrent && QueueOk(p) && ActiveOk(p) && ResultsOk(p)
  }

  lemma ReleaseKeeps(p: Pool, maxConcurrent: nat)
    requires OneLoose(p, maxConcurrent)
    ensures PoolInv(Release(p), maxConcurrent)
  {
    if p.waiting == [] {
      assert Holders(Release(p)) == Holders(p);
    } else {
      var id := p.waiting[0];
      HoldersIn(p, id, Granted(false));
      assert Holders(Release(p)) == Holders(In(p, id, Granted(false)));
    }
  }

  /** One more in line. */
  lemma JoinKeepsQueue(p: Pool, id: Id)
    requires QueueOk(p) && id !in p.phases && p.free == 0
    ensures QueueOk(In(p, id, Waiting).(waiting := p.waiting + [id]))
  {
    assert id !in p.waiting;
  }

  lemma JoinKeepsRest(p: Pool, id: Id)
    requires ActiveOk(p) && ResultsOk(p) && id !in p.phases
    ensures var p' := In(p, id, Waiting).(waiting := p.waiting + [id]);
            ActiveOk(p') && ResultsOk(p') && Holders(p') == Holders(In(p, id, Waiting))
  {
  }

  lemma JoinKeeps(p: Pool, id: Id, maxConcurrent: nat)
    requires PoolInv(p, maxConcurrent) && id !in p.phases && p.free == 0
    ensures PoolInv(In(p, id, Waiting).(waiting := p.waiting + [id]), maxConcurrent)
  {
    JoinKeepsQueue(p, id);
    JoinKeepsRest(p, id);
    HoldersIn(p, id, Waiting);
  }

  lemma LaunchKeeps(p: Pool, id: Id)
    requires QueueOk(p) && ActiveOk(p) && ResultsOk(p)
    requires id in p.phases ==> p.phases[id].Granted?
    ensures var p' := Launch(p, id);
            QueueOk(p') && ActiveOk(p') && ResultsOk(p')
    ensures Holders(Launch(p, id)) == Holders(In(p, id, Holding(Inner.Running, false)))
  {
  }

  lemma TakePermitKeeps(p: Pool, id: Id, maxConcurrent: nat)
    requires PoolInv(p, maxConcurrent) && id !in p.phases && p.free > 0
    ensures PoolInv(Launch(p.(free := p.free - 1), id), maxConcurrent)
  {
    var p1 := p.(free := p.free - 1);
    assert Holders(p1) == Holders(p);
    LaunchKeeps(p1, id);
    HoldersIn(p1, id, Holding(Inner.Running, false));
  }

  lemma ExecuteKeeps(p: Pool, id: Id, maxConcurrent: nat)
    requires PoolInv(p, maxConcurrent) && id !in p.phases
    ensures PoolInv(DoExecute(p, id), maxConcurrent)
  {
    if p.free > 0 && p.waiting == [] {
      TakePermitKeeps(p, id, maxConcurrent);
    } else {
      JoinKeeps(p, id, maxConcurrent);
    }
  }

  lemma EnterKeeps(p: Pool, id: Id, maxConcurrent: nat)
    requires PoolInv(p, maxConcurrent) && id in p.phases && p.phases[id].Granted?
    ensures PoolInv(DoEnter(p, id), maxConcurrent)
  {
    if p.phases[id].aborted {
      HoldersIn(p, id, Raised);
      ReleaseKeeps(In(p, id, Raised), maxConcurrent);
    } else {
      LaunchKeeps(p, id);
      HoldersIn(p, id, Holding(Inner.Running, false));
    }
  }

  /** A holder stays one. */
  lemma HoldingOnKeeps(p: Pool, id: Id, phase: Phase, maxConcurrent: nat)
    requires PoolInv(p, maxConcurrent) && id in p.phases && HoldsPermit(p.phases[id])
    requires phase.Holding? == p.phases[id].Holding? && phase.Granted? == p.phases[id].Granted?
    requires phase.Holding? && phase.inner.Succeeded? ==>
             phase.inner.value.Envelope? && phase.inner.value.execution == id
    ensures PoolInv(In(p, id, phase), maxConcurrent)
  {
    HoldersIn(p, id, phase);
  }

  lemma ResumeKeeps(p: Pool, id: Id, maxConcurrent: nat)
    requires PoolInv(p, maxConcurrent) && id in p.phases && p.phases[id].Holding? && p.phases[id].inner.Done()
    ensures PoolInv(DoResume(p, id), maxConcurrent)
  {
    var Holding(inner, aborted) := p.phases[id];
    var p1 := p.(active := p.active - {id});
    assert Holders(p1) == Holders(p);
    if aborted || inner.Cancelled? {
      HoldersIn(p1, id, Raised);
      ReleaseKeeps(In(p1, id, Raised), maxConcurrent);
    } else {
      HoldersIn(p1, id, Returned);
      var p2 := In(p1, id, Returned).(results := p.results[id := EntryOf(inner)]);
      assert Holders(p2) == Holders(In(p1, id, Returned));
      ReleaseKeeps(p2, maxConcurrent);
    }
  }

  lemma AbortKeeps(p: Pool, id: Id, maxConcurrent: nat)
    requires PoolInv(p, maxConcurrent) && id in p.phases
    ensures PoolInv(DoAbort(p, id), maxConcurrent)
  {
    match p.phases[id]
    case Waiting =>
      HoldersIn(p, id, Raised);
      assert Holders(DoAbort(p, id)) == Holders(In(p, id, Raised));
      DroppedKeepsDistinct(p.waiting, id);
    case Granted(_) => HoldingOnKeeps(p, id, Granted(true), maxConcurrent);
    case Holding(inner, aborted) =>
      HoldingOnKeeps(p, id, if inner.Done() then Holding(inner, true) else Holding(CancelRequested, aborted),
          maxConcurrent);
    case _ =>
  }

  lemma ShutdownKeeps(p: Pool, maxConcurrent: nat)
    requires PoolInv(p, maxConcurrent)
    ensures PoolInv(DoShutdown(p), maxConcurrent)
  {
    assert Holders(DoShutdown(p)) == Holders(p);
  }

  lemma NextKeeps(p: Pool, e: Event, maxConcurrent: nat)
    requires PoolInv(p, maxConcurrent) && CanHappen(p, e)
    ensures PoolInv(Next(p, e), maxConcurrent)
  {
    match e
    case Execute(id) => ExecuteKeeps(p, id, maxConcurrent);
    case Enter(id) => EnterKeeps(p, id, maxConcurrent);
    case HandlerReturns(id, agent, task, result, duration, timestamp) =>
      HoldingOnKeeps(p, id, p.phases[id].(inner := Succeeded(Envelope(id, agent, task, result, duration, timestamp))),
          maxConcurrent);
    case HandlerRaises(id, message) => HoldingOnKeeps(p, id, p.phases[id].(inner := Failed(message)), maxConcurrent);
    case HandlerCancelled(id) => HoldingOnKeeps(p, id, p.phases[id].(inner := Cancelled), maxConcurrent);
    case Resume(id) => ResumeKeeps(p, id, maxConcurrent);
    case Cancel(id) =>
      if Cancellable(p, id) {
        HoldingOnKeeps(p, id, Doomed(p.phases[id]), maxConcurrent);
      }
    case Abort(id) => AbortKeeps(p, id, maxConcurrent);
    case Shutdown => ShutdownKeeps(p, maxConcurrent);
  }

  /** In every reachable state free permits and holders add up to the limit. */
  lemma {:induction false} RunKeeps(p: Pool, events: seq<Event>, maxConcurrent: nat)
    requires PoolInv(p, maxConcurrent) && CanRun(p, events)
    ensures PoolInv(Run(p, events), maxConcurrent)
    decreases |events|
  {
    if events != [] {
      NextKeeps(p, events[0], maxConcurrent);
      RunKeeps(Next(p, events[0]), events[1..], maxConcurrent);
    }
  }

  // ---------- What callers can rely on ----------

  /** Over any run of a new executor: permits are conserved, no more than `maxConcurrent` executions are
      active, all of them holders; nobody waits while a permit is free; and exactly the executions that
      returned normally have a stored result. */
  lemma ConcurrencyBound(maxConcurrent: nat, events: seq<Event>)
    requires CanRun(NewPool(maxConcurrent), events)
    ensures var p := Run(NewPool(maxConcurrent), events);
            && p.free + |Holders(p)| == maxConcurrent
            && p.active <= Holders(p) && |p.active| <= maxConcurrent
            && (p.waiting != [] ==> |Holders(p)| == maxConcurrent)
            && (forall id :: id in p.results <==> id in p.phases && p.phases[id].Returned?)
  {
    assert Holders(NewPool(maxConcurrent)) == {};
    RunKeeps(NewPool(maxConcurrent), events, maxConcurrent);
    var p := Run(NewPool(maxConcurrent), events);
    SubsetIsSmaller(p.active, Holders(p));
  }

  lemma {:induction false} SubsetIsSmaller(a: set<Id>, b: set<Id>)
    requires a <= b
    ensures |a| <= |b|
    decreases a
  {
    if x :| x in a {
      SubsetIsSmaller(a - {x}, b - {x});
    }
  }

  /** Cancelled for good: the inner task ends cancelled and `execute` raises. */
  predicate Condemned(phase: Phase) {
    phase.Raised? || (phase.Holding? && (phase.inner.CancelRequested? || phase.inner.Cancelled?))
  }

  lemma ReleaseTouchesWaiters(p: Pool, id: Id)
    requires QueueOk(p) && id in p.phases && !p.phases[id].Waiting?
    ensures id in Release(p).phases && Release(p).phases[id] == p.phases[id]
  {
    if p.waiting != [] {
      assert p.waiting[0] in p.waiting;
    }
  }

  lemma ResumeLeavesCondemned(p: Pool, maxConcurrent: nat, other: Id, id: Id)
    requires PoolInv(p, maxConcurrent) && id in p.phases && Condemned(p.phases[id])
    requires other in p.phases && p.phases[other].Holding? && p.phases[other].inner.Done()
    ensures id in DoResume(p, other).phases && Condemned(DoResume(p, other).phases[id])
  {
  }

  lemma NextKeepsCondemned(p: Pool, e: Event, maxConcurrent: nat, id: Id)
    requires PoolInv(p, maxConcurrent) && CanHappen(p, e) && id in p.phases && Condemned(p.phases[id])
    ensures id in Next(p, e).phases && Condemned(Next(p, e).phases[id])
  {
    match e
    case Enter(other) =>
      if p.phases[other].aborted {
        ReleaseTouchesWaiters(In(p, other, Raised), id);
      }
    case Resume(other) => ResumeLeavesCondemned(p, maxConcurrent, other, id);
    case _ =>
  }

  lemma {:induction false} RunKeepsCondemned(p: Pool, events: seq<Event>, maxConcurrent: nat, id: Id)
    requires PoolInv(p, maxConcurrent) && CanRun(p, events) && id in p.phases && Condemned(p.phases[id])
    ensures PoolInv(Run(p, events), maxConcurrent)
    ensures id in Run(p, events).phases && Condemned(Run(p, events).phases[id])
    decreases |events|
  {
    if events != [] {
      NextKeeps(p, events[0], maxConcurrent);
      NextKeepsCondemned(p, events[0], maxConcurrent, id);
      RunKeepsCondemned(Next(p, events[0]), events[1..], maxConcurrent, id);
    }
  }

  /** An execution that `cancel` cancelled never stores a result, whatever happens after; it is active only
      until it has raised, and then it holds no permit. */
  lemma CancelledNeverReturns(p: Pool, maxConcurrent: nat, id: Id, events: seq<Event>)
    requires PoolInv(p, maxConcurrent) && DoCancel(p, id).1 && CanRun(DoCancel(p, id).0, events)
    ensures var p' := Run(DoCancel(p, id).0, events);
            && PoolInv(p', maxConcurrent)
            && id in p'.phases && id !in p'.results
            && (p'.phases[id].Raised? ==> id !in p'.active && id !in Holders(p'))
            && (!p'.phases[id].Raised? ==> id in p'.active && id in Holders(p'))
  {
    NextKeeps(p, Cancel(id), maxConcurrent);
    RunKeepsCondemned(DoCancel(p, id).0, events, maxConcurrent, id);
  }

  /** `cancel` says True, and asks the inner task to stop, exactly for an active execution whose handler has not
      come to an end; asked again it says so again. */
  lemma CancelIff(p: Pool, maxConcurrent: nat, id: Id)
    requires PoolInv(p, maxConcurrent)
    ensures var (p', cancelled) := DoCancel(p, id);
            && (cancelled <==> id in p.active && (p.phases[id].inner.Running? || p.phases[id].inner.CancelRequested?))
            && p' == if cancelled then p.(phases := p.phases[id := p.phases[id].(inner := CancelRequested)]) else p
  {
  }

  /** So a call of `cancel` while the handler runs is the end of it: whatever happens after, no result is stored. */
  lemma CancelStops(p: Pool, maxConcurrent: nat, id: Id, events: seq<Event>)
    requires PoolInv(p, maxConcurrent) && id in p.active && !p.phases[id].inner.Done()
    requires CanRun(Next(p, Cancel(id)), events)
    ensures id !in Run(Next(p, Cancel(id)), events).results
  {
    CancelIff(p, maxConcurrent, id);
    CancelledNeverReturns(p, maxConcurrent, id, events);
  }

  /** Once its inner task is done, the next block of a cancelled execution hands its permit on: to the
      first waiter, or back to the semaphore. */
  lemma CancelGivesPermitBack(p: Pool, maxConcurrent: nat, id: Id)
    requires PoolInv(p, maxConcurrent) && id in p.phases && p.phases[id].Holding? && p.phases[id].inner.Cancelled?
    ensures var p' := DoResume(p, id);
            && p'.phases[id].Raised? && id !in p'.active && id !in p'.results
            && (if p.waiting == [] then p'.free == p.free + 1 && p'.waiting == []
                else p'.waiting == p.waiting[1..] && p'.phases[p.waiting[0]] == Granted(false) && p'.free == p.free)
  {
  }

  /** After `shutdown`, whatever was still running is cancelled for good; what was waiting goes on waiting. */
  lemma ShutdownCancelsActive(p: Pool, maxConcurrent: nat, events: seq<Event>, id: Id)
    requires PoolInv(p, maxConcurrent) && id in p.active && !p.phases[id].inner.Done()
    requires CanRun(DoShutdown(p), events)
    ensures id !in Run(DoShutdown(p), events).results
    ensures DoShutdown(p).waiting == p.waiting
  {
    NextKeeps(p, Shutdown, maxConcurrent);
    RunKeepsCondemned(DoShutdown(p), events, maxConcurrent, id);
  }

  // ---------- Callers that give up ----------

  /** The call will raise: it has, or it will when it goes on. */
  predicate GaveUp(phase: Phase) {
    || Condemned(phase) || phase == Granted(true)
    || (phase.Holding? && phase.aborted)
  }

  lemma AbortGivesUp(p: Pool, id: Id)
    requires id in p.phases && !p.phases[id].Returned?
    ensures CanHappen(p, Abort(id)) && id in Next(p, Abort(id)).phases && GaveUp(Next(p, Abort(id)).phases[id])
  {
  }

  lemma NextKeepsGaveUp(p: Pool, e: Event, maxConcurrent: nat, id: Id)
    requires PoolInv(p, maxConcurrent) && CanHappen(p, e) && id in p.phases && GaveUp(p.phases[id])
    ensures id in Next(p, e).phases && GaveUp(Next(p, e).phases[id])
  {
    match e
    case Enter(other) =>
      if p.phases[other].aborted {
        ReleaseTouchesWaiters(In(p, other, Raised), id);
      }
    case Resume(other) => ResumeLeavesGaveUp(p, maxConcurrent, other, id);
    case _ =>
  }

  lemma ResumeLeavesGaveUp(p: Pool, maxConcurrent: nat, other: Id, id: Id)
    requires PoolInv(p, maxConcurrent) && id in p.phases && GaveUp(p.phases[id])
    requires other in p.phases && p.phases[other].Holding? && p.phases[other].inner.Done()
    ensures id in DoResume(p, other).phases && GaveUp(DoResume(p, other).phases[id])
  {
  }

  lemma {:induction false} RunKeepsGaveUp(p: Pool, events: seq<Event>, maxConcurrent: nat, id: Id)
    requires PoolInv(p, maxConcurrent) && CanRun(p, events) && id in p.phases && GaveUp(p.phases[id])
    ensures PoolInv(Run(p, events), maxConcurrent)
    ensures id in Run(p, events).phases && GaveUp(Run(p, events).phases[id])
    decreases |events|
  {
    if events != [] {
      NextKeeps(p, events[0], maxConcurrent);
      NextKeepsGaveUp(p, events[0], maxConcurrent, id);
      RunKeepsGaveUp(Next(p, events[0]), events[1..], maxConcurrent, id);
    }
  }

  /** A call of `execute` can be cancelled at any await. Unless it has returned already it never stores a
      result then, and it no longer waits for a permit. */
  lemma AbortedNeverReturns(p: Pool, maxConcurrent: nat, id: Id, events: seq<Event>)
    requires PoolInv(p, maxConcurrent) && id in p.phases && !p.phases[id].Returned?
    ensures CanHappen(p, Abort(id)) && id !in Next(p, Abort(id)).waiting
    ensures CanRun(Next(p, Abort(id)), events) ==> id !in Run(Next(p, Abort(id)), events).results
  {
    NextKeeps(p, Abort(id), maxConcurrent);
    AbortGivesUp(p, id);
    if CanRun(Next(p, Abort(id)), events) {
      RunKeepsGaveUp(Next(p, Abort(id)), events, maxConcurrent, id);
    }
  }

  // ---------- First come, first served ----------

  /** Both wait, `a` before `b`. */
  ghost predicate Ahead(waiting: seq<Id>, a: Id, b: Id) {
    exists i, j :: 0 <= i < j < |waiting| && waiting[i] == a && waiting[j] == b
  }

  /** A call that finds no free permit waits behind all that wait. */
  lemma ExecuteJoins(p: Pool, maxConcurrent: nat, id: Id)
    requires PoolInv(p, maxConcurrent) && id !in p.phases
    ensures var p' := Next(p, Execute(id));
            if p.free > 0
              then p'.phases[id] == Holding(Inner.Running, false) && id in p'.active && p'.free == p.free - 1
            else id in p'.waiting && forall x :: x in p.waiting ==> Ahead(p'.waiting, x, id)
  {
    if p.free == 0 {
      var waiting := p.waiting + [id];
      forall x | x in p.waiting
        ensures Ahead(waiting, x, id)
      {
        var i :| 0 <= i < |p.waiting| && p.waiting[i] == x;
        assert waiting[i] == x && waiting[|p.waiting|] == id;
      }
    }
  }

  lemma {:induction false} DroppedKeepsAhead(waiting: seq<Id>, x: Id, a: Id, b: Id)
    requires Ahead(waiting, a, b) && x != a && x != b
    ensures Ahead(Dropped(waiting, x), a, b)
  {
    var i, j :| 0 <= i < j < |waiting| && waiting[i] == a && waiting[j] == b;
    var rest := Dropped(waiting[1..], x);
    if i > 0 {
      assert waiting[1..][i - 1] == a && waiting[1..][j - 1] == b;
      DroppedKeepsAhead(waiting[1..], x, a, b);
      var k, l :| 0 <= k < l < |rest| && rest[k] == a && rest[l] == b;
      assert waiting[0] != x ==> ([waiting[0]] + rest)[k + 1] == a && ([waiting[0]] + rest)[l + 1] == b;
    } else {
      assert waiting[1..][j - 1] == b && b in rest;
      var l :| 0 <= l < |rest| && rest[l] == b;
      assert ([a] + rest)[0] == a && ([a] + rest)[l + 1] == b;
    }
  }

  lemma FirstLeaves(waiting: seq<Id>, a: Id, b: Id)
    requires NoDuplicates(waiting) && Ahead(waiting, a, b)
    ensures a in waiting[1..] ==> Ahead(waiting[1..], a, b)
  {
    var i, j :| 0 <= i < j < |waiting| && waiting[i] == a && waiting[j] == b;
    if i > 0 {
      assert waiting[1..][i - 1] == a && waiting[1..][j - 1] == b;
    }
  }

  lemma JoinKeepsAhead(waiting: seq<Id>, x: Id, a: Id, b: Id)
    requires Ahead(waiting, a, b)
    ensures Ahead(waiting + [x], a, b)
  {
    var i, j :| 0 <= i < j < |waiting| && waiting[i] == a && waiting[j] == b;
    assert (waiting + [x])[i] == a && (waiting + [x])[j] == b;
  }

  /** What an event does to the line: one more at its end, the first out of it, or one that gives up. */
  lemma LineChanges(p: Pool, e: Event)
    requires CanHappen(p, e)
    ensures var line, line' := p.waiting, Next(p, e).waiting;
            || line' == line
            || (e.Execute? && line' == line + [e.id])
            || (!e.Execute? && !e.Abort? && line != [] && line' == line[1..])
            || (e.Abort? && line' == Dropped(line, e.id))
  {
  }

  lemma NextKeepsAhead(p: Pool, e: Event, maxConcurrent: nat, a: Id, b: Id)
    requires PoolInv(p, maxConcurrent) && CanHappen(p, e) && Ahead(p.waiting, a, b) && e != Abort(b)
    ensures a in Next(p, e).waiting ==> Ahead(Next(p, e).waiting, a, b)
  {
    LineChanges(p, e);
    FirstLeaves(p.waiting, a, b);
    if e.Execute? {
      JoinKeepsAhead(p.waiting, e.id, a, b);
    } else if e.Abort? && e.id != a {
      DroppedKeepsAhead(p.waiting, e.id, a, b);
    }
  }

  /** Whoever has left the line does not wait again. */
  lemma NextKeepsOut(p: Pool, e: Event, maxConcurrent: nat, a: Id)
    requires PoolInv(p, maxConcurrent) && CanHappen(p, e) && a in p.phases && a !in p.waiting
    ensures a in Next(p, e).phases && a !in Next(p, e).waiting
  {
    LineChanges(p, e);
  }

  lemma {:induction false} RunKeepsOut(p: Pool, events: seq<Event>, maxConcurrent: nat, a: Id)
    requires PoolInv(p, maxConcurrent) && CanRun(p, events) && a in p.phases && a !in p.waiting
    ensures a !in Run(p, events).waiting
    decreases |events|
  {
    if events != [] {
      NextKeeps(p, events[0], maxConcurrent);
      NextKeepsOut(p, events[0], maxConcurrent, a);
      RunKeepsOut(Next(p, events[0]), events[1..], maxConcurrent, a);
    }
  }

  /** First come, first served, over any run: as long as a call waits, those that came after it go on waiting
      behind it, unless their callers give up. */
  lemma {:induction false} ServedInOrder(p: Pool, events: seq<Event>, maxConcurrent: nat, a: Id, b: Id)
    requires PoolInv(p, maxConcurrent) && CanRun(p, events) && Ahead(p.waiting, a, b)
    requires Abort(b) !in events
    ensures a in Run(p, events).waiting ==> Ahead(Run(p, events).waiting, a, b)
    decreases |events|
  {
    if events != [] {
      assert a in p.waiting && events[0] in events && events == [events[0]] + events[1..];
      NextKeeps(p, events[0], maxConcurrent);
      NextKeepsAhead(p, events[0], maxConcurrent, a, b);
      if a in Next(p, events[0]).waiting {
        ServedInOrder(Next(p, events[0]), events[1..], maxConcurrent, a, b);
      } else {
        NextKeepsPhase(p, events[0], a);
        RunKeepsOut(Next(p, events[0]), events[1..], maxConcurrent, a);
      }
    }
  }

  lemma NextKeepsPhase(p: Pool, e: Event, id: Id)
    requires CanHappen(p, e) && id in p.phases
    ensures id in Next(p, e).phases
  {
  }

  // ---------- What a stored result is ----------

  /** The entry for what the handler of the execution comes to in this event: what it returns, in its
      envelope, or the text of what it raises. */
  function Ending(e: Event, id: Id): Option<Entry> {
    match e
    case HandlerReturns(x, agent, task, result, duration, timestamp) =>
      if x == id then Some(Envelope(id, agent, task, result, duration, timestamp)) else None
    case HandlerRaises(x, message) => if x == id then Some(ErrorEntry(message)) else None
    case _ => None
  }

  /** The same over a run: a handler comes to an end once. */
  function Outcome(events: seq<Event>, id: Id): Option<Entry> {
    if events == [] then None
    else if Ending(events[0], id).Some? then Ending(events[0], id)
    else Outcome(events[1..], id)
  }

  /** The pool has of the execution what its handler came to, nothing as long as it has not. */
  predicate Remembers(p: Pool, id: Id, o: Option<Entry>) {
    if id !in p.phases then o.None?
    else
      match p.phases[id]
      case Holding(inner, _) => o == if inner.Succeeded? || inner.Failed? then Some(EntryOf(inner)) else None
      case Returned => id in p.results && o == Some(p.results[id])
      case Raised => true
      case _ => o.None?
  }

  lemma ReleaseRemembers(p: Pool, id: Id, o: Option<Entry>)
    requires Remembers(p, id, o) && forall x :: x in p.waiting ==> x in p.phases && p.phases[x].Waiting?
    ensures Remembers(Release(p), id, o)
  {
    if p.waiting != [] {
      assert p.waiting[0] in p.waiting;
    }
  }

  lemma ResumeRemembers(p: Pool, other: Id, maxConcurrent: nat, id: Id, o: Option<Entry>)
    requires PoolInv(p, maxConcurrent) && Remembers(p, id, o)
    requires other in p.phases && p.phases[other].Holding? && p.phases[other].inner.Done()
    ensures Remembers(DoResume(p, other), id, o)
  {
    var Holding(inner, aborted) := p.phases[other];
    var p1 := p.(active := p.active - {other});
    if aborted || inner.Cancelled? {
      ReleaseRemembers(In(p1, other, Raised), id, o);
    } else {
      ReleaseRemembers(In(p1, other, Returned).(results := p.results[other := EntryOf(inner)]), id, o);
    }
  }

  lemma EnterRemembers(p: Pool, other: Id, maxConcurrent: nat, id: Id, o: Option<Entry>)
    requires PoolInv(p, maxConcurrent) && Remembers(p, id, o) && other in p.phases && p.phases[other].Granted?
    ensures Remembers(DoEnter(p, other), id, o)
  {
    if p.phases[other].aborted {
      ReleaseRemembers(In(p, other, Raised), id, o);
    }
  }

  lemma NextRemembers(p: Pool, e: Event, maxConcurrent: nat, id: Id, o: Option<Entry>)
    requires PoolInv(p, maxConcurrent) && CanHappen(p, e) && Remembers(p, id, o)
    ensures Remembers(Next(p, e), id, if o.Some? then o else Ending(e, id))
  {
    match e
    case Enter(other) => EnterRemembers(p, other, maxConcurrent, id, o);
    case Resume(other) => ResumeRemembers(p, other, maxConcurrent, id, o);
    case _ =>
  }

  lemma {:induction false} RunRemembers(p: Pool, events: seq<Event>, maxConcurrent: nat, id: Id, o: Option<Entry>)
    requires PoolInv(p, maxConcurrent) && CanRun(p, events) && Remembers(p, id, o)
    ensures Remembers(Run(p, events), id, if o.Some? then o else Outcome(events, id))
    decreases |events|
  {
    if events != [] {
      NextRemembers(p, events[0], maxConcurrent, id, o);
      NextKeeps(p, events[0], maxConcurrent);
      RunRemembers(Next(p, events[0]), events[1..], maxConcurrent, id, if o.Some? then o else Ending(events[0], id));
    }
  }

  /** Over any run of a new executor exactly the executions that returned have a result, and it is what
      their own handler came to. */
  lemma ResultsAreOutcomes(maxConcurrent: nat, events: seq<Event>, id: Id)
    requires CanRun(NewPool(maxConcurrent), events)
    ensures var p := Run(NewPool(maxConcurrent), events);
            && (id in p.results <==> id in p.phases && p.phases[id].Returned?)
            && (id in p.results ==> Outcome(events, id) == Some(p.results[id]))
  {
    assert Holders(NewPool(maxConcurrent)) == {};
    RunKeeps(NewPool(maxConcurrent), events, maxConcurrent);
    RunRemembers(NewPool(maxConcurrent), events, maxConcurrent, id, None);
  }

  /** A stored result never changes. */
  lemma {:induction false} ResultsAreFinal(p: Pool, events: seq<Event>, maxConcurrent: nat, id: Id)
    requires PoolInv(p, maxConcurrent) && CanRun(p, events) && id in p.results
    ensures id in Run(p, events).results && Run(p, events).results[id] == p.results[id]
    decreases |events|
  {
    if events != [] {
      NextKeeps(p, events[0], maxConcurrent);
      NextKeepsResult(p, events[0], maxConcurrent, id);
      ResultsAreFinal(Next(p, events[0]), events[1..], maxConcurrent, id);
    }
  }

  lemma NextKeepsResult(p: Pool, e: Event, maxConcurrent: nat, id: Id)
    requires PoolInv(p, maxConcurrent) && CanHappen(p, e) && id in p.results
    ensures id in Next(p, e).results && Next(p, e).results[id] == p.results[id]
  {
  }

  // ---------- What can still start after a shutdown ----------

  predicate IsRunning(phase: Phase) {
    phase.Holding? && phase.inner.Running?
  }

  predicate SomeRunning(p: Pool) {
    exists id :: id in p.phases && IsRunning(p.phases[id])
  }

  predicate SomeGranted(p: Pool) {
    exists id :: id in p.phases && p.phases[id] == Granted(false)
  }

  predicate NoneExecutes(events: seq<Event>) {
    forall e :: e in events ==> !e.Execute?
  }

  /** Some run from here without new executions launches a handler. Right after a shutdown no handler is
      running, so one that runs later was launched in between. */
  ghost predicate CanLaunch(p: Pool) {
    exists events :: NoneExecutes(events) && CanRun(p, events) && SomeRunning(Run(p, events))
  }

  lemma ShutdownStopsAll(p: Pool, maxConcurrent: nat)
    requires PoolInv(p, maxConcurrent)
    ensures !SomeRunning(DoShutdown(p))
  {
  }

  lemma Prepend(p: Pool, e: Event, events: seq<Event>)
    requires CanHappen(p, e) && CanRun(Next(p, e), events) && !e.Execute? && NoneExecutes(events)
    ensures CanRun(p, [e] + events) && Run(p, [e] + events) == Run(Next(p, e), events) && NoneExecutes([e] + events)
  {
    assert ([e] + events)[1..] == events;
  }

  /** What can launch a handler after one more event can launch one. */
  lemma LaunchesLater(p: Pool, e: Event)
    requires CanHappen(p, e) && !e.Execute? && CanLaunch(Next(p, e))
    ensures CanLaunch(p)
  {
    var events :| NoneExecutes(events) && CanRun(Next(p, e), events) && SomeRunning(Run(Next(p, e), events));
    Prepend(p, e, events);
  }

  lemma GrantedLaunches(p: Pool, id: Id)
    requires id in p.phases && p.phases[id] == Granted(false)
    ensures CanLaunch(p)
  {
    var p' := DoEnter(p, id);
    assert p'.phases[id] == Holding(Inner.Running, false) && SomeRunning(p');
    assert Run(p', []) == p' && NoneExecutes([]);
    LaunchesLater(p, Enter(id));
  }

  /** A permit that comes back while someone waits is granted. */
  lemma ReleaseGrants(p: Pool)
    requires p.waiting != []
    ensures CanLaunch(Release(p))
  {
    GrantedLaunches(Release(p), p.waiting[0]);
  }

  lemma ResumeLaunches(p: Pool, id: Id)
    requires id in p.phases && p.phases[id].Holding? && p.phases[id].inner.Done() && p.waiting != []
    ensures CanLaunch(p)
  {
    GrantedLaunches(DoResume(p, id), p.waiting[0]);
    LaunchesLater(p, Resume(id));
  }

  /** While someone waits, whoever holds a permit can hand it on. */
  lemma HolderHandsOn(p: Pool, id: Id)
    requires id in p.phases && HoldsPermit(p.phases[id]) && p.waiting != []
    ensures CanLaunch(p)
  {
    match p.phases[id]
    case Granted(aborted) =>
      if aborted {
        ReleaseGrants(In(p, id, Raised));
        LaunchesLater(p, Enter(id));
      } else {
        GrantedLaunches(p, id);
      }
    case Holding(inner, _) =>
      if inner.Done() {
        ResumeLaunches(p, id);
      } else {
        ResumeLaunches(InnerEnds(p, id, Cancelled), id);
        LaunchesLater(p, HandlerCancelled(id));
      }
  }

  /** Nothing runs, nothing is about to, and nobody will be granted a permit. */
  ghost predicate Dormant(p: Pool, maxConcurrent: nat) {
    PoolInv(p, maxConcurrent) && !SomeRunning(p) && !SomeGranted(p) && (p.waiting == [] || maxConcurrent == 0)
  }

  lemma NoHolders(p: Pool, id: Id)
    requires PoolInv(p, 0)
    ensures id in p.phases ==> !HoldsPermit(p.phases[id])
  {
    assert Holders(p) == {};
    assert id !in Holders(p);
  }

  lemma NextKeepsDormant(p: Pool, e: Event, maxConcurrent: nat)
    requires Dormant(p, maxConcurrent) && CanHappen(p, e) && !e.Execute?
    ensures Dormant(Next(p, e), maxConcurrent)
  {
    NextKeeps(p, e, maxConcurrent);
    if maxConcurrent == 0 {
      forall id | id in Next(p, e).phases
        ensures !HoldsPermit(Next(p, e).phases[id])
      {
        NoHolders(Next(p, e), id);
      }
    }
  }

  lemma {:induction false} RunKeepsDormant(p: Pool, events: seq<Event>, maxConcurrent: nat)
    requires Dormant(p, maxConcurrent) && CanRun(p, events) && NoneExecutes(events)
    ensures Dormant(Run(p, events), maxConcurrent)
    decreases |events|
  {
    if events != [] {
      assert !events[0].Execute?;
      NextKeepsDormant(p, events[0], maxConcurrent);
      RunKeepsDormant(Next(p, events[0]), events[1..], maxConcurrent);
    }
  }

  lemma ShutdownKeepsGrants(p: Pool, maxConcurrent: nat)
    requires PoolInv(p, maxConcurrent)
    ensures SomeGranted(DoShutdown(p)) <==> SomeGranted(p)
  {
    if id :| id in p.phases && p.phases[id] == Granted(false) {
      assert DoShutdown(p).phases[id] == Granted(false);
    }
  }

  lemma SomeHolder(p: Pool, maxConcurrent: nat) returns (id: Id)
    requires PoolInv(p, maxConcurrent) && p.waiting != [] && maxConcurrent > 0
    ensures id in p.phases && HoldsPermit(p.phases[id])
  {
    assert |Holders(p)| > 0;
    id :| id in Holders(p);
  }

  /** The exact condition: after a shutdown a handler can still start without a new call of `execute`, if
      and only if some execution had been granted a permit already, or some waits and there are permits. */
  lemma StartsAfterShutdownIff(p: Pool, maxConcurrent: nat)
    requires PoolInv(p, maxConcurrent)
    ensures CanLaunch(DoShutdown(p)) <==> SomeGranted(p) || (p.waiting != [] && maxConcurrent > 0)
  {
    var p' := DoShutdown(p);
    NextKeeps(p, Shutdown, maxConcurrent);
    ShutdownStopsAll(p, maxConcurrent);
    ShutdownKeepsGrants(p, maxConcurrent);
    if SomeGranted(p') {
      var id :| id in p'.phases && p'.phases[id] == Granted(false);
      GrantedLaunches(p', id);
    } else if p.waiting != [] && maxConcurrent > 0 {
      var id := SomeHolder(p', maxConcurrent);
      HolderHandsOn(p', id);
    } else if CanLaunch(p') {
      var events :| NoneExecutes(events) && CanRun(p', events) && SomeRunning(Run(p', events));
      RunKeepsDormant(p', events, maxConcurrent);
    }
  }
}
