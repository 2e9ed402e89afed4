/** Where a task can be, what never changes about it, and what a crash leaves of it. */
module CrashSafety {
  import opened Prelude
  import opened Records
  import opened StableQueue
  import opened Scheduling
  import opened TaskQueues
  import opened Lifecycle
  import opened TaskInvariant
  import opened LifecycleInvariant

  /** The task is in its own queue exactly once, and in no other queue. */
  ghost predicate WaitsOnce(s: System, id: TaskId)
    requires id in s.tasks
  {
    && HoldsOnce(QueueOf(s.scheduler.queues, s.tasks[id].queue), id)
    && forall q :: q in s.scheduler.queues && q != s.tasks[id].queue ==> id !in TaskIds(s.scheduler.queues[q])
  }

  ghost predicate InNoQueue(s: System, id: TaskId) {
    forall q :: q in s.scheduler.queues ==> id !in TaskIds(s.scheduler.queues[q])
  }

  ghost predicate HasNoRun(s: System, id: TaskId) {
    forall k :: k in s.runs ==> s.runs[k].task.id != id
  }

  /** The task is in flight, with exactly one execution. */
  ghost predicate FliesOnce(s: System, id: TaskId) {
    && id in s.scheduler.inFlight
    && exists k :: k in s.runs && s.runs[k].task.id == id
                   && forall j :: j in s.runs && s.runs[j].task.id == id ==> j == k
  }

  ghost predicate InOnePlace(s: System, id: TaskId)
    requires id in s.tasks
  {
    var status := s.tasks[id].status;
    if status.Terminal() then InNoQueue(s, id) && id !in s.scheduler.inFlight && HasNoRun(s, id)
    else if status.Running? then InNoQueue(s, id) && FliesOnce(s, id)
    else if id in s.scheduler.inFlight then InNoQueue(s, id) && FliesOnce(s, id)
    else WaitsOnce(s, id) && HasNoRun(s, id)
  }

  lemma QueuedElsewhere(ts: TaskSide, q: string, id: TaskId)
    requires Inv(ts) && q in ts.scheduler.queues && id in TaskIds(ts.scheduler.queues[q])
    ensures id in ts.tasks && ts.tasks[id].queue == q && Waits(ts.tasks[id]) && id !in ts.scheduler.inFlight
  {
    var e :| e in ts.scheduler.queues[q] && e.item.id == id;
    assert EntryOk(ts, q, e);
  }

  lemma NotQueued(s: System, id: TaskId)
    requires SystemInv(s) && id in s.tasks && (id in s.scheduler.inFlight || !Waits(s.tasks[id]))
    ensures InNoQueue(s, id)
  {
    forall q | q in s.scheduler.queues
      ensures id !in TaskIds(s.scheduler.queues[q])
    {
      if id in TaskIds(s.scheduler.queues[q]) {
        QueuedElsewhere(TaskSideOf(s), q, id);
      }
    }
  }

  lemma NotRunning(s: System, id: TaskId)
    requires SystemInv(s) && id !in s.scheduler.inFlight
    ensures HasNoRun(s, id)
  {
    forall k | k in s.runs
      ensures s.runs[k].task.id != id
    {
      RunFacts(TaskSideOf(s), k);
    }
  }

  lemma Flying(s: System, id: TaskId)
    requires SystemInv(s) && id in s.tasks && id in s.scheduler.inFlight
    ensures FliesOnce(s, id) && !s.tasks[id].status.Terminal()
  {
    var ts := TaskSideOf(s);
    assert FlyingOk(ts, id, ts.scheduler.inFlight[id]) && LiveOk(ts, id);
    NotQueued(s, id);
    assert HasRun(ts, id);
    var k :| k in ts.runs && ts.runs[k].task.id == id;
    assert k in s.runs && s.runs[k].task.id == id;
  }

  lemma WaitingInPlace(s: System, id: TaskId)
    requires SystemInv(s) && id in s.tasks && id !in s.scheduler.inFlight && !s.tasks[id].status.Terminal()
    ensures WaitsOnce(s, id) && Waits(s.tasks[id])
  {
    var ts := TaskSideOf(s);
    assert LiveOk(ts, id) && InQueue(ts, id);
    QueuedElsewhere(ts, s.tasks[id].queue, id);
    DistinctHoldsOnce(s.scheduler.queues[s.tasks[id].queue], id);
    forall q | q in s.scheduler.queues && q != s.tasks[id].queue
      ensures id !in TaskIds(s.scheduler.queues[q])
    {
      if id in TaskIds(s.scheduler.queues[q]) {
        QueuedElsewhere(ts, q, id);
      }
    }
  }

  lemma PlaceOf(s: System, id: TaskId)
    requires SystemInv(s) && id in s.tasks
    ensures InOnePlace(s, id)
  {
    if id in s.scheduler.inFlight {
      Flying(s, id);
      NotQueued(s, id);
    } else {
      NotRunning(s, id);
      if s.tasks[id].status.Terminal() {
        NotQueued(s, id);
      } else {
        WaitingInPlace(s, id);
      }
    }
  }

  /** The store has the task if memory has it, and never as "running"; a terminal record equals its row,
      and a live one differs from its row at most in its status. */
  ghost predicate Follows(s: System, disk: Disk, id: TaskId) {
    && (id in s.tasks <==> id in disk.tasks)
    && (id in s.tasks ==>
          var r, row := s.tasks[id], disk.tasks[id];
          && !row.status.Running?
          && (r.status.Terminal() <==> row.status.Terminal())
          && (r.status.Terminal() ==> row == r)
          && row.(status := r.status) == r)
  }

  lemma RowFollows(s: System, id: TaskId)
    requires SystemInv(s) && s.disk.Some?
    ensures Follows(s, s.disk.value, id)
  {
    if id in s.tasks {
      assert RowOk(TaskSideOf(s).tasks[id], TaskSideOf(s).rows.value[id]);
    }
  }

  // ---------- Every reachable state ----------

  /** A new process with no store, or with an empty one. */
  function FirstBoot(maxRetries: nat, durable: bool): System {
    Boot(maxRetries, if durable then Some(Disk(map[], map[], map[])) else None)
  }

  lemma FirstBootInv(maxRetries: nat, durable: bool)
    ensures SystemInv(FirstBoot(maxRetries, durable))
  {
    BootInv(maxRetries, if durable then Some(Disk(map[], map[], map[])) else None);
  }

  /** After every run from a first boot, with any interleaving and any crashes, every task on record is in
      exactly one place, and its status says which: terminal tasks are nowhere, running tasks in flight,
      queued and retrying tasks in their queue or, between dispatch and the start of their execution, in flight. */
  lemma EveryTaskInOnePlace(maxRetries: nat, durable: bool, events: seq<Event>, id: TaskId)
    requires Feasible(FirstBoot(maxRetries, durable), events)
    ensures var s := Run(FirstBoot(maxRetries, durable), events);
            id in s.tasks ==> InOnePlace(s, id)
  {
    var s := Run(FirstBoot(maxRetries, durable), events);
    FirstBootInv(maxRetries, durable);
    RunKeepsInv(FirstBoot(maxRetries, durable), events);
    if id in s.tasks {
      PlaceOf(s, id);
    }
  }

  lemma {:induction false} StoreStays(s: System, events: seq<Event>)
    requires SystemInv(s) && Feasible(s, events) && s.disk.Some?
    ensures Run(s, events).disk.Some?
    decreases |events|
  {
    if events != [] {
      StepKeepsInv(s, events[0]);
      StepKeepsStore(s, events[0]);
      StoreStays(Apply(s, events[0]), events[1..]);
    }
  }

  lemma StepKeepsStore(s: System, e: Event)
    requires SystemInv(s) && Enabled(s, e) && s.disk.Some?
    ensures Apply(s, e).disk.Some?
  {
    if e.Restart? {
      TornDiskKeeps(s, e.during, e.written);
      RestartFromKeeps(s.scheduler.maxRetries, TornDisk(s, e.during, e.written), e.taskOrder, e.agentOrder, e.now);
    }
  }

  /** After every run from a first boot the store follows memory. */
  lemma StoreFollowsMemory(maxRetries: nat, events: seq<Event>, id: TaskId)
    requires Feasible(FirstBoot(maxRetries, true), events)
    ensures var s := Run(FirstBoot(maxRetries, true), events);
            s.disk.Some? && Follows(s, s.disk.value, id)
  {
    FirstBootInv(maxRetries, true);
    RunKeepsInv(FirstBoot(maxRetries, true), events);
    StoreStays(FirstBoot(maxRetries, true), events);
    RowFollows(Run(FirstBoot(maxRetries, true), events), id);
  }

  // ---------- What events preserve ----------

  /** The record survives; its identity does not change, and once terminal nothing about it does. */
  predicate RecordKept(r: Record, r': Record) {
    SameTask(r, r') && (r.status.Terminal() ==> r' == r)
  }

  /** What a new process makes of a row of the store. */
  lemma RestartFromRow(maxRetries: nat, disk: Disk, taskOrder: seq<TaskId>, agentOrder: seq<Id>, now: int, id: TaskId)
    requires Readable(Some(disk)) && id in disk.tasks
    requires Enumerates(taskOrder, disk.tasks.Keys) && Enumerates(agentOrder, disk.agents.Keys)
    ensures var s' := RestartFrom(maxRetries, Some(disk), taskOrder, agentOrder, now);
            && id in s'.tasks && s'.tasks[id] == Restored(disk.tasks[id]) && s'.disk.Some? && SystemInv(s')
            && id !in s'.scheduler.inFlight
            && (forall q, e :: q in s'.scheduler.queues && e in s'.scheduler.queues[q] ==> FreshEntry(e, now))
  {
    RestartFromKeeps(maxRetries, Some(disk), taskOrder, agentOrder, now);
  }

  lemma TornRow(s: System, e: Event, written: nat, id: TaskId) returns (disk: Disk)
    requires SystemInv(s) && Possible(s, e) && written <= |Writes(s, e)| && s.disk.Some? && id in s.tasks
    ensures TornDisk(s, e, written) == Some(disk) && Readable(Some(disk))
    ensures id in disk.tasks && RecordKept(s.tasks[id], disk.tasks[id])
  {
    RowFollows(s, id);
    TornDiskKeeps(s, e, written);
    disk := TornDisk(s, e, written).value;
  }

  lemma RestartKeepsRecord(s: System, e: Event, id: TaskId)
    requires SystemInv(s) && Enabled(s, e) && e.Restart? && s.disk.Some? && id in s.tasks
    ensures id in Reboot(s, e).tasks && RecordKept(s.tasks[id], Reboot(s, e).tasks[id])
    ensures Reboot(s, e).disk.Some?
  {
    var disk := TornRow(s, e.during, e.written, id);
    RestartFromRow(s.scheduler.maxRetries, disk, e.taskOrder, e.agentOrder, e.now, id);
  }

  lemma BeginKeepsRecord(s: System, k: nat, now: int, id: TaskId)
    requires SystemInv(s) && k in s.runs && s.runs[k].Spawned? && id in s.tasks
    ensures var s' := BeginExecution(s, k, now);
            id in s'.tasks && RecordKept(s.tasks[id], s'.tasks[id]) && s.disk.Some? == s'.disk.Some?
  {
    RunFacts(TaskSideOf(s), k);
    BeginChangesOne(s, k, now);
  }

  /** Only the record of the execution's own task changes, and not in what identifies it. */
  lemma BeginChangesOne(s: System, k: nat, now: int)
    requires k in s.runs && s.runs[k].task.id in s.tasks
    ensures var s', own := BeginExecution(s, k, now), s.runs[k].task.id;
            && s.disk.Some? == s'.disk.Some? && own in s'.tasks && SameTask(s.tasks[own], s'.tasks[own])
            && forall id :: id in s.tasks && id != own ==> id in s'.tasks && s'.tasks[id] == s.tasks[id]
  {
  }

  lemma EndKeepsRecord(s: System, k: nat, result: Json, message: string, now: int, id: TaskId)
    requires SystemInv(s) && k in s.runs && s.runs[k].Executing? && id in s.tasks
    ensures var s' := CompleteExecution(s, k, result, now);
            id in s'.tasks && RecordKept(s.tasks[id], s'.tasks[id]) && s.disk.Some? == s'.disk.Some?
    ensures var s' := FailExecution(s, k, message, now);
            id in s'.tasks && RecordKept(s.tasks[id], s'.tasks[id]) && s.disk.Some? == s'.disk.Some?
  {
    RunFacts(TaskSideOf(s), k);
  }

  lemma AdvanceKeepsRecord(s: System, e: Event, id: TaskId)
    requires SystemInv(s) && Possible(s, e) && id in s.tasks
    ensures id in Advance(s, e).tasks && RecordKept(s.tasks[id], Advance(s, e).tasks[id])
    ensures s.disk.Some? == Advance(s, e).disk.Some?
  {
    match e
    case Begin(k, now) => BeginKeepsRecord(s, k, now, id);
    case Finish(k, result, now) => EndKeepsRecord(s, k, result, "", now, id);
    case Error(k, message, now) => EndKeepsRecord(s, k, Null, message, now, id);
    case _ => OthersKeepRecord(s, e, id);
  }

  lemma OthersKeepRecord(s: System, e: Event, id: TaskId)
    requires Possible(s, e) && !e.Begin? && !e.Finish? && !e.Error? && id in s.tasks
    ensures id in Advance(s, e).tasks && Advance(s, e).tasks[id] == s.tasks[id]
    ensures s.disk.Some? == Advance(s, e).disk.Some?
  {
  }

  lemma StepKeepsRecord(s: System, e: Event, id: TaskId)
    requires SystemInv(s) && Enabled(s, e) && id in s.tasks && (e.Restart? ==> s.disk.Some?)
    ensures id in Apply(s, e).tasks && RecordKept(s.tasks[id], Apply(s, e).tasks[id])
    ensures s.disk.Some? == Apply(s, e).disk.Some?
  {
    if e.Restart? {
      RestartKeepsRecord(s, e, id);
    } else {
      AdvanceKeepsRecord(s, e, id);
    }
  }

  /** Over any run of a system with a store, with any number of crashes, no task is forgotten,
      confused with another or changed after it became terminal. */
  lemma {:induction false} RunKeepsRecord(s: System, events: seq<Event>, id: TaskId)
    requires SystemInv(s) && Feasible(s, events) && id in s.tasks && s.disk.Some?
    ensures id in Run(s, events).tasks && RecordKept(s.tasks[id], Run(s, events).tasks[id])
    ensures SystemInv(Run(s, events)) && Run(s, events).disk.Some?
    decreases |events|
  {
    if events != [] {
      StepKeepsInv(s, events[0]);
      StepKeepsRecord(s, events[0], id);
      RunKeepsRecord(Apply(s, events[0]), events[1..], id);
    }
  }

  // ---------- Crash safety ----------

  /** Queued exactly once, as it was submitted and with no retries spent. */
  ghost predicate QueuedAfresh(s: System, id: TaskId, now: int)
    requires id in s.tasks
  {
    && s.tasks[id].status.Queued? && WaitsOnce(s, id)
    && exists e :: e in QueueOf(s.scheduler.queues, s.tasks[id].queue)
                   && e.item.id == id && Matches(s.tasks[id], e.item) && FreshEntry(e, now)
  }

  /** After a restart, a task is terminal if the store says so and then nowhere, or else queued afresh. */
  lemma RestartPlaces(maxRetries: nat, disk: Disk, taskOrder: seq<TaskId>, agentOrder: seq<Id>, now: int, id: TaskId)
    requires Readable(Some(disk)) && id in disk.tasks
    requires Enumerates(taskOrder, disk.tasks.Keys) && Enumerates(agentOrder, disk.agents.Keys)
    ensures var s' := RestartFrom(maxRetries, Some(disk), taskOrder, agentOrder, now);
            && id in s'.tasks && InOnePlace(s', id)
            && (if disk.tasks[id].status.Terminal() then s'.tasks[id] == disk.tasks[id] else QueuedAfresh(s', id, now))
  {
    var s' := RestartFrom(maxRetries, Some(disk), taskOrder, agentOrder, now);
    RestartFromRow(maxRetries, disk, taskOrder, agentOrder, now, id);
    PlaceOf(s', id);
    if !disk.tasks[id].status.Terminal() {
      var w := QueueOf(s'.scheduler.queues, s'.tasks[id].queue);
      var i :| 0 <= i < |w| && w[i].item.id == id;
      assert w[i] in w && EntryOk(TaskSideOf(s'), s'.tasks[id].queue, w[i]);
    }
  }

  /** Crash safety over whole runs: take any task on record, any run with any number of crashes, and
      then a crash at any point, between two store writes even. After the restart the task is still
      the same task, and is either terminal or queued exactly once with no retries spent. */
  lemma SubmittedTasksSurvive(s: System, events: seq<Event>, crash: Event, id: TaskId)
    requires SystemInv(s) && s.disk.Some? && id in s.tasks && Feasible(s, events)
    requires crash.Restart? && Enabled(Run(s, events), crash)
    ensures var s' := Apply(Run(s, events), crash);
            && id in s'.tasks
            && RecordKept(s.tasks[id], s'.tasks[id])
            && InOnePlace(s', id)
            && (s'.tasks[id].status.Terminal() || QueuedAfresh(s', id, crash.now))
  {
    RunKeepsRecord(s, events, id);
    var s1 := Run(s, events);
    RestartKeepsRecord(s1, crash, id);
    var disk := TornRow(s1, crash.during, crash.written, id);
    RestartPlaces(s1.scheduler.maxRetries, disk, crash.taskOrder, crash.agentOrder, crash.now, id);
  }

  /** A task with a persisted terminal status is never queued or run again, and its row stays as it is. */
  lemma TerminalRowsAreFinal(s: System, events: seq<Event>, id: TaskId)
    requires SystemInv(s) && s.disk.Some? && Feasible(s, events)
    requires id in s.disk.value.tasks && s.disk.value.tasks[id].status.Terminal()
    ensures var s' := Run(s, events);
            && s'.disk.Some? && id in s'.disk.value.tasks
            && s'.disk.value.tasks[id] == s.disk.value.tasks[id]
            && InNoQueue(s', id) && id !in s'.scheduler.inFlight && HasNoRun(s', id)
  {
    RowFollows(s, id);
    RunKeepsRecord(s, events, id);
    RowFollows(Run(s, events), id);
    PlaceOf(Run(s, events), id);
  }

  /** A submitted task is queued and on record as it was asked for, in memory and in the store, before
      `submit_task` returns. */
  lemma SubmitRecords(s: System, e: Event)
    requires SystemInv(s) && Enabled(s, e) && e.Submit? && e.target in s.registry.agents
    ensures var s' := Apply(s, e);
            && e.uuid in s'.tasks && QueuedAfresh(s', e.uuid, e.now)
            && (s.disk.Some? ==> e.uuid in s'.disk.value.tasks && s'.disk.value.tasks[e.uuid] == s'.tasks[e.uuid])
    ensures var s', body := Apply(s, e), OrEmptyDict(e.payload);
            && s'.tasks == s.tasks[e.uuid := Record(e.uuid, e.target, body, e.queue, e.priority, TaskStatus.Queued,
                                                    Null, None, Some(e.now), None)]
            && Waiting(Task(e.uuid, e.target, body, e.queue, e.priority, 0, e.now), e.priority)
               in QueueOf(s'.scheduler.queues, e.queue)
  {
    var s' := Apply(s, e);
    OrEmptyIs(e.payload);
    StepKeepsInv(s, e);
    PlaceOf(s', e.uuid);
    var t := NewTask(e.target, e.payload, e.priority, e.queue, e.uuid, e.now);
    InsertMembers(QueueOf(s.scheduler.queues, t.queue), Waiting(t, t.priority));
    assert Waiting(t, t.priority) in s'.scheduler.queues[t.queue];
    QueuedElsewhere(TaskSideOf(s'), t.queue, e.uuid);
  }
}
