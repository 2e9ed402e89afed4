/** What a new process starts with, in terms of the rows it reads. */
module RestartEffects {
  import opened Prelude
  import opened Records
  import opened StableQueue
  import opened Scheduling
  import opened SchedulerEffects
  import opened TaskQueues
  import opened Lifecycle
  import opened TaskInvariant
  import opened LifecycleInvariant
  import opened CrashSafety
  import opened EventEffects
  import Registry

  /** What a row says is ended stays as it is; anything else is queued. */
  predicate TasksReloaded(rows: map<TaskId, Record>, tasks: map<TaskId, Record>) {
    && tasks.Keys == rows.Keys
    && forall id :: id in rows ==>
         tasks[id] == if rows[id].status in {TaskStatus.Completed, TaskStatus.Failed} then rows[id]
                      else rows[id].(status := TaskStatus.Queued)
  }

  /** The entry of a task that starts over. */
  function Afresh(r: Record, now: int): Waiting<Task> {
    Waiting(Task(r.id, r.target, OrEmptyDict(Some(r.payload)), r.queue, r.priority, 0, now), r.priority)
  }

  predicate StartsOver(rows: map<TaskId, Record>, id: TaskId) {
    id in rows && rows[id].status !in {TaskStatus.Completed, TaskStatus.Failed}
  }

  /** Exactly the tasks that start over wait, each once in its own queue. */
  ghost predicate QueuesReloaded(rows: map<TaskId, Record>, queues: Queues, now: int) {
    && (forall q, e :: e in WaitingIn(queues, q) ==>
          StartsOver(rows, e.item.id) && rows[e.item.id].queue == q && e == Afresh(rows[e.item.id], now))
    && (forall id :: StartsOver(rows, id) ==> HoldsOnce(WaitingIn(queues, rows[id].queue), id))
  }

  /** The agents are those of the store, and every group lists its own once. */
  ghost predicate AgentsReloaded(agents: map<Id, AgentRow>, s: System) {
    && s.registry.agents == agents
    && forall g :: && NoDuplicates(Members(s, g))
                   && forall id :: id in Members(s, g) <==> id in agents && FirstSegment(g, agents[id].kind)
  }

  /** Nothing runs, and nothing is remembered but what the store has. */
  predicate JustStarted(s: System, maxRetries: nat) {
    && s.runs == map[] && s.spawned == 0 && s.outcomes == []
    && s.scheduler.inFlight == map[] && s.scheduler.scheduled == [] && s.scheduler.maxRetries == maxRetries
  }

  lemma RestartShape(maxRetries: nat, disk: Disk, taskOrder: seq<TaskId>, agentOrder: seq<Id>, now: int)
    requires Readable(Some(disk))
    requires Enumerates(taskOrder, disk.tasks.Keys) && Enumerates(agentOrder, disk.agents.Keys)
    ensures var s' := RestartFrom(maxRetries, Some(disk), taskOrder, agentOrder, now);
            && SystemInv(s') && s'.disk == Some(disk) && JustStarted(s', maxRetries)
            && TasksReloaded(disk.tasks, s'.tasks)
            && (forall q, e :: q in s'.scheduler.queues && e in s'.scheduler.queues[q] ==> FreshEntry(e, now))
            && s'.registry.agents == disk.agents
  {
    var registry := Registry.State(disk.agents, Registry.RebuildIndex(disk.agents, agentOrder));
    RestartFromKeeps(maxRetries, Some(disk), taskOrder, agentOrder, now);
    RestoreAllKeeps(Boot(maxRetries, Some(disk)).(registry := registry), disk.tasks, taskOrder, now);
  }

  lemma WaitsAfresh(s: System, rows: map<TaskId, Record>, q: string, e: Waiting<Task>, now: int)
    requires SystemInv(s) && TasksReloaded(rows, s.tasks) && s.scheduler.inFlight == map[]
    requires q in s.scheduler.queues && e in s.scheduler.queues[q] && FreshEntry(e, now)
    ensures StartsOver(rows, e.item.id) && rows[e.item.id].queue == q && e == Afresh(rows[e.item.id], now)
  {
    assert EntryOk(TaskSideOf(s), q, e) && RecordOk(e.item.id, s.tasks[e.item.id]);
    OrEmptyIs(Some(s.tasks[e.item.id].payload));
  }

  lemma WaitsIfLive(s: System, rows: map<TaskId, Record>, id: TaskId)
    requires SystemInv(s) && TasksReloaded(rows, s.tasks) && s.scheduler.inFlight == map[] && StartsOver(rows, id)
    ensures HoldsOnce(WaitingIn(s.scheduler.queues, rows[id].queue), id)
  {
    WaitingInPlace(s, id);
  }

  lemma GroupsReloaded(s: System, g: string)
    requires SystemInv(s)
    ensures NoDuplicates(Members(s, g))
    ensures forall id :: id in Members(s, g) <==> id in s.registry.agents && FirstSegment(g, s.registry.agents[id].kind)
  {
    assert Registry.ListOk(s.registry, g);
    forall id | id in s.registry.agents
      ensures Registry.Group(s.registry.agents[id].kind) == g <==> FirstSegment(g, s.registry.agents[id].kind)
    {
      if FirstSegment(g, s.registry.agents[id].kind) {
        OneFirstSegment(g, Registry.Group(s.registry.agents[id].kind), s.registry.agents[id].kind);
      }
    }
  }

  /** After a crash at any point the new process has exactly the stored tasks and agents: ended tasks as they
      were, all others queued once with no retries, nothing in flight, and the groups of all agents. */
  lemma RestartEffect(s: System, e: Event)
    requires SystemInv(s) && Enabled(s, e) && e.Restart? && s.disk.Some?
    ensures var s' := Apply(s, e);
            && s'.disk == TornDisk(s, e.during, e.written) && s'.disk.Some? && JustStarted(s', s.scheduler.maxRetries)
            && TasksReloaded(s'.disk.value.tasks, s'.tasks)
            && QueuesReloaded(s'.disk.value.tasks, s'.scheduler.queues, e.now)
            && AgentsReloaded(s'.disk.value.agents, s')
  {
    TornDiskKeeps(s, e.during, e.written);
    var disk := TornDisk(s, e.during, e.written).value;
    RestartShape(s.scheduler.maxRetries, disk, e.taskOrder, e.agentOrder, e.now);
    var s' := Apply(s, e);
    forall q, x | x in WaitingIn(s'.scheduler.queues, q)
      ensures StartsOver(disk.tasks, x.item.id) && disk.tasks[x.item.id].queue == q
              && x == Afresh(disk.tasks[x.item.id], e.now)
    {
      WaitsAfresh(s', disk.tasks, q, x, e.now);
    }
    forall id | StartsOver(disk.tasks, id)
      ensures HoldsOnce(WaitingIn(s'.scheduler.queues, disk.tasks[id].queue), id)
    {
      WaitsIfLive(s', disk.tasks, id);
    }
    forall g
      ensures NoDuplicates(Members(s', g))
      ensures forall id :: id in Members(s', g) <==> id in disk.agents && FirstSegment(g, disk.agents[id].kind)
    {
      GroupsReloaded(s', g);
    }
  }

  // ---------- In which order ----------

  /** The rows of a queue that start over, in the order in which they were read. */
  function Requeued(rows: map<TaskId, Record>, order: seq<TaskId>, q: string, now: int): seq<Waiting<Task>>
    requires forall id :: id in order ==> id in rows
  {
    if order == [] then []
    else
      var n := |order| - 1;
      var before := Requeued(rows, order[..n], q, now);
      if StartsOver(rows, order[n]) && rows[order[n]].queue == q then before + [Afresh(rows[order[n]], now)] else before
  }

  lemma {:induction false} RestoredQueue(s0: System, rows: map<TaskId, Record>, order: seq<TaskId>, q: string, now: int)
    requires (forall id :: id in order ==> id in rows && rows[id].id == id) && s0.scheduler.queues == map[]
    ensures WaitingIn(RestoreTasks(s0, rows, order, now).scheduler.queues, q)
         == DispatchOrder(Requeued(rows, order, q, now))
  {
    if order != [] {
      var n := |order| - 1;
      var r := rows[order[n]];
      RestoredQueue(s0, rows, order[..n], q, now);
      RestoreOneQueue(RestoreTasks(s0, rows, order[..n], now), r, q, now);
      if !r.status.Terminal() && r.queue == q {
        AppendArrival(Requeued(rows, order[..n], q, now), Afresh(r, now));
      }
    }
  }

  lemma RestoreOneQueue(s: System, r: Record, q: string, now: int)
    ensures WaitingIn(RestoreTask(s, r, now).scheduler.queues, q) ==
            if !r.status.Terminal() && r.queue == q
            then StableInsert(WaitingIn(s.scheduler.queues, q), Afresh(r, now)) else WaitingIn(s.scheduler.queues, q)
  {
    OrEmptyIs(Some(r.payload));
  }

  /** The requeued tasks of a queue are dispatched by priority, and in the order of their rows among equals. */
  lemma RestartOrder(s: System, e: Event, q: string)
    requires SystemInv(s) && Enabled(s, e) && e.Restart? && s.disk.Some?
    ensures var s' := Apply(s, e);
            && s'.disk.Some? && (forall id :: id in e.taskOrder ==> id in s'.disk.value.tasks)
            && WaitingIn(s'.scheduler.queues, q) == DispatchOrder(Requeued(s'.disk.value.tasks, e.taskOrder, q, e.now))
  {
    TornDiskKeeps(s, e.during, e.written);
    var disk := TornDisk(s, e.during, e.written).value;
    RestartShape(s.scheduler.maxRetries, disk, e.taskOrder, e.agentOrder, e.now);
    var registry := Registry.State(disk.agents, Registry.RebuildIndex(disk.agents, e.agentOrder));
    RestoredQueue(Boot(s.scheduler.maxRetries, Some(disk)).(registry := registry), disk.tasks, e.taskOrder, q, e.now);
  }

  // ---------- What can happen ----------

  /** Callers from outside can act at any time; only new ids have to be new. */
  lemma OutsideCanAct(s: System, e: Event)
    requires match e
             case Submit(_, _, _, _, uuid, _) => uuid !in s.tasks
             case Register(agent, _, _, _, _) => agent !in s.registry.agents
             case Poll(_) => true
             case Remove(_) => true
             case SetStatus(_, _, _) => true
             case _ => false
    ensures Possible(s, e)
  {
  }

  /** An execution can end in either way once it has begun, and begin once it is spawned. */
  lemma ExecutionsCanAct(s: System, k: nat, result: Json, message: string, now: int)
    requires k in s.runs
    ensures match s.runs[k]
            case Spawned(_) => Possible(s, Begin(k, now))
            case Executing(_, _) => Possible(s, Finish(k, result, now)) && Possible(s, Error(k, message, now))
  {
  }

  /** The process can die in the course of any event, after any number of its writes, and the rows can come
      back in any order. */
  lemma CrashCanHappen(s: System, during: Event, written: nat, taskOrder: seq<TaskId>, agentOrder: seq<Id>, now: int)
    requires Possible(s, during) && written <= |Writes(s, during)|
    requires var disk := TornDisk(s, during, written);
             disk.Some? ==>
               Enumerates(taskOrder, disk.value.tasks.Keys) && Enumerates(agentOrder, disk.value.agents.Keys)
    ensures Enabled(s, Restart(during, written, taskOrder, agentOrder, now))
    ensures TornDisk(s, during, written) == DoWrites(s.disk, Writes(s, during)[..written])
  {
  }
}
