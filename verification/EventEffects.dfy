/** What each event does to the whole state, field by field: tasks, queues, agents, executions, outcomes, store. */
module EventEffects {
  import opened Prelude
  import opened Records
  import opened StableQueue
  import opened Scheduling
  import opened SchedulerEffects
  import opened Lifecycle
  import opened TaskInvariant
  import opened LifecycleInvariant
  import Registry

  // ---------- Words for the parts of a state ----------

  /** The rows of these tasks and agents have been written, and nothing else. */
  predicate Stores(disk: Option<Disk>, disk': Option<Disk>, tasks: map<TaskId, Record>, agents: map<Id, AgentRow>) {
    if disk.None? then disk'.None?
    else disk' == Some(disk.value.(tasks := disk.value.tasks + tasks, agents := disk.value.agents + agents))
  }

  // ---------- Submitting ----------

  /** A submission is queued and recorded as it was asked for. */
  lemma SubmitEffect(s: System, e: Event)
    requires SystemInv(s) && Possible(s, e) && e.Submit? && e.target in s.registry.agents
    ensures var s', body := Advance(s, e), OrEmptyDict(e.payload);
            var record := Record(e.uuid, e.target, body, e.queue, e.priority, TaskStatus.Queued, Null, None,
                                 Some(e.now), None);
            && s' == s.(tasks := s.tasks[e.uuid := record],
                        scheduler := s.scheduler.(queues := s'.scheduler.queues), disk := s'.disk)
            && Joins(s.scheduler.queues, s'.scheduler.queues,
                     Task(e.uuid, e.target, body, e.queue, e.priority, 0, e.now))
            && Stores(s.disk, s'.disk, map[e.uuid := record], map[])
  {
    var s' := Advance(s, e);
    OrEmptyIs(e.payload);
    PushJoins(s.scheduler, NewTask(e.target, e.payload, e.priority, e.queue, e.uuid, e.now));
    StoresTask(s.disk, NewRecord(NewTask(e.target, e.payload, e.priority, e.queue, e.uuid, e.now), e.now));
  }

  lemma UnknownSubmit(s: System, e: Event)
    requires Possible(s, e) && e.Submit? && e.target !in s.registry.agents
    ensures Advance(s, e) == s
  {
  }

  lemma StoresTask(disk: Option<Disk>, r: Record)
    ensures Stores(disk, SaveTask(disk, r), map[r.id := r], map[])
  {
    if disk.Some? {
      assert disk.value.tasks + map[r.id := r] == disk.value.tasks[r.id := r];
      assert disk.value.agents + map[] == disk.value.agents;
    }
  }

  lemma StoresAgent(disk: Option<Disk>, row: AgentRow)
    ensures Stores(disk, SaveAgent(disk, row), map[], map[row.id := row])
  {
    if disk.Some? {
      assert disk.value.agents + map[row.id := row] == disk.value.agents[row.id := row];
      assert disk.value.tasks + map[] == disk.value.tasks;
    }
  }

  lemma StoresBoth(disk: Option<Disk>, r: Record, row: AgentRow)
    ensures Stores(disk, SaveAgent(SaveTask(disk, r), row), map[r.id := r], map[row.id := row])
  {
    if disk.Some? {
      assert disk.value.agents + map[row.id := row] == disk.value.agents[row.id := row];
      assert disk.value.tasks + map[r.id := r] == disk.value.tasks[r.id := r];
    }
  }

  // ---------- Polling ----------

  /** The first task in the dispatch order of the default queue, if there is one, goes in flight with a new
      execution. */
  lemma PollEffect(s: System, e: Event)
    requires SystemInv(s) && Possible(s, e) && e.Poll?
    ensures var s', w := Advance(s, e), WaitingIn(s.scheduler.queues, "default");
            if w == [] then s' == s
            else
              && s' == s.(scheduler := s.scheduler.(queues := s'.scheduler.queues,
                                                    inFlight := s.scheduler.inFlight[w[0].item.id := w[0].item]),
                          runs := s.runs[s.spawned := Spawned(w[0].item)], spawned := s.spawned + 1)
              && WaitingIn(s'.scheduler.queues, "default") == w[1..]
              && (forall q :: q != "default" ==> WaitingIn(s'.scheduler.queues, q) == WaitingIn(s.scheduler.queues, q))
  {
    PollDispatches(s, e.now);
  }

  // ---------- Beginning ----------

  /** An execution that finds its agent remembers the agent's status and sets it to running; only memory
      knows that the task is running. */
  lemma BeginEffect(s: System, e: Event)
    requires SystemInv(s) && Possible(s, e) && e.Begin? && s.runs[e.k].task.target in s.registry.agents
    ensures var s', t := Advance(s, e), s.runs[e.k].task;
            var row := s.registry.agents[t.target];
            var row' := row.(status := AgentStatus.Running, updatedAt := e.now);
            && t.id in s.tasks
            && s' == s.(tasks := s.tasks[t.id := s.tasks[t.id].(status := TaskStatus.Running)],
                        runs := s.runs[e.k := Executing(t, row.status)],
                        registry := Registry.State(s.registry.agents[t.target := row'], s.registry.index),
                        disk := s'.disk)
            && Stores(s.disk, s'.disk, map[], map[t.target := row'])
  {
    var t := s.runs[e.k].task;
    RunFacts(TaskSideOf(s), e.k);
    RowsAreKeyed(s, t.target);
    StoresAgent(s.disk, s.registry.agents[t.target].(status := AgentStatus.Running, updatedAt := e.now));
  }

  lemma RowsAreKeyed(s: System, id: Id)
    requires SystemInv(s) && id in s.registry.agents
    ensures s.registry.agents[id].id == id
  {
  }

  // ---------- Ending ----------

  /** The history keeps 5000 entries. */
  predicate Appends(outcomes: seq<Outcome>, outcomes': seq<Outcome>, o: Outcome) {
    outcomes' == (if |outcomes| < 5000 then outcomes else outcomes[|outcomes| - 4999..]) + [o]
  }

  /** The task of the execution failed: it waits again with one more retry, or has failed for good. */
  ghost predicate Fails(s: System, s': System, k: nat, message: string, now: int)
    requires k in s.runs && s.runs[k].task.id in s.tasks
  {
    var t := s.runs[k].task;
    var retry := t.retries < s.scheduler.maxRetries;
    var record := s.tasks[t.id].(error := Some(message),
                                 status := if retry then TaskStatus.Retrying else TaskStatus.Failed);
    && s'.tasks == s.tasks[t.id := record]
    && s'.runs == s.runs - {k} && s'.spawned == s.spawned
    && s'.scheduler == s.scheduler.(queues := s'.scheduler.queues, inFlight := s.scheduler.inFlight - {t.id})
    && (if retry then
          && Joins(s.scheduler.queues, s'.scheduler.queues, t.(retries := t.retries + 1))
          && s'.outcomes == s.outcomes
        else s'.scheduler.queues == s.scheduler.queues && Appends(s.outcomes, s'.outcomes, Outcome(now, false)))
  }

  function RecordAfterFail(s: System, k: nat, message: string): Record
    requires k in s.runs && s.runs[k].task.id in s.tasks
  {
    var t := s.runs[k].task;
    s.tasks[t.id].(error := Some(message),
                   status := if t.retries < s.scheduler.maxRetries then TaskStatus.Retrying else TaskStatus.Failed)
  }

  lemma RetryEffect(s: System, k: nat, message: string, now: int)
    requires SystemInv(s) && k in s.runs && s.runs[k].task.id in s.tasks
    requires s.runs[k].task.retries < s.scheduler.maxRetries
    ensures var s', t := FailExecution(s, k, message, now), s.runs[k].task;
            && s' == s.(tasks := s.tasks[t.id := RecordAfterFail(s, k, message)], runs := s.runs - {k},
                        scheduler := Push(s.scheduler.(inFlight := s.scheduler.inFlight - {t.id}),
                                          t.(retries := t.retries + 1)),
                        disk := SaveTask(s.disk, RecordAfterFail(s, k, message)))
  {
    RunFacts(TaskSideOf(s), k);
  }

  lemma GivenUpEffect(s: System, k: nat, message: string, now: int)
    requires SystemInv(s) && k in s.runs && s.runs[k].task.id in s.tasks
    requires s.runs[k].task.retries >= s.scheduler.maxRetries
    ensures var s', t := FailExecution(s, k, message, now), s.runs[k].task;
            && s' == s.(tasks := s.tasks[t.id := RecordAfterFail(s, k, message)], runs := s.runs - {k},
                        scheduler := s.scheduler.(inFlight := s.scheduler.inFlight - {t.id}),
                        outcomes := s'.outcomes, disk := SaveTask(s.disk, RecordAfterFail(s, k, message)))
            && Appends(s.outcomes, s'.outcomes, Outcome(now, false))
  {
    RunFacts(TaskSideOf(s), k);
  }

  lemma FailEffect(s: System, k: nat, message: string, now: int)
    requires SystemInv(s) && k in s.runs && s.runs[k].task.id in s.tasks
    ensures var s' := FailExecution(s, k, message, now);
            && Fails(s, s', k, message, now) && s'.registry == s.registry
            && s'.disk == SaveTask(s.disk, RecordAfterFail(s, k, message))
  {
    var t := s.runs[k].task;
    if t.retries < s.scheduler.maxRetries {
      RetryEffect(s, k, message, now);
      PushJoins(s.scheduler.(inFlight := s.scheduler.inFlight - {t.id}), t.(retries := t.retries + 1));
    } else {
      GivenUpEffect(s, k, message, now);
    }
  }

  lemma RecordIsKeyed(s: System, id: TaskId)
    requires SystemInv(s) && id in s.tasks
    ensures s.tasks[id].id == id
  {
    assert RecordOk(id, s.tasks[id]);
  }

  /** An execution that does not find its agent fails the task with the name of the agent. */
  lemma UnfoundEffect(s: System, e: Event)
    requires SystemInv(s) && Possible(s, e) && e.Begin? && s.runs[e.k].task.target !in s.registry.agents
    ensures var s', t := Advance(s, e), s.runs[e.k].task;
            && t.id in s.tasks && Fails(s, s', e.k, "Agent not found: " + t.target, e.now)
            && t.id in s'.tasks && s'.registry == s.registry
            && Stores(s.disk, s'.disk, map[t.id := s'.tasks[t.id]], map[])
  {
    var t := s.runs[e.k].task;
    RunFacts(TaskSideOf(s), e.k);
    RecordIsKeyed(s, t.id);
    UnfoundSide(s, e.k, "Agent not found: " + t.target, e.now);
    FailEffect(s, e.k, "Agent not found: " + t.target, e.now);
    StoresTask(s.disk, RecordAfterFail(s, e.k, "Agent not found: " + t.target));
  }

  /** A finished execution: its task is completed with the result and the time, whatever error an earlier
      attempt left. */
  lemma FinishEffect(s: System, e: Event)
    requires SystemInv(s) && Possible(s, e) && e.Finish? && s.runs[e.k].task.id in s.tasks
    ensures var s', t, record := Advance(s, e), s.runs[e.k].task, RecordAfterFinish(s, e.k, e.result, e.now);
            && s' == s.(tasks := s.tasks[t.id := record], runs := s.runs - {e.k},
                        scheduler := s.scheduler.(inFlight := s.scheduler.inFlight - {t.id}),
                        registry := s'.registry, outcomes := s'.outcomes, disk := s'.disk)
            && Appends(s.outcomes, s'.outcomes, Outcome(e.now, true))
            && Settles(s, s', e.k, true, e.now)
            && Stores(s.disk, s'.disk, map[t.id := record], SettledRow(s, e.k, true, e.now))
  {
    RunFacts(TaskSideOf(s), e.k);
    RecordIsKeyed(s, s.runs[e.k].task.id);
    AgentIsKeyed(s, e.k);
    SettleEffect(s, CompleteExecution(s, e.k, e.result, e.now), e.k, true, e.now,
        RecordAfterFinish(s, e.k, e.result, e.now));
  }

  function RecordAfterFinish(s: System, k: nat, result: Json, now: int): Record
    requires k in s.runs && s.runs[k].task.id in s.tasks
  {
    s.tasks[s.runs[k].task.id].(status := TaskStatus.Completed, result := result, completedAt := Some(now))
  }

  lemma AgentIsKeyed(s: System, k: nat)
    requires SystemInv(s) && k in s.runs
    ensures var id := s.runs[k].task.target;
            id in s.registry.agents ==> s.registry.agents[id].id == id
  {
  }

  /** What settling adds to a state in which the record has been saved. */
  lemma SettleEffect(s: System, s1: System, k: nat, good: bool, now: int, r: Record)
    requires k in s.runs && s.runs[k].Executing? && s1.registry == s.registry && s1.disk == SaveTask(s.disk, r)
    requires s.runs[k].task.target in s.registry.agents ==>
               s.registry.agents[s.runs[k].task.target].id == s.runs[k].task.target
    ensures var s' := Settle(s1, s.runs[k].task.target, s.runs[k].previous, good, now);
            && s' == s1.(registry := s'.registry, disk := s'.disk) && Settles(s, s', k, good, now)
            && Stores(s.disk, s'.disk, map[r.id := r], SettledRow(s, k, good, now))
  {
    var id := s.runs[k].task.target;
    if id in s.registry.agents {
      SettleRow(s1, id, s.registry.agents[id], s.runs[k].previous, good, now);
      StoresBoth(s.disk, r, RowAfterEnd(s, k, good, now));
    } else {
      StoresTask(s.disk, r);
    }
  }

  lemma SettleRow(s1: System, id: Id, row: AgentRow, previous: AgentStatus, good: bool, now: int)
    requires id in s1.registry.agents && s1.registry.agents[id] == row && row.id == id
    ensures var row' := row.(status := previous, updatedAt := now, completed := row.completed + (if good then 1 else 0),
                             errors := row.errors + (if good then 0 else 1));
            Settle(s1, id, previous, good, now)
            == s1.(registry := Registry.State(s1.registry.agents[id := row'], s1.registry.index),
                   disk := SaveAgent(s1.disk, row'))
  {
  }

  /** A raised error: the task fails or is retried, and its agent has one more error. */
  lemma ErrorEffect(s: System, e: Event)
    requires SystemInv(s) && Possible(s, e) && e.Error? && s.runs[e.k].task.id in s.tasks
    ensures var s', t := Advance(s, e), s.runs[e.k].task;
            && Fails(s, s', e.k, e.message, e.now) && t.id in s'.tasks
            && Settles(s, s', e.k, false, e.now)
            && Stores(s.disk, s'.disk, map[t.id := s'.tasks[t.id]], SettledRow(s, e.k, false, e.now))
  {
    var t, s1 := s.runs[e.k].task, FailExecution(s, e.k, e.message, e.now);
    FailEffect(s, e.k, e.message, e.now);
    RecordIsKeyed(s, t.id);
    AgentIsKeyed(s, e.k);
    SettleEffect(s, s1, e.k, false, e.now, RecordAfterFail(s, e.k, e.message));
  }

  /** The agent of the execution has its status back and one more outcome, if it is still registered. */
  predicate Settles(s: System, s': System, k: nat, good: bool, now: int)
    requires k in s.runs && s.runs[k].Executing?
  {
    var id := s.runs[k].task.target;
    s'.registry == if id in s.registry.agents
        then Registry.State(s.registry.agents[id := RowAfterEnd(s, k, good, now)], s.registry.index)
        else s.registry
  }

  function RowAfterEnd(s: System, k: nat, good: bool, now: int): AgentRow
    requires k in s.runs && s.runs[k].Executing? && s.runs[k].task.target in s.registry.agents
  {
    var row := s.registry.agents[s.runs[k].task.target];
    row.(status := s.runs[k].previous, updatedAt := now, completed := row.completed + (if good then 1 else 0),
         errors := row.errors + (if good then 0 else 1))
  }

  function SettledRow(s: System, k: nat, good: bool, now: int): map<Id, AgentRow>
    requires k in s.runs && s.runs[k].Executing?
  {
    var id := s.runs[k].task.target;
    if id in s.registry.agents then map[id := RowAfterEnd(s, k, good, now)] else map[]
  }

  // ---------- Agents ----------

  /** The part of an agent type before its first dot, if there is one. */
  predicate FirstSegment(group: string, kind: string) {
    '.' !in group && group <= kind && (|group| < |kind| ==> kind[|group|] == '.')
  }

  lemma OneFirstSegment(g: string, h: string, kind: string)
    requires FirstSegment(g, kind) && FirstSegment(h, kind)
    ensures g == h
  {
  }

  function Members(s: System, group: string): seq<Id> {
    if group in s.registry.index then s.registry.index[group] else []
  }

  /** A registered agent is pending, with the name and type it was given, and last in the group of its type. */
  lemma RegisterEffect(s: System, e: Event)
    requires Possible(s, e) && e.Register?
    ensures var s' := Advance(s, e);
            var row := AgentRow(e.agent, e.name, e.kind, OrEmptyDict(e.config), AgentStatus.Pending,
                                e.now, e.now, 0, 0);
            && s' == s.(registry := s'.registry, disk := s'.disk)
            && s'.registry.agents == s.registry.agents[e.agent := row]
            && Stores(s.disk, s'.disk, map[], map[e.agent := row])
            && forall g :: Members(s', g) == Members(s, g) + if FirstSegment(g, e.kind) then [e.agent] else []
  {
    var s' := Advance(s, e);
    OrEmptyIs(e.config);
    StoresAgent(s.disk, Registry.NewAgent(e.agent, e.name, e.kind, e.config, e.now));
    forall g
      ensures Members(s', g) == Members(s, g) + if FirstSegment(g, e.kind) then [e.agent] else []
    {
      if FirstSegment(g, e.kind) {
        OneFirstSegment(g, Registry.Group(e.kind), e.kind);
      }
    }
  }

  /** So it is listed in the group of its type and no other. */
  lemma RegisteredIsListed(s: System, e: Event, status: Option<AgentStatus>, group: string)
    requires SystemInv(s) && Possible(s, e) && e.Register? && group != ""
    ensures e.agent in Registry.List(Advance(s, e).registry, status, Some(group))
       <==> FirstSegment(group, e.kind) && status in {None, Some(AgentStatus.Pending)}
  {
    RegisterEffect(s, e);
    NotListedYet(s, e.agent, group);
  }

  lemma NotListedYet(s: System, id: Id, group: string)
    requires SystemInv(s) && id !in s.registry.agents
    ensures id !in Members(s, group)
  {
    assert Registry.ListOk(s.registry, group);
  }

  /** A deleted agent is out of memory, store and the group of its type; its executions go on. */
  lemma RemoveEffect(s: System, e: Event)
    requires SystemInv(s) && Possible(s, e) && e.Remove?
    ensures var s' := Advance(s, e);
            if e.agent !in s.registry.agents then s' == s
            else
              && s' == s.(registry := s'.registry, disk := s'.disk)
              && s'.registry.agents == s.registry.agents - {e.agent}
              && (s.disk.None? ==> s'.disk.None?)
              && (s.disk.Some? ==>
                    s'.disk == Some(s.disk.value.(agents := s.disk.value.agents - {e.agent})))
              && forall g :: if FirstSegment(g, s.registry.agents[e.agent].kind)
                             then IsWithout(Members(s, g), Members(s', g), e.agent) else Members(s', g) == Members(s, g)
  {
    var s' := Advance(s, e);
    if e.agent in s.registry.agents {
      var own := Registry.Group(s.registry.agents[e.agent].kind);
      assert Registry.ListOk(s.registry, own);
      RemovesFirst(Members(s, own), e.agent);
      forall g | FirstSegment(g, s.registry.agents[e.agent].kind)
        ensures g == own
      {
        OneFirstSegment(g, own, s.registry.agents[e.agent].kind);
      }
    }
  }

  ghost predicate IsWithout(ids: seq<Id>, ids': seq<Id>, id: Id) {
    exists i :: 0 <= i < |ids| && ids[i] == id && ids' == ids[..i] + ids[i + 1..]
  }

  lemma {:induction false} RemovesFirst(ids: seq<Id>, id: Id)
    requires id in ids
    ensures IsWithout(ids, Registry.RemoveFirst(ids, id), id)
  {
    if ids[0] != id {
      RemovesFirst(ids[1..], id);
      var rest := Registry.RemoveFirst(ids[1..], id);
      var i :| 0 <= i < |ids| - 1 && ids[1..][i] == id && rest == ids[1..][..i] + ids[1..][i + 1..];
      assert ids[i + 1] == id && [ids[0]] + rest == ids[..i + 1] + ids[i + 2..];
    }
  }

  /** A status written from outside: status and time of a known agent, in memory and store. */
  lemma SetStatusEffect(s: System, e: Event)
    requires SystemInv(s) && Possible(s, e) && e.SetStatus?
    ensures var s' := Advance(s, e);
            if e.agent !in s.registry.agents then s' == s
            else
              var row := s.registry.agents[e.agent].(status := e.status, updatedAt := e.now);
              && s' == s.(registry := Registry.State(s.registry.agents[e.agent := row], s.registry.index),
                          disk := s'.disk)
              && Stores(s.disk, s'.disk, map[], map[e.agent := row])
  {
    if e.agent in s.registry.agents {
      RowsAreKeyed(s, e.agent);
      StoresAgent(s.disk, s.registry.agents[e.agent].(status := e.status, updatedAt := e.now));
    }
  }

  // ---------- Store writes, in order ----------

  /** The writes of an event, in the order in which the source makes them: an ended execution writes its
      agent's status, its task, and then its agent with the outcome. */
  lemma WritesInOrder(s: System, e: Event)
    requires SystemInv(s) && Possible(s, e) && (e.Begin? || e.Finish? || e.Error? ==> s.runs[e.k].task.id in s.tasks)
    ensures Writes(s, e) == ListedWrites(s, e)
  {
    match e
    case Submit(_, payload, _, _, _, _) => OrEmptyIs(payload);
    case Register(_, _, _, config, _) => OrEmptyIs(config);
    case Begin(_, _) => BeginInOrder(s, e);
    case Finish(_, _, _) => FinishInOrder(s, e);
    case Error(_, _, _) => ErrorInOrder(s, e);
    case _ =>
  }

  lemma BeginInOrder(s: System, e: Event)
    requires SystemInv(s) && Possible(s, e) && e.Begin? && s.runs[e.k].task.id in s.tasks
    ensures Writes(s, e) == ListedWrites(s, e)
  {
    var t := s.runs[e.k].task;
    if t.target !in s.registry.agents {
      RunFacts(TaskSideOf(s), e.k);
      UnfoundSide(s, e.k, "Agent not found: " + t.target, e.now);
      FailEffect(s, e.k, "Agent not found: " + t.target, e.now);
    }
  }

  lemma FinishInOrder(s: System, e: Event)
    requires SystemInv(s) && Possible(s, e) && e.Finish? && s.runs[e.k].task.id in s.tasks
    ensures Writes(s, e) == ListedWrites(s, e)
  {
  }

  lemma ErrorInOrder(s: System, e: Event)
    requires SystemInv(s) && Possible(s, e) && e.Error? && s.runs[e.k].task.id in s.tasks
    ensures Writes(s, e) == ListedWrites(s, e)
  {
    FailEffect(s, e.k, e.message, e.now);
  }

  function StatusRow(s: System, id: Id, status: AgentStatus, now: int): seq<Write> {
    if id in s.registry.agents then [PutAgent(s.registry.agents[id].(status := status, updatedAt := now))] else []
  }

  function EndedRow(s: System, k: nat, good: bool, now: int): seq<Write>
    requires k in s.runs && s.runs[k].Executing?
  {
    if s.runs[k].task.target in s.registry.agents then [PutAgent(RowAfterEnd(s, k, good, now))] else []
  }

  ghost function ListedWrites(s: System, e: Event): seq<Write>
    requires Possible(s, e) && (e.Begin? || e.Finish? || e.Error? ==> s.runs[e.k].task.id in s.tasks)
  {
    match e
    case Submit(target, payload, priority, queue, uuid, now) =>
      if target !in s.registry.agents then []
      else
        [PutTask(Record(uuid, target, OrEmptyDict(payload), queue, priority, TaskStatus.Queued, Null, None,
                        Some(now), None))]
    case Poll(_) => []
    case Begin(k, now) =>
      var id := s.runs[k].task.target;
      if id in s.registry.agents then StatusRow(s, id, AgentStatus.Running, now)
      else [PutTask(RecordAfterFail(s, k, "Agent not found: " + id))]
    case Finish(k, result, now) =>
      StatusRow(s, s.runs[k].task.target, s.runs[k].previous, now)
      + [PutTask(RecordAfterFinish(s, k, result, now))] + EndedRow(s, k, true, now)
    case Error(k, message, now) =>
      StatusRow(s, s.runs[k].task.target, s.runs[k].previous, now)
      + [PutTask(RecordAfterFail(s, k, message))] + EndedRow(s, k, false, now)
    case Register(agent, name, kind, config, now) =>
      [PutAgent(AgentRow(agent, name, kind, OrEmptyDict(config), AgentStatus.Pending, now, now, 0, 0))]
    case Remove(agent) => if agent in s.registry.agents then [DropAgent(agent)] else []
    case SetStatus(agent, status, now) => StatusRow(s, agent, status, now)
  }
}
