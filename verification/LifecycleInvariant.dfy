/** The invariant of the whole system, kept by every event of every run. */
module LifecycleInvariant {
  import opened Prelude
  import opened Records
  import opened StableQueue
  import opened Scheduling
  import opened Lifecycle
  import opened TaskInvariant
  import Registry

  /** Registry, index and stored agents agree. */
  ghost predicate AgentsOk(s: System) {
    && Registry.Consistent(s.registry)
    && (s.disk.Some? ==> s.disk.value.agents == s.registry.agents)
  }

  ghost predicate SystemInv(s: System) {
    Inv(TaskSideOf(s)) && AgentsOk(s)
  }

  // ---------- Agents ----------

  lemma UpdateAgentKeeps(s: System, id: Id, row: AgentRow)
    requires AgentsOk(s)
    requires id in s.registry.agents ==> row.id == id && row.kind == s.registry.agents[id].kind
    ensures AgentsOk(UpdateAgent(s, id, row))
    ensures TaskSideOf(UpdateAgent(s, id, row)) == TaskSideOf(s)
  {
    if id in s.registry.agents {
      Registry.UpdateConsistent(s.registry, row);
    }
  }

  lemma SettleKeeps(s: System, id: Id, previous: AgentStatus, good: bool, now: int)
    requires SystemInv(s)
    ensures SystemInv(Settle(s, id, previous, good, now))
    ensures TaskSideOf(Settle(s, id, previous, good, now)) == TaskSideOf(s)
  {
    if id in s.registry.agents {
      UpdateAgentKeeps(s, id, Settled(s.registry.agents[id], previous, good, now));
    }
  }

  lemma ChangeStatusKeeps(s: System, id: Id, status: AgentStatus, now: int)
    requires AgentsOk(s)
    ensures AgentsOk(ChangeStatus(s, id, status, now))
    ensures TaskSideOf(ChangeStatus(s, id, status, now)) == TaskSideOf(s)
  {
    if id in s.registry.agents {
      UpdateAgentKeeps(s, id, Registry.WithStatus(s.registry.agents[id], status, now));
    }
  }

  lemma RegisterKeeps(s: System, row: AgentRow)
    requires SystemInv(s) && row.id !in s.registry.agents
    ensures SystemInv(RegisterAgent(s, row))
  {
    Registry.RegisterConsistent(s.registry, row);
    assert TaskSideOf(RegisterAgent(s, row)) == TaskSideOf(s);
  }

  lemma RemoveKeeps(s: System, id: Id)
    requires SystemInv(s)
    ensures SystemInv(RemoveAgent(s, id))
  {
    Registry.DeleteConsistent(s.registry, id);
    assert TaskSideOf(RemoveAgent(s, id)) == TaskSideOf(s);
  }

  // ---------- Tasks ----------

  lemma SubmitKeeps(s: System, target: Id, t: Task, now: int)
    requires SystemInv(s) && t.id !in s.tasks && t.payload.OrEmpty() == t.payload && t.target == target
             && t.retries == 0
    ensures SystemInv(SubmitTask(s, target, t, now))
  {
    if target in s.registry.agents {
      var ts := TaskSideOf(s);
      NewRecordKeeps(ts, NewRecord(t, now));
      PushKeeps(Recorded(ts, NewRecord(t, now)), t);
      assert TaskSideOf(SubmitTask(s, target, t, now)) == Pushed(Recorded(ts, NewRecord(t, now)), t);
    }
  }

  /** The engine never delays tasks, so its polls promote nothing. */
  lemma PollDispatches(s: System, now: int)
    requires s.scheduler.scheduled == []
    ensures Dequeue(s.scheduler, DEFAULT_QUEUE, now) == Take(s.scheduler, DEFAULT_QUEUE)
    ensures TaskSideOf(PollOnce(s, now)) == Dispatched(TaskSideOf(s))
  {
    assert PromoteDue(s.scheduler, now) == s.scheduler;
  }

  lemma PollKeeps(s: System, now: int)
    requires SystemInv(s)
    ensures SystemInv(PollOnce(s, now))
  {
    PollDispatches(s, now);
    DispatchKeeps(TaskSideOf(s));
  }

  /** The task of an execution is in flight and on record. */
  lemma RunFacts(ts: TaskSide, k: nat)
    requires Inv(ts) && k in ts.runs
    ensures var t := ts.runs[k].task;
            && t.id in ts.tasks && t.id in ts.scheduler.inFlight && ts.scheduler.inFlight[t.id] == t
            && Matches(ts.tasks[t.id], t) && t.queue == DEFAULT_QUEUE && t.retries <= ts.scheduler.maxRetries
            && (ts.runs[k].Executing? <==> ts.tasks[t.id].status.Running?)
            && !ts.tasks[t.id].status.Terminal()
  {
    assert RunOk(ts, k, ts.runs[k]);
    assert FlyingOk(ts, ts.runs[k].task.id, ts.runs[k].task);
  }

  function FailedRecord(r: Record, retry: bool, message: string): Record {
    r.(error := Some(message), status := if retry then TaskStatus.Retrying else TaskStatus.Failed)
  }

  function OneMoreRetry(t: Task): Task {
    t.(retries := t.retries + 1)
  }

  /** What the failure of an execution does to its task. */
  function Failing(ts: TaskSide, k: nat, message: string): TaskSide
    requires k in ts.runs && ts.runs[k].task.id in ts.tasks
  {
    var t := ts.runs[k].task;
    if t.retries < ts.scheduler.maxRetries
    then Pushed(Landed(ts, k, FailedRecord(ts.tasks[t.id], true, message)), OneMoreRetry(t))
    else Landed(ts, k, FailedRecord(ts.tasks[t.id], false, message))
  }

  lemma FailingKeeps(ts: TaskSide, k: nat, message: string)
    requires Inv(ts) && k in ts.runs && ts.runs[k].task.id in ts.tasks
    ensures Inv(Failing(ts, k, message))
  {
    RunFacts(ts, k);
    var t := ts.runs[k].task;
    if t.retries < ts.scheduler.maxRetries {
      RetryKeeps(ts, k, FailedRecord(ts.tasks[t.id], true, message));
    } else {
      LandKeeps(ts, k, FailedRecord(ts.tasks[t.id], false, message));
    }
  }

  lemma RetryKeeps(ts: TaskSide, k: nat, r: Record)
    requires Inv(ts) && Lands(ts, k, r) && r.status.Retrying? && ts.runs[k].task.retries < ts.scheduler.maxRetries
    ensures Inv(Pushed(Landed(ts, k, r), OneMoreRetry(ts.runs[k].task)))
  {
    LandKeeps(ts, k, r);
    var ts1 := Landed(ts, k, r);
    assert ts1.tasks[r.id] == r;
    PushKeeps(ts1, OneMoreRetry(ts.runs[k].task));
  }

  lemma FailSide(s: System, k: nat, message: string, now: int)
    requires Inv(TaskSideOf(s)) && k in s.runs && s.runs[k].task.id in s.tasks
    ensures TaskSideOf(FailExecution(s, k, message, now)) == Failing(TaskSideOf(s), k, message)
  {
    RunFacts(TaskSideOf(s), k);
  }

  /** Marking the record "running" on the way to failing leaves no trace. */
  lemma UnfoundSide(s: System, k: nat, message: string, now: int)
    requires Inv(TaskSideOf(s)) && k in s.runs && s.runs[k].task.id in s.tasks
    ensures FailExecution(MarkedRunning(s, k), k, message, now) == FailExecution(s, k, message, now)
  {
    var id := s.runs[k].task.id;
    var r := FailedRecord(s.tasks[id], Fail(s.scheduler, id).1, message);
    assert s.tasks[id := s.tasks[id].(status := TaskStatus.Running)][id := r] == s.tasks[id := r];
  }

  function MarkedRunning(s: System, k: nat): System
    requires k in s.runs && s.runs[k].task.id in s.tasks
  {
    var id := s.runs[k].task.id;
    s.(tasks := s.tasks[id := s.tasks[id].(status := TaskStatus.Running)])
  }

  lemma FailKeeps(s: System, k: nat, message: string, now: int)
    requires SystemInv(s) && k in s.runs
    ensures SystemInv(FailExecution(s, k, message, now))
    ensures FailExecution(s, k, message, now).registry == s.registry
  {
    RunFacts(TaskSideOf(s), k);
    FailSide(s, k, message, now);
    FailingKeeps(TaskSideOf(s), k, message);
  }

  lemma ErrorKeeps(s: System, k: nat, message: string, now: int)
    requires SystemInv(s) && k in s.runs && s.runs[k].Executing?
    ensures SystemInv(ErrorInExecution(s, k, message, now))
  {
    FailKeeps(s, k, message, now);
    SettleKeeps(FailExecution(s, k, message, now), s.runs[k].task.target, s.runs[k].previous, false, now);
  }

  lemma BeginKeeps(s: System, k: nat, now: int)
    requires SystemInv(s) && k in s.runs && s.runs[k].Spawned?
    ensures SystemInv(BeginExecution(s, k, now))
  {
    var ts := TaskSideOf(s);
    var t := s.runs[k].task;
    RunFacts(ts, k);
    if t.target in s.registry.agents {
      var previous := s.registry.agents[t.target].status;
      StartKeeps(ts, k, previous);
      var s1 := s.(tasks := s.tasks[t.id := RecordOf(s, t).(status := TaskStatus.Running)],
                   runs := s.runs[k := Executing(t, previous)]);
      assert TaskSideOf(s1) == Started(ts, k, previous);
      ChangeStatusKeeps(s1, t.target, AgentStatus.Running, now);
    } else {
      UnfoundSide(s, k, NotFound(t.target), now);
      FailKeeps(s, k, NotFound(t.target), now);
    }
  }

  function CompletedRecord(r: Record, result: Json, now: int): Record {
    r.(status := TaskStatus.Completed, result := result, completedAt := Some(now))
  }

  lemma CompleteKeeps(s: System, k: nat, result: Json, now: int)
    requires SystemInv(s) && k in s.runs
    ensures s.runs[k].task.id in s.tasks
    ensures TaskSideOf(CompleteExecution(s, k, result, now))
         == Landed(TaskSideOf(s), k, CompletedRecord(s.tasks[s.runs[k].task.id], result, now))
    ensures SystemInv(CompleteExecution(s, k, result, now))
  {
    RunFacts(TaskSideOf(s), k);
    LandKeeps(TaskSideOf(s), k, CompletedRecord(s.tasks[s.runs[k].task.id], result, now));
  }

  lemma FinishKeeps(s: System, k: nat, result: Json, now: int)
    requires SystemInv(s) && k in s.runs && s.runs[k].Executing?
    ensures SystemInv(FinishExecution(s, k, result, now))
  {
    CompleteKeeps(s, k, result, now);
    SettleKeeps(CompleteExecution(s, k, result, now), s.runs[k].task.target, s.runs[k].previous, true, now);
  }

  // ---------- Restart ----------

  /** A row as a new process remembers it. */
  function Restored(r: Record): Record {
    if r.status.Terminal() then r else r.(status := TaskStatus.Queued)
  }

  lemma SettledRecordKeeps(ts: TaskSide, r: Record)
    requires Inv(ts) && ts.rows == None && r.id !in ts.tasks && RecordOk(r.id, r) && r.status.Terminal()
    ensures Inv(Recorded(ts, r))
  {
    NewRecordQueues(ts, r);
    NewRecordRuns(ts, r);
    NewRecordLives(ts, r);
  }

  ghost predicate RowsReadable(rows: map<TaskId, Record>) {
    forall id :: id in rows ==> RecordOk(id, rows[id]) && (rows[id].status.Terminal() || Waits(rows[id]))
  }

  /** What a restored task waits as: its own queue and priority, no retries spent. */
  predicate FreshEntry(e: Waiting<Task>, now: int) {
    e.item.retries == 0 && e.item.enqueuedAt == now
  }

  /** The state after reading back the rows in `order`. */
  ghost predicate RestoredFrom(s0: System, s: System, rows: map<TaskId, Record>, order: seq<TaskId>, now: int) {
    && Inv(TaskSideOf(s).(rows := None))
    && (forall id :: id in s.tasks <==> id in order)
    && (forall id :: id in s.tasks ==> id in rows && s.tasks[id] == Restored(rows[id]))
    && (forall q, e :: q in s.scheduler.queues && e in s.scheduler.queues[q] ==> FreshEntry(e, now))
    && s.scheduler.inFlight == map[] && s.runs == map[]
    && s == s0.(tasks := s.tasks, scheduler := s.scheduler)
    && s.scheduler.maxRetries == s0.scheduler.maxRetries
  }

  /** The task a row is queued as. */
  function RequeuedTask(r: Record, now: int): Task {
    Stamp(r.id, Request(Some(r.id), r.target, r.payload.OrEmpty(), None, None), r.queue, r.priority, now)
  }

  lemma RestoreOneSide(s: System, r: Record, now: int)
    requires Inv(TaskSideOf(s).(rows := None)) && r.id !in s.tasks && RecordOk(r.id, r)
    requires r.status.Terminal() || Waits(r)
    ensures Inv(TaskSideOf(RestoreTask(s, r, now)).(rows := None))
  {
    var ts := TaskSideOf(s).(rows := None);
    var s' := RestoreTask(s, r, now);
    if r.status.Terminal() {
      SettledRecordKeeps(ts, r);
      assert TaskSideOf(s').(rows := None) == Recorded(ts, r);
    } else {
      NewRecordKeeps(ts, Restored(r));
      PushKeeps(Recorded(ts, Restored(r)), RequeuedTask(r, now));
      assert TaskSideOf(s').(rows := None) == Pushed(Recorded(ts, Restored(r)), RequeuedTask(r, now));
    }
  }

  lemma RestoreOneKeeps(s0: System, s: System, rows: map<TaskId, Record>, before: seq<TaskId>, id: TaskId, now: int)
    requires RestoredFrom(s0, s, rows, before, now)
    requires id in rows && id !in before && RowsReadable(rows)
    ensures RestoredFrom(s0, RestoreTask(s, rows[id], now), rows, before + [id], now)
  {
    var r := rows[id];
    var t := RequeuedTask(r, now);
    RestoreOneSide(s, r, now);
    InsertMembers(QueueOf(s.scheduler.queues, t.queue), Waiting(t, t.priority));
  }

  lemma {:induction false} RestoreAllKeeps(s0: System, rows: map<TaskId, Record>, order: seq<TaskId>, now: int)
    requires RowsReadable(rows) && NoDuplicates(order) && forall id :: id in order ==> id in rows
    requires s0.tasks == map[] && s0.scheduler == NewScheduler(s0.scheduler.maxRetries) && s0.runs == map[]
    ensures RestoredFrom(s0, RestoreTasks(s0, rows, order, now), rows, order, now)
  {
    if order != [] {
      var n := |order| - 1;
      RestoreAllKeeps(s0, rows, order[..n], now);
      assert order == order[..n] + [order[n]];
      RestoreOneKeeps(s0, RestoreTasks(s0, rows, order[..n], now), rows, order[..n], order[n], now);
    }
  }

  lemma StoredRowsReadable(s: System)
    requires SystemInv(s) && s.disk.Some?
    ensures RowsReadable(s.disk.value.tasks)
  {
    var ts := TaskSideOf(s);
    forall id | id in s.disk.value.tasks
      ensures RecordOk(id, s.disk.value.tasks[id])
      ensures s.disk.value.tasks[id].status.Terminal() || Waits(s.disk.value.tasks[id])
    {
      assert RowOk(ts.tasks[id], ts.rows.value[id]) && RecordOk(id, ts.tasks[id]);
    }
  }

  /** A store a new process can start from. */
  ghost predicate Readable(disk: Option<Disk>) {
    disk.Some? ==> RowsReadable(disk.value.tasks) && Registry.RowsKeyed(disk.value.agents)
  }

  /** A new process satisfies the invariant and remembers exactly what the store holds. */
  lemma RestartFromKeeps(maxRetries: nat, disk: Option<Disk>, taskOrder: seq<TaskId>, agentOrder: seq<Id>, now: int)
    requires Readable(disk)
    requires disk.Some? ==>
               Enumerates(taskOrder, disk.value.tasks.Keys) && Enumerates(agentOrder, disk.value.agents.Keys)
    ensures var s' := RestartFrom(maxRetries, disk, taskOrder, agentOrder, now);
            && SystemInv(s')
            && s'.disk == disk
            && s'.scheduler.inFlight == map[]
            && s'.scheduler.maxRetries == maxRetries
            && (disk.Some? ==>
                  && s'.tasks.Keys == disk.value.tasks.Keys
                  && (forall id :: id in s'.tasks ==> s'.tasks[id] == Restored(disk.value.tasks[id]))
                  && (forall q, e :: q in s'.scheduler.queues && e in s'.scheduler.queues[q] ==> FreshEntry(e, now))
                  && s'.registry.agents == disk.value.agents)
  {
    if disk.Some? {
      var registry := Registry.State(disk.value.agents, Registry.RebuildIndex(disk.value.agents, agentOrder));
      var s0 := Boot(maxRetries, disk).(registry := registry);
      RestoreAllKeeps(s0, disk.value.tasks, taskOrder, now);
      Registry.RebuildConsistent(disk.value.agents, agentOrder);
      RestartRows(s0, RestoreTasks(s0, disk.value.tasks, taskOrder, now), disk.value.tasks, taskOrder, now);
    }
  }

  lemma RestartRows(s0: System, s: System, rows: map<TaskId, Record>, order: seq<TaskId>, now: int)
    requires RestoredFrom(s0, s, rows, order, now) && RowsReadable(rows) && Enumerates(order, rows.Keys)
    requires s0.disk.Some? && s0.disk.value.tasks == rows
    ensures Inv(TaskSideOf(s)) && s.tasks.Keys == rows.Keys
  {
    var ts := TaskSideOf(s);
    var ts0 := ts.(rows := None);
    forall id | id in ts.tasks
      ensures LiveOk(ts, id)
    {
      assert LiveOk(ts0, id);
      assert HasRun(ts, id) == HasRun(ts0, id);
    }
    forall q, e | q in ts.scheduler.queues && e in ts.scheduler.queues[q]
      ensures EntryOk(ts, q, e)
    {
      assert EntryOk(ts0, q, e);
    }
  }

  // ---------- Torn writes ----------

  /** What `disk` held of tasks is still in `disk'`; terminal rows are untouched. */
  ghost predicate KeepsRows(disk: Option<Disk>, disk': Option<Disk>) {
    && disk.Some? == disk'.Some?
    && (disk.Some? ==> forall id :: id in disk.value.tasks ==>
          && id in disk'.value.tasks
          && (disk.value.tasks[id].status.Terminal() ==> disk'.value.tasks[id] == disk.value.tasks[id])
          && SameTask(disk.value.tasks[id], disk'.value.tasks[id]))
  }

  /** The parts of a task's record that never change. */
  predicate SameTask(r: Record, r': Record) {
    && r.id == r'.id && r.target == r'.target && r.payload == r'.payload
    && r.queue == r'.queue && r.priority == r'.priority && r.submittedAt == r'.submittedAt
  }

  /** A task write ends or requeues a live task, or records a new one. */
  ghost predicate GoodWrite(s: System, w: Write) {
    w.PutTask? ==>
      && RecordOk(w.record.id, w.record) && (w.record.status.Terminal() || Waits(w.record))
      && (w.record.id in s.tasks ==>
         !s.tasks[w.record.id].status.Terminal() && SameTask(s.tasks[w.record.id], w.record))
  }

  lemma EndWritesAreGood(s: System, k: nat, good: bool, record: Record, now: int)
    requires k in s.runs && s.runs[k].Executing? && GoodWrite(s, PutTask(record))
    ensures forall w :: w in EndWrites(s, k, good, record, now) ==> GoodWrite(s, w)
  {
  }

  /** The record an ending execution writes. */
  lemma EndRecordIsGood(s: System, k: nat, record: Record)
    requires SystemInv(s) && k in s.runs && s.runs[k].task.id in s.tasks
    requires record.status.Terminal() || record.status.Retrying?
    requires SameTask(s.tasks[s.runs[k].task.id], record)
    ensures GoodWrite(s, PutTask(record))
  {
    RunFacts(TaskSideOf(s), k);
    assert RecordOk(s.runs[k].task.id, TaskSideOf(s).tasks[s.runs[k].task.id]);
  }

  lemma WritesAreGood(s: System, e: Event)
    requires SystemInv(s) && Possible(s, e)
    ensures forall w :: w in Writes(s, e) ==> GoodWrite(s, w)
  {
    match e
    case Begin(k, now) =>
      RunFacts(TaskSideOf(s), k);
      if s.runs[k].task.target !in s.registry.agents {
        EndRecordIsGood(s, k, RecordOf(BeginExecution(s, k, now), s.runs[k].task));
      }
    case Finish(k, result, now) =>
      RunFacts(TaskSideOf(s), k);
      var record := RecordOf(CompleteExecution(s, k, result, now), s.runs[k].task);
      EndRecordIsGood(s, k, record);
      EndWritesAreGood(s, k, true, record, now);
    case Error(k, message, now) =>
      RunFacts(TaskSideOf(s), k);
      var record := RecordOf(FailExecution(s, k, message, now), s.runs[k].task);
      EndRecordIsGood(s, k, record);
      EndWritesAreGood(s, k, false, record, now);
    case _ =>
  }

  lemma OneWriteKeeps(s: System, disk: Option<Disk>, w: Write)
    requires SystemInv(s) && Readable(disk) && KeepsRows(s.disk, disk) && GoodWrite(s, w)
    ensures Readable(DoWrite(disk, w)) && KeepsRows(s.disk, DoWrite(disk, w))
  {
    if w.PutTask? && disk.Some? && w.record.id in s.disk.value.tasks {
      var ts := TaskSideOf(s);
      assert RowOk(ts.tasks[w.record.id], ts.rows.value[w.record.id]);
    }
  }

  lemma {:induction false} WritesKeep(s: System, disk: Option<Disk>, ws: seq<Write>)
    requires SystemInv(s) && Readable(disk) && KeepsRows(s.disk, disk)
    requires forall w :: w in ws ==> GoodWrite(s, w)
    ensures Readable(DoWrites(disk, ws)) && KeepsRows(s.disk, DoWrites(disk, ws))
    decreases |ws|
  {
    if ws != [] {
      OneWriteKeeps(s, disk, ws[0]);
      WritesKeep(s, DoWrite(disk, ws[0]), ws[1..]);
    }
  }

  /** However far an event got with its store writes, the store can be started from, and has lost nothing. */
  lemma TornDiskKeeps(s: System, e: Event, written: nat)
    requires SystemInv(s) && Possible(s, e) && written <= |Writes(s, e)|
    ensures Readable(TornDisk(s, e, written)) && KeepsRows(s.disk, TornDisk(s, e, written))
  {
    if s.disk.Some? {
      StoredRowsReadable(s);
    }
    WritesAreGood(s, e);
    var ws := Writes(s, e)[..written];
    forall w | w in ws
      ensures GoodWrite(s, w)
    {
      assert w in Writes(s, e);
    }
    WritesKeep(s, s.disk, ws);
  }

  lemma TwoAgentWrites(disk: Option<Disk>, a: AgentRow, r: Record, b: AgentRow)
    requires a.id == b.id
    ensures DoWrites(disk, [PutAgent(a)] + [PutTask(r)] + [PutAgent(b)]) == SaveAgent(SaveTask(disk, r), b)
  {
    var ws := [PutAgent(a)] + [PutTask(r)] + [PutAgent(b)];
    assert ws[1..] == [PutTask(r), PutAgent(b)] && ws[1..][1..] == [PutAgent(b)];
    assert DoWrites(disk, ws) == DoWrites(SaveAgent(disk, a), [PutTask(r), PutAgent(b)]);
    assert DoWrites(SaveAgent(disk, a), [PutTask(r), PutAgent(b)])
        == DoWrites(SaveTask(SaveAgent(disk, a), r), [PutAgent(b)]);
    assert DoWrites(SaveTask(SaveAgent(disk, a), r), [PutAgent(b)]) == SaveAgent(SaveTask(SaveAgent(disk, a), r), b);
    if disk.Some? {
      assert disk.value.agents[a.id := a][b.id := b] == disk.value.agents[b.id := b];
    }
  }

  lemma EndWritesAreComplete(s: System, k: nat, good: bool, record: Record, now: int)
    requires k in s.runs && s.runs[k].Executing? && AgentsOk(s)
    ensures var target := s.runs[k].task.target;
            DoWrites(s.disk, EndWrites(s, k, good, record, now)) ==
              if target in s.registry.agents
              then SaveAgent(SaveTask(s.disk, record),
                  Settled(s.registry.agents[target], s.runs[k].previous, good, now))
              else SaveTask(s.disk, record)
  {
    var Executing(t, previous) := s.runs[k];
    if t.target in s.registry.agents {
      var row := s.registry.agents[t.target];
      TwoAgentWrites(s.disk, Registry.WithStatus(row, previous, now), record, Settled(row, previous, good, now));
    } else {
      assert EndWrites(s, k, good, record, now) == [PutTask(record)];
    }
  }

  /** Carried out completely, the writes of an event leave the store of the next state. */
  lemma WritesAreComplete(s: System, e: Event)
    requires SystemInv(s) && Possible(s, e)
    ensures DoWrites(s.disk, Writes(s, e)) == Advance(s, e).disk
  {
    match e
    case Begin(k, now) =>
      RunFacts(TaskSideOf(s), k);
    case Finish(k, result, now) =>
      RunFacts(TaskSideOf(s), k);
      EndWritesAreComplete(s, k, true, RecordOf(CompleteExecution(s, k, result, now), s.runs[k].task), now);
    case Error(k, message, now) =>
      RunFacts(TaskSideOf(s), k);
      EndWritesAreComplete(s, k, false, RecordOf(FailExecution(s, k, message, now), s.runs[k].task), now);
    case _ =>
  }

  // ---------- Every run ----------

  lemma AdvanceKeepsInv(s: System, e: Event)
    requires SystemInv(s) && Possible(s, e)
    ensures SystemInv(Advance(s, e))
  {
    match e
    case Submit(target, payload, priority, queue, uuid, now) =>
      SubmitKeeps(s, target, NewTask(target, payload, priority, queue, uuid, now), now);
    case Poll(now) => PollKeeps(s, now);
    case Begin(k, now) => BeginKeeps(s, k, now);
    case Finish(k, result, now) => FinishKeeps(s, k, result, now);
    case Error(k, message, now) => ErrorKeeps(s, k, message, now);
    case Register(agent, name, kind, config, now) =>
      RegisterKeeps(s, Registry.NewAgent(agent, name, kind, config, now));
    case Remove(agent) => RemoveKeeps(s, agent);
    case SetStatus(agent, status, now) => ChangeStatusKeeps(s, agent, status, now);
  }

  lemma StepKeepsInv(s: System, e: Event)
    requires SystemInv(s) && Enabled(s, e)
    ensures SystemInv(Apply(s, e))
  {
    if e.Restart? {
      TornDiskKeeps(s, e.during, e.written);
      RestartFromKeeps(s.scheduler.maxRetries, TornDisk(s, e.during, e.written), e.taskOrder, e.agentOrder, e.now);
    } else {
      AdvanceKeepsInv(s, e);
    }
  }

  /** The invariant holds after every run, however executions interleave and wherever crashes fall. */
  lemma {:induction false} RunKeepsInv(s: System, events: seq<Event>)
    requires SystemInv(s) && Feasible(s, events)
    ensures SystemInv(Run(s, events))
    decreases |events|
  {
    if events != [] {
      StepKeepsInv(s, events[0]);
      RunKeepsInv(Apply(s, events[0]), events[1..]);
    }
  }

  lemma BootInv(maxRetries: nat, disk: Option<Disk>)
    requires disk == None || disk == Some(Disk(map[], map[], map[]))
    ensures SystemInv(Boot(maxRetries, disk))
  {
  }
}
