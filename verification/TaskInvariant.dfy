/** The lifecycle invariant of tasks: each is waiting once in one queue, in flight with one
    execution, or terminal; and the store's rows follow. */
module TaskInvariant {
  import opened Prelude
  import opened Records
  import opened StableQueue
  import opened Scheduling
  import opened TaskQueues
  import opened Lifecycle

  /** The part of the system that task ids live in. */
  datatype TaskSide = TaskSide(
    scheduler: Scheduler,
    tasks: map<TaskId, Record>,
    runs: map<nat, Execution>,
    spawned: nat,
    rows: Option<map<TaskId, Record>>)

  function TaskSideOf(s: System): TaskSide {
    TaskSide(s.scheduler, s.tasks, s.runs, s.spawned, if s.disk.None? then None else Some(s.disk.value.tasks))
  }

  function PutRow(rows: Option<map<TaskId, Record>>, r: Record): Option<map<TaskId, Record>> {
    if rows.None? then None else Some(rows.value[r.id := r])
  }

  predicate Waits(r: Record) {
    r.status.Queued? || r.status.Retrying?
  }

  /** The record describes the task. */
  predicate Matches(r: Record, t: Task) {
    && r.id == t.id && r.target == t.target && r.payload == t.payload
    && r.queue == t.queue && r.priority == t.priority
  }

  predicate RecordOk(id: TaskId, r: Record) {
    r.id == id && r.payload.OrEmpty() == r.payload
  }

  predicate EntryOk(ts: TaskSide, q: string, e: Waiting<Task>) {
    && e.item.queue == q && e.item.priority == e.priority
    && e.item.id in ts.tasks && Matches(ts.tasks[e.item.id], e.item) && Waits(ts.tasks[e.item.id])
    && e.item.id !in ts.scheduler.inFlight
    && e.item.retries <= ts.scheduler.maxRetries
  }

  predicate FlyingOk(ts: TaskSide, id: TaskId, t: Task) {
    && t.id == id && id in ts.tasks && Matches(ts.tasks[id], t) && !ts.tasks[id].status.Terminal()
    && t.queue == DEFAULT_QUEUE && t.retries <= ts.scheduler.maxRetries
  }

  /** An execution runs the task that is in flight; only a begun execution makes its record "running". */
  predicate RunOk(ts: TaskSide, k: nat, x: Execution) {
    && k < ts.spawned
    && x.task.id in ts.scheduler.inFlight && ts.scheduler.inFlight[x.task.id] == x.task
    && x.task.id in ts.tasks && (x.Executing? <==> ts.tasks[x.task.id].status.Running?)
  }

  ghost predicate InQueue(ts: TaskSide, id: TaskId)
    requires id in ts.tasks
  {
    id in TaskIds(QueueOf(ts.scheduler.queues, ts.tasks[id].queue))
  }

  ghost predicate HasRun(ts: TaskSide, id: TaskId) {
    exists k :: k in ts.runs && ts.runs[k].task.id == id
  }

  ghost predicate LiveOk(ts: TaskSide, id: TaskId)
    requires id in ts.tasks
  {
    ts.tasks[id].status.Terminal() || InQueue(ts, id) || (id in ts.scheduler.inFlight && HasRun(ts, id))
  }

  /** The stored row of a record: identical once the task is terminal; before that it differs at
      most in its status, and is never "running". */
  predicate RowOk(r: Record, row: Record) {
    && row == r.(status := row.status)
    && (if r.status.Terminal() then row == r else Waits(row))
  }

  ghost predicate RecordsOk(ts: TaskSide) {
    forall id :: id in ts.tasks ==> RecordOk(id, ts.tasks[id])
  }

  ghost predicate QueuesOk(ts: TaskSide) {
    && (forall q, e :: q in ts.scheduler.queues && e in ts.scheduler.queues[q] ==> EntryOk(ts, q, e))
    && (forall q :: q in ts.scheduler.queues ==> DistinctTasks(ts.scheduler.queues[q]))
  }

  ghost predicate FlightOk(ts: TaskSide) {
    forall id :: id in ts.scheduler.inFlight ==> FlyingOk(ts, id, ts.scheduler.inFlight[id])
  }

  ghost predicate RunsOk(ts: TaskSide) {
    && (forall k :: k in ts.runs ==> RunOk(ts, k, ts.runs[k]))
    && (forall j, k :: j in ts.runs && k in ts.runs && ts.runs[j].task.id == ts.runs[k].task.id ==> j == k)
  }

  ghost predicate RowsOk(ts: TaskSide) {
    ts.rows.Some? ==>
      && ts.rows.value.Keys == ts.tasks.Keys
      && forall id :: id in ts.tasks ==> RowOk(ts.tasks[id], ts.rows.value[id])
  }

  ghost predicate Lives(ts: TaskSide, loose: set<TaskId>) {
    forall id :: id in ts.tasks && id !in loose ==> LiveOk(ts, id)
  }

  ghost predicate Loose(ts: TaskSide, loose: set<TaskId>) {
    forall id :: id in loose ==>
      id in ts.tasks && Waits(ts.tasks[id]) && id !in ts.scheduler.inFlight && !InQueue(ts, id)
  }

  /** The invariant, except that the `loose` tasks wait but are not in their queues yet. */
  ghost predicate InvBut(ts: TaskSide, loose: set<TaskId>) {
    && ts.scheduler.scheduled == []
    && RecordsOk(ts) && QueuesOk(ts) && FlightOk(ts) && RunsOk(ts) && RowsOk(ts)
    && Lives(ts, loose) && Loose(ts, loose)
  }

  ghost predicate Inv(ts: TaskSide) {
    InvBut(ts, {})
  }

  // ---------- Elementary moves ----------

  function Pushed(ts: TaskSide, t: Task): TaskSide {
    ts.(scheduler := Push(ts.scheduler, t))
  }

  lemma PushKeepsQueues(ts: TaskSide, t: Task)
    requires InvBut(ts, {t.id}) && t.id in ts.tasks
    requires Matches(ts.tasks[t.id], t) && t.retries <= ts.scheduler.maxRetries
    ensures QueuesOk(Pushed(ts, t))
  {
    var e := Waiting(t, t.priority);
    var w := QueueOf(ts.scheduler.queues, t.queue);
    var ts' := Pushed(ts, t);
    InsertMembers(w, e);
    InsertDistinct(w, e);
    forall q, x | q in ts'.scheduler.queues && x in ts'.scheduler.queues[q]
      ensures EntryOk(ts', q, x)
    {
      if !(q == t.queue && x == e) {
        assert EntryOk(ts, q, x);
      }
    }
  }

  lemma PushKeepsLives(ts: TaskSide, t: Task)
    requires Lives(ts, {t.id}) && t.id in ts.tasks && ts.tasks[t.id].queue == t.queue
    ensures Lives(Pushed(ts, t), {})
  {
    var ts' := Pushed(ts, t);
    InsertIds(QueueOf(ts.scheduler.queues, t.queue), Waiting(t, t.priority));
    forall id | id in ts'.tasks
      ensures LiveOk(ts', id)
    {
      if id != t.id {
        assert LiveOk(ts, id);
        assert HasRun(ts', id) == HasRun(ts, id);
      }
    }
  }

  lemma PushKeeps(ts: TaskSide, t: Task)
    requires InvBut(ts, {t.id}) && t.id in ts.tasks
    requires Matches(ts.tasks[t.id], t) && t.retries <= ts.scheduler.maxRetries
    ensures Inv(Pushed(ts, t))
  {
    PushKeepsQueues(ts, t);
    PushKeepsLives(ts, t);
  }

  function Recorded(ts: TaskSide, r: Record): TaskSide {
    ts.(tasks := ts.tasks[r.id := r], rows := PutRow(ts.rows, r))
  }

  lemma NewRecordQueues(ts: TaskSide, r: Record)
    requires Inv(ts) && r.id !in ts.tasks
    ensures QueuesOk(Recorded(ts, r))
    ensures forall q, e :: q in ts.scheduler.queues && e in ts.scheduler.queues[q] ==> e.item.id != r.id
  {
    var ts' := Recorded(ts, r);
    forall q, e | q in ts'.scheduler.queues && e in ts'.scheduler.queues[q]
      ensures EntryOk(ts', q, e) && e.item.id != r.id
    {
      assert EntryOk(ts, q, e);
    }
  }

  lemma NewRecordLives(ts: TaskSide, r: Record)
    requires Inv(ts) && r.id !in ts.tasks
    ensures Lives(Recorded(ts, r), {r.id})
  {
    forall id | id in ts.tasks
      ensures LiveOk(Recorded(ts, r), id)
    {
      assert LiveOk(ts, id);
      assert HasRun(Recorded(ts, r), id) == HasRun(ts, id);
    }
  }

  lemma NewRecordLoose(ts: TaskSide, r: Record)
    requires Inv(ts) && r.id !in ts.tasks && r.status.Queued?
    ensures Loose(Recorded(ts, r), {r.id})
  {
    NewRecordQueues(ts, r);
    assert r.id in ts.scheduler.inFlight ==> FlyingOk(ts, r.id, ts.scheduler.inFlight[r.id]);
  }

  lemma NewRecordRuns(ts: TaskSide, r: Record)
    requires Inv(ts) && r.id !in ts.tasks
    ensures RunsOk(Recorded(ts, r)) && FlightOk(Recorded(ts, r))
  {
    forall k | k in ts.runs
      ensures RunOk(Recorded(ts, r), k, ts.runs[k])
    {
      assert RunOk(ts, k, ts.runs[k]);
    }
  }

  lemma NewRecordKeeps(ts: TaskSide, r: Record)
    requires Inv(ts) && r.id !in ts.tasks && RecordOk(r.id, r) && r.status.Queued?
    ensures InvBut(Recorded(ts, r), {r.id})
  {
    NewRecordQueues(ts, r);
    NewRecordRuns(ts, r);
    NewRecordLives(ts, r);
    NewRecordLoose(ts, r);
  }

  function Dispatched(ts: TaskSide): TaskSide {
    var (scheduler, task) := Take(ts.scheduler, DEFAULT_QUEUE);
    if task.None? then ts
    else ts.(scheduler := scheduler, runs := ts.runs[ts.spawned := Spawned(task.value)], spawned := ts.spawned + 1)
  }

  lemma DispatchQueues(ts: TaskSide)
    requires Inv(ts)
    ensures QueuesOk(Dispatched(ts))
  {
    var w := QueueOf(ts.scheduler.queues, DEFAULT_QUEUE);
    if w != [] {
      var ts' := Dispatched(ts);
      RestIds(w);
      forall q, e | q in ts'.scheduler.queues && e in ts'.scheduler.queues[q]
        ensures EntryOk(ts', q, e)
      {
        assert EntryOk(ts, q, e);
        assert EntryOk(ts, DEFAULT_QUEUE, w[0]);
      }
    }
  }

  lemma DispatchRuns(ts: TaskSide)
    requires Inv(ts)
    ensures RunsOk(Dispatched(ts)) && ts.spawned !in ts.runs
  {
    var ts', w := Dispatched(ts), QueueOf(ts.scheduler.queues, DEFAULT_QUEUE);
    assert ts.spawned in ts.runs ==> RunOk(ts, ts.spawned, ts.runs[ts.spawned]);
    if w != [] {
      forall k | k in ts'.runs
        ensures RunOk(ts', k, ts'.runs[k])
        ensures k != ts.spawned ==> ts'.runs[k].task.id != w[0].item.id
      {
        DispatchRun(ts, ts', w[0].item, k);
      }
    }
  }

  lemma DispatchRun(ts: TaskSide, ts': TaskSide, t: Task, k: nat)
    requires Inv(ts) && k in ts'.runs
    requires var w := QueueOf(ts.scheduler.queues, DEFAULT_QUEUE); w != [] && t == w[0].item
    requires ts'.tasks == ts.tasks && ts'.spawned == ts.spawned + 1 && ts'.runs == ts.runs[ts.spawned := Spawned(t)]
    requires ts'.scheduler.inFlight == ts.scheduler.inFlight[t.id := t]
    ensures RunOk(ts', k, ts'.runs[k])
    ensures k != ts.spawned ==> ts'.runs[k].task.id != t.id
  {
    var w := QueueOf(ts.scheduler.queues, DEFAULT_QUEUE);
    assert w[0] in w && EntryOk(ts, DEFAULT_QUEUE, w[0]);
    if k != ts.spawned {
      assert RunOk(ts, k, ts.runs[k]);
    }
  }

  lemma DispatchLives(ts: TaskSide)
    requires Inv(ts)
    ensures Lives(Dispatched(ts), {})
  {
    DispatchRuns(ts);
    forall id | id in ts.tasks
      ensures LiveOk(Dispatched(ts), id)
    {
      DispatchLive(ts, id);
    }
  }

  lemma DispatchFlight(ts: TaskSide)
    requires Inv(ts)
    ensures FlightOk(Dispatched(ts))
  {
    var w := QueueOf(ts.scheduler.queues, DEFAULT_QUEUE);
    if w != [] {
      assert EntryOk(ts, DEFAULT_QUEUE, w[0]);
      forall id | id in ts.scheduler.inFlight
        ensures FlyingOk(Dispatched(ts), id, ts.scheduler.inFlight[id])
      {
        assert FlyingOk(ts, id, ts.scheduler.inFlight[id]);
      }
    }
  }

  lemma DispatchKeeps(ts: TaskSide)
    requires Inv(ts)
    ensures Inv(Dispatched(ts))
  {
    DispatchQueues(ts);
    DispatchRuns(ts);
    DispatchFlight(ts);
    DispatchLives(ts);
  }

  lemma DispatchLive(ts: TaskSide, id: TaskId)
    requires Inv(ts) && id in ts.tasks && ts.spawned !in ts.runs
    ensures LiveOk(Dispatched(ts), id)
  {
    var w := QueueOf(ts.scheduler.queues, DEFAULT_QUEUE);
    assert LiveOk(ts, id);
    if w != [] {
      RestIds(w);
      var ts' := Dispatched(ts);
      if id == w[0].item.id {
        assert ts'.runs[ts.spawned].task.id == id;
      } else if HasRun(ts, id) {
        var k :| k in ts.runs && ts.runs[k].task.id == id;
        assert ts'.runs[k].task.id == id;
      }
    }
  }

  function Started(ts: TaskSide, k: nat, previous: AgentStatus): TaskSide
    requires k in ts.runs && ts.runs[k].task.id in ts.tasks
  {
    var t := ts.runs[k].task;
    ts.(tasks := ts.tasks[t.id := ts.tasks[t.id].(status := TaskStatus.Running)],
        runs := ts.runs[k := Executing(t, previous)])
  }

  lemma StartQueues(ts: TaskSide, k: nat, previous: AgentStatus)
    requires Inv(ts) && k in ts.runs && ts.runs[k].task.id in ts.tasks
    ensures QueuesOk(Started(ts, k, previous))
  {
    var ts' := Started(ts, k, previous);
    assert RunOk(ts, k, ts.runs[k]);
    forall q, e | q in ts'.scheduler.queues && e in ts'.scheduler.queues[q]
      ensures EntryOk(ts', q, e)
    {
      assert EntryOk(ts, q, e);
    }
  }

  lemma StartLive(ts: TaskSide, k: nat, previous: AgentStatus, id: TaskId)
    requires Inv(ts) && k in ts.runs && ts.runs[k].task.id in ts.tasks && id in ts.tasks
    ensures LiveOk(Started(ts, k, previous), id)
  {
    var ts' := Started(ts, k, previous);
    assert RunOk(ts, k, ts.runs[k]);
    assert LiveOk(ts, id);
    if HasRun(ts, id) {
      var j :| j in ts.runs && ts.runs[j].task.id == id;
      assert j in ts'.runs && ts'.runs[j].task.id == id;
    }
    assert ts'.runs[k].task == ts.runs[k].task;
    assert HasRun(ts', ts.runs[k].task.id);
  }

  lemma StartRuns(ts: TaskSide, k: nat, previous: AgentStatus)
    requires Inv(ts) && k in ts.runs && ts.runs[k].task.id in ts.tasks
    ensures RunsOk(Started(ts, k, previous))
  {
    var ts' := Started(ts, k, previous);
    forall j | j in ts'.runs
      ensures RunOk(ts', j, ts'.runs[j])
    {
      assert RunOk(ts, j, ts.runs[j]);
    }
  }

  lemma StartLives(ts: TaskSide, k: nat, previous: AgentStatus)
    requires Inv(ts) && k in ts.runs && ts.runs[k].task.id in ts.tasks
    ensures Lives(Started(ts, k, previous), {})
  {
    forall id | id in ts.tasks
      ensures LiveOk(Started(ts, k, previous), id)
    {
      StartLive(ts, k, previous, id);
    }
  }

  lemma StartRows(ts: TaskSide, k: nat, previous: AgentStatus)
    requires Inv(ts) && k in ts.runs && ts.runs[k].task.id in ts.tasks
    ensures RowsOk(Started(ts, k, previous)) && FlightOk(Started(ts, k, previous))
  {
    assert RunOk(ts, k, ts.runs[k]);
    forall id | id in ts.scheduler.inFlight
      ensures FlyingOk(Started(ts, k, previous), id, ts.scheduler.inFlight[id])
    {
      assert FlyingOk(ts, id, ts.scheduler.inFlight[id]);
    }
  }

  lemma StartKeeps(ts: TaskSide, k: nat, previous: AgentStatus)
    requires Inv(ts) && k in ts.runs && ts.runs[k].task.id in ts.tasks
    ensures Inv(Started(ts, k, previous))
  {
    StartQueues(ts, k, previous);
    StartRuns(ts, k, previous);
    StartRows(ts, k, previous);
    StartLives(ts, k, previous);
    assert Loose(Started(ts, k, previous), {});
  }

  /** The execution ends: the task leaves flight with a new record. */
  function Landed(ts: TaskSide, k: nat, r: Record): TaskSide
    requires k in ts.runs
  {
    var t := ts.runs[k].task;
    ts.(scheduler := ts.scheduler.(inFlight := ts.scheduler.inFlight - {t.id}),
        tasks := ts.tasks[t.id := r],
        runs := ts.runs - {k},
        rows := PutRow(ts.rows, r))
  }

  lemma LandRuns(ts: TaskSide, k: nat, r: Record)
    requires Inv(ts) && k in ts.runs && ts.runs[k].task.id in ts.tasks
    ensures RunsOk(Landed(ts, k, r))
  {
    var ts' := Landed(ts, k, r);
    forall j | j in ts'.runs
      ensures RunOk(ts', j, ts'.runs[j])
    {
      assert RunOk(ts, j, ts.runs[j]);
    }
  }

  lemma LandQueues(ts: TaskSide, k: nat, r: Record)
    requires Inv(ts) && k in ts.runs && ts.runs[k].task.id in ts.tasks
    ensures QueuesOk(Landed(ts, k, r))
    ensures forall q, e :: q in ts.scheduler.queues && e in ts.scheduler.queues[q] ==> e.item.id != ts.runs[k].task.id
  {
    var t := ts.runs[k].task;
    var ts' := Landed(ts, k, r);
    assert RunOk(ts, k, ts.runs[k]);
    forall q, e | q in ts'.scheduler.queues && e in ts'.scheduler.queues[q]
      ensures EntryOk(ts', q, e) && e.item.id != t.id
    {
      assert EntryOk(ts, q, e);
    }
  }

  lemma LandLive(ts: TaskSide, k: nat, r: Record, id: TaskId)
    requires Inv(ts) && k in ts.runs && ts.runs[k].task.id in ts.tasks
    requires id in ts.tasks && id != ts.runs[k].task.id
    ensures LiveOk(Landed(ts, k, r), id)
  {
    var ts' := Landed(ts, k, r);
    assert LiveOk(ts, id);
    if HasRun(ts, id) {
      var j :| j in ts.runs && ts.runs[j].task.id == id;
      assert j in ts'.runs && ts'.runs[j].task.id == id;
    }
  }

  lemma LandLives(ts: TaskSide, k: nat, r: Record)
    requires Inv(ts) && k in ts.runs && ts.runs[k].task.id in ts.tasks
    ensures Lives(Landed(ts, k, r), {ts.runs[k].task.id})
  {
    forall id | id in ts.tasks && id != ts.runs[k].task.id
      ensures LiveOk(Landed(ts, k, r), id)
    {
      LandLive(ts, k, r, id);
    }
  }

  lemma LandFlight(ts: TaskSide, k: nat, r: Record)
    requires Inv(ts) && k in ts.runs && ts.runs[k].task.id in ts.tasks
    ensures FlightOk(Landed(ts, k, r))
  {
    forall id | id in ts.scheduler.inFlight && id != ts.runs[k].task.id
      ensures FlyingOk(Landed(ts, k, r), id, ts.scheduler.inFlight[id])
    {
      assert FlyingOk(ts, id, ts.scheduler.inFlight[id]);
    }
  }

  /** The landed record agrees with the flying task, and ends the task or awaits a retry. */
  predicate Lands(ts: TaskSide, k: nat, r: Record) {
    && k in ts.runs && ts.runs[k].task.id in ts.tasks
    && Matches(r, ts.runs[k].task) && (r.status.Terminal() || r.status.Retrying?)
  }

  lemma LandRows(ts: TaskSide, k: nat, r: Record)
    requires Inv(ts) && Lands(ts, k, r)
    ensures RowsOk(Landed(ts, k, r)) && RecordsOk(Landed(ts, k, r))
  {
    var t := ts.runs[k].task;
    assert RunOk(ts, k, ts.runs[k]);
    assert RecordOk(t.id, ts.tasks[t.id]) && FlyingOk(ts, t.id, t);
  }

  /** The task ends, or is left to be pushed again. */
  lemma LandKeeps(ts: TaskSide, k: nat, r: Record)
    requires Inv(ts) && Lands(ts, k, r)
    ensures InvBut(Landed(ts, k, r), if r.status.Terminal() then {} else {r.id})
  {
    LandQueues(ts, k, r);
    LandRuns(ts, k, r);
    LandFlight(ts, k, r);
    LandRows(ts, k, r);
    LandLives(ts, k, r);
  }
}
