/** The life of tasks across engine, scheduler, registry and store, as one machine. Every event is a
    block of the source between two awaits; executions are the coroutines the engine has spawned. */
module Lifecycle {
  import opened Prelude
  import opened Records
  import opened Scheduling
  import Registry

  /** One entry of the throughput history. */
  datatype Outcome = Outcome(at: int, good: bool)

  const OUTCOME_LIMIT := 5000
  const DEFAULT_QUEUE := "default"

  /** A coroutine running `_execute_task`: not yet started, or awaiting the handler. */
  datatype Execution = Spawned(task: Task) | Executing(task: Task, previous: AgentStatus)

  datatype System = System(
    registry: Registry.State,
    scheduler: Scheduler,
    tasks: map<TaskId, Record>,
    runs: map<nat, Execution>,
    spawned: nat,
    outcomes: seq<Outcome>,
    disk: Option<Disk>)

  datatype Event =
    | Submit(target: Id, payload: Option<Json>, priority: int, queue: string, uuid: TaskId, now: int)
    | Poll(now: int)
    | Begin(k: nat, now: int)
    | Finish(k: nat, result: Json, now: int)
    | Error(k: nat, message: string, now: int)
    | Register(agent: Id, name: string, kind: string, config: Option<Json>, now: int)
    | Remove(agent: Id)
    | SetStatus(agent: Id, status: AgentStatus, now: int)
    /** The process dies in the course of `during`, after so many of its store writes, and a new one
        starts, reading the tables in the given orders. */
    | Restart(during: Event, written: nat, taskOrder: seq<TaskId>, agentOrder: seq<Id>, now: int)

  function Boot(maxRetries: nat, disk: Option<Disk>): System {
    System(Registry.State(map[], map[]), NewScheduler(maxRetries), map[], map[], 0, [], disk)
  }

  // ---------- The store ----------

  function SaveTask(disk: Option<Disk>, r: Record): Option<Disk> {
    if disk.None? then None else Some(disk.value.(tasks := disk.value.tasks[r.id := r]))
  }

  function SaveAgent(disk: Option<Disk>, row: AgentRow): Option<Disk> {
    if disk.None? then None else Some(disk.value.(agents := disk.value.agents[row.id := row]))
  }

  function EraseAgent(disk: Option<Disk>, id: Id): Option<Disk> {
    if disk.None? then None else Some(disk.value.(agents := disk.value.agents - {id}))
  }

  // ---------- Events ----------

  /** Changes a live agent in memory and in the store; a deleted agent is not written back. */
  function UpdateAgent(s: System, id: Id, row: AgentRow): System {
    if id !in s.registry.agents then s
    else s.(registry := Registry.Update(s.registry, row), disk := SaveAgent(s.disk, row))
  }

  function ChangeStatus(s: System, id: Id, status: AgentStatus, now: int): System {
    if id !in s.registry.agents then s
    else UpdateAgent(s, id, Registry.WithStatus(s.registry.agents[id], status, now))
  }

  function NewTask(target: Id, payload: Option<Json>, priority: int, queue: string, uuid: TaskId, now: int): Task {
    Stamp(uuid, Request(None, target, if payload.Some? then payload.value.OrEmpty() else Obj(map[]), None, None),
          queue, priority, now)
  }

  function NewRecord(t: Task, now: int): Record {
    Record(t.id, t.target, t.payload, t.queue, t.priority, TaskStatus.Queued, Null, None, Some(now), None)
  }

  /** Submitting to an unknown agent raises an error and changes nothing. */
  function SubmitTask(s: System, target: Id, t: Task, now: int): System {
    if target !in s.registry.agents then s
    else s.(scheduler := Push(s.scheduler, t),
            tasks := s.tasks[t.id := NewRecord(t, now)],
            disk := SaveTask(s.disk, NewRecord(t, now)))
  }

  /** One round of the engine loop: takes a task from the default queue and spawns its execution. */
  function PollOnce(s: System, now: int): System {
    var (scheduler, task) := Dequeue(s.scheduler, DEFAULT_QUEUE, now);
    if task.None? then s.(scheduler := scheduler)
    else s.(scheduler := scheduler, runs := s.runs[s.spawned := Spawned(task.value)], spawned := s.spawned + 1)
  }

  /** `setdefault`: a task the engine has no record of gets one. */
  function RecordOf(s: System, t: Task): Record {
    if t.id in s.tasks then s.tasks[t.id]
    else Record(t.id, t.target, t.payload, t.queue, t.priority, TaskStatus.Queued, Null, None, None, None)
  }

  function Remember(outcomes: seq<Outcome>, o: Outcome): seq<Outcome> {
    if |outcomes| < OUTCOME_LIMIT then outcomes + [o] else outcomes[|outcomes| + 1 - OUTCOME_LIMIT..] + [o]
  }

  function NotFound(target: Id): string {
    "Agent not found: " + target
  }

  function BeginExecution(s: System, k: nat, now: int): System
    requires k in s.runs
  {
    var t := s.runs[k].task;
    var s1 := s.(tasks := s.tasks[t.id := RecordOf(s, t).(status := TaskStatus.Running)]);
    if t.target in s.registry.agents then
      ChangeStatus(s1.(runs := s.runs[k := Executing(t, s.registry.agents[t.target].status)]),
                   t.target, AgentStatus.Running, now)
    else FailExecution(s1, k, NotFound(t.target), now)
  }

  /** Gives the agent of a finished execution its status back and books the outcome, if it is still registered. */
  function Settle(s: System, id: Id, previous: AgentStatus, good: bool, now: int): System {
    if id !in s.registry.agents then s
    else UpdateAgent(s, id, Settled(s.registry.agents[id], previous, good, now))
  }

  function Settled(row: AgentRow, previous: AgentStatus, good: bool, now: int): AgentRow {
    var row' := Registry.WithStatus(row, previous, now);
    if good then row'.(completed := row'.completed + 1) else row'.(errors := row'.errors + 1)
  }

  function CompleteExecution(s: System, k: nat, result: Json, now: int): System
    requires k in s.runs
  {
    var t := s.runs[k].task;
    var record := RecordOf(s, t).(status := TaskStatus.Completed, result := result, completedAt := Some(now));
    s.(scheduler := Complete(s.scheduler, t.id).0,
       tasks := s.tasks[t.id := record],
       runs := s.runs - {k},
       outcomes := Remember(s.outcomes, Outcome(now, true)),
       disk := SaveTask(s.disk, record))
  }

  function FinishExecution(s: System, k: nat, result: Json, now: int): System
    requires k in s.runs && s.runs[k].Executing?
  {
    Settle(CompleteExecution(s, k, result, now), s.runs[k].task.target, s.runs[k].previous, true, now)
  }

  /** The exception branch, for an execution that found its agent when it began or one that did not. */
  function FailExecution(s: System, k: nat, message: string, now: int): System
    requires k in s.runs
  {
    var t := s.runs[k].task;
    var (scheduler, retry) := Fail(s.scheduler, t.id);
    var record := RecordOf(s, t).(error := Some(message),
                                  status := if retry then TaskStatus.Retrying else TaskStatus.Failed);
    s.(scheduler := scheduler,
       tasks := s.tasks[t.id := record],
       runs := s.runs - {k},
       outcomes := if retry then s.outcomes else Remember(s.outcomes, Outcome(now, false)),
       disk := SaveTask(s.disk, record))
  }

  function ErrorInExecution(s: System, k: nat, message: string, now: int): System
    requires k in s.runs && s.runs[k].Executing?
  {
    Settle(FailExecution(s, k, message, now), s.runs[k].task.target, s.runs[k].previous, false, now)
  }

  function RegisterAgent(s: System, row: AgentRow): System {
    s.(registry := Registry.Register(s.registry, row), disk := SaveAgent(s.disk, row))
  }

  function RemoveAgent(s: System, id: Id): System {
    if id !in s.registry.agents then s
    else s.(registry := Registry.Delete(s.registry, id), disk := EraseAgent(s.disk, id))
  }

  /** A row read back from the store; unfinished work is queued again, with its retries forgotten. */
  function RestoreTask(s: System, r: Record, now: int): System {
    if r.status.Terminal() then s.(tasks := s.tasks[r.id := r])
    else
      var request := Request(Some(r.id), r.target, r.payload.OrEmpty(), None, None);
      s.(tasks := s.tasks[r.id := r.(status := TaskStatus.Queued)],
         scheduler := Push(s.scheduler, Stamp(r.id, request, r.queue, r.priority, now)))
  }

  function RestoreTasks(s: System, rows: map<TaskId, Record>, order: seq<TaskId>, now: int): System
    requires forall id :: id in order ==> id in rows
  {
    if order == [] then s
    else RestoreTask(RestoreTasks(s, rows, order[..|order| - 1], now), rows[order[|order| - 1]], now)
  }

  /** A crash loses everything but the store, from which the new process starts. */
  function RestartFrom(maxRetries: nat, disk: Option<Disk>, taskOrder: seq<TaskId>, agentOrder: seq<Id>,
                       now: int): System
    requires disk.Some? ==> forall id :: id in taskOrder ==> id in disk.value.tasks
    requires disk.Some? ==> forall id :: id in agentOrder ==> id in disk.value.agents
  {
    var s := Boot(maxRetries, disk);
    if disk.None? then s
    else
      var registry := Registry.State(disk.value.agents, Registry.RebuildIndex(disk.value.agents, agentOrder));
      RestoreTasks(s.(registry := registry), disk.value.tasks, taskOrder, now)
  }

  // ---------- Store writes, one by one ----------

  function DoWrite(disk: Option<Disk>, w: Write): Option<Disk> {
    match w
    case PutAgent(row) => SaveAgent(disk, row)
    case DropAgent(id) => EraseAgent(disk, id)
    case PutTask(r) => SaveTask(disk, r)
  }

  function DoWrites(disk: Option<Disk>, ws: seq<Write>): Option<Disk>
    decreases |ws|
  {
    if ws == [] then disk else DoWrites(DoWrite(disk, ws[0]), ws[1..])
  }

  function StatusWrite(s: System, id: Id, status: AgentStatus, now: int): seq<Write> {
    if id in s.registry.agents then [PutAgent(Registry.WithStatus(s.registry.agents[id], status, now))] else []
  }

  /** A finished execution writes its agent's status, its task, and its agent's metrics, in that order. */
  function EndWrites(s: System, k: nat, good: bool, record: Record, now: int): seq<Write>
    requires k in s.runs && s.runs[k].Executing?
  {
    var Executing(t, previous) := s.runs[k];
    StatusWrite(s, t.target, previous, now)
    + [PutTask(record)]
    + if t.target in s.registry.agents then [PutAgent(Settled(s.registry.agents[t.target], previous, good, now))]
        else []
  }

  /** The store writes of an event, in the order the source makes them. */
  ghost function Writes(s: System, e: Event): seq<Write>
    requires Possible(s, e)
  {
    match e
    case Submit(target, payload, priority, queue, uuid, now) =>
      if target in s.registry.agents
          then [PutTask(NewRecord(NewTask(target, payload, priority, queue, uuid, now), now))] else []
    case Poll(_) => []
    case Begin(k, now) =>
      var t := s.runs[k].task;
      if t.target in s.registry.agents then StatusWrite(s, t.target, AgentStatus.Running, now)
      else [PutTask(RecordOf(BeginExecution(s, k, now), t))]
    case Finish(k, result, now) =>
      EndWrites(s, k, true, RecordOf(CompleteExecution(s, k, result, now), s.runs[k].task), now)
    case Error(k, message, now) =>
      EndWrites(s, k, false, RecordOf(FailExecution(s, k, message, now), s.runs[k].task), now)
    case Register(agent, name, kind, config, now) => [PutAgent(Registry.NewAgent(agent, name, kind, config, now))]
    case Remove(agent) => if agent in s.registry.agents then [DropAgent(agent)] else []
    case SetStatus(agent, status, now) => StatusWrite(s, agent, status, now)
  }

  /** The store as a crash leaves it. */
  ghost function TornDisk(s: System, e: Event, written: nat): Option<Disk>
    requires Possible(s, e) && written <= |Writes(s, e)|
  {
    DoWrites(s.disk, Writes(s, e)[..written])
  }

  // ---------- The machine ----------

  /** New ids are unused, and an execution can only do what comes next in it. */
  ghost predicate Possible(s: System, e: Event) {
    match e
    case Submit(_, _, _, _, uuid, _) => uuid !in s.tasks
    case Begin(k, _) => k in s.runs && s.runs[k].Spawned?
    case Finish(k, _, _) => k in s.runs && s.runs[k].Executing?
    case Error(k, _, _) => k in s.runs && s.runs[k].Executing?
    case Register(agent, _, _, _, _) => agent !in s.registry.agents
    case Restart(_, _, _, _, _) => false
    case _ => true
  }

  /** A restart reads every row of the store once. */
  ghost predicate Enabled(s: System, e: Event) {
    if e.Restart? then
      && Possible(s, e.during) && e.written <= |Writes(s, e.during)|
      && var disk := TornDisk(s, e.during, e.written);
         disk.Some? ==>
           Enumerates(e.taskOrder, disk.value.tasks.Keys) && Enumerates(e.agentOrder, disk.value.agents.Keys)
    else Possible(s, e)
  }

  /** What an event other than a restart does. */
  ghost function Advance(s: System, e: Event): System
    requires Possible(s, e)
  {
    match e
    case Submit(target, payload, priority, queue, uuid, now) =>
      SubmitTask(s, target, NewTask(target, payload, priority, queue, uuid, now), now)
    case Poll(now) => PollOnce(s, now)
    case Begin(k, now) => BeginExecution(s, k, now)
    case Finish(k, result, now) => FinishExecution(s, k, result, now)
    case Error(k, message, now) => ErrorInExecution(s, k, message, now)
    case Register(agent, name, kind, config, now) => RegisterAgent(s, Registry.NewAgent(agent, name, kind, config, now))
    case Remove(agent) => RemoveAgent(s, agent)
    case SetStatus(agent, status, now) => ChangeStatus(s, agent, status, now)
  }

  ghost function Reboot(s: System, e: Event): System
    requires Enabled(s, e) && e.Restart?
  {
    RestartFrom(s.scheduler.maxRetries, TornDisk(s, e.during, e.written), e.taskOrder, e.agentOrder, e.now)
  }

  ghost function Apply(s: System, e: Event): System
    requires Enabled(s, e)
  {
    if e.Restart? then Reboot(s, e) else Advance(s, e)
  }

  ghost predicate Feasible(s: System, events: seq<Event>)
    decreases |events|
  {
    events == [] || (Enabled(s, events[0]) && Feasible(Apply(s, events[0]), events[1..]))
  }

  /** The state after a run. */
  ghost function Run(s: System, events: seq<Event>): System
    requires Feasible(s, events)
    decreases |events|
  {
    if events == [] then s else Run(Apply(s, events[0]), events[1..])
  }
}
