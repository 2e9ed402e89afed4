/** The engine object: every atomic block of its coroutines is one method, proved to be the event of
    the lifecycle machine (src/orchestrator/engine.py). */
module Engines {
  import opened Prelude
  import opened Records
  import opened Scheduling
  import opened TaskSchedulers
  import opened SqliteStores
  import opened AgentRegistries
  import opened Lifecycle
  import Registry

  /** A suspended `_execute_task`: not started yet, or awaiting its handler with the agent dict in hand. */
  datatype Coroutine = Ready(task: Task) | Awaiting(task: Task, agent: Agent, previous: AgentStatus)
  {
    function Execution(): Lifecycle.Execution {
      match this
      case Ready(t) => Spawned(t)
      case Awaiting(t, _, previous) => Executing(t, previous)
    }
  }

  class OrchestrationEngine {
    const store: SqliteStore?
    const registry: AgentRegistry
    const scheduler: TaskScheduler
    var tasks: map<TaskId, Record>
    var coroutines: map<nat, Coroutine>
    var spawned: nat
    var outcomes: seq<Outcome>
    ghost var executions: map<nat, Execution>

    ghost function Repr(): set<object>
      reads this, registry, scheduler
    {
      {this} + registry.Repr + scheduler.Repr + (if store == null then {} else {store})
    }

    /** The parts are separate objects that share the store. */
    ghost predicate Separate()
      reads this, registry, scheduler
    {
      && registry.store == store
      && registry in registry.Repr && scheduler in scheduler.Repr
      && registry.Repr !! scheduler.Repr
      && this !in registry.Repr && this !in scheduler.Repr
      && (store != null ==> store !in registry.Repr && store !in scheduler.Repr)
    }

    /** An awaiting coroutine holds the dict of its task's agent, registered or deleted since. */
    ghost predicate HoldsItsAgent(c: Coroutine)
      reads this, registry
    {
      c.Awaiting? ==>
        && c.agent in registry.Repr && c.agent.id == c.task.target
        && (c.task.target in registry.agents ==> registry.agents[c.task.target] == c.agent)
    }

    ghost predicate CoroutinesOk()
      reads this, registry
    {
      && executions.Keys == coroutines.Keys
      && (forall k :: k in coroutines ==> coroutines[k].Execution() == executions[k] && HoldsItsAgent(coroutines[k]))
    }

    ghost predicate Valid()
      reads this, registry, scheduler, registry.Repr, scheduler.Repr
    {
      Separate() && registry.Valid() && scheduler.Valid() && CoroutinesOk()
    }

    ghost function View(): System
      reads this, registry, scheduler, store
    {
      System(registry.View(), scheduler.View(), tasks, executions, spawned, outcomes, DiskOf(store))
    }

    /** A new process: empty, or restored from what the store holds. */
    constructor (maxRetries: nat, store: SqliteStore?, now: int)
      ensures Valid() && this.store == store && fresh(Repr() - {store})
      ensures store == null ==> View() == Boot(maxRetries, None)
      ensures store != null && Registry.RowsKeyed(store.agents) ==>
                Restarted(View(), maxRetries, store.View(), now)
    {
      var r := new AgentRegistry(store);
      var s := new TaskScheduler(maxRetries);
      this.store, registry, scheduler := store, r, s;
      tasks, coroutines, executions, spawned, outcomes := map[], map[], map[], 0, [];
      new;
      if store != null {
        if Registry.RowsKeyed(store.agents) {
          assert AgentsLoaded(View(), maxRetries, store.View(), registry.order);
        }
        Restore(maxRetries, now);
      }
    }

    /** What is left to do at start when the agents are loaded. */
    method Restore(ghost maxRetries: nat, now: int)
      requires Valid() && store != null
      requires Registry.RowsKeyed(store.agents) ==>
                 exists agentOrder :: AgentsLoaded(View(), maxRetries, store.View(), agentOrder)
      modifies this`tasks, scheduler.Repr
      ensures Valid() && fresh(Repr() - old(Repr()))
      ensures Registry.RowsKeyed(store.agents) ==> Restarted(View(), maxRetries, store.View(), now)
    {
      ghost var s0 := View();
      ghost var taskOrder := RestoreState(now);
      RestoredIsRestarted(s0, View(), maxRetries, store.View(), taskOrder, now);
    }

    /** Reloads the stored tasks and queues again what never finished. */
    method RestoreState(now: int) returns (ghost order: seq<TaskId>)
      requires Valid() && store != null
      modifies this`tasks, scheduler.Repr
      ensures Valid() && fresh(Repr() - old(Repr()))
      ensures Enumerates(order, store.tasks.Keys)
      ensures View() == RestoreTasks(old(View()), store.tasks, order, now)
    {
      var rows;
      rows, order := Load(store.tasks);
      ghost var table := store.tasks;
      var i := 0;
      while i < |rows|
        invariant 0 <= i <= |rows|
        invariant Valid() && fresh(Repr() - old(Repr())) && store.tasks == table
        invariant View() == RestoreTasks(old(View()), table, order[..i], now)
      {
        RestoreStep(old(View()), table, order, i, now);
        RestoreOne(rows[i], now);
        i := i + 1;
      }
      assert order[..i] == order;
    }

    static lemma RestoreStep(s: System, rows: map<TaskId, Record>, order: seq<TaskId>, i: nat, now: int)
      requires i < |order| && forall id :: id in order ==> id in rows
      ensures RestoreTasks(s, rows, order[..i + 1], now)
           == RestoreTask(RestoreTasks(s, rows, order[..i], now), rows[order[i]], now)
    {
      assert order[..i + 1][..i] == order[..i];
    }

    method RestoreOne(record: Record, now: int)
      requires Valid()
      modifies this`tasks, scheduler.Repr
      ensures Valid() && fresh(Repr() - old(Repr()))
      ensures View() == RestoreTask(old(View()), record, now)
    {
      if record.status.Terminal() {
        tasks := tasks[record.id := record];
      } else {
        tasks := tasks[record.id := record.(status := TaskStatus.Queued)];
        var request := Request(Some(record.id), record.target, record.payload.OrEmpty(), None, None);
        var _ := EnqueueTask(request, record.queue, record.priority, record.id, now);
      }
    }

    // ---------- Single effects ----------

    method ChangeAgentStatus(id: Id, status: AgentStatus, now: int)
      requires Valid()
      modifies registry`rows, (if id in registry.agents then {registry.agents[id]} else {}), store
      ensures Valid() && View() == ChangeStatus(old(View()), id, status, now)
      ensures Wrote(store, old(LogOf(store)), StatusWrite(old(View()), id, status, now))
    {
      SetAgentStatus(id, status, now);
    }

    method SetAgentStatus(id: Id, status: AgentStatus, now: int)
      requires Valid()
      modifies registry`rows, (if id in registry.agents then {registry.agents[id]} else {}), store
      ensures Valid() && scheduler.View() == old(scheduler.View())
      ensures (id in registry.agents) == (id in old(registry.rows))
      ensures id !in registry.agents ==> registry.rows == old(registry.rows) && DiskOf(store) == old(DiskOf(store))
      ensures id in registry.agents ==>
                && registry.rows == old(registry.rows)[id := Registry.WithStatus(old(registry.rows)[id], status, now)]
                && DiskOf(store) == SaveAgent(old(DiskOf(store)), registry.rows[id])
      ensures registry.rows.Keys == old(registry.rows).Keys
      ensures Wrote(store, old(LogOf(store)),
                    if id in old(registry.rows)
                    then [PutAgent(Registry.WithStatus(old(registry.rows)[id], status, now))] else [])
    {
      var _ := registry.UpdateStatus(id, status, now);
      AgentChangeKeepsValid();
    }

    /** Changes to agent dicts and their rows disturb nothing else. */
    twostate lemma AgentChangeKeepsValid()
      requires old(Valid()) && registry.Valid()
      requires unchanged(this) && unchanged(scheduler) && unchanged(scheduler.Repr)
      requires registry.agents == old(registry.agents) && registry.Repr == old(registry.Repr)
      ensures Valid() && scheduler.View() == old(scheduler.View())
    {
    }

    /** Counts an outcome in the agent dict, which may no longer be registered. */
    method Charge(agent: Agent, good: bool)
      requires Valid() && agent in registry.Repr
      requires agent.id in registry.agents ==> registry.agents[agent.id] == agent
      modifies agent, registry`rows
      ensures Valid()
      ensures View() == Charged(old(View()), agent.id, good)
    {
      registry.CountOutcome(agent, good);
    }

    method TouchAgent(id: Id)
      requires Valid()
      modifies store
      ensures Valid() && View() == Touched(old(View()), id)
      ensures Wrote(store, old(LogOf(store)), TouchWrites(old(View()), id))
    {
      registry.Touch(id);
    }

    method EnqueueTask(r: Request, queue: string, priority: int, uuid: TaskId, now: int) returns (id: TaskId)
      requires Valid()
      modifies scheduler.Repr
      ensures Valid() && fresh(Repr() - old(Repr()))
      ensures id == ResolveId(r.id, uuid)
      ensures View() == old(View()).(scheduler := Push(old(View()).scheduler, Stamp(id, r, queue, priority, now)))
    {
      id := scheduler.Enqueue(r, queue, priority, uuid, now);
    }

    method FailTask(id: TaskId, now: int) returns (retry: bool)
      requires Valid()
      modifies scheduler.Repr
      ensures Valid() && fresh(Repr() - old(Repr()))
      ensures View() == old(View()).(scheduler := Fail(old(View()).scheduler, id).0)
      ensures retry == Fail(old(View()).scheduler, id).1
    {
      retry := scheduler.Fail(id, now);
    }

    /** Books the end of an execution of `task`: its record in memory and store, the outcome, the coroutine. */
    method EndExecution(k: nat, id: TaskId, record: Record, outcome: Option<Outcome>)
      requires Valid()
      modifies this`tasks, this`outcomes, this`coroutines, this`executions, store
      ensures Valid() && View() == Ended(old(View()), k, id, record, outcome)
      ensures Wrote(store, old(LogOf(store)), [PutTask(record)])
    {
      SaveRecord(id, record);
      if outcome.Some? {
        outcomes := Remember(outcomes, outcome.value);
      }
      DropCoroutine(k);
    }

    method DropCoroutine(k: nat)
      requires Valid()
      modifies this`coroutines, this`executions
      ensures Valid() && View() == old(View()).(runs := old(executions) - {k})
    {
      coroutines := coroutines - {k};
      executions := executions - {k};
    }

    method SaveRecord(id: TaskId, record: Record)
      requires Valid()
      modifies this`tasks, store
      ensures Valid()
      ensures View() == old(View()).(tasks := old(tasks)[id := record], disk := SaveTask(old(View()).disk, record))
      ensures Wrote(store, old(LogOf(store)), [PutTask(record)])
    {
      tasks := tasks[id := record];
      if store != null {
        store.UpsertTask(record);
      }
    }

    // ---------- Atomic blocks ----------

    method SubmitTask(target: Id, payload: Option<Json>, priority: int, queue: string, uuid: TaskId, now: int)
      returns (r: Result<TaskId, string>)
      requires Valid()
      modifies this`tasks, scheduler.Repr, store
      ensures Valid() && fresh(Repr() - old(Repr()))
      ensures r == if target in old(View()).registry.agents then Ok(uuid) else Err(NotFound(target))
      ensures View() == Lifecycle.SubmitTask(old(View()), target,
              NewTask(target, payload, priority, queue, uuid, now), now)
      ensures r.Ok? ==> tasks == old(tasks)[uuid := Record(uuid, target, OrEmptyDict(payload), queue, priority,
                                                           TaskStatus.Queued, Null, None, Some(now), None)]
      ensures Wrote(store, old(LogOf(store)), if r.Ok? then [PutTask(tasks[uuid])] else [])
    {
      if target !in registry.agents {
        return Err(NotFound(target));
      }
      OrEmptyIs(payload);
      var body := if payload.Some? then payload.value.OrEmpty() else Obj(map[]);
      var id := EnqueueTask(Request(None, target, body, None, None), queue, priority, uuid, now);
      SaveRecord(id, Record(id, target, body, queue, priority, TaskStatus.Queued, Null, None, Some(now), None));
      r := Ok(id);
    }

    /** One round of the loop in `start`. */
    method PollOnce(now: int) returns (found: bool)
      requires Valid()
      modifies this`coroutines, this`executions, this`spawned, scheduler.Repr
      ensures Valid() && fresh(Repr() - old(Repr()))
      ensures View() == Lifecycle.PollOnce(old(View()), now)
      ensures spawned == if found then old(spawned) + 1 else old(spawned)
    {
      var task := scheduler.Dequeue(DEFAULT_QUEUE, now);
      found := task.Some?;
      if found {
        coroutines := coroutines[spawned := Ready(task.value)];
        executions := executions[spawned := Spawned(task.value)];
        spawned := spawned + 1;
      }
    }

    /** Only memory says that a task is running. */
    method MarkRunning(task: Task)
      requires Valid()
      modifies this`tasks
      ensures Valid()
      ensures View() == old(View()).(tasks :=
                old(tasks)[task.id := RecordOf(old(View()), task).(status := TaskStatus.Running)])
    {
      tasks := tasks[task.id := RecordFor(task).(status := TaskStatus.Running)];
    }

    /** `_execute_task` up to the await of the handler, or to its end when the agent is unknown. */
    method BeginExecution(k: nat, now: int)
      requires Valid() && k in coroutines && coroutines[k].Ready?
      modifies this, registry`rows, registry.Repr, scheduler.Repr, store
      ensures Valid() && fresh(Repr() - old(Repr()))
      ensures View() == Lifecycle.BeginExecution(old(View()), k, now)
      ensures Possible(old(View()), Begin(k, now))
              && Wrote(store, old(LogOf(store)), Writes(old(View()), Begin(k, now)))
    {
      var task := coroutines[k].task;
      MarkRunning(task);
      if task.target !in registry.agents {
        Raise(task, k, NotFound(task.target), now);
      } else {
        AwaitHandler(k, task, now);
      }
    }

    method AwaitHandler(k: nat, task: Task, now: int)
      requires Valid() && k in coroutines && task.target in registry.agents
      modifies this`coroutines, this`executions, registry`rows, registry.agents[task.target], store
      ensures Valid() && task.target in old(View()).registry.agents
      ensures View() == Awaited(old(View()), k, task, now)
      ensures Wrote(store, old(LogOf(store)), StatusWrite(old(View()), task.target, AgentStatus.Running, now))
    {
      Await(k, task);
      ChangeAgentStatus(task.target, AgentStatus.Running, now);
    }

    /** The coroutine takes hold of its agent's dict and remembers its status. */
    method Await(k: nat, task: Task)
      requires Valid() && k in coroutines && task.target in registry.agents
      modifies this`coroutines, this`executions
      ensures Valid() && task.target in old(View()).registry.agents
      ensures View() == old(View()).(runs :=
                old(executions)[k := Executing(task, old(View()).registry.agents[task.target].status)])
    {
      var agent := registry.agents[task.target];
      coroutines := coroutines[k := Awaiting(task, agent, agent.status)];
      executions := executions[k := Executing(task, agent.status)];
    }

    function RecordFor(task: Task): Record
      reads this
    {
      if task.id in tasks then tasks[task.id]
      else
        Record(task.id, task.target, task.payload, task.queue, task.priority, TaskStatus.Queued, Null, None, None, None)
    }

    /** The part of the exception branch that concerns the task. */
    method Raise(task: Task, k: nat, message: string, now: int)
      requires Valid() && k in coroutines && coroutines[k].task == task
      modifies this`tasks, this`outcomes, this`coroutines, this`executions, scheduler.Repr, store
      ensures Valid() && fresh(Repr() - old(Repr()))
      ensures k in old(View()).runs && View() == FailExecution(old(View()), k, message, now)
      ensures task.id in tasks && Wrote(store, old(LogOf(store)), [PutTask(tasks[task.id])])
    {
      var record := RecordFor(task);
      var retry := FailTask(task.id, now);
      RecordFailure(task, k, record, retry, message, now);
    }

    method RecordFailure(task: Task, k: nat, record: Record, retry: bool, message: string, now: int)
      requires Valid()
      modifies this`tasks, this`outcomes, this`coroutines, this`executions, store
      ensures Valid()
      ensures var r := record.(error := Some(message),
                               status := if retry then TaskStatus.Retrying else TaskStatus.Failed);
              && View() == Ended(old(View()), k, task.id, r, if retry then None else Some(Outcome(now, false)))
              && Wrote(store, old(LogOf(store)), [PutTask(r)])
    {
      var r := record.(error := Some(message), status := if retry then TaskStatus.Retrying else TaskStatus.Failed);
      EndExecution(k, task.id, r, if retry then None else Some(Outcome(now, false)));
    }

    method Succeed(task: Task, k: nat, result: Json, now: int)
      requires Valid() && k in coroutines && coroutines[k].task == task
      modifies this`tasks, this`outcomes, this`coroutines, this`executions, scheduler`inFlight, store
      ensures Valid()
      ensures k in old(View()).runs && View() == CompleteExecution(old(View()), k, result, now)
      ensures task.id in tasks && Wrote(store, old(LogOf(store)), [PutTask(tasks[task.id])])
    {
      var _ := scheduler.Complete(task.id);
      var record := RecordFor(task).(status := TaskStatus.Completed, result := result, completedAt := Some(now));
      EndExecution(k, task.id, record, Some(Outcome(now, true)));
    }

    /** Counts the outcome and persists the agent, if it is still registered. */
    method SettleAgent(agent: Agent, target: Id, good: bool)
      requires Valid() && agent in registry.Repr && agent.id == target
      requires target in registry.agents ==> registry.agents[target] == agent
      modifies agent, registry`rows, store
      ensures Valid() && View() == Touched(Charged(old(View()), target, good), target)
      ensures Wrote(store, old(LogOf(store)), TouchWrites(View(), target))
    {
      Charge(agent, good);
      TouchAgent(target);
    }

    /** The handler returned. */
    method FinishExecution(k: nat, result: Json, now: int)
      requires Valid() && k in coroutines && coroutines[k].Awaiting?
      modifies this, registry`rows, registry.Repr, scheduler`inFlight, store
      ensures Valid()
      ensures View() == Lifecycle.FinishExecution(old(View()), k, result, now)
      ensures Possible(old(View()), Finish(k, result, now))
              && Wrote(store, old(LogOf(store)), Writes(old(View()), Finish(k, result, now)))
    {
      var Awaiting(task, agent, previous) := coroutines[k];
      RowsAreKeyed();
      ghost var before := LogOf(store);
      ghost var s0 := View();
      ChangeAgentStatus(task.target, previous, now);
      Conclude(task, agent, k, result, now);
      FinishIsSettled(s0, k, result, now);
      FinishWrites(s0, k, result, now);
      WroteThree(before, StatusWrite(s0, task.target, previous, now), [PutTask(tasks[task.id])],
                 TouchWrites(View(), task.target));
    }

    method Conclude(task: Task, agent: Agent, k: nat, result: Json, now: int)
      requires Valid() && k in coroutines && coroutines[k].task == task
      requires agent in registry.Repr && agent.id == task.target
      requires task.target in registry.agents ==> registry.agents[task.target] == agent
      modifies this`tasks, this`outcomes, this`coroutines, this`executions, scheduler`inFlight
      modifies agent, registry`rows, store
      ensures Valid() && k in old(View()).runs
      ensures View() == Touched(Charged(CompleteExecution(old(View()), k, result, now), task.target, true), task.target)
      ensures task.id in tasks
              && Wrote(store, old(LogOf(store)), [PutTask(tasks[task.id])] + TouchWrites(View(), task.target))
    {
      ghost var before := LogOf(store);
      Succeed(task, k, result, now);
      ghost var record := tasks[task.id];
      SettleAgent(agent, task.target, true);
      WroteBoth(before, [PutTask(record)], TouchWrites(View(), task.target));
    }

    /** The handler raised, or timed out. */
    method ErrorInExecution(k: nat, message: string, now: int)
      requires Valid() && k in coroutines && coroutines[k].Awaiting?
      modifies this, registry`rows, registry.Repr, scheduler.Repr, store
      ensures Valid() && fresh(Repr() - old(Repr()))
      ensures View() == Lifecycle.ErrorInExecution(old(View()), k, message, now)
      ensures Possible(old(View()), Event.Error(k, message, now))
              && Wrote(store, old(LogOf(store)), Writes(old(View()), Event.Error(k, message, now)))
    {
      var Awaiting(task, agent, previous) := coroutines[k];
      RowsAreKeyed();
      ghost var before := LogOf(store);
      ghost var s0 := View();
      Withdraw(agent, task.target, previous, now);
      RaiseAndTouch(task, k, message, now);
      ErrorIsSettled(s0, k, message, now);
      ErrorWrites(s0, k, message, now);
      WroteThree(before, StatusWrite(s0, task.target, previous, now), [PutTask(tasks[task.id])],
                 TouchWrites(View(), task.target));
    }

    method Withdraw(agent: Agent, target: Id, previous: AgentStatus, now: int)
      requires Valid() && agent in registry.Repr && agent.id == target
      requires target in registry.agents ==> registry.agents[target] == agent
      modifies agent, registry`rows, store
      ensures Valid()
      ensures View() == Charged(ChangeStatus(old(View()), target, previous, now), target, false)
      ensures Wrote(store, old(LogOf(store)), StatusWrite(old(View()), target, previous, now))
    {
      ChangeAgentStatus(target, previous, now);
      Charge(agent, false);
    }

    method RaiseAndTouch(task: Task, k: nat, message: string, now: int)
      requires Valid() && k in coroutines && coroutines[k].task == task
      modifies this`tasks, this`outcomes, this`coroutines, this`executions, scheduler.Repr, store
      ensures Valid() && fresh(Repr() - old(Repr()))
      ensures k in old(View()).runs
      ensures View() == Touched(FailExecution(old(View()), k, message, now), task.target)
      ensures task.id in tasks
              && Wrote(store, old(LogOf(store)), [PutTask(tasks[task.id])] + TouchWrites(View(), task.target))
    {
      ghost var before := LogOf(store);
      Raise(task, k, message, now);
      ghost var record := tasks[task.id];
      TouchAgent(task.target);
      WroteBoth(before, [PutTask(record)], TouchWrites(View(), task.target));
    }

    lemma WroteBoth(before: seq<Write>, first: seq<Write>, second: seq<Write>)
      requires Wrote(store, before + first, second)
      ensures Wrote(store, before, first + second)
    {
      assert before + first + second == before + (first + second);
    }

    lemma WroteThree(before: seq<Write>, first: seq<Write>, second: seq<Write>, third: seq<Write>)
      requires Wrote(store, before + first, second + third)
      ensures Wrote(store, before, first + second + third)
    {
      assert before + first + (second + third) == before + (first + second + third);
    }

    lemma RowsAreKeyed()
      requires Valid()
      ensures Registry.RowsKeyed(View().registry.agents)
    {
    }

    // ---------- Agents, as the API handlers use the registry ----------

    method RegisterAgent(name: string, kind: string, config: Option<Json>, uuid: Id, now: int)
      requires Valid()
      requires uuid !in registry.agents && forall k :: k in coroutines && coroutines[k].Awaiting? ==>
               coroutines[k].agent.id != uuid
      modifies registry, store
      ensures Valid() && fresh(Repr() - old(Repr()))
      ensures View() == Lifecycle.RegisterAgent(old(View()), Registry.NewAgent(uuid, name, kind, config, now))
      ensures Wrote(store, old(LogOf(store)), [PutAgent(registry.rows[uuid])])
    {
      registry.Register(name, kind, config, uuid, now);
    }

    method DeleteAgent(id: Id)
      requires Valid()
      modifies registry, store
      ensures Valid()
      ensures View() == Lifecycle.RemoveAgent(old(View()), id)
      ensures Wrote(store, old(LogOf(store)), if id in old(View()).registry.agents then [DropAgent(id)] else [])
    {
      var _ := registry.Delete(id);
    }
  }

  /** The state is what a process that reads the store's rows in some order starts with. */
  ghost predicate Restarted(s: System, maxRetries: nat, disk: Disk, now: int) {
    exists taskOrder, agentOrder ::
      && Enumerates(taskOrder, disk.tasks.Keys) && Enumerates(agentOrder, disk.agents.Keys)
      && s == RestartFrom(maxRetries, Some(disk), taskOrder, agentOrder, now)
  }

  ghost predicate AgentsLoaded(s: System, maxRetries: nat, disk: Disk, agentOrder: seq<Id>) {
    && Enumerates(agentOrder, disk.agents.Keys)
    && s == Boot(maxRetries, Some(disk)).(registry :=
              Registry.State(disk.agents, Registry.RebuildIndex(disk.agents, agentOrder)))
  }

  lemma RestoredIsRestarted(s0: System, s: System, maxRetries: nat, disk: Disk, taskOrder: seq<TaskId>, now: int)
    requires Enumerates(taskOrder, disk.tasks.Keys) && s == RestoreTasks(s0, disk.tasks, taskOrder, now)
    requires Registry.RowsKeyed(disk.agents) ==> exists agentOrder :: AgentsLoaded(s0, maxRetries, disk, agentOrder)
    ensures Registry.RowsKeyed(disk.agents) ==> Restarted(s, maxRetries, disk, now)
  {
    if Registry.RowsKeyed(disk.agents) {
      var agentOrder :| AgentsLoaded(s0, maxRetries, disk, agentOrder);
      assert s == RestartFrom(maxRetries, Some(disk), taskOrder, agentOrder, now);
    }
  }

  // ---------- Order of effects ----------

  /** Restoring the status, completing, counting and persisting one after the other is the event. */
  function Ended(s: System, k: nat, id: TaskId, record: Record, outcome: Option<Outcome>): System {
    s.(tasks := s.tasks[id := record], runs := s.runs - {k},
       outcomes := if outcome.Some? then Remember(s.outcomes, outcome.value) else s.outcomes,
       disk := SaveTask(s.disk, record))
  }

  lemma SettledDisk(disk: Option<Disk>, row: AgentRow, r: Record, row': AgentRow)
    requires row.id == row'.id
    ensures SaveAgent(SaveTask(SaveAgent(disk, row), r), row') == SaveAgent(SaveTask(disk, r), row')
  {
    if disk.Some? {
      assert disk.value.agents[row.id := row][row.id := row'] == disk.value.agents[row.id := row'];
    }
  }

  lemma FinishIsSettled(s: System, k: nat, result: Json, now: int)
    requires k in s.runs && s.runs[k].Executing? && Registry.RowsKeyed(s.registry.agents)
    ensures var target := s.runs[k].task.target;
            var s1 := ChangeStatus(s, target, s.runs[k].previous, now);
            && k in s1.runs
            && Touched(Charged(CompleteExecution(s1, k, result, now), target, true), target)
               == Lifecycle.FinishExecution(s, k, result, now)
  {
    var Executing(t, previous) := s.runs[k];
    if t.target in s.registry.agents {
      var agents := s.registry.agents;
      var row, row' := Registry.WithStatus(agents[t.target], previous, now),
          Settled(agents[t.target], previous, true, now);
      assert agents[t.target := row][t.target := row'] == agents[t.target := row'];
      SettledDisk(s.disk, row, RecordOf(CompleteExecution(s, k, result, now), t), row');
    }
  }

  lemma ErrorIsSettled(s: System, k: nat, message: string, now: int)
    requires k in s.runs && s.runs[k].Executing? && Registry.RowsKeyed(s.registry.agents)
    ensures var target := s.runs[k].task.target;
            var s1 := Charged(ChangeStatus(s, target, s.runs[k].previous, now), target, false);
            && k in s1.runs
            && Touched(FailExecution(s1, k, message, now), target) == Lifecycle.ErrorInExecution(s, k, message, now)
  {
    var Executing(t, previous) := s.runs[k];
    if t.target in s.registry.agents {
      var agents := s.registry.agents;
      var row, row' := Registry.WithStatus(agents[t.target], previous, now),
          Settled(agents[t.target], previous, false, now);
      assert agents[t.target := row][t.target := row'] == agents[t.target := row'];
      SettledDisk(s.disk, row, RecordOf(FailExecution(s, k, message, now), t), row');
    }
  }

  /** The execution awaits its handler, and its agent is running. */
  function Awaited(s: System, k: nat, task: Task, now: int): System
    requires task.target in s.registry.agents
  {
    ChangeStatus(s.(runs := s.runs[k := Executing(task, s.registry.agents[task.target].status)]),
                 task.target, AgentStatus.Running, now)
  }

  /** The metrics of a registered agent changed in memory only. */
  function Charged(s: System, id: Id, good: bool): System {
    if id !in s.registry.agents then s
    else s.(registry := s.registry.(agents := s.registry.agents[id := PlusOne(s.registry.agents[id], good)]))
  }

  function Touched(s: System, id: Id): System {
    if id !in s.registry.agents then s else s.(disk := SaveAgent(s.disk, s.registry.agents[id]))
  }

  function TouchWrites(s: System, id: Id): seq<Write> {
    if id in s.registry.agents then [PutAgent(s.registry.agents[id])] else []
  }

  /** An ended execution writes its agent's status, its task and its agent, in that order. */
  lemma FinishWrites(s: System, k: nat, result: Json, now: int)
    requires k in s.runs && s.runs[k].Executing? && Registry.RowsKeyed(s.registry.agents)
    ensures var s', t := Lifecycle.FinishExecution(s, k, result, now), s.runs[k].task;
            && t.id in s'.tasks
            && Writes(s, Finish(k, result, now))
               == StatusWrite(s, t.target, s.runs[k].previous, now)
                  + [PutTask(s'.tasks[t.id])] + TouchWrites(s', t.target)
  {
  }

  lemma ErrorWrites(s: System, k: nat, message: string, now: int)
    requires k in s.runs && s.runs[k].Executing? && Registry.RowsKeyed(s.registry.agents)
    ensures var s', t := Lifecycle.ErrorInExecution(s, k, message, now), s.runs[k].task;
            && t.id in s'.tasks
            && Writes(s, Event.Error(k, message, now))
               == StatusWrite(s, t.target, s.runs[k].previous, now)
                  + [PutTask(s'.tasks[t.id])] + TouchWrites(s', t.target)
  {
  }
}
