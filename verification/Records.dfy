/** The records the orchestrator keeps in memory and writes to its store. */
module Records {
  import opened Prelude

  datatype TaskStatus = Queued | Running | Retrying | Completed | Failed
  {
    predicate Terminal() {
      Completed? || Failed?
    }
  }

  /** The entry of a task in `_tasks`; a missing result is `Null`. */
  datatype Record = Record(
    id: TaskId, target: Id, payload: Json, queue: string, priority: int,
    status: TaskStatus, result: Json, error: Option<string>,
    submittedAt: Option<int>, completedAt: Option<int>)

  datatype AgentStatus = Pending | Running | Paused | Stopped | Failed | Terminated

  /** The dict of an agent; `kind` is its "type". */
  datatype AgentRow = AgentRow(
    id: Id, name: string, kind: string, config: Json,
    status: AgentStatus, createdAt: int, updatedAt: int, completed: nat, errors: nat)

  datatype StepStatus = Pending | Running | Completed | Failed | Skipped

  /** A step dict as it may be read: every key can be missing, and there can be others in `extra`. A missing
      target and a null one are both None; an error that is there can be null. */
  datatype StepDict = StepDict(
    id: Option<Id>, name: Option<string>, kind: Option<string>, target: Option<Id>, payload: Option<Json>,
    status: Option<string>, result: Option<Json>, error: Option<Option<string>>, extra: map<string, Json>)

  datatype WorkflowDict = WorkflowDict(
    id: Option<Id>, name: Option<string>, description: Option<string>, status: Option<string>,
    steps: Option<seq<StepDict>>, extra: map<string, Json>)

  /** The three tables of the store, each keyed by id. */
  datatype Disk = Disk(agents: map<Id, AgentRow>, tasks: map<TaskId, Record>, workflows: map<Id, WorkflowDict>)

  /** One write to the tables of agents and tasks. */
  datatype Write = PutAgent(row: AgentRow) | DropAgent(id: Id) | PutTask(record: Record)
}
