/** `run_workflow` on top of the lifecycle machine (src/orchestrator/engine.py): a coroutine whose blocks
    between awaits interleave with every event of the engine. */
module WorkflowRunSpec {
  import opened Prelude
  import opened Records
  import opened Lifecycle
  import opened WorkflowSpec

  /** Why a step failed. */
  datatype Failure = NoAgent | TimedOut(id: TaskId) | TaskFailed(id: TaskId) | Raised(message: string)

  /** Where the coroutine is: asleep in the poll loop of a step's task, awaiting a handler, or returned. */
  datatype Position =
    | AwaitTask(step: nat, id: TaskId, deadline: int)
    | AwaitHandler(step: nat)
    | Returned(failure: Option<Failure>)

  /** What a completed step got its result from. */
  datatype Source = FromTask(id: TaskId) | FromHandler(value: Json)

  /** The step timeout and the text of the error it raises. */
  datatype Limits = Limits(timeout: int, message: string)

  /** `sources` is the history of the completed steps. */
  datatype State = State(sys: System, flow: Flow, at: Position, sources: seq<Source>, limits: Limits)

  datatype FlowEvent =
    | Engine(e: Lifecycle.Event)
    /** The coroutine wakes up; `uuid` is the id of the task it may submit, `outcome` that of the awaited handler. */
    | Resume(now: int, uuid: TaskId, outcome: Result<Json, string>)

  const NOT_CALLABLE := "'NoneType' object is not callable"

  function Saved(sys: System, flow: Flow): System {
    if sys.disk.None? then sys
    else sys.(disk := Some(sys.disk.value.(workflows := sys.disk.value.workflows[flow.id := ToDict(flow)])))
  }

  function Persist(st: State): State {
    st.(sys := Saved(st.sys, st.flow))
  }

  function WithStep(flow: Flow, i: nat, s: Step): Flow
    requires i < |flow.steps|
  {
    flow.(steps := flow.steps[i := s])
  }

  function TaskIdResult(id: TaskId): Json {
    Obj(map["task_id" := Str(id)])
  }

  function FailureText(r: Record): string {
    if r.error.Some? && r.error.value != "" then r.error.value else "task failed"
  }

  function FailStep(st: State, i: nat, error: string, why: Failure): State
    requires i < |st.flow.steps|
  {
    var failed := st.flow.steps[i].(error := Some(error), status := StepStatus.Failed);
    Persist(st.(flow := WithStep(st.flow, i, failed).(status := StepStatus.Failed), at := Returned(Some(why))))
  }

  function CompleteStep(st: State, i: nat, result: Json, source: Source): State
    requires i < |st.flow.steps|
  {
    var done := st.flow.steps[i].(result := result, status := StepStatus.Completed);
    Persist(st.(flow := WithStep(st.flow, i, done), sources := st.sources + [source]))
  }

  /** The task of step `i` is queued, and the step remembers its id. */
  function Submitted(st: State, i: nat, now: int, uuid: TaskId): State
    requires i < |st.flow.steps| && st.flow.steps[i].IsTask()
  {
    var s := st.flow.steps[i];
    st.(sys := SubmitTask(st.sys, s.target.value,
        NewTask(s.target.value, Some(s.payload), 0, DEFAULT_QUEUE, uuid, now), now),
        flow := WithStep(st.flow, i, s.(result := TaskIdResult(uuid))))
  }

  /** The first poll of a task that was just queued. */
  function Expecting(st: State, i: nat, id: TaskId, now: int): State
    requires i < |st.flow.steps|
  {
    if st.limits.timeout <= 0 then FailStep(st, i, st.limits.message, TimedOut(id))
    else st.(at := AwaitTask(i, id, now + st.limits.timeout))
  }

  function SubmitStep(st: State, i: nat, now: int, uuid: TaskId): State
    requires i < |st.flow.steps| && st.flow.steps[i].IsTask()
  {
    var target := st.flow.steps[i].target.value;
    if target !in st.sys.registry.agents then FailStep(st, i, NotFound(target), NoAgent)
    else Expecting(Submitted(st, i, now, uuid), i, uuid, now)
  }

  function MarkRunning(st: State, i: nat): State
    requires i < |st.flow.steps|
  {
    Persist(st.(flow := WithStep(st.flow, i, st.flow.steps[i].(status := StepStatus.Running, error := None))))
  }

  /** From the head of the loop over the steps to the next await, or to the end. */
  function BeginStep(st: State, i: nat, now: int, uuid: TaskId): State
    requires i <= |st.flow.steps|
  {
    if i == |st.flow.steps| then Persist(st.(flow := st.flow.(status := StepStatus.Completed), at := Returned(None)))
    else
      var st1 := MarkRunning(st, i);
      if st.flow.steps[i].IsTask() then SubmitStep(st1, i, now, uuid) else st1.(at := AwaitHandler(i))
  }

  /** The first block of a run. */
  function Start(sys: System, flow: Flow, limits: Limits, now: int, uuid: TaskId): State {
    BeginStep(Persist(State(sys, flow.(status := StepStatus.Running), Returned(None), [], limits)), 0, now, uuid)
  }

  predicate Wakes(st: State) {
    match st.at
    case AwaitTask(i, id, _) => i < |st.flow.steps| && id in st.sys.tasks
    case AwaitHandler(i) => i < |st.flow.steps|
    case Returned(_) => true
  }

  function HandlerOutcome(s: Step, outcome: Result<Json, string>): Result<Json, string> {
    if s.handler.Some? then outcome else Err(NOT_CALLABLE)
  }

  /** The poll loop looks at its task once more. */
  function Polled(st: State, now: int, uuid: TaskId): State
    requires Wakes(st) && st.at.AwaitTask?
  {
    var AwaitTask(i, id, deadline) := st.at;
    var r := st.sys.tasks[id];
    if now >= deadline then FailStep(st, i, st.limits.message, TimedOut(id))
    else if r.status.Completed? then BeginStep(CompleteStep(st, i, r.result, FromTask(id)), i + 1, now, uuid)
    else if r.status.Failed? then FailStep(st, i, FailureText(r), TaskFailed(id))
    else st
  }

  /** The handler returned or raised. */
  function Answered(st: State, now: int, uuid: TaskId, outcome: Result<Json, string>): State
    requires Wakes(st) && st.at.AwaitHandler?
  {
    var i := st.at.step;
    match HandlerOutcome(st.flow.steps[i], outcome)
    case Ok(v) => BeginStep(CompleteStep(st, i, v, FromHandler(v)), i + 1, now, uuid)
    case Err(m) => FailStep(st, i, m, Raised(m))
  }

  function Woken(st: State, now: int, uuid: TaskId, outcome: Result<Json, string>): State
    requires Wakes(st)
  {
    match st.at
    case Returned(_) => st
    case AwaitTask(_, _, _) => Polled(st, now, uuid)
    case AwaitHandler(_) => Answered(st, now, uuid, outcome)
  }

  /** The process lives on through the run; the ids of new tasks are unused. */
  ghost predicate CanHappen(st: State, e: FlowEvent) {
    match e
    case Engine(x) => Lifecycle.Possible(st.sys, x)
    case Resume(_, uuid, _) => uuid !in st.sys.tasks && Wakes(st)
  }

  ghost function Next(st: State, e: FlowEvent): State
    requires CanHappen(st, e)
  {
    match e
    case Engine(x) => st.(sys := Advance(st.sys, x))
    case Resume(now, uuid, outcome) => Woken(st, now, uuid, outcome)
  }

  ghost predicate CanRun(st: State, events: seq<FlowEvent>)
    decreases |events|
  {
    events == [] || (CanHappen(st, events[0]) && CanRun(Next(st, events[0]), events[1..]))
  }

  ghost function Drive(st: State, events: seq<FlowEvent>): State
    requires CanRun(st, events)
    decreases |events|
  {
    if events == [] then st else Drive(Next(st, events[0]), events[1..])
  }
}
