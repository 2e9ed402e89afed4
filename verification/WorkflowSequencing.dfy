/** What a workflow run guarantees whatever the engine does between its awaits. */
module WorkflowSequencing {
  import opened Prelude
  import opened Records
  import opened Lifecycle
  import opened TaskInvariant
  import opened LifecycleInvariant
  import opened CrashSafety
  import opened WorkflowSpec
  import opened WorkflowRunSpec

  // ---------- Steps and their tasks ----------

  /** The task on record is the one the step asked for. */
  predicate Own(tasks: map<TaskId, Record>, s0: Step, id: TaskId) {
    && s0.IsTask() && id in tasks
    && tasks[id].target == s0.target.value && tasks[id].payload == s0.payload
    && tasks[id].queue == DEFAULT_QUEUE && tasks[id].priority == 0
  }

  /** The step is completed with the result of its own task, or of its handler. */
  ghost predicate Done(tasks: map<TaskId, Record>, s0: Step, s: Step, source: Source) {
    && s.status.Completed?
    && match source
       case FromTask(id) =>
         && Own(tasks, s0, id) && tasks[id].status.Completed?
         && s == s0.(status := s.status, error := None, result := tasks[id].result)
       case FromHandler(v) =>
         && !s0.IsTask() && s0.handler.Some?
         && s == s0.(status := s.status, error := None, result := v)
  }

  /** The step failed, for that reason. */
  ghost predicate FailedFor(tasks: map<TaskId, Record>, limits: Limits, s0: Step, s: Step, why: Failure) {
    && s.status.Failed?
    && match why
       case NoAgent => s0.IsTask() && s == s0.(status := s.status, error := Some(NotFound(s0.target.value)))
       case TimedOut(id) =>
         && Own(tasks, s0, id)
         && s == s0.(status := s.status, error := Some(limits.message), result := TaskIdResult(id))
       case TaskFailed(id) =>
         && Own(tasks, s0, id) && tasks[id].status.Failed?
         && s == s0.(status := s.status, error := Some(FailureText(tasks[id])), result := TaskIdResult(id))
       case Raised(m) => !s0.IsTask() && s == s0.(status := s.status, error := Some(m))
  }

  /** The step is running with a task of its own, or with its handler. */
  ghost predicate RunningOn(tasks: map<TaskId, Record>, s0: Step, s: Step, at: Position) {
    && s.status.Running?
    && match at
       case AwaitTask(_, id, _) =>
         && Own(tasks, s0, id)
         && s == s0.(status := s.status, error := None, result := TaskIdResult(id))
       case AwaitHandler(_) => !s0.IsTask() && s == s0.(status := s.status, error := None)
       case Returned(_) => false
  }

  predicate UsesTask(source: Source, id: TaskId) {
    source == FromTask(id)
  }

  /** The task the coroutine last submitted and did not complete, if any. */
  function PendingTask(at: Position): Option<TaskId> {
    match at
    case AwaitTask(_, id, _) => Some(id)
    case AwaitHandler(_) => None
    case Returned(why) =>
      match why
      case Some(TimedOut(id)) => Some(id)
      case Some(TaskFailed(id)) => Some(id)
      case _ => None
  }

  // ---------- The invariant ----------

  /** Steps before the current one are done. */
  ghost predicate EarlierDone(tasks: map<TaskId, Record>, init: Flow, flow: Flow, sources: seq<Source>)
    requires |sources| <= |init.steps| == |flow.steps|
  {
    forall j :: 0 <= j < |sources| ==> Done(tasks, init.steps[j], flow.steps[j], sources[j])
  }

  /** Steps after the current one are as they were before the run. */
  ghost predicate LaterUntouched(init: Flow, flow: Flow, k: nat)
    requires |init.steps| == |flow.steps|
  {
    forall j :: k < j < |init.steps| ==> flow.steps[j] == init.steps[j]
  }

  /** No two steps share a task. */
  ghost predicate TasksDistinct(sources: seq<Source>, at: Position) {
    && (forall j, k, id :: 0 <= j < k < |sources| && UsesTask(sources[j], id) ==> !UsesTask(sources[k], id))
    && (PendingTask(at).Some? ==> forall j :: 0 <= j < |sources| ==> !UsesTask(sources[j], PendingTask(at).value))
  }

  /** The current step, or the last. */
  ghost predicate CurrentStep(tasks: map<TaskId, Record>, limits: Limits, init: Flow, flow: Flow, at: Position, k: nat)
    requires |init.steps| == |flow.steps|
  {
    match at
    case Returned(None) => k == |init.steps| && flow.status.Completed?
    case Returned(Some(why)) =>
      k < |init.steps| && flow.status.Failed? && FailedFor(tasks, limits, init.steps[k], flow.steps[k], why)
    case _ =>
      && at.step == k && k < |init.steps| && flow.status.Running?
      && RunningOn(tasks, init.steps[k], flow.steps[k], at)
  }

  /** What the store holds: the workflow as it is, but for the result of a step whose task is awaited. */
  function StoredFlow(init: Flow, flow: Flow, at: Position): Flow
    requires |init.steps| == |flow.steps|
  {
    if at.AwaitTask? && at.step < |flow.steps| then
      WithStep(flow, at.step, flow.steps[at.step].(result := init.steps[at.step].result))
    else flow
  }

  ghost predicate Stored(st: State, flow: Flow) {
    st.sys.disk.Some? ==> flow.id in st.sys.disk.value.workflows && st.sys.disk.value.workflows[flow.id] == ToDict(flow)
  }

  ghost predicate Shaped(init: Flow, flow: Flow, sources: seq<Source>) {
    && |sources| <= |init.steps| == |flow.steps|
    && flow.id == init.id && flow.name == init.name && flow.description == init.description
  }

  ghost predicate RunInv(init: Flow, st: State) {
    && SystemInv(st.sys)
    && Shaped(init, st.flow, st.sources)
    && EarlierDone(st.sys.tasks, init, st.flow, st.sources)
    && CurrentStep(st.sys.tasks, st.limits, init, st.flow, st.at, |st.sources|)
    && LaterUntouched(init, st.flow, |st.sources|)
    && TasksDistinct(st.sources, st.at)
    && Stored(st, StoredFlow(init, st.flow, st.at))
  }

  /** At the head of the loop over the steps, about to begin step `|sources|`. */
  ghost predicate AtLoopHead(init: Flow, st: State) {
    && SystemInv(st.sys)
    && Shaped(init, st.flow, st.sources)
    && EarlierDone(st.sys.tasks, init, st.flow, st.sources)
    && st.flow.status.Running?
    && (forall j :: |st.sources| <= j < |init.steps| ==> st.flow.steps[j] == init.steps[j])
    && TasksDistinct(st.sources, Returned(None))
  }

  /** The payloads of task steps are dicts. */
  ghost predicate DictPayloads(flow: Flow) {
    forall s :: s in flow.steps ==> s.payload.Obj?
  }

  // ---------- Saving ----------

  lemma SavedKeeps(sys: System, flow: Flow)
    requires SystemInv(sys)
    ensures SystemInv(Saved(sys, flow)) && Saved(sys, flow).tasks == sys.tasks
            && Saved(sys, flow).registry == sys.registry
    ensures var disk := Saved(sys, flow).disk;
            disk.Some? ==> flow.id in disk.value.workflows && disk.value.workflows[flow.id] == ToDict(flow)
  {
    assert TaskSideOf(Saved(sys, flow)) == TaskSideOf(sys);
  }

  // ---------- The coroutine's own blocks ----------

  lemma FailStepKeeps(init: Flow, st: State, error: string, why: Failure)
    requires SystemInv(st.sys) && Shaped(init, st.flow, st.sources) && |st.sources| < |init.steps|
    requires EarlierDone(st.sys.tasks, init, st.flow, st.sources) && LaterUntouched(init, st.flow, |st.sources|)
    requires var s := st.flow.steps[|st.sources|];
             FailedFor(st.sys.tasks, st.limits, init.steps[|st.sources|],
                 s.(error := Some(error), status := StepStatus.Failed), why)
    requires TasksDistinct(st.sources, Returned(Some(why)))
    ensures RunInv(init, FailStep(st, |st.sources|, error, why))
  {
    var failed := st.flow.steps[|st.sources|].(error := Some(error), status := StepStatus.Failed);
    SavedKeeps(st.sys, WithStep(st.flow, |st.sources|, failed).(status := StepStatus.Failed));
  }

  lemma MarkRunningKeeps(init: Flow, st: State)
    requires AtLoopHead(init, st) && |st.sources| < |init.steps|
    ensures var i, st1 := |st.sources|, MarkRunning(st, |st.sources|);
            && SystemInv(st1.sys) && st1.sys.tasks == st.sys.tasks && st1.sys.registry == st.sys.registry
            && Shaped(init, st1.flow, st1.sources)
            && st1.sources == st.sources && st1.limits == st.limits && st1.flow.status.Running?
            && st1.flow.steps[i] == init.steps[i].(status := StepStatus.Running, error := None)
            && EarlierDone(st1.sys.tasks, init, st1.flow, st1.sources)
            && LaterUntouched(init, st1.flow, i) && Stored(st1, st1.flow)
  {
    var i := |st.sources|;
    SavedKeeps(st.sys, WithStep(st.flow, i, st.flow.steps[i].(status := StepStatus.Running, error := None)));
  }

  /** A fresh task does not disturb the earlier ones. */
  lemma SubmittedTask(sys: System, s: Step, uuid: TaskId, now: int)
    requires SystemInv(sys) && uuid !in sys.tasks && s.IsTask() && s.target.value in sys.registry.agents
             && s.payload.Obj?
    ensures var t := NewTask(s.target.value, Some(s.payload), 0, DEFAULT_QUEUE, uuid, now);
            var sys' := SubmitTask(sys, s.target.value, t, now);
            && SystemInv(sys') && Own(sys'.tasks, s, uuid) && sys'.tasks == sys.tasks[uuid := sys'.tasks[uuid]]
            && (sys'.disk.Some? <==> sys.disk.Some?)
            && (sys.disk.Some? ==> sys'.disk.value.workflows == sys.disk.value.workflows)
  {
    SubmitKeeps(sys, s.target.value, NewTask(s.target.value, Some(s.payload), 0, DEFAULT_QUEUE, uuid, now), now);
  }

  lemma FreshIsUnused(tasks: map<TaskId, Record>, init: Flow, flow: Flow, sources: seq<Source>, uuid: TaskId)
    requires |sources| <= |init.steps| == |flow.steps| && EarlierDone(tasks, init, flow, sources) && uuid !in tasks
    ensures forall j :: 0 <= j < |sources| ==> !UsesTask(sources[j], uuid)
  {
    forall j | 0 <= j < |sources|
      ensures !UsesTask(sources[j], uuid)
    {
      assert Done(tasks, init.steps[j], flow.steps[j], sources[j]);
    }
  }

  /** Step `|sources|` is marked running and stored, and nothing else about it has changed. */
  ghost predicate Marked(init: Flow, st: State) {
    && SystemInv(st.sys) && Shaped(init, st.flow, st.sources) && |st.sources| < |init.steps| && st.flow.status.Running?
    && EarlierDone(st.sys.tasks, init, st.flow, st.sources) && LaterUntouched(init, st.flow, |st.sources|)
    && TasksDistinct(st.sources, Returned(None)) && Stored(st, st.flow)
    && st.flow.steps[|st.sources|] == init.steps[|st.sources|].(status := StepStatus.Running, error := None)
  }

  lemma EarlierStayDone(tasks: map<TaskId, Record>, tasks': map<TaskId, Record>, init: Flow, flow: Flow, flow': Flow,
                        sources: seq<Source>)
    requires |sources| <= |init.steps| == |flow.steps| == |flow'.steps|
    requires forall id :: id in tasks ==> id in tasks' && tasks'[id] == tasks[id]
    requires forall j :: 0 <= j < |sources| ==> flow'.steps[j] == flow.steps[j]
    requires EarlierDone(tasks, init, flow, sources)
    ensures EarlierDone(tasks', init, flow', sources)
  {
    forall j | 0 <= j < |sources|
      ensures Done(tasks', init.steps[j], flow'.steps[j], sources[j])
    {
      assert Done(tasks, init.steps[j], flow.steps[j], sources[j]);
    }
  }

  /** Right after the task of step `|sources|` was submitted; the store still has the workflow from before. */
  ghost predicate JustSubmitted(init: Flow, before: Flow, st: State, uuid: TaskId) {
    var k := |st.sources|;
    && SystemInv(st.sys) && Shaped(init, st.flow, st.sources) && k < |init.steps| && st.flow.status.Running?
    && EarlierDone(st.sys.tasks, init, st.flow, st.sources) && LaterUntouched(init, st.flow, k)
    && TasksDistinct(st.sources, AwaitTask(k, uuid, 0))
    && Own(st.sys.tasks, init.steps[k], uuid)
    && st.flow.steps[k] == init.steps[k].(status := StepStatus.Running, error := None, result := TaskIdResult(uuid))
    && |before.steps| == |init.steps| && before.steps[k] == init.steps[k].(status := StepStatus.Running, error := None)
    && st.flow == WithStep(before, k, st.flow.steps[k])
    && Stored(st, before)
  }

  lemma SubmittedKeeps(init: Flow, st: State, now: int, uuid: TaskId)
    requires DictPayloads(init) && uuid !in st.sys.tasks && Marked(init, st)
    requires init.steps[|st.sources|].IsTask() && init.steps[|st.sources|].target.value in st.sys.registry.agents
    ensures var st1 := Submitted(st, |st.sources|, now, uuid);
            JustSubmitted(init, st.flow, st1, uuid) && st1.sources == st.sources && st1.limits == st.limits
  {
    var s, st1 := st.flow.steps[|st.sources|], Submitted(st, |st.sources|, now, uuid);
    SubmittedTask(st.sys, s, uuid, now);
    FreshIsUnused(st.sys.tasks, init, st.flow, st.sources, uuid);
    EarlierStayDone(st.sys.tasks, st1.sys.tasks, init, st.flow, st1.flow, st.sources);
  }

  lemma NoAgentKeeps(init: Flow, st: State)
    requires Marked(init, st) && init.steps[|st.sources|].IsTask()
    ensures RunInv(init, FailStep(st, |st.sources|, NotFound(init.steps[|st.sources|].target.value), NoAgent))
  {
    FailStepKeeps(init, st, NotFound(init.steps[|st.sources|].target.value), NoAgent);
  }

  lemma TimedOutAtOnce(init: Flow, before: Flow, st: State, uuid: TaskId)
    requires JustSubmitted(init, before, st, uuid)
    ensures RunInv(init, FailStep(st, |st.sources|, st.limits.message, TimedOut(uuid)))
  {
    FailStepKeeps(init, st, st.limits.message, TimedOut(uuid));
  }

  lemma SleepKeeps(init: Flow, before: Flow, st: State, uuid: TaskId, deadline: int)
    requires JustSubmitted(init, before, st, uuid)
    ensures RunInv(init, st.(at := AwaitTask(|st.sources|, uuid, deadline)))
  {
    var k := |st.sources|;
    assert st.flow.steps[k := before.steps[k]] == before.steps;
    assert StoredFlow(init, st.flow, AwaitTask(k, uuid, deadline)) == before;
  }

  lemma SubmitStepKeeps(init: Flow, st: State, now: int, uuid: TaskId)
    requires DictPayloads(init) && uuid !in st.sys.tasks && Marked(init, st) && init.steps[|st.sources|].IsTask()
    ensures RunInv(init, SubmitStep(st, |st.sources|, now, uuid))
  {
    var target := st.flow.steps[|st.sources|].target.value;
    if target !in st.sys.registry.agents {
      NoAgentKeeps(init, st);
    } else {
      SubmittedKeeps(init, st, now, uuid);
      var st1 := Submitted(st, |st.sources|, now, uuid);
      if st.limits.timeout <= 0 {
        TimedOutAtOnce(init, st.flow, st1, uuid);
      } else {
        SleepKeeps(init, st.flow, st1, uuid, now + st.limits.timeout);
      }
    }
  }

  lemma BeginStepKeeps(init: Flow, st: State, now: int, uuid: TaskId)
    requires DictPayloads(init) && uuid !in st.sys.tasks && AtLoopHead(init, st)
    ensures RunInv(init, BeginStep(st, |st.sources|, now, uuid))
  {
    var i := |st.sources|;
    if i == |st.flow.steps| {
      SavedKeeps(st.sys, st.flow.(status := StepStatus.Completed));
    } else {
      MarkRunningKeeps(init, st);
      var st1 := MarkRunning(st, i);
      if st.flow.steps[i].IsTask() {
        SubmitStepKeeps(init, st1, now, uuid);
      }
    }
  }

  lemma StartKeeps(sys: System, flow: Flow, limits: Limits, now: int, uuid: TaskId)
    requires SystemInv(sys) && DictPayloads(flow) && uuid !in sys.tasks
    ensures RunInv(flow, Start(sys, flow, limits, now, uuid))
  {
    var running := flow.(status := StepStatus.Running);
    SavedKeeps(sys, running);
    BeginStepKeeps(flow, Persist(State(sys, running, Returned(None), [], limits)), now, uuid);
  }

  /** The step that was awaited completes; the run is at the head of its loop again. */
  lemma CompleteStepKeeps(init: Flow, st: State, result: Json, source: Source)
    requires RunInv(init, st) && !st.at.Returned?
    requires var i := |st.sources|;
             Done(st.sys.tasks, init.steps[i], st.flow.steps[i].(result := result, status := StepStatus.Completed),
                 source)
    requires source.FromTask? ==> PendingTask(st.at) == Some(source.id)
    ensures AtLoopHead(init, CompleteStep(st, |st.sources|, result, source))
    ensures CompleteStep(st, |st.sources|, result, source).sys.tasks == st.sys.tasks
  {
    var i := |st.sources|;
    var flow := WithStep(st.flow, i, st.flow.steps[i].(result := result, status := StepStatus.Completed));
    SavedKeeps(st.sys, flow);
    OneMoreSource(st.sources, st.at, source);
    OneMoreDone(st.sys.tasks, init, st.flow, flow, st.sources, source);
  }

  lemma OneMoreSource(sources: seq<Source>, at: Position, source: Source)
    requires TasksDistinct(sources, at) && (source.FromTask? ==> PendingTask(at) == Some(source.id))
    ensures TasksDistinct(sources + [source], Returned(None))
  {
  }

  lemma OneMoreDone(tasks: map<TaskId, Record>, init: Flow, flow: Flow, flow': Flow, sources: seq<Source>,
                    source: Source)
    requires |sources| < |init.steps| == |flow.steps| == |flow'.steps| && EarlierDone(tasks, init, flow, sources)
    requires flow' == WithStep(flow, |sources|, flow'.steps[|sources|])
    requires Done(tasks, init.steps[|sources|], flow'.steps[|sources|], source)
    ensures EarlierDone(tasks, init, flow', sources + [source])
  {
    forall j | 0 <= j < |sources|
      ensures Done(tasks, init.steps[j], flow'.steps[j], (sources + [source])[j])
    {
      assert Done(tasks, init.steps[j], flow.steps[j], sources[j]);
    }
  }

  /** The awaited step completes and the next one begins. */
  lemma GoOnKeeps(init: Flow, st: State, result: Json, source: Source, now: int, uuid: TaskId)
    requires DictPayloads(init) && RunInv(init, st) && !st.at.Returned? && uuid !in st.sys.tasks
    requires var i := |st.sources|;
             Done(st.sys.tasks, init.steps[i], st.flow.steps[i].(result := result, status := StepStatus.Completed),
                 source)
    requires source.FromTask? ==> PendingTask(st.at) == Some(source.id)
    ensures RunInv(init, BeginStep(CompleteStep(st, |st.sources|, result, source), |st.sources| + 1, now, uuid))
  {
    CompleteStepKeeps(init, st, result, source);
    BeginStepKeeps(init, CompleteStep(st, |st.sources|, result, source), now, uuid);
  }

  lemma PolledKeeps(init: Flow, st: State, now: int, uuid: TaskId)
    requires DictPayloads(init) && RunInv(init, st) && uuid !in st.sys.tasks && st.at.AwaitTask?
    ensures Wakes(st) && RunInv(init, Polled(st, now, uuid))
  {
    var AwaitTask(i, id, deadline) := st.at;
    var r := st.sys.tasks[id];
    if now >= deadline {
      FailStepKeeps(init, st, st.limits.message, TimedOut(id));
    } else if r.status.Completed? {
      GoOnKeeps(init, st, r.result, FromTask(id), now, uuid);
    } else if r.status.Failed? {
      FailStepKeeps(init, st, FailureText(r), TaskFailed(id));
    }
  }

  lemma AnsweredKeeps(init: Flow, st: State, now: int, uuid: TaskId, outcome: Result<Json, string>)
    requires DictPayloads(init) && RunInv(init, st) && uuid !in st.sys.tasks && st.at.AwaitHandler?
    ensures Wakes(st) && RunInv(init, Answered(st, now, uuid, outcome))
  {
    var i := st.at.step;
    match HandlerOutcome(st.flow.steps[i], outcome)
    case Ok(v) =>
      GoOnKeeps(init, st, v, FromHandler(v), now, uuid);
    case Err(m) => FailStepKeeps(init, st, m, Raised(m));
  }

  lemma WokenKeeps(init: Flow, st: State, now: int, uuid: TaskId, outcome: Result<Json, string>)
    requires DictPayloads(init) && RunInv(init, st) && uuid !in st.sys.tasks
    ensures Wakes(st) && RunInv(init, Woken(st, now, uuid, outcome))
  {
    match st.at
    case Returned(_) =>
    case AwaitTask(_, _, _) => PolledKeeps(init, st, now, uuid);
    case AwaitHandler(_) => AnsweredKeeps(init, st, now, uuid, outcome);
  }

  // ---------- The engine's events ----------

  lemma WorkflowRowsStay(s: System, e: Lifecycle.Event)
    requires Lifecycle.Possible(s, e)
    ensures s.disk.Some? <==> Advance(s, e).disk.Some?
    ensures s.disk.Some? ==> Advance(s, e).disk.value.workflows == s.disk.value.workflows
  {
  }

  ghost predicate RecordsKept(tasks: map<TaskId, Record>, tasks': map<TaskId, Record>) {
    forall id :: id in tasks ==> id in tasks' && RecordKept(tasks[id], tasks'[id])
  }

  lemma EngineKeepsSteps(tasks: map<TaskId, Record>, tasks': map<TaskId, Record>, init: Flow, st: State)
    requires RecordsKept(tasks, tasks') && Shaped(init, st.flow, st.sources)
    requires EarlierDone(tasks, init, st.flow, st.sources)
    requires CurrentStep(tasks, st.limits, init, st.flow, st.at, |st.sources|)
    ensures EarlierDone(tasks', init, st.flow, st.sources)
    ensures CurrentStep(tasks', st.limits, init, st.flow, st.at, |st.sources|)
  {
    forall j | 0 <= j < |st.sources|
      ensures Done(tasks', init.steps[j], st.flow.steps[j], st.sources[j])
    {
      assert Done(tasks, init.steps[j], st.flow.steps[j], st.sources[j]);
    }
  }

  lemma EngineKeeps(init: Flow, st: State, e: Lifecycle.Event)
    requires RunInv(init, st) && Lifecycle.Possible(st.sys, e)
    ensures RunInv(init, st.(sys := Advance(st.sys, e)))
  {
    AdvanceKeepsInv(st.sys, e);
    WorkflowRowsStay(st.sys, e);
    forall id | id in st.sys.tasks
      ensures id in Advance(st.sys, e).tasks && RecordKept(st.sys.tasks[id], Advance(st.sys, e).tasks[id])
    {
      AdvanceKeepsRecord(st.sys, e, id);
    }
    EngineKeepsSteps(st.sys.tasks, Advance(st.sys, e).tasks, init, st);
  }

  lemma NextKeeps(init: Flow, st: State, e: FlowEvent)
    requires DictPayloads(init) && RunInv(init, st) && CanHappen(st, e)
    ensures RunInv(init, Next(st, e))
  {
    match e
    case Engine(x) => EngineKeeps(init, st, x);
    case Resume(now, uuid, outcome) => WokenKeeps(init, st, now, uuid, outcome);
  }

  lemma {:induction false} RunKeeps(init: Flow, st: State, events: seq<FlowEvent>)
    requires DictPayloads(init) && RunInv(init, st) && CanRun(st, events)
    ensures RunInv(init, Drive(st, events))
    decreases |events|
  {
    if events != [] {
      NextKeeps(init, st, events[0]);
      RunKeeps(init, Next(st, events[0]), events[1..]);
    }
  }

  // ---------- What a run guarantees ----------

  ghost predicate Reaches(sys: System, init: Flow, limits: Limits, now: int, uuid: TaskId, events: seq<FlowEvent>,
                          st: State) {
    && SystemInv(sys) && DictPayloads(init) && uuid !in sys.tasks
    && CanRun(Start(sys, init, limits, now, uuid), events)
    && st == Drive(Start(sys, init, limits, now, uuid), events)
  }

  lemma BeginKeepsLimits(st: State, i: nat, now: int, uuid: TaskId)
    requires i <= |st.flow.steps|
    ensures BeginStep(st, i, now, uuid).limits == st.limits
  {
  }

  lemma PolledKeepsLimits(st: State, now: int, uuid: TaskId)
    requires Wakes(st) && st.at.AwaitTask?
    ensures Polled(st, now, uuid).limits == st.limits
  {
    var AwaitTask(i, id, _) := st.at;
    BeginKeepsLimits(CompleteStep(st, i, st.sys.tasks[id].result, FromTask(id)), i + 1, now, uuid);
  }

  lemma AnsweredKeepsLimits(st: State, now: int, uuid: TaskId, outcome: Result<Json, string>)
    requires Wakes(st) && st.at.AwaitHandler?
    ensures Answered(st, now, uuid, outcome).limits == st.limits
  {
    var i := st.at.step;
    match HandlerOutcome(st.flow.steps[i], outcome)
    case Ok(v) => BeginKeepsLimits(CompleteStep(st, i, v, FromHandler(v)), i + 1, now, uuid);
    case Err(_) =>
  }

  lemma NextKeepsLimits(st: State, e: FlowEvent)
    requires CanHappen(st, e)
    ensures Next(st, e).limits == st.limits
  {
    if e.Resume? && st.at.AwaitTask? {
      PolledKeepsLimits(st, e.now, e.uuid);
    } else if e.Resume? && st.at.AwaitHandler? {
      AnsweredKeepsLimits(st, e.now, e.uuid, e.outcome);
    }
  }

  lemma {:induction false} LimitsStay(st: State, events: seq<FlowEvent>)
    requires CanRun(st, events)
    ensures Drive(st, events).limits == st.limits
    decreases |events|
  {
    if events != [] {
      NextKeepsLimits(st, events[0]);
      LimitsStay(Next(st, events[0]), events[1..]);
    }
  }

  lemma ReachesInv(sys: System, init: Flow, limits: Limits, now: int, uuid: TaskId, events: seq<FlowEvent>, st: State)
    requires Reaches(sys, init, limits, now, uuid, events, st)
    ensures RunInv(init, st) && st.limits == limits
  {
    var running := init.(status := StepStatus.Running);
    BeginKeepsLimits(Persist(State(sys, running, Returned(None), [], limits)), 0, now, uuid);
    StartKeeps(sys, init, limits, now, uuid);
    RunKeeps(init, Start(sys, init, limits, now, uuid), events);
    LimitsStay(Start(sys, init, limits, now, uuid), events);
  }

  /** The run returned True: every step is completed, with its own task's or its handler's result. */
  lemma TrueMeansAllDone(sys: System, init: Flow, limits: Limits, now: int, uuid: TaskId, events: seq<FlowEvent>,
                         st: State)
    requires Reaches(sys, init, limits, now, uuid, events, st) && st.at == Returned(None)
    ensures |st.sources| == |init.steps| == |st.flow.steps| && st.flow.status.Completed?
    ensures forall j :: 0 <= j < |init.steps| ==> Done(st.sys.tasks, init.steps[j], st.flow.steps[j], st.sources[j])
    ensures TasksDistinct(st.sources, st.at)
  {
    ReachesInv(sys, init, limits, now, uuid, events, st);
  }

  /** The run returned False: the steps before some step are completed, that step failed, and the steps
      after it are exactly as before the run. */
  lemma FalseMeansStopped(sys: System, init: Flow, limits: Limits, now: int, uuid: TaskId, events: seq<FlowEvent>,
                          st: State) returns (k: nat)
    requires Reaches(sys, init, limits, now, uuid, events, st) && st.at.Returned? && st.at.failure.Some?
    ensures k == |st.sources| && k < |init.steps| == |st.flow.steps| && st.flow.status.Failed?
    ensures forall j :: 0 <= j < k ==> Done(st.sys.tasks, init.steps[j], st.flow.steps[j], st.sources[j])
    ensures FailedFor(st.sys.tasks, limits, init.steps[k], st.flow.steps[k], st.at.failure.value)
    ensures forall j :: k < j < |init.steps| ==> st.flow.steps[j] == init.steps[j]
  {
    ReachesInv(sys, init, limits, now, uuid, events, st);
    k := |st.sources|;
  }

  /** At every await and at the end the stored workflow is the one in memory, except that the result of
      a step whose task is awaited is still the one from before the run. */
  lemma StoreMatchesAtAwaits(sys: System, init: Flow, limits: Limits, now: int, uuid: TaskId, events: seq<FlowEvent>,
                             st: State)
    requires Reaches(sys, init, limits, now, uuid, events, st) && st.sys.disk.Some?
    ensures init.id in st.sys.disk.value.workflows && |init.steps| == |st.flow.steps|
    ensures var d := st.sys.disk.value.workflows[init.id];
            && d.id == Some(st.flow.id) && d.status == Some(StatusName(st.flow.status))
            && d.steps.Some? && |d.steps.value| == |st.flow.steps|
            && forall j :: 0 <= j < |st.flow.steps| ==>
                 d.steps.value[j] == StepToDict(st.flow.steps[j]).(result :=
                   Some(if st.at.AwaitTask? && st.at.step == j then init.steps[j].result else st.flow.steps[j].result))
  {
    ReachesInv(sys, init, limits, now, uuid, events, st);
    StoredSteps(init, st);
  }

  lemma StoredSteps(init: Flow, st: State)
    requires Shaped(init, st.flow, st.sources) && Stored(st, StoredFlow(init, st.flow, st.at)) && st.sys.disk.Some?
    ensures init.id in st.sys.disk.value.workflows
    ensures var d := st.sys.disk.value.workflows[init.id];
            && d.id == Some(st.flow.id) && d.status == Some(StatusName(st.flow.status))
            && d.steps.Some? && |d.steps.value| == |st.flow.steps|
            && forall j :: 0 <= j < |st.flow.steps| ==>
                 d.steps.value[j] == StepToDict(st.flow.steps[j]).(result :=
                   Some(if st.at.AwaitTask? && st.at.step == j then init.steps[j].result else st.flow.steps[j].result))
  {
  }

  /** The block submitted a task. */
  ghost predicate Submits(st: State, e: FlowEvent)
    requires CanHappen(st, e)
  {
    e.Resume? && e.uuid in Next(st, e).sys.tasks
  }

  lemma BeginSubmits(st: State, i: nat, now: int, uuid: TaskId)
    requires i <= |st.flow.steps|
    ensures var st' := BeginStep(st, i, now, uuid);
            && st'.sources == st.sources
            && (uuid in st'.sys.tasks && uuid !in st.sys.tasks ==>
               PendingTask(st'.at) == Some(uuid) && i < |st.flow.steps|)
  {
  }

  /** Step `|st.sources|` is done before this block, its task completed, and the next one's is submitted. */
  ghost predicate Advances(st: State, st': State, uuid: TaskId) {
    && PendingTask(st'.at) == Some(uuid) && |st'.sources| == |st.sources| + 1
       && st'.sources[..|st.sources|] == st.sources
    && var source := st'.sources[|st.sources|];
       source.FromTask? ==> source.id in st.sys.tasks && st.sys.tasks[source.id].status.Completed?
  }

  lemma PolledSubmits(st: State, now: int, uuid: TaskId)
    requires Wakes(st) && st.at.AwaitTask? && uuid !in st.sys.tasks && uuid in Polled(st, now, uuid).sys.tasks
    ensures Advances(st, Polled(st, now, uuid), uuid)
  {
    var AwaitTask(i, id, deadline) := st.at;
    var r := st.sys.tasks[id];
    if now < deadline && r.status.Completed? {
      var st1 := CompleteStep(st, i, r.result, FromTask(id));
      assert st1.sources == st.sources + [FromTask(id)] && st1.sys.tasks == st.sys.tasks;
      BeginSubmits(st1, i + 1, now, uuid);
    }
  }

  lemma AnsweredSubmits(st: State, now: int, uuid: TaskId, outcome: Result<Json, string>)
    requires Wakes(st) && st.at.AwaitHandler? && uuid !in st.sys.tasks
             && uuid in Answered(st, now, uuid, outcome).sys.tasks
    ensures Advances(st, Answered(st, now, uuid, outcome), uuid)
  {
    var i := st.at.step;
    if HandlerOutcome(st.flow.steps[i], outcome).Ok? {
      var v := HandlerOutcome(st.flow.steps[i], outcome).value;
      BeginSubmits(CompleteStep(st, i, v, FromHandler(v)), i + 1, now, uuid);
    }
  }

  /** The block from `st` to `st'` submitted the task of the step after those that are done, each of which
      was done, its task completed, before the block began. */
  ghost predicate InOrder(init: Flow, st: State, st': State, uuid: TaskId) {
    var k := |st'.sources|;
    && k == |st.sources| + 1 && k < |init.steps| && PendingTask(st'.at) == Some(uuid)
    && Own(st'.sys.tasks, init.steps[k], uuid)
    && forall j, id :: 0 <= j < k && UsesTask(st'.sources[j], id) ==>
         id in st.sys.tasks && st.sys.tasks[id].status.Completed?
  }

  lemma AdvancesInOrder(init: Flow, st: State, st': State, uuid: TaskId)
    requires RunInv(init, st) && RunInv(init, st') && Advances(st, st', uuid)
    ensures InOrder(init, st, st', uuid)
  {
    forall j, id | 0 <= j < |st'.sources| && UsesTask(st'.sources[j], id)
      ensures id in st.sys.tasks && st.sys.tasks[id].status.Completed?
    {
      if j < |st.sources| {
        assert st'.sources[j] == st.sources[j];
        assert Done(st.sys.tasks, init.steps[j], st.flow.steps[j], st.sources[j]);
      }
    }
  }

  lemma NextAdvances(st: State, e: FlowEvent)
    requires CanHappen(st, e) && Submits(st, e)
    ensures Advances(st, Next(st, e), e.uuid)
  {
    if st.at.AwaitTask? {
      PolledSubmits(st, e.now, e.uuid);
    } else if st.at.AwaitHandler? {
      AnsweredSubmits(st, e.now, e.uuid, e.outcome);
    }
  }

  lemma NextSubmits(init: Flow, st: State, e: FlowEvent)
    requires DictPayloads(init) && RunInv(init, st) && CanHappen(st, e) && Submits(st, e)
    ensures InOrder(init, st, Next(st, e), e.uuid)
  {
    NextKeeps(init, st, e);
    NextAdvances(st, e);
    AdvancesInOrder(init, st, Next(st, e), e.uuid);
  }

  /** In every run the tasks of later steps are submitted in order. */
  lemma SubmitsAfterCompletion(sys: System, init: Flow, limits: Limits, now: int, uuid: TaskId,
                               events: seq<FlowEvent>, st: State, e: FlowEvent)
    requires Reaches(sys, init, limits, now, uuid, events, st) && CanHappen(st, e) && Submits(st, e)
    ensures InOrder(init, st, Next(st, e), e.uuid)
  {
    ReachesInv(sys, init, limits, now, uuid, events, st);
    NextSubmits(init, st, e);
  }

  /** Whatever its task does, a step is left by the first wake-up at or after its deadline. */
  lemma DeadlineEndsStep(init: Flow, st: State, now: int, uuid: TaskId, outcome: Result<Json, string>)
    requires RunInv(init, st) && st.at.AwaitTask? && now >= st.at.deadline
    ensures Woken(st, now, uuid, outcome).at == Returned(Some(TimedOut(st.at.id)))
    ensures Woken(st, now, uuid, outcome).sys.tasks == st.sys.tasks
  {
  }

  // ---------- A crash in the middle of a run ----------

  /** What a new process makes of a stored workflow. */
  function RestoreWorkflow(d: WorkflowDict): Result<Flow, LoadError> {
    match WorkflowSpec.FromDict(d)
    case Err(e) => Err(e)
    case Ok(f) => Ok(if f.status.Running? then f.(status := StepStatus.Pending) else f)
  }

  lemma {:induction false} WritesKeepWorkflows(disk: Option<Disk>, ws: seq<Write>)
    ensures DoWrites(disk, ws).Some? <==> disk.Some?
    ensures disk.Some? ==> DoWrites(disk, ws).value.workflows == disk.value.workflows
    decreases |ws|
  {
    if ws != [] {
      WritesKeepWorkflows(DoWrite(disk, ws[0]), ws[1..]);
    }
  }

  /** The process dies while the run sleeps, at an await or after some of the store writes of an engine
      block: the workflow comes back pending, with its task steps as far as they got. */
  lemma CrashMidRun(init: Flow, st: State, e: Lifecycle.Event, written: nat)
    requires RunInv(init, st) && st.sys.disk.Some? && !st.at.Returned?
    requires Lifecycle.Possible(st.sys, e) && written <= |Writes(st.sys, e)|
    ensures var disk := TornDisk(st.sys, e, written);
            && disk.Some? && Readable(disk) && init.id in disk.value.workflows
            && RestoreWorkflow(disk.value.workflows[init.id])
               == Ok(st.flow.(status := StepStatus.Pending,
                              steps := ReloadedTasks(StoredFlow(init, st.flow, st.at).steps)))
  {
    TornDiskKeeps(st.sys, e, written);
    WritesKeepWorkflows(st.sys.disk, Writes(st.sys, e)[..written]);
    RoundTrip(StoredFlow(init, st.flow, st.at));
  }
}
