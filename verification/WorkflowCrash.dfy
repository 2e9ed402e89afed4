/** What a crash in the middle of a block of `run_workflow` leaves: a block writes the store several times. */
module WorkflowCrash {
  import opened Prelude
  import opened Records
  import opened Lifecycle
  import opened LifecycleInvariant
  import opened WorkflowSpec
  import opened WorkflowRunSpec
  import opened WorkflowSequencing

  // ---------- The states right after each write of a block, in order ----------

  function SubmitWrites(st: State, i: nat, now: int, uuid: TaskId): seq<State>
    requires i < |st.flow.steps| && st.flow.steps[i].IsTask()
  {
    var target := st.flow.steps[i].target.value;
    if target !in st.sys.registry.agents then [FailStep(st, i, NotFound(target), NoAgent)]
    else
      var st1 := Submitted(st, i, now, uuid);
      [st1] + if st.limits.timeout <= 0 then [FailStep(st1, i, st1.limits.message, TimedOut(uuid))] else []
  }

  function BeginWrites(st: State, i: nat, now: int, uuid: TaskId): seq<State>
    requires i <= |st.flow.steps|
  {
    if i == |st.flow.steps| then [BeginStep(st, i, now, uuid)]
    else
      var st1 := MarkRunning(st, i);
      [st1] + if st.flow.steps[i].IsTask() then SubmitWrites(st1, i, now, uuid) else []
  }

  function GoOnWrites(st: State, i: nat, result: Json, source: Source, now: int, uuid: TaskId): seq<State>
    requires i < |st.flow.steps|
  {
    var st1 := CompleteStep(st, i, result, source);
    [st1] + BeginWrites(st1, i + 1, now, uuid)
  }

  /** A block that fails a step or goes to sleep again writes once or not at all. */
  function WokenWrites(st: State, now: int, uuid: TaskId, outcome: Result<Json, string>): seq<State>
    requires Wakes(st)
  {
    match st.at
    case Returned(_) => []
    case AwaitTask(i, id, deadline) =>
      var r := st.sys.tasks[id];
      if now < deadline && r.status.Completed? then GoOnWrites(st, i, r.result, FromTask(id), now, uuid)
      else if now < deadline && !r.status.Failed? then []
      else [Polled(st, now, uuid)]
    case AwaitHandler(i) =>
      match HandlerOutcome(st.flow.steps[i], outcome)
      case Ok(v) => GoOnWrites(st, i, v, FromHandler(v), now, uuid)
      case Err(_) => [Answered(st, now, uuid, outcome)]
  }

  function StartWrites(sys: System, flow: Flow, limits: Limits, now: int, uuid: TaskId): seq<State> {
    var st := Persist(State(sys, flow.(status := StepStatus.Running), Returned(None), [], limits));
    [st] + BeginWrites(st, 0, now, uuid)
  }

  /** The store after all writes is the one that the block leaves. */
  predicate EndsIn(writes: seq<State>, st: State, st': State) {
    st'.sys.disk == if writes == [] then st.sys.disk else writes[|writes| - 1].sys.disk
  }

  lemma BeginWritesEnd(st: State, i: nat, now: int, uuid: TaskId)
    requires i <= |st.flow.steps|
    ensures BeginWrites(st, i, now, uuid) != []
            && EndsIn(BeginWrites(st, i, now, uuid), st, BeginStep(st, i, now, uuid))
  {
  }

  lemma GoOnWritesEnd(st: State, i: nat, result: Json, source: Source, now: int, uuid: TaskId)
    requires i < |st.flow.steps|
    ensures EndsIn(GoOnWrites(st, i, result, source, now, uuid), st,
            BeginStep(CompleteStep(st, i, result, source), i + 1, now, uuid))
  {
    BeginWritesEnd(CompleteStep(st, i, result, source), i + 1, now, uuid);
  }

  lemma PolledWritesEnd(st: State, now: int, uuid: TaskId, outcome: Result<Json, string>)
    requires Wakes(st) && st.at.AwaitTask?
    ensures EndsIn(WokenWrites(st, now, uuid, outcome), st, Polled(st, now, uuid))
  {
    var AwaitTask(i, id, deadline) := st.at;
    var r := st.sys.tasks[id];
    if now < deadline && r.status.Completed? {
      GoOnWritesEnd(st, i, r.result, FromTask(id), now, uuid);
      assert WokenWrites(st, now, uuid, outcome) == GoOnWrites(st, i, r.result, FromTask(id), now, uuid);
    } else if now < deadline && !r.status.Failed? {
      assert WokenWrites(st, now, uuid, outcome) == [];
    } else {
      assert WokenWrites(st, now, uuid, outcome) == [Polled(st, now, uuid)];
    }
  }

  lemma AnsweredWritesEnd(st: State, now: int, uuid: TaskId, outcome: Result<Json, string>)
    requires Wakes(st) && st.at.AwaitHandler?
    ensures EndsIn(WokenWrites(st, now, uuid, outcome), st, Answered(st, now, uuid, outcome))
  {
    match HandlerOutcome(st.flow.steps[st.at.step], outcome)
    case Ok(v) => GoOnWritesEnd(st, st.at.step, v, FromHandler(v), now, uuid);
    case Err(_) =>
  }

  lemma WokenWritesEnd(st: State, now: int, uuid: TaskId, outcome: Result<Json, string>)
    requires Wakes(st)
    ensures EndsIn(WokenWrites(st, now, uuid, outcome), st, Woken(st, now, uuid, outcome))
  {
    match st.at
    case Returned(_) =>
    case AwaitTask(_, _, _) => PolledWritesEnd(st, now, uuid, outcome);
    case AwaitHandler(_) => AnsweredWritesEnd(st, now, uuid, outcome);
  }

  // ---------- What every one of them is good for ----------

  /** Part of the way through: the completed steps have their results, the next one is as it was before the
      run, marked running, or failed, and the ones after it are as they were. */
  ghost predicate Partway(init: Flow, tasks: map<TaskId, Record>, sources: seq<Source>, f: Flow) {
    && Shaped(init, f, sources) && EarlierDone(tasks, init, f, sources) && LaterUntouched(init, f, |sources|)
    && (|sources| < |init.steps| ==>
          var s0, s := init.steps[|sources|], f.steps[|sources|];
          s == s0 || s == s0.(status := StepStatus.Running, error := None) || s.status.Failed?)
  }

  /** A new process can start from the store, and finds the workflow part of the way through. */
  ghost predicate Recoverable(init: Flow, st: State) {
    SystemInv(st.sys) && exists f :: Partway(init, st.sys.tasks, st.sources, f) && Stored(st, f)
  }

  lemma AtAwaitPartway(init: Flow, st: State)
    requires RunInv(init, st)
    ensures Partway(init, st.sys.tasks, st.sources, StoredFlow(init, st.flow, st.at))
  {
    var f := StoredFlow(init, st.flow, st.at);
    forall j | 0 <= j < |st.sources|
      ensures Done(st.sys.tasks, init.steps[j], f.steps[j], st.sources[j])
    {
      assert Done(st.sys.tasks, init.steps[j], st.flow.steps[j], st.sources[j]);
    }
  }

  lemma AtAwaitRecoverable(init: Flow, st: State)
    requires RunInv(init, st)
    ensures Recoverable(init, st)
  {
    AtAwaitPartway(init, st);
  }

  lemma AtHeadRecoverable(init: Flow, st: State)
    requires AtLoopHead(init, st) && Stored(st, st.flow)
    ensures Recoverable(init, st)
  {
    assert Partway(init, st.sys.tasks, st.sources, st.flow);
  }

  lemma MarkedRecoverable(init: Flow, st: State)
    requires Marked(init, st)
    ensures Recoverable(init, st)
  {
    assert Partway(init, st.sys.tasks, st.sources, st.flow);
  }

  lemma SubmittedRecoverable(init: Flow, before: Flow, tasks0: map<TaskId, Record>, st: State, uuid: TaskId)
    requires JustSubmitted(init, before, st, uuid) && Shaped(init, before, st.sources)
    requires EarlierDone(tasks0, init, before, st.sources) && LaterUntouched(init, before, |st.sources|)
    requires forall id :: id in tasks0 ==> id in st.sys.tasks && st.sys.tasks[id] == tasks0[id]
    ensures Recoverable(init, st)
  {
    EarlierStayDone(tasks0, st.sys.tasks, init, before, before, st.sources);
    assert Partway(init, st.sys.tasks, st.sources, before);
  }

  ghost predicate AllRecoverable(init: Flow, writes: seq<State>) {
    forall n :: 0 <= n < |writes| ==> Recoverable(init, writes[n])
  }

  lemma OneMoreRecoverable(init: Flow, st: State, rest: seq<State>)
    requires Recoverable(init, st) && AllRecoverable(init, rest)
    ensures AllRecoverable(init, [st] + rest)
  {
  }

  lemma SubmitWritesRecoverable(init: Flow, st: State, now: int, uuid: TaskId)
    requires DictPayloads(init) && uuid !in st.sys.tasks && Marked(init, st) && init.steps[|st.sources|].IsTask()
    ensures AllRecoverable(init, SubmitWrites(st, |st.sources|, now, uuid))
  {
    var i := |st.sources|;
    var target := init.steps[i].target.value;
    if target !in st.sys.registry.agents {
      NoAgentKeeps(init, st);
      AtAwaitRecoverable(init, FailStep(st, i, NotFound(target), NoAgent));
    } else {
      FirstWriteRecoverable(init, st, now, uuid);
    }
  }

  lemma FirstWriteRecoverable(init: Flow, st: State, now: int, uuid: TaskId)
    requires DictPayloads(init) && uuid !in st.sys.tasks && Marked(init, st) && init.steps[|st.sources|].IsTask()
    requires init.steps[|st.sources|].target.value in st.sys.registry.agents
    ensures var st1 := Submitted(st, |st.sources|, now, uuid);
            && Recoverable(init, st1)
            && Recoverable(init, FailStep(st1, |st.sources|, st1.limits.message, TimedOut(uuid)))
  {
    var st1 := Submitted(st, |st.sources|, now, uuid);
    SubmittedKeeps(init, st, now, uuid);
    SubmittedTask(st.sys, st.flow.steps[|st.sources|], uuid, now);
    SubmittedRecoverable(init, st.flow, st.sys.tasks, st1, uuid);
    TimedOutRecoverable(init, st.flow, st1, uuid);
  }

  lemma TimedOutRecoverable(init: Flow, before: Flow, st: State, uuid: TaskId)
    requires JustSubmitted(init, before, st, uuid)
    ensures Recoverable(init, FailStep(st, |st.sources|, st.limits.message, TimedOut(uuid)))
  {
    TimedOutAtOnce(init, before, st, uuid);
    AtAwaitRecoverable(init, FailStep(st, |st.sources|, st.limits.message, TimedOut(uuid)));
  }

  lemma BeginWritesRecoverable(init: Flow, st: State, now: int, uuid: TaskId)
    requires DictPayloads(init) && uuid !in st.sys.tasks && AtLoopHead(init, st)
    ensures AllRecoverable(init, BeginWrites(st, |st.sources|, now, uuid))
  {
    var i := |st.sources|;
    if i == |st.flow.steps| {
      BeginStepKeeps(init, st, now, uuid);
      AtAwaitRecoverable(init, BeginStep(st, i, now, uuid));
    } else {
      var st1 := MarkRunning(st, i);
      MarkRunningKeeps(init, st);
      MarkedRecoverable(init, st1);
      if st.flow.steps[i].IsTask() {
        SubmitWritesRecoverable(init, st1, now, uuid);
        OneMoreRecoverable(init, st1, SubmitWrites(st1, i, now, uuid));
      }
    }
  }

  lemma CompletedRecoverable(init: Flow, st: State, result: Json, source: Source)
    requires RunInv(init, st) && !st.at.Returned?
    requires var i := |st.sources|;
             Done(st.sys.tasks, init.steps[i], st.flow.steps[i].(result := result, status := StepStatus.Completed),
                 source)
    requires source.FromTask? ==> PendingTask(st.at) == Some(source.id)
    ensures Recoverable(init, CompleteStep(st, |st.sources|, result, source))
  {
    var st1 := CompleteStep(st, |st.sources|, result, source);
    CompleteStepKeeps(init, st, result, source);
    assert Stored(st1, st1.flow);
    AtHeadRecoverable(init, st1);
  }

  lemma GoOnWritesRecoverable(init: Flow, st: State, result: Json, source: Source, now: int, uuid: TaskId)
    requires DictPayloads(init) && RunInv(init, st) && !st.at.Returned? && uuid !in st.sys.tasks
    requires var i := |st.sources|;
             Done(st.sys.tasks, init.steps[i], st.flow.steps[i].(result := result, status := StepStatus.Completed),
                 source)
    requires source.FromTask? ==> PendingTask(st.at) == Some(source.id)
    ensures AllRecoverable(init, GoOnWrites(st, |st.sources|, result, source, now, uuid))
  {
    var st1 := CompleteStep(st, |st.sources|, result, source);
    CompleteStepKeeps(init, st, result, source);
    CompletedRecoverable(init, st, result, source);
    BeginWritesRecoverable(init, st1, now, uuid);
    OneMoreRecoverable(init, st1, BeginWrites(st1, |st1.sources|, now, uuid));
  }

  lemma WokenWritesRecoverable(init: Flow, st: State, now: int, uuid: TaskId, outcome: Result<Json, string>)
    requires DictPayloads(init) && RunInv(init, st) && uuid !in st.sys.tasks
    ensures Wakes(st) && AllRecoverable(init, WokenWrites(st, now, uuid, outcome))
  {
    WokenKeeps(init, st, now, uuid, outcome);
    AtAwaitRecoverable(init, Woken(st, now, uuid, outcome));
    match st.at
    case Returned(_) =>
    case AwaitTask(i, id, deadline) =>
      var r := st.sys.tasks[id];
      if now < deadline && r.status.Completed? {
        GoOnWritesRecoverable(init, st, r.result, FromTask(id), now, uuid);
      }
    case AwaitHandler(i) =>
      match HandlerOutcome(st.flow.steps[i], outcome)
      case Ok(v) => GoOnWritesRecoverable(init, st, v, FromHandler(v), now, uuid);
      case Err(_) =>
  }

  // ---------- Crashes at any point of any run ----------

  /** The state whose store a crash leaves, after so many writes of the block. */
  function Torn(st: State, writes: seq<State>, written: nat): State
    requires written <= |writes|
  {
    if written == 0 then st else writes[written - 1]
  }

  /** How often the block writes the store: one of the run itself, or one of the engine while the run sleeps. */
  ghost function WriteCount(st: State, e: FlowEvent): nat
    requires CanHappen(st, e)
  {
    match e
    case Engine(x) => |Writes(st.sys, x)|
    case Resume(now, uuid, outcome) => |WokenWrites(st, now, uuid, outcome)|
  }

  ghost function TornBy(st: State, e: FlowEvent, written: nat): State
    requires CanHappen(st, e) && written <= WriteCount(st, e)
  {
    match e
    case Engine(x) => st.(sys := st.sys.(disk := TornDisk(st.sys, x, written)))
    case Resume(now, uuid, outcome) => Torn(st, WokenWrites(st, now, uuid, outcome), written)
  }

  /** As a new process has it: the task steps, and pending if it was running. */
  function Restarted(f: Flow): Flow {
    f.(steps := ReloadedTasks(f.steps), status := if f.status.Running? then StepStatus.Pending else f.status)
  }

  /** A new process can start from the store, and reads the workflow back as it was part of the way through. */
  ghost predicate ComesBack(init: Flow, st: State, f: Flow) {
    && st.sys.disk.Some? && Readable(st.sys.disk)
    && Partway(init, st.sys.tasks, st.sources, f)
    && init.id in st.sys.disk.value.workflows
    && RestoreWorkflow(st.sys.disk.value.workflows[init.id]) == Ok(Restarted(f))
  }

  lemma StoredComesBack(init: Flow, st: State, f: Flow)
    requires Partway(init, st.sys.tasks, st.sources, f) && Stored(st, f)
    requires st.sys.disk.Some? && Readable(st.sys.disk)
    ensures ComesBack(init, st, f)
  {
    RoundTrip(f);
  }

  lemma RecoverableComesBack(init: Flow, st: State) returns (f: Flow)
    requires Recoverable(init, st) && st.sys.disk.Some?
    ensures ComesBack(init, st, f)
  {
    f :| Partway(init, st.sys.tasks, st.sources, f) && Stored(st, f);
    StoredRowsReadable(st.sys);
    StoredComesBack(init, st, f);
  }

  lemma AsleepComesBack(init: Flow, st: State, e: Lifecycle.Event, written: nat)
    requires RunInv(init, st) && st.sys.disk.Some? && Possible(st.sys, e) && written <= |Writes(st.sys, e)|
    ensures ComesBack(init, st.(sys := st.sys.(disk := TornDisk(st.sys, e, written))),
                      StoredFlow(init, st.flow, st.at))
  {
    TornDiskKeeps(st.sys, e, written);
    WritesKeepWorkflows(st.sys.disk, Writes(st.sys, e)[..written]);
    AtAwaitPartway(init, st);
    StoredComesBack(init, st.(sys := st.sys.(disk := TornDisk(st.sys, e, written))),
        StoredFlow(init, st.flow, st.at));
  }

  /** In any run, a crash at an await or after any number of the store writes of a block, of the run itself
      or of the engine while the run sleeps, leaves a store from which a new process starts, with the
      workflow part of the way through. */
  lemma CrashMidBlock(sys: System, init: Flow, limits: Limits, now: int, uuid: TaskId, events: seq<FlowEvent>,
                      st: State, e: FlowEvent, written: nat) returns (f: Flow)
    requires Reaches(sys, init, limits, now, uuid, events, st) && CanHappen(st, e)
    requires written <= WriteCount(st, e) && TornBy(st, e, written).sys.disk.Some?
    ensures ComesBack(init, TornBy(st, e, written), f)
  {
    ReachesInv(sys, init, limits, now, uuid, events, st);
    match e
    case Engine(x) =>
      WritesKeepWorkflows(st.sys.disk, Writes(st.sys, x)[..written]);
      AsleepComesBack(init, st, x, written);
      f := StoredFlow(init, st.flow, st.at);
    case Resume(at, id, outcome) =>
      AtAwaitRecoverable(init, st);
      WokenWritesRecoverable(init, st, at, id, outcome);
      f := RecoverableComesBack(init, TornBy(st, e, written));
  }

  /** The same for the first block, once it has written at all. */
  lemma CrashInFirstBlock(sys: System, init: Flow, limits: Limits, now: int, uuid: TaskId, written: nat)
      returns (f: Flow)
    requires SystemInv(sys) && DictPayloads(init) && uuid !in sys.tasks
    requires 1 <= written <= |StartWrites(sys, init, limits, now, uuid)|
    requires StartWrites(sys, init, limits, now, uuid)[written - 1].sys.disk.Some?
    ensures ComesBack(init, StartWrites(sys, init, limits, now, uuid)[written - 1], f)
  {
    StartWritesRecoverable(sys, init, limits, now, uuid);
    f := RecoverableComesBack(init, StartWrites(sys, init, limits, now, uuid)[written - 1]);
  }

  lemma StartWritesRecoverable(sys: System, init: Flow, limits: Limits, now: int, uuid: TaskId)
    requires SystemInv(sys) && DictPayloads(init) && uuid !in sys.tasks
    ensures AllRecoverable(init, StartWrites(sys, init, limits, now, uuid))
  {
    var running := init.(status := StepStatus.Running);
    var st := Persist(State(sys, running, Returned(None), [], limits));
    SavedKeeps(sys, running);
    AtHeadRecoverable(init, st);
    BeginWritesRecoverable(init, st, now, uuid);
    OneMoreRecoverable(init, st, BeginWrites(st, 0, now, uuid));
  }

  /** The first block's writes end in the store that it leaves. */
  lemma StartWritesEnd(sys: System, init: Flow, limits: Limits, now: int, uuid: TaskId)
    ensures var writes := StartWrites(sys, init, limits, now, uuid);
            writes[|writes| - 1].sys.disk == Start(sys, init, limits, now, uuid).sys.disk
  {
    BeginWritesEnd(Persist(State(sys, init.(status := StepStatus.Running), Returned(None), [], limits)), 0, now, uuid);
  }
}
