/** What each wake-up of `run_workflow` does, in terms of the step it concerns, and where results and errors
    come from over whole runs. */
module WorkflowEffects {
  import opened Prelude
  import opened Records
  import opened Lifecycle
  import opened WorkflowSpec
  import opened WorkflowRunSpec
  import opened WorkflowSequencing

  // ---------- Between two steps ----------

  /** Nothing but the workflow table of the store has changed outside the run, and the workflow is stored. */
  ghost predicate OnlySaves(st: State, st': State) {
    && st'.limits == st.limits && st'.sys == st.sys.(disk := st'.sys.disk)
    && (st.sys.disk.None? ==> st'.sys.disk.None?)
    && (st.sys.disk.Some? ==>
          && st'.sys.disk.Some?
          && st'.sys.disk.value.tasks == st.sys.disk.value.tasks
          && st'.sys.disk.value.agents == st.sys.disk.value.agents
          && st.flow.id in st'.sys.disk.value.workflows
          && st'.sys.disk.value.workflows - {st.flow.id} == st.sys.disk.value.workflows - {st.flow.id})
  }

  /** Step `i` failed with this error and ended the run; the other steps are as they were. */
  ghost predicate Stops(st: State, st': State, i: nat, error: string, why: Failure) {
    && i < |st.flow.steps|
    && st'.at == Returned(Some(why)) && st'.sources == st.sources
    && st'.flow == st.flow.(status := StepStatus.Failed,
                            steps := st.flow.steps[i := st.flow.steps[i].(status := StepStatus.Failed,
                                                                          error := Some(error))])
    && OnlySaves(st, st')
  }

  /** Step `i` is completed with this result, from this source, and so far nothing else has happened. */
  ghost predicate Completes(st: State, st': State, i: nat, result: Json, source: Source) {
    && i < |st.flow.steps|
    && st'.at == st.at && st'.sources == st.sources + [source]
    && st'.flow == st.flow.(steps := st.flow.steps[i := st.flow.steps[i].(status := StepStatus.Completed,
                                                                          result := result)])
    && OnlySaves(st, st')
  }

  lemma SavesOnly(st: State, st1: State)
    requires st1.sys == st.sys && st1.limits == st.limits && st1.flow.id == st.flow.id
    ensures OnlySaves(st, Persist(st1))
  {
  }

  lemma FailStops(st: State, i: nat, error: string, why: Failure)
    requires i < |st.flow.steps|
    ensures Stops(st, FailStep(st, i, error, why), i, error, why)
  {
  }

  lemma CompleteCompletes(st: State, i: nat, result: Json, source: Source)
    requires i < |st.flow.steps|
    ensures Completes(st, CompleteStep(st, i, result, source), i, result, source)
  {
  }

  // ---------- Beginning a step ----------

  /** Step `i` is running, without the error of an earlier run. */
  ghost predicate Marks(st: State, st': State, i: nat) {
    && i < |st.flow.steps|
    && st'.at == st.at && st'.sources == st.sources
    && st'.flow == st.flow.(steps := st.flow.steps[i := st.flow.steps[i].(status := StepStatus.Running, error := None)])
    && OnlySaves(st, st')
  }

  /** The task of step `i` is submitted to the step's agent, and the step remembers its id. */
  ghost predicate Submits(st: State, st': State, i: nat, now: int, uuid: TaskId) {
    && i < |st.flow.steps| && st.flow.steps[i].target.Some?
    && var e := Event.Submit(st.flow.steps[i].target.value, Some(st.flow.steps[i].payload), 0, "default", uuid, now);
       && Possible(st.sys, e) && st' == st.(sys := Advance(st.sys, e), flow := st'.flow)
       && st'.flow == st.flow.(steps :=
                st.flow.steps[i := st.flow.steps[i].(result := Obj(map["task_id" := Str(uuid)]))])
  }

  ghost predicate AsksAgent(s: Step) {
    s.target.Some? && s.target.value != ""
  }

  /** From the mark to the next await: of the handler, or of the task, unless its agent is unknown or there is
      no time to wait. */
  ghost predicate Proceeds(st: State, st': State, i: nat, now: int, uuid: TaskId) {
    && i < |st.flow.steps|
    && var s := st.flow.steps[i];
       if !AsksAgent(s) then st' == st.(at := AwaitHandler(i))
       else if s.target.value !in st.sys.registry.agents
         then Stops(st, st', i, "Agent not found: " + s.target.value, NoAgent)
       else exists st1 :: Submits(st, st1, i, now, uuid) && Awaits(st1, st', i, now, uuid)
  }

  ghost predicate Awaits(st: State, st': State, i: nat, now: int, uuid: TaskId) {
    if st.limits.timeout <= 0 then Stops(st, st', i, st.limits.message, TimedOut(uuid))
    else st' == st.(at := AwaitTask(i, uuid, now + st.limits.timeout))
  }

  /** The next step begins, or the run ends with every step behind it. */
  ghost predicate Begins(st: State, st': State, i: nat, now: int, uuid: TaskId) {
    if i == |st.flow.steps| then
      && st'.at == Returned(None) && st'.sources == st.sources
      && st'.flow == st.flow.(status := StepStatus.Completed) && OnlySaves(st, st')
    else exists st1 :: Marks(st, st1, i) && Proceeds(st1, st', i, now, uuid)
  }

  lemma SubmitSubmits(st: State, i: nat, now: int, uuid: TaskId)
    requires i < |st.flow.steps| && st.flow.steps[i].IsTask() && uuid !in st.sys.tasks
    ensures Submits(st, Submitted(st, i, now, uuid), i, now, uuid)
  {
  }

  lemma StepProceeds(st: State, i: nat, now: int, uuid: TaskId)
    requires i < |st.flow.steps| && uuid !in st.sys.tasks
    ensures Proceeds(st, if st.flow.steps[i].IsTask() then SubmitStep(st, i, now, uuid) else st.(at := AwaitHandler(i)),
                     i, now, uuid)
  {
    var s := st.flow.steps[i];
    if s.IsTask() && s.target.value in st.sys.registry.agents {
      var st1 := Submitted(st, i, now, uuid);
      SubmitSubmits(st, i, now, uuid);
      FailStops(st1, i, st1.limits.message, TimedOut(uuid));
      assert Awaits(st1, SubmitStep(st, i, now, uuid), i, now, uuid);
    } else if s.IsTask() {
      FailStops(st, i, "Agent not found: " + s.target.value, NoAgent);
    }
  }

  lemma StepBegins(st: State, i: nat, now: int, uuid: TaskId)
    requires i <= |st.flow.steps| && uuid !in st.sys.tasks
    ensures Begins(st, BeginStep(st, i, now, uuid), i, now, uuid)
  {
    if i < |st.flow.steps| {
      var st1 := MarkRunning(st, i);
      assert Marks(st, st1, i);
      StepProceeds(st1, i, now, uuid);
    }
  }

  /** The first block of a run. */
  lemma StartEffect(sys: System, flow: Flow, limits: Limits, now: int, uuid: TaskId)
    requires uuid !in sys.tasks
    ensures exists st ::
              && OnlySaves(State(sys, flow, Returned(None), [], limits), st)
              && st.flow == flow.(status := StepStatus.Running) && st.sources == []
              && Begins(st, Start(sys, flow, limits, now, uuid), 0, now, uuid)
  {
    var st := Persist(State(sys, flow.(status := StepStatus.Running), Returned(None), [], limits));
    StepBegins(st, 0, now, uuid);
  }

  // ---------- Waking up ----------

  /** Step `i` is completed, and the next one begins. */
  ghost predicate GoesOn(st: State, st': State, i: nat, result: Json, source: Source, now: int, uuid: TaskId) {
    exists st1 :: Completes(st, st1, i, result, source) && Begins(st1, st', i + 1, now, uuid)
  }

  lemma CompleteGoesOn(st: State, i: nat, result: Json, source: Source, now: int, uuid: TaskId)
    requires i < |st.flow.steps| && uuid !in st.sys.tasks
    ensures GoesOn(st, BeginStep(CompleteStep(st, i, result, source), i + 1, now, uuid), i, result, source, now, uuid)
  {
    CompleteCompletes(st, i, result, source);
    StepBegins(CompleteStep(st, i, result, source), i + 1, now, uuid);
  }

  /** When the awaited handler has returned, its value is the result of the step; when it raised, its error is
      the error of the step and of the run; a step without a handler cannot be called. */
  lemma AnswerEffect(st: State, e: FlowEvent)
    requires CanHappen(st, e) && e.Resume? && st.at.AwaitHandler?
    ensures var i, st' := st.at.step, Next(st, e);
            if st.flow.steps[i].handler.None?
              then Stops(st, st', i, "'NoneType' object is not callable", Raised("'NoneType' object is not callable"))
            else match e.outcome
              case Ok(v) => GoesOn(st, st', i, v, FromHandler(v), e.now, e.uuid)
              case Err(m) => Stops(st, st', i, m, Raised(m))
  {
    if st.flow.steps[st.at.step].handler.Some? && e.outcome.Ok? {
      AnswerGoesOn(st, e);
    } else {
      AnswerStops(st, e);
    }
  }

  lemma AnswerGoesOn(st: State, e: FlowEvent)
    requires CanHappen(st, e) && e.Resume? && st.at.AwaitHandler?
    requires st.flow.steps[st.at.step].handler.Some? && e.outcome.Ok?
    ensures GoesOn(st, Next(st, e), st.at.step, e.outcome.value, FromHandler(e.outcome.value), e.now, e.uuid)
  {
    CompleteGoesOn(st, st.at.step, e.outcome.value, FromHandler(e.outcome.value), e.now, e.uuid);
  }

  lemma AnswerStops(st: State, e: FlowEvent)
    requires CanHappen(st, e) && e.Resume? && st.at.AwaitHandler?
    requires st.flow.steps[st.at.step].handler.None? || e.outcome.Err?
    ensures var m := if st.flow.steps[st.at.step].handler.None? then "'NoneType' object is not callable"
                     else e.outcome.error;
            Stops(st, Next(st, e), st.at.step, m, Raised(m))
  {
    var m := if st.flow.steps[st.at.step].handler.None? then "'NoneType' object is not callable" else e.outcome.error;
    FailStops(st, st.at.step, m, Raised(m));
  }

  /** The awaited step has the value that its handler returned, or has failed with the error that it raised
      and has ended the run. */
  ghost predicate AnsweredWith(st: State, st': State, outcome: Result<Json, string>)
    requires st.at.AwaitHandler? && st.at.step < |st.flow.steps|
  {
    var i := st.at.step;
    && i < |st'.flow.steps|
    && match (if st.flow.steps[i].handler.Some? then outcome else Err("'NoneType' object is not callable"))
       case Ok(v) =>
         && st'.sources == st.sources + [FromHandler(v)]
         && st'.flow.steps[i] == st.flow.steps[i].(result := v, status := StepStatus.Completed)
       case Err(m) =>
         && st'.sources == st.sources && st'.at == Returned(Some(Raised(m))) && st'.flow.status.Failed?
         && st'.flow.steps[i] == st.flow.steps[i].(error := Some(m), status := StepStatus.Failed)
  }

  lemma BeginLeavesEarlier(st: State, i: nat, now: int, uuid: TaskId, j: nat)
    requires j < i <= |st.flow.steps|
    ensures var st' := BeginStep(st, i, now, uuid);
            st'.sources == st.sources && |st'.flow.steps| == |st.flow.steps| && st'.flow.steps[j] == st.flow.steps[j]
  {
  }

  lemma AnswerMeans(st: State, now: int, uuid: TaskId, outcome: Result<Json, string>)
    requires Wakes(st) && st.at.AwaitHandler?
    ensures AnsweredWith(st, Answered(st, now, uuid, outcome), outcome)
  {
    var i := st.at.step;
    if st.flow.steps[i].handler.Some? && outcome.Ok? {
      BeginLeavesEarlier(CompleteStep(st, i, outcome.value, FromHandler(outcome.value)), i + 1, now, uuid, i);
    }
  }

  /** A wake-up in the poll loop: the deadline ends the step before anything else; then the end of the task
      does, with its result or its error; otherwise the run sleeps again. */
  lemma PollEffect(st: State, e: FlowEvent)
    requires CanHappen(st, e) && e.Resume? && st.at.AwaitTask?
    ensures var AwaitTask(i, id, deadline) := st.at;
            var st', r := Next(st, e), st.sys.tasks[id];
            if e.now >= deadline then Stops(st, st', i, st.limits.message, TimedOut(id))
            else match r.status
              case Completed => GoesOn(st, st', i, r.result, FromTask(id), e.now, e.uuid)
              case Failed =>
                Stops(st, st', i, if r.error in {None, Some("")} then "task failed" else r.error.value, TaskFailed(id))
              case _ => st' == st
  {
    var AwaitTask(i, id, deadline) := st.at;
    var r := st.sys.tasks[id];
    if e.now >= deadline {
      FailStops(st, i, st.limits.message, TimedOut(id));
    } else if r.status.Completed? {
      CompleteGoesOn(st, i, r.result, FromTask(id), e.now, e.uuid);
    } else if r.status.Failed? {
      FailStops(st, i, FailureText(r), TaskFailed(id));
    }
  }

  /** A run can be woken up at any time, with any outcome of an awaited handler, and the engine goes on beside it. */
  lemma RunCanWake(init: Flow, st: State, now: int, uuid: TaskId, outcome: Result<Json, string>, e: Lifecycle.Event)
    requires RunInv(init, st) && uuid !in st.sys.tasks
    ensures CanHappen(st, Resume(now, uuid, outcome))
    ensures Possible(st.sys, e) ==> CanHappen(st, Engine(e)) && Next(st, Engine(e)) == st.(sys := Advance(st.sys, e))
  {
  }

  // ---------- Over whole runs ----------

  /** The awaited handler of step `j` returned `v`. */
  ghost predicate Returns(st: State, e: FlowEvent, j: nat, v: Json) {
    e.Resume? && st.at == AwaitHandler(j) && j < |st.flow.steps| && st.flow.steps[j].handler.Some? && e.outcome == Ok(v)
  }

  ghost predicate SomeReturns(st: State, events: seq<FlowEvent>, j: nat, v: Json)
    requires CanRun(st, events)
    decreases |events|
  {
    events != [] && (Returns(st, events[0], j, v) || SomeReturns(Next(st, events[0]), events[1..], j, v))
  }

  /** The handler that is awaited raised, or there is none. */
  ghost predicate Raises(st: State, e: FlowEvent, m: string) {
    && e.Resume? && st.at.AwaitHandler? && st.at.step < |st.flow.steps|
    && if st.flow.steps[st.at.step].handler.None? then m == "'NoneType' object is not callable" else e.outcome == Err(m)
  }

  ghost predicate SomeRaises(st: State, events: seq<FlowEvent>, m: string)
    requires CanRun(st, events)
    decreases |events|
  {
    events != [] && (Raises(st, events[0], m) || SomeRaises(Next(st, events[0]), events[1..], m))
  }

  predicate HasValue(st: State, j: nat, v: Json) {
    j < |st.sources| && st.sources[j] == FromHandler(v)
  }

  predicate Gave(st: State, m: string) {
    st.at == Returned(Some(Raised(m)))
  }

  lemma BeginAddsNoValue(st: State, i: nat, now: int, uuid: TaskId)
    requires i <= |st.flow.steps|
    ensures var st' := BeginStep(st, i, now, uuid);
            st'.sources == st.sources && forall m :: !Gave(st', m)
  {
  }

  lemma PolledAddsNoValue(st: State, now: int, uuid: TaskId, j: nat, v: Json, m: string)
    requires Wakes(st) && st.at.AwaitTask?
    ensures var st' := Polled(st, now, uuid);
            (HasValue(st', j, v) <==> HasValue(st, j, v)) && !Gave(st', m)
  {
    var AwaitTask(i, id, deadline) := st.at;
    var r := st.sys.tasks[id];
    if now < deadline && r.status.Completed? {
      BeginAddsNoValue(CompleteStep(st, i, r.result, FromTask(id)), i + 1, now, uuid);
    }
  }

  lemma AnsweredAddsValue(st: State, e: FlowEvent, j: nat, v: Json, m: string)
    requires CanHappen(st, e) && e.Resume? && st.at.AwaitHandler? && st.at.step == |st.sources|
    ensures HasValue(Next(st, e), j, v) <==> HasValue(st, j, v) || Returns(st, e, j, v)
    ensures Gave(Next(st, e), m) <==> Raises(st, e, m)
  {
    var i := st.at.step;
    if st.flow.steps[i].handler.Some? && e.outcome.Ok? {
      ReturnedAdds(st, e, m);
    } else {
      AnswerStops(st, e);
    }
  }

  lemma ReturnedAdds(st: State, e: FlowEvent, m: string)
    requires CanHappen(st, e) && e.Resume? && st.at.AwaitHandler?
    requires st.flow.steps[st.at.step].handler.Some? && e.outcome.Ok?
    ensures Next(st, e).sources == st.sources + [FromHandler(e.outcome.value)] && !Gave(Next(st, e), m)
  {
    var i, u := st.at.step, e.outcome.value;
    BeginAddsNoValue(CompleteStep(st, i, u, FromHandler(u)), i + 1, e.now, e.uuid);
  }

  lemma NextAddsValue(init: Flow, st: State, e: FlowEvent, j: nat, v: Json, m: string)
    requires RunInv(init, st) && CanHappen(st, e)
    ensures HasValue(Next(st, e), j, v) <==> HasValue(st, j, v) || Returns(st, e, j, v)
    ensures Gave(Next(st, e), m) <==> Gave(st, m) || Raises(st, e, m)
  {
    if e.Resume? && st.at.AwaitTask? {
      PolledAddsNoValue(st, e.now, e.uuid, j, v, m);
    } else if e.Resume? && st.at.AwaitHandler? {
      AnsweredAddsValue(st, e, j, v, m);
    }
  }

  lemma {:induction false} DriveAddsValue(init: Flow, st: State, events: seq<FlowEvent>, j: nat, v: Json, m: string)
    requires DictPayloads(init) && RunInv(init, st) && CanRun(st, events)
    ensures HasValue(Drive(st, events), j, v) <==> HasValue(st, j, v) || SomeReturns(st, events, j, v)
    ensures Gave(Drive(st, events), m) <==> Gave(st, m) || SomeRaises(st, events, m)
    decreases |events|
  {
    if events != [] {
      NextAddsValue(init, st, events[0], j, v, m);
      WorkflowSequencing.NextKeeps(init, st, events[0]);
      DriveAddsValue(init, Next(st, events[0]), events[1..], j, v, m);
    }
  }

  /** Over every run: step `j` is done with the value `v` of its handler if and only if the run was woken up
      from that step's await with `v` returned; and it returned False for an error raised by a handler if
      and only if it was woken up with that error. */
  lemma ValuesComeFromHandlers(sys: System, init: Flow, limits: Limits, now: int, uuid: TaskId,
                               events: seq<FlowEvent>, st: State, j: nat, v: Json, m: string)
    requires Reaches(sys, init, limits, now, uuid, events, st)
    ensures var st0 := Start(sys, init, limits, now, uuid);
            && (j < |st.sources| && st.sources[j] == FromHandler(v) <==> SomeReturns(st0, events, j, v))
            && (st.at == Returned(Some(Raised(m))) <==> SomeRaises(st0, events, m))
  {
    var st0 := Start(sys, init, limits, now, uuid);
    StartKeeps(sys, init, limits, now, uuid);
    var running := init.(status := StepStatus.Running);
    BeginAddsNoValue(Persist(State(sys, running, Returned(None), [], limits)), 0, now, uuid);
    DriveAddsValue(init, st0, events, j, v, m);
  }

  /** The run returned True: every handler step has the value with which its handler returned. */
  lemma TrueMeansAllReturned(sys: System, init: Flow, limits: Limits, now: int, uuid: TaskId,
                             events: seq<FlowEvent>, st: State, j: nat)
    requires Reaches(sys, init, limits, now, uuid, events, st) && st.at == Returned(None)
    requires j < |init.steps| && !AsksAgent(init.steps[j])
    ensures j < |st.flow.steps| && st.flow.steps[j].status.Completed?
    ensures SomeReturns(Start(sys, init, limits, now, uuid), events, j, st.flow.steps[j].result)
  {
    TrueMeansAllDone(sys, init, limits, now, uuid, events, st);
    assert Done(st.sys.tasks, init.steps[j], st.flow.steps[j], st.sources[j]);
    ValuesComeFromHandlers(sys, init, limits, now, uuid, events, st, j, st.flow.steps[j].result, "");
  }
}
