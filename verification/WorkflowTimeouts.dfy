/** When a workflow run ends by a timeout. */
module WorkflowTimeouts {
  import opened Prelude
  import opened Records
  import opened Lifecycle
  import opened WorkflowSpec
  import opened WorkflowRunSpec
  import opened WorkflowSequencing

  /** The block wakes up at or after the deadline of the task it awaits; or, without any time to wait, it
      submits the task. */
  ghost predicate TimesOut(st: State, e: FlowEvent, id: TaskId)
    requires CanHappen(st, e)
  {
    e.Resume? &&
    (|| (st.at.AwaitTask? && st.at.id == id && e.now >= st.at.deadline)
     || (st.limits.timeout <= 0 && e.uuid == id && id in Next(st, e).sys.tasks))
  }

  /** Some block of the run times out. */
  ghost predicate SomeTimesOut(st: State, events: seq<FlowEvent>, id: TaskId)
    requires CanRun(st, events)
    decreases |events|
  {
    events != [] && (TimesOut(st, events[0], id) || SomeTimesOut(Next(st, events[0]), events[1..], id))
  }

  ghost predicate GivenUp(st: State, id: TaskId) {
    st.at == Returned(Some(TimedOut(id)))
  }

  lemma BeginGivesUp(st: State, i: nat, now: int, uuid: TaskId, id: TaskId)
    requires i <= |st.flow.steps| && uuid !in st.sys.tasks
    ensures var st' := BeginStep(st, i, now, uuid);
            GivenUp(st', id) <==> st.limits.timeout <= 0 && uuid == id && id in st'.sys.tasks
  {
  }

  lemma PolledGivesUp(st: State, now: int, uuid: TaskId, id: TaskId)
    requires Wakes(st) && st.at.AwaitTask? && uuid !in st.sys.tasks
    ensures var st' := Polled(st, now, uuid);
            GivenUp(st', id) <==>
              || (st.at.id == id && now >= st.at.deadline)
              || (st.limits.timeout <= 0 && uuid == id && id in st'.sys.tasks)
  {
    var AwaitTask(i, task, deadline) := st.at;
    var r := st.sys.tasks[task];
    if now < deadline && r.status.Completed? {
      BeginGivesUp(CompleteStep(st, i, r.result, FromTask(task)), i + 1, now, uuid, id);
    }
  }

  lemma AnsweredGivesUp(st: State, now: int, uuid: TaskId, outcome: Result<Json, string>, id: TaskId)
    requires Wakes(st) && st.at.AwaitHandler? && uuid !in st.sys.tasks
    ensures var st' := Answered(st, now, uuid, outcome);
            GivenUp(st', id) <==> st.limits.timeout <= 0 && uuid == id && id in st'.sys.tasks
  {
    var i := st.at.step;
    match HandlerOutcome(st.flow.steps[i], outcome)
    case Ok(v) => BeginGivesUp(CompleteStep(st, i, v, FromHandler(v)), i + 1, now, uuid, id);
    case Err(_) =>
  }

  lemma NextGivesUp(st: State, e: FlowEvent, id: TaskId)
    requires CanHappen(st, e)
    ensures GivenUp(Next(st, e), id) <==> GivenUp(st, id) || TimesOut(st, e, id)
    ensures Next(st, e).limits == st.limits
  {
    if e.Resume? {
      match st.at
      case Returned(_) =>
      case AwaitTask(_, _, _) => PolledGivesUp(st, e.now, e.uuid, id);
      case AwaitHandler(_) => AnsweredGivesUp(st, e.now, e.uuid, e.outcome, id);
    }
  }

  lemma {:induction false} DriveGivesUp(st: State, events: seq<FlowEvent>, id: TaskId)
    requires CanRun(st, events)
    ensures GivenUp(Drive(st, events), id) <==> GivenUp(st, id) || SomeTimesOut(st, events, id)
    decreases |events|
  {
    if events != [] {
      NextGivesUp(st, events[0], id);
      DriveGivesUp(Next(st, events[0]), events[1..], id);
    }
  }

  lemma StartGivesUp(sys: System, flow: Flow, limits: Limits, now: int, uuid: TaskId, id: TaskId)
    requires uuid !in sys.tasks
    ensures var st := Start(sys, flow, limits, now, uuid);
            GivenUp(st, id) <==> limits.timeout <= 0 && uuid == id && id in st.sys.tasks
  {
    var running := flow.(status := StepStatus.Running);
    BeginGivesUp(Persist(State(sys, running, Returned(None), [], limits)), 0, now, uuid, id);
  }

  /** A run returns False for the timeout of a task exactly when some wake-up that awaited it came at or
      after its deadline, or it submitted the task without any time to wait for it. */
  lemma TimesOutIff(sys: System, init: Flow, limits: Limits, now: int, uuid: TaskId, events: seq<FlowEvent>, st: State,
                    id: TaskId)
    requires Reaches(sys, init, limits, now, uuid, events, st)
    ensures var st0 := Start(sys, init, limits, now, uuid);
            st.at == Returned(Some(TimedOut(id))) <==>
              || (limits.timeout <= 0 && uuid == id && id in st0.sys.tasks)
              || SomeTimesOut(st0, events, id)
  {
    StartGivesUp(sys, init, limits, now, uuid, id);
    DriveGivesUp(Start(sys, init, limits, now, uuid), events, id);
  }
}
