/** `run_workflow` as an object that the event loop resumes: every block between two awaits is one
    method, proved to be the block of the specification. The workflow's fields are held as one value. */
module WorkflowRuns {
  import opened Prelude
  import opened Records
  import opened Lifecycle
  import opened Engines
  import opened WorkflowSpec
  import opened WorkflowRunSpec
  import opened WorkflowEffects

  class WorkflowRun {
    const engine: OrchestrationEngine
    const limits: Limits
    var flow: Flow
    var at: Position
    ghost var sources: seq<Source>

    ghost predicate Valid()
      reads this, engine, engine.registry, engine.scheduler, engine.registry.Repr, engine.scheduler.Repr
    {
      this !in engine.Repr() && engine.Valid()
    }

    ghost function View(): State
      reads this, engine, engine.registry, engine.scheduler, engine.store
    {
      State(engine.View(), flow, at, sources, limits)
    }

    constructor (engine: OrchestrationEngine, flow: Flow, limits: Limits)
      requires engine.Valid()
      ensures Valid() && this.engine == engine
      ensures View() == State(engine.View(), flow, Returned(None), [], limits)
    {
      this.engine, this.flow, this.limits, at, sources := engine, flow, limits, Returned(None), [];
    }

    // ---------- Single effects ----------

    method PersistWorkflow()
      requires Valid()
      modifies engine.store
      ensures engine.Repr() == old(engine.Repr())
      ensures Valid() && View() == Persist(old(View()))
    {
      if engine.store != null {
        engine.store.UpsertWorkflow(ToDict(flow));
      }
    }

    method FailStep(i: nat, error: string, why: Failure)
      requires Valid() && i < |flow.steps|
      modifies this`flow, this`at, engine.store
      ensures engine.Repr() == old(engine.Repr())
      ensures Valid() && View() == WorkflowRunSpec.FailStep(old(View()), i, error, why)
    {
      var step := flow.steps[i].(error := Some(error), status := StepStatus.Failed);
      flow := flow.(steps := flow.steps[i := step], status := StepStatus.Failed);
      at := Returned(Some(why));
      PersistWorkflow();
    }

    method CompleteStep(i: nat, result: Json, ghost source: Source)
      requires Valid() && i < |flow.steps|
      modifies this`flow, this`sources, engine.store
      ensures engine.Repr() == old(engine.Repr())
      ensures Valid() && View() == WorkflowRunSpec.CompleteStep(old(View()), i, result, source)
    {
      flow := flow.(steps := flow.steps[i := flow.steps[i].(result := result, status := StepStatus.Completed)]);
      sources := sources + [source];
      PersistWorkflow();
    }

    method MarkRunning(i: nat)
      requires Valid() && i < |flow.steps|
      modifies this`flow, engine.store
      ensures engine.Repr() == old(engine.Repr())
      ensures Valid() && View() == WorkflowRunSpec.MarkRunning(old(View()), i)
    {
      flow := flow.(steps := flow.steps[i := flow.steps[i].(status := StepStatus.Running, error := None)]);
      PersistWorkflow();
    }

    // ---------- The blocks ----------

    method RememberTask(i: nat, id: TaskId)
      requires Valid() && i < |flow.steps|
      modifies this`flow
      ensures Valid() && engine.View() == old(engine.View())
      ensures flow == WithStep(old(flow), i, old(flow.steps[i]).(result := TaskIdResult(id)))
    {
      flow := flow.(steps := flow.steps[i := flow.steps[i].(result := TaskIdResult(id))]);
    }

    method Submit(i: nat, now: int, uuid: TaskId) returns (error: Option<string>)
      requires Valid() && i < |flow.steps| && flow.steps[i].IsTask()
      modifies this`flow, engine`tasks, engine.scheduler.Repr, engine.store
      ensures Valid() && fresh(engine.Repr() - old(engine.Repr()))
      ensures var st, target := old(View()), old(flow.steps[i].target.value);
              if target !in st.sys.registry.agents then View() == st && error == Some(NotFound(target))
              else View() == Submitted(st, i, now, uuid) && error == None
    {
      var id := engine.SubmitTask(flow.steps[i].target.value, Some(flow.steps[i].payload), 0, DEFAULT_QUEUE, uuid, now);
      if id.Err? {
        return Some(id.error);
      }
      RememberTask(i, id.value);
      error := None;
    }

    method Expect(i: nat, id: TaskId, now: int)
      requires Valid() && i < |flow.steps|
      modifies this`flow, this`at, engine.store
      ensures engine.Repr() == old(engine.Repr())
      ensures Valid() && View() == Expecting(old(View()), i, id, now)
    {
      if limits.timeout <= 0 {
        FailStep(i, limits.message, TimedOut(id));
      } else {
        at := AwaitTask(i, id, now + limits.timeout);
      }
    }

    method SubmitStep(i: nat, now: int, uuid: TaskId)
      requires Valid() && i < |flow.steps| && flow.steps[i].IsTask()
      modifies this`flow, this`at, engine`tasks, engine.scheduler.Repr, engine.store
      ensures Valid() && fresh(engine.Repr() - old(engine.Repr()))
      ensures View() == WorkflowRunSpec.SubmitStep(old(View()), i, now, uuid)
    {
      var error := Submit(i, now, uuid);
      if error.Some? {
        FailStep(i, error.value, NoAgent);
      } else {
        Expect(i, uuid, now);
      }
    }

    method BeginStep(i: nat, now: int, uuid: TaskId)
      requires Valid() && i <= |flow.steps|
      modifies this`flow, this`at, engine`tasks, engine.scheduler.Repr, engine.store
      ensures Valid() && fresh(engine.Repr() - old(engine.Repr()))
      ensures View() == WorkflowRunSpec.BeginStep(old(View()), i, now, uuid)
    {
      if i == |flow.steps| {
        flow := flow.(status := StepStatus.Completed);
        at := Returned(None);
        PersistWorkflow();
      } else {
        MarkRunning(i);
        if flow.steps[i].IsTask() {
          SubmitStep(i, now, uuid);
        } else {
          at := AwaitHandler(i);
        }
      }
    }

    /** The first block of the run, on the workflow it is given. */
    method Start(now: int, uuid: TaskId)
      requires Valid()
      modifies this, engine`tasks, engine.scheduler.Repr, engine.store
      ensures Valid() && fresh(engine.Repr() - old(engine.Repr()))
      ensures View() == WorkflowRunSpec.Start(old(View()).sys, old(flow), limits, now, uuid)
    {
      flow, at, sources := flow.(status := StepStatus.Running), Returned(None), [];
      PersistWorkflow();
      BeginStep(0, now, uuid);
    }

    /** Looks at the awaited task once more. */
    method Poll(now: int, uuid: TaskId)
      requires Valid() && Wakes(View()) && at.AwaitTask?
      modifies this, engine`tasks, engine.scheduler.Repr, engine.store
      ensures Valid() && fresh(engine.Repr() - old(engine.Repr()))
      ensures View() == Polled(old(View()), now, uuid)
    {
      var AwaitTask(i, id, deadline) := at;
      if now >= deadline {
        FailStep(i, limits.message, TimedOut(id));
        return;
      }
      var r := engine.tasks[id];
      if r.status.Completed? {
        CompleteStep(i, r.result, FromTask(id));
        BeginStep(i + 1, now, uuid);
      } else if r.status.Failed? {
        FailStep(i, FailureText(r), TaskFailed(id));
      }
    }

    /** The awaited handler returned or raised. */
    method Answer(outcome: Result<Json, string>, now: int, uuid: TaskId)
      requires Valid() && Wakes(View()) && at.AwaitHandler?
      modifies this, engine`tasks, engine.scheduler.Repr, engine.store
      ensures Valid() && fresh(engine.Repr() - old(engine.Repr()))
      ensures View() == Answered(old(View()), now, uuid, outcome)
      ensures AnsweredWith(old(View()), View(), outcome)
    {
      var i := at.step;
      AnswerMeans(View(), now, uuid, outcome);
      match HandlerOutcome(flow.steps[i], outcome)
      case Ok(v) =>
        CompleteStep(i, v, FromHandler(v));
        BeginStep(i + 1, now, uuid);
      case Err(m) => FailStep(i, m, Raised(m));
    }
  }
}
