/** Workflow objects and their manager. */
module Workflows {
  import opened Prelude
  import opened Records
  import opened WorkflowSpec

  class WorkflowStep {
    var id: Id
    const name: string
    const handler: Option<Handler>
    const retries: int
    const timeout: int
    const target: Option<Id>
    const payload: Json
    var status: StepStatus
    var result: Json
    var error: Option<string>
    /** How often the handler has been called. */
    ghost var calls: nat

    constructor (id: Id, name: string, handler: Option<Handler>, retries: int, timeout: int, target: Option<Id>,
                 payload: Json)
      requires handler.Some? || target.Some?
      ensures View() == Step(id, name, handler, retries, timeout, target, payload.OrEmpty(), StepStatus.Pending, Null,
              None, 0)
    {
      this.id, this.name, this.handler, this.retries, this.timeout := id, name, handler, retries, timeout;
      this.target, this.payload := target, payload.OrEmpty();
      status, result, error, calls := StepStatus.Pending, Null, None, 0;
    }

    ghost function View(): Step
      reads this
    {
      Step(id, name, handler, retries, timeout, target, payload, status, result, error, calls)
    }

    function ToDict(): (d: StepDict)
      reads this
      ensures d == StepToDict(View())
    {
      StepDict(Some(id), Some(name), Some(if target.Some? && target.value != "" then "task" else "handler"), target,
               Some(payload), Some(StatusName(status)), Some(result), Some(error), map[])
    }

    /** The body of the loop of `execute_workflow` for this step. */
    method Run() returns (ok: bool)
      modifies this`status, this`result, this`error, this`calls
      ensures View() == RunStep(old(View()))
      ensures ok == !RunStep(old(View())).status.Failed?
    {
      if handler.None? {
        status := StepStatus.Failed;
        error := Some(NOT_A_HANDLER);
        return false;
      }
      status := StepStatus.Running;
      var attempts := retries + 1;
      var attempt := 1;
      ghost var goal := Attempt(View(), handler.value, 1, attempts);
      while attempt <= attempts
        invariant 1 <= attempt
        invariant status.Running?
        invariant Attempt(View(), handler.value, attempt, attempts) == goal
        invariant id == old(id)
      {
        calls := calls + 1;
        match handler.value(attempt)
        case Ok(v) =>
          result := v;
          error := None;
          status := StepStatus.Completed;
          return true;
        case Err(e) =>
          error := Some(e);
          if attempt >= attempts {
            status := StepStatus.Failed;
            return false;
          }
        attempt := attempt + 1;
      }
      return true;
    }
  }

  class Workflow {
    const id: Id
    const name: string
    const description: string
    var steps: seq<WorkflowStep>
    var stepMap: map<Id, WorkflowStep>
    var status: StepStatus
    ghost var views: seq<Step>

    ghost predicate Valid()
      reads this`steps, this`stepMap, this`views, steps
    {
      && |views| == |steps|
      && (forall i :: 0 <= i < |steps| ==> steps[i].View() == views[i])
      && stepMap == MapOf(steps, views)
    }

    /** No step object was added twice. */
    ghost predicate Distinct()
      reads this`steps
    {
      forall i, j :: 0 <= i < j < |steps| ==> steps[i] != steps[j]
    }

    ghost function View(): Flow
      reads this
    {
      Flow(id, name, description, status, views)
    }

    constructor (id: Id, name: string, description: string, status: StepStatus)
      ensures Valid() && View() == Flow(id, name, description, status, []) && steps == []
    {
      this.id, this.name, this.description, this.status := id, name, description, status;
      steps, stepMap, views := [], map[], [];
    }

    method AddStep(step: WorkflowStep)
      requires Valid()
      modifies this`steps, this`stepMap, this`views
      ensures Valid() && steps == old(steps) + [step]
      ensures View() == old(View()).(steps := old(views) + [step.View()])
    {
      assert (steps + [step])[..|steps|] == steps && (views + [step.View()])[..|steps|] == views;
      steps := steps + [step];
      stepMap := stepMap[step.id := step];
      views := views + [step.View()];
    }

    method GetStep(stepId: Id) returns (step: Option<WorkflowStep>)
      requires Valid()
      ensures step == None <==> forall i :: 0 <= i < |views| ==> views[i].id != stepId
      ensures step.Some? ==> exists i: nat :: IsLast(views, stepId, i) && step.value == steps[i]
    {
      MapFindsLast(steps, views, stepId);
      step := if stepId in stepMap then Some(stepMap[stepId]) else None;
    }

    method ToDict() returns (d: WorkflowDict)
      requires Valid()
      ensures d == WorkflowSpec.ToDict(View())
    {
      var dicts := [];
      for i := 0 to |steps|
        invariant |dicts| == i && forall j :: 0 <= j < i ==> dicts[j] == StepToDict(views[j])
      {
        dicts := dicts + [steps[i].ToDict()];
      }
      assert dicts == StepsToDicts(views);
      d := WorkflowDict(Some(id), Some(name), Some(description), Some(StatusName(status)), Some(dicts), map[]);
    }

    /** `execute_workflow` once the workflow is found. */
    method Execute() returns (ok: bool)
      requires Valid() && Distinct()
      modifies this`status, this`views, steps
      ensures Valid() && steps == old(steps)
      ensures (views, ok) == RunFrom(old(views), 0)
      ensures status == if ok then StepStatus.Completed else StepStatus.Failed
    {
      status := StepStatus.Running;
      ok := RunSteps();
      status := if ok then StepStatus.Completed else StepStatus.Failed;
    }

    /** The loop over the steps. */
    method RunSteps() returns (ok: bool)
      requires Valid() && Distinct()
      modifies this`views, steps
      ensures Valid()
      ensures (views, ok) == RunFrom(old(views), 0)
    {
      ghost var start: nat := 0;
      ghost var goal := RunFrom(views, start);
      var i := 0;
      ok := true;
      while i < |steps|
        invariant 0 <= i <= |steps|
        invariant Valid() && Distinct()
        invariant RunFrom(views, i) == goal && ok
      {
        ok := OneRound(i, goal);
        if !ok {
          return;
        }
        i := i + 1;
      }
      RunFromEnds(views);
    }

    /** One round of the loop brings the run nearer to its goal. */
    method OneRound(i: nat, ghost goal: (seq<Step>, bool)) returns (ok: bool)
      requires Valid() && Distinct() && i < |steps| && RunFrom(views, i) == goal
      modifies this`views, steps[i]
      ensures Valid() && |views| == |steps|
      ensures if ok then RunFrom(views, i + 1) == goal else (views, false) == goal
    {
      RunFromUnfolds(views, i);
      ok := RunStepAt(i);
    }

    method RunStepAt(i: nat) returns (ok: bool)
      requires Valid() && Distinct() && i < |steps|
      modifies this`views, steps[i]
      ensures Valid()
      ensures views == old(views)[i := RunStep(old(views)[i])]
      ensures ok == !views[i].status.Failed?
    {
      ok := steps[i].Run();
      RunStepKeepsId(views[i]);
      MapKnowsIdsOnly(steps, views, views[i := RunStep(views[i])]);
      views := views[i := RunStep(views[i])];
    }
  }

  /** The step map that adding the steps one by one makes. */
  ghost function MapOf(steps: seq<WorkflowStep>, views: seq<Step>): map<Id, WorkflowStep>
    requires |steps| == |views|
  {
    if steps == [] then map[]
    else
      var n := |steps| - 1;
      MapOf(steps[..n], views[..n])[views[n].id := steps[n]]
  }

  ghost predicate IsLast(views: seq<Step>, x: Id, i: nat) {
    i < |views| && views[i].id == x && forall j :: i < j < |views| ==> views[j].id != x
  }

  /** The map agrees with the steps: it takes every id of a step, and no other, to the last step that has it. */
  lemma {:induction false} MapFindsLast(steps: seq<WorkflowStep>, views: seq<Step>, x: Id)
    requires |steps| == |views|
    ensures x in MapOf(steps, views) <==> exists i :: 0 <= i < |views| && views[i].id == x
    ensures x in MapOf(steps, views) ==> exists i: nat :: IsLast(views, x, i) && MapOf(steps, views)[x] == steps[i]
  {
    if steps != [] {
      var n := |steps| - 1;
      MapFindsLast(steps[..n], views[..n], x);
      if views[n].id == x {
        assert IsLast(views, x, n);
      } else if x in MapOf(steps, views) {
        var i: nat :| IsLast(views[..n], x, i) && MapOf(steps[..n], views[..n])[x] == steps[..n][i];
        assert IsLast(views, x, i);
      }
    }
  }

  lemma {:induction false} MapKnowsIdsOnly(steps: seq<WorkflowStep>, views: seq<Step>, views': seq<Step>)
    requires |steps| == |views| == |views'| && forall i :: 0 <= i < |views| ==> views'[i].id == views[i].id
    ensures MapOf(steps, views') == MapOf(steps, views)
  {
    if steps != [] {
      var n := |steps| - 1;
      MapKnowsIdsOnly(steps[..n], views[..n], views'[..n]);
    }
  }

  lemma {:induction false} AttemptKeepsId(s: Step, h: Handler, attempt: nat, attempts: int)
    requires 1 <= attempt
    ensures Attempt(s, h, attempt, attempts).id == s.id
    decreases attempts - attempt
  {
    if attempt < attempts {
      match h(attempt)
      case Ok(_) =>
      case Err(e) => AttemptKeepsId(s.(error := Some(e), calls := s.calls + 1), h, attempt + 1, attempts);
    }
  }

  lemma RunStepKeepsId(s: Step)
    ensures RunStep(s).id == s.id
  {
    if s.handler.Some? {
      AttemptKeepsId(s.(status := StepStatus.Running), s.handler.value, 1, s.retries + 1);
    }
  }

  /** When step ids are distinct, the map finds exactly the step with the id. */
  lemma MapFindsSteps(steps: seq<WorkflowStep>, views: seq<Step>, i: nat)
    requires |steps| == |views| && i < |views|
    requires forall j, k :: 0 <= j < k < |views| ==> views[j].id != views[k].id
    ensures views[i].id in MapOf(steps, views) && MapOf(steps, views)[views[i].id] == steps[i]
  {
    MapFindsLast(steps, views, views[i].id);
  }

  /** `Workflow.from_dict`. */
  method FromDict(d: WorkflowDict) returns (r: Result<Workflow, LoadError>)
    ensures r.Ok? ==> fresh(r.value) && r.value.Valid() && r.value.Distinct()
    ensures match WorkflowSpec.FromDict(d)
            case Ok(f) => r.Ok? && r.value.View() == f
            case Err(e) => r == Err(e)
  {
    if d.name.None? {
      return Err(MissingKey("name"));
    }
    if d.id.None? {
      return Err(MissingKey("id"));
    }
    var status := Statused(d.status);
    if status.Err? {
      return Err(status.error);
    }
    var w := new Workflow(d.id.value, d.name.value, if d.description.Some? then d.description.value else "",
        status.value);
    var ds := if d.steps.Some? then d.steps.value else [];
    var error := AddAll(w, ds);
    r := if error.Some? then Err(error.value) else Ok(w);
  }

  /** Reads the task steps of the dict into the workflow. */
  method AddAll(w: Workflow, ds: seq<StepDict>) returns (error: Option<LoadError>)
    requires w.Valid() && w.steps == []
    modifies w
    ensures w.Valid() && w.Distinct()
    ensures match ReadSteps(ds)
            case Ok(steps) => error == None && w.View() == old(w.View()).(steps := steps)
            case Err(e) => error == Some(e)
  {
    var i := 0;
    error := None;
    assert ds[0..] == ds;
    PrependNone(ReadSteps(ds));
    while i < |ds|
      invariant 0 <= i <= |ds|
      invariant w.Valid() && w.Distinct() && (forall j :: 0 <= j < |w.steps| ==> fresh(w.steps[j]))
      invariant ReadSteps(ds) == Prepend(w.views, ReadSteps(ds[i..]))
      invariant w.View() == old(w.View()).(steps := w.views)
    {
      ReadMore(ds, i);
      if HasTarget(ds[i]) {
        var step := ReadStep(ds[i]);
        if step.Err? {
          return Some(step.error);
        }
        PrependMore(w.views, step.value, ReadSteps(ds[i + 1..]));
        AddRead(w, step.value);
      }
      i := i + 1;
    }
  }

  /** Adds a new step object with the fields that were read. */
  method AddRead(w: Workflow, s: Step)
    requires w.Valid() && w.Distinct()
    requires s.handler == None && s.target.Some? && s.retries == 0 && s.timeout == 300 && s.calls == 0
    requires s.payload.OrEmpty() == s.payload
    modifies w`steps, w`stepMap, w`views
    ensures w.Valid() && w.Distinct()
    ensures exists step :: fresh(step) && w.steps == old(w.steps) + [step]
    ensures w.View() == old(w.View()).(steps := old(w.views) + [s])
  {
    var obj := NewStep(s);
    w.AddStep(obj);
  }

  function Prepend(steps: seq<Step>, r: Result<seq<Step>, LoadError>): Result<seq<Step>, LoadError> {
    match r
    case Ok(rest) => Ok(steps + rest)
    case Err(e) => Err(e)
  }

  lemma ReadMore(ds: seq<StepDict>, i: nat)
    requires i < |ds|
    ensures ReadSteps(ds[i..]) ==
            if !HasTarget(ds[i]) then ReadSteps(ds[i + 1..])
            else if ReadStep(ds[i]).Err? then Err(ReadStep(ds[i]).error)
            else Prepend([ReadStep(ds[i]).value], ReadSteps(ds[i + 1..]))
  {
    assert ds[i..][1..] == ds[i + 1..];
  }

  lemma PrependNone(r: Result<seq<Step>, LoadError>)
    ensures Prepend([], r) == r
  {
    if r.Ok? {
      assert [] + r.value == r.value;
    }
  }

  lemma PrependMore(steps: seq<Step>, s: Step, r: Result<seq<Step>, LoadError>)
    ensures Prepend(steps + [s], r) == Prepend(steps, Prepend([s], r))
  {
    if r.Ok? {
      assert steps + [s] + r.value == steps + ([s] + r.value);
    }
  }

  /** A task step object with the fields of a read step. */
  method NewStep(s: Step) returns (step: WorkflowStep)
    requires s.handler == None && s.target.Some? && s.retries == 0 && s.timeout == 300 && s.calls == 0
    requires s.payload.OrEmpty() == s.payload
    ensures fresh(step) && step.View() == s
  {
    step := new WorkflowStep(s.id, s.name, None, 0, 300, s.target, s.payload);
    step.id, step.status, step.result, step.error := s.id, s.status, s.result, s.error;
  }

  class WorkflowManager {
    var workflows: map<Id, Workflow>

    constructor ()
      ensures workflows == map[]
    {
      workflows := map[];
    }

    method AddWorkflow(w: Workflow)
      modifies this
      ensures workflows == old(workflows)[w.id := w]
    {
      workflows := workflows[w.id := w];
    }

    method DeleteWorkflow(id: Id) returns (known: bool)
      modifies this
      ensures workflows == old(workflows) - {id} && known == (id in old(workflows))
    {
      known := id in workflows;
      workflows := workflows - {id};
    }

    /** An unknown workflow is not run. */
    method ExecuteWorkflow(id: Id) returns (ok: bool)
      requires id in workflows ==> workflows[id].Valid() && workflows[id].Distinct()
      modifies (if id in workflows then {workflows[id] as object} + (set s | s in workflows[id].steps) else {})
      ensures id !in workflows ==> !ok
      ensures id in workflows ==>
                && workflows[id].Valid()
                && (workflows[id].views, ok) == RunFrom(old(workflows[id].views), 0)
                && workflows[id].status == if ok then StepStatus.Completed else StepStatus.Failed
    {
      if id !in workflows {
        return false;
      }
      ok := workflows[id].Execute();
    }
  }
}
