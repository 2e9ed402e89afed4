/** Workflows as values (src/orchestrator/workflow.py): the in-process run and the dict form. */
module WorkflowSpec {
  import opened Prelude
  import opened Records

  /** What a handler does on its n-th attempt: return a value or raise an error. */
  type Handler = nat -> Result<Json, string>

  /** A step; `calls` counts the calls made to its handler. */
  datatype Step = Step(
    id: Id, name: string, handler: Option<Handler>, retries: int, timeout: int, target: Option<Id>, payload: Json,
    status: StepStatus, result: Json, error: Option<string>, calls: nat)
  {
    predicate IsTask() {
      target.Some? && target.value != ""
    }
  }

  datatype Flow = Flow(id: Id, name: string, description: string, status: StepStatus, steps: seq<Step>)

  const NOT_A_HANDLER := "task steps require OrchestrationEngine.run_workflow"

  // ---------- The in-process run ----------

  /** The attempts that are left: the handler is called until it succeeds or the attempts run out. */
  function Attempt(s: Step, h: Handler, attempt: nat, attempts: int): Step
    requires 1 <= attempt
    decreases attempts - attempt
  {
    if attempt > attempts then s
    else
      match h(attempt)
      case Ok(v) => s.(result := v, error := None, status := StepStatus.Completed, calls := s.calls + 1)
      case Err(e) =>
        var s' := s.(error := Some(e), calls := s.calls + 1);
        if attempt >= attempts then s'.(status := StepStatus.Failed) else Attempt(s', h, attempt + 1, attempts)
  }

  function RunStep(s: Step): Step {
    if s.handler.None? then s.(status := StepStatus.Failed, error := Some(NOT_A_HANDLER))
    else Attempt(s.(status := StepStatus.Running), s.handler.value, 1, s.retries + 1)
  }

  /** Runs the steps from `i` on, up to the first that fails. */
  function RunFrom(steps: seq<Step>, i: nat): (r: (seq<Step>, bool))
    requires i <= |steps|
    ensures |r.0| == |steps|
    decreases |steps| - i
  {
    if i == |steps| then (steps, true)
    else
      var steps' := steps[i := RunStep(steps[i])];
      if steps'[i].status.Failed? then (steps', false) else RunFrom(steps', i + 1)
  }

  /** One round of the loop over the steps. */
  lemma RunFromUnfolds(steps: seq<Step>, i: nat)
    requires i < |steps|
    ensures var steps' := steps[i := RunStep(steps[i])];
            RunFrom(steps, i) == if steps'[i].status.Failed? then (steps', false) else RunFrom(steps', i + 1)
  {
  }

  lemma RunFromEnds(steps: seq<Step>)
    ensures RunFrom(steps, |steps|) == (steps, true)
  {
  }

  /** The handler succeeds on attempt `a`, and not before. */
  ghost predicate FirstSuccess(h: Handler, a: nat) {
    1 <= a && h(a).Ok? && forall b :: 1 <= b < a ==> h(b).Err?
  }

  /** No attempt up to `n` succeeds. */
  ghost predicate AllFail(h: Handler, n: nat) {
    forall b :: 1 <= b <= n ==> h(b).Err?
  }

  /** A handler step gets past: some attempt within its budget succeeds, or its budget is negative. */
  ghost predicate GetsPast(s: Step) {
    s.handler.Some? && (s.retries < 0 || exists a: nat :: a <= s.retries + 1 && FirstSuccess(s.handler.value, a))
  }

  lemma {:induction false} AttemptOutcome(s: Step, h: Handler, attempt: nat, attempts: nat)
    requires 1 <= attempt <= attempts && AllFail(h, attempt - 1)
    ensures var s' := Attempt(s, h, attempt, attempts);
            || (exists a: nat ::
                  attempt <= a <= attempts && FirstSuccess(h, a)
                  && s' == s.(status := StepStatus.Completed, error := None, result := h(a).value,
                              calls := s.calls + (a + 1 - attempt)))
            || (AllFail(h, attempts)
                && s' == s.(status := StepStatus.Failed, error := Some(h(attempts).error),
                            calls := s.calls + (attempts + 1 - attempt)))
    decreases attempts - attempt
  {
    match h(attempt)
    case Ok(_) => assert FirstSuccess(h, attempt);
    case Err(e) =>
      if attempt < attempts {
        AttemptOutcome(s.(error := Some(e), calls := s.calls + 1), h, attempt + 1, attempts);
      }
  }

  /** A step with a nonnegative retry budget: it completes with the value of the first successful
      attempt, after as many calls; or no attempt of the budget succeeds, and it fails with the last error.
      Nothing else about it changes. */
  lemma StepOutcome(s: Step)
    requires s.handler.Some? && s.retries >= 0
    ensures var h, s' := s.handler.value, RunStep(s);
            || (GetsPast(s)
                && exists a: nat ::
                     a <= s.retries + 1 && FirstSuccess(h, a)
                     && s' == s.(status := StepStatus.Completed, error := None, result := h(a).value,
                                 calls := s.calls + a))
            || (!GetsPast(s) && AllFail(h, s.retries + 1)
                && s' == s.(status := StepStatus.Failed, error := Some(h(s.retries + 1).error),
                            calls := s.calls + s.retries + 1))
  {
    AttemptOutcome(s.(status := StepStatus.Running), s.handler.value, 1, s.retries + 1);
  }

  /** A negative retry budget means no attempt at all: the step is left running and counts as passed. */
  lemma NegativeBudgetSkips(s: Step)
    requires s.handler.Some? && s.retries < 0
    ensures RunStep(s) == s.(status := StepStatus.Running) && GetsPast(s)
  {
  }

  /** A step without a handler fails without a call, and says what it takes to run it. */
  lemma NoHandlerFails(s: Step)
    requires s.handler.None?
    ensures RunStep(s) == s.(status := StepStatus.Failed,
                             error := Some("task steps require OrchestrationEngine.run_workflow"))
    ensures !GetsPast(s)
  {
  }

  lemma StepFailsOrPasses(s: Step)
    ensures RunStep(s).status.Failed? <==> !GetsPast(s)
  {
    if s.handler.Some? && s.retries >= 0 {
      StepOutcome(s);
    }
  }

  /** The run from step `i` succeeded. */
  ghost predicate AllPassed(steps: seq<Step>, i: nat, steps': seq<Step>) {
    && |steps'| == |steps|
    && (forall j :: i <= j < |steps| ==> GetsPast(steps[j]) && steps'[j] == RunStep(steps[j]))
  }

  /** The run from step `i` stopped at step `k`: steps before it passed, it failed, later ones are untouched. */
  ghost predicate StoppedAt(steps: seq<Step>, i: nat, k: nat, steps': seq<Step>) {
    && |steps'| == |steps| && i <= k < |steps|
    && (forall j :: i <= j < k ==> GetsPast(steps[j]) && steps'[j] == RunStep(steps[j]))
    && !GetsPast(steps[k]) && steps'[k] == RunStep(steps[k]) && steps'[k].status.Failed?
    && (forall j :: k < j < |steps| ==> steps'[j] == steps[j])
  }

  lemma OnePassMore(steps: seq<Step>, i: nat, steps': seq<Step>)
    requires i < |steps| && GetsPast(steps[i]) && |steps'| == |steps| && steps'[i] == RunStep(steps[i])
    ensures AllPassed(steps[i := RunStep(steps[i])], i + 1, steps') ==> AllPassed(steps, i, steps')
    ensures forall k :: StoppedAt(steps[i := RunStep(steps[i])], i + 1, k, steps') ==> StoppedAt(steps, i, k, steps')
  {
    var steps1 := steps[i := RunStep(steps[i])];
    assert forall j :: i < j < |steps| ==> steps1[j] == steps[j];
  }

  /** Where a run stops, or the number of steps. */
  lemma {:induction false} RunFromOutcome(steps: seq<Step>, i: nat) returns (k: nat)
    requires i <= |steps|
    ensures forall j :: 0 <= j < i ==> RunFrom(steps, i).0[j] == steps[j]
    ensures if RunFrom(steps, i).1 then AllPassed(steps, i, RunFrom(steps, i).0)
            else StoppedAt(steps, i, k, RunFrom(steps, i).0)
    decreases |steps| - i
  {
    k := i;
    if i < |steps| {
      var steps1 := steps[i := RunStep(steps[i])];
      StepFailsOrPasses(steps[i]);
      if !steps1[i].status.Failed? {
        k := RunFromOutcome(steps1, i + 1);
        assert RunFrom(steps1, i + 1).0[i] == steps1[i];
        OnePassMore(steps, i, RunFrom(steps1, i + 1).0);
      }
    }
  }

  /** A run stops at one step only. */
  lemma OneStop(steps: seq<Step>, k: nat, m: nat, steps': seq<Step>)
    requires StoppedAt(steps, 0, k, steps') && StoppedAt(steps, 0, m, steps')
    ensures k == m
  {
  }

  /** The run returns True exactly when every step is a handler step that gets past; otherwise there is
      a failed step, with passed steps before it and untouched steps after it. */
  lemma RunOutcome(steps: seq<Step>) returns (k: nat)
    ensures RunFrom(steps, 0).1 <==> forall j :: 0 <= j < |steps| ==> GetsPast(steps[j])
    ensures RunFrom(steps, 0).1 ==> AllPassed(steps, 0, RunFrom(steps, 0).0)
    ensures !RunFrom(steps, 0).1 ==> StoppedAt(steps, 0, k, RunFrom(steps, 0).0)
    ensures forall m :: StoppedAt(steps, 0, m, RunFrom(steps, 0).0) && !RunFrom(steps, 0).1 ==> m == k
  {
    k := RunFromOutcome(steps, 0);
    if !RunFrom(steps, 0).1 {
      assert !GetsPast(steps[k]);
      forall m | StoppedAt(steps, 0, m, RunFrom(steps, 0).0)
        ensures m == k
      {
        OneStop(steps, k, m, RunFrom(steps, 0).0);
      }
    }
  }

  lemma PassedStepCompletes(s: Step)
    requires GetsPast(s)
    ensures RunStep(s).status.Completed? <==> s.retries >= 0
  {
    if s.retries >= 0 {
      StepOutcome(s);
    } else {
      NegativeBudgetSkips(s);
    }
  }

  /** After a successful run every step is completed exactly when no retry budget is negative. */
  lemma SuccessMeansCompleted(steps: seq<Step>, steps': seq<Step>)
    requires AllPassed(steps, 0, steps')
    ensures (forall j :: 0 <= j < |steps| ==> steps'[j].status.Completed?)
       <==> (forall j :: 0 <= j < |steps| ==> steps[j].retries >= 0)
  {
    forall j | 0 <= j < |steps|
      ensures steps'[j].status.Completed? <==> steps[j].retries >= 0
    {
      PassedStepCompletes(steps[j]);
    }
  }

  /** The calls a step makes: none, or within its budget. */
  lemma StepCalls(s: Step)
    ensures s.calls <= RunStep(s).calls
    ensures RunStep(s).calls - s.calls <= if s.retries < 0 then 0 else s.retries + 1
  {
    if s.handler.Some? && s.retries >= 0 {
      StepOutcome(s);
    }
  }

  /** No handler is called more often than its budget allows, from whatever step the run starts. */
  lemma CallsWithinBudget(steps: seq<Step>, i: nat, j: nat)
    requires i <= j < |steps|
    ensures var steps' := RunFrom(steps, i).0;
            && steps[j].calls <= steps'[j].calls
            && steps'[j].calls - steps[j].calls <= if steps[j].retries < 0 then 0 else steps[j].retries + 1
  {
    var k := RunFromOutcome(steps, i);
    StepCalls(steps[j]);
  }

  // ---------- The dict form ----------

  function StatusName(s: StepStatus): string {
    match s
    case Pending => "pending"
    case Running => "running"
    case Completed => "completed"
    case Failed => "failed"
    case Skipped => "skipped"
  }

  function ParseStatus(name: string): Option<StepStatus> {
    if name == "pending" then Some(StepStatus.Pending)
    else if name == "running" then Some(StepStatus.Running)
    else if name == "completed" then Some(StepStatus.Completed)
    else if name == "failed" then Some(StepStatus.Failed)
    else if name == "skipped" then Some(StepStatus.Skipped)
    else None
  }

  /** The names of the statuses, both ways. */
  lemma StatusNames(s: StepStatus, name: string)
    ensures ParseStatus(name) == Some(s) <==> name == StatusName(s)
    ensures name == StatusName(s) <==>
              (s, name) in {(StepStatus.Pending, "pending"), (StepStatus.Running, "running"),
                            (StepStatus.Completed, "completed"), (StepStatus.Failed, "failed"),
                            (StepStatus.Skipped, "skipped")}
  {
  }

  /** A missing key, or a status that is none. */
  datatype LoadError = MissingKey(key: string) | BadStatus(name: string)

  function StepToDict(s: Step): StepDict {
    StepDict(Some(s.id), Some(s.name), Some(if s.IsTask() then "task" else "handler"), s.target, Some(s.payload),
             Some(StatusName(s.status)), Some(s.result), Some(s.error), map[])
  }

  function StepsToDicts(steps: seq<Step>): (ds: seq<StepDict>)
    ensures |ds| == |steps|
    ensures forall i :: 0 <= i < |ds| ==> ds[i] == StepToDict(steps[i])
  {
    if steps == [] then [] else [StepToDict(steps[0])] + StepsToDicts(steps[1..])
  }

  function ToDict(f: Flow): WorkflowDict {
    WorkflowDict(Some(f.id), Some(f.name), Some(f.description), Some(StatusName(f.status)), Some(StepsToDicts(f.steps)),
                 map[])
  }

  function Statused(name: Option<string>): Result<StepStatus, LoadError> {
    var s := if name.Some? then name.value else "pending";
    if ParseStatus(s).Some? then Ok(ParseStatus(s).value) else Err(BadStatus(s))
  }

  /** A task step as it is read back: handler, retries and timeout are not in the dict. */
  function ReadStep(d: StepDict): Result<Step, LoadError>
    requires d.target.Some?
  {
    if d.name.None? then Err(MissingKey("name"))
    else if d.id.None? then Err(MissingKey("id"))
    else if Statused(d.status).Err? then Err(Statused(d.status).error)
    else
      Ok(Step(d.id.value, d.name.value, None, 0, 300, d.target,
              if d.payload.Some? then d.payload.value.OrEmpty() else Obj(map[]),
              Statused(d.status).value, if d.result.Some? then d.result.value else Null,
              if d.error.Some? then d.error.value else None, 0))
  }

  predicate HasTarget(d: StepDict) {
    d.target.Some? && d.target.value != ""
  }

  /** Reads the task steps in order and skips the others; the first bad one is an error. */
  function ReadSteps(ds: seq<StepDict>): Result<seq<Step>, LoadError> {
    if ds == [] then Ok([])
    else if !HasTarget(ds[0]) then ReadSteps(ds[1..])
    else if ReadStep(ds[0]).Err? then Err(ReadStep(ds[0]).error)
    else if ReadSteps(ds[1..]).Err? then ReadSteps(ds[1..])
    else Ok([ReadStep(ds[0]).value] + ReadSteps(ds[1..]).value)
  }

  function FromDict(d: WorkflowDict): Result<Flow, LoadError> {
    if d.name.None? then Err(MissingKey("name"))
    else if d.id.None? then Err(MissingKey("id"))
    else if Statused(d.status).Err? then Err(Statused(d.status).error)
    else
      var steps := ReadSteps(if d.steps.Some? then d.steps.value else []);
      if steps.Err? then Err(steps.error)
      else Ok(Flow(d.id.value, d.name.value, if d.description.Some? then d.description.value else "",
                   Statused(d.status).value, steps.value))
  }

  // ---------- The form of the dict, key by key ----------

  /** What is written of a step: its kind is that of its target, and handler, retries and timeout are not written. */
  lemma WrittenStep(s: Step)
    ensures var d := StepToDict(s);
            && d.id == Some(s.id) && d.name == Some(s.name) && d.target == s.target && d.payload == Some(s.payload)
            && d.kind == Some(if s.target in {None, Some("")} then "handler" else "task")
            && d.result == Some(s.result) && d.error == Some(s.error) && d.extra == map[]
            && d.status.Some? && ParseStatus(d.status.value) == Some(s.status)
  {
  }

  lemma WrittenFlow(f: Flow)
    ensures var d := ToDict(f);
            && d.id == Some(f.id) && d.name == Some(f.name) && d.description == Some(f.description)
            && d.extra == map[] && d.status.Some? && ParseStatus(d.status.value) == Some(f.status)
            && d.steps.Some? && |d.steps.value| == |f.steps|
            && forall i :: 0 <= i < |f.steps| ==> d.steps.value[i] == StepToDict(f.steps[i])
  {
  }

  /** The first thing missing in a dict, if any: the name, the id, a status that is one; no status is "pending". */
  function Complaint(name: Option<string>, id: Option<Id>, status: Option<string>): Option<LoadError> {
    if name == None then Some(MissingKey("name"))
    else if id == None then Some(MissingKey("id"))
    else if status in {None, Some("pending"), Some("running"), Some("completed"), Some("failed"), Some("skipped")}
      then None
    else Some(BadStatus(status.value))
  }

  lemma StatusedIs(name: Option<string>)
    ensures name == None ==> Statused(name) == Ok(StepStatus.Pending)
    ensures name.Some? && ParseStatus(name.value).Some? ==> Statused(name) == Ok(ParseStatus(name.value).value)
    ensures name.Some? && ParseStatus(name.value).None? ==> Statused(name) == Err(BadStatus(name.value))
  {
  }

  /** What is read of a task step: missing keys have their defaults, and there is no handler, no retry, and the
      default timeout. */
  lemma ReadStepIs(d: StepDict)
    requires d.target.Some?
    ensures match Complaint(d.name, d.id, d.status)
            case Some(e) => ReadStep(d) == Err(e)
            case None =>
              && ReadStep(d).Ok?
              && var s := ReadStep(d).value;
                 && Some(s.id) == d.id && Some(s.name) == d.name && s.target == d.target
                 && s.payload == OrEmptyDict(d.payload)
                 && s.status == (if d.status == None then StepStatus.Pending else ParseStatus(d.status.value).value)
                 && s.result == (if d.result == None then Null else d.result.value)
                 && s.error == (if d.error == None then None else d.error.value)
                 && s.handler == None && s.retries == 0 && s.timeout == 300 && s.calls == 0
  {
    OrEmptyIs(d.payload);
  }

  /** What is read of a workflow: the steps with a target, in order, and the complaints in order. */
  lemma ReadFlowIs(d: WorkflowDict)
    ensures match Complaint(d.name, d.id, d.status)
            case Some(e) => FromDict(d) == Err(e)
            case None =>
              match ReadSteps(if d.steps == None then [] else d.steps.value)
              case Err(e) => FromDict(d) == Err(e)
              case Ok(steps) =>
                && FromDict(d).Ok?
                && var f := FromDict(d).value;
                   && Some(f.id) == d.id && Some(f.name) == d.name && f.steps == steps
                   && f.description == (if d.description == None then "" else d.description.value)
                   && f.status == (if d.status == None then StepStatus.Pending else ParseStatus(d.status.value).value)
  {
  }

  /** The steps that are read are those with a target that is not empty, in order; the first bad one of them is
      the error. */
  lemma {:induction false} ReadStepsAre(ds: seq<StepDict>)
    ensures var targets := WithTarget(ds);
            match ReadSteps(ds)
            case Ok(steps) =>
              && |steps| == |targets|
              && forall i :: 0 <= i < |steps| ==> ReadStep(targets[i]) == Ok(steps[i])
            case Err(e) =>
              exists i :: 0 <= i < |targets| && ReadStep(targets[i]) == Err(e)
                          && forall j :: 0 <= j < i ==> ReadStep(targets[j]).Ok?
  {
    if ds != [] {
      ReadStepsAre(ds[1..]);
      if ds[0].target !in {None, Some("")} {
        var rest := WithTarget(ds[1..]);
        assert WithTarget(ds) == [ds[0]] + rest;
        if ReadStep(ds[0]).Ok? && ReadSteps(ds[1..]).Err? {
          var e := ReadSteps(ds[1..]).error;
          var i :| 0 <= i < |rest| && ReadStep(rest[i]) == Err(e) && forall j :: 0 <= j < i ==> ReadStep(rest[j]).Ok?;
          assert ReadStep(WithTarget(ds)[i + 1]) == Err(e);
          assert forall j :: 0 < j < i + 1 ==> WithTarget(ds)[j] == rest[j - 1];
        } else if ReadStep(ds[0]).Err? {
          assert ReadStep(WithTarget(ds)[0]).Err?;
        }
      }
    }
  }

  function WithTarget(ds: seq<StepDict>): (r: seq<StepDict>)
    ensures forall d :: d in r ==> d.target.Some?
  {
    if ds == [] then []
    else if ds[0].target in {None, Some("")} then WithTarget(ds[1..])
    else [ds[0]] + WithTarget(ds[1..])
  }

  /** What survives of a step. */
  function Reloaded(s: Step): Step {
    s.(handler := None, retries := 0, timeout := 300, payload := s.payload.OrEmpty(), calls := 0)
  }

  function ReloadedTasks(steps: seq<Step>): seq<Step> {
    if steps == [] then []
    else if steps[0].IsTask() then [Reloaded(steps[0])] + ReloadedTasks(steps[1..])
    else ReloadedTasks(steps[1..])
  }

  lemma {:induction false} ReadBack(steps: seq<Step>)
    ensures ReadSteps(StepsToDicts(steps)) == Ok(ReloadedTasks(steps))
  {
    if steps != [] {
      ReadBack(steps[1..]);
      assert StepsToDicts(steps)[1..] == StepsToDicts(steps[1..]);
    }
  }

  /** A written workflow reads back with its id, name, description and status and, in order, exactly its
      task steps with their persisted fields. */
  lemma RoundTrip(f: Flow)
    ensures FromDict(ToDict(f)) == Ok(f.(steps := ReloadedTasks(f.steps)))
  {
    ReadBack(f.steps);
  }

  /** The dict of a task step as the writer makes it. */
  predicate CanonicalStep(d: StepDict) {
    && HasTarget(d) && d.kind == Some("task") && d.id.Some? && d.name.Some?
    && d.result.Some? && d.error.Some? && d.extra == map[]
    && d.payload.Some? && d.payload.value.OrEmpty() == d.payload.value
    && d.status.Some? && ParseStatus(d.status.value).Some?
  }

  predicate Canonical(d: WorkflowDict) {
    && d.id.Some? && d.name.Some? && d.description.Some? && d.status.Some? && ParseStatus(d.status.value).Some?
    && d.extra == map[] && d.steps.Some? && forall s :: s in d.steps.value ==> CanonicalStep(s)
  }

  lemma {:induction false} CanonicalStepsRewrite(ds: seq<StepDict>)
    requires ReadSteps(ds).Ok?
    ensures |ReadSteps(ds).value| <= |ds|
    ensures StepsToDicts(ReadSteps(ds).value) == ds <==> forall d :: d in ds ==> CanonicalStep(d)
  {
    if ds != [] {
      CanonicalStepsRewrite(ds[1..]);
      assert ds == [ds[0]] + ds[1..];
      if HasTarget(ds[0]) {
        var s := ReadStep(ds[0]).value;
        assert StepToDict(s) == ds[0] <==> CanonicalStep(ds[0]);
        var rest := ReadSteps(ds[1..]).value;
        assert ([s] + rest)[1..] == rest;
        var written := StepsToDicts([s] + rest);
        assert written == [StepToDict(s)] + StepsToDicts(rest);
        assert written == ds <==> StepToDict(s) == ds[0] && StepsToDicts(rest) == ds[1..] by {
          assert written[1..] == StepsToDicts(rest) && written[0] == StepToDict(s);
          assert ds == [ds[0]] + ds[1..];
        }
      } else {
        assert ds[0] in ds && !CanonicalStep(ds[0]);
      }
    }
  }

  /** Writing back what was read gives the same dict exactly when the dict is in the writer's form for
      workflows of task steps only. */
  lemma RewriteIsIdentityOnCanonical(d: WorkflowDict)
    requires FromDict(d).Ok?
    ensures ToDict(FromDict(d).value) == d <==> Canonical(d)
  {
    CanonicalStepsRewrite(if d.steps.Some? then d.steps.value else []);
  }

  /** Reading and writing once more changes nothing. */
  lemma RewriteIsIdempotent(d: WorkflowDict)
    requires FromDict(d).Ok?
    ensures FromDict(ToDict(FromDict(d).value)) == FromDict(d)
  {
    var f := FromDict(d).value;
    RoundTrip(f);
    ReadStepsAreReloaded(if d.steps.Some? then d.steps.value else []);
  }

  lemma {:induction false} ReadStepsAreReloaded(ds: seq<StepDict>)
    requires ReadSteps(ds).Ok?
    ensures ReloadedTasks(ReadSteps(ds).value) == ReadSteps(ds).value
  {
    if ds != [] {
      ReadStepsAreReloaded(ds[1..]);
      if HasTarget(ds[0]) {
        var rest := ReadSteps(ds[1..]).value;
        assert ([ReadStep(ds[0]).value] + rest)[1..] == rest;
      }
    }
  }
}
