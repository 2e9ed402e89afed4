/** Executions save their agent's status and give it back: when that restores it, and when it does not. */
module StatusBrackets {
  import opened Prelude
  import opened Records
  import opened Lifecycle
  import opened TaskInvariant
  import opened LifecycleInvariant

  /** A piece of a run, seen from one agent: an event that leaves its status alone, or one execution of
      the agent from begin to end with what happens inside it. */
  datatype Item =
    | Quiet(e: Event)
    | Bracket(k: nat, now: int, inner: seq<Item>, end: Event)

  /** The event does not write the status of the agent. */
  ghost predicate LeavesStatus(s: System, e: Event, agent: Id)
    requires Possible(s, e)
  {
    match e
    case Begin(k, _) => s.runs[k].task.target != agent
    case Finish(k, _, _) => s.runs[k].task.target != agent
    case Error(k, _, _) => s.runs[k].task.target != agent
    case Remove(a) => a != agent
    case SetStatus(a, _, _) => a != agent
    case _ => true
  }

  /** Plays a well-nested run; None when some item is not possible where it stands. */
  ghost function Play(s: System, items: seq<Item>, agent: Id): Option<System>
    decreases items
  {
    if items == [] then Some(s)
    else
      match items[0]
      case Quiet(e) =>
        if Possible(s, e) && LeavesStatus(s, e, agent) then Play(Advance(s, e), items[1..], agent) else None
      case Bracket(k, now, inner, end) =>
        if !(Possible(s, Begin(k, now)) && s.runs[k].task.target == agent) then None
        else
          var s2 := Play(Advance(s, Begin(k, now)), inner, agent);
          if s2.Some? && (end.Finish? || end.Error?) && end.k == k && Possible(s2.value, end)
          then Play(Advance(s2.value, end), items[1..], agent) else None
  }

  /** A begun execution keeps the status it saved until it ends, and no spawn number comes back. */
  ghost predicate RunsKept(s: System, s': System) {
    && s.spawned <= s'.spawned
    && forall j :: j in s'.runs && j < s.spawned ==>
         j in s.runs && (s.runs[j].Executing? ==> s'.runs[j] == s.runs[j])
  }

  lemma BeginKeepsRuns(s: System, k: nat, now: int)
    requires SystemInv(s) && k in s.runs && s.runs[k].Spawned?
    ensures RunsKept(s, BeginExecution(s, k, now))
  {
  }

  lemma StepKeepsRuns(s: System, e: Event)
    requires SystemInv(s) && Possible(s, e)
    ensures RunsKept(s, Advance(s, e))
  {
    match e
    case Begin(k, now) => BeginKeepsRuns(s, k, now);
    case _ =>
  }

  ghost predicate HasStatus(s: System, agent: Id, status: AgentStatus) {
    agent in s.registry.agents && s.registry.agents[agent].status == status
  }

  lemma BeginSetsStatus(s: System, k: nat, now: int, agent: Id, status: AgentStatus)
    requires SystemInv(s) && k in s.runs && s.runs[k].Spawned? && HasStatus(s, agent, status)
    ensures var s' := BeginExecution(s, k, now);
            if s.runs[k].task.target == agent
            then HasStatus(s', agent, AgentStatus.Running) && k in s'.runs
                && s'.runs[k] == Executing(s.runs[k].task, status)
            else HasStatus(s', agent, status)
  {
  }

  /** The execution that ends gives the agent the status it saved, whatever the others did. */
  lemma LastFinisherWins(s: System, end: Event, agent: Id)
    requires SystemInv(s) && Possible(s, end) && (end.Finish? || end.Error?) && agent in s.registry.agents
    ensures var x, s' := s.runs[end.k], Advance(s, end);
            HasStatus(s', agent, if x.task.target == agent then x.previous else s.registry.agents[agent].status)
  {
  }

  lemma QuietKeepsStatus(s: System, e: Event, agent: Id, status: AgentStatus)
    requires SystemInv(s) && Possible(s, e) && LeavesStatus(s, e, agent) && HasStatus(s, agent, status)
    ensures HasStatus(Advance(s, e), agent, status)
  {
    match e
    case Begin(k, now) => BeginSetsStatus(s, k, now, agent, status);
    case Finish(_, _, _) => LastFinisherWins(s, e, agent);
    case Error(_, _, _) => LastFinisherWins(s, e, agent);
    case _ =>
  }

  /** For any well-nested set of executions of one agent, whatever else goes on beside them, the status
      after the outermost end is the status before its begin. */
  lemma {:induction false} WellNestedRestores(s: System, items: seq<Item>, agent: Id, status: AgentStatus)
    requires SystemInv(s) && HasStatus(s, agent, status) && Play(s, items, agent).Some?
    ensures var s' := Play(s, items, agent).value;
            SystemInv(s') && HasStatus(s', agent, status) && RunsKept(s, s')
    decreases items
  {
    if items != [] {
      match items[0]
      case Quiet(e) =>
        QuietKeepsStatus(s, e, agent, status);
        StepKeepsRuns(s, e);
        AdvanceKeepsInv(s, e);
        WellNestedRestores(Advance(s, e), items[1..], agent, status);
      case Bracket(k, now, inner, end) =>
        var s1 := Advance(s, Begin(k, now));
        BeginSetsStatus(s, k, now, agent, status);
        StepKeepsRuns(s, Begin(k, now));
        AdvanceKeepsInv(s, Begin(k, now));
        WellNestedRestores(s1, inner, agent, AgentStatus.Running);
        var s2 := Play(s1, inner, agent).value;
        SpawnedBefore(s1, k);
        LastFinisherWins(s2, end, agent);
        StepKeepsRuns(s2, end);
        AdvanceKeepsInv(s2, end);
        WellNestedRestores(Advance(s2, end), items[1..], agent, status);
    }
  }

  lemma SpawnedBefore(s: System, k: nat)
    requires SystemInv(s) && k in s.runs
    ensures k < s.spawned
  {
    assert RunOk(TaskSideOf(s), k, s.runs[k]);
  }

  // ---------- A played run is a run of the machine ----------

  function Flatten(items: seq<Item>): seq<Event>
    decreases items
  {
    if items == [] then []
    else
      (match items[0]
       case Quiet(e) => [e]
       case Bracket(k, now, inner, end) => [Begin(k, now)] + Flatten(inner) + [end]) + Flatten(items[1..])
  }

  lemma {:induction false} RunConcat(s: System, a: seq<Event>, b: seq<Event>)
    requires Feasible(s, a) && Feasible(Run(s, a), b)
    ensures Feasible(s, a + b) && Run(s, a + b) == Run(Run(s, a), b)
    decreases |a|
  {
    var ab := a + b;
    if a == [] {
      assert ab == b;
    } else {
      assert ab[0] == a[0] && ab[1..] == a[1..] + b;
      RunConcat(Apply(s, a[0]), a[1..], b);
    }
  }

  lemma RunOne(s: System, e: Event)
    requires Possible(s, e)
    ensures Feasible(s, [e]) && Run(s, [e]) == Advance(s, e)
  {
    assert !e.Restart?;
    assert Feasible(Apply(s, e), [e][1..]);
  }

  lemma {:induction false} PlayIsRun(s: System, items: seq<Item>, agent: Id)
    requires Play(s, items, agent).Some?
    ensures Feasible(s, Flatten(items)) && Run(s, Flatten(items)) == Play(s, items, agent).value
    decreases items
  {
    if items != [] {
      var rest := Flatten(items[1..]);
      match items[0]
      case Quiet(e) =>
        RunOne(s, e);
        PlayIsRun(Advance(s, e), items[1..], agent);
        RunConcat(s, [e], rest);
      case Bracket(k, now, inner, end) =>
        var s1 := Advance(s, Begin(k, now));
        var s2 := Play(s1, inner, agent).value;
        RunOne(s, Begin(k, now));
        PlayIsRun(s1, inner, agent);
        RunConcat(s, [Begin(k, now)], Flatten(inner));
        RunOne(s2, end);
        RunConcat(s, [Begin(k, now)] + Flatten(inner), [end]);
        PlayIsRun(Advance(s2, end), items[1..], agent);
        RunConcat(s, [Begin(k, now)] + Flatten(inner) + [end], rest);
    }
  }

  // ---------- Overlaps ----------

  lemma {:induction false} RunsKeptOver(s: System, events: seq<Event>)
    requires SystemInv(s) && Feasible(s, events) && forall e :: e in events ==> !e.Restart?
    ensures SystemInv(Run(s, events)) && RunsKept(s, Run(s, events))
    decreases |events|
  {
    if events != [] {
      assert !events[0].Restart?;
      StepKeepsRuns(s, events[0]);
      AdvanceKeepsInv(s, events[0]);
      RunsKeptOver(Advance(s, events[0]), events[1..]);
    }
  }

  /** No event of the run writes the status of the agent. */
  ghost predicate LeaveStatus(s: System, events: seq<Event>, agent: Id)
    requires Feasible(s, events)
    decreases |events|
  {
    events == [] || (!events[0].Restart? && LeavesStatus(s, events[0], agent)
        && LeaveStatus(Apply(s, events[0]), events[1..], agent))
  }

  lemma {:induction false} QuietRunKeepsStatus(s: System, events: seq<Event>, agent: Id, status: AgentStatus)
    requires SystemInv(s) && Feasible(s, events) && LeaveStatus(s, events, agent) && HasStatus(s, agent, status)
    ensures HasStatus(Run(s, events), agent, status)
    decreases |events|
  {
    if events != [] {
      QuietKeepsStatus(s, events[0], agent, status);
      AdvanceKeepsInv(s, events[0]);
      QuietRunKeepsStatus(Advance(s, events[0]), events[1..], agent, status);
    }
  }

  /** However the executions of an agent overlap, and whoever else writes its status meanwhile: if the end
      of execution k is the last to write the agent's status, the agent is left with the status it had
      when k began. */
  lemma LastFinisherDecides(s: System, k: nat, now: int, meanwhile: seq<Event>, end: Event, afterwards: seq<Event>,
                            agent: Id, status: AgentStatus)
    requires SystemInv(s) && k in s.runs && s.runs[k].Spawned? && s.runs[k].task.target == agent
             && HasStatus(s, agent, status)
    requires Feasible(BeginExecution(s, k, now), meanwhile) && forall e :: e in meanwhile ==> !e.Restart?
    requires (end.Finish? || end.Error?) && end.k == k
    requires var s2 := Run(BeginExecution(s, k, now), meanwhile); Possible(s2, end) && agent in s2.registry.agents
    requires var s3 := Advance(Run(BeginExecution(s, k, now), meanwhile), end);
             Feasible(s3, afterwards) && LeaveStatus(s3, afterwards, agent)
    ensures HasStatus(Run(Advance(Run(BeginExecution(s, k, now), meanwhile), end), afterwards), agent, status)
  {
    var s1 := BeginExecution(s, k, now);
    BeginSetsStatus(s, k, now, agent, status);
    BeginKeeps(s, k, now);
    SpawnedBefore(s1, k);
    RunsKeptOver(s1, meanwhile);
    var s2 := Run(s1, meanwhile);
    LastFinisherWins(s2, end, agent);
    AdvanceKeepsInv(s2, end);
    QuietRunKeepsStatus(Advance(s2, end), afterwards, agent, status);
  }

  /** Two executions of one agent are about to begin. */
  ghost predicate Overlappable(s: System, j: nat, k: nat) {
    && j in s.runs && k in s.runs && j != k && s.runs[j].Spawned? && s.runs[k].Spawned?
    && s.runs[j].task.target == s.runs[k].task.target && s.runs[j].task.target in s.registry.agents
  }

  /** Execution k begins after j, with only quiet events between, and its end is the last to write the
      agent's status; whatever happens meanwhile, and whether j ends inside or not. Then the agent is left
      running: its status from before j is restored if and only if it was running already. */
  lemma OverlapLeavesRunning(s: System, j: nat, now: int, quiet: seq<Event>, k: nat, later: int, meanwhile: seq<Event>,
                             end: Event, afterwards: seq<Event>, agent: Id, status: AgentStatus)
    requires SystemInv(s) && Overlappable(s, j, k) && s.runs[j].task.target == agent && HasStatus(s, agent, status)
    requires var s1 := BeginExecution(s, j, now); Feasible(s1, quiet) && LeaveStatus(s1, quiet, agent)
    requires var s2 := Run(BeginExecution(s, j, now), quiet);
             k in s2.runs && s2.runs[k].Spawned? && s2.runs[k].task.target == agent
    requires forall e :: e in meanwhile ==> !e.Restart?
    requires Feasible(BeginExecution(Run(BeginExecution(s, j, now), quiet), k, later), meanwhile)
    requires (end.Finish? || end.Error?) && end.k == k
    requires var s4 := Run(BeginExecution(Run(BeginExecution(s, j, now), quiet), k, later), meanwhile);
             Possible(s4, end) && agent in s4.registry.agents
    requires var s5 := Advance(Run(BeginExecution(Run(BeginExecution(s, j, now), quiet), k, later), meanwhile), end);
             Feasible(s5, afterwards) && LeaveStatus(s5, afterwards, agent)
    ensures var s5 := Advance(Run(BeginExecution(Run(BeginExecution(s, j, now), quiet), k, later), meanwhile), end);
            && HasStatus(Run(s5, afterwards), agent, AgentStatus.Running)
            && (HasStatus(Run(s5, afterwards), agent, status) <==> status.Running?)
  {
    var s1 := BeginExecution(s, j, now);
    BeginSetsStatus(s, j, now, agent, status);
    BeginKeeps(s, j, now);
    QuietRunKeepsStatus(s1, quiet, agent, AgentStatus.Running);
    QuietRunKeepsInv(s1, quiet, agent);
    LastFinisherDecides(Run(s1, quiet), k, later, meanwhile, end, afterwards, agent, AgentStatus.Running);
  }

  lemma {:induction false} QuietRunKeepsInv(s: System, events: seq<Event>, agent: Id)
    requires SystemInv(s) && Feasible(s, events) && LeaveStatus(s, events, agent)
    ensures SystemInv(Run(s, events))
    decreases |events|
  {
    if events != [] {
      AdvanceKeepsInv(s, events[0]);
      QuietRunKeepsInv(Advance(s, events[0]), events[1..], agent);
    }
  }
}
