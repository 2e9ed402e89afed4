/** An agent's status after any interleaving of its executions, from the order of their begins and ends. */
module StatusTraces {
  import opened Prelude
  import opened Records
  import opened Lifecycle
  import opened LifecycleInvariant
  import opened CrashSafety
  import opened StatusBrackets
  import Scheduling
  import StableQueue

  /** A begin or an end of an execution of the agent. */
  datatype Mark = Began(k: nat) | Ended(k: nat)

  ghost function MarkOf(s: System, e: Event, agent: Id): seq<Mark>
    requires Possible(s, e)
  {
    match e
    case Begin(k, _) => if s.runs[k].task.target == agent then [Began(k)] else []
    case Finish(k, _, _) => if s.runs[k].task.target == agent then [Ended(k)] else []
    case Error(k, _, _) => if s.runs[k].task.target == agent then [Ended(k)] else []
    case _ => []
  }

  /** No crash, and no writer of the agent's status but its executions. */
  predicate OnlyExecutionsWrite(events: seq<Event>, agent: Id) {
    forall e :: e in events ==> !e.Restart? && e != Remove(agent) && !(e.SetStatus? && e.agent == agent)
  }

  ghost function Trace(s: System, events: seq<Event>, agent: Id): seq<Mark>
    requires Feasible(s, events) && OnlyExecutionsWrite(events, agent)
    decreases |events|
  {
    if events == [] then []
    else
      assert !events[0].Restart?;
      MarkOf(s, events[0], agent) + Trace(Advance(s, events[0]), events[1..], agent)
  }

  /** The first position of the mark, or the length. */
  function First(trace: seq<Mark>, m: Mark): (i: nat)
    ensures i <= |trace| && (i < |trace| <==> m in trace)
    ensures i < |trace| ==> trace[i] == m
  {
    if trace == [] then 0 else if trace[0] == m then 0 else 1 + First(trace[1..], m)
  }

  /** Following the last end back to its begin, from there the end before it back to its own, and so on,
      one arrives at the start of the trace and not at some other begin. */
  predicate BackToStart(trace: seq<Mark>)
    decreases |trace|
  {
    if trace == [] then true
    else
      var n := |trace| - 1;
      var before := trace[..n];
      match trace[n]
      case Began(_) => false
      case Ended(k) => var i := First(before, Began(k)); i < n && BackToStart(before[..i])
  }

  function StatusAfter(trace: seq<Mark>, initial: AgentStatus): AgentStatus {
    if BackToStart(trace) then initial else AgentStatus.Running
  }

  // ---------- Traces and states ----------

  ghost predicate BegunOk(s: System, trace: seq<Mark>) {
    forall k: nat :: Began(k) in trace ==> k < s.spawned && !(k in s.runs && s.runs[k].Spawned?)
  }

  /** Every begun execution has saved what the trace said at its begin. */
  ghost predicate SavedOk(s: System, trace: seq<Mark>, agent: Id, initial: AgentStatus) {
    forall k :: k in s.runs && s.runs[k].Executing? && s.runs[k].task.target == agent ==>
      Began(k) in trace && s.runs[k].previous == StatusAfter(trace[..First(trace, Began(k))], initial)
  }

  ghost predicate Traced(s: System, trace: seq<Mark>, agent: Id, initial: AgentStatus) {
    && SystemInv(s) && HasStatus(s, agent, StatusAfter(trace, initial))
    && BegunOk(s, trace) && SavedOk(s, trace, agent, initial)
  }

  lemma {:induction false} FirstStays(trace: seq<Mark>, m: Mark, more: seq<Mark>)
    requires m in trace
    ensures First(trace + more, m) == First(trace, m)
    ensures (trace + more)[..First(trace, m)] == trace[..First(trace, m)]
  {
    if trace[0] != m {
      assert (trace + more)[1..] == trace[1..] + more;
      FirstStays(trace[1..], m, more);
    }
  }

  lemma {:induction false} FirstAtEnd(trace: seq<Mark>, m: Mark)
    requires m !in trace
    ensures First(trace + [m], m) == |trace| && (trace + [m])[..|trace|] == trace
  {
    if trace != [] {
      assert (trace + [m])[1..] == trace[1..] + [m];
      FirstAtEnd(trace[1..], m);
    }
  }

  lemma AfterBegin(trace: seq<Mark>, k: nat, initial: AgentStatus)
    ensures StatusAfter(trace + [Began(k)], initial) == AgentStatus.Running
  {
  }

  /** An end leads back to the start exactly when the trace before the begin of its execution does: when
      that execution began, the agent had its initial status. */
  lemma LastEndLeadsBack(trace: seq<Mark>, k: nat)
    requires Began(k) in trace
    ensures BackToStart(trace + [Ended(k)]) <==> BackToStart(trace[..First(trace, Began(k))])
  {
    var longer := trace + [Ended(k)];
    assert longer[..|trace|] == trace && longer[|trace|] == Ended(k);
  }

  /** Spawned and begun executions of the next state come from this one, or were just spawned or begun. */
  ghost predicate RunsFrom(s: System, s': System, begun: Option<nat>) {
    && s.spawned <= s'.spawned
    && (forall k :: k in s'.runs && s'.runs[k].Spawned? && k < s.spawned ==> k in s.runs && s.runs[k].Spawned?)
    && (forall k :: k in s'.runs && s'.runs[k].Executing? && begun != Some(k) ==>
       k in s.runs && s'.runs[k] == s.runs[k])
  }

  lemma BeginRunsFrom(s: System, k: nat, now: int)
    requires SystemInv(s) && k in s.runs && s.runs[k].Spawned?
    ensures RunsFrom(s, BeginExecution(s, k, now), Some(k))
    ensures var s' := BeginExecution(s, k, now);
            (k in s'.runs ==> s'.runs[k].Executing? && s'.runs[k].task == s.runs[k].task)
  {
  }

  lemma AdvanceRunsFrom(s: System, e: Event)
    requires SystemInv(s) && Possible(s, e)
    ensures RunsFrom(s, Advance(s, e), if e.Begin? then Some(e.k) else None)
  {
    if e.Begin? {
      BeginRunsFrom(s, e.k, e.now);
    } else {
      OtherRunsFrom(s, e);
    }
  }

  lemma OtherRunsFrom(s: System, e: Event)
    requires Possible(s, e) && !e.Begin?
    ensures RunsFrom(s, Advance(s, e), None)
  {
  }

  lemma BeginTraced(s: System, k: nat, now: int, trace: seq<Mark>, agent: Id, initial: AgentStatus)
    requires Traced(s, trace, agent, initial) && k in s.runs && s.runs[k].Spawned? && s.runs[k].task.target == agent
    ensures Traced(BeginExecution(s, k, now), trace + [Began(k)], agent, initial)
  {
    var s' := BeginExecution(s, k, now);
    BeginKeeps(s, k, now);
    BeginSetsStatus(s, k, now, agent, StatusAfter(trace, initial));
    AfterBegin(trace, k, initial);
    BeginRunsFrom(s, k, now);
    SpawnedBefore(s, k);
    forall j | j in s'.runs && s'.runs[j].Executing? && s'.runs[j].task.target == agent
      ensures Began(j) in trace + [Began(k)]
      ensures s'.runs[j].previous == StatusAfter((trace + [Began(k)])[..First(trace + [Began(k)], Began(j))], initial)
    {
      if j == k {
        FirstAtEnd(trace, Began(k));
      } else {
        FirstStays(trace, Began(j), [Began(k)]);
      }
    }
  }

  lemma EndTraced(s: System, end: Event, trace: seq<Mark>, agent: Id, initial: AgentStatus)
    requires Traced(s, trace, agent, initial) && Possible(s, end) && (end.Finish? || end.Error?)
    requires s.runs[end.k].task.target == agent
    ensures Traced(Advance(s, end), trace + [Ended(end.k)], agent, initial)
  {
    var s' := Advance(s, end);
    AdvanceKeepsInv(s, end);
    LastFinisherWins(s, end, agent);
    LastEndLeadsBack(trace, end.k);
    AdvanceRunsFrom(s, end);
    LaterMarkKeepsSaved(s, s', trace, Ended(end.k), agent, initial);
  }

  lemma LaterMarkKeepsSaved(s: System, s': System, trace: seq<Mark>, m: Mark, agent: Id, initial: AgentStatus)
    requires SavedOk(s, trace, agent, initial) && BegunOk(s, trace) && RunsFrom(s, s', None) && m.Ended?
    ensures SavedOk(s', trace + [m], agent, initial) && BegunOk(s', trace + [m])
  {
    forall j | j in s'.runs && s'.runs[j].Executing? && s'.runs[j].task.target == agent
      ensures Began(j) in trace + [m]
      ensures s'.runs[j].previous == StatusAfter((trace + [m])[..First(trace + [m], Began(j))], initial)
    {
      FirstStays(trace, Began(j), [m]);
    }
  }

  lemma QuietTraced(s: System, e: Event, trace: seq<Mark>, agent: Id, initial: AgentStatus)
    requires Traced(s, trace, agent, initial) && Possible(s, e) && LeavesStatus(s, e, agent)
    ensures Traced(Advance(s, e), trace, agent, initial)
  {
    AdvanceKeepsInv(s, e);
    QuietKeepsStatus(s, e, agent, StatusAfter(trace, initial));
    AdvanceRunsFrom(s, e);
    if e.Begin? {
      BeginRunsFrom(s, e.k, e.now);
    }
  }

  lemma StepTraced(s: System, e: Event, trace: seq<Mark>, agent: Id, initial: AgentStatus)
    requires Traced(s, trace, agent, initial) && Possible(s, e) && OnlyExecutionsWrite([e], agent)
    ensures Traced(Advance(s, e), trace + MarkOf(s, e, agent), agent, initial)
  {
    assert e in [e];
    if MarkOf(s, e, agent) == [] {
      assert LeavesStatus(s, e, agent);
      QuietTraced(s, e, trace, agent, initial);
      assert trace + [] == trace;
    } else if e.Begin? {
      BeginTraced(s, e.k, e.now, trace, agent, initial);
    } else {
      EndTraced(s, e, trace, agent, initial);
    }
  }

  lemma TraceUnfolds(s: System, events: seq<Event>, agent: Id)
    requires events != [] && Feasible(s, events) && OnlyExecutionsWrite(events, agent)
    ensures var e, s1, rest := events[0], Advance(s, events[0]), events[1..];
            && !e.Restart? && Feasible(s1, rest) && OnlyExecutionsWrite([e], agent) && OnlyExecutionsWrite(rest, agent)
            && Run(s, events) == Run(s1, rest)
            && Trace(s, events, agent) == MarkOf(s, e, agent) + Trace(s1, rest, agent)
  {
    assert events[0] in events;
  }

  lemma {:induction false} RunTraced(s: System, events: seq<Event>, trace: seq<Mark>, agent: Id, initial: AgentStatus)
    requires Traced(s, trace, agent, initial) && Feasible(s, events) && OnlyExecutionsWrite(events, agent)
    ensures Traced(Run(s, events), trace + Trace(s, events, agent), agent, initial)
    decreases |events|
  {
    if events == [] {
      assert trace + [] == trace;
    } else {
      TraceUnfolds(s, events, agent);
      var e := events[0];
      StepTraced(s, e, trace, agent, initial);
      RunTraced(Advance(s, e), events[1..], trace + MarkOf(s, e, agent), agent, initial);
      Associates(trace, MarkOf(s, e, agent), Trace(Advance(s, e), events[1..], agent));
    }
  }

  lemma Associates(a: seq<Mark>, b: seq<Mark>, c: seq<Mark>)
    ensures a + b + c == a + (b + c)
  {
  }

  // ---------- Exactly when the status is restored ----------

  /** None of the agent's executions has begun. */
  ghost predicate NoneBegun(s: System, agent: Id) {
    forall k :: k in s.runs && s.runs[k].task.target == agent ==> s.runs[k].Spawned?
  }

  /** Over any crash-free run in which only its executions write the agent's status, however many there are
      and however they interleave: the agent has its initial status again if and only if that was
      "running", or the last end leads back to the start. Otherwise it is left running. */
  lemma RestoredIff(s: System, events: seq<Event>, agent: Id, initial: AgentStatus)
    requires SystemInv(s) && HasStatus(s, agent, initial) && NoneBegun(s, agent)
    requires Feasible(s, events) && OnlyExecutionsWrite(events, agent)
    ensures var s', back := Run(s, events), BackToStart(Trace(s, events, agent));
            && (HasStatus(s', agent, initial) <==> initial.Running? || back)
            && HasStatus(s', agent, if back then initial else AgentStatus.Running)
  {
    assert Traced(s, [], agent, initial);
    RunTraced(s, events, [], agent, initial);
    assert [] + Trace(s, events, agent) == Trace(s, events, agent);
  }

  // ---------- Overlaps of a pending agent are reachable ----------

  /** A first start, an agent, two tasks for it, and two rounds of the engine loop. */
  function TwoTasks(agent: Id, name: string, kind: string, a: TaskId, b: TaskId, now: int): seq<Event> {
    [Register(agent, name, kind, None, now)]
    + ([Submit(agent, None, 0, DEFAULT_QUEUE, a, now)]
       + ([Submit(agent, None, 0, DEFAULT_QUEUE, b, now)] + ([Poll(now)] + [Poll(now)])))
  }

  lemma Onward(s: System, e: Event, events: seq<Event>)
    requires Possible(s, e) && Feasible(Advance(s, e), events)
    ensures Feasible(s, [e] + events) && Run(s, [e] + events) == Run(Advance(s, e), events)
  {
    assert !e.Restart?;
    assert ([e] + events)[1..] == events;
  }

  lemma BothWait(s: System, agent: Id, ta: Scheduling.Task, tb: Scheduling.Task, now: int)
    requires s.scheduler.queues == map[] && agent in s.registry.agents
    requires ta.queue == tb.queue == DEFAULT_QUEUE && ta.priority == tb.priority == 0
    ensures SubmitTask(SubmitTask(s, agent, ta, now), agent, tb, now).scheduler.queues[DEFAULT_QUEUE]
            == [Entry(ta), Entry(tb)]
  {
    assert SubmitTask(s, agent, ta, now).scheduler.queues[DEFAULT_QUEUE] == [Entry(ta)];
    StableQueue.InsertSplits([Entry(ta)], Entry(tb));
  }

  function Entry(t: Scheduling.Task): StableQueue.Waiting<Scheduling.Task> {
    StableQueue.Waiting(t, t.priority)
  }

  /** A poll spawns the execution of the first waiting task. */
  lemma PollSpawns(s: System, now: int)
    requires s.scheduler.scheduled == [] && Scheduling.QueueOf(s.scheduler.queues, DEFAULT_QUEUE) != []
    ensures var w, s' := Scheduling.QueueOf(s.scheduler.queues, DEFAULT_QUEUE), PollOnce(s, now);
            && s'.runs == s.runs[s.spawned := Spawned(w[0].item)] && s'.spawned == s.spawned + 1
            && Scheduling.QueueOf(s'.scheduler.queues, DEFAULT_QUEUE) == w[1..]
            && s'.scheduler.scheduled == [] && s'.registry == s.registry
  {
    PollDispatches(s, now);
  }

  lemma BothSpawned(s: System, ta: Scheduling.Task, tb: Scheduling.Task, now: int)
    requires s.scheduler.scheduled == [] && s.runs == map[] && s.spawned == 0
    requires Scheduling.QueueOf(s.scheduler.queues, DEFAULT_QUEUE) == [Entry(ta), Entry(tb)]
    ensures var s' := PollOnce(PollOnce(s, now), now);
            s'.runs == map[0 := Spawned(ta)][1 := Spawned(tb)] && s'.registry == s.registry
  {
    PollSpawns(s, now);
    assert [Entry(ta), Entry(tb)][1..] == [Entry(tb)];
    PollSpawns(PollOnce(s, now), now);
  }

  lemma TwoPolls(s: System, ta: Scheduling.Task, tb: Scheduling.Task, now: int)
    requires s.scheduler.scheduled == [] && s.runs == map[] && s.spawned == 0
    requires Scheduling.QueueOf(s.scheduler.queues, DEFAULT_QUEUE) == [Entry(ta), Entry(tb)]
    ensures Feasible(s, [Poll(now)] + [Poll(now)])
    ensures var s' := Run(s, [Poll(now)] + [Poll(now)]);
            s'.runs == map[0 := Spawned(ta)][1 := Spawned(tb)] && s'.registry == s.registry
  {
    BothSpawned(s, ta, tb, now);
    RunOne(PollOnce(s, now), Poll(now));
    Onward(s, Poll(now), [Poll(now)]);
  }

  /** A system with one agent, nothing waiting and nothing in flight, after two submissions and two polls. */
  lemma TwoPolled(s: System, agent: Id, a: TaskId, b: TaskId, now: int)
    requires s.scheduler.queues == map[] && s.scheduler.scheduled == [] && s.runs == map[] && s.spawned == 0
    requires agent in s.registry.agents && a !in s.tasks && b !in s.tasks && a != b
    ensures var events := [Submit(agent, None, 0, DEFAULT_QUEUE, a, now)]
                          + ([Submit(agent, None, 0, DEFAULT_QUEUE, b, now)] + ([Poll(now)] + [Poll(now)]));
            && Feasible(s, events)
            && Run(s, events).runs.Keys == {0, 1} && Run(s, events).registry == s.registry
            && (forall k :: k in Run(s, events).runs ==>
                  Run(s, events).runs[k].Spawned? && Run(s, events).runs[k].task.target == agent)
  {
    var ta, tb := NewTask(agent, None, 0, DEFAULT_QUEUE, a, now), NewTask(agent, None, 0, DEFAULT_QUEUE, b, now);
    var s1 := SubmitTask(s, agent, ta, now);
    var s2 := SubmitTask(s1, agent, tb, now);
    BothWait(s, agent, ta, tb, now);
    TwoPolls(s2, ta, tb, now);
    Onward(s1, Submit(agent, None, 0, DEFAULT_QUEUE, b, now), [Poll(now)] + [Poll(now)]);
    Onward(s, Submit(agent, None, 0, DEFAULT_QUEUE, a, now),
           [Submit(agent, None, 0, DEFAULT_QUEUE, b, now)] + ([Poll(now)] + [Poll(now)]));
  }

  /** From every first start, two executions of a pending agent can come to overlap. */
  lemma PendingOverlapReachable(maxRetries: nat, durable: bool, agent: Id, name: string, kind: string,
                                a: TaskId, b: TaskId, now: int)
    requires a != b
    ensures var s0, events := FirstBoot(maxRetries, durable), TwoTasks(agent, name, kind, a, b, now);
            && Feasible(s0, events)
            && Overlappable(Run(s0, events), 0, 1) && Run(s0, events).runs[0].task.target == agent
            && HasStatus(Run(s0, events), agent, AgentStatus.Pending)
  {
    var s0 := FirstBoot(maxRetries, durable);
    var e := Register(agent, name, kind, None, now);
    var s1 := Advance(s0, e);
    TwoPolled(s1, agent, a, b, now);
    Onward(s0, e, TwoTasks(agent, name, kind, a, b, now)[1..]);
  }
}
