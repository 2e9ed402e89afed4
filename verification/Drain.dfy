/** Work on the default queue runs out, and the engine loop leaves all other queues alone. */
module Drain {
  import opened Prelude
  import opened Records
  import opened StableQueue
  import opened Scheduling
  import opened Lifecycle
  import opened TaskInvariant
  import opened LifecycleInvariant
  import opened Sums

  // ---------- Measures ----------

  /** What the steps of a task are counted as: each dispatch it has left, the one it waits for, and the
      begin that follows. */
  datatype Price = Price(dispatch: nat, waiting: nat, spawned: nat)

  /** The measure that bounds the runs. */
  const FINE := Price(3, 2, 1)

  /** One that does not tell a begun execution from a spawned one. */
  const COARSE := Price(2, 1, 0)

  function Times(n: nat, each: nat): nat {
    if n == 0 then 0 else each + Times(n - 1, each)
  }

  /** A price for every dispatch a task has left. */
  function Budget(t: Task, maxRetries: nat, each: nat): nat {
    if t.retries <= maxRetries then Times(maxRetries + 1 - t.retries, each) else 0
  }

  function EntryWeight(e: Waiting<Task>, maxRetries: nat, p: Price): nat {
    Budget(e.item, maxRetries, p.dispatch) + p.waiting
  }

  function RunWeight(x: Execution, maxRetries: nat, p: Price): nat {
    Budget(x.task, maxRetries, p.dispatch) + if x.Spawned? then p.spawned else 0
  }

  function QueueWeight(w: seq<Waiting<Task>>, maxRetries: nat, p: Price): nat {
    if w == [] then 0 else EntryWeight(w[0], maxRetries, p) + QueueWeight(w[1..], maxRetries, p)
  }

  ghost function RunWeights(runs: map<nat, Execution>, maxRetries: nat, p: Price): map<nat, nat> {
    map k | k in runs :: RunWeight(runs[k], maxRetries, p)
  }

  /** What is left to do on the default queue, at such prices. */
  ghost function Work(ts: TaskSide, p: Price): nat {
    QueueWeight(QueueOf(ts.scheduler.queues, DEFAULT_QUEUE), ts.scheduler.maxRetries, p)
    + Sum(RunWeights(ts.runs, ts.scheduler.maxRetries, p))
  }

  lemma {:induction false} InsertWeight(w: seq<Waiting<Task>>, e: Waiting<Task>, maxRetries: nat, p: Price)
    ensures QueueWeight(StableInsert(w, e), maxRetries, p)
         == QueueWeight(w, maxRetries, p) + EntryWeight(e, maxRetries, p)
  {
    if w == [] || w[0].priority < e.priority {
      assert ([e] + w)[1..] == w;
    } else {
      var rest := StableInsert(w[1..], e);
      assert ([w[0]] + rest)[1..] == rest;
      InsertWeight(w[1..], e, maxRetries, p);
    }
  }

  lemma PutRunWeight(runs: map<nat, Execution>, k: nat, x: Execution, n: nat, p: Price)
    ensures Sum(RunWeights(runs[k := x], n, p)) + (if k in runs then RunWeight(runs[k], n, p) else 0)
         == Sum(RunWeights(runs, n, p)) + RunWeight(x, n, p)
  {
    assert RunWeights(runs[k := x], n, p) == RunWeights(runs, n, p)[k := RunWeight(x, n, p)];
    SumUpdate(RunWeights(runs, n, p), k, RunWeight(x, n, p));
  }

  lemma DropRunWeight(runs: map<nat, Execution>, k: nat, n: nat, p: Price)
    requires k in runs
    ensures Sum(RunWeights(runs - {k}, n, p)) + RunWeight(runs[k], n, p) == Sum(RunWeights(runs, n, p))
  {
    assert RunWeights(runs - {k}, n, p) == RunWeights(runs, n, p) - {k};
    SumRemove(RunWeights(runs, n, p), k);
  }

  // ---------- What each block changes ----------

  lemma DispatchWork(ts: TaskSide, p: Price)
    requires Inv(ts) && QueueOf(ts.scheduler.queues, DEFAULT_QUEUE) != []
    ensures Work(Dispatched(ts), p) + p.waiting == Work(ts, p) + p.spawned
  {
    DispatchRuns(ts);
    var w := QueueOf(ts.scheduler.queues, DEFAULT_QUEUE);
    PutRunWeight(ts.runs, ts.spawned, Spawned(w[0].item), ts.scheduler.maxRetries, p);
  }

  lemma StartWork(ts: TaskSide, k: nat, previous: AgentStatus, p: Price)
    requires k in ts.runs && ts.runs[k].Spawned? && ts.runs[k].task.id in ts.tasks
    ensures Work(Started(ts, k, previous), p) + p.spawned == Work(ts, p)
  {
    PutRunWeight(ts.runs, k, Executing(ts.runs[k].task, previous), ts.scheduler.maxRetries, p);
  }

  lemma LandWork(ts: TaskSide, k: nat, r: Record, p: Price)
    requires Inv(ts) && k in ts.runs
    ensures Work(Landed(ts, k, r), p) + RunWeight(ts.runs[k], ts.scheduler.maxRetries, p) == Work(ts, p)
  {
    DropRunWeight(ts.runs, k, ts.scheduler.maxRetries, p);
  }

  lemma {:induction false} NothingTimes(n: nat)
    ensures Times(n, 0) == 0
  {
    if n > 0 {
      NothingTimes(n - 1);
    }
  }

  /** An execution has at least one dispatch in its budget, which is worth nothing only at a price of nothing. */
  lemma RunIsWorth(ts: TaskSide, k: nat, p: Price)
    requires Inv(ts) && k in ts.runs
    ensures RunWeight(ts.runs[k], ts.scheduler.maxRetries, p) > 0
       <==> p.dispatch + (if ts.runs[k].Spawned? then p.spawned else 0) > 0
  {
    RunFacts(ts, k);
    if p.dispatch == 0 {
      NothingTimes(ts.scheduler.maxRetries + 1 - ts.runs[k].task.retries);
    }
  }

  predicate Retries(ts: TaskSide, k: nat)
    requires k in ts.runs
  {
    ts.runs[k].task.retries < ts.scheduler.maxRetries
  }

  lemma RetryQueue(ts: TaskSide, k: nat, message: string)
    requires Inv(ts) && k in ts.runs && ts.runs[k].task.id in ts.tasks && Retries(ts, k)
    ensures var ts', t' := Failing(ts, k, message), OneMoreRetry(ts.runs[k].task);
            && ts'.runs == ts.runs - {k} && ts'.scheduler.maxRetries == ts.scheduler.maxRetries
            && QueueOf(ts'.scheduler.queues, DEFAULT_QUEUE)
               == StableInsert(QueueOf(ts.scheduler.queues, DEFAULT_QUEUE), Waiting(t', t'.priority))
  {
    RunFacts(ts, k);
  }

  lemma OneLess(t: Task, maxRetries: nat, each: nat)
    requires t.retries < maxRetries
    ensures Budget(OneMoreRetry(t), maxRetries, each) + each == Budget(t, maxRetries, each)
  {
  }

  lemma RetryWork(ts: TaskSide, k: nat, message: string, p: Price)
    requires Inv(ts) && k in ts.runs && ts.runs[k].task.id in ts.tasks && Retries(ts, k)
    ensures Work(Failing(ts, k, message), p) + p.dispatch + (if ts.runs[k].Spawned? then p.spawned else 0)
         == Work(ts, p) + p.waiting
  {
    var t' := OneMoreRetry(ts.runs[k].task);
    RetryQueue(ts, k, message);
    OneLess(ts.runs[k].task, ts.scheduler.maxRetries, p.dispatch);
    DropRunWeight(ts.runs, k, ts.scheduler.maxRetries, p);
    InsertWeight(QueueOf(ts.scheduler.queues, DEFAULT_QUEUE), Waiting(t', t'.priority), ts.scheduler.maxRetries, p);
  }

  /** A failing execution lowers the work when it is over for good, or worth more than the task that waits again. */
  predicate FailPays(ts: TaskSide, k: nat, p: Price)
    requires k in ts.runs
  {
    p.dispatch + (if ts.runs[k].Spawned? then p.spawned else 0) > if Retries(ts, k) then p.waiting else 0
  }

  lemma FailWork(ts: TaskSide, k: nat, message: string, p: Price)
    requires Inv(ts) && k in ts.runs && ts.runs[k].task.id in ts.tasks
    ensures Work(Failing(ts, k, message), p) < Work(ts, p) <==> FailPays(ts, k, p)
  {
    if Retries(ts, k) {
      RetryWork(ts, k, message, p);
    } else {
      LandWork(ts, k, FailedRecord(ts.tasks[ts.runs[k].task.id], false, message), p);
      RunIsWorth(ts, k, p);
    }
  }

  // ---------- Events ----------

  /** Neither new work nor a crash. */
  predicate Internal(e: Event) {
    !e.Submit? && !e.Restart?
  }

  /** The event makes progress: it is not a poll of an empty queue nor an action on an agent. */
  ghost predicate Productive(s: System, e: Event) {
    || e.Begin? || e.Finish? || e.Error?
    || (e.Poll? && QueueOf(s.scheduler.queues, DEFAULT_QUEUE) != [])
  }

  ghost function WorkAt(s: System, p: Price): nat {
    Work(TaskSideOf(s), p)
  }

  ghost function WorkOf(s: System): nat {
    WorkAt(s, FINE)
  }

  /** The execution finds its agent when it begins. */
  predicate FindsAgent(s: System, k: nat) {
    k in s.runs && s.runs[k].task.target in s.registry.agents
  }

  /** What lowers the work at such prices, as it can be told before the event. */
  ghost predicate Pays(s: System, e: Event, p: Price)
    requires Possible(s, e)
  {
    match e
    case Poll(_) => QueueOf(s.scheduler.queues, DEFAULT_QUEUE) != [] && p.waiting > p.spawned
    case Begin(k, _) => if FindsAgent(s, k) then p.spawned > 0 else FailPays(TaskSideOf(s), k, p)
    case Finish(_, _, _) => p.dispatch > 0
    case Error(k, _, _) => FailPays(TaskSideOf(s), k, p)
    case _ => false
  }

  lemma FoundWork(s: System, k: nat, now: int, p: Price)
    requires SystemInv(s) && k in s.runs && s.runs[k].Spawned? && FindsAgent(s, k)
    ensures WorkAt(BeginExecution(s, k, now), p) + p.spawned == WorkAt(s, p)
  {
    var ts := TaskSideOf(s);
    var previous := s.registry.agents[s.runs[k].task.target].status;
    RunFacts(ts, k);
    StartWork(ts, k, previous, p);
    FoundBegins(s, k, now);
  }

  lemma UnfoundWork(s: System, k: nat, now: int, p: Price)
    requires SystemInv(s) && k in s.runs && s.runs[k].Spawned? && !FindsAgent(s, k)
    ensures WorkAt(BeginExecution(s, k, now), p) < WorkAt(s, p) <==> FailPays(TaskSideOf(s), k, p)
  {
    var message := NotFound(s.runs[k].task.target);
    RunFacts(TaskSideOf(s), k);
    UnfoundSide(s, k, message, now);
    FailSide(s, k, message, now);
    FailWork(TaskSideOf(s), k, message, p);
  }

  lemma FinishWork(s: System, k: nat, result: Json, now: int, p: Price)
    requires SystemInv(s) && k in s.runs && s.runs[k].Executing?
    ensures WorkAt(FinishExecution(s, k, result, now), p) < WorkAt(s, p) <==> p.dispatch > 0
  {
    CompleteKeeps(s, k, result, now);
    SettleKeeps(CompleteExecution(s, k, result, now), s.runs[k].task.target, s.runs[k].previous, true, now);
    LandWork(TaskSideOf(s), k, CompletedRecord(s.tasks[s.runs[k].task.id], result, now), p);
    RunIsWorth(TaskSideOf(s), k, p);
  }

  lemma ErrorWork(s: System, k: nat, message: string, now: int, p: Price)
    requires SystemInv(s) && k in s.runs && s.runs[k].Executing?
    ensures WorkAt(ErrorInExecution(s, k, message, now), p) < WorkAt(s, p) <==> FailPays(TaskSideOf(s), k, p)
  {
    RunFacts(TaskSideOf(s), k);
    FailKeeps(s, k, message, now);
    FailSide(s, k, message, now);
    SettleKeeps(FailExecution(s, k, message, now), s.runs[k].task.target, s.runs[k].previous, false, now);
    FailWork(TaskSideOf(s), k, message, p);
  }

  /** An event that is not productive leaves the work alone, whatever the prices. */
  lemma IdleWork(s: System, e: Event, p: Price)
    requires SystemInv(s) && Possible(s, e) && Internal(e) && !Productive(s, e)
    ensures WorkAt(Advance(s, e), p) == WorkAt(s, p)
  {
    match e
    case Poll(now) => PollDispatches(s, now);
    case Register(_, _, _, _, _) => assert TaskSideOf(Advance(s, e)) == TaskSideOf(s);
    case Remove(_) => assert TaskSideOf(Advance(s, e)) == TaskSideOf(s);
    case SetStatus(_, _, _) => assert TaskSideOf(Advance(s, e)) == TaskSideOf(s);
  }

  /** The exact condition, at any prices: a step lowers the work if and only if it pays. */
  lemma DropsIff(s: System, e: Event, p: Price)
    requires SystemInv(s) && Possible(s, e) && Internal(e)
    ensures WorkAt(Advance(s, e), p) < WorkAt(s, p) <==> Pays(s, e, p)
  {
    if !Productive(s, e) {
      IdleWork(s, e, p);
    } else {
      match e
      case Poll(now) =>
        PollDispatches(s, now);
        DispatchWork(TaskSideOf(s), p);
      case Begin(k, now) =>
        if FindsAgent(s, k) {
          FoundWork(s, k, now, p);
        } else {
          UnfoundWork(s, k, now, p);
        }
      case Finish(k, result, now) => FinishWork(s, k, result, now, p);
      case Error(k, message, now) => ErrorWork(s, k, message, now, p);
    }
  }

  lemma FinePays(s: System, e: Event)
    requires Possible(s, e)
    ensures Pays(s, e, FINE) <==> Productive(s, e)
  {
  }

  lemma CoarsePays(s: System, e: Event)
    requires Possible(s, e)
    ensures Pays(s, e, COARSE) <==> Productive(s, e) && !(e.Begin? && s.runs[e.k].task.target in s.registry.agents)
  {
  }

  /** Every productive event lowers the work that is left; other internal events leave it alone. */
  lemma StepWork(s: System, e: Event)
    requires SystemInv(s) && Possible(s, e) && Internal(e)
    ensures if Productive(s, e) then WorkOf(Advance(s, e)) < WorkOf(s) else WorkOf(Advance(s, e)) == WorkOf(s)
  {
    if Productive(s, e) {
      FinePays(s, e);
      DropsIff(s, e, FINE);
    } else {
      IdleWork(s, e, FINE);
    }
  }

  /** Two for a dispatch and one for waiting go down at every productive step but one: a begin that finds
      its agent. */
  lemma CoarseDropsIff(s: System, e: Event)
    requires SystemInv(s) && Possible(s, e) && Internal(e)
    ensures WorkAt(Advance(s, e), COARSE) < WorkAt(s, COARSE)
       <==> Productive(s, e) && !(e.Begin? && s.runs[e.k].task.target in s.registry.agents)
  {
    CoarsePays(s, e);
    DropsIff(s, e, COARSE);
  }

  /** The witness: such a begin leaves that measure as it is, while the work goes down. */
  lemma CoarseWorkStalls(s: System, k: nat, now: int)
    requires SystemInv(s) && k in s.runs && s.runs[k].Spawned? && s.runs[k].task.target in s.registry.agents
    ensures var s' := BeginExecution(s, k, now);
            WorkAt(s', COARSE) == WorkAt(s, COARSE) && WorkOf(s') < WorkOf(s)
  {
    FoundWork(s, k, now, COARSE);
    FoundWork(s, k, now, FINE);
  }

  ghost function ProductiveSteps(s: System, events: seq<Event>): nat
    requires Feasible(s, events)
    decreases |events|
  {
    if events == [] then 0
    else (if Productive(s, events[0]) then 1 else 0) + ProductiveSteps(Apply(s, events[0]), events[1..])
  }

  /** Without new submissions and crashes, the number of productive steps of any run is bounded by the
      work there is at its start. */
  lemma {:induction false} WorkBoundsRuns(s: System, events: seq<Event>)
    requires SystemInv(s) && Feasible(s, events) && forall e :: e in events ==> Internal(e)
    ensures ProductiveSteps(s, events) + WorkOf(Run(s, events)) <= WorkOf(s)
    ensures SystemInv(Run(s, events))
    decreases |events|
  {
    if events != [] {
      assert Internal(events[0]);
      StepWork(s, events[0]);
      StepKeepsInv(s, events[0]);
      WorkBoundsRuns(Apply(s, events[0]), events[1..]);
    }
  }

  /** The engine can make progress exactly as long as a task of the default queue is live. */
  lemma ProgressWhileLive(s: System)
    requires SystemInv(s)
    ensures (exists e :: Possible(s, e) && Productive(s, e))
       <==> (exists id :: id in s.tasks && s.tasks[id].queue == DEFAULT_QUEUE && !s.tasks[id].status.Terminal())
  {
    if e :| Possible(s, e) && Productive(s, e) {
      LiveTask(s, e);
    }
    if id :| id in s.tasks && s.tasks[id].queue == DEFAULT_QUEUE && !s.tasks[id].status.Terminal() {
      var ts := TaskSideOf(s);
      assert LiveOk(ts, id);
      if InQueue(ts, id) {
        assert Possible(s, Poll(0)) && Productive(s, Poll(0));
      } else {
        var k :| k in ts.runs && ts.runs[k].task.id == id;
        var e := if s.runs[k].Spawned? then Begin(k, 0) else Finish(k, Null, 0);
        assert Possible(s, e) && Productive(s, e);
      }
    }
  }

  lemma LiveTask(s: System, e: Event)
    requires SystemInv(s) && Possible(s, e) && Productive(s, e)
    ensures exists id :: id in s.tasks && s.tasks[id].queue == DEFAULT_QUEUE && !s.tasks[id].status.Terminal()
  {
    var ts := TaskSideOf(s);
    if e.Poll? {
      var w := QueueOf(s.scheduler.queues, DEFAULT_QUEUE);
      assert w[0] in w && EntryOk(ts, DEFAULT_QUEUE, w[0]);
      var id := w[0].item.id;
      assert id in s.tasks && s.tasks[id].queue == DEFAULT_QUEUE && !s.tasks[id].status.Terminal();
    } else {
      RunFacts(ts, e.k);
      var id := s.runs[e.k].task.id;
      assert id in s.tasks && s.tasks[id].queue == DEFAULT_QUEUE && !s.tasks[id].status.Terminal();
    }
  }

  lemma FoundBegins(s: System, k: nat, now: int)
    requires k in s.runs && s.runs[k].task.target in s.registry.agents
    ensures var t := s.runs[k].task;
            BeginExecution(s, k, now).runs == s.runs[k := Executing(t, s.registry.agents[t.target].status)]
    ensures BeginExecution(s, k, now).scheduler == s.scheduler
  {
  }

  lemma UnfoundBegins(s: System, k: nat, now: int)
    requires k in s.runs && s.runs[k].task.target !in s.registry.agents
    ensures BeginExecution(s, k, now).scheduler == Fail(s.scheduler, s.runs[k].task.id).0
  {
  }

  lemma FailLeavesQueue(s: Scheduler, id: TaskId, q: string)
    requires id in s.inFlight && s.inFlight[id].queue != q
    ensures QueueOf(Fail(s, id).0.queues, q) == QueueOf(s.queues, q)
  {
  }

  lemma BeginLeavesQueues(s: System, k: nat, now: int, q: string)
    requires SystemInv(s) && k in s.runs && s.runs[k].Spawned? && q != DEFAULT_QUEUE
    ensures QueueOf(BeginExecution(s, k, now).scheduler.queues, q) == QueueOf(s.scheduler.queues, q)
  {
    RunFacts(TaskSideOf(s), k);
    if s.runs[k].task.target in s.registry.agents {
      FoundBegins(s, k, now);
    } else {
      UnfoundBegins(s, k, now);
      FailLeavesQueue(s.scheduler, s.runs[k].task.id, q);
    }
  }

  /** The heap of any other queue is changed by nothing but submissions to that queue. */
  lemma OtherQueuesAreLeftAlone(s: System, e: Event, q: string)
    requires SystemInv(s) && Possible(s, e) && q != DEFAULT_QUEUE && (e.Submit? ==> e.queue != q)
    ensures QueueOf(Advance(s, e).scheduler.queues, q) == QueueOf(s.scheduler.queues, q)
  {
    match e
    case Poll(now) => PollDispatches(s, now);
    case Begin(k, now) => BeginLeavesQueues(s, k, now, q);
    case Finish(k, _, _) => RunFacts(TaskSideOf(s), k);
    case Error(k, _, _) => RunFacts(TaskSideOf(s), k);
    case _ =>
  }
}
