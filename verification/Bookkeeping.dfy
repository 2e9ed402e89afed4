/** The books of one process lifetime: dispatches and retries of tasks against the metrics of agents. */
module Bookkeeping {
  import opened Prelude
  import opened Records
  import opened StableQueue
  import opened Scheduling
  import opened TaskQueues
  import opened Lifecycle
  import opened TaskInvariant
  import opened LifecycleInvariant
  import opened Sums
  import Registry

  /** What an observer writes down since the process started. */
  datatype Ledger = Ledger(
    dispatches: map<TaskId, nat>,
    retries: map<TaskId, nat>,
    completed: set<TaskId>,
    failed: set<TaskId>,
    errorsBefore: map<Id, nat>,
    completedBefore: map<Id, nat>,
    issued: set<Id>)

  datatype Books = Books(s: System, l: Ledger)

  /** The observer's start: agents have the metrics they were loaded with. */
  function OpenLedger(s: System, issued: set<Id>): Ledger {
    Ledger(map[], map[], {}, {},
           map a | a in s.registry.agents :: s.registry.agents[a].errors,
           map a | a in s.registry.agents :: s.registry.agents[a].completed,
           issued)
  }

  function Bump(m: map<TaskId, nat>, id: TaskId): map<TaskId, nat> {
    m[id := Count(m, id) + 1]
  }

  /** One failure of task `id`. */
  function NoteFailure(l: Ledger, s': System, id: TaskId): Ledger {
    l.(retries := Bump(l.retries, id),
       failed := if id in s'.tasks && s'.tasks[id].status.Failed? then l.failed + {id} else l.failed)
  }

  /** What the observer writes down when `e` takes `s` to `s'`. */
  ghost function Note(l: Ledger, s: System, e: Event, s': System): Ledger
    requires Possible(s, e)
  {
    match e
    case Poll(_) =>
      if s'.spawned > s.spawned && s.spawned in s'.runs
          then l.(dispatches := Bump(l.dispatches, s'.runs[s.spawned].task.id)) else l
    case Begin(k, _) => if k in s'.runs then l else NoteFailure(l, s', s.runs[k].task.id)
    case Finish(k, _, _) => l.(completed := l.completed + {s.runs[k].task.id})
    case Error(k, _, _) => NoteFailure(l, s', s.runs[k].task.id)
    case Register(agent, _, _, _, _) =>
      l.(errorsBefore := l.errorsBefore[agent := 0], completedBefore := l.completedBefore[agent := 0],
         issued := l.issued + {agent})
    case _ => l
  }

  /** Agent ids are never issued twice. */
  ghost predicate Allowed(b: Books, e: Event) {
    Possible(b.s, e) && (e.Register? ==> e.agent !in b.l.issued)
  }

  ghost function Book(b: Books, e: Event): Books
    requires Allowed(b, e)
  {
    Books(Advance(b.s, e), Note(b.l, b.s, e, Advance(b.s, e)))
  }

  // ---------- The invariant of tasks ----------

  predicate EntryBooked(l: Ledger, e: Waiting<Task>) {
    Count(l.retries, e.item.id) == e.item.retries == Count(l.dispatches, e.item.id)
  }

  predicate FlightBooked(l: Ledger, t: Task) {
    Count(l.retries, t.id) == t.retries && Count(l.dispatches, t.id) == t.retries + 1
  }

  /** Tasks that ended in this lifetime were dispatched for every retry and once more, unless the last
      dispatch failed too; others were not dispatched. */
  ghost predicate EndBooked(b: Books, id: TaskId)
    requires id in b.s.tasks
  {
    var r, d, n := Count(b.l.retries, id), Count(b.l.dispatches, id), b.s.scheduler.maxRetries;
    if id in b.l.failed then b.s.tasks[id].status.Failed? && d == n + 1 && r == n + 1 && id !in b.l.completed
    else if id in b.l.completed then b.s.tasks[id].status.Completed? && d == r + 1 && r <= n
    else b.s.tasks[id].status.Terminal() ==> d == 0 && r == 0
  }

  ghost predicate EntriesBooked(s: Scheduler, l: Ledger) {
    forall q, e :: q in s.queues && e in s.queues[q] ==> EntryBooked(l, e)
  }

  ghost predicate FlightsBooked(s: Scheduler, l: Ledger) {
    forall id :: id in s.inFlight ==> FlightBooked(l, s.inFlight[id])
  }

  ghost predicate EndsBooked(b: Books) {
    && (forall id :: id in b.s.tasks ==> EndBooked(b, id))
    && b.l.retries.Keys <= b.s.tasks.Keys && b.l.dispatches.Keys <= b.s.tasks.Keys
    && b.l.completed <= b.s.tasks.Keys && b.l.failed <= b.s.tasks.Keys
  }

  ghost predicate TasksBooked(b: Books) {
    EntriesBooked(b.s.scheduler, b.l) && FlightsBooked(b.s.scheduler, b.l) && EndsBooked(b)
  }

  lemma PollTasksBooked(b: Books, now: int)
    requires SystemInv(b.s) && TasksBooked(b)
    ensures TasksBooked(Book(b, Poll(now)))
  {
    var ts := TaskSideOf(b.s);
    var w := QueueOf(ts.scheduler.queues, DEFAULT_QUEUE);
    PollDispatches(b.s, now);
    DispatchRuns(ts);
    var b' := Book(b, Poll(now));
    assert TaskSideOf(b'.s) == Dispatched(ts);
    if w != [] {
      PollBooks(b, now);
    } else {
      assert b' == b;
    }
  }

  lemma PollBooks(b: Books, now: int)
    requires SystemInv(b.s) && TasksBooked(b)
    requires QueueOf(b.s.scheduler.queues, DEFAULT_QUEUE) != []
    ensures TasksBooked(Book(b, Poll(now)))
  {
    var w := QueueOf(b.s.scheduler.queues, DEFAULT_QUEUE);
    PollDispatches(b.s, now);
    var b' := Book(b, Poll(now));
    var id := w[0].item.id;
    assert b'.l == b.l.(dispatches := Bump(b.l.dispatches, id));
    assert w[0] in w && EntryBooked(b.l, w[0]) && EntryOk(TaskSideOf(b.s), DEFAULT_QUEUE, w[0]);
    TakenEntriesBooked(b, b'.l);
    TakenEndsBooked(b, b', id);
  }

  /** What is left in the queues after a dispatch was there before, and is not the dispatched task. */
  lemma LeftInQueues(ts: TaskSide)
    requires Inv(ts) && QueueOf(ts.scheduler.queues, DEFAULT_QUEUE) != []
    ensures var s' := Take(ts.scheduler, DEFAULT_QUEUE).0;
            var id := QueueOf(ts.scheduler.queues, DEFAULT_QUEUE)[0].item.id;
            forall q, e :: q in s'.queues && e in s'.queues[q] ==> e in ts.scheduler.queues[q] && e.item.id != id
  {
    var w := QueueOf(ts.scheduler.queues, DEFAULT_QUEUE);
    assert EntryOk(ts, DEFAULT_QUEUE, w[0]);
    RestIds(w);
    var s' := Take(ts.scheduler, DEFAULT_QUEUE).0;
    forall q, e | q in s'.queues && e in s'.queues[q]
      ensures e in ts.scheduler.queues[q] && e.item.id != w[0].item.id
    {
      if q != DEFAULT_QUEUE {
        assert EntryOk(ts, q, e);
      }
    }
  }

  lemma TakenEntriesBooked(b: Books, l': Ledger)
    requires SystemInv(b.s) && TasksBooked(b)
    requires var w := QueueOf(b.s.scheduler.queues, DEFAULT_QUEUE);
             w != [] && l' == b.l.(dispatches := Bump(b.l.dispatches, w[0].item.id))
    ensures EntriesBooked(Take(b.s.scheduler, DEFAULT_QUEUE).0, l')
    ensures FlightsBooked(Take(b.s.scheduler, DEFAULT_QUEUE).0, l')
  {
    var w := QueueOf(b.s.scheduler.queues, DEFAULT_QUEUE);
    var s' := Take(b.s.scheduler, DEFAULT_QUEUE).0;
    LeftInQueues(TaskSideOf(b.s));
    assert w[0] in b.s.scheduler.queues[DEFAULT_QUEUE] && EntryBooked(b.l, w[0]);
    assert EntryOk(TaskSideOf(b.s), DEFAULT_QUEUE, w[0]);
    assert EntriesBooked(s', b.l);
    OtherEntriesBooked(s', b.l, l', w[0].item.id);
    TakenFlightBooked(b, l', w[0].item);
  }

  lemma TakenFlightBooked(b: Books, l': Ledger, t: Task)
    requires SystemInv(b.s) && FlightsBooked(b.s.scheduler, b.l) && LedgersAgree(b.l, l', t.id)
    requires FlightBooked(l', t) && t.id !in b.s.scheduler.inFlight
    ensures FlightsBooked(b.s.scheduler.(inFlight := b.s.scheduler.inFlight[t.id := t]), l')
  {
    forall x | x in b.s.scheduler.inFlight
      ensures FlightBooked(l', b.s.scheduler.inFlight[x])
    {
      assert FlyingOk(TaskSideOf(b.s), x, b.s.scheduler.inFlight[x]);
      assert FlightBooked(b.l, b.s.scheduler.inFlight[x]);
    }
  }

  lemma TakenEndsBooked(b: Books, b': Books, id: TaskId)
    requires EndsBooked(b) && id in b.s.tasks && !b.s.tasks[id].status.Terminal()
    requires b'.s.tasks == b.s.tasks && b'.s.scheduler.maxRetries == b.s.scheduler.maxRetries
    requires b'.l == b.l.(dispatches := Bump(b.l.dispatches, id))
    ensures EndsBooked(b')
  {
    forall x | x in b'.s.tasks
      ensures EndBooked(b', x)
    {
      assert EndBooked(b, x);
    }
  }

  /** The ledgers agree on every task but `id`. */
  ghost predicate LedgersAgree(l: Ledger, l': Ledger, id: TaskId) {
    forall x :: x != id ==>
      Count(l'.retries, x) == Count(l.retries, x) && Count(l'.dispatches, x) == Count(l.dispatches, x)
  }

  lemma OtherEntriesBooked(s: Scheduler, l: Ledger, l': Ledger, id: TaskId)
    requires EntriesBooked(s, l) && LedgersAgree(l, l', id)
    requires forall q, e :: q in s.queues && e in s.queues[q] ==> e.item.id != id
    ensures EntriesBooked(s, l')
  {
    forall q, e | q in s.queues && e in s.queues[q]
      ensures EntryBooked(l', e)
    {
      assert EntryBooked(l, e);
    }
  }

  lemma OtherFlightsBooked(ts: TaskSide, l: Ledger, l': Ledger, id: TaskId)
    requires FlightsBooked(ts.scheduler, l) && LedgersAgree(l, l', id) && FlightOk(ts)
    ensures FlightsBooked(ts.scheduler.(inFlight := ts.scheduler.inFlight - {id}), l')
  {
    forall x | x in ts.scheduler.inFlight && x != id
      ensures FlightBooked(l', ts.scheduler.inFlight[x])
    {
      assert FlightBooked(l, ts.scheduler.inFlight[x]) && FlyingOk(ts, x, ts.scheduler.inFlight[x]);
    }
  }

  /** Entries and flights of other tasks are booked as before. */
  lemma LandBooked(b: Books, k: nat, ts': TaskSide, l': Ledger, r: Record)
    requires SystemInv(b.s) && TasksBooked(b) && Lands(TaskSideOf(b.s), k, r)
    requires ts' == Landed(TaskSideOf(b.s), k, r) && LedgersAgree(b.l, l', b.s.runs[k].task.id)
    ensures EntriesBooked(ts'.scheduler, l') && FlightsBooked(ts'.scheduler, l')
  {
    var id := b.s.runs[k].task.id;
    LandQueues(TaskSideOf(b.s), k, r);
    OtherEntriesBooked(b.s.scheduler, b.l, l', id);
    OtherFlightsBooked(TaskSideOf(b.s), b.l, l', id);
  }

  lemma FinishSide(s: System, k: nat, result: Json, now: int)
    requires SystemInv(s) && k in s.runs && s.runs[k].Executing?
    ensures s.runs[k].task.id in s.tasks
    ensures TaskSideOf(FinishExecution(s, k, result, now))
         == Landed(TaskSideOf(s), k, CompletedRecord(s.tasks[s.runs[k].task.id], result, now))
  {
    CompleteKeeps(s, k, result, now);
    SettleKeeps(CompleteExecution(s, k, result, now), s.runs[k].task.target, s.runs[k].previous, true, now);
  }

  lemma FinishTasksBooked(b: Books, e: Event)
    requires SystemInv(b.s) && TasksBooked(b) && e.Finish? && Possible(b.s, e)
    ensures TasksBooked(Book(b, e))
  {
    RunFacts(TaskSideOf(b.s), e.k);
    FinishSide(b.s, e.k, e.result, e.now);
    var b' := Book(b, e);
    var id := b.s.runs[e.k].task.id;
    assert b'.l == b.l.(completed := b.l.completed + {id});
    LandedBooked(b, e.k, CompletedRecord(b.s.tasks[id], e.result, e.now), b');
  }

  lemma LandedBooked(b: Books, k: nat, r: Record, b': Books)
    requires SystemInv(b.s) && TasksBooked(b) && Lands(TaskSideOf(b.s), k, r) && r.status.Completed?
    requires TaskSideOf(b'.s) == Landed(TaskSideOf(b.s), k, r)
    requires b'.l == b.l.(completed := b.l.completed + {b.s.runs[k].task.id})
    ensures TasksBooked(b')
  {
    LandBooked(b, k, TaskSideOf(b'.s), b'.l, r);
    RunFacts(TaskSideOf(b.s), k);
    CompletedEnds(b, b.s.runs[k].task, r, b');
  }

  lemma CompletedEnds(b: Books, t: Task, r: Record, b': Books)
    requires FlightBooked(b.l, t) && EndsBooked(b) && t.id in b.s.tasks && !b.s.tasks[t.id].status.Terminal()
    requires t.retries <= b.s.scheduler.maxRetries && r.status.Completed?
    requires b'.s.tasks == b.s.tasks[t.id := r] && b'.s.scheduler.maxRetries == b.s.scheduler.maxRetries
    requires b'.l == b.l.(completed := b.l.completed + {t.id})
    ensures EndsBooked(b')
  {
    assert EndBooked(b, t.id);
    EndsAfterLanding(b, b', t.id);
  }

  lemma FailedEnds(b: Books, t: Task, r: Record, b': Books)
    requires FlightBooked(b.l, t) && EndsBooked(b) && t.id in b.s.tasks && !b.s.tasks[t.id].status.Terminal()
    requires t.retries <= b.s.scheduler.maxRetries
    requires r.status == if t.retries < b.s.scheduler.maxRetries then TaskStatus.Retrying else TaskStatus.Failed
    requires b'.s.tasks == b.s.tasks[t.id := r] && b'.s.scheduler.maxRetries == b.s.scheduler.maxRetries
    requires b'.l == NoteFailure(b.l, b'.s, t.id)
    ensures EndsBooked(b')
  {
    assert EndBooked(b, t.id);
    EndsAfterLanding(b, b', t.id);
  }

  /** Two books agree on every task but `id`. */
  ghost predicate SameButFor(b: Books, b': Books, id: TaskId) {
    && b'.s.tasks.Keys == b.s.tasks.Keys && b'.s.scheduler.maxRetries == b.s.scheduler.maxRetries
    && b'.l.dispatches == b.l.dispatches && b'.l.retries.Keys <= b.l.retries.Keys + {id}
    && b'.l.completed <= b.l.completed + {id} && b'.l.failed <= b.l.failed + {id}
    && (forall x :: x in b.s.tasks && x != id ==>
          && b'.s.tasks[x] == b.s.tasks[x]
          && Count(b'.l.retries, x) == Count(b.l.retries, x)
          && (x in b'.l.completed <==> x in b.l.completed) && (x in b'.l.failed <==> x in b.l.failed))
  }

  lemma EndsAfterLanding(b: Books, b': Books, id: TaskId)
    requires EndsBooked(b) && id in b.s.tasks && SameButFor(b, b', id) && EndBooked(b', id)
    ensures EndsBooked(b')
  {
    forall x | x in b'.s.tasks && x != id
      ensures EndBooked(b', x)
    {
      assert EndBooked(b, x);
    }
  }

  lemma RetriedEntries(s: Scheduler, l: Ledger, t: Task)
    requires EntriesBooked(s, l) && EntryBooked(l, Waiting(t, t.priority))
    ensures EntriesBooked(Push(s, t), l)
  {
    var e := Waiting(t, t.priority);
    InsertMembers(QueueOf(s.queues, t.queue), e);
    forall q, x | q in Push(s, t).queues && x in Push(s, t).queues[q]
      ensures EntryBooked(l, x)
    {
      if x != e {
        assert x in s.queues[q];
      }
    }
  }

  /** A failed execution, booked. */
  lemma FailTasksBooked(b: Books, k: nat, message: string, b': Books)
    requires SystemInv(b.s) && TasksBooked(b) && k in b.s.runs && b.s.runs[k].task.id in b.s.tasks
    requires TaskSideOf(b'.s) == Failing(TaskSideOf(b.s), k, message)
    requires b'.l == NoteFailure(b.l, b'.s, b.s.runs[k].task.id)
    ensures TasksBooked(b')
  {
    var ts := TaskSideOf(b.s);
    var t := b.s.runs[k].task;
    RunFacts(ts, k);
    var retry := t.retries < ts.scheduler.maxRetries;
    var r := FailedRecord(ts.tasks[t.id], retry, message);
    var landed := Landed(ts, k, r);
    assert TaskSideOf(b'.s).tasks == ts.tasks[t.id := r];
    LandBooked(b, k, landed, b'.l, r);
    FailedEnds(b, t, r, b');
    if retry {
      RetriedEntries(landed.scheduler, b'.l, OneMoreRetry(t));
    }
  }

  lemma SubmitTasksBooked(b: Books, e: Event)
    requires SystemInv(b.s) && TasksBooked(b) && e.Submit? && Possible(b.s, e)
    ensures TasksBooked(Book(b, e))
  {
    if e.target in b.s.registry.agents {
      var t := NewTask(e.target, e.payload, e.priority, e.queue, e.uuid, e.now);
      var b' := Book(b, e);
      InsertMembers(QueueOf(b.s.scheduler.queues, t.queue), Waiting(t, t.priority));
      forall q, x | q in b'.s.scheduler.queues && x in b'.s.scheduler.queues[q]
        ensures EntryBooked(b'.l, x)
      {
        if x != Waiting(t, t.priority) {
          assert x in b.s.scheduler.queues[q] && EntryBooked(b.l, x);
        }
      }
      forall x | x in b'.s.tasks
        ensures EndBooked(b', x)
      {
        if x != t.id {
          assert EndBooked(b, x);
        }
      }
    }
  }

  lemma BeginTasksBooked(b: Books, e: Event)
    requires SystemInv(b.s) && TasksBooked(b) && e.Begin? && Possible(b.s, e)
    ensures TasksBooked(Book(b, e))
  {
    var k := e.k;
    var t := b.s.runs[k].task;
    RunFacts(TaskSideOf(b.s), k);
    if t.target in b.s.registry.agents {
      BeginFoundBooked(b, e);
    } else {
      UnfoundSide(b.s, k, NotFound(t.target), e.now);
      FailSide(b.s, k, NotFound(t.target), e.now);
      FailTasksBooked(b, k, NotFound(t.target), Book(b, e));
    }
  }

  lemma BeginFoundBooked(b: Books, e: Event)
    requires SystemInv(b.s) && TasksBooked(b) && e.Begin? && Possible(b.s, e)
    requires b.s.runs[e.k].task.target in b.s.registry.agents
    ensures TasksBooked(Book(b, e))
  {
    RunFacts(TaskSideOf(b.s), e.k);
    var b' := Book(b, e);
    assert b'.s.scheduler == b.s.scheduler && b'.l == b.l;
    forall q, x | q in b'.s.scheduler.queues && x in b'.s.scheduler.queues[q]
      ensures EntryBooked(b'.l, x)
    {
      assert EntryBooked(b.l, x);
    }
    forall x | x in b'.s.tasks
      ensures EndBooked(b', x)
    {
      assert EndBooked(b, x);
    }
  }

  lemma ErrorTasksBooked(b: Books, e: Event)
    requires SystemInv(b.s) && TasksBooked(b) && e.Error? && Possible(b.s, e)
    ensures TasksBooked(Book(b, e))
  {
    RunFacts(TaskSideOf(b.s), e.k);
    FailSide(b.s, e.k, e.message, e.now);
    FailKeeps(b.s, e.k, e.message, e.now);
    SettleKeeps(FailExecution(b.s, e.k, e.message, e.now), b.s.runs[e.k].task.target, b.s.runs[e.k].previous, false,
        e.now);
    FailTasksBooked(b, e.k, e.message, Book(b, e));
  }

  /** Events that touch neither tasks nor scheduler. */
  lemma AgentEventBooked(b: Books, e: Event)
    requires TasksBooked(b) && Allowed(b, e) && (e.Register? || e.Remove? || e.SetStatus?)
    ensures TasksBooked(Book(b, e))
  {
    var b' := Book(b, e);
    assert b'.s.scheduler == b.s.scheduler && b'.s.tasks == b.s.tasks;
    forall q, x | q in b'.s.scheduler.queues && x in b'.s.scheduler.queues[q]
      ensures EntryBooked(b'.l, x)
    {
      assert EntryBooked(b.l, x);
    }
    forall x | x in b'.s.tasks
      ensures EndBooked(b', x)
    {
      assert EndBooked(b, x);
    }
  }

  lemma BookKeepsTasks(b: Books, e: Event)
    requires SystemInv(b.s) && TasksBooked(b) && Allowed(b, e)
    ensures TasksBooked(Book(b, e))
  {
    match e
    case Submit(_, _, _, _, _, _) => SubmitTasksBooked(b, e);
    case Poll(now) => PollTasksBooked(b, now);
    case Begin(_, _) => BeginTasksBooked(b, e);
    case Finish(_, _, _) => FinishTasksBooked(b, e);
    case Error(_, _, _) => ErrorTasksBooked(b, e);
    case _ => AgentEventBooked(b, e);
  }

  // ---------- The invariant of agents ----------

  /** The retry counters of the tasks that target an agent. */
  ghost function RetriesOf(b: Books, agent: Id): map<TaskId, nat> {
    map id | id in b.l.retries && id in b.s.tasks && b.s.tasks[id].target == agent :: b.l.retries[id]
  }

  /** The tasks of an agent that became completed in this lifetime. */
  ghost function CompletedOf(b: Books, agent: Id): set<TaskId> {
    set id | id in b.l.completed && id in b.s.tasks && b.s.tasks[id].target == agent
  }

  /** Double entry: the agent's errors grew by the retries of its tasks, its completions by its completed tasks. */
  ghost predicate AgentBooked(b: Books, agent: Id)
    requires agent in b.s.registry.agents
  {
    var row := b.s.registry.agents[agent];
    && agent in b.l.errorsBefore && agent in b.l.completedBefore
    && row.errors == b.l.errorsBefore[agent] + Sum(RetriesOf(b, agent))
    && row.completed == b.l.completedBefore[agent] + |CompletedOf(b, agent)|
  }

  ghost predicate AgentsBooked(b: Books) {
    && b.s.registry.agents.Keys <= b.l.issued
    && (forall id :: id in b.s.tasks ==> b.s.tasks[id].target in b.l.issued)
    && (forall a :: a in b.s.registry.agents ==> AgentBooked(b, a))
  }

  /** Every task of `b` is a task of `b'` with the same agent. */
  ghost predicate SameTargets(b: Books, b': Books) {
    && b.l.retries.Keys <= b.s.tasks.Keys && b.l.completed <= b.s.tasks.Keys
    && forall id :: id in b.s.tasks ==> id in b'.s.tasks && b'.s.tasks[id].target == b.s.tasks[id].target
  }

  /** The agent keeps its metrics, with so many more errors and completions. */
  ghost predicate MetricsGrow(b: Books, b': Books, agent: Id, errors: nat, completed: nat) {
    && agent in b.s.registry.agents && agent in b'.s.registry.agents
    && b'.s.registry.agents[agent].errors == b.s.registry.agents[agent].errors + errors
    && b'.s.registry.agents[agent].completed == b.s.registry.agents[agent].completed + completed
    && b'.l.errorsBefore == b.l.errorsBefore && b'.l.completedBefore == b.l.completedBefore
  }

  lemma NothingBooked(b: Books, b': Books, agent: Id)
    requires SameTargets(b, b') && b'.l.retries == b.l.retries && b'.l.completed == b.l.completed
    requires MetricsGrow(b, b', agent, 0, 0) && AgentBooked(b, agent)
    ensures AgentBooked(b', agent)
  {
    assert RetriesOf(b', agent) == RetriesOf(b, agent);
    assert CompletedOf(b', agent) == CompletedOf(b, agent);
  }

  lemma FailureBooked(b: Books, b': Books, agent: Id, id: TaskId)
    requires SameTargets(b, b') && id in b.s.tasks
    requires b'.l.retries == Bump(b.l.retries, id) && b'.l.completed == b.l.completed
    requires MetricsGrow(b, b', agent, if b.s.tasks[id].target == agent then 1 else 0, 0) && AgentBooked(b, agent)
    ensures AgentBooked(b', agent)
  {
    assert CompletedOf(b', agent) == CompletedOf(b, agent);
    var m := RetriesOf(b, agent);
    if b.s.tasks[id].target == agent {
      assert RetriesOf(b', agent) == m[id := Count(m, id) + 1];
      SumUpdate(m, id, Count(m, id) + 1);
    } else {
      assert RetriesOf(b', agent) == m;
    }
  }

  lemma CompletionBooked(b: Books, b': Books, agent: Id, id: TaskId)
    requires SameTargets(b, b') && id in b.s.tasks && id !in b.l.completed
    requires b'.l.retries == b.l.retries && b'.l.completed == b.l.completed + {id}
    requires MetricsGrow(b, b', agent, 0, if b.s.tasks[id].target == agent then 1 else 0) && AgentBooked(b, agent)
    ensures AgentBooked(b', agent)
  {
    assert RetriesOf(b', agent) == RetriesOf(b, agent);
    var c := CompletedOf(b, agent);
    assert CompletedOf(b', agent) == if b.s.tasks[id].target == agent then c + {id} else c;
  }

  lemma QuietAgentsBooked(b: Books, b': Books)
    requires AgentsBooked(b) && SameTargets(b, b') && b'.l == b.l.(dispatches := b'.l.dispatches)
    requires b'.s.registry.agents.Keys <= b.s.registry.agents.Keys
    requires forall a :: a in b'.s.registry.agents ==> MetricsGrow(b, b', a, 0, 0)
    requires forall id :: id in b'.s.tasks ==> b'.s.tasks[id].target in b.l.issued
    ensures AgentsBooked(b')
  {
    forall a | a in b'.s.registry.agents
      ensures AgentBooked(b', a)
    {
      assert AgentBooked(b, a);
      NothingBooked(b, b', a);
    }
  }

  /** The systems have the same tasks with the same agents, and the same agents, of which only `target`
      grew its metrics. */
  ghost predicate OnlyCharges(s: System, s': System, target: Id, errors: nat, completed: nat) {
    && s'.tasks.Keys == s.tasks.Keys && s'.registry.agents.Keys == s.registry.agents.Keys
    && (forall id :: id in s.tasks ==> s'.tasks[id].target == s.tasks[id].target)
    && (forall a :: a in s.registry.agents ==>
          var row, row' := s.registry.agents[a], s'.registry.agents[a];
          && row'.errors == row.errors + (if a == target then errors else 0)
          && row'.completed == row.completed + (if a == target then completed else 0))
  }

  lemma FailCharges(s: System, k: nat, message: string, now: int, target: Id)
    requires SystemInv(s) && k in s.runs
    ensures OnlyCharges(s, FailExecution(s, k, message, now), target, 0, 0)
  {
    RunFacts(TaskSideOf(s), k);
  }

  lemma CompleteCharges(s: System, k: nat, result: Json, now: int, target: Id)
    requires SystemInv(s) && k in s.runs
    ensures OnlyCharges(s, CompleteExecution(s, k, result, now), target, 0, 0)
  {
    RunFacts(TaskSideOf(s), k);
  }

  lemma SettleCharges(s0: System, s: System, id: Id, previous: AgentStatus, good: bool, now: int)
    requires OnlyCharges(s0, s, id, 0, 0) && Registry.RowsKeyed(s.registry.agents)
    ensures OnlyCharges(s0, Settle(s, id, previous, good, now), id, if good then 0 else 1, if good then 1 else 0)
  {
    if id in s.registry.agents {
      var row := Settled(s.registry.agents[id], previous, good, now);
      assert Settle(s, id, previous, good, now).registry.agents == s.registry.agents[id := row];
      assert Settle(s, id, previous, good, now).tasks == s.tasks;
    }
  }

  lemma ErrorCharges(s: System, k: nat, message: string, now: int)
    requires SystemInv(s) && k in s.runs && s.runs[k].Executing?
    ensures OnlyCharges(s, ErrorInExecution(s, k, message, now), s.runs[k].task.target, 1, 0)
  {
    var target := s.runs[k].task.target;
    FailCharges(s, k, message, now, target);
    FailKeeps(s, k, message, now);
    SettleCharges(s, FailExecution(s, k, message, now), target, s.runs[k].previous, false, now);
  }

  lemma FinishCharges(s: System, k: nat, result: Json, now: int)
    requires SystemInv(s) && k in s.runs && s.runs[k].Executing?
    ensures OnlyCharges(s, FinishExecution(s, k, result, now), s.runs[k].task.target, 0, 1)
  {
    var target := s.runs[k].task.target;
    CompleteCharges(s, k, result, now, target);
    CompleteKeeps(s, k, result, now);
    SettleCharges(s, CompleteExecution(s, k, result, now), target, s.runs[k].previous, true, now);
  }

  lemma BeginCharges(s: System, k: nat, now: int)
    requires SystemInv(s) && k in s.runs && s.runs[k].Spawned?
    ensures OnlyCharges(s, BeginExecution(s, k, now), s.runs[k].task.target, 0, 0)
  {
    RunFacts(TaskSideOf(s), k);
    var t := s.runs[k].task;
    if t.target !in s.registry.agents {
      UnfoundSide(s, k, NotFound(t.target), now);
      FailCharges(s, k, NotFound(t.target), now, t.target);
    }
  }

  lemma FailureAgentsBooked(b: Books, b': Books, id: TaskId)
    requires AgentsBooked(b) && EndsBooked(b) && id in b.s.tasks
    requires b'.l == NoteFailure(b.l, b'.s, id) && OnlyCharges(b.s, b'.s, b.s.tasks[id].target, 1, 0)
    ensures AgentsBooked(b')
  {
    forall a | a in b'.s.registry.agents
      ensures AgentBooked(b', a)
    {
      assert AgentBooked(b, a);
      FailureBooked(b, b', a, id);
    }
  }

  lemma ChargelessAgentsBooked(b: Books, b': Books, target: Id)
    requires AgentsBooked(b) && EndsBooked(b) && b'.l == b.l && OnlyCharges(b.s, b'.s, target, 0, 0)
    ensures AgentsBooked(b')
  {
    forall a | a in b'.s.registry.agents
      ensures AgentBooked(b', a)
    {
      assert AgentBooked(b, a);
      NothingBooked(b, b', a);
    }
  }

  lemma ErrorAgentsBooked(b: Books, e: Event)
    requires SystemInv(b.s) && TasksBooked(b) && AgentsBooked(b) && e.Error? && Possible(b.s, e)
    ensures AgentsBooked(Book(b, e))
  {
    RunFacts(TaskSideOf(b.s), e.k);
    ErrorCharges(b.s, e.k, e.message, e.now);
    FailureAgentsBooked(b, Book(b, e), b.s.runs[e.k].task.id);
  }

  lemma CompletionAgentsBooked(b: Books, b': Books, id: TaskId)
    requires AgentsBooked(b) && EndsBooked(b) && id in b.s.tasks && id !in b.l.completed
    requires b'.l == b.l.(completed := b.l.completed + {id}) && OnlyCharges(b.s, b'.s, b.s.tasks[id].target, 0, 1)
    ensures AgentsBooked(b')
  {
    forall a | a in b'.s.registry.agents
      ensures AgentBooked(b', a)
    {
      assert AgentBooked(b, a);
      CompletionBooked(b, b', a, id);
    }
  }

  lemma FinishAgentsBooked(b: Books, e: Event)
    requires SystemInv(b.s) && TasksBooked(b) && AgentsBooked(b) && e.Finish? && Possible(b.s, e)
    ensures AgentsBooked(Book(b, e))
  {
    RunFacts(TaskSideOf(b.s), e.k);
    FinishCharges(b.s, e.k, e.result, e.now);
    var id := b.s.runs[e.k].task.id;
    assert EndBooked(b, id);
    CompletionAgentsBooked(b, Book(b, e), id);
  }

  lemma BeginAgentsBooked(b: Books, e: Event)
    requires SystemInv(b.s) && TasksBooked(b) && AgentsBooked(b) && e.Begin? && Possible(b.s, e)
    ensures AgentsBooked(Book(b, e))
  {
    var t := b.s.runs[e.k].task;
    RunFacts(TaskSideOf(b.s), e.k);
    BeginCharges(b.s, e.k, e.now);
    var b' := Book(b, e);
    if t.target in b.s.registry.agents {
      assert b'.l == b.l;
      ChargelessAgentsBooked(b, b', t.target);
    } else {
      assert b'.l == NoteFailure(b.l, b'.s, t.id);
      FailureAgentsBooked(b, b', t.id);
    }
  }

  lemma RegisterAgentsBooked(b: Books, e: Event)
    requires SystemInv(b.s) && TasksBooked(b) && AgentsBooked(b) && e.Register? && Allowed(b, e)
    ensures AgentsBooked(Book(b, e))
  {
    var b' := Book(b, e);
    assert RetriesOf(b', e.agent) == map[];
    assert CompletedOf(b', e.agent) == {};
    forall a | a in b'.s.registry.agents && a != e.agent
      ensures AgentBooked(b', a)
    {
      assert AgentBooked(b, a);
      assert RetriesOf(b', a) == RetriesOf(b, a);
      assert CompletedOf(b', a) == CompletedOf(b, a);
    }
  }

  lemma SubmitAgentsBooked(b: Books, e: Event)
    requires SystemInv(b.s) && TasksBooked(b) && AgentsBooked(b) && e.Submit? && Possible(b.s, e)
    ensures AgentsBooked(Book(b, e))
  {
    QuietAgentsBooked(b, Book(b, e));
  }

  lemma BookKeepsAgents(b: Books, e: Event)
    requires SystemInv(b.s) && TasksBooked(b) && AgentsBooked(b) && Allowed(b, e)
    ensures AgentsBooked(Book(b, e))
  {
    match e
    case Submit(_, _, _, _, _, _) => SubmitAgentsBooked(b, e);
    case Poll(_) => QuietAgentsBooked(b, Book(b, e));
    case Begin(_, _) => BeginAgentsBooked(b, e);
    case Finish(_, _, _) => FinishAgentsBooked(b, e);
    case Error(_, _, _) => ErrorAgentsBooked(b, e);
    case Register(_, _, _, _, _) => RegisterAgentsBooked(b, e);
    case Remove(_) => QuietAgentsBooked(b, Book(b, e));
    case SetStatus(_, _, _) => QuietAgentsBooked(b, Book(b, e));
  }

  // ---------- Whole lifetimes ----------

  ghost predicate Booked(b: Books) {
    SystemInv(b.s) && TasksBooked(b) && AgentsBooked(b)
  }

  ghost predicate AllowedRun(b: Books, events: seq<Event>)
    decreases |events|
  {
    events == [] || (Allowed(b, events[0]) && AllowedRun(Book(b, events[0]), events[1..]))
  }

  /** The books after a run of one process. */
  ghost function BookAll(b: Books, events: seq<Event>): Books
    requires AllowedRun(b, events)
    decreases |events|
  {
    if events == [] then b else BookAll(Book(b, events[0]), events[1..])
  }

  lemma {:induction false} LifetimeBooked(b: Books, events: seq<Event>)
    requires Booked(b) && AllowedRun(b, events)
    ensures Booked(BookAll(b, events))
    decreases |events|
  {
    if events != [] {
      AdvanceKeepsInv(b.s, events[0]);
      BookKeepsTasks(b, events[0]);
      BookKeepsAgents(b, events[0]);
      LifetimeBooked(Book(b, events[0]), events[1..]);
    }
  }

  /** A process that has just started: nothing in flight, no retries spent. */
  ghost predicate JustStarted(s: System) {
    && SystemInv(s) && s.scheduler.inFlight == map[]
    && forall q, e :: q in s.scheduler.queues && e in s.scheduler.queues[q] ==> e.item.retries == 0
  }

  lemma RestartJustStarted(maxRetries: nat, disk: Option<Disk>, taskOrder: seq<TaskId>, agentOrder: seq<Id>, now: int)
    requires Readable(disk)
    requires disk.Some? ==>
               Enumerates(taskOrder, disk.value.tasks.Keys) && Enumerates(agentOrder, disk.value.agents.Keys)
    ensures JustStarted(RestartFrom(maxRetries, disk, taskOrder, agentOrder, now))
  {
    RestartFromKeeps(maxRetries, disk, taskOrder, agentOrder, now);
    var s' := RestartFrom(maxRetries, disk, taskOrder, agentOrder, now);
    forall q, e | q in s'.scheduler.queues && e in s'.scheduler.queues[q]
      ensures e.item.retries == 0
    {
      assert disk.Some? && FreshEntry(e, now);
    }
  }

  lemma OpenBooked(s: System, issued: set<Id>)
    requires JustStarted(s) && s.registry.agents.Keys <= issued
    requires forall id :: id in s.tasks ==> s.tasks[id].target in issued
    ensures Booked(Books(s, OpenLedger(s, issued)))
  {
    var b := Books(s, OpenLedger(s, issued));
    forall a | a in s.registry.agents
      ensures AgentBooked(b, a)
    {
      assert RetriesOf(b, a) == map[] && CompletedOf(b, a) == {};
    }
  }

  /** The retries in the ledger are the counters in the task dicts, as long as a task waits or is in flight. */
  ghost predicate LedgerIsTrue(b: Books) {
    && (forall q, e :: q in b.s.scheduler.queues && e in b.s.scheduler.queues[q] ==>
          Count(b.l.retries, e.item.id) == e.item.retries)
    && (forall id :: id in b.s.scheduler.inFlight ==> Count(b.l.retries, id) == b.s.scheduler.inFlight[id].retries)
  }

  lemma BookedIsTrue(b: Books)
    requires Booked(b)
    ensures LedgerIsTrue(b)
  {
    forall q, e | q in b.s.scheduler.queues && e in b.s.scheduler.queues[q]
      ensures Count(b.l.retries, e.item.id) == e.item.retries
    {
      assert EntryBooked(b.l, e);
    }
    forall id | id in b.s.scheduler.inFlight
      ensures Count(b.l.retries, id) == b.s.scheduler.inFlight[id].retries
    {
      assert FlyingOk(TaskSideOf(b.s), id, b.s.scheduler.inFlight[id]);
      assert FlightBooked(b.l, b.s.scheduler.inFlight[id]);
    }
  }

  /** Double-entry bookkeeping: over any interleaving in one process lifetime, the errors of a
      registered agent grew by the sum of the retry counters of its tasks, and its completions by the
      number of its tasks that became completed. */
  lemma DoubleEntry(s: System, issued: set<Id>, events: seq<Event>, agent: Id)
    requires JustStarted(s) && s.registry.agents.Keys <= issued
    requires forall id :: id in s.tasks ==> s.tasks[id].target in issued
    requires AllowedRun(Books(s, OpenLedger(s, issued)), events)
    requires var b := BookAll(Books(s, OpenLedger(s, issued)), events); agent in b.s.registry.agents
    ensures var b := BookAll(Books(s, OpenLedger(s, issued)), events);
            && agent in b.l.errorsBefore && agent in b.l.completedBefore
            && b.s.registry.agents[agent].errors - b.l.errorsBefore[agent] == Sum(RetriesOf(b, agent))
            && b.s.registry.agents[agent].completed - b.l.completedBefore[agent] == |CompletedOf(b, agent)|
    ensures LedgerIsTrue(BookAll(Books(s, OpenLedger(s, issued)), events))
  {
    OpenBooked(s, issued);
    LifetimeBooked(Books(s, OpenLedger(s, issued)), events);
    BookedIsTrue(BookAll(Books(s, OpenLedger(s, issued)), events));
    assert AgentBooked(BookAll(Books(s, OpenLedger(s, issued)), events), agent);
  }

  /** What the books say about the dispatches of a task. */
  ghost predicate WithinBudget(b: Books, id: TaskId) {
    var d, n := Count(b.l.dispatches, id), b.s.scheduler.maxRetries;
    && d <= n + 1
    && (id in b.l.failed ==> d == n + 1 && id in b.s.tasks && b.s.tasks[id].status.Failed?)
    && (id in b.l.completed ==> d == Count(b.l.retries, id) + 1 && id in b.s.tasks && b.s.tasks[id].status.Completed?)
    && (id in b.s.tasks && b.s.tasks[id].status.Terminal() && d > 0 ==> id in b.l.failed || id in b.l.completed)
  }

  lemma LiveWithinBudget(b: Books, id: TaskId)
    requires Booked(b) && id in b.s.tasks && !b.s.tasks[id].status.Terminal()
    ensures WithinBudget(b, id)
  {
    var ts := TaskSideOf(b.s);
    assert LiveOk(ts, id) && EndBooked(b, id);
    if InQueue(ts, id) {
      var e :| e in QueueOf(ts.scheduler.queues, ts.tasks[id].queue) && e.item.id == id;
      assert EntryBooked(b.l, e) && EntryOk(ts, ts.tasks[id].queue, e);
    } else {
      assert FlightBooked(b.l, ts.scheduler.inFlight[id]) && FlyingOk(ts, id, ts.scheduler.inFlight[id]);
    }
  }

  /** Retry budget: in one process lifetime a task is dispatched at most maxRetries + 1 times, exactly
      that many times if it failed for good, and once more than it was retried if it completed. */
  lemma RetryBudget(s: System, issued: set<Id>, events: seq<Event>, id: TaskId)
    requires JustStarted(s) && s.registry.agents.Keys <= issued
    requires forall x :: x in s.tasks ==> s.tasks[x].target in issued
    requires AllowedRun(Books(s, OpenLedger(s, issued)), events)
    ensures WithinBudget(BookAll(Books(s, OpenLedger(s, issued)), events), id)
  {
    OpenBooked(s, issued);
    var b := BookAll(Books(s, OpenLedger(s, issued)), events);
    LifetimeBooked(Books(s, OpenLedger(s, issued)), events);
    if id in b.s.tasks {
      assert EndBooked(b, id);
      if !b.s.tasks[id].status.Terminal() {
        LiveWithinBudget(b, id);
      }
    }
  }
}
