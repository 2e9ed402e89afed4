/** The throughput history the engine keeps, against the ends of tasks. */
module OutcomeHistory {
  import opened Prelude
  import opened Lifecycle
  import opened TaskInvariant
  import opened LifecycleInvariant

  ghost predicate Ends(s: System, s': System, id: TaskId) {
    && id in s.tasks && !s.tasks[id].status.Terminal()
    && id in s'.tasks && s'.tasks[id].status.Terminal()
  }

  function ClockOf(e: Event): int {
    match e
    case Submit(_, _, _, _, _, now) => now
    case Poll(now) => now
    case Begin(_, now) => now
    case Finish(_, _, now) => now
    case Error(_, _, now) => now
    case Register(_, _, _, _, now) => now
    case Remove(_) => 0
    case SetStatus(_, _, now) => now
    case Restart(_, _, _, _, now) => now
  }

  /** What an observer of the records notes when one state follows another: a task that became terminal, and how. */
  ghost function Noted(s: System, s': System, now: int): seq<Outcome> {
    if exists id :: Ends(s, s', id) then
      var id :| Ends(s, s', id);
      [Outcome(now, s'.tasks[id].status.Completed?)]
    else []
  }

  ghost function Observed(s: System, e: Event): seq<Outcome>
    requires Possible(s, e)
  {
    Noted(s, Advance(s, e), ClockOf(e))
  }

  /** The observer's notes over a run without crashes. */
  ghost function AllObserved(s: System, events: seq<Event>): seq<Outcome>
    requires Feasible(s, events) && forall e :: e in events ==> !e.Restart?
    decreases |events|
  {
    if events == [] then []
    else
      assert !events[0].Restart?;
      Observed(s, events[0]) + AllObserved(Advance(s, events[0]), events[1..])
  }

  /** The last `n` entries, or all there are. */
  function Tail<T>(xs: seq<T>, n: nat): seq<T> {
    if |xs| <= n then xs else xs[|xs| - n..]
  }

  /** As many entries as the history keeps. */
  function Latest(outcomes: seq<Outcome>): seq<Outcome> {
    Tail(outcomes, OUTCOME_LIMIT)
  }

  /** No event ends two tasks. */
  lemma OneEndAtMost(s: System, e: Event, a: TaskId, b: TaskId)
    requires SystemInv(s) && Possible(s, e) && Ends(s, Advance(s, e), a) && Ends(s, Advance(s, e), b)
    ensures a == b && (e.Begin? || e.Finish? || e.Error?) && a == s.runs[e.k].task.id
  {
    OnlyItsTask(s, e, a);
    OnlyItsTask(s, e, b);
  }

  lemma OnlyItsTask(s: System, e: Event, id: TaskId)
    requires SystemInv(s) && Possible(s, e) && Ends(s, Advance(s, e), id)
    ensures (e.Begin? || e.Finish? || e.Error?) && id == s.runs[e.k].task.id
  {
    match e
    case Begin(k, now) => BeginOnlyItsTask(s, k, now, id);
    case _ =>
  }

  lemma BeginOnlyItsTask(s: System, k: nat, now: int, id: TaskId)
    requires SystemInv(s) && k in s.runs && s.runs[k].Spawned? && Ends(s, BeginExecution(s, k, now), id)
    ensures id == s.runs[k].task.id
  {
  }

  lemma RememberIsLatest(outcomes: seq<Outcome>, o: Outcome)
    requires |outcomes| <= OUTCOME_LIMIT
    ensures Remember(outcomes, o) == Latest(outcomes + [o])
  {
  }

  lemma StepHistory(s: System, e: Event)
    requires SystemInv(s) && Possible(s, e) && |s.outcomes| <= OUTCOME_LIMIT
    ensures Advance(s, e).outcomes == Latest(s.outcomes + Observed(s, e))
  {
    assert s.outcomes + [] == s.outcomes;
    match e
    case Begin(k, now) => BeginHistory(s, k, now);
    case Finish(k, result, now) => FinishHistory(s, e);
    case Error(k, message, now) => ErrorHistory(s, e);
    case _ => QuietHistory(s, e);
  }

  lemma QuietHistory(s: System, e: Event)
    requires SystemInv(s) && Possible(s, e) && !e.Begin? && !e.Finish? && !e.Error?
    ensures Advance(s, e).outcomes == s.outcomes && Observed(s, e) == []
  {
    if id :| Ends(s, Advance(s, e), id) {
      OnlyItsTask(s, e, id);
    }
  }

  /** The task of the execution is the one that ends, if one does. */
  lemma ObservedOf(s: System, e: Event, id: TaskId)
    requires SystemInv(s) && Possible(s, e) && (e.Begin? || e.Finish? || e.Error?) && id == s.runs[e.k].task.id
    ensures Observed(s, e) == if Ends(s, Advance(s, e), id)
            then [Outcome(ClockOf(e), Advance(s, e).tasks[id].status.Completed?)] else []
  {
    forall x | Ends(s, Advance(s, e), x)
      ensures x == id
    {
      OnlyItsTask(s, e, x);
    }
    OneNoted(s, Advance(s, e), ClockOf(e), id);
  }

  lemma OneNoted(s: System, s': System, now: int, id: TaskId)
    requires forall x :: Ends(s, s', x) ==> x == id
    ensures Noted(s, s', now) == if Ends(s, s', id) then [Outcome(now, s'.tasks[id].status.Completed?)] else []
  {
  }

  lemma BeginHistory(s: System, k: nat, now: int)
    requires SystemInv(s) && k in s.runs && s.runs[k].Spawned? && |s.outcomes| <= OUTCOME_LIMIT
    ensures BeginExecution(s, k, now).outcomes == Latest(s.outcomes + Observed(s, Begin(k, now)))
  {
    RunFacts(TaskSideOf(s), k);
    ObservedOf(s, Begin(k, now), s.runs[k].task.id);
    RememberIsLatest(s.outcomes, Outcome(now, false));
    assert s.outcomes + [] == s.outcomes;
    BeginOutcome(s, k, now);
  }

  /** Beginning ends the task only if its agent is gone and its retries are spent. */
  lemma BeginOutcome(s: System, k: nat, now: int)
    requires SystemInv(s) && k in s.runs && s.runs[k].Spawned? && s.runs[k].task.id in s.tasks
    ensures var s', id := BeginExecution(s, k, now), s.runs[k].task.id;
            && !s.tasks[id].status.Terminal() && id in s'.tasks && !s'.tasks[id].status.Completed?
            && s'.outcomes == if s'.tasks[id].status.Failed? then Remember(s.outcomes, Outcome(now, false))
               else s.outcomes
  {
    var id := s.runs[k].task.id;
    RunFacts(TaskSideOf(s), k);
    assert FlyingOk(TaskSideOf(s), id, s.scheduler.inFlight[id]);
  }

  lemma FinishHistory(s: System, e: Event)
    requires SystemInv(s) && e.Finish? && Possible(s, e) && |s.outcomes| <= OUTCOME_LIMIT
    ensures Advance(s, e).outcomes == Latest(s.outcomes + Observed(s, e))
  {
    var id := s.runs[e.k].task.id;
    RunFacts(TaskSideOf(s), e.k);
    ObservedOf(s, e, id);
    RememberIsLatest(s.outcomes, Outcome(e.now, true));
  }

  lemma ErrorHistory(s: System, e: Event)
    requires SystemInv(s) && e.Error? && Possible(s, e) && |s.outcomes| <= OUTCOME_LIMIT
    ensures Advance(s, e).outcomes == Latest(s.outcomes + Observed(s, e))
  {
    var id := s.runs[e.k].task.id;
    RunFacts(TaskSideOf(s), e.k);
    ObservedOf(s, e, id);
    RememberIsLatest(s.outcomes, Outcome(e.now, false));
    assert s.outcomes + [] == s.outcomes;
  }

  lemma TailOfTail<T>(xs: seq<T>, ys: seq<T>, n: nat)
    ensures Tail(Tail(xs, n) + ys, n) == Tail(xs + ys, n)
  {
    if |xs| > n {
      var k := |xs| - n;
      assert xs[k..] + ys == (xs + ys)[k..];
      assert (xs + ys)[k..][|ys|..] == (xs + ys)[k + |ys|..];
    }
  }

  lemma LatestOfLatest(a: seq<Outcome>, b: seq<Outcome>, c: seq<Outcome>)
    ensures Latest(Latest(a + b) + c) == Latest(a + (b + c))
  {
    assert a + b + c == a + (b + c);
    TailOfTail(a + b, c, OUTCOME_LIMIT);
  }

  lemma RunUnfolds(s: System, events: seq<Event>)
    requires events != [] && Feasible(s, events) && forall e :: e in events ==> !e.Restart?
    ensures !events[0].Restart? && Possible(s, events[0]) && Feasible(Advance(s, events[0]), events[1..])
    ensures Run(s, events) == Run(Advance(s, events[0]), events[1..])
    ensures AllObserved(s, events) == Observed(s, events[0]) + AllObserved(Advance(s, events[0]), events[1..])
  {
  }

  /** In one process lifetime the history is the latest part of everything that ended, in order: each task
      that became completed or failed, once, with the time and the kind of its end. */
  lemma {:induction false} HistoryIsComplete(s: System, events: seq<Event>)
    requires SystemInv(s) && |s.outcomes| <= OUTCOME_LIMIT
    requires Feasible(s, events) && forall e :: e in events ==> !e.Restart?
    ensures Run(s, events).outcomes == Latest(s.outcomes + AllObserved(s, events))
    ensures var all := s.outcomes + AllObserved(s, events);
            Run(s, events).outcomes == if |all| <= 5000 then all else all[|all| - 5000..]
    decreases |events|
  {
    if events == [] {
      assert s.outcomes + [] == s.outcomes;
    } else {
      var e := events[0];
      assert !e.Restart?;
      StepHistory(s, e);
      AdvanceKeepsInv(s, e);
      HistoryIsComplete(Advance(s, e), events[1..]);
      RunUnfolds(s, events);
      LatestOfLatest(s.outcomes, Observed(s, e), AllObserved(Advance(s, e), events[1..]));
    }
  }
}
