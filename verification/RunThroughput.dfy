/** The throughput of a run: what the buckets add up to, in terms of the tasks themselves. */
module RunThroughput {
  import opened Prelude
  import opened Records
  import opened Lifecycle
  import opened LifecycleInvariant
  import opened CrashSafety
  import opened OutcomeHistory
  import opened Throughput
  import TaskInvariant

  predicate NoCrash(events: seq<Event>) {
    forall e :: e in events ==> !e.Restart?
  }

  /** The tasks that the event ends, with that outcome and at such a time: at most one. */
  ghost function EndedBy(s: System, e: Event, good: bool, from: int, to: int): set<TaskId>
    requires Possible(s, e)
  {
    set id | id in s.tasks && Ends(s, Advance(s, e), id)
             && Advance(s, e).tasks[id].status.Completed? == good && from <= ClockOf(e) < to
  }

  /** The tasks that end during the run, with that outcome and at such a time. */
  ghost function EndedIn(s: System, events: seq<Event>, good: bool, from: int, to: int): set<TaskId>
    requires Feasible(s, events) && NoCrash(events)
    decreases |events|
  {
    if events == [] then {}
    else
      assert !events[0].Restart?;
      EndedBy(s, events[0], good, from, to) + EndedIn(Advance(s, events[0]), events[1..], good, from, to)
  }

  lemma EndedUnfolds(s: System, events: seq<Event>, good: bool, from: int, to: int)
    requires events != [] && Feasible(s, events) && NoCrash(events)
    ensures var e, s1, rest := events[0], Advance(s, events[0]), events[1..];
            && !e.Restart? && Possible(s, e) && Feasible(s1, rest) && NoCrash(rest) && Run(s, events) == Run(s1, rest)
            && EndedIn(s, events, good, from, to) == EndedBy(s, e, good, from, to) + EndedIn(s1, rest, good, from, to)
  {
    assert events[0] in events;
  }

  // ---------- Tasks end once ----------

  ghost predicate Live(s: System, id: TaskId) {
    id in s.tasks ==> !s.tasks[id].status.Terminal()
  }

  lemma StaysEnded(s: System, e: Event, id: TaskId)
    requires SystemInv(s) && Possible(s, e) && id in s.tasks && s.tasks[id].status.Terminal()
    ensures id in Advance(s, e).tasks && Advance(s, e).tasks[id] == s.tasks[id]
  {
    AdvanceKeepsRecord(s, e, id);
  }

  /** A task that ends during the run has not ended before it. */
  lemma {:induction false} EndsOnlyOnce(s: System, events: seq<Event>, good: bool, from: int, to: int, id: TaskId)
    requires SystemInv(s) && Feasible(s, events) && NoCrash(events) && id in EndedIn(s, events, good, from, to)
    ensures Live(s, id)
    decreases |events|
  {
    EndedUnfolds(s, events, good, from, to);
    if id !in EndedBy(s, events[0], good, from, to) && !Live(s, id) {
      AdvanceKeepsInv(s, events[0]);
      StaysEnded(s, events[0], id);
      EndsOnlyOnce(Advance(s, events[0]), events[1..], good, from, to, id);
    }
  }

  lemma EndedAreDistinct(s: System, events: seq<Event>, good: bool, from: int, to: int)
    requires SystemInv(s) && events != [] && Feasible(s, events) && NoCrash(events)
    ensures |EndedIn(s, events, good, from, to)|
         == |EndedBy(s, events[0], good, from, to)| + |EndedIn(Advance(s, events[0]), events[1..], good, from, to)|
  {
    EndedUnfolds(s, events, good, from, to);
    AdvanceKeepsInv(s, events[0]);
    var now, later := EndedBy(s, events[0], good, from, to),
        EndedIn(Advance(s, events[0]), events[1..], good, from, to);
    forall id | id in now
      ensures id !in later
    {
      if id in later {
        EndsOnlyOnce(Advance(s, events[0]), events[1..], good, from, to, id);
      }
    }
    assert now !! later;
  }

  // ---------- The history counts tasks ----------

  lemma {:induction false} CountConcat(a: seq<Outcome>, b: seq<Outcome>, good: bool, from: int, to: int)
    ensures Count(a + b, good, from, to) == Count(a, good, from, to) + Count(b, good, from, to)
  {
    if b == [] {
      assert a + b == a;
    } else {
      var n := |b| - 1;
      assert a + b == a + b[..n] + [b[n]];
      CountConcat(a, b[..n], good, from, to);
      CountSnoc(a + b[..n], b[n], good, from, to);
      CountSnoc(b[..n], b[n], good, from, to);
      assert b == b[..n] + [b[n]];
    }
  }

  lemma OneOrNone(s: System, e: Event, good: bool, from: int, to: int)
    requires SystemInv(s) && Possible(s, e)
    ensures |EndedBy(s, e, good, from, to)| == Count(Observed(s, e), good, from, to)
  {
    if id :| Ends(s, Advance(s, e), id) {
      forall x | Ends(s, Advance(s, e), x)
        ensures x == id
      {
        OneEndAtMost(s, e, x, id);
      }
      OneNoted(s, Advance(s, e), ClockOf(e), id);
      OnlyOneEnded(s, e, good, from, to, id);
      CountOne(Outcome(ClockOf(e), Advance(s, e).tasks[id].status.Completed?), good, from, to);
    } else {
      assert EndedBy(s, e, good, from, to) == {};
    }
  }

  lemma OnlyOneEnded(s: System, e: Event, good: bool, from: int, to: int, id: TaskId)
    requires Possible(s, e) && Ends(s, Advance(s, e), id) && forall x :: Ends(s, Advance(s, e), x) ==> x == id
    ensures EndedBy(s, e, good, from, to) ==
            if Advance(s, e).tasks[id].status.Completed? == good && from <= ClockOf(e) < to then {id} else {}
  {
  }

  lemma CountOne(o: Outcome, good: bool, from: int, to: int)
    ensures Count([o], good, from, to) == if o.good == good && from <= o.at < to then 1 else 0
  {
    assert [] + [o] == [o];
    CountSnoc([], o, good, from, to);
  }

  lemma {:induction false} HistoryCountsTasks(s: System, events: seq<Event>, good: bool, from: int, to: int)
    requires SystemInv(s) && Feasible(s, events) && NoCrash(events)
    ensures Count(AllObserved(s, events), good, from, to) == |EndedIn(s, events, good, from, to)|
    decreases |events|
  {
    if events != [] {
      OutcomeHistory.RunUnfolds(s, events);
      OneOrNone(s, events[0], good, from, to);
      EndedAreDistinct(s, events, good, from, to);
      AdvanceKeepsInv(s, events[0]);
      HistoryCountsTasks(Advance(s, events[0]), events[1..], good, from, to);
      CountConcat(Observed(s, events[0]), AllObserved(Advance(s, events[0]), events[1..]), good, from, to);
    }
  }

  // ---------- What a bounded history forgets ----------

  /** All but the latest entries. */
  function Forgotten(history: seq<Outcome>): seq<Outcome> {
    if |history| <= OUTCOME_LIMIT then [] else history[..|history| - OUTCOME_LIMIT]
  }

  lemma ForgottenAndLatest(history: seq<Outcome>)
    ensures Forgotten(history) + Latest(history) == history
  {
  }

  /** A process from its start on. */
  ghost predicate Process(s: System, events: seq<Event>) {
    SystemInv(s) && s.outcomes == [] && Feasible(s, events) && NoCrash(events)
  }

  /** Some task ended so, at such a time, and so long ago that the history has dropped it. */
  ghost predicate Forgets(s: System, events: seq<Event>, good: bool, from: int, to: int)
    requires Feasible(s, events) && NoCrash(events)
  {
    exists o :: o in Forgotten(AllObserved(s, events)) && o.good == good && from <= o.at < to
  }

  lemma KeptCountsTasks(s: System, events: seq<Event>, good: bool, from: int, to: int)
    requires Process(s, events)
    ensures Count(Run(s, events).outcomes, good, from, to) + Count(Forgotten(AllObserved(s, events)), good, from, to)
         == |EndedIn(s, events, good, from, to)|
  {
    var history := AllObserved(s, events);
    HistoryIsComplete(s, events);
    assert [] + history == history;
    ForgottenAndLatest(history);
    CountConcat(Forgotten(history), Latest(history), good, from, to);
    HistoryCountsTasks(s, events, good, from, to);
  }

  lemma {:induction false} CountIsNone(outcomes: seq<Outcome>, good: bool, from: int, to: int)
    ensures Count(outcomes, good, from, to) == 0
       <==> forall o :: o in outcomes && o.good == good ==> !(from <= o.at < to)
  {
    if outcomes != [] {
      var n := |outcomes| - 1;
      CountIsNone(outcomes[..n], good, from, to);
      assert outcomes == outcomes[..n] + [outcomes[n]];
    }
  }

  /** The exact condition, for any clock: the buckets add up to the tasks that completed, or failed for
      good, from the start of the window to the last edge, less those forgotten; so to all of them if and
      only if none of them is forgotten. */
  lemma ThroughputIff(s: System, events: seq<Event>, buckets: seq<Bucket>, now: int, window: int, bucket: int,
                      good: bool)
    requires Process(s, events) && bucket > 0 && IsSeries(buckets, Run(s, events).outcomes, now - window, bucket)
    ensures var start, end := now - window, Edge(now - window, bucket, |buckets|);
            var ended := |EndedIn(s, events, good, start, end)|;
            && Total(buckets, good) + Count(Forgotten(AllObserved(s, events)), good, start, end) == ended
            && (Total(buckets, good) == ended <==> !Forgets(s, events, good, start, end))
  {
    var start, end := now - window, Edge(now - window, bucket, |buckets|);
    Conservation(buckets, Run(s, events).outcomes, start, bucket, good);
    KeptCountsTasks(s, events, good, start, end);
    CountIsNone(Forgotten(AllObserved(s, events)), good, start, end);
  }

  // ---------- Without ends in the future ----------

  /** When the event is, if it has a time at all. */
  predicate HasTime(e: Event, at: int) {
    !e.Remove? && ClockOf(e) == at
  }

  predicate NoneAfter(events: seq<Event>, now: int) {
    forall e :: e in events && !e.Remove? ==> ClockOf(e) <= now
  }

  lemma {:induction false} ObservedHaveTimes(s: System, events: seq<Event>, o: Outcome)
    requires SystemInv(s) && Feasible(s, events) && NoCrash(events) && o in AllObserved(s, events)
    ensures exists e :: e in events && HasTime(e, o.at)
    decreases |events|
  {
    OutcomeHistory.RunUnfolds(s, events);
    assert events[0] in events;
    if o in Observed(s, events[0]) {
      if events[0].Remove? {
        QuietHistory(s, events[0]);
      }
      assert HasTime(events[0], o.at);
    } else {
      AdvanceKeepsInv(s, events[0]);
      ObservedHaveTimes(Advance(s, events[0]), events[1..], o);
    }
  }

  lemma KeptByNow(s: System, events: seq<Event>, now: int)
    requires Process(s, events) && NoneAfter(events, now)
    ensures forall o :: o in AllObserved(s, events) ==> o.at <= now
    ensures forall o :: o in Run(s, events).outcomes ==> o.at <= now
  {
    forall o | o in AllObserved(s, events)
      ensures o.at <= now
    {
      ObservedHaveTimes(s, events, o);
    }
    HistoryIsComplete(s, events);
    assert [] + AllObserved(s, events) == AllObserved(s, events);
  }

  /** Where counting ends: what happens at this very moment counts only if it is no bucket edge. */
  function CountedUntil(now: int, bucket: int): int
    requires bucket > 0
  {
    if now % bucket == 0 then now else now + 1
  }

  /** The tasks that ended so in the window. */
  ghost function Due(s: System, events: seq<Event>, now: int, window: int, bucket: int, good: bool): set<TaskId>
    requires Feasible(s, events) && NoCrash(events) && bucket > 0
  {
    EndedIn(s, events, good, now - window, CountedUntil(now, bucket))
  }

  /** The counts of a kind are exact. */
  ghost predicate Exact(s: System, events: seq<Event>, buckets: seq<Bucket>, now: int, window: int, bucket: int,
                        good: bool)
    requires Feasible(s, events) && NoCrash(events) && bucket > 0
  {
    Total(buckets, good) == |Due(s, events, now, window, bucket, good)|
  }

  /** What `throughput` answers after the run. */
  ghost predicate Answers(s: System, events: seq<Event>, buckets: seq<Bucket>, now: int, window: int, bucket: int) {
    && Process(s, events) && NoneAfter(events, now)
    && window > 0 && bucket > 0 && Covers(|buckets|, now - window, bucket, now)
    && IsSeries(buckets, Run(s, events).outcomes, now - window, bucket)
  }

  lemma WindowTotal(s: System, events: seq<Event>, buckets: seq<Bucket>, now: int, window: int, bucket: int,
                    good: bool)
    requires Answers(s, events, buckets, now, window, bucket)
    ensures Total(buckets, good)
         == Count(Run(s, events).outcomes, good, now - window, CountedUntil(now, bucket))
  {
    var outcomes := Run(s, events).outcomes;
    KeptByNow(s, events, now);
    WindowIsCounted(buckets, outcomes, now, window, bucket, good);
    CountSplits(outcomes, good, now - window, now, now + 1);
  }

  /** How many of them the history has forgotten. */
  ghost function Lost(s: System, events: seq<Event>, now: int, window: int, bucket: int, good: bool): nat
    requires Feasible(s, events) && NoCrash(events) && bucket > 0
  {
    Count(Forgotten(AllObserved(s, events)), good, now - window, CountedUntil(now, bucket))
  }

  lemma KeptOfDue(s: System, events: seq<Event>, now: int, window: int, bucket: int, good: bool)
    requires Process(s, events) && bucket > 0
    ensures Count(Run(s, events).outcomes, good, now - window, CountedUntil(now, bucket))
            + Lost(s, events, now, window, bucket, good) == |Due(s, events, now, window, bucket, good)|
  {
    KeptCountsTasks(s, events, good, now - window, CountedUntil(now, bucket));
  }

  lemma DueTotal(s: System, events: seq<Event>, buckets: seq<Bucket>, now: int, window: int, bucket: int, good: bool)
    requires Answers(s, events, buckets, now, window, bucket)
    ensures Total(buckets, good) + Lost(s, events, now, window, bucket, good)
         == |Due(s, events, now, window, bucket, good)|
  {
    WindowTotal(s, events, buckets, now, window, bucket, good);
    KeptOfDue(s, events, now, window, bucket, good);
  }

  lemma LostIff(s: System, events: seq<Event>, now: int, window: int, bucket: int, good: bool)
    requires Feasible(s, events) && NoCrash(events) && bucket > 0
    ensures Lost(s, events, now, window, bucket, good) == 0
       <==> !Forgets(s, events, good, now - window, CountedUntil(now, bucket))
  {
    CountIsNone(Forgotten(AllObserved(s, events)), good, now - window, CountedUntil(now, bucket));
  }

  /** Without ends in the future: the buckets add up to the tasks that completed, or failed for good, in
      the window, if and only if none of those is forgotten. */
  lemma ThroughputCountsTasks(s: System, events: seq<Event>, buckets: seq<Bucket>, now: int, window: int, bucket: int,
                              good: bool)
    requires Answers(s, events, buckets, now, window, bucket)
    ensures Exact(s, events, buckets, now, window, bucket, good)
       <==> !Forgets(s, events, good, now - window, CountedUntil(now, bucket))
    ensures |AllObserved(s, events)| <= OUTCOME_LIMIT ==> Exact(s, events, buckets, now, window, bucket, good)
    ensures Total(buckets, good) <= |Due(s, events, now, window, bucket, good)|
  {
    DueTotal(s, events, buckets, now, window, bucket, good);
    LostIff(s, events, now, window, bucket, good);
  }

  // ---------- With a clock that does not run backwards ----------

  ghost predicate Ordered(events: seq<Event>) {
    forall i, j :: 0 <= i < j < |events| && !events[i].Remove? && !events[j].Remove? ==>
      ClockOf(events[i]) <= ClockOf(events[j])
  }

  ghost predicate Ascending(history: seq<Outcome>) {
    forall i, j :: 0 <= i < j < |history| ==> history[i].at <= history[j].at
  }

  lemma PutFirst(o: Outcome, history: seq<Outcome>)
    requires Ascending(history) && forall x :: x in history ==> o.at <= x.at
    ensures Ascending([o] + history)
  {
  }

  lemma {:induction false} HistoryAscends(s: System, events: seq<Event>)
    requires SystemInv(s) && Feasible(s, events) && NoCrash(events) && Ordered(events)
    ensures Ascending(AllObserved(s, events))
    decreases |events|
  {
    if events != [] {
      OutcomeHistory.RunUnfolds(s, events);
      AdvanceKeepsInv(s, events[0]);
      var later := AllObserved(Advance(s, events[0]), events[1..]);
      HistoryAscends(Advance(s, events[0]), events[1..]);
      if Observed(s, events[0]) == [] {
        assert [] + later == later;
      } else {
        if events[0].Remove? {
          QuietHistory(s, events[0]);
        }
        forall x | x in later
          ensures ClockOf(events[0]) <= x.at
        {
          ObservedHaveTimes(Advance(s, events[0]), events[1..], x);
        }
        PutFirst(Observed(s, events[0])[0], later);
      }
    }
  }

  function CountBoth(outcomes: seq<Outcome>, from: int, to: int): nat {
    Count(outcomes, true, from, to) + Count(outcomes, false, from, to)
  }

  lemma {:induction false} AllCount(outcomes: seq<Outcome>, from: int, to: int)
    requires forall o :: o in outcomes ==> from <= o.at < to
    ensures CountBoth(outcomes, from, to) == |outcomes|
  {
    if outcomes != [] {
      var n := |outcomes| - 1;
      assert outcomes[n] in outcomes;
      AllCount(outcomes[..n], from, to);
    }
  }

  /** What is not before the start of the window is the end of the history. */
  lemma WindowIsSuffix(history: seq<Outcome>, start: int) returns (p: nat)
    requires Ascending(history)
    ensures p <= |history|
    ensures forall i :: 0 <= i < |history| ==> (history[i].at >= start <==> p <= i)
  {
    p := |history|;
    while p > 0 && history[p - 1].at >= start
      invariant 0 <= p <= |history|
      invariant forall i :: p <= i < |history| ==> history[i].at >= start
    {
      p := p - 1;
    }
  }

  lemma SuffixCounts(history: seq<Outcome>, start: int, to: int, p: nat)
    requires p <= |history| && forall i :: 0 <= i < |history| ==> (history[i].at >= start <==> p <= i)
    requires forall o :: o in history ==> o.at < to
    ensures CountBoth(history, start, to) == |history| - p
  {
    var before, rest := history[..p], history[p..];
    assert history == before + rest;
    CountConcat(before, rest, true, start, to);
    CountConcat(before, rest, false, start, to);
    CountIsNone(before, true, start, to);
    CountIsNone(before, false, start, to);
    AllCount(rest, start, to);
  }

  ghost predicate SomeIn(outcomes: seq<Outcome>, from: int, to: int) {
    exists i :: 0 <= i < |outcomes| && from <= outcomes[i].at < to
  }

  /** In an ascending history something of the window is forgotten exactly when more has happened since its
      start than is kept, and some of it counts. */
  lemma ForgetsIff(history: seq<Outcome>, start: int, end: int, to: int)
    requires Ascending(history) && forall o :: o in history ==> o.at < to
    ensures SomeIn(Forgotten(history), start, end)
       <==> CountBoth(history, start, to) > OUTCOME_LIMIT && SomeIn(history, start, end)
  {
    var p := WindowIsSuffix(history, start);
    SuffixCounts(history, start, to, p);
    if i :| 0 <= i < |Forgotten(history)| && start <= Forgotten(history)[i].at < end {
      assert start <= history[i].at < end;
    }
    if CountBoth(history, start, to) > OUTCOME_LIMIT && SomeIn(history, start, end) {
      var q :| 0 <= q < |history| && start <= history[q].at < end;
      assert history[p].at <= history[q].at;
      assert start <= Forgotten(history)[p].at < end;
    }
  }

  lemma NoneOfBoth(outcomes: seq<Outcome>, from: int, to: int)
    ensures CountBoth(outcomes, from, to) == 0 <==> !SomeIn(outcomes, from, to)
  {
    CountIsNone(outcomes, true, from, to);
    CountIsNone(outcomes, false, from, to);
    if i :| 0 <= i < |outcomes| && from <= outcomes[i].at < to {
      assert outcomes[i] in outcomes;
    }
  }

  /** How many tasks ended at such a time. */
  ghost function Ended(s: System, events: seq<Event>, from: int, to: int): nat
    requires Feasible(s, events) && NoCrash(events)
  {
    |EndedIn(s, events, true, from, to)| + |EndedIn(s, events, false, from, to)|
  }

  ghost function LostOfBoth(s: System, events: seq<Event>, now: int, window: int, bucket: int): nat
    requires Feasible(s, events) && NoCrash(events) && bucket > 0
  {
    CountBoth(Forgotten(AllObserved(s, events)), now - window, CountedUntil(now, bucket))
  }

  lemma BothTotals(s: System, events: seq<Event>, buckets: seq<Bucket>, now: int, window: int, bucket: int)
    requires Answers(s, events, buckets, now, window, bucket)
    ensures Total(buckets, true) + Total(buckets, false) + LostOfBoth(s, events, now, window, bucket)
         == Ended(s, events, now - window, CountedUntil(now, bucket))
  {
    DueTotal(s, events, buckets, now, window, bucket, true);
    DueTotal(s, events, buckets, now, window, bucket, false);
  }

  lemma HistoryCountsBoth(s: System, events: seq<Event>, from: int, to: int)
    requires SystemInv(s) && Feasible(s, events) && NoCrash(events)
    ensures CountBoth(AllObserved(s, events), from, to) == Ended(s, events, from, to)
  {
    HistoryCountsTasks(s, events, true, from, to);
    HistoryCountsTasks(s, events, false, from, to);
  }

  predicate OnlyMany(history: seq<Outcome>, start: int, end: int, to: int, lost: nat) {
    lost > 0 <==> CountBoth(history, start, to) > OUTCOME_LIMIT && CountBoth(history, start, end) > 0
  }

  /** Something is forgotten exactly when more has happened since the start than is kept, and some of it counts. */
  predicate ForgetsOnlyMany(history: seq<Outcome>, start: int, end: int, to: int) {
    OnlyMany(history, start, end, to, CountBoth(Forgotten(history), start, end))
  }

  lemma AscendingForgets(history: seq<Outcome>, start: int, end: int, to: int)
    requires Ascending(history) && forall o :: o in history ==> o.at < to
    ensures ForgetsOnlyMany(history, start, end, to)
  {
    ForgetsIff(history, start, end, to);
    NoneOfBoth(Forgotten(history), start, end);
    NoneOfBoth(history, start, end);
  }

  lemma RunForgets(s: System, events: seq<Event>, now: int, window: int, bucket: int)
    requires Process(s, events) && NoneAfter(events, now) && Ordered(events) && bucket > 0
    ensures OnlyMany(AllObserved(s, events), now - window, CountedUntil(now, bucket), now + 1,
                     LostOfBoth(s, events, now, window, bucket))
  {
    HistoryAscends(s, events);
    KeptByNow(s, events, now);
    AscendingForgets(AllObserved(s, events), now - window, CountedUntil(now, bucket), now + 1);
  }

  /** A total of the kept ends and the number of those lost, in terms of the tasks that ended. */
  lemma ExactIffNoneLost(s: System, events: seq<Event>, start: int, end: int, to: int, total: nat, lost: nat)
    requires Process(s, events)
    requires total + lost == Ended(s, events, start, end) && OnlyMany(AllObserved(s, events), start, end, to, lost)
    ensures total == Ended(s, events, start, end)
       <==> Ended(s, events, start, to) <= 5000 || Ended(s, events, start, end) == 0
  {
    HistoryCountsBoth(s, events, start, to);
    HistoryCountsBoth(s, events, start, end);
  }

  /** With a clock that does not run backwards: all counts together are exact, if and only if no more tasks
      have ended since the start of the window than the history keeps, or none of them counts. */
  lemma ExactIffFewEnds(s: System, events: seq<Event>, buckets: seq<Bucket>, now: int, window: int, bucket: int)
    requires Answers(s, events, buckets, now, window, bucket) && Ordered(events)
    ensures Total(buckets, true) + Total(buckets, false) == Ended(s, events, now - window, CountedUntil(now, bucket))
       <==> Ended(s, events, now - window, now + 1) <= 5000
            || Ended(s, events, now - window, CountedUntil(now, bucket)) == 0
  {
    BothTotals(s, events, buckets, now, window, bucket);
    RunForgets(s, events, now, window, bucket);
    ExactIffNoneLost(s, events, now - window, CountedUntil(now, bucket), now + 1,
        Total(buckets, true) + Total(buckets, false), LostOfBoth(s, events, now, window, bucket));
  }

  // ---------- Completed tasks carry the time of their end ----------

  lemma CompletionIsStamped(s: System, e: Event, id: TaskId)
    requires SystemInv(s) && Possible(s, e) && Ends(s, Advance(s, e), id) && Advance(s, e).tasks[id].status.Completed?
    ensures Advance(s, e).tasks[id].completedAt == Some(ClockOf(e))
  {
    OnlyItsTask(s, e, id);
    if e.Begin? {
      RunFacts(TaskInvariant.TaskSideOf(s), e.k);
      BeginOutcome(s, e.k, e.now);
    }
  }

  lemma NewTasksAreLive(s: System, e: Event, id: TaskId)
    requires SystemInv(s) && Possible(s, e) && id !in s.tasks
    ensures Live(Advance(s, e), id)
  {
    if e.Begin? || e.Finish? || e.Error? {
      RunFacts(TaskInvariant.TaskSideOf(s), e.k);
    }
    if e.Begin? {
      BeginAddsNoTask(s, e.k, e.now, id);
    }
  }

  lemma BeginAddsNoTask(s: System, k: nat, now: int, id: TaskId)
    requires SystemInv(s) && k in s.runs && s.runs[k].task.id in s.tasks && id !in s.tasks
    ensures id !in BeginExecution(s, k, now).tasks
  {
  }

  /** The record says that the task completed at a time in the interval. */
  predicate CompletedWithin(tasks: map<TaskId, Record>, id: TaskId, from: int, to: int) {
    && id in tasks && tasks[id].status.Completed?
    && tasks[id].completedAt.Some? && from <= tasks[id].completedAt.value < to
  }

  /** The tasks counted as completed in an interval are those whose records say so, and which had not ended
      before the run. */
  lemma {:induction false} CompletedTasksAreCounted(s: System, events: seq<Event>, from: int, to: int, id: TaskId)
    requires SystemInv(s) && Feasible(s, events) && NoCrash(events)
    ensures id in EndedIn(s, events, true, from, to)
       <==> CompletedWithin(Run(s, events).tasks, id, from, to) && Live(s, id)
    decreases |events|
  {
    if events != [] {
      var e, s1, rest := events[0], Advance(s, events[0]), events[1..];
      EndedUnfolds(s, events, true, from, to);
      AdvanceKeepsInv(s, e);
      CompletedTasksAreCounted(s1, rest, from, to, id);
      if Ends(s, s1, id) {
        EndIsLasting(s1, rest, id);
        EndedByIff(s, e, from, to, id);
      } else {
        LivenessStays(s, e, id);
      }
    }
  }

  lemma EndedByIff(s: System, e: Event, from: int, to: int, id: TaskId)
    requires SystemInv(s) && Possible(s, e) && Ends(s, Advance(s, e), id)
    ensures id in EndedBy(s, e, true, from, to) <==> CompletedWithin(Advance(s, e).tasks, id, from, to)
    ensures !Live(Advance(s, e), id) && Live(s, id)
  {
    if Advance(s, e).tasks[id].status.Completed? {
      CompletionIsStamped(s, e, id);
    }
  }

  lemma LivenessStays(s: System, e: Event, id: TaskId)
    requires SystemInv(s) && Possible(s, e) && !Ends(s, Advance(s, e), id)
    ensures Live(Advance(s, e), id) <==> Live(s, id)
  {
    if id in s.tasks {
      AdvanceKeepsRecord(s, e, id);
    } else {
      NewTasksAreLive(s, e, id);
    }
  }

  lemma {:induction false} EndIsLasting(s: System, events: seq<Event>, id: TaskId)
    requires SystemInv(s) && Feasible(s, events) && NoCrash(events) && id in s.tasks && s.tasks[id].status.Terminal()
    ensures id in Run(s, events).tasks && Run(s, events).tasks[id] == s.tasks[id]
    decreases |events|
  {
    if events != [] {
      assert !events[0].Restart?;
      AdvanceKeepsInv(s, events[0]);
      StaysEnded(s, events[0], id);
      EndIsLasting(Advance(s, events[0]), events[1..], id);
    }
  }
}
