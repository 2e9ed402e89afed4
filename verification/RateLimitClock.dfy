/** For which clocks the rate limiter keeps its bound: exactly those that never return to the
    neighbourhood of a reading after a window has passed since it. */
module RateLimitClock {
  import opened Prelude
  import opened RateLimit

  /** From a reading to one at least a window later, and back to within a window of the first. */
  predicate Back(first: int, later: int, back: int, window: int) {
    first + window <= later && first - window < back < first + window
  }

  ghost predicate StepsBack(clock: seq<int>, window: int) {
    exists i, j, k :: 0 <= i < j < k < |clock| && Back(clock[i], clock[j], clock[k], window)
  }

  /** Each arrival is at one of the readings, in their order; any number may share a reading. */
  ghost predicate Ticks(arrivals: seq<Arrival>, clock: seq<int>, ticks: seq<nat>) {
    && |ticks| == |arrivals|
    && (forall n :: 0 <= n < |ticks| ==> ticks[n] < |clock| && arrivals[n].at == clock[ticks[n]])
    && (forall n, m :: 0 <= n < m < |ticks| ==> ticks[n] <= ticks[m])
  }

  ghost predicate Over(arrivals: seq<Arrival>, clock: seq<int>) {
    exists ticks: seq<nat> :: Ticks(arrivals, clock, ticks)
  }

  function Bound(maxRequests: int): nat {
    if maxRequests < 0 then 0 else maxRequests
  }

  /** Every half-open interval as long as the window holds no more admissions of a client than allowed. */
  ghost predicate KeepsBound(maxRequests: int, window: int, arrivals: seq<Arrival>) {
    forall client, from :: BoundAt(Limiter(maxRequests, window, map[]), arrivals, client, from)
  }

  predicate BoundAt(l: Limiter, arrivals: seq<Arrival>, client: string, from: int) {
    Within(Admissions(l, arrivals, client), from, from + l.window) <= Bound(l.maxRequests)
  }

  function Times(arrivals: seq<Arrival>): (r: seq<int>)
    ensures |r| == |arrivals| && forall n :: 0 <= n < |r| ==> r[n] == arrivals[n].at
  {
    if arrivals == [] then [] else Times(arrivals[..|arrivals| - 1]) + [arrivals[|arrivals| - 1].at]
  }

  // ---------- Clocks that do not step back ----------

  lemma {:induction false} StoredAreArrivals(l: Limiter, arrivals: seq<Arrival>, client: string, t: int)
    requires l.requests == map[] && t in TimesOf(After(l, arrivals), client)
    ensures t in Times(arrivals)
  {
    if arrivals != [] {
      var n := |arrivals| - 1;
      var last := arrivals[n];
      var stored := TimesOf(After(l, arrivals[..n]), client);
      assert Times(arrivals) == Times(arrivals[..n]) + [last.at];
      if t in stored {
        StoredAreArrivals(l, arrivals[..n], client, t);
      } else {
        StoredOrNew(After(l, arrivals[..n]), last, client, t);
      }
    }
  }

  lemma StoredOrNew(l: Limiter, a: Arrival, client: string, t: int)
    requires t in TimesOf(Decide(l, a.host, a.at).0, client)
    ensures t in TimesOf(l, client) || t == a.at
  {
  }

  /** Pruning that drops nothing from an interval does not change its count. */
  lemma {:induction false} WithinOfRecent(times: seq<int>, now: int, window: int, from: int, to: int)
    requires forall t :: t in times && from <= t < to ==> now - t < window
    ensures Within(Recent(times, now, window), from, to) == Within(times, from, to)
  {
    if times != [] {
      var n := |times| - 1;
      assert times[n] in times && forall t :: t in times[..n] ==> t in times;
      WithinOfRecent(times[..n], now, window, from, to);
      RecentSnoc(times[..n], times[n], now, window);
      assert times == times[..n] + [times[n]];
      if now - times[n] < window {
        WithinSnoc(Recent(times[..n], now, window), times[n], from, to);
      } else {
        assert Recent(times[..n], now, window) + [] == Recent(times[..n], now, window);
      }
    }
  }

  lemma MoreStepsBack(xs: seq<int>, u: int, t: int, window: int)
    ensures StepsBack(xs, window) ==> StepsBack(xs + [t], window)
    ensures StepsBack(xs + [t], window) ==> StepsBack(xs + [u] + [t], window)
  {
    var longer, shorter := xs + [u] + [t], xs + [t];
    if i, j, k :| 0 <= i < j < k < |xs| && Back(xs[i], xs[j], xs[k], window) {
      assert Back(shorter[i], shorter[j], shorter[k], window);
    }
    if i, j, k :| 0 <= i < j < k < |shorter| && Back(shorter[i], shorter[j], shorter[k], window) {
      var k' := if k == |xs| then k + 1 else k;
      assert Back(longer[i], longer[j], longer[k'], window);
    }
  }

  /** A stored time that is a window old now is a window away from what the clock will show. */
  lemma PrunedIsFar(xs: seq<int>, x: int, u: int, t: int, from: int, window: int)
    requires x in xs && !StepsBack(xs + [u] + [t], window)
    requires from <= t < from + window && from <= x < from + window
    ensures u - x < window
  {
    var all := xs + [u] + [t];
    var i :| 0 <= i < |xs| && xs[i] == x;
    assert all[i] == x && all[|xs|] == u && all[|xs| + 1] == t;
    assert !Back(all[i], all[|xs|], all[|xs| + 1], window);
  }

  lemma PruningSparesInterval(l: Limiter, before: seq<Arrival>, client: string, u: int, t: int, from: int)
    requires l.requests == map[] && !StepsBack(Times(before) + [u] + [t], l.window)
    requires from <= t < from + l.window
    ensures var stored := TimesOf(After(l, before), client);
            Within(Recent(stored, u, l.window), from, from + l.window) == Within(stored, from, from + l.window)
  {
    var stored := TimesOf(After(l, before), client);
    forall x | x in stored && from <= x < from + l.window
      ensures u - x < l.window
    {
      StoredAreArrivals(l, before, client, x);
      PrunedIsFar(Times(before), x, u, t, from, l.window);
    }
    WithinOfRecent(stored, u, l.window, from, from + l.window);
  }

  /** As far as the clock's next reading can see, pruning has lost nothing. */
  lemma {:induction false} PrunedAgrees(l: Limiter, arrivals: seq<Arrival>, client: string, t: int, from: int)
    requires l.requests == map[] && !StepsBack(Times(arrivals) + [t], l.window)
    requires from <= t < from + l.window
    ensures Within(TimesOf(After(l, arrivals), client), from, from + l.window)
         == Within(Admissions(l, arrivals, client), from, from + l.window)
  {
    if arrivals != [] {
      var n := |arrivals| - 1;
      var last, before := arrivals[n], arrivals[..n];
      assert Times(arrivals) == Times(before) + [last.at];
      MoreStepsBack(Times(before), last.at, t, l.window);
      PrunedAgrees(l, before, client, t, from);
      PruningSparesInterval(l, before, client, last.at, t, from);
      StepAgrees(l, before, last, client, from);
      assert arrivals == before + [last];
    }
  }

  /** What an arrival does to the pruned times and the history of a client: nothing, or it prunes the one
      and adds itself to both. */
  lemma StepShape(l: Limiter, before: seq<Arrival>, a: Arrival, client: string)
    ensures var stored, stored' := TimesOf(After(l, before), client), TimesOf(After(l, before + [a]), client);
            var times, times' := Admissions(l, before, client), Admissions(l, before + [a], client);
            || (stored' == stored && times' == times)
            || (stored' == Recent(stored, a.at, l.window) + [a.at] && times' == times + [a.at]
                && |Recent(stored, a.at, l.window)| < l.maxRequests)
  {
    assert (before + [a])[..|before|] == before;
  }

  /** If they agreed before an arrival that prunes nothing from the interval, they agree after it. */
  lemma StepAgrees(l: Limiter, before: seq<Arrival>, a: Arrival, client: string, from: int)
    requires var stored, to := TimesOf(After(l, before), client), from + l.window;
             && Within(stored, from, to) == Within(Admissions(l, before, client), from, to)
             && Within(Recent(stored, a.at, l.window), from, to) == Within(stored, from, to)
    ensures Within(TimesOf(After(l, before + [a]), client), from, from + l.window)
         == Within(Admissions(l, before + [a], client), from, from + l.window)
  {
    StepShape(l, before, a, client);
    WithinSnoc(Recent(TimesOf(After(l, before), client), a.at, l.window), a.at, from, from + l.window);
    WithinSnoc(Admissions(l, before, client), a.at, from, from + l.window);
  }

  /** One more time keeps an interval within the limit if the pruned times left room for it. */
  lemma RoomForOne(times: seq<int>, stored: seq<int>, t: int, from: int, window: int, maxRequests: int)
    requires Within(times, from, from + window) <= Bound(maxRequests) && |Recent(stored, t, window)| < maxRequests
    requires from <= t < from + window ==> Within(stored, from, from + window) == Within(times, from, from + window)
    ensures Within(times + [t], from, from + window) <= Bound(maxRequests)
  {
    WithinSnoc(times, t, from, from + window);
    if from <= t < from + window {
      WithinRecent(stored, from, t, window);
    }
  }

  /** If the pruned times agree with the history wherever a new arrival falls, it cannot break the bound. */
  lemma StepKeepsBound(l: Limiter, before: seq<Arrival>, a: Arrival, client: string, from: int)
    requires BoundAt(l, before, client, from)
    requires from <= a.at < from + l.window ==>
               Within(TimesOf(After(l, before), client), from, from + l.window)
               == Within(Admissions(l, before, client), from, from + l.window)
    ensures BoundAt(l, before + [a], client, from)
  {
    var times, stored := Admissions(l, before, client), TimesOf(After(l, before), client);
    StepShape(l, before, a, client);
    if |Recent(stored, a.at, l.window)| < l.maxRequests {
      RoomForOne(times, stored, a.at, from, l.window, l.maxRequests);
    }
  }

  lemma {:induction false} SteadyClockKeepsBound(l: Limiter, arrivals: seq<Arrival>, client: string, from: int)
    requires l.requests == map[] && !StepsBack(Times(arrivals), l.window)
    ensures BoundAt(l, arrivals, client, from)
  {
    if arrivals != [] {
      var n := |arrivals| - 1;
      var last, before := arrivals[n], arrivals[..n];
      assert arrivals == before + [last] && Times(arrivals) == Times(before) + [last.at];
      MoreStepsBack(Times(before), last.at, last.at, l.window);
      SteadyClockKeepsBound(l, before, client, from);
      if from <= last.at < from + l.window {
        PrunedAgrees(l, before, client, last.at, from);
      }
      StepKeepsBound(l, before, last, client, from);
    }
  }

  // ---------- At most one request a window ----------

  ghost predicate Spaced(times: seq<int>, window: int) {
    forall i, j :: 0 <= i < j < |times| && window >= 0 ==> times[i] + window <= times[j]
  }

  /** With a limit of one, the limiter remembers the last admission, and the next is a window later. */
  lemma {:induction false} AdmissionsAreSpaced(l: Limiter, arrivals: seq<Arrival>, client: string)
    requires l.requests == map[] && l.maxRequests <= 1
    ensures var times := Admissions(l, arrivals, client);
            && Spaced(times, l.window) && (l.maxRequests <= 0 ==> times == [])
            && TimesOf(After(l, arrivals), client) == if times == [] then [] else [times[|times| - 1]]
  {
    if arrivals != [] {
      var n := |arrivals| - 1;
      AdmissionsAreSpaced(l, arrivals[..n], client);
      if ClientOf(arrivals[n].host) == client && Admits(l, arrivals, n) {
        var times, t := Admissions(l, arrivals[..n], client), arrivals[n].at;
        if times != [] {
          var last := times[|times| - 1];
          assert [last][..0] == [];
          assert Recent([last], t, l.window) == [];
          assert forall i :: 0 <= i < |times| && l.window >= 0 ==> times[i] <= last;
        }
      }
    }
  }

  lemma {:induction false} WithinNone(times: seq<int>, from: int, to: int)
    requires forall i :: 0 <= i < |times| ==> !(from <= times[i] < to)
    ensures Within(times, from, to) == 0
  {
    if times != [] {
      WithinNone(times[..|times| - 1], from, to);
    }
  }

  lemma {:induction false} SpacedWithin(times: seq<int>, window: int, from: int)
    requires Spaced(times, window)
    ensures Within(times, from, from + window) <= 1
  {
    if times != [] {
      var n := |times| - 1;
      if from <= times[n] < from + window {
        WithinNone(times[..n], from, from + window);
      } else {
        SpacedWithin(times[..n], window, from);
      }
    }
  }

  // ---------- Clocks that step back ----------

  function Burst(t: int, n: nat): (r: seq<Arrival>)
    ensures |r| == n && forall i :: 0 <= i < n ==> r[i] == Arrival(None, t)
  {
    if n == 0 then [] else Burst(t, n - 1) + [Arrival(None, t)]
  }

  function Copies(t: int, n: nat): (r: seq<int>)
    ensures |r| == n && forall i :: 0 <= i < n ==> r[i] == t
  {
    if n == 0 then [] else Copies(t, n - 1) + [t]
  }

  lemma {:induction false} RecentKeepsAll(times: seq<int>, now: int, window: int)
    requires forall i :: 0 <= i < |times| ==> now - times[i] < window
    ensures Recent(times, now, window) == times
  {
    if times != [] {
      var n := |times| - 1;
      assert times == times[..n] + [times[n]];
      RecentKeepsAll(times[..n], now, window);
    }
  }

  lemma {:induction false} RecentDropsAll(times: seq<int>, now: int, window: int)
    requires forall i :: 0 <= i < |times| ==> now - times[i] >= window
    ensures Recent(times, now, window) == []
  {
    if times != [] {
      var n := |times| - 1;
      assert times == times[..n] + [times[n]];
      RecentDropsAll(times[..n], now, window);
    }
  }

  lemma Admitted(l: Limiter, arrivals: seq<Arrival>, t: int, recent: seq<int>)
    requires Recent(TimesOf(After(l, arrivals), "unknown"), t, l.window) == recent && |recent| < l.maxRequests
    ensures TimesOf(After(l, arrivals + [Arrival(None, t)]), "unknown") == recent + [t]
    ensures Admissions(l, arrivals + [Arrival(None, t)], "unknown") == Admissions(l, arrivals, "unknown") + [t]
  {
    OneMore(l, arrivals, Arrival(None, t));
  }

  /** As many requests at once as the limit allows all get through. */
  lemma {:induction false} BurstIsAdmitted(l: Limiter, t: int, n: nat)
    requires l.requests == map[] && l.window > 0 && n <= l.maxRequests
    ensures TimesOf(After(l, Burst(t, n)), "unknown") == Copies(t, n)
    ensures Admissions(l, Burst(t, n), "unknown") == Copies(t, n)
  {
    if n > 0 {
      BurstIsAdmitted(l, t, n - 1);
      RecentKeepsAll(Copies(t, n - 1), t, l.window);
      Admitted(l, Burst(t, n - 1), t, Copies(t, n - 1));
    }
  }

  lemma {:induction false} WithinAll(times: seq<int>, from: int, to: int)
    requires forall i :: 0 <= i < |times| ==> from <= times[i] < to
    ensures Within(times, from, to) == |times|
  {
    if times != [] {
      WithinAll(times[..|times| - 1], from, to);
    }
  }

  /** A full burst, then a request a window later, which clears the record, then one back near the burst. */
  function Attack(a: int, b: int, c: int, n: nat): seq<Arrival> {
    Burst(a, n) + [Arrival(None, b)] + [Arrival(None, c)]
  }

  lemma AttackIsAdmitted(l: Limiter, a: int, b: int, c: int)
    requires l.requests == map[] && l.window > 0 && l.maxRequests >= 2 && Back(a, b, c, l.window)
    ensures Admissions(l, Attack(a, b, c, l.maxRequests), "unknown") == Copies(a, l.maxRequests) + [b] + [c]
  {
    var burst, copies := Burst(a, l.maxRequests), Copies(a, l.maxRequests);
    BurstIsAdmitted(l, a, l.maxRequests);
    RecentDropsAll(copies, b, l.window);
    SecondAndThird(l, burst, copies, b, c);
  }

  lemma SecondAndThird(l: Limiter, burst: seq<Arrival>, times: seq<int>, b: int, c: int)
    requires l.maxRequests >= 2 && c - b < l.window
    requires Recent(TimesOf(After(l, burst), "unknown"), b, l.window) == [] && Admissions(l, burst, "unknown") == times
    ensures Admissions(l, burst + [Arrival(None, b)] + [Arrival(None, c)], "unknown") == times + [b] + [c]
  {
    Admitted(l, burst, b, []);
    assert [] + [b] == [b];
    RecentKeepsAll([b], c, l.window);
    Admitted(l, burst + [Arrival(None, b)], c, [b]);
  }

  lemma TooMany(times: seq<int>, b: int, c: int, from: int, to: int)
    requires forall i :: 0 <= i < |times| ==> from <= times[i] < to
    requires from <= c < to
    ensures Within(times + [b] + [c], from, to) > |times|
  {
    WithinAll(times, from, to);
    WithinSnoc(times, b, from, to);
    WithinSnoc(times + [b], c, from, to);
  }

  lemma AttackBreaksBoundAt(l: Limiter, a: int, b: int, c: int, from: int)
    requires l.requests == map[] && l.window > 0 && l.maxRequests >= 2 && Back(a, b, c, l.window)
    requires from == if a <= c then a else c
    ensures !BoundAt(l, Attack(a, b, c, l.maxRequests), "unknown", from)
  {
    AttackIsAdmitted(l, a, b, c);
    TooMany(Copies(a, l.maxRequests), b, c, from, from + l.window);
  }

  lemma AttackBreaksBound(maxRequests: nat, window: int, a: int, b: int, c: int)
    requires window > 0 && maxRequests >= 2 && Back(a, b, c, window)
    ensures !KeepsBound(maxRequests, window, Attack(a, b, c, maxRequests))
  {
    AttackBreaksBoundAt(Limiter(maxRequests, window, map[]), a, b, c, if a <= c then a else c);
  }

  lemma AttackIsOver(clock: seq<int>, i: nat, j: nat, k: nat, n: nat)
    requires i <= j <= k < |clock|
    ensures Over(Attack(clock[i], clock[j], clock[k], n), clock)
  {
    var ticks: seq<nat> := seq<nat>(n, _ => i) + [j] + [k];
    assert Ticks(Attack(clock[i], clock[j], clock[k], n), clock, ticks);
  }

  // ---------- Exactly which clocks ----------

  lemma TicksStepBack(arrivals: seq<Arrival>, clock: seq<int>, ticks: seq<nat>, i: nat, j: nat, k: nat, window: int)
    requires Ticks(arrivals, clock, ticks) && i < j < k < |arrivals|
    requires Back(arrivals[i].at, arrivals[j].at, arrivals[k].at, window)
    ensures StepsBack(clock, window)
  {
    var a, b, c := ticks[i], ticks[j], ticks[k];
    assert a <= b && b <= c;
    assert Back(clock[a], clock[b], clock[c], window);
  }

  lemma OverStepsBack(arrivals: seq<Arrival>, clock: seq<int>, window: int)
    requires Over(arrivals, clock) && StepsBack(Times(arrivals), window)
    ensures StepsBack(clock, window)
  {
    var ticks: seq<nat> :| Ticks(arrivals, clock, ticks);
    var times := Times(arrivals);
    var i, j, k :| 0 <= i < j < k < |times| && Back(times[i], times[j], times[k], window);
    TicksStepBack(arrivals, clock, ticks, i, j, k, window);
  }

  lemma SteadyOrSingle(maxRequests: int, window: int, clock: seq<int>, arrivals: seq<Arrival>)
    requires maxRequests <= 1 || !StepsBack(clock, window)
    requires Over(arrivals, clock)
    ensures KeepsBound(maxRequests, window, arrivals)
  {
    var l := Limiter(maxRequests, window, map[]);
    forall client, from
      ensures BoundAt(l, arrivals, client, from)
    {
      if maxRequests <= 1 {
        AdmissionsAreSpaced(l, arrivals, client);
        SpacedWithin(Admissions(l, arrivals, client), window, from);
      } else {
        if StepsBack(Times(arrivals), window) {
          OverStepsBack(arrivals, clock, window);
        }
        SteadyClockKeepsBound(l, arrivals, client, from);
      }
    }
  }

  /** The exact condition: whatever requests arrive at the readings of a clock, the bound is kept, if and
      only if the limit is at most one or the clock does not step back. */
  lemma BoundIff(maxRequests: int, window: int, clock: seq<int>)
    ensures (forall arrivals :: Over(arrivals, clock) ==> KeepsBound(maxRequests, window, arrivals))
       <==> maxRequests <= 1 || !StepsBack(clock, window)
  {
    if maxRequests <= 1 || !StepsBack(clock, window) {
      forall arrivals | Over(arrivals, clock)
        ensures KeepsBound(maxRequests, window, arrivals)
      {
        SteadyOrSingle(maxRequests, window, clock, arrivals);
      }
    } else {
      var i, j, k :| 0 <= i < j < k < |clock| && Back(clock[i], clock[j], clock[k], window);
      AttackBreaksBound(maxRequests, window, clock[i], clock[j], clock[k]);
      AttackIsOver(clock, i, j, k, maxRequests);
    }
  }

  /** A clock that does not run backwards does not step back. */
  lemma NonDecreasingDoesNotStepBack(arrivals: seq<Arrival>, window: int)
    requires NonDecreasing(arrivals)
    ensures !StepsBack(Times(arrivals), window)
  {
    var times := Times(arrivals);
    forall i, j, k | 0 <= i < j < k < |times|
      ensures !Back(times[i], times[j], times[k], window)
    {
      assert arrivals[j].at <= arrivals[k].at;
    }
  }

  // ---------- When exactly the full are refused ----------

  /** A reading leaves the window at a later one and is back in it at a third, where the second alone does
      not fill the limit. */
  predicate Forgets(first: int, later: int, back: int, maxRequests: int, window: int) {
    && first + window <= later && back < first + window
    && maxRequests >= 1 && (maxRequests == 1 ==> later + window <= back)
  }

  /** Readings may be the same, as requests may share one. */
  ghost predicate CanForget(clock: seq<int>, maxRequests: int, window: int) {
    exists i, j, k :: 0 <= i <= j <= k < |clock| && Forgets(clock[i], clock[j], clock[k], maxRequests, window)
  }

  /** The same of the times of three different requests. */
  ghost predicate ForgetsSome(times: seq<int>, maxRequests: int, window: int) {
    exists i, j, k :: 0 <= i < j < k < |times| && Forgets(times[i], times[j], times[k], maxRequests, window)
  }

  /** The client's whole, unpruned history has the maximum of admissions in the trailing window. */
  predicate Full(l: Limiter, arrivals: seq<Arrival>, i: nat)
    requires i < |arrivals|
  {
    |Recent(Admissions(l, arrivals[..i], ClientOf(arrivals[i].host)), arrivals[i].at, l.window)| >= l.maxRequests
  }

  /** Exactly those requests are refused. */
  ghost predicate RefusesTheFull(maxRequests: int, window: int, arrivals: seq<Arrival>) {
    forall i :: 0 <= i < |arrivals| ==>
      (!Admits(Limiter(maxRequests, window, map[]), arrivals, i)
       <==> Full(Limiter(maxRequests, window, map[]), arrivals, i))
  }

  lemma MoreForgets(xs: seq<int>, u: int, t: int, maxRequests: int, window: int)
    ensures ForgetsSome(xs + [t], maxRequests, window) ==> ForgetsSome(xs + [u] + [t], maxRequests, window)
  {
    var longer, shorter := xs + [u] + [t], xs + [t];
    if i, j, k :| 0 <= i < j < k < |shorter| && Forgets(shorter[i], shorter[j], shorter[k], maxRequests, window) {
      var k' := if k == |xs| then k + 1 else k;
      assert Forgets(longer[i], longer[j], longer[k'], maxRequests, window);
    }
  }

  lemma ForgottenFor(xs: seq<int>, x: int, u: int, t: int, maxRequests: int, window: int)
    requires x in xs && Forgets(x, u, t, maxRequests, window)
    ensures ForgetsSome(xs + [u] + [t], maxRequests, window)
  {
    var all := xs + [u] + [t];
    var i :| 0 <= i < |xs| && xs[i] == x;
    assert all[i] == x && all[|xs|] == u && all[|xs| + 1] == t;
  }

  /** With room for two, what is stored shows the same trailing window as the whole history. */
  lemma {:induction false} StoredIsEnough(l: Limiter, arrivals: seq<Arrival>, client: string, t: int)
    requires l.requests == map[] && l.maxRequests >= 2
    requires !ForgetsSome(Times(arrivals) + [t], l.maxRequests, l.window)
    ensures Recent(TimesOf(After(l, arrivals), client), t, l.window)
         == Recent(Admissions(l, arrivals, client), t, l.window)
  {
    if arrivals != [] {
      var n := |arrivals| - 1;
      var last, before := arrivals[n], arrivals[..n];
      assert arrivals == before + [last] && Times(arrivals) == Times(before) + [last.at];
      MoreForgets(Times(before), last.at, t, l.maxRequests, l.window);
      StoredIsEnough(l, before, client, t);
      StepShape(l, before, last, client);
      var stored := TimesOf(After(l, before), client);
      forall i | 0 <= i < |stored| && last.at - stored[i] >= l.window
        ensures t - stored[i] >= l.window
      {
        StoredAreArrivals(l, before, client, stored[i]);
        if t - stored[i] < l.window {
          ForgottenFor(Times(before), stored[i], last.at, t, l.maxRequests, l.window);
        }
      }
      RecentOfRecent(stored, last.at, t, l.window);
      RecentSnoc(Recent(stored, last.at, l.window), last.at, t, l.window);
      RecentSnoc(Admissions(l, before, client), last.at, t, l.window);
    }
  }

  /** With room for one, something is stored of a trailing window that is not empty. */
  lemma {:induction false} OneIsStored(l: Limiter, arrivals: seq<Arrival>, client: string, t: int)
    requires l.requests == map[] && l.maxRequests == 1
    requires !ForgetsSome(Times(arrivals) + [t], 1, l.window)
    ensures Recent(Admissions(l, arrivals, client), t, l.window) != []
       ==> Recent(TimesOf(After(l, arrivals), client), t, l.window) != []
  {
    if arrivals != [] {
      var n := |arrivals| - 1;
      var last, before := arrivals[n], arrivals[..n];
      assert arrivals == before + [last] && Times(arrivals) == Times(before) + [last.at];
      MoreForgets(Times(before), last.at, t, 1, l.window);
      OneIsStored(l, before, client, t);
      StepShape(l, before, last, client);
      var stored := TimesOf(After(l, before), client);
      RecentSnoc(Recent(stored, last.at, l.window), last.at, t, l.window);
      RecentSnoc(Admissions(l, before, client), last.at, t, l.window);
      if |Recent(stored, last.at, l.window)| < 1 && t - last.at >= l.window && Recent(stored, t, l.window) != [] {
        var x := Recent(stored, t, l.window)[0];
        assert x in Recent(stored, t, l.window) && x !in Recent(stored, last.at, l.window);
        StoredAreArrivals(l, before, client, x);
        ForgottenFor(Times(before), x, last.at, t, 1, l.window);
      }
    }
  }

  lemma {:induction false} StoredAreAdmissions(l: Limiter, arrivals: seq<Arrival>, client: string, t: int)
    requires l.requests == map[] && t in TimesOf(After(l, arrivals), client)
    ensures t in Admissions(l, arrivals, client)
  {
    if arrivals != [] {
      var n := |arrivals| - 1;
      var stored := TimesOf(After(l, arrivals[..n]), client);
      assert arrivals == arrivals[..n] + [arrivals[n]];
      StepShape(l, arrivals[..n], arrivals[n], client);
      if t in stored {
        StoredAreAdmissions(l, arrivals[..n], client, t);
      }
    }
  }

  lemma RefusedIffFullAt(l: Limiter, arrivals: seq<Arrival>, i: nat)
    requires l.requests == map[] && i < |arrivals|
    requires !ForgetsSome(Times(arrivals[..i]) + [arrivals[i].at], l.maxRequests, l.window)
    ensures !Admits(l, arrivals, i) <==> Full(l, arrivals, i)
  {
    var client, t := ClientOf(arrivals[i].host), arrivals[i].at;
    if l.maxRequests >= 2 {
      StoredIsEnough(l, arrivals[..i], client, t);
    } else if l.maxRequests == 1 {
      OneIsStored(l, arrivals[..i], client, t);
      var recent := Recent(TimesOf(After(l, arrivals[..i]), client), t, l.window);
      if recent != [] {
        assert recent[0] in recent;
        StoredAreAdmissions(l, arrivals[..i], client, recent[0]);
        assert recent[0] in Recent(Admissions(l, arrivals[..i], client), t, l.window);
      }
    }
  }

  lemma TicksForget(arrivals: seq<Arrival>, clock: seq<int>, ticks: seq<nat>, i: nat, j: nat, k: nat,
                    maxRequests: int, window: int)
    requires Ticks(arrivals, clock, ticks) && i < j < k < |arrivals|
    requires Forgets(arrivals[i].at, arrivals[j].at, arrivals[k].at, maxRequests, window)
    ensures CanForget(clock, maxRequests, window)
  {
    var a, b, c := ticks[i], ticks[j], ticks[k];
    assert a <= b && b <= c;
    assert Forgets(clock[a], clock[b], clock[c], maxRequests, window);
  }

  lemma PrefixForgets(arrivals: seq<Arrival>, clock: seq<int>, i: nat, maxRequests: int, window: int)
    requires Over(arrivals, clock) && i < |arrivals|
    requires ForgetsSome(Times(arrivals[..i]) + [arrivals[i].at], maxRequests, window)
    ensures CanForget(clock, maxRequests, window)
  {
    var ticks: seq<nat> :| Ticks(arrivals, clock, ticks);
    var times := Times(arrivals[..i]) + [arrivals[i].at];
    var a, b, c :| 0 <= a < b < c < |times| && Forgets(times[a], times[b], times[c], maxRequests, window);
    assert times[a] == arrivals[a].at && times[b] == arrivals[b].at && times[c] == arrivals[c].at;
    TicksForget(arrivals, clock, ticks, a, b, c, maxRequests, window);
  }

  lemma {:induction false} RecentIsNoLonger(times: seq<int>, now: int, window: int)
    ensures |Recent(times, now, window)| <= |times|
  {
    if times != [] {
      RecentIsNoLonger(times[..|times| - 1], now, window);
    }
  }

  /** Without a window even times just admitted are not recent, and each request replaces the one before. */
  lemma {:induction false} BurstReplaces(l: Limiter, t: int, n: nat)
    requires l.requests == map[] && l.window <= 0 && n <= l.maxRequests
    ensures Admissions(l, Burst(t, n), "unknown") == Copies(t, n)
    ensures TimesOf(After(l, Burst(t, n)), "unknown") == if n == 0 then [] else [t]
  {
    if n > 0 {
      BurstReplaces(l, t, n - 1);
      RecentDropsAll(if n == 1 then [] else [t], t, l.window);
      Admitted(l, Burst(t, n - 1), t, []);
    }
  }

  predicate AllAt(times: seq<int>, t: int) {
    forall i :: 0 <= i < |times| ==> times[i] == t
  }

  lemma RecentDropsThem(times: seq<int>, t: int, now: int, window: int)
    requires AllAt(times, t) && t + window <= now
    ensures Recent(times, now, window) == []
  {
    RecentDropsAll(times, now, window);
  }

  /** A full burst gets through and leaves nothing but its own time. */
  lemma BurstGetsThrough(l: Limiter, t: int)
    requires l.requests == map[] && l.maxRequests >= 1
    ensures Admissions(l, Burst(t, l.maxRequests), "unknown") == Copies(t, l.maxRequests)
    ensures AllAt(TimesOf(After(l, Burst(t, l.maxRequests)), "unknown"), t)
  {
    if l.window > 0 {
      BurstIsAdmitted(l, t, l.maxRequests);
    } else {
      BurstReplaces(l, t, l.maxRequests);
    }
  }

  /** A request after the burst has left the window clears the record. */
  lemma SecondClears(l: Limiter, a: int, b: int)
    requires l.requests == map[] && l.maxRequests >= 1 && a + l.window <= b
    ensures var two := Burst(a, l.maxRequests) + [Arrival(None, b)];
            && TimesOf(After(l, two), "unknown") == [b]
            && Admissions(l, two, "unknown") == Copies(a, l.maxRequests) + [b]
  {
    var burst := Burst(a, l.maxRequests);
    BurstGetsThrough(l, a);
    RecentDropsThem(TimesOf(After(l, burst), "unknown"), a, b, l.window);
    Admitted(l, burst, b, []);
  }

  /** A third does not find the record full, though the burst is back in the window. */
  lemma ThirdGetsThrough(l: Limiter, two: seq<Arrival>, copies: seq<int>, a: int, b: int, c: int)
    requires Forgets(a, b, c, l.maxRequests, l.window)
    requires TimesOf(After(l, two), "unknown") == [b] && Admissions(l, two, "unknown") == copies + [b]
    requires |copies| == l.maxRequests && forall i :: 0 <= i < |copies| ==> copies[i] == a
    ensures var arrivals := two + [Arrival(None, c)];
            Admits(l, arrivals, |two|) && Full(l, arrivals, |two|)
  {
    var arrivals := two + [Arrival(None, c)];
    assert arrivals[..|two|] == two;
    RecentIsNoLonger([b], c, l.window);
    if l.maxRequests == 1 {
      RecentDropsAll([b], c, l.window);
    }
    RecentSnoc(copies, b, c, l.window);
    RecentKeepsAll(copies, c, l.window);
  }

  lemma AttackIsForgotten(l: Limiter, a: int, b: int, c: int)
    requires l.requests == map[] && Forgets(a, b, c, l.maxRequests, l.window)
    ensures var arrivals := Attack(a, b, c, l.maxRequests);
            Admits(l, arrivals, |arrivals| - 1) && Full(l, arrivals, |arrivals| - 1)
  {
    SecondClears(l, a, b);
    ThirdGetsThrough(l, Burst(a, l.maxRequests) + [Arrival(None, b)], Copies(a, l.maxRequests), a, b, c);
  }

  /** The exact condition: whatever requests arrive at the readings of a clock, exactly those are refused
      whose client's whole history fills the trailing window, if and only if the clock cannot forget. */
  lemma RefusalIff(maxRequests: int, window: int, clock: seq<int>)
    ensures (forall arrivals :: Over(arrivals, clock) ==> RefusesTheFull(maxRequests, window, arrivals))
       <==> !CanForget(clock, maxRequests, window)
  {
    var l := Limiter(maxRequests, window, map[]);
    if CanForget(clock, maxRequests, window) {
      var i, j, k :| 0 <= i <= j <= k < |clock| && Forgets(clock[i], clock[j], clock[k], maxRequests, window);
      var arrivals := Attack(clock[i], clock[j], clock[k], maxRequests);
      AttackIsForgotten(l, clock[i], clock[j], clock[k]);
      AttackIsOver(clock, i, j, k, maxRequests);
      assert !RefusesTheFull(maxRequests, window, arrivals);
    } else {
      forall arrivals: seq<Arrival>, i | Over(arrivals, clock) && 0 <= i < |arrivals|
        ensures !Admits(l, arrivals, i) <==> Full(l, arrivals, i)
      {
        if ForgetsSome(Times(arrivals[..i]) + [arrivals[i].at], maxRequests, window) {
          PrefixForgets(arrivals, clock, i, maxRequests, window);
        }
        RefusedIffFullAt(l, arrivals, i);
      }
    }
  }
}
