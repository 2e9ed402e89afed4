/** The sliding-window admission decision (src/api/middleware.py). */
module RateLimit {
  import opened Prelude

  /** `requests` holds the admission times of every client that was admitted, pruned at its last admission. */
  datatype Limiter = Limiter(maxRequests: int, window: int, requests: map<string, seq<int>>)

  datatype Arrival = Arrival(host: Option<string>, at: int)

  function ClientOf(host: Option<string>): string {
    if host.Some? then host.value else "unknown"
  }

  function TimesOf(l: Limiter, client: string): seq<int> {
    if client in l.requests then l.requests[client] else []
  }

  /** The times in the trailing window, in order. */
  function Recent(times: seq<int>, now: int, window: int): (r: seq<int>)
    ensures forall t :: t in r <==> t in times && now - t < window
  {
    if times == [] then []
    else
      var rest := Recent(times[..|times| - 1], now, window);
      var last := times[|times| - 1];
      assert times == times[..|times| - 1] + [last];
      if now - last < window then rest + [last] else rest
  }

  /** The next state, and whether the request goes through. */
  function Decide(l: Limiter, host: Option<string>, now: int): (Limiter, bool) {
    var client := ClientOf(host);
    var times := Recent(TimesOf(l, client), now, l.window);
    if |times| >= l.maxRequests then (l, false) else (l.(requests := l.requests[client := times + [now]]), true)
  }

  class RateLimiter {
    const maxRequests: int
    const window: int
    var requests: map<string, seq<int>>

    ghost function View(): Limiter
      reads this
    {
      Limiter(maxRequests, window, requests)
    }

    constructor (maxRequests: int, window: int)
      ensures View() == Limiter(maxRequests, window, map[])
    {
      this.maxRequests, this.window, requests := maxRequests, window, map[];
    }

    /** True passes the request on; False answers 429. */
    method Dispatch(host: Option<string>, now: int) returns (admitted: bool)
      modifies this`requests
      ensures (View(), admitted) == Decide(old(View()), host, now)
      ensures var client := if host.Some? then host.value else "unknown";
              && requests - {client} == old(requests) - {client}
              && (!admitted ==> requests == old(requests))
              && (admitted ==> client in requests && requests[client] != []
                               && requests[client][|requests[client]| - 1] == now)
    {
      var client := if host.Some? then host.value else "unknown";
      var timestamps := Recent(if client in requests then requests[client] else [], now, window);
      if |timestamps| >= maxRequests {
        return false;
      }
      timestamps := timestamps + [now];
      requests := requests[client := timestamps];
      admitted := true;
    }
  }

  // ---------- Whole runs ----------

  /** The limiter after the arrivals. */
  function After(l: Limiter, arrivals: seq<Arrival>): (r: Limiter)
    ensures r.maxRequests == l.maxRequests && r.window == l.window
  {
    if arrivals == [] then l
    else
      var last := arrivals[|arrivals| - 1];
      Decide(After(l, arrivals[..|arrivals| - 1]), last.host, last.at).0
  }

  /** Whether arrival `i` is admitted. */
  predicate Admits(l: Limiter, arrivals: seq<Arrival>, i: nat)
    requires i < |arrivals|
  {
    Decide(After(l, arrivals[..i]), arrivals[i].host, arrivals[i].at).1
  }

  /** When the client was admitted, over the whole run: a history that nobody prunes. */
  function Admissions(l: Limiter, arrivals: seq<Arrival>, client: string): seq<int> {
    if arrivals == [] then TimesOf(l, client)
    else
      var n := |arrivals| - 1;
      var before := Admissions(l, arrivals[..n], client);
      if ClientOf(arrivals[n].host) == client && Admits(l, arrivals, n) then before + [arrivals[n].at] else before
  }

  /** The clock does not run backwards. */
  ghost predicate NonDecreasing(arrivals: seq<Arrival>) {
    forall i, j :: 0 <= i < j < |arrivals| ==> arrivals[i].at <= arrivals[j].at
  }

  /** No time that has left the window is back in it later. */
  predicate StaysOut(times: seq<int>, now: int, later: int, window: int) {
    forall i :: 0 <= i < |times| ==> now - times[i] < window || later - times[i] >= window
  }

  /** Then it does not matter that it was dropped. */
  lemma {:induction false} RecentOfRecent(times: seq<int>, now: int, later: int, window: int)
    requires StaysOut(times, now, later, window)
    ensures Recent(Recent(times, now, window), later, window) == Recent(times, later, window)
  {
    if times != [] {
      var n := |times| - 1;
      RecentOfRecent(times[..n], now, later, window);
      if now - times[n] < window {
        RecentSnoc(Recent(times[..n], now, window), times[n], later, window);
      }
    }
  }

  lemma RecentSnoc(times: seq<int>, t: int, now: int, window: int)
    ensures Recent(times + [t], now, window) == Recent(times, now, window) + if now - t < window then [t] else []
  {
    assert (times + [t])[..|times|] == times;
  }

  /** Pruning loses nothing: the pruned times and the whole history show the same trailing window,
      now and at any later time. */
  lemma {:induction false} PruningLosesNothing(l: Limiter, arrivals: seq<Arrival>, client: string, now: int)
    requires NonDecreasing(arrivals) && (arrivals != [] ==> arrivals[|arrivals| - 1].at <= now)
    ensures Recent(TimesOf(After(l, arrivals), client), now, l.window)
         == Recent(Admissions(l, arrivals, client), now, l.window)
  {
    if arrivals != [] {
      var n := |arrivals| - 1;
      var last := arrivals[n];
      var before := arrivals[..n];
      PruningLosesNothing(l, before, client, now);
      if ClientOf(last.host) == client && Admits(l, arrivals, n) {
        var times := TimesOf(After(l, before), client);
        RecentSnoc(Recent(times, last.at, l.window), last.at, now, l.window);
        RecentSnoc(Admissions(l, before, client), last.at, now, l.window);
        RecentOfRecent(times, last.at, now, l.window);
      }
    }
  }

  /** A request is refused exactly when the whole history of its client has `maxRequests` admissions in
      the trailing window. */
  lemma RefusedIffFull(l: Limiter, arrivals: seq<Arrival>, i: nat)
    requires NonDecreasing(arrivals) && i < |arrivals|
    ensures !Admits(l, arrivals, i)
       <==> |Recent(Admissions(l, arrivals[..i], ClientOf(arrivals[i].host)), arrivals[i].at, l.window)|
            >= l.maxRequests
  {
    PruningLosesNothing(l, arrivals[..i], ClientOf(arrivals[i].host), arrivals[i].at);
  }

  /** How many of the times lie in [from, to). */
  function Within(times: seq<int>, from: int, to: int): nat {
    if times == [] then 0
    else
      var n := |times| - 1;
      Within(times[..n], from, to) + if from <= times[n] < to then 1 else 0
  }

  /** An interval that ends no earlier than `now` and is no longer than the window is within the trailing window. */
  lemma {:induction false} WithinRecent(times: seq<int>, from: int, now: int, window: int)
    requires now < from + window
    ensures Within(times, from, from + window) <= |Recent(times, now, window)|
  {
    if times != [] {
      WithinRecent(times[..|times| - 1], from, now, window);
    }
  }

  lemma WithinSnoc(times: seq<int>, t: int, from: int, to: int)
    ensures Within(times + [t], from, to) == Within(times, from, to) + if from <= t < to then 1 else 0
  {
    assert (times + [t])[..|times|] == times;
  }

  /** Every half-open interval as long as the window holds at most `maxRequests` admissions of a client. */
  lemma {:induction false} WindowBound(l: Limiter, arrivals: seq<Arrival>, client: string, from: int)
    requires NonDecreasing(arrivals) && l.requests == map[]
    ensures Within(Admissions(l, arrivals, client), from, from + l.window)
         <= if l.maxRequests < 0 then 0 else l.maxRequests
  {
    if arrivals != [] {
      var n := |arrivals| - 1;
      WindowBound(l, arrivals[..n], client, from);
      if ClientOf(arrivals[n].host) == client && Admits(l, arrivals, n) {
        var before := Admissions(l, arrivals[..n], client);
        WithinSnoc(before, arrivals[n].at, from, from + l.window);
        if from <= arrivals[n].at < from + l.window {
          RefusedIffFull(l, arrivals, n);
          WithinRecent(before, from, arrivals[n].at, l.window);
        }
      }
    }
  }

  lemma OneMore(l: Limiter, arrivals: seq<Arrival>, a: Arrival)
    ensures var r := Decide(After(l, arrivals), a.host, a.at);
            && After(l, arrivals + [a]) == r.0
            && Admissions(l, arrivals + [a], ClientOf(a.host))
               == Admissions(l, arrivals, ClientOf(a.host)) + if r.1 then [a.at] else []
  {
    assert (arrivals + [a])[..|arrivals|] == arrivals;
  }

  /** The bound needs the clock: when it steps back, three requests of a client get through in a window
      of ten that admits two. */
  lemma BackwardClockBreaksBound()
    ensures var l := Limiter(2, 10, map[]);
            var arrivals := [Arrival(None, 0)] + [Arrival(None, 0)] + [Arrival(None, 20)] + [Arrival(None, 5)];
            Within(Admissions(l, arrivals, "unknown"), 0, 10) == 3
  {
    var l := Limiter(2, 10, map[]);
    var one := [Arrival(None, 0)];
    var two := one + [Arrival(None, 0)];
    var three := two + [Arrival(None, 20)];
    assert [] + one == one;
    OneMore(l, [], Arrival(None, 0));
    RecentSnoc([], 0, 0, 10);
    assert [] + [0] == [0];
    OneMore(l, one, Arrival(None, 0));
    assert Admissions(l, two, "unknown") == [0] + [0];
    RecentSnoc([0], 0, 20, 10);
    RecentSnoc([], 0, 20, 10);
    OneMore(l, two, Arrival(None, 20));
    RecentSnoc([], 20, 5, 10);
    OneMore(l, three, Arrival(None, 5));
    WithinSnoc([0] + [0] + [20], 5, 0, 10);
    WithinSnoc([0] + [0], 20, 0, 10);
    WithinSnoc([0], 0, 0, 10);
    WithinSnoc([], 0, 0, 10);
  }

  // ---------- Clients do not affect each other ----------

  /** Requests without a host count as one client, called "unknown". */
  predicate SameClient(a: Option<string>, b: Option<string>) {
    a == b || (a in {None, Some("unknown")} && b in {None, Some("unknown")})
  }

  /** The arrivals from the client with this host. */
  function OnlyFrom(arrivals: seq<Arrival>, host: Option<string>): seq<Arrival> {
    if arrivals == [] then []
    else
      var n := |arrivals| - 1;
      OnlyFrom(arrivals[..n], host) + if SameClient(arrivals[n].host, host) then [arrivals[n]] else []
  }

  lemma SameClientIff(a: Option<string>, b: Option<string>)
    ensures SameClient(a, b) <==> ClientOf(a) == ClientOf(b)
  {
  }

  /** A decision looks at its own client's times only, and changes no others. */
  lemma DecisionIsLocal(l: Limiter, m: Limiter, host: Option<string>, now: int, client: string)
    requires l.maxRequests == m.maxRequests && l.window == m.window && TimesOf(l, client) == TimesOf(m, client)
    ensures ClientOf(host) != client ==> TimesOf(Decide(l, host, now).0, client) == TimesOf(l, client)
    ensures ClientOf(host) == client ==>
              && Decide(l, host, now).1 == Decide(m, host, now).1
              && TimesOf(Decide(l, host, now).0, client) == TimesOf(Decide(m, host, now).0, client)
  {
  }

  lemma {:induction false} OwnTimesOnly(l: Limiter, arrivals: seq<Arrival>, host: Option<string>)
    ensures TimesOf(After(l, arrivals), ClientOf(host)) == TimesOf(After(l, OnlyFrom(arrivals, host)), ClientOf(host))
  {
    if arrivals != [] {
      var n := |arrivals| - 1;
      var last, own := arrivals[n], OnlyFrom(arrivals[..n], host);
      OwnTimesOnly(l, arrivals[..n], host);
      SameClientIff(last.host, host);
      DecisionIsLocal(After(l, arrivals[..n]), After(l, own), last.host, last.at, ClientOf(host));
      if SameClient(last.host, host) {
        OneMore(l, own, last);
      } else {
        assert own + [] == own;
      }
    }
  }

  /** A request fares as if its client were alone: the decision is that on the earlier arrivals from the same
      host, where requests without a host and from a host called "unknown" are together. */
  lemma ClientsAreIndependent(l: Limiter, arrivals: seq<Arrival>, i: nat)
    requires i < |arrivals|
    ensures var own := OnlyFrom(arrivals[..i], arrivals[i].host);
            Admits(l, arrivals, i) == Admits(l, own + [arrivals[i]], |own|)
  {
    var own := OnlyFrom(arrivals[..i], arrivals[i].host);
    OwnTimesOnly(l, arrivals[..i], arrivals[i].host);
    assert (own + [arrivals[i]])[..|own|] == own;
  }

  lemma AdmissionsSnoc(l: Limiter, arrivals: seq<Arrival>, a: Arrival, client: string)
    requires ClientOf(a.host) == client
    ensures Admissions(l, arrivals + [a], client)
         == Admissions(l, arrivals, client) + if Admits(l, arrivals + [a], |arrivals|) then [a.at] else []
  {
    assert (arrivals + [a])[..|arrivals|] == arrivals;
  }

  /** The history of a client is that of its own arrivals. */
  lemma {:induction false} HistoryIsOwn(l: Limiter, arrivals: seq<Arrival>, host: Option<string>)
    ensures Admissions(l, arrivals, ClientOf(host)) == Admissions(l, OnlyFrom(arrivals, host), ClientOf(host))
  {
    if arrivals != [] {
      var n := |arrivals| - 1;
      HistoryIsOwn(l, arrivals[..n], host);
      SameClientIff(arrivals[n].host, host);
      if SameClient(arrivals[n].host, host) {
        OwnHistoryGrows(l, arrivals, host);
      } else {
        var own := OnlyFrom(arrivals[..n], host);
        assert own + [] == own;
      }
    }
  }

  lemma OwnHistoryGrows(l: Limiter, arrivals: seq<Arrival>, host: Option<string>)
    requires arrivals != [] && SameClient(arrivals[|arrivals| - 1].host, host)
    requires var before := arrivals[..|arrivals| - 1];
             Admissions(l, before, ClientOf(host)) == Admissions(l, OnlyFrom(before, host), ClientOf(host))
    ensures Admissions(l, arrivals, ClientOf(host)) == Admissions(l, OnlyFrom(arrivals, host), ClientOf(host))
  {
    var n := |arrivals| - 1;
    var last, own := arrivals[n], OnlyFrom(arrivals[..n], host);
    SameClientIff(last.host, host);
    SameOwn(arrivals[..n], last.host, host);
    ClientsAreIndependent(l, arrivals, n);
    AdmissionsSnoc(l, own, last, ClientOf(host));
    AdmissionsSnoc(l, arrivals[..n], last, ClientOf(host));
    assert arrivals[..n] + [last] == arrivals;
  }

  lemma {:induction false} SameOwn(arrivals: seq<Arrival>, host: Option<string>, other: Option<string>)
    requires SameClient(host, other)
    ensures OnlyFrom(arrivals, host) == OnlyFrom(arrivals, other)
  {
    if arrivals != [] {
      SameOwn(arrivals[..|arrivals| - 1], host, other);
    }
  }
}
