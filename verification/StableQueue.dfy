/** The behaviour of one task queue, without its heap: waiting items in dispatch order. */
module StableQueue {
  import opened Prelude

  /** An item pushed with a priority. */
  datatype Waiting<+T> = Waiting(item: T, priority: int)

  /** Puts `e` behind every item of at least its priority and before all others. */
  function StableInsert<T>(w: seq<Waiting<T>>, e: Waiting<T>): (r: seq<Waiting<T>>)
    ensures |r| == |w| + 1
  {
    if w == [] || w[0].priority < e.priority then [e] + w
    else [w[0]] + StableInsert(w[1..], e)
  }

  function First<T>(w: seq<Waiting<T>>): Option<T> {
    if w == [] then None else Some(w[0].item)
  }

  function Rest<T>(w: seq<T>): seq<T> {
    if w == [] then [] else w[1..]
  }

  /** The dispatch order of items given in order of arrival. */
  function DispatchOrder<T>(arrivals: seq<Waiting<T>>): (w: seq<Waiting<T>>)
    ensures |w| == |arrivals|
  {
    if arrivals == [] then []
    else StableInsert(DispatchOrder(arrivals[..|arrivals| - 1]), arrivals[|arrivals| - 1])
  }

  /** Arrival `i` has the highest priority, and is the first to have arrived with it. */
  ghost predicate IsFirstHighest<T>(arrivals: seq<Waiting<T>>, i: nat) {
    && i < |arrivals|
    && (forall j :: 0 <= j < |arrivals| ==> arrivals[j].priority <= arrivals[i].priority)
    && (forall j :: 0 <= j < i ==> arrivals[j].priority < arrivals[i].priority)
  }

  /** The position of the first arrival of the highest priority. */
  function FirstHighest<T>(arrivals: seq<Waiting<T>>): (i: nat)
    requires arrivals != []
    ensures IsFirstHighest(arrivals, i)
  {
    var n := |arrivals| - 1;
    if n == 0 then 0
    else
      var i := FirstHighest(arrivals[..n]);
      FirstHighestAfter(arrivals, i);
      if arrivals[i].priority < arrivals[n].priority then n else i
  }

  function Without<T>(s: seq<T>, i: nat): seq<T>
    requires i < |s|
  {
    s[..i] + s[i + 1..]
  }

  /** The head of the dispatch order is the first arrival of the highest priority, and taking it
      leaves the dispatch order of the other arrivals. */
  lemma {:induction false} HeadIsFirstHighest<T>(arrivals: seq<Waiting<T>>)
    requires arrivals != []
    ensures DispatchOrder(arrivals)[0] == arrivals[FirstHighest(arrivals)]
    ensures DispatchOrder(arrivals)[1..] == DispatchOrder(Without(arrivals, FirstHighest(arrivals)))
  {
    var n := |arrivals| - 1;
    var earlier, last := arrivals[..n], arrivals[n];
    if n == 0 {
      assert DispatchOrder(earlier) == [];
      return;
    }
    HeadIsFirstHighest(earlier);
    var i := FirstHighest(earlier);
    var w := DispatchOrder(earlier);
    assert DispatchOrder(arrivals) == StableInsert(w, last);
    if w[0].priority < last.priority {
      WithoutLast(arrivals);
    } else {
      var rest := StableInsert(w[1..], last);
      assert StableInsert(w, last) == [w[0]] + rest;
      assert ([w[0]] + rest)[1..] == rest;
      WithoutEarlier(arrivals, i);
      AppendArrival(Without(earlier, i), last);
    }
  }

  lemma FirstHighestAfter<T>(arrivals: seq<Waiting<T>>, i: nat)
    requires |arrivals| > 1 && IsFirstHighest(arrivals[..|arrivals| - 1], i)
    ensures arrivals[i].priority < arrivals[|arrivals| - 1].priority ==> IsFirstHighest(arrivals, |arrivals| - 1)
    ensures arrivals[|arrivals| - 1].priority <= arrivals[i].priority ==> IsFirstHighest(arrivals, i)
  {
    var earlier := arrivals[..|arrivals| - 1];
    forall j | 0 <= j < |earlier|
      ensures arrivals[j].priority <= arrivals[i].priority
      ensures j < i ==> arrivals[j].priority < arrivals[i].priority
    {
      assert earlier[j] == arrivals[j];
    }
  }

  lemma WithoutLast<T>(s: seq<T>)
    requires s != []
    ensures Without(s, |s| - 1) == s[..|s| - 1]
  {
  }

  lemma WithoutEarlier<T>(s: seq<T>, i: nat)
    requires i < |s| - 1
    ensures Without(s, i) == Without(s[..|s| - 1], i) + [s[|s| - 1]]
  {
  }

  lemma AppendArrival<T>(arrivals: seq<Waiting<T>>, e: Waiting<T>)
    ensures DispatchOrder(arrivals + [e]) == StableInsert(DispatchOrder(arrivals), e)
  {
    assert (arrivals + [e])[..|arrivals|] == arrivals;
  }

  // ---------- What insertion and removal do to the contents ----------

  /** Highest priority first. */
  ghost predicate Sorted<T>(w: seq<Waiting<T>>) {
    forall i, j :: 0 <= i < j < |w| ==> w[j].priority <= w[i].priority
  }

  /** How many leading items of `w` go before a new item of priority `p`. */
  function InsertPos<T>(w: seq<Waiting<T>>, p: int): (k: nat)
    ensures k <= |w|
    ensures forall i :: 0 <= i < k ==> p <= w[i].priority
    ensures k < |w| ==> w[k].priority < p
  {
    if w == [] || w[0].priority < p then 0 else 1 + InsertPos(w[1..], p)
  }

  lemma {:induction false} InsertSplits<T>(w: seq<Waiting<T>>, e: Waiting<T>)
    ensures var k := InsertPos(w, e.priority);
            StableInsert(w, e) == w[..k] + [e] + w[k..]
  {
    if w == [] || w[0].priority < e.priority {
    } else {
      InsertSplits(w[1..], e);
      var k := InsertPos(w[1..], e.priority);
      assert w[..k + 1] == [w[0]] + w[1..][..k];
      assert w[k + 1..] == w[1..][k..];
    }
  }

  lemma InsertMembers<T>(w: seq<Waiting<T>>, e: Waiting<T>)
    ensures forall x :: x in StableInsert(w, e) <==> x == e || x in w
  {
    InsertSplits(w, e);
    var k := InsertPos(w, e.priority);
    assert w == w[..k] + w[k..];
  }

  lemma InsertSorted<T>(w: seq<Waiting<T>>, e: Waiting<T>)
    requires Sorted(w)
    ensures Sorted(StableInsert(w, e))
  {
    InsertSplits(w, e);
  }

  /** In a sorted queue the new item goes behind exactly the items of at least its priority. */
  lemma InsertGoesBehindPeers<T>(w: seq<Waiting<T>>, e: Waiting<T>, i: nat)
    requires Sorted(w) && i < |w|
    ensures var w' := StableInsert(w, e);
            var k := InsertPos(w, e.priority);
            && w'[k] == e
            && (if e.priority <= w[i].priority then i < k && w'[i] == w[i] else k <= i && w'[i + 1] == w[i])
  {
    InsertSplits(w, e);
    var k := InsertPos(w, e.priority);
    SplicedAt(w, e, k, i);
    if i >= k {
      assert k < i ==> w[i].priority <= w[k].priority;
    }
  }

  lemma SplicedAt<T>(s: seq<T>, x: T, k: nat, i: nat)
    requires k <= |s| && i < |s|
    ensures var s' := s[..k] + [x] + s[k..];
            s'[k] == x && if i < k then s'[i] == s[i] else s'[i + 1] == s[i]
  {
  }

  lemma {:induction false} DispatchOrderSorted<T>(arrivals: seq<Waiting<T>>)
    ensures Sorted(DispatchOrder(arrivals))
  {
    if arrivals != [] {
      DispatchOrderSorted(arrivals[..|arrivals| - 1]);
      InsertSorted(DispatchOrder(arrivals[..|arrivals| - 1]), arrivals[|arrivals| - 1]);
    }
  }
}
