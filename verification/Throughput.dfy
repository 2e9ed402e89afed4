/** Task outcomes bucketed over the trailing window (`throughput` in src/orchestrator/engine.py). */
module Throughput {
  import opened Prelude
  import opened Lifecycle

  datatype Bucket = Bucket(t: int, completed: nat, failed: nat)

  const INDEX_ERROR := "list index out of range"

  /** The largest multiple of `bucket` not above `start`. */
  function FirstEdge(start: int, bucket: int): int
    requires bucket > 0
  {
    start - start % bucket
  }

  function Edge(start: int, bucket: int, i: int): int
    requires bucket > 0
  {
    FirstEdge(start, bucket) + i * bucket
  }

  /** The outcomes of one kind with from <= at < to. */
  function Count(outcomes: seq<Outcome>, good: bool, from: int, to: int): nat {
    if outcomes == [] then 0
    else
      var n := |outcomes| - 1;
      Count(outcomes[..n], good, from, to) + if outcomes[n].good == good && from <= outcomes[n].at < to then 1 else 0
  }

  function Later(a: int, b: int): int {
    if a >= b then a else b
  }

  /** The buckets cover the window from the first edge, one beside the other, and each counts the
      outcomes in it that are not before the window. */
  ghost predicate IsSeries(buckets: seq<Bucket>, outcomes: seq<Outcome>, start: int, bucket: int)
    requires bucket > 0
  {
    forall i :: 0 <= i < |buckets| ==>
        Counts(buckets[i], outcomes, start, Edge(start, bucket, i), Edge(start, bucket, i + 1))
  }

  predicate Counts(b: Bucket, outcomes: seq<Outcome>, start: int, from: int, to: int) {
    && b.t == from
    && b.completed == Count(outcomes, true, Later(from, start), to)
    && b.failed == Count(outcomes, false, Later(from, start), to)
  }

  /** The edges below `now` are exactly the first `n`. */
  predicate Covers(n: nat, start: int, bucket: int, now: int)
    requires bucket > 0
  {
    now <= Edge(start, bucket, n) && (n > 0 ==> Edge(start, bucket, n - 1) < now)
  }

  // ---------- Edges ----------

  lemma NextEdge(start: int, bucket: int, i: int)
    requires bucket > 0
    ensures Edge(start, bucket, i + 1) == Edge(start, bucket, i) + bucket
  {
  }

  lemma {:induction false} EdgesAscend(start: int, bucket: int, i: int, j: int)
    requires bucket > 0 && i <= j
    ensures Edge(start, bucket, i) <= Edge(start, bucket, j)
    decreases j - i
  {
    if i < j {
      EdgesAscend(start, bucket, i, j - 1);
      NextEdge(start, bucket, j - 1);
    }
  }

  /** The bucket that a time falls into. */
  function IndexOf(at: int, start: int, bucket: int): int
    requires bucket > 0
  {
    (at - FirstEdge(start, bucket)) / bucket
  }

  lemma IndexIsBucket(at: int, start: int, bucket: int, i: int)
    requires bucket > 0
    ensures IndexOf(at, start, bucket) == i <==> Edge(start, bucket, i) <= at < Edge(start, bucket, i + 1)
  {
    var d := at - FirstEdge(start, bucket);
    var q := IndexOf(at, start, bucket);
    assert d == q * bucket + d % bucket;
    NextEdge(start, bucket, q);
    NextEdge(start, bucket, i);
    if q < i {
      EdgesAscend(start, bucket, q + 1, i);
    } else if i < q {
      EdgesAscend(start, bucket, i + 1, q);
    }
  }

  lemma MultipleHasNoRest(q: int, bucket: int)
    requires bucket > 0
    ensures (q * bucket) % bucket == 0 && (q * bucket) / bucket == q
  {
    var r := (q * bucket) % bucket;
    assert q * bucket == ((q * bucket) / bucket) * bucket + r;
    QuotientIsUnique(q, (q * bucket) / bucket, r, bucket);
  }

  lemma Product(k: int, width: int)
    requires width > 0
    ensures k >= 1 ==> k * width >= width
    ensures k <= -1 ==> k * width <= -width
  {
    if k >= 1 {
      assert (k - 1) * width >= 0;
    } else if k <= -1 {
      assert (-k - 1) * width >= 0;
    }
  }

  lemma Difference(q: int, p: int, width: int)
    ensures (q - p) * width == q * width - p * width
  {
  }

  lemma QuotientIsUnique(q: int, p: int, r: int, bucket: int)
    requires 0 <= r < bucket && q * bucket == p * bucket + r
    ensures q == p && r == 0
  {
    Difference(q, p, bucket);
    Product(q - p, bucket);
  }

  /** Edges are aligned: they are multiples of the bucket width. */
  lemma EdgesAligned(start: int, bucket: int, i: int)
    requires bucket > 0
    ensures Edge(start, bucket, i) % bucket == 0
  {
    var q := start / bucket;
    assert FirstEdge(start, bucket) == q * bucket;
    assert Edge(start, bucket, i) == (q + i) * bucket;
    MultipleHasNoRest(q + i, bucket);
  }

  // ---------- The two loops ----------

  /** The empty buckets, oldest first. */
  method MakeBuckets(now: int, start: int, bucket: int) returns (buckets: seq<Bucket>)
    requires bucket > 0
    ensures Covers(|buckets|, start, bucket, now)
    ensures IsSeries(buckets, [], start, bucket)
  {
    buckets := [];
    var edge := start - start % bucket;
    while edge < now
      invariant edge == Edge(start, bucket, |buckets|)
      invariant |buckets| > 0 ==> Edge(start, bucket, |buckets| - 1) < now
      invariant IsSeries(buckets, [], start, bucket)
      decreases now - edge
    {
      buckets := buckets + [Bucket(edge, 0, 0)];
      NextEdge(start, bucket, |buckets| - 1);
      edge := edge + bucket;
    }
  }

  function Bumped(b: Bucket, good: bool): Bucket {
    if good then b.(completed := b.completed + 1) else b.(failed := b.failed + 1)
  }

  lemma CountSnoc(outcomes: seq<Outcome>, o: Outcome, good: bool, from: int, to: int)
    ensures Count(outcomes + [o], good, from, to)
         == Count(outcomes, good, from, to) + if o.good == good && from <= o.at < to then 1 else 0
  {
    assert (outcomes + [o])[..|outcomes|] == outcomes;
  }

  lemma Counted(b: Bucket, outcomes: seq<Outcome>, o: Outcome, start: int, from: int, to: int)
    requires Counts(b, outcomes, start, from, to)
    ensures Counts(if start <= o.at && from <= o.at < to then Bumped(b, o.good) else b, outcomes + [o], start, from, to)
  {
    CountSnoc(outcomes, o, true, Later(from, start), to);
    CountSnoc(outcomes, o, false, Later(from, start), to);
  }

  /** What one outcome changes: its own bucket, if it is not before the window and there is one. */
  lemma OneOutcome(buckets: seq<Bucket>, outcomes: seq<Outcome>, o: Outcome, start: int, bucket: int)
    requires bucket > 0 && IsSeries(buckets, outcomes, start, bucket)
    ensures var i := IndexOf(o.at, start, bucket);
            IsSeries(if o.at >= start && 0 <= i < |buckets| then buckets[i := Bumped(buckets[i], o.good)] else buckets,
                     outcomes + [o], start, bucket)
  {
    var i := IndexOf(o.at, start, bucket);
    var buckets' := if o.at >= start && 0 <= i < |buckets| then buckets[i := Bumped(buckets[i], o.good)] else buckets;
    forall j | 0 <= j < |buckets|
      ensures Counts(buckets'[j], outcomes + [o], start, Edge(start, bucket, j), Edge(start, bucket, j + 1))
    {
      IndexIsBucket(o.at, start, bucket, j);
      Counted(buckets[j], outcomes, o, start, Edge(start, bucket, j), Edge(start, bucket, j + 1));
    }
  }

  /** Puts every outcome into its bucket. An outcome of the window finds no first bucket when there is none. */
  method Fill(empty: seq<Bucket>, outcomes: seq<Outcome>, start: int, bucket: int)
      returns (r: Result<seq<Bucket>, string>)
    requires bucket > 0 && IsSeries(empty, [], start, bucket)
    ensures r.Ok? ==> |r.value| == |empty| && IsSeries(r.value, outcomes, start, bucket)
    ensures r.Err? <==> empty == [] && exists o :: o in outcomes && o.at >= start
    ensures r.Err? ==> r.error == INDEX_ERROR
  {
    var buckets := empty;
    var k := 0;
    while k < |outcomes|
      invariant 0 <= k <= |outcomes| && |buckets| == |empty|
      invariant IsSeries(buckets, outcomes[..k], start, bucket)
      invariant empty == [] ==> forall j :: 0 <= j < k ==> outcomes[j].at < start
    {
      var o := outcomes[k];
      assert outcomes[..k + 1] == outcomes[..k] + [o];
      OneOutcome(buckets, outcomes[..k], o, start, bucket);
      k := k + 1;
      if o.at < start {
        continue;
      }
      if buckets == [] {
        return Err(INDEX_ERROR);
      }
      assert Counts(buckets[0], outcomes[..k - 1], start, Edge(start, bucket, 0), Edge(start, bucket, 1));
      var i := (o.at - buckets[0].t) / bucket;
      if 0 <= i < |buckets| {
        buckets := buckets[i := Bumped(buckets[i], o.good)];
      }
    }
    assert outcomes[..k] == outcomes;
    r := Ok(buckets);
  }

  /** A width of zero, by which the source divides, and a negative one, with which its loop need not stop,
      are excluded. */
  method Throughput(outcomes: seq<Outcome>, now: int, window: int, bucket: int) returns (r: Result<seq<Bucket>, string>)
    requires bucket > 0
    ensures r.Ok? ==> Covers(|r.value|, now - window, bucket, now) && IsSeries(r.value, outcomes, now - window, bucket)
    ensures r.Err? <==> Covers(0, now - window, bucket, now) && exists o :: o in outcomes && o.at >= now - window
    ensures r.Err? ==> r.error == "list index out of range"
  {
    var buckets := MakeBuckets(now, now - window, bucket);
    if Covers(0, now - window, bucket, now) {
      CoversOnce(|buckets|, 0, now - window, bucket, now);
    }
    r := Fill(buckets, outcomes, now - window, bucket);
  }

  // ---------- What the series says ----------

  lemma CoversOnce(n: nat, m: nat, start: int, bucket: int, now: int)
    requires bucket > 0 && Covers(n, start, bucket, now) && Covers(m, start, bucket, now)
    ensures n == m
  {
    if n < m {
      EdgesAscend(start, bucket, n, m - 1);
    } else if m < n {
      EdgesAscend(start, bucket, m, n - 1);
    }
  }

  /** How many buckets there are: ceil((window + start % bucket) / bucket). */
  lemma BucketCount(n: nat, now: int, window: int, bucket: int)
    requires window > 0 && bucket > 0 && Covers(n, now - window, bucket, now)
    ensures n == (window + (now - window) % bucket + bucket - 1) / bucket && n > 0
  {
    var start := now - window;
    var span := window + start % bucket;
    assert now == FirstEdge(start, bucket) + span;
    assert span <= n * bucket && (n > 0 ==> (n - 1) * bucket < span);
    assert n > 0;
    var m := (span + bucket - 1) / bucket;
    var rest := (span + bucket - 1) % bucket;
    assert span + bucket - 1 == m * bucket + rest;
    assert (n - 1) * bucket == n * bucket - bucket;
    Between(n, m, rest, span, bucket);
  }

  lemma Between(n: int, m: int, rest: int, span: int, bucket: int)
    requires bucket > 0 && 0 <= rest < bucket && span + bucket - 1 == m * bucket + rest
    requires span <= n * bucket && n * bucket < span + bucket
    ensures n == m
  {
    Difference(n, m, bucket);
    Product(n - m, bucket);
  }

  /** Where the buckets end: at `now` when it is a multiple of the width, else beyond it. */
  lemma LastEdge(n: nat, start: int, bucket: int, now: int)
    requires bucket > 0 && n > 0 && Covers(n, start, bucket, now)
    ensures now <= Edge(start, bucket, n) < now + bucket
    ensures Edge(start, bucket, n) == now <==> now % bucket == 0
  {
    NextEdge(start, bucket, n - 1);
    EdgesAligned(start, bucket, n);
    if now % bucket == 0 && now < Edge(start, bucket, n) {
      var p, q := Edge(start, bucket, n) / bucket, now / bucket;
      assert Edge(start, bucket, n) == p * bucket && now == q * bucket;
      assert (p - q) * bucket == Edge(start, bucket, n) - now;
      QuotientIsUnique(p, q, Edge(start, bucket, n) - now, bucket);
    }
  }

  /** Every outcome in the window is in exactly one bucket; one at `now` itself is in one unless `now` is
      a multiple of the width; none before the window is counted anywhere. */
  lemma EveryOutcomeHasOneBucket(n: nat, start: int, bucket: int, now: int, at: int)
    requires bucket > 0 && n > 0 && Covers(n, start, bucket, now) && start <= at
    ensures var i := IndexOf(at, start, bucket);
            && (0 <= i < n <==> at < Edge(start, bucket, n))
            && (at < now ==> 0 <= i < n)
            && (at == now ==> (0 <= i < n <==> now % bucket != 0))
            && forall j :: 0 <= j < n ==> (Edge(start, bucket, j) <= at < Edge(start, bucket, j + 1) <==> j == i)
  {
    var i := IndexOf(at, start, bucket);
    IndexIsBucket(at, start, bucket, i);
    LastEdge(n, start, bucket, now);
    assert Edge(start, bucket, 0) <= at;
    if i < 0 {
      EdgesAscend(start, bucket, i + 1, 0);
    } else if i < n {
      EdgesAscend(start, bucket, i + 1, n);
    } else {
      EdgesAscend(start, bucket, n, i);
    }
    forall j | 0 <= j < n
      ensures Edge(start, bucket, j) <= at < Edge(start, bucket, j + 1) <==> j == i
    {
      IndexIsBucket(at, start, bucket, j);
    }
  }

  function Total(buckets: seq<Bucket>, good: bool): nat {
    if buckets == [] then 0
    else
      var n := |buckets| - 1;
      Total(buckets[..n], good) + if good then buckets[n].completed else buckets[n].failed
  }

  lemma {:induction false} CountSplits(outcomes: seq<Outcome>, good: bool, from: int, mid: int, to: int)
    requires from <= mid <= to
    ensures Count(outcomes, good, from, to) == Count(outcomes, good, from, mid) + Count(outcomes, good, mid, to)
  {
    if outcomes != [] {
      CountSplits(outcomes[..|outcomes| - 1], good, from, mid, to);
    }
  }

  lemma {:induction false} CountNone(outcomes: seq<Outcome>, good: bool, from: int, to: int)
    requires to <= from
    ensures Count(outcomes, good, from, to) == 0
  {
    if outcomes != [] {
      CountNone(outcomes[..|outcomes| - 1], good, from, to);
    }
  }

  /** Nothing is lost and nothing counted twice: the buckets together hold exactly the outcomes from the
      start of the window to the last edge. */
  lemma {:induction false} Conservation(buckets: seq<Bucket>, outcomes: seq<Outcome>, start: int, bucket: int,
                                        good: bool)
    requires bucket > 0 && IsSeries(buckets, outcomes, start, bucket)
    ensures Total(buckets, good) == Count(outcomes, good, start, Edge(start, bucket, |buckets|))
  {
    if buckets == [] {
      CountNone(outcomes, good, start, Edge(start, bucket, 0));
    } else {
      var n := |buckets| - 1;
      Conservation(buckets[..n], outcomes, start, bucket, good);
      var from, to := Edge(start, bucket, n), Edge(start, bucket, n + 1);
      assert Counts(buckets[n], outcomes, start, from, to);
      NextEdge(start, bucket, n);
      if start <= from {
        CountSplits(outcomes, good, start, from, to);
      } else {
        CountNone(outcomes, good, start, from);
      }
    }
  }

  /** What is counted of a history without future outcomes: everything in the window before `now`, and
      what happened at `now` unless `now` is a multiple of the width. */
  lemma WindowIsCounted(buckets: seq<Bucket>, outcomes: seq<Outcome>, now: int, window: int, bucket: int, good: bool)
    requires bucket > 0 && window > 0 && Covers(|buckets|, now - window, bucket, now)
    requires IsSeries(buckets, outcomes, now - window, bucket)
    requires forall o :: o in outcomes ==> o.at <= now
    ensures Total(buckets, good)
         == Count(outcomes, good, now - window, now) + if now % bucket == 0 then 0
             else Count(outcomes, good, now, now + 1)
  {
    var start := now - window;
    var end := Edge(start, bucket, |buckets|);
    BucketCount(|buckets|, now, window, bucket);
    LastEdge(|buckets|, start, bucket, now);
    Conservation(buckets, outcomes, start, bucket, good);
    CountSplits(outcomes, good, start, now, end);
    if end > now {
      CountSplits(outcomes, good, now, now + 1, end);
      CountBeyond(outcomes, good, now + 1, end);
    } else {
      CountNone(outcomes, good, now, end);
    }
  }

  lemma {:induction false} CountBeyond(outcomes: seq<Outcome>, good: bool, from: int, to: int)
    requires forall o :: o in outcomes ==> o.at < from
    ensures Count(outcomes, good, from, to) == 0
  {
    if outcomes != [] {
      CountBeyond(outcomes[..|outcomes| - 1], good, from, to);
      assert outcomes[|outcomes| - 1] in outcomes;
    }
  }
}
