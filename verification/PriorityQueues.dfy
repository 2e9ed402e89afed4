/** The heap behind each task queue (src/orchestrator/scheduler.py). */
module PriorityQueues {
  import opened Prelude
  import opened StableQueue

  /** A heap entry: the tuple (-priority, counter, item). */
  datatype Entry<T> = Entry(neg: int, ticket: nat, item: T)

  /** Lexicographic order of the first two tuple fields. */
  predicate Before<T>(a: Entry<T>, b: Entry<T>) {
    a.neg < b.neg || (a.neg == b.neg && a.ticket < b.ticket)
  }

  /** The tuple comparison of the heap. Were both fields equal it would go on to compare the two
      items, which are dicts and have no order. */
  predicate TupleLess<T>(a: Entry<T>, b: Entry<T>)
    requires a.neg != b.neg || a.ticket != b.ticket
  {
    Before(a, b)
  }

  ghost predicate DistinctTickets<T>(s: seq<Entry<T>>) {
    forall i, j :: 0 <= i < j < |s| ==> s[i].ticket != s[j].ticket
  }

  function Parent(i: nat): nat
    requires i > 0
  {
    (i - 1) / 2
  }

  /** Entry `i` does not come before entry `p`. */
  ghost predicate NotBefore<T>(h: seq<Entry<T>>, i: nat, p: nat)
    requires i < |h| && p < |h|
  {
    !Before(h[i], h[p])
  }

  /** No entry comes before its parent, except possibly the one at `k`. */
  ghost predicate HeapExceptAt<T>(h: seq<Entry<T>>, k: int) {
    forall i :: 0 < i < |h| && i != k ==> NotBefore(h, i, Parent(i))
  }

  /** No entry comes before its parent, except possibly the children of `k`. */
  ghost predicate HeapExceptBelow<T>(h: seq<Entry<T>>, k: int) {
    forall i :: 0 < i < |h| && Parent(i) != k ==> NotBefore(h, i, Parent(i))
  }

  /** The children of `k` do not come before the parent of `k`. */
  ghost predicate GrandchildrenOk<T>(h: seq<Entry<T>>, k: nat) {
    0 < k < |h| ==> forall i :: 0 < i < |h| && Parent(i) == k ==> NotBefore(h, i, Parent(k))
  }

  ghost predicate IsHeap<T>(h: seq<Entry<T>>) {
    HeapExceptAt(h, -1)
  }

  function Swap<T>(s: seq<T>, i: nat, j: nat): (r: seq<T>)
    requires i < |s| && j < |s|
  {
    s[i := s[j]][j := s[i]]
  }

  lemma SwapKeeps<T>(s: seq<Entry<T>>, i: nat, j: nat)
    requires i < |s| && j < |s|
    ensures multiset(Swap(s, i, j)) == multiset(s)
    ensures DistinctTickets(s) ==> DistinctTickets(Swap(s, i, j))
  {
  }

  lemma SwapUp<T>(h: seq<Entry<T>>, i: nat)
    requires 0 < i < |h| && HeapExceptAt(h, i) && GrandchildrenOk(h, i) && Before(h[i], h[Parent(i)])
    ensures HeapExceptAt(Swap(h, i, Parent(i)), Parent(i))
    ensures GrandchildrenOk(Swap(h, i, Parent(i)), Parent(i))
  {
    var p := Parent(i);
    var r := Swap(h, i, p);
    forall k | 0 < k < |r| && k != p
      ensures NotBefore(r, k, Parent(k))
    {
      assert k != i ==> NotBefore(h, k, Parent(k));
      assert Parent(k) == i ==> NotBefore(h, k, p);
    }
    if p > 0 {
      forall k | 0 < k < |r| && Parent(k) == p
        ensures NotBefore(r, k, Parent(p))
      {
        assert NotBefore(h, p, Parent(p));
        assert k != i ==> NotBefore(h, k, p);
      }
    }
  }

  lemma SwapDown<T>(h: seq<Entry<T>>, i: nat, c: nat)
    requires i < c < |h| && Parent(c) == i && HeapExceptBelow(h, i) && GrandchildrenOk(h, i)
    requires Before(h[c], h[i])
    requires forall k :: 0 < k < |h| && Parent(k) == i ==> NotBefore(h, k, c)
    ensures HeapExceptBelow(Swap(h, i, c), c)
    ensures GrandchildrenOk(Swap(h, i, c), c)
  {
    var r := Swap(h, i, c);
    forall k | 0 < k < |r| && Parent(k) != c
      ensures NotBefore(r, k, Parent(k))
    {
      assert Parent(k) != i ==> NotBefore(h, k, Parent(k));
      assert k == i ==> NotBefore(h, c, Parent(i));
    }
    forall k | 0 < k < |r| && Parent(k) == c
      ensures NotBefore(r, k, i)
    {
      assert NotBefore(h, k, c);
    }
  }

  lemma {:induction false} RootComesFirst<T>(h: seq<Entry<T>>, i: nat)
    requires IsHeap(h) && i < |h|
    ensures !Before(h[i], h[0])
  {
    if i > 0 {
      RootComesFirst(h, Parent(i));
      assert NotBefore(h, i, Parent(i));
    }
  }

  lemma TicketsFollowMultiset<T>(a: seq<Entry<T>>, b: seq<Entry<T>>)
    requires multiset(a) == multiset(b) && DistinctTickets(a)
    ensures DistinctTickets(b)
  {
    forall i, j | 0 <= i < j < |b|
      ensures b[i].ticket != b[j].ticket
    {
      if b[i] == b[j] {
        assert b == b[..j] + [b[j]] + b[j + 1..];
        assert b[i] in b[..j];
        assert multiset(b)[b[i]] >= 2;
        OnceInDistinct(a, b[i]);
      } else {
        assert b[i] in multiset(a) && b[j] in multiset(a);
        var x :| 0 <= x < |a| && a[x] == b[i];
        var y :| 0 <= y < |a| && a[y] == b[j];
      }
    }
  }

  lemma {:induction false} OnceInDistinct<T>(a: seq<Entry<T>>, e: Entry<T>)
    requires DistinctTickets(a)
    ensures multiset(a)[e] <= 1
  {
    if a != [] {
      OnceInDistinct(a[1..], e);
      assert a == [a[0]] + a[1..];
      if a[0] == e {
        assert e !in a[1..];
      }
    }
  }

  /** Entries in the order they will be popped. */
  ghost predicate InPopOrder<T>(s: seq<Entry<T>>) {
    forall i, j :: 0 <= i < j < |s| ==> Before(s[i], s[j])
  }

  /** `popOrder` lists the entries of `heap` in pop order, and `counter` is past every ticket. */
  ghost predicate Represents<T>(heap: seq<Entry<T>>, counter: nat, popOrder: seq<Entry<T>>) {
    && IsHeap(heap)
    && multiset(heap) == multiset(popOrder)
    && InPopOrder(popOrder) && DistinctTickets(popOrder)
    && (forall e :: e in popOrder ==> e.ticket < counter)
  }

  ghost function ItemsOf<T>(popOrder: seq<Entry<T>>): (w: seq<Waiting<T>>)
    ensures |w| == |popOrder|
  {
    seq(|popOrder|, i requires 0 <= i < |popOrder| => Waiting(popOrder[i].item, -popOrder[i].neg))
  }

  lemma NewEntryAtEnd<T>(heap: seq<Entry<T>>, counter: nat, popOrder: seq<Entry<T>>, e: Entry<T>)
    requires Represents(heap, counter, popOrder) && e.ticket == counter
    ensures DistinctTickets(heap + [e])
    ensures HeapExceptAt(heap + [e], |heap|) && GrandchildrenOk(heap + [e], |heap|)
  {
    forall k | 0 < k < |heap|
      ensures NotBefore(heap + [e], k, Parent(k))
    {
      assert NotBefore(heap, k, Parent(k));
    }
    TicketsFollowMultiset(popOrder, heap);
    forall i | 0 <= i < |heap|
      ensures heap[i].ticket < counter
    {
      assert heap[i] in multiset(popOrder);
    }
  }

  /** Where the new entry goes in the pop order: the place `StableInsert` gives its item. */
  lemma InsertInPopOrder<T>(popOrder: seq<Entry<T>>, e: Entry<T>, k: nat)
    requires InPopOrder(popOrder) && k == InsertPos(ItemsOf(popOrder), -e.neg)
    requires forall x :: x in popOrder ==> x.ticket < e.ticket
    ensures forall i :: 0 <= i < k ==> Before(popOrder[i], e)
    ensures forall i :: k <= i < |popOrder| ==> Before(e, popOrder[i])
  {
    var w := ItemsOf(popOrder);
    forall i | 0 <= i < |popOrder|
      ensures i < k ==> Before(popOrder[i], e)
      ensures k <= i ==> Before(e, popOrder[i])
    {
      assert popOrder[i] in popOrder;
      if i < k {
        assert w[i].priority >= -e.neg;
      } else {
        assert w[k].priority < -e.neg;
        assert k < i ==> Before(popOrder[k], popOrder[i]);
      }
    }
  }

  lemma ItemsOfConcat<T>(a: seq<Entry<T>>, b: seq<Entry<T>>)
    ensures ItemsOf(a + b) == ItemsOf(a) + ItemsOf(b)
  {
  }

  lemma InsertedItems<T>(popOrder: seq<Entry<T>>, e: Entry<T>, k: nat, popOrder': seq<Entry<T>>)
    requires k == InsertPos(ItemsOf(popOrder), -e.neg) && popOrder' == popOrder[..k] + [e] + popOrder[k..]
    ensures ItemsOf(popOrder') == StableInsert(ItemsOf(popOrder), Waiting(e.item, -e.neg))
  {
    var w := ItemsOf(popOrder);
    InsertSplits(w, Waiting(e.item, -e.neg));
    ItemsOfConcat(popOrder[..k] + [e], popOrder[k..]);
    ItemsOfConcat(popOrder[..k], [e]);
    assert ItemsOf(popOrder[..k]) == w[..k];
    assert ItemsOf(popOrder[k..]) == w[k..];
    assert ItemsOf([e]) == [Waiting(e.item, -e.neg)];
  }

  lemma InsertedMultiset<T>(s: seq<T>, e: T, k: nat, s': seq<T>)
    requires k <= |s| && s' == s[..k] + [e] + s[k..]
    ensures multiset(s') == multiset(s) + multiset{e}
  {
    assert s == s[..k] + s[k..];
  }

  lemma InsertedMembers<T>(s: seq<T>, e: T, k: nat, s': seq<T>)
    requires k <= |s| && s' == s[..k] + [e] + s[k..]
    ensures forall x :: x in s' ==> x == e || x in s
  {
  }

  lemma InsertedOrder<T>(popOrder: seq<Entry<T>>, e: Entry<T>, k: nat, popOrder': seq<Entry<T>>)
    requires InPopOrder(popOrder) && DistinctTickets(popOrder)
    requires k <= |popOrder| && popOrder' == popOrder[..k] + [e] + popOrder[k..]
    requires forall i :: 0 <= i < k ==> Before(popOrder[i], e)
    requires forall i :: k <= i < |popOrder| ==> Before(e, popOrder[i])
    requires forall i :: 0 <= i < |popOrder| ==> popOrder[i].ticket < e.ticket
    ensures InPopOrder(popOrder') && DistinctTickets(popOrder')
  {
  }

  lemma PushKeeps<T>(heap: seq<Entry<T>>, counter: nat, popOrder: seq<Entry<T>>, e: Entry<T>, heap': seq<Entry<T>>)
    returns (popOrder': seq<Entry<T>>)
    requires Represents(heap, counter, popOrder) && e.ticket == counter
    requires IsHeap(heap') && multiset(heap') == multiset(heap) + multiset{e}
    ensures Represents(heap', counter + 1, popOrder')
    ensures ItemsOf(popOrder') == StableInsert(ItemsOf(popOrder), Waiting(e.item, -e.neg))
  {
    var k := InsertPos(ItemsOf(popOrder), -e.neg);
    popOrder' := popOrder[..k] + [e] + popOrder[k..];
    InsertInPopOrder(popOrder, e, k);
    InsertedOrder(popOrder, e, k, popOrder');
    InsertedItems(popOrder, e, k, popOrder');
    InsertedMultiset(popOrder, e, k, popOrder');
    InsertedMembers(popOrder, e, k, popOrder');
  }

  lemma RootIsFirst<T>(heap: seq<Entry<T>>, counter: nat, popOrder: seq<Entry<T>>)
    requires Represents(heap, counter, popOrder)
    ensures |heap| == |popOrder|
    ensures heap != [] ==> heap[0] == popOrder[0]
  {
    assert |multiset(heap)| == |multiset(popOrder)|;
    if heap != [] {
      assert heap[0] in multiset(popOrder);
      var i :| 0 <= i < |popOrder| && popOrder[i] == heap[0];
      assert popOrder[0] in multiset(heap);
      var j :| 0 <= j < |heap| && heap[j] == popOrder[0];
      RootComesFirst(heap, j);
    }
  }

  lemma TailMultiset<T>(s: seq<T>)
    requires s != []
    ensures multiset(s[1..]) == multiset(s) - multiset{s[0]}
  {
    assert s == [s[0]] + s[1..];
  }

  lemma PopKeeps<T>(heap: seq<Entry<T>>, counter: nat, popOrder: seq<Entry<T>>, heap': seq<Entry<T>>)
    returns (popOrder': seq<Entry<T>>)
    requires Represents(heap, counter, popOrder) && heap != []
    requires IsHeap(heap') && multiset(heap') == multiset(heap) - multiset{heap[0]}
    ensures popOrder != [] && heap[0] == popOrder[0] && Represents(heap', counter, popOrder')
    ensures ItemsOf(popOrder') == ItemsOf(popOrder)[1..]
  {
    RootIsFirst(heap, counter, popOrder);
    TailMultiset(popOrder);
    popOrder' := popOrder[1..];
    forall e | e in popOrder'
      ensures e in popOrder
    {
    }
  }

  class PriorityQueue<T> {
    var heap: seq<Entry<T>>
    var counter: nat
    ghost var popOrder: seq<Entry<T>>

    /** The waiting items in dispatch order, with the priorities they were pushed with. */
    ghost var items: seq<Waiting<T>>

    ghost predicate Valid()
      reads this
    {
      Represents(heap, counter, popOrder) && items == ItemsOf(popOrder)
    }

    constructor ()
      ensures Valid() && items == []
    {
      heap, counter, popOrder, items := [], 0, [], [];
    }

    method Push(item: T, priority: int)
      requires Valid()
      modifies this
      ensures Valid()
      ensures items == StableInsert(old(items), Waiting(item, priority))
    {
      var e := Entry(-priority, counter, item);
      var heap' := HeapPush(heap, counter, popOrder, e);
      ghost var popOrder' := PushKeeps(heap, counter, popOrder, e, heap');
      heap, popOrder, counter, items := heap', popOrder', counter + 1, ItemsOf(popOrder');
    }

    /** Removes the item that is first in dispatch order; None when nothing waits. */
    method Pop() returns (item: Option<T>)
      requires Valid()
      modifies this
      ensures Valid()
      ensures item == First(old(items)) && items == Rest(old(items))
    {
      RootIsFirst(heap, counter, popOrder);
      if |heap| == 0 {
        item := None;
      } else {
        item := Some(heap[0].item);
        TicketsFollowMultiset(popOrder, heap);
        var rest := RemoveRoot(heap);
        ghost var popOrder' := PopKeeps(heap, counter, popOrder, rest);
        heap, popOrder, items := rest, popOrder', items[1..];
      }
    }

    method Peek() returns (item: Option<T>)
      requires Valid()
      ensures item == First(items)
    {
      RootIsFirst(heap, counter, popOrder);
      item := if |heap| == 0 then None else Some(heap[0].item);
    }

    function Len(): (n: nat)
      requires Valid()
      reads this
      ensures n == |items|
    {
      RootIsFirst(heap, counter, popOrder);
      |heap|
    }
  }

  method HeapPush<T>(h: seq<Entry<T>>, ghost counter: nat, ghost popOrder: seq<Entry<T>>, e: Entry<T>)
    returns (r: seq<Entry<T>>)
    requires Represents(h, counter, popOrder) && e.ticket == counter
    ensures IsHeap(r) && multiset(r) == multiset(h) + multiset{e}
  {
    NewEntryAtEnd(h, counter, popOrder, e);
    r := SiftUp(h + [e], |h|);
  }

  /** Restores the heap by moving the entry at `pos` towards the root. */
  method SiftUp<T>(h: seq<Entry<T>>, pos: nat) returns (r: seq<Entry<T>>)
    requires pos < |h| && DistinctTickets(h)
    requires HeapExceptAt(h, pos) && GrandchildrenOk(h, pos)
    ensures IsHeap(r) && multiset(r) == multiset(h)
  {
    r := h;
    var i := pos;
    while i > 0
      invariant 0 <= i < |r| && multiset(r) == multiset(h) && DistinctTickets(r)
      invariant HeapExceptAt(r, i) && GrandchildrenOk(r, i)
    {
      if !TupleLess(r[i], r[Parent(i)]) {
        assert NotBefore(r, i, Parent(i));
        return;
      }
      SwapKeeps(r, i, Parent(i));
      SwapUp(r, i);
      r := Swap(r, i, Parent(i));
      i := Parent(i);
    }
  }

  /** Takes out the root: the last entry replaces it and moves down to its place. */
  method RemoveRoot<T>(h: seq<Entry<T>>) returns (r: seq<Entry<T>>)
    requires h != [] && IsHeap(h) && DistinctTickets(h)
    ensures IsHeap(r) && multiset(r) == multiset(h) - multiset{h[0]}
  {
    r := h[..|h| - 1];
    if r == [] {
      assert h == [h[0]];
      return;
    }
    r := r[0 := h[|h| - 1]];
    RootReplaced(h, r);
    r := SiftDown(r);
  }

  method SiftDown<T>(h: seq<Entry<T>>) returns (r: seq<Entry<T>>)
    requires h != [] && HeapExceptBelow(h, 0) && DistinctTickets(h)
    ensures IsHeap(r) && multiset(r) == multiset(h)
  {
    r := h;
    var i := 0;
    while 2 * i + 1 < |r|
      invariant 0 <= i < |r| && multiset(r) == multiset(h) && DistinctTickets(r)
      invariant HeapExceptBelow(r, i) && GrandchildrenOk(r, i)
      decreases |r| - i
    {
      var child := FirstChild(r, i);
      if !TupleLess(r[child], r[i]) {
        HeapWhenSettled(r, i);
        return;
      }
      SwapKeeps(r, i, child);
      SwapDown(r, i, child);
      r := Swap(r, i, child);
      i := child;
    }
    HeapWhenSettled(r, i);
  }

  /** The child of `i` that comes first. */
  method FirstChild<T>(h: seq<Entry<T>>, i: nat) returns (child: nat)
    requires 2 * i + 1 < |h| && DistinctTickets(h)
    ensures i < child < |h| && Parent(child) == i
    ensures forall k :: 0 < k < |h| && Parent(k) == i ==> NotBefore(h, k, child)
  {
    child := 2 * i + 1;
    if child + 1 < |h| && TupleLess(h[child + 1], h[child]) {
      child := child + 1;
    }
  }

  lemma HeapWhenSettled<T>(h: seq<Entry<T>>, i: nat)
    requires i < |h| && HeapExceptBelow(h, i)
    requires 2 * i + 1 < |h| ==>
               exists c :: 0 < c < |h| && Parent(c) == i && !Before(h[c], h[i])
                           && (forall k :: 0 < k < |h| && Parent(k) == i ==> NotBefore(h, k, c))
    ensures IsHeap(h)
  {
    if 2 * i + 1 < |h| {
      var c :| 0 < c < |h| && Parent(c) == i && !Before(h[c], h[i])
               && (forall k :: 0 < k < |h| && Parent(k) == i ==> NotBefore(h, k, c));
      forall k | 0 < k < |h| && Parent(k) == i
        ensures NotBefore(h, k, i)
      {
        assert NotBefore(h, k, c);
      }
    }
  }

  lemma RootReplaced<T>(h: seq<Entry<T>>, r: seq<Entry<T>>)
    requires |h| > 1 && IsHeap(h) && DistinctTickets(h)
    requires r == h[..|h| - 1][0 := h[|h| - 1]]
    ensures HeapExceptBelow(r, 0) && DistinctTickets(r)
    ensures multiset(r) == multiset(h) - multiset{h[0]}
  {
    forall k | 0 < k < |r| && Parent(k) != 0
      ensures NotBefore(r, k, Parent(k))
    {
      assert NotBefore(h, k, Parent(k));
    }
    RootReplacedMultiset(h, r);
  }

  lemma RootReplacedMultiset<T>(h: seq<T>, r: seq<T>)
    requires |h| > 1 && r == h[..|h| - 1][0 := h[|h| - 1]]
    ensures multiset(r) == multiset(h) - multiset{h[0]}
  {
    var n := |h| - 1;
    assert h == h[..n] + [h[n]];
  }
}
