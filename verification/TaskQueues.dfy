/** Which tasks a queue holds, and how pushing and taking change that. */
module TaskQueues {
  import opened Prelude
  import opened StableQueue
  import opened Scheduling

  ghost function TaskIds(w: seq<Waiting<Task>>): set<TaskId> {
    set e | e in w :: e.item.id
  }

  /** No task waits twice in the queue. */
  ghost predicate DistinctTasks(w: seq<Waiting<Task>>) {
    forall i, j :: 0 <= i < j < |w| ==> w[i].item.id != w[j].item.id
  }

  lemma InsertIds(w: seq<Waiting<Task>>, e: Waiting<Task>)
    ensures TaskIds(StableInsert(w, e)) == TaskIds(w) + {e.item.id}
  {
    InsertMembers(w, e);
  }

  lemma InsertDistinct(w: seq<Waiting<Task>>, e: Waiting<Task>)
    requires DistinctTasks(w) && e.item.id !in TaskIds(w)
    ensures DistinctTasks(StableInsert(w, e))
  {
    InsertSplits(w, e);
    var k := InsertPos(w, e.priority);
    forall i | 0 <= i < |w|
      ensures w[i].item.id != e.item.id
    {
      assert w[i] in w;
    }
  }

  lemma RestIds(w: seq<Waiting<Task>>)
    requires w != [] && DistinctTasks(w)
    ensures TaskIds(w[1..]) == TaskIds(w) - {w[0].item.id}
    ensures DistinctTasks(w[1..])
    ensures forall e :: e in w[1..] ==> e in w && e.item.id != w[0].item.id
  {
    assert w == [w[0]] + w[1..];
    forall e | e in w[1..]
      ensures e in w && e.item.id != w[0].item.id
    {
      var i :| 0 <= i < |w[1..]| && w[1..][i] == e;
      assert w[i + 1] == e;
    }
  }

  /** The queue holds the task exactly once. */
  ghost predicate HoldsOnce(w: seq<Waiting<Task>>, id: TaskId) {
    exists i :: 0 <= i < |w| && w[i].item.id == id && forall j :: 0 <= j < |w| && j != i ==> w[j].item.id != id
  }

  lemma DistinctHoldsOnce(w: seq<Waiting<Task>>, id: TaskId)
    requires DistinctTasks(w) && id in TaskIds(w)
    ensures HoldsOnce(w, id)
  {
    var e :| e in w && e.item.id == id;
    var i :| 0 <= i < |w| && w[i] == e;
    forall j | 0 <= j < |w| && j != i
      ensures w[j].item.id != id
    {
      if j < i {
      } else {
        assert w[i].item.id != w[j].item.id;
      }
    }
  }
}
