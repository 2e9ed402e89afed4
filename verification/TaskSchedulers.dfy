/** The scheduler object: a dict of heaps, the delayed tasks and the tasks in flight. */
module TaskSchedulers {
  import opened Prelude
  import opened StableQueue
  import opened PriorityQueues
  import opened Scheduling

  function WithQueue(s: Scheduler, queue: string): Scheduler {
    s.(queues := s.queues[queue := QueueOf(s.queues, queue)])
  }

  lemma PushAfterCreate(s: Scheduler, t: Task)
    ensures Push(WithQueue(s, t.queue), t) == Push(s, t)
  {
    var w := StableInsert(QueueOf(s.queues, t.queue), Waiting(t, t.priority));
    assert s.queues[t.queue := QueueOf(s.queues, t.queue)][t.queue := w] == s.queues[t.queue := w];
  }

  class TaskScheduler {
    var queues: map<string, PriorityQueue<Task>>
    var scheduled: seq<Delayed>
    var inFlight: map<TaskId, Task>
    var maxRetries: nat

    /** The contents of every queue in dispatch order. */
    ghost var contents: map<string, seq<Waiting<Task>>>
    ghost var Repr: set<object>

    ghost predicate Valid()
      reads this, Repr
    {
      && this in Repr
      && (forall d :: d in scheduled ==> d.request.id == Some(d.id))
      && contents.Keys == queues.Keys
      && (forall q :: q in queues ==> queues[q] in Repr && queues[q].Valid() && queues[q].items == contents[q])
      && (forall q, r :: q in queues && r in queues && q != r ==> queues[q] != queues[r])
    }

    ghost function View(): Scheduler
      reads this
    {
      Scheduler(contents, scheduled, inFlight, maxRetries)
    }

    constructor (maxRetries: nat)
      ensures Valid() && View() == NewScheduler(maxRetries)
      ensures fresh(Repr)
    {
      this.queues, this.scheduled, this.inFlight, this.maxRetries := map[], [], map[], maxRetries;
      contents, Repr := map[], {this};
    }

    method Enqueue(r: Request, queue: string, priority: int, uuid: TaskId, now: int) returns (id: TaskId)
      requires Valid()
      modifies Repr
      ensures Valid() && fresh(Repr - old(Repr))
      ensures id == ResolveId(r.id, uuid)
      ensures View() == Push(old(View()), Stamp(id, r, queue, priority, now))
    {
      id := ResolveId(r.id, uuid);
      var task := Stamp(id, r, queue, priority, now);
      CreateQueue(queue);
      assert View() == WithQueue(old(View()), queue);
      PushAfterCreate(old(View()), task);
      PushTo(task);
    }

    /** Makes sure the named queue exists. */
    method CreateQueue(queue: string)
      requires Valid()
      modifies this`queues, this`contents, this`Repr
      ensures Valid() && fresh(Repr - old(Repr)) && queue in queues
      ensures contents == old(contents)[queue := QueueOf(old(contents), queue)]
    {
      if queue !in queues {
        AddQueue(queue);
      }
    }

    method AddQueue(queue: string)
      requires Valid() && queue !in queues
      modifies this`queues, this`contents, this`Repr
      ensures Valid() && fresh(Repr - old(Repr)) && queue in queues
      ensures contents == old(contents)[queue := []]
    {
      var q := new PriorityQueue<Task>();
      queues := queues[queue := q];
      contents, Repr := contents[queue := []], Repr + {q};
    }

    method PushTo(task: Task)
      requires Valid() && task.queue in queues
      modifies Repr
      ensures Valid() && Repr == old(Repr)
      ensures View() == Push(old(View()), task)
    {
      var q := queues[task.queue];
      q.Push(task, task.priority);
      contents := contents[task.queue := q.items];
    }

    /** Takes the first task of a nonempty queue. */
    method PopFrom(queue: string) returns (task: Option<Task>)
      requires Valid() && queue in queues
      modifies Repr
      ensures Valid() && Repr == old(Repr)
      ensures queue in contents && contents[queue] == Rest(old(contents)[queue])
      ensures contents == old(contents)[queue := contents[queue]]
      ensures task == First(old(contents)[queue])
      ensures unchanged(this`scheduled, this`inFlight, this`maxRetries, this`queues)
    {
      var q := queues[queue];
      task := q.Pop();
      contents := contents[queue := q.items];
    }

    method Schedule(r: Request, delay: int, queue: string, priority: int, uuid: TaskId, now: int) returns (id: TaskId)
      requires Valid()
      modifies this`scheduled
      ensures Valid()
      ensures id == ResolveId(r.id, uuid)
      ensures View() == Scheduling.Schedule(old(View()), id, r, now + delay, queue, priority)
    {
      id := ResolveId(r.id, uuid);
      scheduled := PutDelayed(scheduled, Delayed(id, now + delay, r.(id := Some(id)), queue, priority));
    }

    /** Moves every task that has fallen due into its queue. */
    method PromoteDueTasks(now: int)
      requires Valid()
      modifies Repr
      ensures Valid() && fresh(Repr - old(Repr))
      ensures View() == PromoteDue(old(View()), now)
    {
      var due := Due(scheduled, now);
      ghost var goal := PromoteDue(View(), now);
      while due != []
        invariant Valid() && fresh(Repr - old(Repr))
        invariant forall d :: d in due ==> d.request.id == Some(d.id)
        invariant PromoteAll(View(), due, now) == goal
      {
        var d := due[0];
        scheduled := DropDelayed(scheduled, d.id);
        var _ := Enqueue(d.request, d.queue, d.priority, d.id, now);
        due := due[1..];
      }
    }

    method Dequeue(queue: string, now: int) returns (task: Option<Task>)
      requires Valid()
      modifies Repr
      ensures Valid() && fresh(Repr - old(Repr))
      ensures (View(), task) == Scheduling.Dequeue(old(View()), queue, now)
    {
      PromoteDueTasks(now);
      task := TakeFrom(queue);
    }

    method TakeFrom(queue: string) returns (task: Option<Task>)
      requires Valid()
      modifies Repr
      ensures Valid() && Repr == old(Repr)
      ensures (View(), task) == Take(old(View()), queue)
    {
      task := None;
      if queue in queues && queues[queue].Len() > 0 {
        task := PopFrom(queue);
        if task.Some? {
          PutInFlight(task.value);
        }
      }
    }

    method PutInFlight(task: Task)
      requires Valid()
      modifies this`inFlight
      ensures Valid() && View() == old(View()).(inFlight := old(inFlight)[task.id := task])
    {
      inFlight := inFlight[task.id := task];
    }

    method Complete(id: TaskId) returns (known: bool)
      requires Valid()
      modifies this`inFlight
      ensures Valid()
      ensures (View(), known) == Scheduling.Complete(old(View()), id)
    {
      known := id in inFlight;
      inFlight := inFlight - {id};
    }

    method Fail(id: TaskId, now: int) returns (retry: bool)
      requires Valid()
      modifies Repr
      ensures Valid() && fresh(Repr - old(Repr))
      ensures (View(), retry) == Scheduling.Fail(old(View()), id)
    {
      if id !in inFlight {
        return false;
      }
      var task := inFlight[id];
      inFlight := inFlight - {id};
      task := task.(retries := task.retries + 1);
      retry := task.retries <= maxRetries;
      if retry {
        Resubmit(task, now);
      }
    }

    /** Hands a task dict back to `enqueue`, which leaves its stamps alone. */
    method Resubmit(task: Task, now: int)
      requires Valid()
      modifies Repr
      ensures Valid() && fresh(Repr - old(Repr))
      ensures View() == Push(old(View()), task)
    {
      var _ := Enqueue(Resubmission(task), task.queue, task.priority, task.id, now);
    }

    method PendingCount(queue: string) returns (n: nat)
      requires Valid()
      ensures n == |QueueOf(View().queues, queue)|
    {
      n := if queue in queues then queues[queue].Len() else 0;
    }
  }
}
