/** The executor object: `execute` in the blocks the event loop runs, `cancel` and `shutdown`. */
module Executors {
  import opened Prelude
  import opened ExecutorSpec

  class AgentExecutor {
    var free: nat
    var waiting: seq<Id>
    var phases: map<Id, Phase>
    var active: set<Id>
    var results: map<Id, Entry>

    ghost function View(): Pool
      reads this
    {
      Pool(free, waiting, phases, active, results)
    }

    constructor (maxConcurrent: nat)
      ensures View() == NewPool(maxConcurrent)
    {
      free, waiting, phases, active, results := maxConcurrent, [], map[], {}, map[];
    }

    /** The semaphore's release: the first waiter is served, or the counter goes up. */
    method ReleasePermit()
      modifies this
      ensures View() == Release(old(View()))
    {
      if waiting == [] {
        free := free + 1;
      } else {
        phases := phases[waiting[0] := Granted(false)];
        waiting := waiting[1..];
      }
    }

    /** `execute` up to its first await: of a permit, or of the task it has created. */
    method Execute(id: Id)
      requires id !in phases
      modifies this
      ensures View() == DoExecute(old(View()), id)
    {
      if free > 0 && waiting == [] {
        free := free - 1;
        Start(id);
      } else {
        phases := phases[id := Waiting];
        waiting := waiting + [id];
      }
    }

    method Start(id: Id)
      modifies this
      ensures View() == Launch(old(View()), id)
    {
      phases := phases[id := Holding(Inner.Running, false)];
      active := active + {id};
    }

    /** `execute` after it was granted a permit. */
    method Enter(id: Id)
      requires id in phases && phases[id].Granted?
      modifies this
      ensures View() == DoEnter(old(View()), id)
    {
      if phases[id].aborted {
        phases := phases[id := Raised];
        ReleasePermit();
      } else {
        Start(id);
      }
    }

    /** `execute` after its inner task is done. */
    method Resume(id: Id)
      requires id in phases && phases[id].Holding? && phases[id].inner.Done()
      modifies this
      ensures View() == DoResume(old(View()), id)
    {
      var Holding(inner, aborted) := phases[id];
      active := active - {id};
      if aborted || inner.Cancelled? {
        phases := phases[id := Raised];
      } else {
        results := results[id := if inner.Succeeded? then inner.value else ErrorEntry(inner.message)];
        phases := phases[id := Returned];
      }
      ReleasePermit();
    }

    /** After the events since the executor was made: exactly the executions that returned have a result,
        and it is what their own handler came to. */
    function GetResult(id: Id, ghost maxConcurrent: nat, ghost events: seq<Event>): (r: Option<Entry>)
      reads this
      requires CanRun(NewPool(maxConcurrent), events) && View() == Run(NewPool(maxConcurrent), events)
      ensures r.Some? <==> id in phases && phases[id].Returned?
      ensures r.Some? ==> r == Outcome(events, id)
    {
      ResultsAreOutcomes(maxConcurrent, events, id);
      if id in results then Some(results[id]) else None
    }

    method Cancel(id: Id) returns (cancelled: bool)
      requires id in active ==> id in phases && phases[id].Holding?
      modifies this`phases
      ensures (View(), cancelled) == DoCancel(old(View()), id)
      ensures cancelled <==> id in active && (old(phases)[id].inner.Running? || old(phases)[id].inner.CancelRequested?)
      ensures phases == if cancelled then old(phases)[id := old(phases)[id].(inner := CancelRequested)] else old(phases)
    {
      if id in active && !phases[id].inner.Done() {
        phases := phases[id := phases[id].(inner := CancelRequested)];
        return true;
      }
      return false;
    }

    /** Cancels the active tasks one after the other. */
    method Shutdown()
      requires forall id :: id in active ==> id in phases && phases[id].Holding?
      modifies this`phases
      ensures View() == DoShutdown(old(View()))
    {
      var rest := active;
      while rest != {}
        invariant rest <= active
        invariant phases.Keys == old(phases.Keys)
        invariant forall id :: id in phases ==>
                    phases[id] == if id in active - rest then Doomed(old(phases)[id]) else old(phases)[id]
        decreases rest
      {
        var id :| id in rest;
        phases := phases[id := Doomed(phases[id])];
        rest := rest - {id};
      }
    }
  }
}
