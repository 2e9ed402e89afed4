/** A deleted agent is never written back, not even by executions that still hold it. */
module DeletedAgents {
  import opened Prelude
  import opened Records
  import opened Lifecycle
  import opened LifecycleInvariant
  import Registry

  /** The agent is known neither in memory nor in the store. */
  ghost predicate Gone(s: System, agent: Id) {
    agent !in s.registry.agents && (s.disk.Some? ==> agent !in s.disk.value.agents)
  }

  /** The event does not register the agent, nor die while registering it. */
  predicate DoesNotRegister(e: Event, agent: Id) {
    && (e.Register? ==> e.agent != agent)
    && (e.Restart? && e.during.Register? ==> e.during.agent != agent)
  }

  lemma {:induction false} WritesLeaveGone(disk: Option<Disk>, ws: seq<Write>, agent: Id)
    requires disk.Some? ==> agent !in disk.value.agents
    requires forall w :: w in ws && w.PutAgent? ==> w.row.id != agent
    ensures var disk' := DoWrites(disk, ws); disk'.Some? ==> agent !in disk'.value.agents
    decreases |ws|
  {
    if ws != [] {
      WritesLeaveGone(DoWrite(disk, ws[0]), ws[1..], agent);
    }
  }

  lemma WritesNameLiveAgents(s: System, e: Event, agent: Id)
    requires SystemInv(s) && Possible(s, e) && Gone(s, agent) && (e.Register? ==> e.agent != agent)
    ensures forall w :: w in Writes(s, e) && w.PutAgent? ==> w.row.id != agent
  {
  }

  lemma AdvanceLeavesGone(s: System, e: Event, agent: Id)
    requires SystemInv(s) && Possible(s, e) && Gone(s, agent) && (e.Register? ==> e.agent != agent)
    ensures Gone(Advance(s, e), agent)
  {
    AdvanceKeepsInv(s, e);
    if e.Begin? {
      BeginLeavesGone(s, e.k, e.now, agent);
    }
  }

  lemma BeginLeavesGone(s: System, k: nat, now: int, agent: Id)
    requires SystemInv(s) && k in s.runs && s.runs[k].Spawned? && Gone(s, agent)
    ensures agent !in BeginExecution(s, k, now).registry.agents
  {
  }

  lemma RebootLeavesGone(s: System, e: Event, agent: Id)
    requires SystemInv(s) && Enabled(s, e) && e.Restart? && Gone(s, agent) && DoesNotRegister(e, agent)
    ensures Gone(Reboot(s, e), agent)
  {
    var ws := Writes(s, e.during)[..e.written];
    WritesNameLiveAgents(s, e.during, agent);
    forall w | w in ws && w.PutAgent?
      ensures w.row.id != agent
    {
      assert w in Writes(s, e.during);
    }
    WritesLeaveGone(s.disk, ws, agent);
    TornDiskKeeps(s, e.during, e.written);
    RestartFromKeeps(s.scheduler.maxRetries, TornDisk(s, e.during, e.written), e.taskOrder, e.agentOrder, e.now);
  }

  /** Over every run, with executions of the agent still under way and crashes at any point: once
      deleted, an agent that is not registered anew stays deleted in memory and in the store. */
  lemma {:induction false} DeletedStaysDeleted(s: System, events: seq<Event>, agent: Id)
    requires SystemInv(s) && Gone(s, agent) && Feasible(s, events)
    requires forall e :: e in events ==> DoesNotRegister(e, agent)
    ensures Gone(Run(s, events), agent)
    decreases |events|
  {
    if events != [] {
      assert DoesNotRegister(events[0], agent);
      StepKeepsInv(s, events[0]);
      if events[0].Restart? {
        RebootLeavesGone(s, events[0], agent);
      } else {
        AdvanceLeavesGone(s, events[0], agent);
      }
      DeletedStaysDeleted(Apply(s, events[0]), events[1..], agent);
    }
  }

  /** Deleting makes the agent gone; listing, index and store agree at every await point. */
  lemma DeleteMakesGone(s: System, agent: Id)
    requires SystemInv(s)
    ensures Gone(RemoveAgent(s, agent), agent)
    ensures forall group :: agent !in Registry.MembersOf(RemoveAgent(s, agent).registry.index, group)
  {
    RemoveKeeps(s, agent);
    Registry.DeleteConsistent(s.registry, agent);
    var r := RemoveAgent(s, agent).registry;
    forall group
      ensures agent !in Registry.MembersOf(r.index, group)
    {
      assert Registry.ListOk(r, group);
    }
  }

  /** After every run listing, index and store agree: the stored agents are the live ones, every index
      list has exactly the live ids of its group, and listing filters all agents directly. */
  lemma RegistryAgrees(s: System, events: seq<Event>, status: Option<AgentStatus>, group: Option<string>)
    requires SystemInv(s) && Feasible(s, events)
    ensures var s' := Run(s, events);
            && (s'.disk.Some? ==> s'.disk.value.agents == s'.registry.agents)
            && (forall g :: Registry.ListOk(s'.registry, g))
            && Registry.List(s'.registry, status, group) == Registry.Matching(s'.registry.agents, status, group)
  {
    RunKeepsInv(s, events);
    Registry.ListIsDirectFilter(Run(s, events).registry, status, group);
  }
}
