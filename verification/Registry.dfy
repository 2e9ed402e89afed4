/** What the agent registry does (src/agent/registry.py), as functions on its state. */
module Registry {
  import opened Prelude
  import opened Records

  /** The live agents, and for each group the ids of its agents. */
  datatype State = State(agents: map<Id, AgentRow>, index: map<string, seq<Id>>)

  /** The first dot-separated segment of an agent type. */
  function Group(kind: string): (g: string)
    ensures '.' !in g && g <= kind && (|g| < |kind| ==> kind[|g|] == '.')
  {
    if kind == "" || kind[0] == '.' then "" else [kind[0]] + Group(kind[1..])
  }

  function NewAgent(id: Id, name: string, kind: string, config: Option<Json>, now: int): AgentRow {
    AgentRow(id, name, kind, if config.Some? then config.value.OrEmpty() else Obj(map[]),
             AgentStatus.Pending, now, now, 0, 0)
  }

  function MembersOf(index: map<string, seq<Id>>, group: string): seq<Id> {
    if group in index then index[group] else []
  }

  function AddToIndex(index: map<string, seq<Id>>, row: AgentRow): map<string, seq<Id>> {
    index[Group(row.kind) := MembersOf(index, Group(row.kind)) + [row.id]]
  }

  function Register(r: State, row: AgentRow): State {
    State(r.agents[row.id := row], AddToIndex(r.index, row))
  }

  function Update(r: State, row: AgentRow): State {
    r.(agents := r.agents[row.id := row])
  }

  function WithStatus(row: AgentRow, status: AgentStatus, now: int): AgentRow {
    row.(status := status, updatedAt := now)
  }

  /** `list.remove`: takes out the first occurrence. */
  function RemoveFirst(ids: seq<Id>, id: Id): seq<Id> {
    if ids == [] then []
    else if ids[0] == id then ids[1..]
    else [ids[0]] + RemoveFirst(ids[1..], id)
  }

  function Delete(r: State, id: Id): State {
    if id !in r.agents then r
    else
      var group := Group(r.agents[id].kind);
      State(r.agents - {id},
            if group in r.index && id in r.index[group]
            then r.index[group := RemoveFirst(r.index[group], id)]
            else r.index)
  }

  /** Rebuilding the index when the stored agents are read back, in the given order. */
  function RebuildIndex(agents: map<Id, AgentRow>, order: seq<Id>): map<string, seq<Id>>
    requires forall id :: id in order ==> id in agents
  {
    if order == [] then map[]
    else AddToIndex(RebuildIndex(agents, order[..|order| - 1]), agents[order[|order| - 1]])
  }

  /** The agents `list` returns; an empty group name does not filter. */
  function List(r: State, status: Option<AgentStatus>, group: Option<string>): set<Id> {
    set id | id in r.agents
             && (status.Some? ==> r.agents[id].status == status.value)
             && (group.Some? && group.value != "" ==> id in MembersOf(r.index, group.value))
  }

  /** The agents that have the status and whose first type segment is the group. */
  function Matching(agents: map<Id, AgentRow>, status: Option<AgentStatus>, group: Option<string>): set<Id> {
    set id | id in agents
             && (status.Some? ==> agents[id].status == status.value)
             && (group.Some? && group.value != "" ==> Group(agents[id].kind) == group.value)
  }

  // ---------- The index and the agents agree ----------

  ghost predicate RowsKeyed(agents: map<Id, AgentRow>) {
    forall id :: id in agents ==> agents[id].id == id
  }

  /** The list of a group has exactly the live ids of the group, without duplicates. */
  ghost predicate ListOk(r: State, group: string) {
    && NoDuplicates(MembersOf(r.index, group))
    && (forall id :: id in MembersOf(r.index, group) <==> id in r.agents && Group(r.agents[id].kind) == group)
  }

  ghost predicate Consistent(r: State) {
    && RowsKeyed(r.agents)
    && forall group :: ListOk(r, group)
  }

  /** `list` filters all agents directly, although it goes through the index. */
  lemma ListIsDirectFilter(r: State, status: Option<AgentStatus>, group: Option<string>)
    requires Consistent(r)
    ensures List(r, status, group) == Matching(r.agents, status, group)
  {
    if group.Some? {
      assert ListOk(r, group.value);
    }
  }

  lemma RegisterConsistent(r: State, row: AgentRow)
    requires Consistent(r) && row.id !in r.agents
    ensures Consistent(Register(r, row))
  {
    forall group
      ensures ListOk(Register(r, row), group)
    {
      assert ListOk(r, group);
    }
  }

  /** An update keeps the type of the agent, so its group too. */
  lemma UpdateConsistent(r: State, row: AgentRow)
    requires Consistent(r) && row.id in r.agents && row.kind == r.agents[row.id].kind
    ensures Consistent(Update(r, row))
  {
    forall group
      ensures ListOk(Update(r, row), group)
    {
      assert ListOk(r, group);
    }
  }

  lemma ConsNoDuplicates<T>(x: T, xs: seq<T>)
    requires NoDuplicates(xs) && x !in xs
    ensures NoDuplicates([x] + xs)
  {
  }

  lemma {:induction false} RemoveFirstMembers(ids: seq<Id>, id: Id)
    requires NoDuplicates(ids)
    ensures NoDuplicates(RemoveFirst(ids, id))
    ensures forall x :: x in RemoveFirst(ids, id) <==> x in ids && x != id
  {
    if ids != [] {
      var rest := ids[1..];
      assert ids == [ids[0]] + rest;
      assert forall x :: x in rest ==> x != ids[0];
      if ids[0] != id {
        RemoveFirstMembers(rest, id);
        ConsNoDuplicates(ids[0], RemoveFirst(rest, id));
      }
    }
  }

  lemma DeleteConsistent(r: State, id: Id)
    requires Consistent(r)
    ensures Consistent(Delete(r, id)) && Delete(r, id).agents == r.agents - {id}
  {
    if id in r.agents {
      var own := Group(r.agents[id].kind);
      assert ListOk(r, own);
      RemoveFirstMembers(MembersOf(r.index, own), id);
      forall group
        ensures ListOk(Delete(r, id), group)
      {
        assert ListOk(r, group);
      }
    } else {
      assert r.agents - {id} == r.agents;
    }
  }

  function Restrict(agents: map<Id, AgentRow>, order: seq<Id>): map<Id, AgentRow> {
    map id | id in agents && id in order :: agents[id]
  }

  lemma {:induction false} RebuildPrefix(agents: map<Id, AgentRow>, order: seq<Id>)
    requires RowsKeyed(agents) && NoDuplicates(order) && forall id :: id in order ==> id in agents
    ensures Consistent(State(Restrict(agents, order), RebuildIndex(agents, order)))
  {
    if order != [] {
      var n := |order| - 1;
      var before, last := order[..n], order[n];
      assert order == before + [last];
      RebuildPrefix(agents, before);
      var r := State(Restrict(agents, before), RebuildIndex(agents, before));
      RegisterConsistent(r, agents[last]);
      assert Restrict(agents, order) == Restrict(agents, before)[last := agents[last]];
    }
  }

  /** After a restart the index is right again, whatever order the rows come back in. */
  lemma RebuildConsistent(agents: map<Id, AgentRow>, order: seq<Id>)
    requires RowsKeyed(agents) && Enumerates(order, agents.Keys)
    ensures Consistent(State(agents, RebuildIndex(agents, order)))
  {
    RebuildPrefix(agents, order);
    assert Restrict(agents, order) == agents;
  }
}
