/** The registry object: agent dicts shared with whoever holds them, and the group index. */
module AgentRegistries {
  import opened Prelude
  import opened Records
  import opened SqliteStores
  import opened Lifecycle
  import Registry

  /** An agent dict. Executions keep a reference to it, even past its deletion from the registry. */
  class Agent {
    const id: Id
    const name: string
    const kind: string
    const config: Json
    const createdAt: int
    var status: AgentStatus
    var updatedAt: int
    var completed: nat
    var errors: nat

    constructor (row: AgentRow)
      ensures Row() == row
    {
      id, name, kind, config, createdAt := row.id, row.name, row.kind, row.config, row.createdAt;
      status, updatedAt, completed, errors := row.status, row.updatedAt, row.completed, row.errors;
    }

    method SetStatus(status: AgentStatus, now: int)
      modifies this`status, this`updatedAt
      ensures Row() == Registry.WithStatus(old(Row()), status, now)
    {
      this.status := status;
      updatedAt := now;
    }

    method Count(good: bool)
      modifies this`completed, this`errors
      ensures Row() == PlusOne(old(Row()), good)
    {
      if good {
        completed := completed + 1;
      } else {
        errors := errors + 1;
      }
    }

    function Row(): AgentRow
      reads this
    {
      AgentRow(id, name, kind, config, status, createdAt, updatedAt, completed, errors)
    }
  }

  function PlusOne(row: AgentRow, good: bool): AgentRow {
    if good then row.(completed := row.completed + 1) else row.(errors := row.errors + 1)
  }

  ghost function DiskOf(store: SqliteStore?): Option<Disk>
    reads store
  {
    if store == null then None else Some(store.View())
  }

  /** The writes that the store has seen. */
  ghost function LogOf(store: SqliteStore?): seq<Write>
    reads store
  {
    if store == null then [] else store.log
  }

  /** What the store has been told since `before`. */
  ghost predicate Wrote(store: SqliteStore?, before: seq<Write>, writes: seq<Write>)
    reads store
  {
    store == null || store.log == before + writes
  }

  class AgentRegistry {
    const store: SqliteStore?
    var agents: map<Id, Agent>
    var index: map<string, seq<Id>>

    /** The keys of `agents` as the dict keeps them: in order of insertion. */
    var order: seq<Id>

    /** The contents of the agent dicts. */
    ghost var rows: map<Id, AgentRow>
    ghost var Repr: set<object>

    ghost predicate Valid()
      reads this, Repr
    {
      && this in Repr && (store != null ==> store !in Repr)
      && rows.Keys == agents.Keys
      && (forall id :: id in agents ==> agents[id] in Repr && agents[id].id == id && agents[id].Row() == rows[id])
    }

    ghost predicate OrderOk()
      reads this`agents, this`order
    {
      Enumerates(order, agents.Keys)
    }

    ghost function View(): Registry.State
      reads this
    {
      Registry.State(rows, index)
    }

    /** Reads the stored agents back and rebuilds the index in the order they come. */
    constructor (store: SqliteStore?)
      ensures Valid() && OrderOk() && fresh(Repr) && this.store == store
      ensures store == null ==> View() == Registry.State(map[], map[])
      ensures store != null && Registry.RowsKeyed(store.agents) ==>
                && Enumerates(order, store.agents.Keys)
                && View() == Registry.State(store.agents, Registry.RebuildIndex(store.agents, order))
    {
      this.store := store;
      agents, index, order, rows, Repr := map[], map[], [], map[], {this};
      new;
      if store != null {
        LoadAll();
      }
    }

    method LoadAll()
      requires Valid() && OrderOk() && store != null && agents == map[] && index == map[] && order == []
      modifies this
      ensures Valid() && OrderOk() && fresh(Repr - old(Repr))
      ensures Registry.RowsKeyed(store.agents) ==>
                && Enumerates(order, store.agents.Keys)
                && View() == Registry.State(store.agents, Registry.RebuildIndex(store.agents, order))
    {
      var loaded, keys := Load(store.agents);
      ghost var table := store.agents;
      var i := 0;
      while i < |loaded|
        invariant 0 <= i <= |loaded|
        invariant Valid() && OrderOk() && fresh(Repr - old(Repr)) && store.agents == table
        invariant Registry.RowsKeyed(table) ==> Loaded(table, keys[..i])
      {
        LoadOne(loaded[i], table, keys, i);
        i := i + 1;
      }
      assert keys[..i] == keys;
      assert Registry.RowsKeyed(table) ==> Registry.Restrict(table, keys) == table;
    }

    /** The registry holds the rows with these keys, read back in this order. */
    ghost predicate Loaded(table: map<Id, AgentRow>, keys: seq<Id>)
      requires forall id :: id in keys ==> id in table
      reads this`rows, this`index, this`order
    {
      && rows == Registry.Restrict(table, keys) && index == Registry.RebuildIndex(table, keys)
      && order == keys
    }

    method LoadOne(row: AgentRow, ghost table: map<Id, AgentRow>, ghost keys: seq<Id>, ghost i: nat)
      requires Valid() && OrderOk() && Enumerates(keys, table.Keys) && i < |keys| && row == table[keys[i]]
      requires Registry.RowsKeyed(table) ==> Loaded(table, keys[..i])
      modifies this
      ensures Valid() && OrderOk() && old(Repr) <= Repr && fresh(Repr - old(Repr))
      ensures Registry.RowsKeyed(table) ==> Loaded(table, keys[..i + 1])
    {
      LoadStep(table, keys, i);
      NextKey(keys, i);
      AddLoaded(row);
    }

    /** Where a new or a known key goes in a dict. */
    static function Inserted(order: seq<Id>, id: Id): (r: seq<Id>)
      ensures forall x :: x in r <==> x == id || x in order
    {
      if id in order then order else order + [id]
    }

    static lemma NextKey(keys: seq<Id>, i: nat)
      requires NoDuplicates(keys) && i < |keys|
      ensures Inserted(keys[..i], keys[i]) == keys[..i + 1]
    {
      assert keys[i] !in keys[..i];
    }

    static lemma LoadStep(table: map<Id, AgentRow>, order: seq<Id>, i: nat)
      requires i < |order| && forall id :: id in order ==> id in table
      ensures Registry.RowsKeyed(table) ==>
                && Registry.Restrict(table, order[..i + 1])
                   == Registry.Restrict(table, order[..i])[order[i] := table[order[i]]]
                && Registry.RebuildIndex(table, order[..i + 1]) ==
                     Registry.AddToIndex(Registry.RebuildIndex(table, order[..i]), table[order[i]])
    {
      assert order[..i + 1] == order[..i] + [order[i]];
      assert order[..i + 1][..i] == order[..i];
    }

    /** Puts a new dict into the registry. */
    method AddLoaded(row: AgentRow)
      requires Valid()
      modifies this
      ensures Valid() && old(Repr) <= Repr && fresh(Repr - old(Repr))
      ensures View() == Registry.Register(old(View()), row)
      ensures row.id in agents && agents == old(agents)[row.id := agents[row.id]] && fresh(agents[row.id])
      ensures order == Inserted(old(order), row.id) && (old(OrderOk()) ==> OrderOk())
    {
      var agent := new Agent(row);
      PutAgent(row.id, agent);
      rows, Repr := rows[row.id := row], Repr + {agent};
      AddToIndex(row);
    }

    /** Assigns to the dict of agents. */
    method PutAgent(id: Id, agent: Agent)
      modifies this`agents, this`order
      ensures agents == old(agents)[id := agent] && order == Inserted(old(order), id)
      ensures old(OrderOk()) ==> OrderOk()
    {
      agents, order := agents[id := agent], Inserted(order, id);
    }

    /** Deletes from the dict of agents. */
    method DropAgent(id: Id)
      requires id in agents
      modifies this`agents, this`order, this`rows
      ensures agents == old(agents) - {id} && rows == old(rows) - {id} && order == Dropped(old(order), id)
      ensures old(OrderOk()) ==> OrderOk()
    {
      if OrderOk() {
        DroppedKeepsDistinct(order, id);
      }
      agents, rows, order := agents - {id}, rows - {id}, Dropped(order, id);
    }

    method AddToIndex(row: AgentRow)
      modifies this`index
      ensures index == Registry.AddToIndex(old(index), row)
    {
      var group := Registry.Group(row.kind);
      if group !in index {
        index := index[group := []];
      }
      index := index[group := index[group] + [row.id]];
    }

    method Register(name: string, kind: string, config: Option<Json>, uuid: Id, now: int)
      requires Valid()
      modifies this, store
      ensures Valid() && old(Repr) <= Repr && fresh(Repr - old(Repr))
      ensures uuid in agents && agents == old(agents)[uuid := agents[uuid]] && fresh(agents[uuid])
      ensures order == Inserted(old(order), uuid) && (old(OrderOk()) ==> OrderOk())
      ensures View() == Registry.Register(old(View()), Registry.NewAgent(uuid, name, kind, config, now))
      ensures rows == old(rows)[uuid := AgentRow(uuid, name, kind, OrEmptyDict(config), AgentStatus.Pending,
                                                 now, now, 0, 0)]
      ensures DiskOf(store) == SaveAgent(old(DiskOf(store)), rows[uuid])
      ensures Wrote(store, old(LogOf(store)), [Write.PutAgent(rows[uuid])])
    {
      OrEmptyIs(config);
      var row := Registry.NewAgent(uuid, name, kind, config, now);
      AddLoaded(row);
      if store != null {
        store.UpsertAgent(row);
      }
    }

    /** Persists in-place changes of a registered agent dict. */
    method Touch(id: Id)
      requires Valid()
      modifies store
      ensures Valid()
      ensures DiskOf(store) == if id in rows then SaveAgent(old(DiskOf(store)), rows[id]) else old(DiskOf(store))
      ensures Wrote(store, old(LogOf(store)), if id in rows then [Write.PutAgent(rows[id])] else [])
    {
      if store != null && id in agents {
        store.UpsertAgent(agents[id].Row());
      }
    }

    /** Counts an outcome in an agent dict; the registry sees it if the agent is still registered. */
    method CountOutcome(agent: Agent, good: bool)
      requires Valid() && agent in Repr
      requires agent.id in agents ==> agents[agent.id] == agent
      modifies agent, this`rows
      ensures Valid()
      ensures rows.Keys == old(rows).Keys
      ensures rows == if agent.id in old(rows)
                      then old(rows)[agent.id := PlusOne(old(rows)[agent.id], good)] else old(rows)
    {
      agent.Count(good);
      if agent.id in agents {
        rows := rows[agent.id := agent.Row()];
      }
    }

    method UpdateStatus(id: Id, status: AgentStatus, now: int) returns (known: bool)
      requires Valid()
      modifies this`rows, (if id in agents then {agents[id]} else {}), store
      ensures Valid()
      ensures known == (id in agents)
      ensures !known ==> rows == old(rows) && DiskOf(store) == old(DiskOf(store))
      ensures known ==>
                && id in old(rows)
                && rows == old(rows)[id := Registry.WithStatus(old(rows)[id], status, now)]
                && DiskOf(store) == SaveAgent(old(DiskOf(store)), rows[id])
      ensures Wrote(store, old(LogOf(store)), if known then [Write.PutAgent(rows[id])] else [])
    {
      known := id in agents;
      if known {
        var agent := agents[id];
        agent.SetStatus(status, now);
        rows := rows[id := agent.Row()];
        Touch(id);
      }
    }

    method Delete(id: Id) returns (known: bool)
      requires Valid()
      modifies this, store
      ensures Valid() && Repr == old(Repr)
      ensures agents == old(agents) - {id}
      ensures order == (if known then Dropped(old(order), id) else old(order)) && (old(OrderOk()) ==> OrderOk())
      ensures known == (id in old(agents))
      ensures View() == Registry.Delete(old(View()), id)
      ensures DiskOf(store) == if known then EraseAgent(old(DiskOf(store)), id) else old(DiskOf(store))
      ensures Wrote(store, old(LogOf(store)), if known then [Write.DropAgent(id)] else [])
    {
      known := id in agents;
      if known {
        var agent := agents[id];
        DropAgent(id);
        RemoveFromIndex(id, Registry.Group(agent.kind));
        if store != null {
          store.DeleteAgent(id);
        }
      }
    }

    method RemoveFromIndex(id: Id, group: string)
      modifies this`index
      ensures index == if group in old(index) && id in old(index)[group]
                       then old(index)[group := Registry.RemoveFirst(old(index)[group], id)] else old(index)
    {
      if group in index && id in index[group] {
        index := index[group := Registry.RemoveFirst(index[group], id)];
      }
    }

    /** The agent has the status, and the index lists it in the group. */
    predicate Shows(id: Id, status: Option<AgentStatus>, group: Option<string>): (shown: bool)
      requires Valid() && id in agents
      reads this, Repr
      ensures shown <==> id in Registry.List(View(), status, group)
    {
      && (status.None? || agents[id].status == status.value)
      && (group.None? || group.value == "" || (group.value in index && id in index[group.value]))
    }

    /** The agents with the given status in the given group, in order of insertion. */
    method List(status: Option<AgentStatus>, group: Option<string>) returns (listed: seq<Agent>)
      requires Valid() && OrderOk() && Registry.Consistent(View())
      ensures Lists(listed, Among(order, Registry.Matching(rows, status, group)))
    {
      listed := Select(status, group);
      Registry.ListIsDirectFilter(View(), status, group);
    }

    /** These are the agents with these ids. */
    ghost predicate Lists(listed: seq<Agent>, ids: seq<Id>)
      reads this`agents
    {
      |listed| == |ids| && forall i :: 0 <= i < |ids| ==> ids[i] in agents && listed[i] == agents[ids[i]]
    }

    lemma ListsOneMore(listed: seq<Agent>, ids: seq<Id>, id: Id)
      requires Lists(listed, ids) && id in agents
      ensures Lists(listed + [agents[id]], ids + [id])
    {
    }

    method Select(status: Option<AgentStatus>, group: Option<string>) returns (listed: seq<Agent>)
      requires Valid() && OrderOk()
      ensures Lists(listed, Among(order, Registry.List(View(), status, group)))
    {
      listed := [];
      ghost var shown := Registry.List(View(), status, group);
      ghost var ids: seq<Id> := [];
      var i := 0;
      while i < |order|
        invariant 0 <= i <= |order| && ids == Among(order[..i], shown) && Lists(listed, ids)
      {
        AmongStep(order, i, shown);
        if Shows(order[i], status, group) {
          ListsOneMore(listed, ids, order[i]);
          listed, ids := listed + [agents[order[i]]], ids + [order[i]];
        }
        i := i + 1;
      }
      assert order[..i] == order;
    }
  }
}
