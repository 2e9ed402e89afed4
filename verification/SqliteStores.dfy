/** The durable store (src/common/store.py): three tables of records keyed by id. */
module SqliteStores {
  import opened Prelude
  import opened Records

  /** Reads a whole table, in whatever order the database yields its rows. */
  method Load<K(==), V>(table: map<K, V>) returns (rows: seq<V>, ghost order: seq<K>)
    ensures Enumerates(order, table.Keys)
    ensures |rows| == |order| && forall i :: 0 <= i < |rows| ==> order[i] in table && rows[i] == table[order[i]]
  {
    rows, order := [], [];
    var rest := table.Keys;
    while rest != {}
      invariant rest <= table.Keys
      invariant Enumerates(order, table.Keys - rest)
      invariant |rows| == |order|
      invariant forall i :: 0 <= i < |rows| ==> order[i] in table && rows[i] == table[order[i]]
      decreases rest
    {
      var k :| k in rest;
      rows, order, rest := rows + [table[k]], order + [k], rest - {k};
    }
    assert table.Keys - rest == table.Keys;
  }

  class SqliteStore {
    var agents: map<Id, AgentRow>
    var tasks: map<TaskId, Record>
    var workflows: map<Id, WorkflowDict>

    /** The writes to agents and tasks so far, in order. */
    ghost var log: seq<Write>

    ghost function View(): Disk
      reads this
    {
      Disk(agents, tasks, workflows)
    }

    constructor ()
      ensures View() == Disk(map[], map[], map[])
    {
      agents, tasks, workflows, log := map[], map[], map[], [];
    }

    method UpsertAgent(row: AgentRow)
      modifies this`agents, this`log
      ensures agents == old(agents)[row.id := row] && log == old(log) + [PutAgent(row)]
    {
      agents, log := agents[row.id := row], log + [PutAgent(row)];
    }

    method DeleteAgent(id: Id)
      modifies this`agents, this`log
      ensures agents == old(agents) - {id} && log == old(log) + [DropAgent(id)]
    {
      agents, log := agents - {id}, log + [DropAgent(id)];
    }

    method UpsertTask(record: Record)
      modifies this`tasks, this`log
      ensures tasks == old(tasks)[record.id := record] && log == old(log) + [PutTask(record)]
    {
      tasks, log := tasks[record.id := record], log + [PutTask(record)];
    }

    method UpsertWorkflow(dict: WorkflowDict)
      modifies this`workflows
      ensures dict.id.Some? ==> workflows == old(workflows)[dict.id.value := dict]
      ensures dict.id.None? ==> workflows == old(workflows)
    {
      if dict.id.Some? {
        workflows := workflows[dict.id.value := dict];
      }
    }

    method DeleteWorkflow(id: Id)
      modifies this`workflows
      ensures workflows == old(workflows) - {id}
    {
      workflows := workflows - {id};
    }
  }
}
