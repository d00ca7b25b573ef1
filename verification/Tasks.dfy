/** The task table of internal/infrastructure/sessionrepo/tasks.go. */
module Tasks {
  import opened Words

  datatype Status = Waiting | Running | Success | Fail

  predicate Active(status: Status) {
    status == Waiting || status == Running
  }

  /** `order` is the table's growing row number, `final` the id of the last event of a finished task. */
  datatype Task = Task(order: nat, session: string, project: string, status: Status, final: nat)

  type Table = map<string, Task>

  // ---------------------------------------------------------------- the statements

  /** The unique index on the projects of active tasks. */
  predicate HasActive(t: Table, project: string) {
    exists id :: id in t && t[id].project == project && Active(t[id].status)
  }

  function Created(t: Table, id: string, session: string, project: string, order: nat): Table {
    t[id := Task(order, session, project, Waiting, 0)]
  }

  function Started(t: Table, id: string): Table
    requires id in t
  {
    t[id := t[id].(status := Running)]
  }

  function Finished(t: Table, id: string, status: Status, final: nat): Table
    requires id in t
  {
    t[id := t[id].(status := status, final := final)]
  }

  predicate MayCreate(t: Table, id: string, project: string) {
    id !in t && !HasActive(t, project)
  }

  predicate MayStart(t: Table, id: string) {
    id in t && t[id].status == Waiting
  }

  predicate MayFinish(t: Table, id: string, status: Status) {
    id in t && Active(t[id].status) && !Active(status)
  }

  /** No row but this one changes. */
  predicate OnlyRow(t: Table, t': Table, id: string) {
    id in t' && t'.Keys == t.Keys + {id} && forall other :: other in t && other != id ==> t'[other] == t[other]
  }

  /** The same task of the same session and project. */
  predicate SameTask(a: Task, b: Task) {
    b.order == a.order && b.session == a.session && b.project == a.project
  }

  class TaskTable {
    var table: Table
    var next: nat

    constructor ()
      ensures table == map[] && next == 1
    {
      table, next := map[], 1;
    }

    method CreateTask(id: string, session: string, project: string) returns (ok: bool)
      modifies this
      ensures ok <==> MayCreate(old(table), id, project)
      ensures table == if ok then Created(old(table), id, session, project, old(next)) else old(table)
      ensures ok ==> OnlyRow(old(table), table, id) && table[id] == Task(old(next), session, project, Waiting, 0)
      ensures next == if ok then old(next) + 1 else old(next)
    {
      if id in table { return false; }
      var left := table.Keys;
      while left != {}
        invariant left <= table.Keys
        invariant forall k :: k in table && k !in left ==> !(table[k].project == project && Active(table[k].status))
      {
        var k :| k in left;
        if table[k].project == project && Active(table[k].status) { return false; }
        left := left - {k};
      }
      table := table[id := Task(next, session, project, Waiting, 0)];
      next := next + 1;
      return true;
    }

    method StartTask(id: string) returns (ok: bool)
      modifies this`table
      ensures ok <==> MayStart(old(table), id)
      ensures table == if ok then Started(old(table), id) else old(table)
      ensures ok ==> OnlyRow(old(table), table, id) && SameTask(old(table[id]), table[id])
                     && table[id].status == Running && table[id].final == old(table[id]).final
    {
      if id !in table || table[id].status != Waiting { return false; }
      table := table[id := table[id].(status := Running)];
      return true;
    }

    method FinishTask(id: string, status: Status, final: nat) returns (ok: bool)
      modifies this`table
      ensures ok <==> MayFinish(old(table), id, status)
      ensures table == if ok then Finished(old(table), id, status, final) else old(table)
      ensures ok ==> OnlyRow(old(table), table, id) && SameTask(old(table[id]), table[id])
                     && table[id].status == status && table[id].final == final
    {
      if Active(status) { return false; }
      if id !in table || !Active(table[id].status) { return false; }
      table := table[id := table[id].(status := status, final := final)];
      return true;
    }
  }

  // ---------------------------------------------------------------- what every statement keeps

  /** No project has two active tasks, and an active task is the latest of its project. */
  ghost predicate Exclusive(t: Table, next: nat) {
    && (forall id :: id in t ==> t[id].order < next)
    && forall a, b :: a in t && b in t && a != b && t[a].project == t[b].project ==>
         t[a].order != t[b].order && (t[a].order < t[b].order ==> !Active(t[a].status))
  }

  lemma CreateKeeps(t: Table, next: nat, id: string, session: string, project: string)
    requires Exclusive(t, next) && MayCreate(t, id, project)
    ensures Exclusive(Created(t, id, session, project, next), next + 1)
  {
  }

  lemma StartKeeps(t: Table, next: nat, id: string)
    requires Exclusive(t, next) && MayStart(t, id)
    ensures Exclusive(Started(t, id), next)
  {
  }

  lemma FinishKeeps(t: Table, next: nat, id: string, status: Status, final: nat)
    requires Exclusive(t, next) && MayFinish(t, id, status)
    ensures Exclusive(Finished(t, id, status, final), next)
  {
  }

  /** At most one task of a project is active. */
  lemma OneActive(t: Table, next: nat, a: string, b: string)
    requires Exclusive(t, next) && a in t && b in t && t[a].project == t[b].project
    requires Active(t[a].status) && Active(t[b].status)
    ensures a == b
  {
  }
}
