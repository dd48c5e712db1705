/** internal/dal: the data access layer, as an object over the tables of the database. */
module Dal {
  import opened Model
  import opened Protocol
  import opened Swf
  import opened Compiler
  import opened Meaning
  import opened Catalog

  /** The columns of an update that are not zero values: a whole task instance, or a status. */
  datatype Fields = Whole(row: Row) | JustStatus(status: Status)

  function Written(stored: Row, f: Fields): Row {
    match f
    case Whole(row) => Overlay(stored, row)
    case JustStatus(status) => stored.(status := status)
  }

  /** A database without ORDER BY answers, and concurrent inserts arrive, in any order. */
  method Shuffle<T(==)>(s: seq<T>) returns (r: seq<T>)
    ensures Reordered(r, s)
  {
    r := [];
    var rest := s;
    while rest != []
      invariant multiset(r) + multiset(rest) == multiset(s)
      decreases |rest|
    {
      var k :| 0 <= k < |rest|;
      assert rest == rest[..k] + [rest[k]] + rest[k + 1..];
      r, rest := r + [rest[k]], rest[..k] + rest[k + 1..];
    }
  }

  class WorkflowDal {
    const raw: RawParser
    var flows: seq<FlowRow>
    var tasks: seq<TaskRow>
    var relations: seq<Relation>
    var insts: map<nat, Instance>
    var rows: seq<Row>
    /** The next id that uuid.New gives out. */
    var next: nat
    /** The history of claims. */
    ghost var trace: map<nat, seq<Visit>>

    constructor (raw: RawParser)
      ensures State() == EMPTY && insts == map[] && rows == [] && trace == map[] && this.raw == raw
    {
      this.raw := raw;
      flows, tasks, relations, insts, rows, next, trace := [], [], [], map[], [], 0, map[];
    }

    function State(): Tables
      reads this
    {
      Tables(flows, tasks, relations)
    }

    // ---- workflows ----

    method Select(workflowID: string) returns (found: bool)
      ensures found == Exists(State(), workflowID)
    {
      found := false;
      for k := 0 to |flows|
        invariant found == exists j :: 0 <= j < k && flows[j].normal && flows[j].wid == workflowID
      {
        if flows[k].normal && flows[k].wid == workflowID { found := true; }
      }
    }

    /** delete: six independent updates; `ups` says which of them the database takes. */
    method DeleteRows(workflowID: string, ups: Updates) returns (ok: bool)
      modifies this`flows, this`tasks, this`relations, this`insts, this`rows
      ensures ok == (ups == Updates(true, true, true, true, true, true))
      ensures flows == if ups.flows then Retired(old(State()), workflowID).flows else old(flows)
      ensures tasks == if ups.tasks then Retired(old(State()), workflowID).tasks else old(tasks)
      ensures relations == if ups.relations then Retired(old(State()), workflowID).relations else old(relations)
      ensures insts == if ups.insts then Buried(old(insts), workflowID) else old(insts)
      ensures rows == if ups.rows then Gone(old(rows), workflowID) else old(rows)
    {
      if ups.flows { flows := MapAll(RetireFlow(workflowID), flows); }
      if ups.tasks { tasks := MapAll(RetireTask(workflowID), tasks); }
      if ups.relations { relations := MapAll(RetireRelation(workflowID), relations); }
      if ups.insts { insts := Buried(insts, workflowID); }
      if ups.rows { rows := Gone(rows, workflowID); }
      ok := ups.flows && ups.tasks && ups.relations && ups.actions && ups.insts && ups.rows;
    }

    method Delete(workflowID: string, ups: Updates) returns (ok: bool)
      modifies this`flows, this`tasks, this`relations, this`insts, this`rows
      ensures ok == (ups == Updates(true, true, true, true, true, true))
      ensures ok ==> State() == Retired(old(State()), workflowID)
      ensures ok ==> rows == Gone(old(rows), workflowID) && insts == Buried(old(insts), workflowID)
    {
      ok := DeleteRows(workflowID, ups);
    }

    /** create: one new row for the workflow, each task and each relation, inserted concurrently;
        `up` says whether the database takes them all. */
    method Create(definition: string, up: bool) returns (ok: bool)
      modifies this`flows, this`tasks, this`relations, this`next
      ensures old(next) <= next
      ensures ok == (up && Acceptable(raw, definition) && Unused(old(flows), "", raw(definition).value.value.id))
      ensures ok ==> var wf := raw(definition).value.value;
        Created(old(State()), wf, definition, old(next), State()) && next == old(next) + |Defs(wf)|
    {
      var p := Parse(raw, definition);
      if p.Err? || p.value.None? { return false; }
      var wf := p.value.value;
      var found := Select(wf.id);
      if found { return false; }
      var base := next;
      var built;
      built, next := BuildTask(wf.id, Defs(wf), base);
      var edges := BuildTaskRelation(wf, built);
      if !up { return false; }
      flows := flows + [FlowRow(wf.id, definition, base, true)];
      built := Shuffle(built);
      edges := Shuffle(edges);
      tasks, relations := tasks + built, relations + edges;
      return true;
    }

    /** The body of Save's transaction: delete, then create. */
    method Replace(workflowID: string, definition: string, ups: Updates, up: bool) returns (ok: bool)
      modifies this`flows, this`tasks, this`relations, this`insts, this`rows, this`next
      ensures old(next) <= next
      ensures ok == ((workflowID == "" || ups == Updates(true, true, true, true, true, true)) && up &&
                     Acceptable(raw, definition) && Unused(old(flows), workflowID, raw(definition).value.value.id))
      ensures ok ==> var wf := raw(definition).value.value;
        Created(Cleared(old(State()), workflowID), wf, definition, old(next), State()) && next == old(next) + |Defs(wf)|
      ensures ok ==> rows == (if workflowID != "" then Gone(old(rows), workflowID) else old(rows))
      ensures ok ==> insts == (if workflowID != "" then Buried(old(insts), workflowID) else old(insts))
    {
      ghost var was := State();
      if workflowID != "" {
        ok := DeleteRows(workflowID, ups);
        if !ok { return; }
      }
      assert State() == Cleared(was, workflowID);
      ClearedUnused(was, workflowID);
      hide Acceptable, Unused, Created;
      ok := Create(definition, up);
    }

    /** Save: all of it, or a rollback. */
    method Save(workflowID: string, definition: string, ups: Updates, up: bool) returns (ok: bool)
      modifies this`flows, this`tasks, this`relations, this`insts, this`rows, this`next
      ensures Saved(raw, old(State()), old(next), workflowID, definition, ok, State(), next)
      ensures ok == ((workflowID == "" || ups == Updates(true, true, true, true, true, true)) && up &&
                     Acceptable(raw, definition) && Unused(old(flows), workflowID, raw(definition).value.value.id))
      ensures rows == if ok && workflowID != "" then Gone(old(rows), workflowID) else old(rows)
      ensures insts == if ok && workflowID != "" then Buried(old(insts), workflowID) else old(insts)
    {
      ghost var was := State();
      var before := (flows, tasks, relations, insts, rows);
      ok := Replace(workflowID, definition, ups, up);
      if !ok { flows, tasks, relations, insts, rows := before.0, before.1, before.2, before.3, before.4; }
      ClearedUnused(was, workflowID);
      hide Acceptable, Unused, Created, Cleared;
    }

    // ---- reading for the run-time ----

    /** The first live START edge; an empty workflow id is a zero value and matches any. */
    method SelectStartTask(workflowID: string) returns (r: Option<nat>)
      ensures r.Some? ==> r.value < |relations| && StartsFor(relations[r.value], workflowID)
      ensures r.None? ==> forall x :: x in relations ==> !StartsFor(x, workflowID)
    {
      r := None;
      for k := 0 to |relations|
        invariant forall j :: 0 <= j < k ==> !StartsFor(relations[j], workflowID)
      {
        var x := relations[k];
        if x.normal && x.from == Start && (workflowID == "" || x.wid == workflowID) { return Some(k); }
      }
    }

    /** The first SLEEP row with the given ids; empty ids match any. */
    method SelectTransitionTask(workflowID: string, inst: Option<nat>, tiid: Option<nat>) returns (r: Option<nat>)
      ensures r.Some? ==> r.value < |rows| && Sleeps(rows[r.value], workflowID, inst, tiid)
      ensures r.None? ==> forall k :: 0 <= k < |rows| ==> !Sleeps(rows[k], workflowID, inst, tiid)
    {
      r := None;
      for k := 0 to |rows|
        invariant forall j :: 0 <= j < k ==> !Sleeps(rows[j], workflowID, inst, tiid)
      {
        var x := rows[k];
        if x.status == Sleep && (workflowID == "" || x.wid == workflowID) &&
           (inst.None? || x.inst == inst.value) && (tiid.None? || x.tiid == tiid.value) { return Some(k); }
      }
    }

    /** The newest WAIT row and its snapshot: its task row whatever the status, one of the task's
        actions, its live relations in any order. None if there is no such row, or no such task. */
    method SelectTaskInstance() returns (r: Option<Fetched>)
      ensures r.Some? ==>
        var f := r.value;
        f.row < |rows| && rows[f.row].status == Wait && (forall k :: f.row < k < |rows| ==> rows[k].status != Wait) &&
        Reads(State(), rows[f.row].wid, rows[f.row].task, f.task, f.action, f.order)
      ensures r.None? ==>
        (forall k :: 0 <= k < |rows| ==> rows[k].status != Wait) ||
        exists k :: 0 <= k < |rows| && rows[k].status == Wait && !Stored(State(), rows[k].wid, rows[k].task)
    {
      var row: nat := |rows|;
      while row > 0 && rows[row - 1].status != Wait
        invariant row <= |rows| && forall k :: row <= k < |rows| ==> rows[k].status != Wait
      {
        row := row - 1;
      }
      if row == 0 { return None; }
      row := row - 1;
      var task: nat := 0;
      while task < |tasks| && !(tasks[task].wid == rows[row].wid && Task(tasks[task].id) == rows[row].task)
        invariant task <= |tasks|
        invariant forall k :: 0 <= k < task ==> !(tasks[k].wid == rows[row].wid && Task(tasks[k].id) == rows[row].task)
      {
        task := task + 1;
      }
      if task == |tasks| { return None; }
      var actions := Shuffle(tasks[task].actions);
      var order := Shuffle(Leaving(relations, rows[row].wid, rows[row].task));
      ReorderedMembers(actions, tasks[task].actions);
      return Some(Fetched(row, task, if actions == [] then Option.None else Option.Some(actions[0]), order));
    }

    // ---- writing for the run-time ----

    method InsertInstance(inst: nat, i: Instance, up: bool) returns (ok: bool)
      modifies this`insts
      ensures ok == up && insts == if up then old(insts)[inst := i] else old(insts)
    {
      if up { insts := insts[inst := i]; }
      return up;
    }

    method InsertTaskInstance(row: Row, up: bool) returns (ok: bool)
      modifies this`rows
      ensures ok == up && rows == if up then old(rows) + [row] else old(rows)
    {
      if up { rows := rows + [row]; }
      return up;
    }

    method UpdateInstance(inst: nat, status: FlowStatus, up: bool) returns (ok: bool)
      modifies this`insts
      ensures ok == up
      ensures insts == if up && inst in old(insts) then old(insts)[inst := old(insts)[inst].(status := status)] else old(insts)
    {
      if up && inst in insts { insts := insts[inst := insts[inst].(status := status)]; }
      return up;
    }

    /** Updates the row with this ID, if there is one; `up` says whether the database takes the write. */
    method UpdateTaskInstance(id: nat, f: Fields, up: bool)
      requires id != 0
      modifies this`rows
      ensures rows == if up && id <= |old(rows)| then old(rows)[id - 1 := Written(old(rows)[id - 1], f)] else old(rows)
    {
      if !up || id > |rows| { return; }
      var r := rows[id - 1];
      match f {
        case Whole(row) => r := Row(row.inst, row.wid, row.task, row.tiid, row.status, if row.input == "" then r.input else row.input);
        case JustStatus(status) => r := r.(status := status);
      }
      rows := rows[id - 1 := r];
    }
  }

  /** Which of the updates of a delete the database takes. */
  datatype Updates = Updates(flows: bool, tasks: bool, relations: bool, actions: bool, insts: bool, rows: bool)

  /** No live workflow has this id, apart from the one that is being replaced. */
  predicate Unused(flows: seq<FlowRow>, replaced: string, wid: string) {
    forall k :: 0 <= k < |flows| && flows[k].normal && flows[k].wid == wid ==> replaced != "" && flows[k].wid == replaced
  }

  lemma ClearedUnused(t: Tables, workflowID: string)
    ensures forall wid :: Unused(Cleared(t, workflowID).flows, "", wid) <==> Unused(t.flows, workflowID, wid)
    ensures forall wid :: Unused(Cleared(t, workflowID).flows, "", wid) <==> !Exists(Cleared(t, workflowID), wid)
  {
  }

  /** What SelectTaskInstance returns. */
  datatype Fetched = Fetched(row: nat, task: nat, action: Option<Action>, order: seq<Relation>)

  predicate StartsFor(r: Relation, wid: string) {
    r.normal && r.from == Start && (wid == "" || r.wid == wid)
  }

  predicate Sleeps(r: Row, wid: string, inst: Option<nat>, tiid: Option<nat>) {
    r.status == Sleep && (wid == "" || r.wid == wid) &&
    (inst.None? || r.inst == inst.value) && (tiid.None? || r.tiid == tiid.value)
  }

  /** The task instance rows and workflow instance rows after a soft delete. */
  function Gone(rows: seq<Row>, wid: string): seq<Row> {
    Forget(Store(rows, [], 0, [], {}), Some(wid)).rows
  }

  function Buried(insts: map<nat, Instance>, wid: string): map<nat, Instance> {
    map i | i in insts :: if insts[i].wid == wid then insts[i].(status := Deleted) else insts[i]
  }
}
