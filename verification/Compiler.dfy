/** internal/dal/workflow.go: from a parsed workflow to task rows and relation rows. */
module Compiler {
  import opened Model
  import opened Swf

  function Normalize(kind: string): TaskType {
    match kind
    case "operation" => Operation
    case "event" => Event
    case "switch" => Switch
    case "set" => SetTask
    case "do" => Do
    case "fork" => Fork
    case "for" => For
    case "try" => Try
    case "wait" => WaitTask
    case "raise" => Raise
    case "run" => Run
    case "emit" => Emit
    case "listen" => Listen
    case _ => Operation
  }

  /** The text of a task type, as it is stored and as definitions write it. */
  function TypeName(kind: TaskType): string {
    match kind
    case Operation => "operation"
    case Event => "event"
    case Listen => "listen"
    case Switch => "switch"
    case SetTask => "set"
    case Do => "do"
    case Fork => "fork"
    case For => "for"
    case Try => "try"
    case WaitTask => "wait"
    case Raise => "raise"
    case Run => "run"
    case Emit => "emit"
  }

  /** The type texts a definition may use; any other counts as an operation. */
  const TYPES: set<string> := {"operation", "event", "switch", "set", "do", "fork", "for", "try", "wait", "raise", "run", "emit", "listen"}

  /** normalizeTaskType is the inverse of the type's text, and keeps the texts it knows. */
  lemma NormalizeInverts(kind: TaskType, text: string)
    ensures Normalize(TypeName(kind)) == kind && TypeName(kind) in TYPES
    ensures TypeName(Normalize(text)) == if text in TYPES then text else "operation"
  {
  }

  /** A task without actions becomes its own action, whose name must be safe to slice. */
  predicate Callable(d: TaskDef) {
    d.actions == [] ==> SliceSafe(ActionRow(d.name, TypeName(Normalize(d.kind))))
  }

  type Definition = d: TaskDef | Callable(d) witness TaskDef("", "", "", false, [], [], [])

  type Flow = wf: Workflow | forall d :: d in Flatten(wf.tasks) ==> Callable(d) witness Workflow("", "", [])

  function Defs(wf: Flow): (r: seq<Definition>)
    ensures r == Flatten(wf.tasks)
  {
    Flatten(wf.tasks)
  }

  /** buildTaskAction: the task's own actions, or one made from its name and type. */
  function ActionsOf(d: Definition): (r: seq<Action>)
    ensures r != []
  {
    if d.actions != [] then d.actions else [ActionRow(d.name, TypeName(Normalize(d.kind)))]
  }

  function TaskRowOf(wid: string, d: Definition, id: nat): TaskRow {
    TaskRow(wid, id, d.name, Normalize(d.kind), ActionsOf(d), true)
  }

  /** The task rows of a workflow: one fresh id per flattened task. */
  function TaskRowsOf(wid: string, defs: seq<Definition>, base: nat): (r: seq<TaskRow>)
    ensures |r| == |defs| && forall k :: 0 <= k < |r| ==> r[k] == TaskRowOf(wid, defs[k], base + k)
  {
    seq(|defs|, k requires 0 <= k < |defs| => TaskRowOf(wid, defs[k], base + k))
  }

  type Ids = map<string, nat>

  /** The name table: for a name used twice the later task wins. */
  function IdsOf(rows: seq<TaskRow>): Ids {
    if rows == [] then map[] else IdsOf(rows[..|rows| - 1])[rows[|rows| - 1].name := rows[|rows| - 1].id]
  }

  function Lookup(ids: Ids, name: string): Node {
    if name in ids then Task(ids[name]) else End
  }

  function Resolve(next: string, ids: Ids): Node {
    if next in RESERVED then End else Lookup(ids, next)
  }

  function ResolveNext(d: TaskDef, ids: Ids): Node {
    if d.explicit then Resolve(d.next, ids)
    else if d.children != [] then Resolve(d.children[0].name, ids)
    else End
  }

  function Edge(wid: string, from: Node, to: Node, condition: string): Relation {
    Relation(wid, from, to, condition, true)
  }

  /** At least one edge: a list that is empty becomes a single edge to END. */
  function OrEnd(wid: string, from: Node, rel: seq<Relation>): seq<Relation> {
    if rel == [] then [Edge(wid, from, End, "")] else rel
  }

  function Branches(wid: string, from: Node, children: seq<TaskDef>, ids: Ids): (r: seq<Relation>)
    ensures |r| == |children| && forall k :: 0 <= k < |r| ==> r[k] == Edge(wid, from, Lookup(ids, children[k].name), "")
  {
    seq(|children|, k requires 0 <= k < |children| => Edge(wid, from, Lookup(ids, children[k].name), ""))
  }

  function Choices(wid: string, from: Node, cases: seq<Case>, ids: Ids): (r: seq<Relation>)
    ensures |r| == |cases| && forall k :: 0 <= k < |r| ==> r[k] == Edge(wid, from, Resolve(cases[k].next, ids), cases[k].condition)
  {
    seq(|cases|, k requires 0 <= k < |cases| => Edge(wid, from, Resolve(cases[k].next, ids), cases[k].condition))
  }

  /** The relations of one task. */
  function RelationsOf(wid: string, d: TaskDef, ids: Ids): seq<Relation> {
    if d.name !in ids then []
    else
      var from := Task(ids[d.name]);
      if d.kind == "switch" then OrEnd(wid, from, Choices(wid, from, d.cases, ids))
      else if d.kind == "fork" then OrEnd(wid, from, Branches(wid, from, d.children, ids))
      else [Edge(wid, from, ResolveNext(d, ids), "")]
  }

  function AllRelations(wid: string, defs: seq<TaskDef>, ids: Ids): seq<Relation> {
    if defs == [] then [] else RelationsOf(wid, defs[0], ids) + AllRelations(wid, defs[1..], ids)
  }

  function StartRelation(wf: Workflow, ids: Ids): seq<Relation> {
    if wf.start in ids then [Edge(wf.id, Start, Task(ids[wf.start]), "")] else []
  }

  function CompiledRelations(wf: Workflow, ids: Ids): seq<Relation> {
    StartRelation(wf, ids) + AllRelations(wf.id, Flatten(wf.tasks), ids)
  }

  // ---- the builders ----

  /** The row keeps the task's name, its type or "operation" for an unknown one, and its actions; a
      task without actions gets exactly one of its own name and type. */
  predicate Records(r: TaskRow, wid: string, id: nat, d: TaskDef) {
    r.wid == wid && r.id == id && r.name == d.name && r.normal &&
    TypeName(r.kind) == (if d.kind in TYPES then d.kind else "operation") &&
    (d.actions != [] ==> r.actions == d.actions) &&
    (d.actions == [] ==> |r.actions| == 1 && r.actions[0].name == d.name && r.actions[0].kind == TypeName(r.kind))
  }

  lemma RowRecords(wid: string, d: Definition, id: nat)
    ensures Records(TaskRowOf(wid, d, id), wid, id, d)
  {
    NormalizeInverts(Operation, d.kind);
    hide Normalize, TypeName;
  }

  /** buildTask: draws one id per task from the counter `next`. */
  method BuildTask(wid: string, defs: seq<Definition>, next: nat) returns (tasks: seq<TaskRow>, drawn: nat)
    ensures |tasks| == |defs| && drawn == next + |defs|
    ensures forall k :: 0 <= k < |defs| ==> Records(tasks[k], wid, next + k, defs[k])
    ensures tasks == TaskRowsOf(wid, defs, next)
  {
    hide Records, Callable, TaskRowOf;
    tasks, drawn := [], next;
    for k := 0 to |defs|
      invariant drawn == next + k && tasks == TaskRowsOf(wid, defs, next)[..k]
      invariant forall j :: 0 <= j < k ==> Records(tasks[j], wid, next + j, defs[j])
    {
      RowRecords(wid, defs[k], drawn);
      tasks := tasks + [TaskRowOf(wid, defs[k], drawn)];
      drawn := drawn + 1;
    }
  }

  method BuildForkTaskRelation(wid: string, d: TaskDef, from: Node, ids: Ids) returns (rel: seq<Relation>)
    ensures rel == OrEnd(wid, from, Branches(wid, from, d.children, ids))
  {
    rel := [];
    for k := 0 to |d.children|
      invariant rel == Branches(wid, from, d.children, ids)[..k]
    {
      var branchStart := Lookup(ids, d.children[k].name);
      rel := rel + [Edge(wid, from, branchStart, "")];
    }
    if |rel| == 0 {
      rel := rel + [Edge(wid, from, End, "")];
    }
  }

  method BuildSwitchTaskRelation(wid: string, d: TaskDef, from: Node, ids: Ids) returns (rel: seq<Relation>)
    ensures rel == OrEnd(wid, from, Choices(wid, from, d.cases, ids))
  {
    rel := [];
    for k := 0 to |d.cases|
      invariant rel == Choices(wid, from, d.cases, ids)[..k]
    {
      var to := Resolve(d.cases[k].next, ids);
      rel := rel + [Edge(wid, from, to, d.cases[k].condition)];
    }
    if |rel| == 0 {
      rel := rel + [Edge(wid, from, End, "")];
    }
  }

  lemma {:induction false} AllRelationsSplit(wid: string, defs: seq<TaskDef>, ids: Ids, k: nat)
    requires k < |defs|
    ensures AllRelations(wid, defs[..k + 1], ids) == AllRelations(wid, defs[..k], ids) + RelationsOf(wid, defs[k], ids)
  {
    hide RelationsOf;
    if k == 0 {
      assert defs[..1] == [defs[0]] && defs[..0] == [];
      assert AllRelations(wid, [defs[0]][1..], ids) == [];
    } else {
      assert defs[..k + 1][1..] == defs[1..][..k] && defs[..k][1..] == defs[1..][..k - 1];
      AllRelationsSplit(wid, defs[1..], ids, k - 1);
    }
  }

  method BuildNameTable(tasks: seq<TaskRow>) returns (ids: Ids)
    ensures ids == IdsOf(tasks)
  {
    ids := map[];
    for k := 0 to |tasks|
      invariant ids == IdsOf(tasks[..k])
    {
      assert tasks[..k + 1][..k] == tasks[..k];
      ids := ids[tasks[k].name := tasks[k].id];
    }
    assert tasks[..|tasks|] == tasks;
  }

  /** The edges of one task; none for a name that is not in the table. */
  method BuildEdges(wid: string, d: TaskDef, ids: Ids) returns (rel: seq<Relation>)
    ensures rel == RelationsOf(wid, d, ids)
  {
    if d.name !in ids { return []; }
    var from := Task(ids[d.name]);
    if d.kind == "switch" {
      rel := BuildSwitchTaskRelation(wid, d, from, ids);
    } else if d.kind == "fork" {
      rel := BuildForkTaskRelation(wid, d, from, ids);
    } else {
      rel := [Edge(wid, from, ResolveNext(d, ids), "")];
    }
  }

  method BuildAllEdges(wid: string, defs: seq<TaskDef>, ids: Ids) returns (rel: seq<Relation>)
    ensures rel == AllRelations(wid, defs, ids)
  {
    rel := [];
    for k := 0 to |defs|
      invariant rel == AllRelations(wid, defs[..k], ids)
    {
      AllRelationsSplit(wid, defs, ids, k);
      var edges := BuildEdges(wid, defs[k], ids);
      rel := rel + edges;
    }
    assert defs[..|defs|] == defs;
  }

  /** buildTaskRelation: the name table, the START edge, then the edges of each flattened task. */
  method BuildTaskRelation(wf: Workflow, tasks: seq<TaskRow>) returns (relations: seq<Relation>)
    ensures relations == CompiledRelations(wf, IdsOf(tasks))
  {
    var ids := BuildNameTable(tasks);
    relations := [];
    if wf.start in ids {
      relations := relations + [Edge(wf.id, Start, Task(ids[wf.start]), "")];
    }
    var edges := BuildAllEdges(wf.id, Flatten(wf.tasks), ids);
    relations := relations + edges;
  }
}
