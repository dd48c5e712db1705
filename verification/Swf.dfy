/** The parsed workflow of third_party/swf and what it means, before any table exists. */
module Swf {
  import opened Model

  datatype Case = Case(condition: string, next: string)

  /** A named task. `next` and `explicit` are Then and ExplicitThen. */
  datatype TaskDef = TaskDef(
    name: string, kind: string, next: string, explicit: bool,
    actions: seq<Action>, cases: seq<Case>, children: seq<TaskDef>)

  datatype Workflow = Workflow(id: string, start: string, tasks: seq<TaskDef>)

  /** FlattenTasks: each task before its children. */
  function Flatten(items: seq<TaskDef>): seq<TaskDef> {
    if items == [] then [] else [items[0]] + Flatten(items[0].children) + Flatten(items[1..])
  }

  const RESERVED: set<string> := {"", "end", "exit", "continue"}

  function Names(defs: seq<TaskDef>): (r: seq<string>)
    ensures |r| == |defs| && forall k :: 0 <= k < |r| ==> r[k] == defs[k].name
  {
    seq(|defs|, k requires 0 <= k < |defs| => defs[k].name)
  }

  predicate Unique(names: seq<string>) {
    forall j, k :: 0 <= j < k < |names| ==> names[j] != names[k]
  }

  /** No two tasks have the same name. */
  predicate Named(wf: Workflow) {
    Unique(Names(Flatten(wf.tasks)))
  }

  /** Workflow.Validate: some task, all names set and distinct, every flow target known. */
  predicate Valid(wf: Workflow) {
    var all := Flatten(wf.tasks);
    var names := Names(all);
    all != [] && "" !in names && Unique(names) &&
    (forall d :: d in all ==> (d.explicit ==> d.next in RESERVED || d.next in names)) &&
    (forall d, c :: d in all && c in d.cases ==> c.next in RESERVED || c.next in names)
  }

  /** A flow target that a definition may name: nothing, a directive, or one of its tasks. */
  predicate Known(all: seq<TaskDef>, target: string) {
    target == "" || target == "end" || target == "exit" || target == "continue" ||
    exists k :: 0 <= k < |all| && all[k].name == target
  }

  /** A definition that must be accepted: it has a task, every task has a name of its own, and every
      explicit `then` and every case leads to a known target. */
  predicate Accepted(wf: Workflow) {
    var all := Flatten(wf.tasks);
    |all| > 0 &&
    (forall k :: 0 <= k < |all| ==> all[k].name != "") &&
    (forall j, k :: 0 <= j < k < |all| ==> all[j].name != all[k].name) &&
    (forall k :: 0 <= k < |all| && all[k].explicit ==> Known(all, all[k].next)) &&
    (forall k, c :: 0 <= k < |all| && 0 <= c < |all[k].cases| ==> Known(all, all[k].cases[c].next))
  }

  lemma KnownIff(all: seq<TaskDef>, target: string)
    ensures Known(all, target) <==> target in RESERVED || target in Names(all)
  {
    if k :| 0 <= k < |all| && all[k].name == target { assert Names(all)[k] == target; }
  }

  /** Validate accepts exactly these. */
  lemma ValidIffAccepted(wf: Workflow)
    ensures Valid(wf) <==> Accepted(wf)
  {
    var all := Flatten(wf.tasks);
    forall target ensures Known(all, target) <==> target in RESERVED || target in Names(all) { KnownIff(all, target); }
    hide Known, Flatten;
    assert "" in Names(all) <==> exists k :: 0 <= k < |all| && all[k].name == "";
    if Accepted(wf) {
      forall d | d in all ensures d.explicit ==> Known(all, d.next) { var k :| 0 <= k < |all| && all[k] == d; }
      forall d, c | d in all && c in d.cases ensures Known(all, c.next) {
        var k :| 0 <= k < |all| && all[k] == d;
        var j :| 0 <= j < |d.cases| && d.cases[j] == c;
      }
    }
  }

  /** Where a task can send the instance. */
  datatype Target = ToEnd | Goto(name: string)

  /** A flow directive as the code reads it: `continue` ends the workflow, like `end` and `exit`. */
  function Directive(wf: Workflow, next: string): Target {
    if next !in RESERVED && next in Names(Flatten(wf.tasks)) then Goto(next) else ToEnd
  }

  /** The possible moves of a switch: a case whose condition holds, in any order of the cases;
      without one, and without a condition that errs, a default case, or the end. */
  predicate SwitchMoves(wf: Workflow, cases: seq<Case>, jq: Oracle, input: string, out: Target) {
    (exists c :: c in cases && c.condition != "" && jq(c.condition, input) == Holds && out == Directive(wf, c.next)) ||
    ((forall c :: c in cases && c.condition != "" ==> jq(c.condition, input) == Fails) &&
     if exists c :: c in cases && c.condition == ""
     then exists c :: c in cases && c.condition == "" && out == Directive(wf, c.next)
     else out == ToEnd)
  }

  /** The moves the source gives a task on an input: every branch of a fork, the matching case of
      a switch, nothing after a raise, and otherwise the explicit `then`, the first child, or the end. */
  predicate Moves(wf: Workflow, d: TaskDef, jq: Oracle, input: string, out: Target) {
    if d.kind == "raise" then false
    else if d.kind == "switch" then SwitchMoves(wf, d.cases, jq, input, out)
    else if d.kind == "fork" then
      (if d.children == [] then out == ToEnd else exists c :: c in d.children && out == Goto(c.name))
    else if d.explicit then out == Directive(wf, d.next)
    else if d.children != [] then out == Goto(d.children[0].name)
    else out == ToEnd
  }

  lemma {:induction false} FlattenAppend(a: seq<TaskDef>, b: seq<TaskDef>)
    ensures Flatten(a + b) == Flatten(a) + Flatten(b)
  {
    if a == [] { assert a + b == b; }
    else {
      assert (a + b)[1..] == a[1..] + b;
      FlattenAppend(a[1..], b);
    }
  }

  /** FlattenTasks lists every task right before everything nested in it, and siblings in their order. */
  lemma {:induction false} SubtreeFollows(items: seq<TaskDef>, k: nat)
    requires k < |items|
    ensures Flatten(items) == Flatten(items[..k]) + [items[k]] + Flatten(items[k].children) + Flatten(items[k + 1..])
  {
    assert items == items[..k] + items[k..] && items[k..][1..] == items[k + 1..];
    FlattenAppend(items[..k], items[k..]);
  }

  /** The task is one of the items or nested in one. */
  predicate Nested(items: seq<TaskDef>, d: TaskDef) {
    exists k :: 0 <= k < |items| && (items[k] == d || Nested(items[k].children, d))
  }

  /** It lists exactly the nested tasks. */
  lemma {:induction false} FlattenIsNested(items: seq<TaskDef>, d: TaskDef)
    ensures d in Flatten(items) <==> Nested(items, d)
  {
    if items != [] {
      FlattenIsNested(items[0].children, d);
      FlattenIsNested(items[1..], d);
      if Nested(items, d) {
        var k :| 0 <= k < |items| && (items[k] == d || Nested(items[k].children, d));
        if k > 0 { assert items[1..][k - 1] == items[k]; }
      }
      if Nested(items[1..], d) {
        var k :| 0 <= k < |items[1..]| && (items[1..][k] == d || Nested(items[1..][k].children, d));
        assert items[k + 1] == items[1..][k];
      }
    }
  }

  lemma {:induction false} FlattenHasChildren(items: seq<TaskDef>, d: TaskDef, c: TaskDef)
    requires d in Flatten(items) && c in d.children
    ensures c in Flatten(items)
  {
    if items != [] {
      if d == items[0] { FlattenHasItems(items[0].children, c); }
      else if d in Flatten(items[0].children) { FlattenHasChildren(items[0].children, d, c); }
      else { FlattenHasChildren(items[1..], d, c); }
    }
  }

  lemma {:induction false} FlattenHasItems(items: seq<TaskDef>, c: TaskDef)
    requires c in items
    ensures c in Flatten(items)
  {
    if c != items[0] { FlattenHasItems(items[1..], c); }
  }
}
