/** Compilation preserves meaning: over the stored rows, in any row order, the executors move an
    instance exactly where the source workflow says. */
module Meaning {
  import opened Model
  import opened Executors
  import opened Protocol
  import opened Paths
  import opened Swf
  import opened Compiler

  function LiveTask(wid: string): TaskRow -> bool {
    (r: TaskRow) => r.normal && r.wid == wid
  }

  function LiveRelation(wid: string): Relation -> bool {
    (r: Relation) => r.normal && r.wid == wid
  }

  function FlowIds(wf: Flow, base: nat): Ids {
    IdsOf(TaskRowsOf(wf.id, Defs(wf), base))
  }

  /** The live rows of the workflow are its compilation, in some order, and no other row of it,
      live or deleted, carries one of its task ids. */
  ghost predicate Derived(t: Tables, wf: Flow, base: nat) {
    Reordered(Filter(LiveTask(wf.id), t.tasks), TaskRowsOf(wf.id, Defs(wf), base)) &&
    Reordered(Filter(LiveRelation(wf.id), t.relations), CompiledRelations(wf, FlowIds(wf, base))) &&
    forall r :: r in t.tasks && r.wid == wf.id && base <= r.id < base + |Defs(wf)| ==> r.normal
  }

  // ---- the name table ----

  lemma {:induction false} IdsOfNames(rows: seq<TaskRow>, names: seq<string>, base: nat)
    requires |rows| == |names| && Unique(names)
    requires forall k :: 0 <= k < |rows| ==> rows[k].name == names[k] && rows[k].id == base + k
    ensures forall k :: 0 <= k < |names| ==> names[k] in IdsOf(rows) && IdsOf(rows)[names[k]] == base + k
    ensures forall n :: n in IdsOf(rows) ==> n in names
  {
    if rows != [] {
      var last := |rows| - 1;
      IdsOfNames(rows[..last], names[..last], base);
    }
  }

  lemma FlowIdsAre(wf: Flow, base: nat)
    requires Named(wf)
    ensures var defs, ids := Defs(wf), FlowIds(wf, base);
      (forall k :: 0 <= k < |defs| ==> defs[k].name in ids && ids[defs[k].name] == base + k) &&
      (forall n :: n in ids <==> n in Names(defs))
  {
    IdsOfNames(TaskRowsOf(wf.id, Defs(wf), base), Names(Defs(wf)), base);
  }

  // ---- the relations of one task ----

  function LeavesFrom(n: Node): Relation -> bool {
    (r: Relation) => r.from == n
  }

  lemma RelationsOfLeave(wid: string, d: TaskDef, ids: Ids)
    ensures forall r :: r in RelationsOf(wid, d, ids) ==>
      d.name in ids && r.from == Task(ids[d.name]) && r.wid == wid && r.normal
  {
  }

  /** What a task contributes to the relations that leave d: its own if it is d, else none. */
  lemma OwnShare(wid: string, e: TaskDef, ids: Ids, d: TaskDef)
    requires d.name in ids && e.name in ids && (ids[e.name] == ids[d.name] ==> e == d)
    ensures Filter(LeavesFrom(Task(ids[d.name])), RelationsOf(wid, e, ids)) == if e == d then RelationsOf(wid, d, ids) else []
  {
    RelationsOfLeave(wid, e, ids);
    hide RelationsOf, Filter;
    FilterAll(LeavesFrom(Task(ids[d.name])), RelationsOf(wid, e, ids));
  }

  lemma NoNameTwice(defs: seq<TaskDef>)
    requires defs != [] && Unique(Names(defs))
    ensures Unique(Names(defs[1..])) && defs[0] !in defs[1..]
  {
    assert forall k :: 0 <= k < |defs[1..]| ==> Names(defs[1..])[k] == Names(defs)[k + 1];
    forall k | 0 <= k < |defs[1..]| ensures defs[1..][k] != defs[0] { assert Names(defs)[0] != Names(defs)[k + 1]; }
  }

  lemma {:induction false} OnlyItsOwn(wid: string, defs: seq<TaskDef>, ids: Ids, d: TaskDef)
    requires d.name in ids && Unique(Names(defs))
    requires forall e :: e in defs ==> e.name in ids && (ids[e.name] == ids[d.name] ==> e == d)
    ensures Filter(LeavesFrom(Task(ids[d.name])), AllRelations(wid, defs, ids)) ==
      if d in defs then RelationsOf(wid, d, ids) else []
  {
    if defs != [] {
      NoNameTwice(defs);
      hide Names, Unique, RelationsOf;
      OnlyItsOwn(wid, defs[1..], ids, d);
      OwnShare(wid, defs[0], ids, d);
      FilterAppend(LeavesFrom(Task(ids[d.name])), RelationsOf(wid, defs[0], ids), AllRelations(wid, defs[1..], ids));
      assert d in defs <==> d == defs[0] || d in defs[1..];
    }
  }

  lemma StartLeavesStart(wf: Workflow, ids: Ids, n: nat)
    ensures Filter(LeavesFrom(Task(n)), StartRelation(wf, ids)) == []
  {
  }

  lemma LeavesOfAll(wf: Workflow, defs: seq<TaskDef>, ids: Ids, d: TaskDef)
    requires defs == Flatten(wf.tasks) && Unique(Names(defs)) && d in defs && d.name in ids
    requires forall e :: e in defs ==> e.name in ids && (ids[e.name] == ids[d.name] ==> e == d)
    ensures Filter(LeavesFrom(Task(ids[d.name])), CompiledRelations(wf, ids)) == RelationsOf(wf.id, d, ids)
  {
    var p := LeavesFrom(Task(ids[d.name]));
    OnlyItsOwn(wf.id, defs, ids, d);
    StartLeavesStart(wf, ids, ids[d.name]);
    FilterAppend(p, StartRelation(wf, ids), AllRelations(wf.id, defs, ids));
  }

  lemma ByIndex(defs: seq<TaskDef>, ids: Ids, base: nat, k: nat)
    requires k < |defs| && forall j :: 0 <= j < |defs| ==> defs[j].name in ids && ids[defs[j].name] == base + j
    ensures forall e :: e in defs ==> e.name in ids && (ids[e.name] == ids[defs[k].name] ==> e == defs[k])
  {
    forall e | e in defs ensures e.name in ids && (ids[e.name] == ids[defs[k].name] ==> e == defs[k]) {
      var j :| 0 <= j < |defs| && defs[j] == e;
    }
  }

  lemma LeavesAt(wf: Workflow, defs: seq<TaskDef>, ids: Ids, base: nat, k: nat)
    requires defs == Flatten(wf.tasks) && Unique(Names(defs)) && k < |defs|
    requires forall j :: 0 <= j < |defs| ==> defs[j].name in ids && ids[defs[j].name] == base + j
    ensures Filter(LeavesFrom(Task(base + k)), CompiledRelations(wf, ids)) == RelationsOf(wf.id, defs[k], ids)
  {
    hide Filter, Flatten, Unique, RelationsOf, CompiledRelations;
    ByIndex(defs, ids, base, k);
    LeavesOfAll(wf, defs, ids, defs[k]);
  }

  lemma CompiledLeaves(wf: Flow, base: nat, k: nat)
    requires Named(wf) && k < |Defs(wf)|
    ensures Filter(LeavesFrom(Task(base + k)), CompiledRelations(wf, FlowIds(wf, base))) ==
      RelationsOf(wf.id, Defs(wf)[k], FlowIds(wf, base))
  {
    FlowIdsAre(wf, base);
    LeavesAt(wf, Defs(wf), FlowIds(wf, base), base, k);
  }

  lemma LeavingCounts(relations: seq<Relation>, wid: string, n: Node, all: seq<Relation>, own: seq<Relation>)
    requires Reordered(Filter(LiveRelation(wid), relations), all) && Filter(LeavesFrom(n), all) == own
    ensures Reordered(Leaving(relations, wid, n), own)
  {
    forall r: Relation ensures multiset(Leaving(relations, wid, n))[r] == multiset(own)[r] {
      FilterCount(Exits(wid, n), relations, r);
      FilterCount(LeavesFrom(n), all, r);
      FilterCount(LiveRelation(wid), relations, r);
    }
  }

  /** Reading the relations of task k gives its compiled relations in some order. */
  lemma ReadRelations(t: Tables, wf: Flow, base: nat, k: nat, order: seq<Relation>)
    requires Named(wf) && Derived(t, wf, base) && k < |Defs(wf)|
    requires Reordered(order, Leaving(t.relations, wf.id, Task(base + k)))
    ensures Reordered(order, RelationsOf(wf.id, Defs(wf)[k], FlowIds(wf, base)))
  {
    CompiledLeaves(wf, base, k);
    LeavingCounts(t.relations, wf.id, Task(base + k), CompiledRelations(wf, FlowIds(wf, base)),
      RelationsOf(wf.id, Defs(wf)[k], FlowIds(wf, base)));
  }

  lemma LeavingIsCompiled(t: Tables, wf: Flow, base: nat, k: nat)
    requires Named(wf) && Derived(t, wf, base) && k < |Defs(wf)|
    ensures Reordered(Leaving(t.relations, wf.id, Task(base + k)), RelationsOf(wf.id, Defs(wf)[k], FlowIds(wf, base)))
  {
    ReadRelations(t, wf, base, k, Leaving(t.relations, wf.id, Task(base + k)));
  }

  /** Reading the task row of task k gives its compiled row. */
  lemma ReadTask(t: Tables, wf: Flow, base: nat, k: nat, task: nat)
    requires Derived(t, wf, base) && k < |Defs(wf)|
    requires task < |t.tasks| && t.tasks[task].wid == wf.id && t.tasks[task].id == base + k
    ensures t.tasks[task] == TaskRowOf(wf.id, Defs(wf)[k], base + k)
  {
    var r, defs := t.tasks[task], Defs(wf);
    var rows := TaskRowsOf(wf.id, defs, base);
    assert r in t.tasks;
    assert r in Filter(LiveTask(wf.id), t.tasks);
    ReorderedMembers(Filter(LiveTask(wf.id), t.tasks), rows);
    hide Filter, Flatten, Derived, ActionsOf;
    RowWithId(wf.id, defs, base, r, k);
  }

  lemma RowWithId(wid: string, defs: seq<Definition>, base: nat, r: TaskRow, k: nat)
    requires r in TaskRowsOf(wid, defs, base) && k < |defs| && r.id == base + k
    ensures r == TaskRowOf(wid, defs[k], base + k)
  {
    hide TaskRowsOf, ActionsOf, Normalize;
    var rows := TaskRowsOf(wid, defs, base);
    var j :| 0 <= j < |rows| && rows[j] == r;
    assert r == TaskRowOf(wid, defs[j], base + j);
  }

  lemma TaskIsStored(t: Tables, wf: Flow, base: nat, k: nat) returns (task: nat)
    requires Derived(t, wf, base) && k < |Defs(wf)|
    ensures task < |t.tasks| && t.tasks[task] == TaskRowOf(wf.id, Defs(wf)[k], base + k)
  {
    var rows := TaskRowsOf(wf.id, Defs(wf), base);
    ReorderedMembers(Filter(LiveTask(wf.id), t.tasks), rows);
    assert rows[k] in t.tasks;
    task :| task < |t.tasks| && t.tasks[task] == rows[k];
  }

  // ---- what the executors make of them ----

  lemma {:induction false} ScanSound(order: seq<Relation>, jq: Oracle, input: string, fallback: Option<Node>)
    ensures match ScanSwitch(order, jq, input, fallback)
      case Broken => exists r :: r in order && r.condition != "" && jq(r.condition, input) == Errs
      case Unmatched => fallback.None? && forall r :: r in order ==> r.condition != "" && jq(r.condition, input) == Fails
      case Chosen(to) =>
        (exists r :: r in order && r.condition != "" && jq(r.condition, input) == Holds && r.to == to) ||
        ((forall r :: r in order && r.condition != "" ==> jq(r.condition, input) == Fails) &&
         if exists r :: r in order && r.condition == "" then exists r :: r in order && r.condition == "" && r.to == to
         else fallback == Some(to))
  {
    if order != [] {
      var first, rest := order[0], order[1..];
      assert forall r :: r in order <==> r == first || r in rest;
      ScanSound(rest, jq, input, if first.condition == "" then Some(first.to) else fallback);
    }
  }

  /** A relation can be read first, and any relation last. */
  lemma Rotate(s: seq<Relation>, r: Relation) returns (front: seq<Relation>, back: seq<Relation>)
    requires r in s
    ensures Reordered([r] + front, s) && Reordered(front + [r], s) && back == front + [r]
  {
    var k :| 0 <= k < |s| && s[k] == r;
    front := s[..k] + s[k + 1..];
    back := front + [r];
    assert s == s[..k] + [r] + s[k + 1..];
    assert multiset(s) == multiset(s[..k]) + multiset{r} + multiset(s[k + 1..]);
  }

  lemma {:induction false} ScanLastDefault(front: seq<Relation>, r: Relation, jq: Oracle, input: string, fallback: Option<Node>)
    requires r.condition == "" && forall x :: x in front && x.condition != "" ==> jq(x.condition, input) == Fails
    ensures ScanSwitch(front + [r], jq, input, fallback) == Chosen(r.to)
  {
    if front != [] {
      assert (front + [r])[1..] == front[1..] + [r];
      ScanLastDefault(front[1..], r, jq, input, if front[0].condition == "" then Some(front[0].to) else fallback);
    } else {
      assert front + [r] == [r];
    }
  }

  /** The possible choices of a switch over a list of relations read in any order. */
  predicate MayChoose(rel: seq<Relation>, jq: Oracle, input: string, n: Node) {
    (exists r :: r in rel && r.condition != "" && jq(r.condition, input) == Holds && r.to == n) ||
    ((forall r :: r in rel && r.condition != "" ==> jq(r.condition, input) == Fails) &&
     if exists r :: r in rel && r.condition == "" then exists r :: r in rel && r.condition == "" && r.to == n
     else n == End)
  }

  lemma SwitchChooses(rel: seq<Relation>, order: seq<Relation>, jq: Oracle, input: string, n: Node)
    requires rel != [] && Reordered(order, rel) && Leads(SwitchPlan(order, jq, input), n)
    ensures MayChoose(rel, jq, input, n)
  {
    ReorderedMembers(order, rel);
    ScanSound(order, jq, input, None);
  }

  lemma SwitchCanChoose(rel: seq<Relation>, jq: Oracle, input: string, n: Node) returns (order: seq<Relation>)
    requires rel != [] && MayChoose(rel, jq, input, n)
    ensures Reordered(order, rel) && Leads(SwitchPlan(order, jq, input), n)
  {
    if r :| r in rel && r.condition != "" && jq(r.condition, input) == Holds && r.to == n {
      var front, back := Rotate(rel, r);
      order := [r] + front;
    } else if r :| r in rel && r.condition == "" && r.to == n {
      var front, back := Rotate(rel, r);
      order := back;
      assert forall x :: x in front ==> x in [r] + front;
      ReorderedMembers([r] + front, rel);
      ScanLastDefault(front, r, jq, input, None);
    } else {
      order := rel;
      ScanSound(rel, jq, input, None);
    }
  }

  /** The first child can not be reached by name: its name is a flow directive. */
  predicate Shadowed(d: TaskDef) {
    d.kind !in {"switch", "fork", "raise"} && !d.explicit && d.children != [] && d.children[0].name in RESERVED
  }

  lemma OneRelation(order: seq<Relation>, e: Relation)
    requires Reordered(order, [e])
    ensures order == [e]
  {
    ReorderedMembers(order, [e]);
    assert order[0] in order;
  }

  lemma KindsMatch(kind: string)
    ensures Normalize(kind) == Switch <==> kind == "switch"
    ensures Normalize(kind) == Fork <==> kind == "fork"
    ensures Normalize(kind) == Raise <==> kind == "raise"
  {
  }

  /** An executor that is not a switch and not a raise moves along its only relation. */
  lemma SingleLeads(kind: TaskType, action: Option<Action>, e: Relation, jq: Oracle, input: string, n: Node)
    requires kind != Switch && kind != Raise
    ensures Leads(Decide(kind, action, [e], jq, input), n) <==> n == e.to
  {
    assert Targets([e]) == if e.to == End then [] else [e.to];
  }

  lemma ForkLeads(action: Option<Action>, order: seq<Relation>, jq: Oracle, input: string, n: Node)
    requires order != [] && (forall r :: r in order ==> r.to != End)
    ensures Leads(Decide(Fork, action, order, jq, input), n) <==> exists r :: r in order && r.to == n
  {
    assert order[0] in order;
  }

  ghost predicate NamesAre(wf: Workflow, ids: Ids) {
    forall n :: n in ids <==> n in Names(Flatten(wf.tasks))
  }

  function NodeOf(ids: Ids, out: Target): Node {
    match out case ToEnd => End case Goto(name) => Lookup(ids, name)
  }

  lemma ResolveIsDirective(wf: Workflow, ids: Ids, next: string)
    requires NamesAre(wf, ids)
    ensures Resolve(next, ids) == NodeOf(ids, Directive(wf, next))
  {
  }

  /** What the compiled relations of d allow on an input: n in some order of the rows. */
  ghost predicate Allows(wf: Workflow, d: TaskDef, ids: Ids, action: Option<Action>, jq: Oracle, input: string, n: Node) {
    exists order :: Reordered(order, RelationsOf(wf.id, d, ids)) && Leads(Decide(Normalize(d.kind), action, order, jq, input), n)
  }

  ghost predicate MovesTo(wf: Workflow, d: TaskDef, ids: Ids, jq: Oracle, input: string, n: Node) {
    exists out :: Moves(wf, d, jq, input, out) && n == NodeOf(ids, out)
  }

  lemma SingleAgrees(wf: Workflow, d: TaskDef, ids: Ids, action: Option<Action>, jq: Oracle, input: string, n: Node)
    requires NamesAre(wf, ids) && d.name in ids && d.kind !in {"switch", "fork", "raise"} && !Shadowed(d)
    ensures Allows(wf, d, ids, action, jq, input, n) <==> MovesTo(wf, d, ids, jq, input, n)
  {
    var e := Edge(wf.id, Task(ids[d.name]), ResolveNext(d, ids), "");
    KindsMatch(d.kind);
    ResolveIsDirective(wf, ids, d.next);
    SingleLeads(Normalize(d.kind), action, e, jq, input, n);
    if Allows(wf, d, ids, action, jq, input, n) {
      var order :| Reordered(order, [e]) && Leads(Decide(Normalize(d.kind), action, order, jq, input), n);
      OneRelation(order, e);
    }
    var out := if d.explicit then Directive(wf, d.next) else if d.children != [] then Goto(d.children[0].name) else ToEnd;
    assert Moves(wf, d, jq, input, out) && NodeOf(ids, out) == e.to;
    assert Reordered([e], RelationsOf(wf.id, d, ids));
  }

  lemma EmptyForkAgrees(wf: Workflow, d: TaskDef, ids: Ids, action: Option<Action>, jq: Oracle, input: string, n: Node)
    requires d.name in ids && d.kind == "fork" && d.children == []
    ensures Allows(wf, d, ids, action, jq, input, n) <==> MovesTo(wf, d, ids, jq, input, n)
  {
    var rel := RelationsOf(wf.id, d, ids);
    assert Reordered(rel, rel);
    assert MovesTo(wf, d, ids, jq, input, n) == (n == End) by { assert Moves(wf, d, jq, input, ToEnd); }
    if Allows(wf, d, ids, action, jq, input, n) {
      var order :| Reordered(order, rel) && Leads(Decide(Fork, action, order, jq, input), n);
      OneRelation(order, rel[0]);
    }
  }

  lemma AllRowsAllow(wf: Workflow, d: TaskDef, ids: Ids, action: Option<Action>, jq: Oracle, input: string, n: Node, rel: seq<Relation>)
    requires rel == RelationsOf(wf.id, d, ids) && rel != [] && Normalize(d.kind) == Fork && forall r :: r in rel ==> r.to != End
    ensures Allows(wf, d, ids, action, jq, input, n) <==> exists r :: r in rel && r.to == n
  {
    hide Decide, Leads, RelationsOf, Normalize;
    assert Reordered(rel, rel);
    ForkLeads(action, rel, jq, input, n);
    if Allows(wf, d, ids, action, jq, input, n) {
      var order :| Reordered(order, rel) && Leads(Decide(Fork, action, order, jq, input), n);
      ReorderedMembers(order, rel);
      ForkLeads(action, order, jq, input, n);
    }
  }

  lemma ForkAllows(wf: Workflow, d: TaskDef, ids: Ids, action: Option<Action>, jq: Oracle, input: string, n: Node)
    requires d.name in ids && d.kind == "fork" && d.children != [] && forall c :: c in d.children ==> c.name in ids
    ensures Allows(wf, d, ids, action, jq, input, n) <==>
      exists r :: r in Branches(wf.id, Task(ids[d.name]), d.children, ids) && r.to == n
  {
    hide Allows;
    AllRowsAllow(wf, d, ids, action, jq, input, n, Branches(wf.id, Task(ids[d.name]), d.children, ids));
  }

  lemma ForkAgrees(wf: Workflow, d: TaskDef, ids: Ids, action: Option<Action>, jq: Oracle, input: string, n: Node)
    requires d.name in ids && d.kind == "fork" && forall c :: c in d.children ==> c.name in ids
    ensures Allows(wf, d, ids, action, jq, input, n) <==> MovesTo(wf, d, ids, jq, input, n)
  {
    if d.children == [] {
      EmptyForkAgrees(wf, d, ids, action, jq, input, n);
    } else {
      ForkAllows(wf, d, ids, action, jq, input, n);
      ForkTargets(wf, d, ids, jq, input, n);
    }
  }

  lemma ForkTargets(wf: Workflow, d: TaskDef, ids: Ids, jq: Oracle, input: string, n: Node)
    requires d.name in ids && d.kind == "fork" && d.children != []
    ensures (exists r :: r in Branches(wf.id, Task(ids[d.name]), d.children, ids) && r.to == n) <==> MovesTo(wf, d, ids, jq, input, n)
  {
    var rel := Branches(wf.id, Task(ids[d.name]), d.children, ids);
    if r :| r in rel && r.to == n {
      var k :| 0 <= k < |rel| && rel[k] == r;
      assert Moves(wf, d, jq, input, Goto(d.children[k].name));
    }
    if out :| Moves(wf, d, jq, input, out) && n == NodeOf(ids, out) {
      var k :| 0 <= k < |d.children| && out == Goto(d.children[k].name);
      assert rel[k] in rel;
    }
  }

  /** The relations of a switch mirror its cases. */
  ghost predicate Mirrors(wf: Workflow, rel: seq<Relation>, cases: seq<Case>, ids: Ids) {
    |rel| == |cases| && forall k :: 0 <= k < |rel| ==>
      rel[k].condition == cases[k].condition && rel[k].to == NodeOf(ids, Directive(wf, cases[k].next))
  }

  lemma ChoiceIsMove(wf: Workflow, rel: seq<Relation>, cases: seq<Case>, ids: Ids, jq: Oracle, input: string, n: Node)
    requires Mirrors(wf, rel, cases, ids) && MayChoose(rel, jq, input, n)
    ensures exists out :: SwitchMoves(wf, cases, jq, input, out) && n == NodeOf(ids, out)
  {
    assert forall c :: c in cases ==> exists k :: 0 <= k < |cases| && cases[k] == c && rel[k] in rel;
    if r :| r in rel && r.condition != "" && jq(r.condition, input) == Holds && r.to == n {
      var k :| 0 <= k < |rel| && rel[k] == r;
      assert cases[k] in cases && SwitchMoves(wf, cases, jq, input, Directive(wf, cases[k].next));
    } else if r :| r in rel && r.condition == "" && r.to == n {
      var k :| 0 <= k < |rel| && rel[k] == r;
      assert cases[k] in cases && SwitchMoves(wf, cases, jq, input, Directive(wf, cases[k].next));
    } else {
      assert SwitchMoves(wf, cases, jq, input, ToEnd);
    }
  }

  lemma MoveIsChoice(wf: Workflow, rel: seq<Relation>, cases: seq<Case>, ids: Ids, jq: Oracle, input: string, out: Target)
    requires Mirrors(wf, rel, cases, ids) && SwitchMoves(wf, cases, jq, input, out)
    ensures MayChoose(rel, jq, input, NodeOf(ids, out))
  {
    assert forall r :: r in rel ==> exists k :: 0 <= k < |rel| && rel[k] == r && cases[k] in cases;
    if c :| c in cases && c.condition != "" && jq(c.condition, input) == Holds && out == Directive(wf, c.next) {
      var k :| 0 <= k < |cases| && cases[k] == c;
      assert rel[k] in rel;
    } else if c :| c in cases && c.condition == "" && out == Directive(wf, c.next) {
      var k :| 0 <= k < |cases| && cases[k] == c;
      assert rel[k] in rel;
    }
  }

  lemma SwitchTargets(wf: Workflow, d: TaskDef, ids: Ids, jq: Oracle, input: string, n: Node)
    requires NamesAre(wf, ids) && d.name in ids && d.kind == "switch"
    ensures MayChoose(Choices(wf.id, Task(ids[d.name]), d.cases, ids), jq, input, n) <==> MovesTo(wf, d, ids, jq, input, n)
  {
    var rel := Choices(wf.id, Task(ids[d.name]), d.cases, ids);
    forall k | 0 <= k < |rel| ensures rel[k].to == NodeOf(ids, Directive(wf, d.cases[k].next)) {
      ResolveIsDirective(wf, ids, d.cases[k].next);
    }
    if MayChoose(rel, jq, input, n) {
      ChoiceIsMove(wf, rel, d.cases, ids, jq, input, n);
      var out :| SwitchMoves(wf, d.cases, jq, input, out) && n == NodeOf(ids, out);
      assert Moves(wf, d, jq, input, out);
    }
    if out :| Moves(wf, d, jq, input, out) && n == NodeOf(ids, out) {
      MoveIsChoice(wf, rel, d.cases, ids, jq, input, out);
    }
  }

  lemma ChoicesMove(wf: Workflow, d: TaskDef, ids: Ids, jq: Oracle, input: string, n: Node)
    requires NamesAre(wf, ids) && d.name in ids && d.kind == "switch"
    ensures MayChoose(RelationsOf(wf.id, d, ids), jq, input, n) <==> MovesTo(wf, d, ids, jq, input, n)
  {
    var rel := RelationsOf(wf.id, d, ids);
    if d.cases == [] {
      assert Moves(wf, d, jq, input, ToEnd);
      assert MayChoose(rel, jq, input, n) <==> n == End by { assert rel[0] in rel; }
    } else {
      SwitchTargets(wf, d, ids, jq, input, n);
    }
  }

  lemma SwitchAgrees(wf: Workflow, d: TaskDef, ids: Ids, action: Option<Action>, jq: Oracle, input: string, n: Node)
    requires NamesAre(wf, ids) && d.name in ids && d.kind == "switch"
    ensures Allows(wf, d, ids, action, jq, input, n) <==> MovesTo(wf, d, ids, jq, input, n)
  {
    var rel := RelationsOf(wf.id, d, ids);
    ChoicesMove(wf, d, ids, jq, input, n);
    assert Normalize(d.kind) == Switch;
    hide MovesTo, MayChoose, RelationsOf, NamesAre, Normalize, Leads, Decide;
    if Allows(wf, d, ids, action, jq, input, n) {
      var order :| Reordered(order, rel) && Leads(Decide(Switch, action, order, jq, input), n);
      SwitchChooses(rel, order, jq, input, n);
    }
    if MayChoose(rel, jq, input, n) {
      var order := SwitchCanChoose(rel, jq, input, n);
      assert Leads(Decide(Switch, action, order, jq, input), n);
    }
  }

  lemma TaskAgrees(wf: Workflow, d: TaskDef, ids: Ids, action: Option<Action>, jq: Oracle, input: string, n: Node)
    requires NamesAre(wf, ids) && d.name in ids && !Shadowed(d) && forall c :: c in d.children ==> c.name in ids
    ensures Allows(wf, d, ids, action, jq, input, n) <==> MovesTo(wf, d, ids, jq, input, n)
  {
    KindsMatch(d.kind);
    if d.kind == "switch" { SwitchAgrees(wf, d, ids, action, jq, input, n); }
    else if d.kind == "fork" { ForkAgrees(wf, d, ids, action, jq, input, n); }
    else if d.kind != "raise" { SingleAgrees(wf, d, ids, action, jq, input, n); }
  }

  lemma ShadowedAllows(wf: Workflow, d: TaskDef, ids: Ids, action: Option<Action>, jq: Oracle, input: string, n: Node)
    requires d.name in ids && Shadowed(d) && Allows(wf, d, ids, action, jq, input, n)
    ensures n == End
  {
    var e := Edge(wf.id, Task(ids[d.name]), End, "");
    KindsMatch(d.kind);
    assert RelationsOf(wf.id, d, ids) == [e];
    var order :| Reordered(order, [e]) && Leads(Decide(Normalize(d.kind), action, order, jq, input), n);
    OneRelation(order, e);
    SingleLeads(Normalize(d.kind), action, e, jq, input, n);
  }

  // ---- the stored workflow ----

  lemma NamesAreIds(wf: Flow, base: nat, k: nat)
    requires Named(wf) && k < |Defs(wf)|
    ensures NamesAre(wf, FlowIds(wf, base)) && Defs(wf)[k].name in FlowIds(wf, base)
    ensures forall c :: c in Defs(wf)[k].children ==> c.name in FlowIds(wf, base)
  {
    var defs := Defs(wf);
    FlowIdsAre(wf, base);
    forall c | c in defs[k].children ensures c.name in FlowIds(wf, base) {
      FlattenHasChildren(wf.tasks, defs[k], c);
      var j :| 0 <= j < |defs| && defs[j] == c;
    }
  }

  lemma FollowsAllows(t: Tables, wf: Flow, base: nat, k: nat, jq: Oracle, input: string, n: Node) returns (action: Action)
    requires Named(wf) && Derived(t, wf, base) && k < |Defs(wf)|
    requires Follows(jq, t, wf.id, Visit(Task(base + k), input), n)
    ensures action in ActionsOf(Defs(wf)[k]) && Allows(wf, Defs(wf)[k], FlowIds(wf, base), Some(action), jq, input, n)
  {
    var task: nat, a, order :| Reads(t, wf.id, Task(base + k), task, a, order) &&
      Leads(Decide(t.tasks[task].kind, a, order, jq, input), n);
    ReadTask(t, wf, base, k, task);
    ReadRelations(t, wf, base, k, order);
    action := a.value;
  }

  /** What a claim of a stored task can read. */
  lemma ReadsStored(t: Tables, row: TaskRow, task: nat, action: Action, order: seq<Relation>, own: seq<Relation>)
    requires task < |t.tasks| && t.tasks[task] == row && action in row.actions
    requires Reordered(order, own) && Reordered(Leaving(t.relations, row.wid, Task(row.id)), own)
    ensures Reads(t, row.wid, Task(row.id), task, Some(action), order)
  {
  }

  lemma ReadsFlow(t: Tables, wf: Flow, base: nat, k: nat, action: Action, order: seq<Relation>) returns (task: nat)
    requires Named(wf) && Derived(t, wf, base) && k < |Defs(wf)| && action in ActionsOf(Defs(wf)[k])
    requires Reordered(order, RelationsOf(wf.id, Defs(wf)[k], FlowIds(wf, base)))
    ensures Reads(t, wf.id, Task(base + k), task, Some(action), order) && t.tasks[task].kind == Normalize(Defs(wf)[k].kind)
  {
    LeavingIsCompiled(t, wf, base, k);
    task := TaskIsStored(t, wf, base, k);
    ReadsStored(t, TaskRowOf(wf.id, Defs(wf)[k], base + k), task, action, order, RelationsOf(wf.id, Defs(wf)[k], FlowIds(wf, base)));
  }

  lemma AllowsFollows(t: Tables, wf: Flow, base: nat, k: nat, jq: Oracle, input: string, n: Node, action: Action)
    requires Named(wf) && Derived(t, wf, base) && k < |Defs(wf)|
    requires action in ActionsOf(Defs(wf)[k]) && Allows(wf, Defs(wf)[k], FlowIds(wf, base), Some(action), jq, input, n)
    ensures Follows(jq, t, wf.id, Visit(Task(base + k), input), n)
  {
    var kind, own := Normalize(Defs(wf)[k].kind), RelationsOf(wf.id, Defs(wf)[k], FlowIds(wf, base));
    var order :| Reordered(order, own) && Leads(Decide(kind, Some(action), order, jq, input), n);
    var task := ReadsFlow(t, wf, base, k, action, order);
    FollowsBy(jq, t, wf.id, Visit(Task(base + k), input), task, Some(action), order, n);
  }

  lemma FollowsBy(jq: Oracle, t: Tables, wid: string, v: Visit, task: nat, action: Option<Action>, order: seq<Relation>, n: Node)
    requires Reads(t, wid, v.task, task, action, order) && Leads(Decide(t.tasks[task].kind, action, order, jq, v.input), n)
    ensures Follows(jq, t, wid, v, n)
  {
  }

  /** Compilation preserves meaning: for every workflow with unique task names, every task of
      it, every answer of the conditions and every order of the rows, an instance can move from the stored task to a
      node exactly when the source task can move to the target stored there. */
  lemma MeaningPreserved(t: Tables, wf: Flow, base: nat, k: nat, jq: Oracle, input: string, n: Node)
    requires Named(wf) && Derived(t, wf, base) && k < |Defs(wf)| && !Shadowed(Defs(wf)[k])
    ensures Follows(jq, t, wf.id, Visit(Task(base + k), input), n) <==>
      MovesTo(wf, Defs(wf)[k], FlowIds(wf, base), jq, input, n)
  {
    var d, ids := Defs(wf)[k], FlowIds(wf, base);
    NamesAreIds(wf, base, k);
    if Follows(jq, t, wf.id, Visit(Task(base + k), input), n) {
      var action := FollowsAllows(t, wf, base, k, jq, input, n);
      TaskAgrees(wf, d, ids, Some(action), jq, input, n);
    }
    if MovesTo(wf, d, ids, jq, input, n) {
      var action := ActionsOf(d)[0];
      TaskAgrees(wf, d, ids, Some(action), jq, input, n);
      AllowsFollows(t, wf, base, k, jq, input, n, action);
    }
  }

  /** The one case in which it is lost: a task without `then` whose first child is named like a flow
      directive should run that child, but its stored relation ends the workflow. */
  lemma ShadowedChildIsLost(t: Tables, wf: Flow, base: nat, k: nat, jq: Oracle, input: string, n: Node)
    requires Named(wf) && Derived(t, wf, base) && k < |Defs(wf)| && Shadowed(Defs(wf)[k])
    ensures var child := Goto(Defs(wf)[k].children[0].name);
      Moves(wf, Defs(wf)[k], jq, input, child) && NodeOf(FlowIds(wf, base), child) != End
    ensures Follows(jq, t, wf.id, Visit(Task(base + k), input), n) ==> n == End
  {
    hide Derived, Valid, Flatten;
    NamesAreIds(wf, base, k);
    assert Defs(wf)[k].children[0] in Defs(wf)[k].children;
    if Follows(jq, t, wf.id, Visit(Task(base + k), input), n) {
      var action := FollowsAllows(t, wf, base, k, jq, input, n);
      ShadowedAllows(wf, Defs(wf)[k], FlowIds(wf, base), Some(action), jq, input, n);
    }
  }

  lemma ShadowedEdge(wf: Flow, d: TaskDef, ids: Ids, action: Option<Action>, jq: Oracle, input: string)
    requires d.name in ids && Shadowed(d)
    ensures Allows(wf, d, ids, action, jq, input, End)
  {
    var e := Edge(wf.id, Task(ids[d.name]), End, "");
    KindsMatch(d.kind);
    assert RelationsOf(wf.id, d, ids) == [e];
    SingleLeads(Normalize(d.kind), action, e, jq, input, End);
    assert Reordered([e], RelationsOf(wf.id, d, ids));
  }

  /** Instead, the stored task ends the workflow. */
  lemma ShadowedEnds(t: Tables, wf: Flow, base: nat, k: nat, jq: Oracle, input: string)
    requires Named(wf) && Derived(t, wf, base) && k < |Defs(wf)| && Shadowed(Defs(wf)[k])
    ensures Follows(jq, t, wf.id, Visit(Task(base + k), input), End)
  {
    hide Named, Derived, Flatten;
    NamesAreIds(wf, base, k);
    var action := ActionsOf(Defs(wf)[k])[0];
    ShadowedEdge(wf, Defs(wf)[k], FlowIds(wf, base), Some(action), jq, input);
    AllowsFollows(t, wf, base, k, jq, input, End, action);
  }

  /** Exactly the tasks with a shadowed first child change their meaning. */
  lemma PreservedUnlessShadowed(t: Tables, wf: Flow, base: nat, k: nat, jq: Oracle, v: Visit)
    requires Named(wf) && Derived(t, wf, base) && k < |Defs(wf)| && v.task == Task(base + k)
    ensures (forall n :: Follows(jq, t, wf.id, v, n) <==> MovesTo(wf, Defs(wf)[k], FlowIds(wf, base), jq, v.input, n))
      <==> !Shadowed(Defs(wf)[k])
  {
    var d, ids := Defs(wf)[k], FlowIds(wf, base);
    if Shadowed(d) {
      var n := NodeOf(ids, Goto(d.children[0].name));
      ShadowedChildIsLost(t, wf, base, k, jq, v.input, n);
      assert MovesTo(wf, d, ids, jq, v.input, n) && !Follows(jq, t, wf.id, v, n);
    } else {
      forall n ensures Follows(jq, t, wf.id, v, n) <==> MovesTo(wf, d, ids, jq, v.input, n) {
        MeaningPreserved(t, wf, base, k, jq, v.input, n);
      }
    }
  }
}
