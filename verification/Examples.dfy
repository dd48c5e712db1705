/** Two small workflows: one loses a child to its name, one ends while a branch is still under way. */
module Examples {
  import opened Model
  import opened Executors
  import opened Protocol
  import opened Origins
  import opened Paths
  import opened Joins
  import opened EarlySuccess
  import opened Swf
  import opened Compiler
  import opened Meaning
  import opened Branching
  import opened Catalog

  function Plain(name: string, kind: string, children: seq<TaskDef>): TaskDef {
    TaskDef(name, kind, "", false, [], [], children)
  }

  /** A `do` task whose only child is called like the directive `end`. */
  const LOSING: Workflow := Workflow("losing", "outer", [Plain("outer", "do", [Plain("end", "set", [])])])

  /** A fork of two tasks that both end the workflow. */
  const FORKING: Workflow := Workflow("forking", "both", [Plain("both", "fork", [Plain("left", "set", []), Plain("right", "set", [])])])

  lemma LosingDefs()
    ensures Flatten(LOSING.tasks) == [Plain("outer", "do", [Plain("end", "set", [])]), Plain("end", "set", [])]
  {
    var child := Plain("end", "set", []);
    assert Flatten([child]) == [child] + Flatten([]) + Flatten([]);
    var outer := Plain("outer", "do", [child]);
    assert Flatten([outer]) == [outer] + Flatten([child]) + Flatten([]);
  }

  lemma ForkingDefs()
    ensures Flatten(FORKING.tasks) == [FORKING.tasks[0], Plain("left", "set", []), Plain("right", "set", [])]
  {
    var left, right := Plain("left", "set", []), Plain("right", "set", []);
    assert Flatten([right]) == [right] + Flatten([]) + Flatten([]);
    assert Flatten([left, right]) == [left] + Flatten([]) + Flatten([right]) by { assert [left, right][1..] == [right]; }
    assert Flatten(FORKING.tasks) == [FORKING.tasks[0]] + Flatten([left, right]) + Flatten([]);
  }

  /** The tables that saving wf first leaves behind, when the inserts arrive in order. */
  function SavedAlone(wf: Flow, definition: string): Tables {
    Tables([FlowRow(wf.id, definition, 0, true)], TaskRowsOf(wf.id, Defs(wf), 0), CompiledRelations(wf, FlowIds(wf, 0)))
  }

  lemma SavedAloneIsDerived(wf: Flow, definition: string)
    ensures Derived(SavedAlone(wf, definition), wf, 0) && Sound(SavedAlone(wf, definition))
  {
    var t := SavedAlone(wf, definition);
    assert t.tasks[|EMPTY.tasks|..] == t.tasks && t.relations[|EMPTY.relations|..] == t.relations;
    assert Created(EMPTY, wf, definition, 0, t);
    CreatedOwn(EMPTY, wf, definition, 0, t);
    CreatedSound(EMPTY, wf, definition, 0, t);
  }

  lemma LosingIsValid() returns (wf: Flow)
    ensures wf == LOSING && Valid(wf) && Named(wf) && |Defs(wf)| == 2 && Defs(wf)[1].name == "end" && Shadowed(Defs(wf)[0])
  {
    LosingDefs();
    hide Flatten;
    var all := [Plain("outer", "do", [Plain("end", "set", [])]), Plain("end", "set", [])];
    assert Names(all)[0] == "outer" && Names(all)[1] == "end";
    wf := FlowFrom(LOSING, all);
  }

  /** A valid workflow whose stored relations lose a child: the source goes on to it, the code ends. */
  lemma AChildIsLost(jq: Oracle, input: string) returns (wf: Flow, t: Tables)
    ensures Valid(wf) && Derived(t, wf, 0) && |Defs(wf)| == 2 && Shadowed(Defs(wf)[0])
    ensures Moves(wf, Defs(wf)[0], jq, input, Goto("end"))
    ensures Follows(jq, t, wf.id, Visit(Task(0), input), End) && !Follows(jq, t, wf.id, Visit(Task(0), input), Task(1))
  {
    wf := LosingIsValid();
    hide Flatten, Valid, Named, Derived, Shadowed, Follows, SavedAlone, Moves, FlowIds, NodeOf;
    t := SavedAlone(wf, "");
    SavedAloneIsDerived(wf, "");
    ShadowedEnds(t, wf, 0, 0, jq, input);
    ShadowedChildIsLost(t, wf, 0, 0, jq, input, Task(1));
    LosingMoves(wf, jq, input);
  }

  lemma LosingMoves(wf: Flow, jq: Oracle, input: string)
    requires wf == LOSING && |Defs(wf)| == 2
    ensures Moves(wf, Defs(wf)[0], jq, input, Goto("end"))
  {
    LosingDefs();
    hide Flatten;
  }

  // ---- forks that leak ----

  lemma SplitsBy(jq: Oracle, t: Tables, wid: string, v: Visit, task: nat, action: Option<Action>, order: seq<Relation>, ns: seq<Node>)
    requires Reads(t, wid, v.task, task, action, order) && |ns| >= 2
    requires Decide(t.tasks[task].kind, action, order, jq, v.input) == Plan(Nop, Advance(ns))
    ensures Splits(jq, t, wid, v, ns)
  {
  }

  lemma ForkPlan(wid: string, d: TaskDef, ids: Ids, action: Option<Action>, jq: Oracle, input: string)
    requires d.name in ids && d.kind == "fork" && d.children != [] && forall c :: c in d.children ==> c.name in ids
    ensures Decide(Normalize(d.kind), action, RelationsOf(wid, d, ids), jq, input) == Plan(Nop, Advance(Heads(d, ids)))
  {
    var order := RelationsOf(wid, d, ids);
    assert order == Branches(wid, Task(ids[d.name]), d.children, ids);
    AllTargets(order);
    assert Targets(order) == Heads(d, ids);
    assert order[0] in order;
  }

  /** A stored fork with two or more children splits. */
  lemma ForkDefSplits(jq: Oracle, t: Tables, wf: Flow, base: nat, k: nat, input: string)
    requires Named(wf) && Derived(t, wf, base) && k < |Defs(wf)| && Defs(wf)[k].kind == "fork" && |Defs(wf)[k].children| >= 2
    ensures Splits(jq, t, wf.id, Visit(Task(base + k), input), Heads(Defs(wf)[k], FlowIds(wf, base)))
  {
    hide Named, Derived, Flatten, Reads, RelationsOf, Decide, FlowIds, Splits, Heads;
    var d, ids := Defs(wf)[k], FlowIds(wf, base);
    NamesAreIds(wf, base, k);
    var action := ActionsOf(d)[0];
    var task := ReadsFlow(t, wf, base, k, action, RelationsOf(wf.id, d, ids));
    ForkPlan(wf.id, d, ids, Some(action), jq, input);
    HeadCount(d, ids);
    SplitsBy(jq, t, wf.id, Visit(Task(base + k), input), task, Some(action), RelationsOf(wf.id, d, ids), Heads(d, ids));
  }

  lemma HeadCount(d: TaskDef, ids: Ids)
    ensures |Heads(d, ids)| == |d.children|
  {
  }

  lemma LastSetPlan(wid: string, d: TaskDef, ids: Ids, action: Option<Action>, jq: Oracle, input: string)
    requires d.name in ids && d.kind == "set" && !d.explicit && d.children == []
    ensures Carries(Decide(Normalize(d.kind), action, RelationsOf(wid, d, ids), jq, input), End)
  {
    assert RelationsOf(wid, d, ids) == [Edge(wid, Task(ids[d.name]), End, "")];
  }

  /** A stored `set` without a successor can complete the instance. */
  lemma LastSetHops(jq: Oracle, t: Tables, wf: Flow, base: nat, k: nat, input: string)
    requires Named(wf) && Derived(t, wf, base) && k < |Defs(wf)|
    requires Defs(wf)[k].kind == "set" && !Defs(wf)[k].explicit && Defs(wf)[k].children == []
    ensures Hop(jq, t, wf.id, Visit(Task(base + k), input), End)
  {
    hide Named, Derived, Flatten, Reads, RelationsOf, Decide, FlowIds, Hop, Carries;
    var d, ids := Defs(wf)[k], FlowIds(wf, base);
    NamesAreIds(wf, base, k);
    var action := ActionsOf(d)[0];
    var task := ReadsFlow(t, wf, base, k, action, RelationsOf(wf.id, d, ids));
    LastSetPlan(wf.id, d, ids, Some(action), jq, input);
    HopsBy(jq, t, wf.id, Visit(Task(base + k), input), task, Some(action), RelationsOf(wf.id, d, ids), End);
  }

  /** The start task is such a fork, and its child c, stored as task m, is such a `set`. */
  lemma StartForkLeaks(jq: Oracle, t: Tables, wf: Flow, base: nat, k: nat, c: nat, m: nat)
    requires Named(wf) && Derived(t, wf, base) && k < |Defs(wf)| && wf.start == Defs(wf)[k].name
    requires Defs(wf)[k].kind == "fork" && |Defs(wf)[k].children| >= 2 && c < |Defs(wf)[k].children|
    requires m < |Defs(wf)| && Defs(wf)[m].name == Defs(wf)[k].children[c].name
    requires Defs(wf)[m].kind == "set" && !Defs(wf)[m].explicit && Defs(wf)[m].children == []
    ensures Leaks(jq, t, wf.id)
  {
    var ids := FlowIds(wf, base);
    FlowIdsAre(wf, base);
    ForkDefSplits(jq, t, wf, base, k, "");
    LastSetHops(jq, t, wf, base, m, "");
    StartsHere(t, wf, base, k);
    var first, last, ns := Visit(Task(base + k), ""), Visit(Task(base + m), ""), Heads(Defs(wf)[k], ids);
    assert ns[c] == Task(base + m);
    hide Named, Derived, Flatten, Splits, Hop, StartsAt, Reads;
    Leaking(jq, t, wf.id, first, ns, last);
  }

  lemma StartsHere(t: Tables, wf: Flow, base: nat, k: nat)
    requires Named(wf) && Derived(t, wf, base) && k < |Defs(wf)| && wf.start == Defs(wf)[k].name
    ensures StartsAt(t, wf.id, Task(base + k))
  {
    hide Named, Derived, Flatten, FlowIds, StartsAt, Filter;
    FlowIdsAre(wf, base);
    StartEdge(t, wf, base);
    assert StartRelation(wf, FlowIds(wf, base)) == [Edge(wf.id, Start, Task(base + k), "")];
    StartsBy(t, wf.id, Task(base + k));
  }

  lemma StartsBy(t: Tables, wid: string, n: Node)
    requires Edge(wid, Start, n, "") in Leaving(t.relations, wid, Start)
    ensures StartsAt(t, wid, n)
  {
    assert Edge(wid, Start, n, "") in t.relations;
  }

  lemma Leaking(jq: Oracle, t: Tables, wid: string, first: Visit, ns: seq<Node>, last: Visit)
    requires StartsAt(t, wid, first.task) && Splits(jq, t, wid, first, ns) && last.task in ns && Hop(jq, t, wid, last, End)
    ensures Leaks(jq, t, wid)
  {
    hide StartsAt, Splits, Hop;
    assert Trail(jq, t, wid, first.task, [], first.task);
    assert [last][1..] == [] && Trail(jq, t, wid, End, [last][1..], End);
    assert Trail(jq, t, wid, last.task, [last], End);
  }

  /** What the compiler accepts as a workflow: long names, no directives. */
  lemma FlowFrom(w: Workflow, all: seq<TaskDef>) returns (wf: Flow)
    requires Flatten(w.tasks) == all && all != [] && Unique(Names(all))
    requires forall d :: d in all ==> |d.name| >= 3 && !d.explicit && d.cases == []
    ensures wf == w && Valid(wf) && Named(wf) && Defs(wf) == all
  {
    hide Unique, Names, IsLocalName, TypeName, Normalize, Flatten;
    wf := w;
  }

  lemma ThreeNames(all: seq<TaskDef>)
    requires |all| == 3 && all[0].name == "both" && all[1].name == "left" && all[2].name == "right"
    ensures Unique(Names(all)) && forall d :: d in all ==> |d.name| >= 3
  {
    assert Names(all)[0][0] == 'b' && Names(all)[1][0] == 'l' && Names(all)[2][0] == 'r';
  }

  lemma ForkingIsValid() returns (wf: Flow)
    ensures wf == FORKING && Valid(wf) && Named(wf)
    ensures |Defs(wf)| == 3 && Defs(wf)[0] == FORKING.tasks[0] && Defs(wf)[1] == Plain("left", "set", [])
  {
    ForkingDefs();
    var all := [FORKING.tasks[0], Plain("left", "set", []), Plain("right", "set", [])];
    ThreeNames(all);
    hide Flatten, Unique, Names;
    wf := FlowFrom(FORKING, all);
  }

  /** A valid workflow that leaks: some run of it is SUCCESS too early. */
  lemma AForkLeaks(jq: Oracle) returns (wf: Flow, t: Tables)
    ensures Valid(wf) && Derived(t, wf, 0) && Sound(t) && Leaks(jq, t, wf.id) && EndsEarly(jq, t, wf.id)
  {
    wf := ForkingIsValid();
    hide Flatten, Valid, Named, Derived, SavedAlone, Leaks, EndsEarly;
    t := SavedAlone(wf, "");
    SavedAloneIsDerived(wf, "");
    StartForkLeaks(jq, t, wf, 0, 0, 0, 1);
    EndsEarlyIffLeaks(jq, t, wf.id);
  }
}
