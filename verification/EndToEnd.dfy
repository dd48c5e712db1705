/** From the definition text to the executed tasks: saved workflows, compiled, run by the protocol. */
module EndToEnd {
  import opened Model
  import opened Executors
  import opened Protocol
  import opened Tokens
  import opened Safety
  import opened Paths
  import opened Swf
  import opened Compiler
  import opened Meaning
  import opened Catalog

  // ---- fork-free definitions give fork-free tables ----

  /** No fork of the workflow has two branches. */
  predicate ForkFree(wf: Workflow) {
    forall d :: d in Flatten(wf.tasks) && d.kind == "fork" ==> |d.children| <= 1
  }

  lemma FewRelations(wid: string, d: TaskDef, ids: Ids)
    requires IsLocal(Normalize(d.kind)) && (d.kind == "fork" ==> |d.children| <= 1)
    ensures |RelationsOf(wid, d, ids)| <= 1
  {
    KindsMatch(d.kind);
  }

  /** A live row that leaves a task of workflow wid leaves one of its compiled tasks. */
  lemma LeavesCompiled(t: Tables, wf: Flow, base: nat, r: Relation, n: nat)
    requires Named(wf) && Derived(t, wf, base) && r in Leaving(t.relations, wf.id, Task(n))
    ensures base <= n < base + |Defs(wf)|
  {
    var ids := FlowIds(wf, base);
    ReorderedMembers(Filter(LiveRelation(wf.id), t.relations), CompiledRelations(wf, ids));
    assert r in CompiledRelations(wf, ids);
    AllLeave(wf.id, Flatten(wf.tasks), ids);
    FlowIdsAre(wf, base);
    var name :| name in ids && Task(ids[name]) == Task(n);
    assert name in Names(Defs(wf));
  }

  lemma {:induction false} AllLeave(wid: string, defs: seq<TaskDef>, ids: Ids)
    ensures forall r :: r in AllRelations(wid, defs, ids) ==> exists name :: name in ids && r.from == Task(ids[name])
  {
    if defs != [] { AllLeave(wid, defs[1..], ids); }
  }

  lemma ForklessAt(t: Tables, wf: Flow, base: nat, k: nat)
    requires Named(wf) && Derived(t, wf, base) && ForkFree(wf) && k < |t.tasks|
    requires t.tasks[k].wid == wf.id && IsLocal(t.tasks[k].kind)
    ensures |Leaving(t.relations, wf.id, Task(t.tasks[k].id))| <= 1
  {
    var edges := Leaving(t.relations, wf.id, Task(t.tasks[k].id));
    if edges != [] {
      LeavesCompiled(t, wf, base, edges[0], t.tasks[k].id);
      var j := t.tasks[k].id - base;
      ReadTask(t, wf, base, j, k);
      LeavingIsCompiled(t, wf, base, j);
      FewRelations(wf.id, Defs(wf)[j], FlowIds(wf, base));
      ReorderedMembers(edges, RelationsOf(wf.id, Defs(wf)[j], FlowIds(wf, base)));
    }
  }

  /** The tables of a stored workflow fork nowhere when its definition does not. */
  lemma ForkFreeIsForkless(t: Tables, wf: Flow, base: nat)
    requires Named(wf) && Derived(t, wf, base) && ForkFree(wf)
    ensures Forkless(t, wf.id)
  {
    forall k | 0 <= k < |t.tasks| && t.tasks[k].wid == wf.id && IsLocal(t.tasks[k].kind)
      ensures |Leaving(t.relations, wf.id, Task(t.tasks[k].id))| <= 1
    {
      ForklessAt(t, wf, base, k);
    }
  }

  // ---- the executed tasks are a path of the source ----

  predicate InFlow(wf: Flow, base: nat, n: Node) {
    n.Task? && base <= n.id < base + |Defs(wf)|
  }

  function DefOf(wf: Flow, base: nat, n: Node): TaskDef
    requires InFlow(wf, base, n)
  {
    Defs(wf)[n.id - base]
  }

  predicate IsStart(wf: Flow, base: nat, n: Node) {
    InFlow(wf, base, n) && DefOf(wf, base, n).name == wf.start
  }

  /** The source sends an instance from the visited task to n. */
  predicate SourceMove(jq: Oracle, wf: Flow, base: nat, v: Visit, n: Node)
    requires InFlow(wf, base, v.task)
  {
    InFlow(wf, base, n) && Moves(wf, DefOf(wf, base, v.task), jq, v.input, Goto(DefOf(wf, base, n).name))
  }

  /** The visits start at the workflow's start task and each goes where the source sends the one before. */
  predicate SourcePath(jq: Oracle, wf: Flow, base: nat, h: seq<Visit>)
    ensures SourcePath(jq, wf, base, h) && h != [] ==> InFlow(wf, base, h[|h| - 1].task)
  {
    if h == [] then true
    else
      var last := |h| - 1;
      SourcePath(jq, wf, base, h[..last]) &&
      if last == 0 then IsStart(wf, base, h[0].task)
      else SourceMove(jq, wf, base, h[..last][last - 1], h[last].task)
  }

  lemma NamedTask(wf: Flow, base: nat, name: string)
    requires Named(wf) && name in FlowIds(wf, base)
    ensures var n := Task(FlowIds(wf, base)[name]); InFlow(wf, base, n) && DefOf(wf, base, n).name == name
  {
    FlowIdsAre(wf, base);
    assert name in Names(Defs(wf));
  }

  lemma StartsAtStart(t: Tables, wf: Flow, base: nat, n: Node)
    requires Named(wf) && Derived(t, wf, base) && StartsAt(t, wf.id, n)
    ensures IsStart(wf, base, n)
  {
    var r :| r in t.relations && r.normal && r.wid == wf.id && r.from == Start && r.to == n;
    StartEdge(t, wf, base);
    assert r in Leaving(t.relations, wf.id, Start);
    NamedTask(wf, base, wf.start);
  }

  /** A stored move is a source move, except that a shadowed child turns into the end. */
  lemma FollowsMoves(jq: Oracle, t: Tables, wf: Flow, base: nat, v: Visit, n: Node)
    requires Named(wf) && Derived(t, wf, base) && InFlow(wf, base, v.task) && Follows(jq, t, wf.id, v, n)
    ensures MovesTo(wf, DefOf(wf, base, v.task), FlowIds(wf, base), jq, v.input, n) ||
      (Shadowed(DefOf(wf, base, v.task)) && n == End)
  {
    hide Named, Derived, Follows, Moves;
    var k := v.task.id - base;
    if Shadowed(Defs(wf)[k]) { ShadowedChildIsLost(t, wf, base, k, jq, v.input, n); }
    else { MeaningPreserved(t, wf, base, k, jq, v.input, n); }
  }

  lemma TargetIsTask(wf: Flow, base: nat, d: TaskDef, jq: Oracle, input: string, n: Node)
    requires Named(wf) && n.Task? && MovesTo(wf, d, FlowIds(wf, base), jq, input, n)
    ensures InFlow(wf, base, n) && Moves(wf, d, jq, input, Goto(DefOf(wf, base, n).name))
  {
    var ids := FlowIds(wf, base);
    var out :| Moves(wf, d, jq, input, out) && n == NodeOf(ids, out);
    NodeIsTask(ids, out, n);
    NamedTask(wf, base, out.name);
  }

  lemma NodeIsTask(ids: Ids, out: Target, n: Node)
    requires n.Task? && n == NodeOf(ids, out)
    ensures out.Goto? && out.name in ids && n == Task(ids[out.name])
  {
  }

  lemma GotoIsNamed(wf: Workflow, d: TaskDef, jq: Oracle, input: string, out: Target)
    requires Moves(wf, d, jq, input, out) && out.Goto? && d in Flatten(wf.tasks)
    ensures out.name in Names(Flatten(wf.tasks))
  {
    var defs := Flatten(wf.tasks);
    if d.kind !in {"raise", "switch"} && d.children != [] && (d.kind == "fork" || !d.explicit) {
      var c :| c in d.children && out == Goto(c.name);
      FlattenHasChildren(wf.tasks, d, c);
      var j :| 0 <= j < |defs| && defs[j] == c;
      assert Names(defs)[j] == c.name;
    }
  }

  lemma TargetIsEnd(wf: Flow, base: nat, d: TaskDef, jq: Oracle, input: string)
    requires Named(wf) && d in Flatten(wf.tasks) && MovesTo(wf, d, FlowIds(wf, base), jq, input, End)
    ensures Moves(wf, d, jq, input, ToEnd)
  {
    FlowIdsAre(wf, base);
    var out :| Moves(wf, d, jq, input, out) && End == NodeOf(FlowIds(wf, base), out);
    if out.Goto? { GotoIsNamed(wf, d, jq, input, out); }
  }

  lemma MoveOn(jq: Oracle, t: Tables, wf: Flow, base: nat, v: Visit, n: Node)
    requires Named(wf) && Derived(t, wf, base) && InFlow(wf, base, v.task) && Follows(jq, t, wf.id, v, n) && n.Task?
    ensures SourceMove(jq, wf, base, v, n)
  {
    FollowsMoves(jq, t, wf, base, v, n);
    TargetIsTask(wf, base, DefOf(wf, base, v.task), jq, v.input, n);
  }

  lemma SourcePathExtends(jq: Oracle, wf: Flow, base: nat, g: seq<Visit>, v: Visit)
    requires SourcePath(jq, wf, base, g)
    requires if g == [] then IsStart(wf, base, v.task) else SourceMove(jq, wf, base, g[|g| - 1], v.task)
    ensures SourcePath(jq, wf, base, g + [v])
  {
    hide Flatten, Moves, DefOf, IsStart;
    var h := g + [v];
    assert h[..|h| - 1] == g && h[|h| - 1] == v;
  }

  lemma {:induction false} PathIsSourcePath(jq: Oracle, t: Tables, wf: Flow, base: nat, h: seq<Visit>)
    requires Named(wf) && Derived(t, wf, base) && Path(jq, t, wf.id, h) && forall v :: v in h ==> v.task.Task?
    ensures SourcePath(jq, wf, base, h)
  {
    hide Named, Derived, Path, Follows, Moves, StartsAt, SourcePath, IsStart, SourceMove;
    if h == [] { NoSourcePath(jq, wf, base); }
    else {
      var g, v := h[..|h| - 1], h[|h| - 1];
      assert h == g + [v];
      PathPrefix(jq, t, wf.id, h);
      PathIsSourcePath(jq, t, wf, base, g);
      if g == [] { StartsAtStart(t, wf, base, v.task); }
      else { MoveOn(jq, t, wf, base, g[|g| - 1], v.task); }
      SourcePathExtends(jq, wf, base, g, v);
    }
  }

  lemma NoSourcePath(jq: Oracle, wf: Flow, base: nat)
    ensures SourcePath(jq, wf, base, [])
  {
  }

  lemma PathPrefix(jq: Oracle, t: Tables, wid: string, h: seq<Visit>)
    requires h != [] && Path(jq, t, wid, h)
    ensures Path(jq, t, wid, h[..|h| - 1])
    ensures |h| == 1 ==> StartsAt(t, wid, h[0].task)
    ensures |h| > 1 ==> Follows(jq, t, wid, h[..|h| - 1][|h| - 2], h[|h| - 1].task)
  {
    var last := |h| - 1;
    forall k | 0 <= k < last ensures Continues(jq, t, wid, h[..last][..k], h[..last][k].task) {
      assert h[..last][..k] == h[..k];
      assert Continues(jq, t, wid, h[..k], h[k].task);
    }
    assert Continues(jq, t, wid, h[..last], h[last].task);
  }

  // ---- only tasks are executed ----

  predicate VisitsTasks(w: World) {
    forall i :: i in w.trace ==> forall v :: v in w.trace[i] ==> v.task.Task?
  }

  lemma {:induction false} RunVisitsTasks(jq: Oracle, w: World, steps: seq<Step>, w': World)
    requires VisitsTasks(w) && Runs(jq, w, steps, w')
    ensures VisitsTasks(w')
    decreases |steps|
  {
    if steps != [] { RunVisitsTasks(jq, Next(jq, w, steps[0]), steps[1..], w'); }
  }

  // ---- saves and deletes of other workflows ----

  /** The step saves or deletes a workflow, as workflow.go does; `gone` is the workflow it is addressed to. */
  ghost predicate Edits(raw: RawParser, t: Tables, next: nat, s: Step) {
    s.Republish? &&
    ((exists wid, definition, ok :: Saved(raw, t, next, wid, definition, ok, s.tables, s.next) &&
        s.gone == if ok && wid != "" then Some(wid) else None) ||
     exists wid :: s.tables == Retired(t, wid) && s.next == next && s.gone == Some(wid))
  }

  /** Every change of the tables is a save or a delete. */
  ghost predicate EditsOnly(jq: Oracle, raw: RawParser, w: World, steps: seq<Step>)
    decreases |steps|
  {
    steps == [] ||
    (Enabled(jq, w, steps[0]) && (steps[0].Republish? ==> Edits(raw, w.tables, w.next, steps[0])) &&
     EditsOnly(jq, raw, Next(jq, w, steps[0]), steps[1..]))
  }

  lemma EditAgrees(raw: RawParser, t: Tables, next: nat, s: Step)
    requires Agrees(raw, t, next) && Edits(raw, t, next, s)
    ensures Agrees(raw, s.tables, s.next)
  {
    if wid, definition, ok :| Saved(raw, t, next, wid, definition, ok, s.tables, s.next) && s.gone == (if ok && wid != "" then Some(wid) else None) {
      SaveAgrees(raw, t, next, wid, definition, ok, s.tables, s.next);
    } else {
      var wid :| s.tables == Retired(t, wid) && s.next == next;
      DeleteAgrees(raw, t, next, wid);
    }
  }

  lemma StepAgrees(jq: Oracle, raw: RawParser, w: World, s: Step)
    requires Enabled(jq, w, s) && Agrees(raw, w.tables, w.next) && (s.Republish? ==> Edits(raw, w.tables, w.next, s))
    ensures Agrees(raw, Next(jq, w, s).tables, Next(jq, w, s).next)
  {
    if s.Republish? { EditAgrees(raw, w.tables, w.next, s); }
    else {
      var v := Next(jq, w, s);
      assert v.tables == w.tables && w.next <= v.next;
      LaterAgrees(raw, w.tables, w.next, v.next);
    }
  }

  lemma {:induction false} RunAgrees(jq: Oracle, raw: RawParser, w: World, steps: seq<Step>, w': World)
    requires Runs(jq, w, steps, w') && Agrees(raw, w.tables, w.next) && EditsOnly(jq, raw, w, steps)
    ensures Agrees(raw, w'.tables, w'.next)
    decreases |steps|
  {
    if steps != [] {
      StepAgrees(jq, raw, w, steps[0]);
      hide Agrees;
      RunAgrees(jq, raw, Next(jq, w, steps[0]), steps[1..], w');
    }
  }

  lemma LeavingOfLive(relations: seq<Relation>, wid: string, n: Node)
    ensures Leaving(relations, wid, n) == Filter(LeavesFrom(n), Filter(LiveRelation(wid), relations))
  {
    FilterTwice(LiveRelation(wid), LeavesFrom(n), Exits(wid, n), relations);
  }

  lemma SameLiveSameLeaving(t: Tables, t': Tables, wid: string)
    requires Filter(LiveRelation(wid), t'.relations) == Filter(LiveRelation(wid), t.relations)
    ensures forall n :: Leaving(t'.relations, wid, n) == Leaving(t.relations, wid, n)
  {
    forall n ensures Leaving(t'.relations, wid, n) == Leaving(t.relations, wid, n) {
      LeavingOfLive(t.relations, wid, n);
      LeavingOfLive(t'.relations, wid, n);
    }
  }

  lemma RetiredKept(t: Tables, wid: string, other: string)
    requires wid != other
    ensures Kept(t, Retired(t, other), wid)
  {
    RetiredRelations(t.relations, other, wid);
    SameLiveSameLeaving(t, Retired(t, other), wid);
  }

  lemma CreatedKept(t: Tables, wf: Flow, definition: string, base: nat, t': Tables, wid: string)
    requires Created(t, wf, definition, base, t') && wf.id != wid
    ensures Kept(t, t', wid)
  {
    CreatedRows(t, wf, definition, base, t', wid);
    SameLiveSameLeaving(t, t', wid);
    CreatedLive(t, wf, definition, base, t');
    forall k | |t.tasks| <= k < |t'.tasks| ensures t'.tasks[k].wid != wid {
      assert t'.tasks[k] == t'.tasks[|t.tasks|..][k - |t.tasks|];
    }
  }

  lemma KeptOn(t: Tables, u: Tables, v: Tables, wid: string)
    requires Kept(t, u, wid) && Kept(u, v, wid)
    ensures Kept(t, v, wid)
  {
    GrowsOn(t, u, v);
    forall k | |t.tasks| <= k < |v.tasks| ensures v.tasks[k].wid != wid {
      if k < |u.tasks| { assert v.tasks[k] == u.tasks[k].(normal := v.tasks[k].normal); }
    }
  }

  lemma SavedKept(raw: RawParser, t: Tables, next: nat, other: string, definition: string, ok: bool, t': Tables, next': nat, wid: string)
    requires Saved(raw, t, next, other, definition, ok, t', next') && Exists(t, wid) && (ok ==> other != wid)
    ensures Kept(t, t', wid) && Exists(t', wid)
  {
    KeptItself(t, wid);
    if ok {
      var d, wf := Cleared(t, other), Parse(raw, definition).value.value;
      if other != "" {
        RetiredExists(t, other, wid);
        RetiredKept(t, wid, other);
      }
      CreatedKept(d, wf, definition, next, t', wid);
      CreatedExists(d, FlowRow(wf.id, definition, next, true), t', wid);
      KeptOn(t, d, t', wid);
    }
  }

  /** A save or a delete that is not addressed to a live workflow leaves it as it is. */
  lemma OtherEditKeeps(raw: RawParser, t: Tables, next: nat, s: Step, wid: string)
    requires Edits(raw, t, next, s) && Exists(t, wid) && s.gone != Some(wid)
    ensures Kept(t, s.tables, wid) && Exists(s.tables, wid)
  {
    if other, definition, ok :| Saved(raw, t, next, other, definition, ok, s.tables, s.next) && s.gone == (if ok && other != "" then Some(other) else None) {
      if ok && other == wid { EmptyIdKept(raw, t, next, definition, s, wid); }
      else { SavedKept(raw, t, next, other, definition, ok, s.tables, s.next, wid); }
    } else {
      var other :| s.tables == Retired(t, other) && s.gone == Some(other);
      RetiredKept(t, wid, other);
      RetiredExists(t, other, wid);
    }
  }

  /** The empty workflow id clears nothing. */
  lemma EmptyIdKept(raw: RawParser, t: Tables, next: nat, definition: string, s: Step, wid: string)
    requires s.Republish? && Saved(raw, t, next, wid, definition, true, s.tables, s.next) && Exists(t, wid) && wid == ""
    ensures Kept(t, s.tables, wid) && Exists(s.tables, wid)
  {
    var wf := Parse(raw, definition).value.value;
    CreatedKept(t, wf, definition, next, s.tables, wid);
    CreatedExists(t, FlowRow(wf.id, definition, next, true), s.tables, wid);
  }

  lemma StepKept(jq: Oracle, raw: RawParser, t: Tables, w: World, s: Step, wid: string)
    requires Enabled(jq, w, s) && Kept(t, w.tables, wid) && Exists(w.tables, wid)
    requires s.Republish? ==> Edits(raw, w.tables, w.next, s) && s.gone != Some(wid)
    ensures Kept(t, Next(jq, w, s).tables, wid) && Exists(Next(jq, w, s).tables, wid)
  {
    if s.Republish? {
      OtherEditKeeps(raw, w.tables, w.next, s, wid);
      KeptOn(t, w.tables, s.tables, wid);
    } else {
      assert Next(jq, w, s).tables == w.tables;
    }
  }

  lemma RepublishedTables(jq: Oracle, w: World, s: Step)
    requires Enabled(jq, w, s) && s.Republish?
    ensures Next(jq, w, s).tables == s.tables
  {
  }

  /** Saves and deletes that are not addressed to a live workflow leave it untouched. */
  lemma {:induction false} OtherEditsUntouched(jq: Oracle, raw: RawParser, t: Tables, w: World, steps: seq<Step>, w': World, wid: string)
    requires Runs(jq, w, steps, w') && EditsOnly(jq, raw, w, steps) && Spares(steps, wid)
    requires Kept(t, w.tables, wid) && Exists(w.tables, wid)
    ensures Untouched(t, steps, wid)
    decreases |steps|
  {
    if steps != [] {
      StepKept(jq, raw, t, w, steps[0], wid);
      if steps[0].Republish? { RepublishedTables(jq, w, steps[0]); }
      hide Kept, Exists, Edits, Next, Enabled;
      OtherEditsUntouched(jq, raw, t, Next(jq, w, steps[0]), steps[1..], w', wid);
    }
  }

  // ---- the theorem ----

  /** The source ends after the visited task, or its shadowed child is lost. */
  predicate Ends(jq: Oracle, wf: Flow, base: nat, v: Visit) {
    InFlow(wf, base, v.task) &&
    (Moves(wf, DefOf(wf, base, v.task), jq, v.input, ToEnd) || Shadowed(DefOf(wf, base, v.task)))
  }

  lemma StartedIsLive(raw: RawParser, t: Tables, next: nat, relation: nat) returns (f: nat)
    requires Agrees(raw, t, next) && relation < |t.relations| && t.relations[relation].normal && t.relations[relation].from == Start
    ensures f < |t.flows| && t.flows[f].normal && t.flows[f].wid == t.relations[relation].wid
    ensures Backed(raw, t, next, t.flows[f]) && Exists(t, t.flows[f].wid)
  {
    var r := t.relations[relation];
    assert AgreesOn(raw, t, next, r.wid);
    assert r in Leaving(t.relations, r.wid, Start);
    if !Exists(t, r.wid) { NothingLeaves(t, r.wid, Start); }
    f :| f < |t.flows| && t.flows[f].normal && t.flows[f].wid == r.wid;
  }

  lemma DoneEnds(jq: Oracle, t: Tables, wf: Flow, base: nat, v: Visit)
    requires Named(wf) && Derived(t, wf, base) && InFlow(wf, base, v.task) && Follows(jq, t, wf.id, v, End)
    ensures Ends(jq, wf, base, v)
  {
    FollowsMoves(jq, t, wf, base, v, End);
    hide Derived, Follows;
    if !Shadowed(DefOf(wf, base, v.task)) { TargetIsEnd(wf, base, DefOf(wf, base, v.task), jq, v.input); }
  }

  lemma BackedFlow(raw: RawParser, t: Tables, next: nat, r: FlowRow) returns (wf: Flow)
    requires Backed(raw, t, next, r)
    ensures wf == Parse(raw, r.definition).value.value && wf.id == r.wid && Named(wf) && Derived(t, wf, r.base)
  {
    wf := Parse(raw, r.definition).value.value;
  }

  /** Save and delete workflows, start and run instances, in any interleaving. Every instance of a
      fork-free workflow that is not itself saved or deleted while it runs executes a path of the
      definition that was live when it started: from its start task, each task where the source sends
      the one before; and SUCCESS is written only when the last of them ends the source workflow, or
      should run a shadowed child. */
  lemma RunsFollowTheSource(jq: Oracle, raw: RawParser, w: World, before: seq<Step>, u: World, relation: nat, input: string,
    after: seq<Step>, w': World) returns (f: nat)
    requires Init(w) && Agrees(raw, w.tables, w.next) && Runs(jq, w, before, u) && EditsOnly(jq, raw, w, before)
    requires Enabled(jq, u, StartFlow(relation, input)) && Runs(jq, Next(jq, u, StartFlow(relation, input)), after, w')
    requires EditsOnly(jq, raw, Next(jq, u, StartFlow(relation, input)), after) && Spares(after, u.tables.relations[relation].wid)
    ensures f < |u.tables.flows| && u.tables.flows[f].normal && u.tables.flows[f].wid == u.tables.relations[relation].wid
    ensures Backed(raw, u.tables, u.next, u.tables.flows[f])
    ensures var wf, base, h := Parse(raw, u.tables.flows[f].definition).value.value, u.tables.flows[f].base, History(w', u.next);
      ForkFree(wf) ==> SourcePath(jq, wf, base, h) && (Done(w', u.next) ==> h != [] && Ends(jq, wf, base, h[|h| - 1]))
  {
    RunAgrees(jq, raw, w, before, u);
    f := StartedIsLive(raw, u.tables, u.next, relation);
    var r := u.tables.flows[f];
    var wf := BackedFlow(raw, u.tables, u.next, r);
    if ForkFree(wf) {
      InstanceFollows(jq, raw, w, before, u, relation, input, after, w', wf, r.base);
    }
  }

  lemma InstanceFollows(jq: Oracle, raw: RawParser, w: World, before: seq<Step>, u: World, relation: nat, input: string,
    after: seq<Step>, w': World, wf: Flow, base: nat)
    requires Init(w) && Runs(jq, w, before, u)
    requires Enabled(jq, u, StartFlow(relation, input)) && Runs(jq, Next(jq, u, StartFlow(relation, input)), after, w')
    requires EditsOnly(jq, raw, Next(jq, u, StartFlow(relation, input)), after) && Spares(after, wf.id)
    requires Named(wf) && Derived(u.tables, wf, base) && ForkFree(wf) && Exists(u.tables, wf.id)
    requires u.tables.relations[relation].wid == wf.id
    ensures var h := History(w', u.next);
      SourcePath(jq, wf, base, h) && (Done(w', u.next) ==> h != [] && Ends(jq, wf, base, h[|h| - 1]))
  {
    var v, h := Next(jq, u, StartFlow(relation, input)), History(w', u.next);
    ForkFreeIsForkless(u.tables, wf, base);
    KeptItself(u.tables, wf.id);
    OtherEditsUntouched(jq, raw, u.tables, v, after, w', wf.id);
    ExecutedTasksFormAPath(jq, w, before, u, relation, input, after, w');
    RunVisitsTasks(jq, w, before, u);
    RunVisitsTasks(jq, v, after, w');
    hide Init, Runs, Enabled, Next, EditsOnly, Spares, Untouched, Kept, Exists;
    PathIsSourcePath(jq, u.tables, wf, base, h);
    if Done(w', u.next) { DoneEnds(jq, u.tables, wf, base, h[|h| - 1]); }
  }
}
