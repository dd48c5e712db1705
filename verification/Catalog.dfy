/** Saving and deleting workflows: the derived tables agree with the stored definitions. */
module Catalog {
  import opened Model
  import opened Swf
  import opened Compiler
  import opened Protocol
  import opened Meaning

  /** The YAML parser; an empty text parses to None. */
  type RawParser = string -> Result<Option<Flow>>

  /** The YAML parser finds a workflow in the text, and it must be accepted. */
  predicate Acceptable(raw: RawParser, definition: string) {
    raw(definition).Ok? && raw(definition).value.Some? && Accepted(raw(definition).value.value)
  }

  /** swf.Parse: what the YAML parser gives, if it validates. */
  function Parse(raw: RawParser, definition: string): (r: Result<Option<Flow>>)
    ensures r.Ok? && r.value.Some? <==> Acceptable(raw, definition)
    ensures r.Ok? || raw(definition).Err? ==> r == raw(definition)
    ensures r.Ok? && r.value.None? <==> raw(definition) == Ok(None)
    ensures r.Ok? && r.value.Some? ==> Valid(r.value.value)
  {
    match raw(definition)
    case Ok(Some(wf)) =>
      ValidIffAccepted(wf);
      if Valid(wf) then Ok(Some(wf)) else Err("invalid workflow")
    case other => other
  }

  // ---- soft deletes ----

  function MapAll<T>(f: T -> T, s: seq<T>): (r: seq<T>)
    ensures |r| == |s| && forall k :: 0 <= k < |r| ==> r[k] == f(s[k])
  {
    seq(|s|, k requires 0 <= k < |s| => f(s[k]))
  }

  function RetireFlow(wid: string): FlowRow -> FlowRow {
    (r: FlowRow) => if r.wid == wid then r.(normal := false) else r
  }

  function RetireTask(wid: string): TaskRow -> TaskRow {
    (r: TaskRow) => if r.wid == wid then r.(normal := false) else r
  }

  function RetireRelation(wid: string): Relation -> Relation {
    (r: Relation) => if r.wid == wid then r.(normal := false) else r
  }

  /** delete: every row of the workflow becomes INVALID. */
  function Retired(t: Tables, wid: string): Tables {
    Tables(MapAll(RetireFlow(wid), t.flows), MapAll(RetireTask(wid), t.tasks), MapAll(RetireRelation(wid), t.relations))
  }

  lemma {:induction false} FilterMapAll<T(!new)>(f: T -> T, p: T -> bool, q: T -> bool, s: seq<T>)
    requires forall x :: p(f(x)) == q(x) && (q(x) ==> f(x) == x)
    ensures Filter(p, MapAll(f, s)) == Filter(q, s)
  {
    if s != [] {
      assert MapAll(f, s)[1..] == MapAll(f, s[1..]);
      FilterMapAll(f, p, q, s[1..]);
    }
  }

  // ---- saving ----

  predicate Exists(t: Tables, wid: string) {
    exists k :: 0 <= k < |t.flows| && t.flows[k].normal && t.flows[k].wid == wid
  }

  /** create on tables without a live row of the workflow: the row, its tasks and its relations,
      the latter two in the order in which their inserts happened to arrive. */
  ghost predicate Created(t: Tables, wf: Flow, definition: string, base: nat, t': Tables) {
    t'.flows == t.flows + [FlowRow(wf.id, definition, base, true)] &&
    t.tasks <= t'.tasks && Reordered(t'.tasks[|t.tasks|..], TaskRowsOf(wf.id, Defs(wf), base)) &&
    t.relations <= t'.relations && Reordered(t'.relations[|t.relations|..], CompiledRelations(wf, FlowIds(wf, base)))
  }

  /** The tables a Save works on after its first step. */
  function Cleared(t: Tables, wid: string): Tables {
    if wid != "" then Retired(t, wid) else t
  }

  /** What a Save may do: commit a creation, or roll back to the tables it found. */
  ghost predicate Saved(raw: RawParser, t: Tables, next: nat, wid: string, definition: string, ok: bool, t': Tables, next': nat) {
    next <= next' &&
    if !ok then t' == t
    else
      var p := Parse(raw, definition);
      p.Ok? && p.value.Some? && !Exists(Cleared(t, wid), p.value.value.id) &&
      Created(Cleared(t, wid), p.value.value, definition, next, t') && next' == next + |Defs(p.value.value)|
  }

  // ---- agreement ----

  predicate OneLive(t: Tables) {
    forall j, k :: 0 <= j < k < |t.flows| && t.flows[j].normal && t.flows[k].normal ==> t.flows[j].wid != t.flows[k].wid
  }

  /** Task ids are drawn once. */
  predicate Numbered(t: Tables, next: nat) {
    (forall k :: 0 <= k < |t.tasks| ==> t.tasks[k].id < next) &&
    (forall k :: 0 <= k < |t.flows| ==> t.flows[k].base <= next)
  }

  /** The live flow row r holds a definition whose compilation are the live rows of its workflow. */
  ghost predicate Backed(raw: RawParser, t: Tables, next: nat, r: FlowRow) {
    var p := Parse(raw, r.definition);
    p.Ok? && p.value.Some? && p.value.value.id == r.wid && Derived(t, p.value.value, r.base) &&
    r.base + |Defs(p.value.value)| <= next
  }

  /** The live rows of workflow wid: the compilation of its live definition, or none. */
  ghost predicate AgreesOn(raw: RawParser, t: Tables, next: nat, wid: string) {
    (forall k :: 0 <= k < |t.flows| && t.flows[k].normal && t.flows[k].wid == wid ==> Backed(raw, t, next, t.flows[k])) &&
    (!Exists(t, wid) ==> Filter(LiveTask(wid), t.tasks) == [] && Filter(LiveRelation(wid), t.relations) == [])
  }

  ghost predicate Agrees(raw: RawParser, t: Tables, next: nat) {
    OneLive(t) && Numbered(t, next) && forall wid :: AgreesOn(raw, t, next, wid)
  }

  lemma RetiredTasks(tasks: seq<TaskRow>, wid: string, other: string)
    ensures Filter(LiveTask(other), MapAll(RetireTask(wid), tasks)) == if other == wid then [] else Filter(LiveTask(other), tasks)
  {
    if other != wid { FilterMapAll(RetireTask(wid), LiveTask(other), LiveTask(other), tasks); }
    else { FilterAll(LiveTask(wid), MapAll(RetireTask(wid), tasks)); }
  }

  lemma RetiredRelations(relations: seq<Relation>, wid: string, other: string)
    ensures Filter(LiveRelation(other), MapAll(RetireRelation(wid), relations)) ==
      if other == wid then [] else Filter(LiveRelation(other), relations)
  {
    if other != wid { FilterMapAll(RetireRelation(wid), LiveRelation(other), LiveRelation(other), relations); }
    else { FilterAll(LiveRelation(wid), MapAll(RetireRelation(wid), relations)); }
  }

  lemma RetiredExists(t: Tables, wid: string, other: string)
    ensures Exists(Retired(t, wid), other) == (other != wid && Exists(t, other))
  {
    if k :| 0 <= k < |t.flows| && t.flows[k].normal && t.flows[k].wid == other {
      assert other != wid ==> Retired(t, wid).flows[k] == t.flows[k];
    }
  }

  lemma RetiredDerived(t: Tables, wid: string, wf: Flow, base: nat)
    requires Derived(t, wf, base) && wf.id != wid
    ensures Derived(Retired(t, wid), wf, base)
  {
    var d := Retired(t, wid);
    RetiredTasks(t.tasks, wid, wf.id);
    RetiredRelations(t.relations, wid, wf.id);
    forall r | r in d.tasks && r.wid == wf.id && base <= r.id < base + |Defs(wf)| ensures r.normal {
      var k :| 0 <= k < |d.tasks| && d.tasks[k] == r;
      assert t.tasks[k] in t.tasks;
    }
  }

  lemma RetiredBacked(raw: RawParser, t: Tables, next: nat, wid: string, r: FlowRow)
    requires Backed(raw, t, next, r) && r.wid != wid
    ensures Backed(raw, Retired(t, wid), next, r)
  {
    RetiredDerived(t, wid, Parse(raw, r.definition).value.value, r.base);
  }

  lemma RetiredAgreesOn(raw: RawParser, t: Tables, next: nat, wid: string, other: string)
    requires AgreesOn(raw, t, next, other)
    ensures AgreesOn(raw, Retired(t, wid), next, other)
  {
    var d := Retired(t, wid);
    forall k | 0 <= k < |d.flows| && d.flows[k].normal && d.flows[k].wid == other ensures Backed(raw, d, next, d.flows[k]) {
      assert d.flows[k] == t.flows[k];
      RetiredBacked(raw, t, next, wid, t.flows[k]);
    }
    RetiredExists(t, wid, other);
    RetiredTasks(t.tasks, wid, other);
    RetiredRelations(t.relations, wid, other);
  }

  /** Delete keeps the agreement and leaves nothing live of the workflow. */
  lemma DeleteAgrees(raw: RawParser, t: Tables, next: nat, wid: string)
    requires Agrees(raw, t, next)
    ensures Agrees(raw, Retired(t, wid), next) && !Exists(Retired(t, wid), wid)
  {
    forall other ensures AgreesOn(raw, Retired(t, wid), next, other) {
      RetiredAgreesOn(raw, t, next, wid, other);
    }
    RetiredExists(t, wid, wid);
  }

  // ---- creations ----

  lemma AddedTasks(prior: seq<TaskRow>, added: seq<TaskRow>, wid: string, other: string)
    requires forall r :: r in added ==> r.normal && r.wid == wid
    ensures Filter(LiveTask(other), prior + added) == Filter(LiveTask(other), prior) + if other == wid then added else []
  {
    FilterAppend(LiveTask(other), prior, added);
    FilterAll(LiveTask(other), added);
  }

  lemma AddedRelations(prior: seq<Relation>, added: seq<Relation>, wid: string, other: string)
    requires forall r :: r in added ==> r.normal && r.wid == wid
    ensures Filter(LiveRelation(other), prior + added) == Filter(LiveRelation(other), prior) + if other == wid then added else []
  {
    FilterAppend(LiveRelation(other), prior, added);
    FilterAll(LiveRelation(other), added);
  }

  lemma {:induction false} AllRelationsLive(wid: string, defs: seq<TaskDef>, ids: Ids)
    ensures forall r :: r in AllRelations(wid, defs, ids) ==> r.normal && r.wid == wid && r.from.Task?
  {
    if defs != [] { AllRelationsLive(wid, defs[1..], ids); }
  }

  lemma AddedAreLive(wf: Flow, base: nat, tasks: seq<TaskRow>, relations: seq<Relation>)
    requires Reordered(tasks, TaskRowsOf(wf.id, Defs(wf), base)) && Reordered(relations, CompiledRelations(wf, FlowIds(wf, base)))
    ensures forall r :: r in tasks ==> r.normal && r.wid == wf.id && base <= r.id < base + |Defs(wf)|
    ensures forall r :: r in relations ==> r.normal && r.wid == wf.id
  {
    ReorderedMembers(tasks, TaskRowsOf(wf.id, Defs(wf), base));
    ReorderedMembers(relations, CompiledRelations(wf, FlowIds(wf, base)));
    AllRelationsLive(wf.id, Flatten(wf.tasks), FlowIds(wf, base));
  }

  lemma CreatedLive(t: Tables, wf: Flow, definition: string, base: nat, t': Tables)
    requires Created(t, wf, definition, base, t')
    ensures t'.tasks == t.tasks + t'.tasks[|t.tasks|..] && t'.relations == t.relations + t'.relations[|t.relations|..]
    ensures forall r :: r in t'.tasks[|t.tasks|..] ==> r.normal && r.wid == wf.id
    ensures forall r :: r in t'.relations[|t.relations|..] ==> r.normal && r.wid == wf.id
  {
    AddedAreLive(wf, base, t'.tasks[|t.tasks|..], t'.relations[|t.relations|..]);
  }

  lemma CreatedRows(t: Tables, wf: Flow, definition: string, base: nat, t': Tables, other: string)
    requires Created(t, wf, definition, base, t')
    ensures Filter(LiveTask(other), t'.tasks) == Filter(LiveTask(other), t.tasks) + if other == wf.id then t'.tasks[|t.tasks|..] else []
    ensures Filter(LiveRelation(other), t'.relations) ==
      Filter(LiveRelation(other), t.relations) + if other == wf.id then t'.relations[|t.relations|..] else []
  {
    var tasks, relations := t'.tasks[|t.tasks|..], t'.relations[|t.relations|..];
    CreatedLive(t, wf, definition, base, t');
    hide Created, Filter;
    AddedTasks(t.tasks, tasks, wf.id, other);
    AddedRelations(t.relations, relations, wf.id, other);
  }

  lemma CreatedOther(t: Tables, wf: Flow, definition: string, base: nat, t': Tables, o: Flow, b: nat)
    requires Created(t, wf, definition, base, t') && Derived(t, o, b) && o.id != wf.id
    ensures Derived(t', o, b)
  {
    CreatedRows(t, wf, definition, base, t', o.id);
    forall r | r in t'.tasks && r.wid == o.id && b <= r.id < b + |Defs(o)| ensures r.normal {
      OldOrNew(t, wf, definition, base, t', r);
    }
  }

  lemma OldOrNew(t: Tables, wf: Flow, definition: string, base: nat, t': Tables, r: TaskRow)
    requires Created(t, wf, definition, base, t') && r in t'.tasks
    ensures r in t.tasks || (r.wid == wf.id && r.normal && base <= r.id < base + |Defs(wf)|)
  {
    var tasks := t'.tasks[|t.tasks|..];
    assert t'.tasks == t.tasks + tasks;
    AddedAreLive(wf, base, tasks, t'.relations[|t.relations|..]);
  }

  lemma CreatedOwn(t: Tables, wf: Flow, definition: string, base: nat, t': Tables)
    requires Created(t, wf, definition, base, t') && Numbered(t, base)
    requires Filter(LiveTask(wf.id), t.tasks) == [] && Filter(LiveRelation(wf.id), t.relations) == []
    ensures Derived(t', wf, base)
  {
    CreatedRows(t, wf, definition, base, t', wf.id);
    forall r | r in t'.tasks && r.wid == wf.id && base <= r.id < base + |Defs(wf)| ensures r.normal {
      OldOrNew(t, wf, definition, base, t', r);
    }
  }

  lemma CreatedNumbered(t: Tables, wf: Flow, definition: string, base: nat, t': Tables)
    requires Created(t, wf, definition, base, t') && Numbered(t, base)
    ensures Numbered(t', base + |Defs(wf)|)
  {
    forall k | 0 <= k < |t'.tasks| ensures t'.tasks[k].id < base + |Defs(wf)| {
      OldOrNew(t, wf, definition, base, t', t'.tasks[k]);
    }
  }

  lemma CreatedBacked(raw: RawParser, t: Tables, wf: Flow, definition: string, base: nat, t': Tables, r: FlowRow)
    requires Created(t, wf, definition, base, t') && r.wid != wf.id && Backed(raw, t, base, r)
    ensures Backed(raw, t', base + |Defs(wf)|, r)
  {
    CreatedOther(t, wf, definition, base, t', Parse(raw, r.definition).value.value, r.base);
  }

  lemma CreatedIsNew(t: Tables, wf: Flow, definition: string, base: nat, t': Tables, k: nat)
    requires Created(t, wf, definition, base, t') && !Exists(t, wf.id)
    requires k < |t'.flows| && t'.flows[k].normal && t'.flows[k].wid == wf.id
    ensures t'.flows[k] == FlowRow(wf.id, definition, base, true)
  {
    assert forall j :: 0 <= j < |t.flows| ==> t'.flows[j] == t.flows[j];
  }

  lemma CreatedAgreesOnOwn(raw: RawParser, t: Tables, wf: Flow, definition: string, base: nat, t': Tables)
    requires Created(t, wf, definition, base, t') && Numbered(t, base) && AgreesOn(raw, t, base, wf.id)
    requires Parse(raw, definition) == Ok(Some(wf)) && !Exists(t, wf.id)
    ensures AgreesOn(raw, t', base + |Defs(wf)|, wf.id)
  {
    CreatedOwn(t, wf, definition, base, t');
    assert t'.flows[|t.flows|].wid == wf.id;
    assert Exists(t', wf.id);
    forall k | 0 <= k < |t'.flows| && t'.flows[k].normal && t'.flows[k].wid == wf.id
      ensures Backed(raw, t', base + |Defs(wf)|, t'.flows[k])
    {
      CreatedIsNew(t, wf, definition, base, t', k);
    }
  }

  lemma CreatedExists(t: Tables, r: FlowRow, t': Tables, other: string)
    requires t'.flows == t.flows + [r] && r.wid != other
    ensures Exists(t', other) == Exists(t, other)
  {
    if k :| 0 <= k < |t.flows| && t.flows[k].normal && t.flows[k].wid == other { assert t'.flows[k] == t.flows[k]; }
  }

  lemma CreatedAgreesOnOther(raw: RawParser, t: Tables, wf: Flow, definition: string, base: nat, t': Tables, other: string)
    requires Created(t, wf, definition, base, t') && AgreesOn(raw, t, base, other) && other != wf.id
    ensures AgreesOn(raw, t', base + |Defs(wf)|, other)
  {
    hide Backed, Filter;
    CreatedRows(t, wf, definition, base, t', other);
    CreatedExists(t, FlowRow(wf.id, definition, base, true), t', other);
    forall k | 0 <= k < |t'.flows| && t'.flows[k].normal && t'.flows[k].wid == other
      ensures Backed(raw, t', base + |Defs(wf)|, t'.flows[k])
    {
      assert k < |t.flows| && t'.flows[k] == t.flows[k];
      CreatedBacked(raw, t, wf, definition, base, t', t.flows[k]);
    }
  }

  lemma CreatedAgreesOn(raw: RawParser, t: Tables, wf: Flow, definition: string, base: nat, t': Tables, other: string)
    requires Created(t, wf, definition, base, t') && Numbered(t, base) && AgreesOn(raw, t, base, other)
    requires Parse(raw, definition) == Ok(Some(wf)) && !Exists(t, wf.id)
    ensures AgreesOn(raw, t', base + |Defs(wf)|, other)
  {
    if other == wf.id { CreatedAgreesOnOwn(raw, t, wf, definition, base, t'); }
    else { CreatedAgreesOnOther(raw, t, wf, definition, base, t', other); }
  }

  /** A Save that commits and a Save that rolls back both keep the agreement. */
  lemma SaveAgrees(raw: RawParser, t: Tables, next: nat, wid: string, definition: string, ok: bool, t': Tables, next': nat)
    requires Agrees(raw, t, next) && Saved(raw, t, next, wid, definition, ok, t', next')
    ensures Agrees(raw, t', next')
  {
    if ok {
      var wf := Parse(raw, definition).value.value;
      var d := Cleared(t, wid);
      if wid != "" { DeleteAgrees(raw, t, next, wid); }
      CreatedNumbered(d, wf, definition, next, t');
      forall other ensures AgreesOn(raw, t', next', other) {
        CreatedAgreesOn(raw, d, wf, definition, next, t', other);
      }
    } else {
      LaterAgrees(raw, t, next, next');
    }
  }

  lemma LaterAgrees(raw: RawParser, t: Tables, next: nat, next': nat)
    requires Agrees(raw, t, next) && next <= next'
    ensures Agrees(raw, t, next')
  {
    forall wid ensures AgreesOn(raw, t, next', wid) { assert AgreesOn(raw, t, next, wid); }
  }

  // ---- any sequence of edits ----

  /** One Save or Delete. A Save carries what it left behind. */
  datatype Edit =
    | Save(wid: string, definition: string, ok: bool, tables: Tables, next: nat)
    | Delete(wid: string)

  ghost predicate Edited(raw: RawParser, t: Tables, next: nat, edits: seq<Edit>, t': Tables, next': nat)
    decreases |edits|
  {
    if edits == [] then t' == t && next' == next
    else match edits[0]
      case Save(wid, definition, ok, u, n) =>
        Saved(raw, t, next, wid, definition, ok, u, n) && Edited(raw, u, n, edits[1..], t', next')
      case Delete(wid) => Edited(raw, Retired(t, wid), next, edits[1..], t', next')
  }

  lemma {:induction false} EditsAgree(raw: RawParser, t: Tables, next: nat, edits: seq<Edit>, t': Tables, next': nat)
    requires Agrees(raw, t, next) && Edited(raw, t, next, edits, t', next')
    ensures Agrees(raw, t', next')
    decreases |edits|
  {
    if edits != [] {
      match edits[0]
      case Save(wid, definition, ok, u, n) =>
        SaveAgrees(raw, t, next, wid, definition, ok, u, n);
        EditsAgree(raw, u, n, edits[1..], t', next');
      case Delete(wid) =>
        DeleteAgrees(raw, t, next, wid);
        EditsAgree(raw, Retired(t, wid), next, edits[1..], t', next');
    }
  }

  const EMPTY: Tables := Tables([], [], [])

  /** After any sequence of Saves, committed or rolled back, and Deletes, each workflow id has at
      most one live row, and its live tasks and relations are exactly the compilation of that row's
      definition, in some order, or none. */
  lemma TablesAgree(raw: RawParser, next: nat, edits: seq<Edit>, t: Tables, next': nat, wid: string)
    requires Edited(raw, EMPTY, next, edits, t, next')
    ensures forall j, k :: 0 <= j < k < |t.flows| && t.flows[j].normal && t.flows[k].normal ==> t.flows[j].wid != t.flows[k].wid
    ensures forall k :: 0 <= k < |t.flows| && t.flows[k].normal && t.flows[k].wid == wid ==> Backed(raw, t, next', t.flows[k])
    ensures !Exists(t, wid) ==> Filter(LiveTask(wid), t.tasks) == [] && Filter(LiveRelation(wid), t.relations) == []
  {
    assert Agrees(raw, EMPTY, next);
    EditsAgree(raw, EMPTY, next, edits, t, next');
    assert AgreesOn(raw, t, next', wid);
  }

  // ---- a delete that is taken in part ----

  /** The tables after a delete of which the database took some of the updates. */
  function PartlyRetired(t: Tables, wid: string, flows: bool, tasks: bool, relations: bool): Tables {
    var d := Retired(t, wid);
    Tables(if flows then d.flows else t.flows, if tasks then d.tasks else t.tasks, if relations then d.relations else t.relations)
  }

  lemma SomethingLives(t: Tables, wf: Flow, base: nat)
    requires Valid(wf) && Derived(t, wf, base)
    ensures Filter(LiveTask(wf.id), t.tasks) != [] && Filter(LiveRelation(wf.id), t.relations) != []
  {
    var ids, defs := FlowIds(wf, base), Defs(wf);
    FlowIdsAre(wf, base);
    assert AllRelations(wf.id, Flatten(wf.tasks), ids) ==
      RelationsOf(wf.id, defs[0], ids) + AllRelations(wf.id, Flatten(wf.tasks)[1..], ids);
    ReorderedMembers(Filter(LiveTask(wf.id), t.tasks), TaskRowsOf(wf.id, defs, base));
    ReorderedMembers(Filter(LiveRelation(wf.id), t.relations), CompiledRelations(wf, ids));
  }

  lemma NothingLivesDisagrees(raw: RawParser, t: Tables, next: nat, k: nat)
    requires k < |t.flows| && t.flows[k].normal
    requires Filter(LiveTask(t.flows[k].wid), t.tasks) == [] || Filter(LiveRelation(t.flows[k].wid), t.relations) == []
    ensures !AgreesOn(raw, t, next, t.flows[k].wid)
  {
    if Backed(raw, t, next, t.flows[k]) { SomethingLives(t, Parse(raw, t.flows[k].definition).value.value, t.flows[k].base); }
  }

  lemma SomeUpdates(raw: RawParser, t: Tables, next: nat, wid: string, k: nat, flows: bool, tasks: bool, relations: bool)
    requires k < |t.flows| && t.flows[k].normal && t.flows[k].wid == wid && AgreesOn(raw, t, next, wid)
    requires !(flows == tasks == relations)
    ensures !AgreesOn(raw, PartlyRetired(t, wid, flows, tasks, relations), next, wid)
  {
    var d := PartlyRetired(t, wid, flows, tasks, relations);
    RetiredTasks(t.tasks, wid, wid);
    RetiredRelations(t.relations, wid, wid);
    if flows {
      RetiredExists(t, wid, wid);
      assert Exists(d, wid) == Exists(Retired(t, wid), wid);
      SomethingLives(t, Parse(raw, t.flows[k].definition).value.value, t.flows[k].base);
    } else {
      NothingLivesDisagrees(raw, d, next, k);
    }
  }

  /** A delete is no transaction. For a live workflow the tables agree afterwards exactly when the
      database took the updates of the workflow, its tasks and its relations together, or none. */
  lemma DeleteAgreesIffWhole(raw: RawParser, t: Tables, next: nat, wid: string, flows: bool, tasks: bool, relations: bool)
    requires Agrees(raw, t, next) && Exists(t, wid)
    ensures AgreesOn(raw, PartlyRetired(t, wid, flows, tasks, relations), next, wid) <==> flows == tasks == relations
  {
    assert AgreesOn(raw, t, next, wid);
    if flows == tasks == relations {
      RetiredAgreesOn(raw, t, next, wid, wid);
      assert PartlyRetired(t, wid, false, false, false) == t && PartlyRetired(t, wid, true, true, true) == Retired(t, wid);
    } else {
      var k :| 0 <= k < |t.flows| && t.flows[k].normal && t.flows[k].wid == wid;
      SomeUpdates(raw, t, next, wid, k, flows, tasks, relations);
    }
  }

  // ---- the START edge ----

  lemma {:induction false} NoneFromStart(wid: string, defs: seq<TaskDef>, ids: Ids)
    ensures Filter(LeavesFrom(Start), AllRelations(wid, defs, ids)) == []
  {
    AllRelationsLive(wid, defs, ids);
    FilterAll(LeavesFrom(Start), AllRelations(wid, defs, ids));
  }

  /** The live START edge of a stored workflow leads to its start task; there is none if the
      definition names no such task. */
  lemma StartEdge(t: Tables, wf: Flow, base: nat)
    requires Derived(t, wf, base)
    ensures Leaving(t.relations, wf.id, Start) == StartRelation(wf, FlowIds(wf, base))
  {
    var ids := FlowIds(wf, base);
    var own := StartRelation(wf, ids);
    FilterAppend(LeavesFrom(Start), own, AllRelations(wf.id, Flatten(wf.tasks), ids));
    NoneFromStart(wf.id, Flatten(wf.tasks), ids);
    FilterAll(LeavesFrom(Start), own);
    LeavingCounts(t.relations, wf.id, Start, CompiledRelations(wf, ids), own);
    ReorderedMembers(Leaving(t.relations, wf.id, Start), own);
    if own != [] { OneRelation(Leaving(t.relations, wf.id, Start), own[0]); }
  }

  lemma NothingLeaves(t: Tables, wid: string, n: Node)
    requires Filter(LiveRelation(wid), t.relations) == []
    ensures Leaving(t.relations, wid, n) == []
  {
    forall r | r in t.relations ensures !Exits(wid, n)(r) {
      assert r !in Filter(LiveRelation(wid), t.relations);
    }
    FilterAll(Exits(wid, n), t.relations);
  }

  lemma OneStartEdge(raw: RawParser, t: Tables, next: nat, wid: string)
    requires Agrees(raw, t, next)
    ensures |Leaving(t.relations, wid, Start)| <= 1
  {
    assert AgreesOn(raw, t, next, wid);
    if k :| 0 <= k < |t.flows| && t.flows[k].normal && t.flows[k].wid == wid {
      StartEdge(t, Parse(raw, t.flows[k].definition).value.value, t.flows[k].base);
    } else {
      NothingLeaves(t, wid, Start);
    }
  }

  // ---- an edit is a step of the protocol ----

  predicate Lands(r: Relation, tasks: seq<TaskRow>) {
    (r.to == End && r.from != Start) ||
    (r.to.Task? && exists k :: 0 <= k < |tasks| && tasks[k].wid == r.wid && tasks[k].id == r.to.id)
  }

  lemma {:induction false} IdsAreDrawn(rows: seq<TaskRow>, name: string)
    requires name in IdsOf(rows)
    ensures exists k :: 0 <= k < |rows| && rows[k].id == IdsOf(rows)[name]
  {
    var last := |rows| - 1;
    if rows[last].name != name {
      IdsAreDrawn(rows[..last], name);
      var k :| 0 <= k < last && rows[..last][k].id == IdsOf(rows[..last])[name];
      assert rows[k].id == IdsOf(rows)[name];
    } else {
      assert rows[last].id == IdsOf(rows)[name];
    }
  }

  predicate Reaches(n: Node, ids: Ids) {
    n == End || exists name :: name in ids && n == Task(ids[name])
  }

  lemma LookupReaches(name: string, ids: Ids)
    ensures Reaches(Lookup(ids, name), ids) && Reaches(Resolve(name, ids), ids)
  {
  }

  lemma RelationsReach(wid: string, d: TaskDef, ids: Ids)
    ensures forall r :: r in RelationsOf(wid, d, ids) ==> Reaches(r.to, ids)
  {
    forall c: TaskDef ensures Reaches(Lookup(ids, c.name), ids) && Reaches(Resolve(c.name, ids), ids) { LookupReaches(c.name, ids); }
    forall c: Case ensures Reaches(Resolve(c.next, ids), ids) { LookupReaches(c.next, ids); }
    LookupReaches(d.next, ids);
  }

  lemma {:induction false} AllReach(wid: string, defs: seq<TaskDef>, ids: Ids)
    ensures forall r :: r in AllRelations(wid, defs, ids) ==> Reaches(r.to, ids)
  {
    if defs != [] { RelationsReach(wid, defs[0], ids); AllReach(wid, defs[1..], ids); }
  }

  lemma CompiledLands(wf: Flow, base: nat, r: Relation)
    requires r in CompiledRelations(wf, FlowIds(wf, base))
    ensures Lands(r, TaskRowsOf(wf.id, Defs(wf), base))
  {
    var ids, rows := FlowIds(wf, base), TaskRowsOf(wf.id, Defs(wf), base);
    AllReach(wf.id, Flatten(wf.tasks), ids);
    AllRelationsLive(wf.id, Flatten(wf.tasks), ids);
    if r.to != End || r.from == Start {
      var name :| name in ids && r.to == Task(ids[name]);
      IdsAreDrawn(rows, name);
    }
  }

  lemma LandsStored(r: Relation, own: seq<TaskRow>, t: Tables)
    requires Lands(r, own) && forall x :: x in own ==> x in t.tasks
    ensures (r.to == End && r.from != Start) || Stored(t, r.wid, r.to)
  {
    if r.to.Task? {
      var k :| 0 <= k < |own| && own[k].wid == r.wid && own[k].id == r.to.id;
      assert own[k] in t.tasks;
    }
  }

  lemma CreatedSound(t: Tables, wf: Flow, definition: string, base: nat, t': Tables)
    requires Created(t, wf, definition, base, t') && Sound(t)
    ensures Sound(t') && Grows(t, t')
  {
    var rows := TaskRowsOf(wf.id, Defs(wf), base);
    ReorderedMembers(t'.tasks[|t.tasks|..], rows);
    ReorderedMembers(t'.relations[|t.relations|..], CompiledRelations(wf, FlowIds(wf, base)));
    assert t'.relations == t.relations + t'.relations[|t.relations|..];
    forall r | r in t'.relations ensures (r.to == End && r.from != Start) || Stored(t', r.wid, r.to) {
      if r in t.relations {
        if Stored(t, r.wid, r.to) { StoredStays(t, t', r); }
      } else {
        CompiledLands(wf, base, r);
        LandsStored(r, rows, t');
      }
    }
  }

  lemma StoredStays(t: Tables, t': Tables, r: Relation)
    requires t.tasks <= t'.tasks && Stored(t, r.wid, r.to)
    ensures Stored(t', r.wid, r.to)
  {
    var k :| 0 <= k < |t.tasks| && t.tasks[k].wid == r.wid && t.tasks[k].id == r.to.id;
    assert t'.tasks[k] == t.tasks[k];
  }

  lemma RetiredSound(t: Tables, wid: string)
    requires Sound(t)
    ensures Sound(Retired(t, wid)) && Grows(t, Retired(t, wid))
  {
    var d := Retired(t, wid);
    forall r | r in d.relations ensures (r.to == End && r.from != Start) || Stored(d, r.wid, r.to) {
      var j :| 0 <= j < |d.relations| && d.relations[j] == r;
      assert t.relations[j] in t.relations;
      if Stored(t, r.wid, r.to) {
        var k :| 0 <= k < |t.tasks| && t.tasks[k].wid == r.wid && t.tasks[k].id == r.to.id;
        assert d.tasks[k].wid == r.wid && d.tasks[k].id == r.to.id;
      }
    }
  }

  lemma GrowsOn(t: Tables, u: Tables, v: Tables)
    requires Grows(t, u) && Grows(u, v)
    ensures Grows(t, v)
  {
    forall k | 0 <= k < |t.tasks| ensures v.tasks[k] == t.tasks[k].(normal := v.tasks[k].normal) {
      assert u.tasks[k] == t.tasks[k].(normal := u.tasks[k].normal);
    }
  }

  /** What a Save or a Delete leaves behind is a state a Republish step may install, so every
      property of the protocol's runs holds across them. */
  lemma SaveIsAStep(jq: Oracle, w: World, raw: RawParser, wid: string, definition: string, ok: bool, t: Tables, next: nat)
    requires Sound(w.tables) && Saved(raw, w.tables, w.next, wid, definition, ok, t, next)
    ensures Enabled(jq, w, Republish(t, next, if ok && wid != "" then Some(wid) else None)) && Sound(t)
  {
    if ok {
      var d := Cleared(w.tables, wid);
      RetiredSound(w.tables, wid);
      CreatedSound(d, Parse(raw, definition).value.value, definition, w.next, t);
      GrowsOn(w.tables, d, t);
    }
  }

  lemma DeleteIsAStep(jq: Oracle, w: World, wid: string)
    requires Sound(w.tables)
    ensures Enabled(jq, w, Republish(Retired(w.tables, wid), w.next, Some(wid)))
  {
    RetiredSound(w.tables, wid);
  }
}
