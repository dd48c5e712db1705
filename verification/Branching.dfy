/** Where an instance can go from a switch and from a fork, for every order of the stored rows. */
module Branching {
  import opened Model
  import opened Executors
  import opened Protocol
  import opened Invariants
  import opened Swf
  import opened Compiler
  import opened Meaning
  import opened Weights
  import opened Termination
  import opened Tokens

  // ---- switch ----

  /** The verdict on a relation's condition; a default is no condition. */
  predicate Yields(r: Relation, jq: Oracle, input: string, v: Verdict) {
    r.condition != "" && jq(r.condition, input) == v
  }

  predicate AllFail(order: seq<Relation>, jq: Oracle, input: string) {
    forall r :: r in order && r.condition != "" ==> Yields(r, jq, input, Fails)
  }

  /** In list order the first condition that does not fail decides ... */
  lemma {:induction false} FirstDecides(order: seq<Relation>, k: nat, jq: Oracle, input: string, fallback: Option<Node>)
    requires k < |order| && order[k].condition != "" && !Yields(order[k], jq, input, Fails) && AllFail(order[..k], jq, input)
    ensures ScanSwitch(order, jq, input, fallback) == if Yields(order[k], jq, input, Holds) then Chosen(order[k].to) else Broken
  {
    if k > 0 {
      assert order[1..][..k - 1] == order[..k][1..];
      assert order[0] in order[..k];
      FirstDecides(order[1..], k - 1, jq, input, if order[0].condition == "" then Some(order[0].to) else fallback);
    }
  }

  /** ... without one, the last default is taken ... */
  lemma {:induction false} LastDefaultDecides(order: seq<Relation>, k: nat, jq: Oracle, input: string, fallback: Option<Node>)
    requires k < |order| && order[k].condition == "" && AllFail(order, jq, input)
    requires forall r :: r in order[k + 1..] ==> r.condition != ""
    ensures ScanSwitch(order, jq, input, fallback) == Chosen(order[k].to)
  {
    assert order[0] in order;
    if k == 0 { NoDefault(order[1..], jq, input, Some(order[0].to)); }
    else {
      assert order[1..][k..] == order[k + 1..];
      LastDefaultDecides(order[1..], k - 1, jq, input, if order[0].condition == "" then Some(order[0].to) else fallback);
    }
  }

  /** ... and without a default the switch is unmatched. */
  lemma {:induction false} NoDefault(order: seq<Relation>, jq: Oracle, input: string, fallback: Option<Node>)
    requires AllFail(order, jq, input) && forall r :: r in order ==> r.condition != ""
    ensures ScanSwitch(order, jq, input, fallback) == if fallback.Some? then Chosen(fallback.value) else Unmatched
  {
    if order != [] {
      assert order[0] in order;
      NoDefault(order[1..], jq, input, fallback);
    }
  }

  /** All relations of the list with this verdict, or all its defaults, lead to the same node. */
  predicate Agree(rel: seq<Relation>, jq: Oracle, input: string) {
    forall r, s :: r in rel && s in rel && Yields(r, jq, input, Holds) && Yields(s, jq, input, Holds) ==> r.to == s.to
  }

  predicate DefaultsAgree(rel: seq<Relation>) {
    forall r, s :: r in rel && s in rel && r.condition == "" && s.condition == "" ==> r.to == s.to
  }

  predicate Any(rel: seq<Relation>, jq: Oracle, input: string, v: Verdict) {
    exists r :: r in rel && Yields(r, jq, input, v)
  }

  /** What the order of the rows can not change: the conditions that hold agree and none errs
      beside them; or none holds and one errs; or all fail and the defaults agree. */
  predicate Steady(rel: seq<Relation>, jq: Oracle, input: string) {
    if Any(rel, jq, input, Holds) then Agree(rel, jq, input) && !Any(rel, jq, input, Errs)
    else Any(rel, jq, input, Errs) || DefaultsAgree(rel)
  }

  ghost predicate OrderFree(rel: seq<Relation>, jq: Oracle, input: string) {
    forall a, b :: Reordered(a, rel) && Reordered(b, rel) ==> ScanSwitch(a, jq, input, None) == ScanSwitch(b, jq, input, None)
  }

  lemma SteadyScans(rel: seq<Relation>, a: seq<Relation>, b: seq<Relation>, jq: Oracle, input: string)
    requires Steady(rel, jq, input) && Reordered(a, rel) && Reordered(b, rel)
    ensures ScanSwitch(a, jq, input, None) == ScanSwitch(b, jq, input, None)
  {
    ReorderedMembers(a, rel);
    ReorderedMembers(b, rel);
    ScanSound(a, jq, input, None);
    ScanSound(b, jq, input, None);
  }

  /** A relation read first decides, unless it is a default or fails. */
  lemma ReadFirst(rel: seq<Relation>, r: Relation, jq: Oracle, input: string) returns (order: seq<Relation>)
    requires r in rel && r.condition != "" && jq(r.condition, input) != Fails
    ensures Reordered(order, rel)
    ensures ScanSwitch(order, jq, input, None) == if jq(r.condition, input) == Holds then Chosen(r.to) else Broken
  {
    var front, back := Rotate(rel, r);
    order := [r] + front;
  }

  /** When all conditions fail, a default read last decides. */
  lemma ReadLast(rel: seq<Relation>, r: Relation, jq: Oracle, input: string) returns (order: seq<Relation>)
    requires r in rel && r.condition == "" && !Any(rel, jq, input, Holds) && !Any(rel, jq, input, Errs)
    ensures Reordered(order, rel) && ScanSwitch(order, jq, input, None) == Chosen(r.to)
  {
    var front, back := Rotate(rel, r);
    order := back;
    ReorderedMembers(order, rel);
    assert forall x :: x in front ==> x in order;
    ScanLastDefault(front, r, jq, input, None);
  }

  lemma OrderFreeIsSteady(rel: seq<Relation>, jq: Oracle, input: string)
    requires OrderFree(rel, jq, input)
    ensures Steady(rel, jq, input)
  {
    if r, s :| r in rel && s in rel && Yields(r, jq, input, Holds) && Yields(s, jq, input, Holds) && r.to != s.to {
      var a := ReadFirst(rel, r, jq, input);
      var b := ReadFirst(rel, s, jq, input);
      assert false;
    }
    if r, s :| r in rel && s in rel && Yields(r, jq, input, Holds) && Yields(s, jq, input, Errs) {
      var a := ReadFirst(rel, r, jq, input);
      var b := ReadFirst(rel, s, jq, input);
      assert false;
    }
    if !Any(rel, jq, input, Holds) && !Any(rel, jq, input, Errs) {
      if r, s :| r in rel && s in rel && r.condition == "" && s.condition == "" && r.to != s.to {
        var a := ReadLast(rel, r, jq, input);
      var b := ReadLast(rel, s, jq, input);
        assert false;
      }
    }
  }

  /** A switch decides independently of the order of its rows exactly when it is steady. */
  lemma SwitchIsOrderFree(rel: seq<Relation>, jq: Oracle, input: string)
    ensures OrderFree(rel, jq, input) <==> Steady(rel, jq, input)
  {
    if OrderFree(rel, jq, input) { OrderFreeIsSteady(rel, jq, input); }
    if Steady(rel, jq, input) {
      forall a, b | Reordered(a, rel) && Reordered(b, rel) ensures ScanSwitch(a, jq, input, None) == ScanSwitch(b, jq, input, None) {
        SteadyScans(rel, a, b, jq, input);
      }
    }
  }

  /** In particular when no condition errs, at most one holds and there is at most one default. */
  lemma OneMatchIsSteady(rel: seq<Relation>, jq: Oracle, input: string)
    requires !Any(rel, jq, input, Errs)
    requires forall j, k :: 0 <= j < k < |rel| ==> !(Yields(rel[j], jq, input, Holds) && Yields(rel[k], jq, input, Holds))
    requires forall j, k :: 0 <= j < k < |rel| ==> !(rel[j].condition == "" && rel[k].condition == "")
    ensures OrderFree(rel, jq, input)
  {
    assert forall r :: r in rel <==> exists k :: 0 <= k < |rel| && rel[k] == r;
    SwitchIsOrderFree(rel, jq, input);
  }

  // ---- fork ----

  /** The ids of the first tasks of a fork's branches. */
  function Heads(d: TaskDef, ids: Ids): (r: seq<Node>)
    ensures |r| == |d.children| && forall k :: 0 <= k < |r| ==> r[k] == Lookup(ids, d.children[k].name)
  {
    seq(|d.children|, k requires 0 <= k < |d.children| => Lookup(ids, d.children[k].name))
  }

  function Only(n: Node): Weighing {
    (m: Node) => if m == n then 1 else 0
  }

  lemma {:induction false} TargetsCount(order: seq<Relation>, n: Node)
    requires n != End
    ensures multiset(Targets(order))[n] == Load(order, Only(n))
  {
    if order != [] { TargetsCount(order[1..], n); }
  }

  lemma {:induction false} AllTargets(order: seq<Relation>)
    requires forall r :: r in order ==> r.to != End
    ensures |Targets(order)| == |order| && forall k :: 0 <= k < |order| ==> Targets(order)[k] == order[k].to
  {
    if order != [] { AllTargets(order[1..]); }
  }

  /** Over any order of a fork's rows the executor publishes one successor per child. */
  lemma ForkTargetsAre(wid: string, from: Node, d: TaskDef, ids: Ids, order: seq<Relation>)
    requires d.children != [] && Reordered(order, Branches(wid, from, d.children, ids))
    requires forall c :: c in d.children ==> c.name in ids
    ensures LocalGoal(order) == Advance(Targets(order)) && multiset(Targets(order)) == multiset(Heads(d, ids))
  {
    var rel := Branches(wid, from, d.children, ids);
    ReorderedMembers(order, rel);
    AllTargets(rel);
    assert Targets(rel) == Heads(d, ids);
    assert order[0] in order;
    forall n: Node ensures multiset(Targets(order))[n] == multiset(Targets(rel))[n] {
      if n != End {
        TargetsCount(order, n);
        TargetsCount(rel, n);
        LoadReordered(order, rel, Only(n));
      } else {
        assert End !in Targets(order) && End !in Targets(rel);
      }
    }
    assert forall n: Node :: multiset(Targets(order))[n] == multiset(Heads(d, ids))[n];
  }

  const ONE: Weighing := (n: Node) => 1

  /** How many live tokens the instance has. */
  function Tally(w: World, i: nat): nat {
    StoreCost(w.store, Just(i, ONE)) + if w.sched.Working? && w.sched.job.row.inst == i then 1 else 0
  }

  lemma {:induction false} OnesSum(ns: seq<Node>)
    ensures Sum(SpawnCosts(ns, ONE)) == |ns|
  {
    if ns != [] {
      OnesSum(ns[1..]);
      assert SpawnCosts(ns, ONE)[1..] == SpawnCosts(ns[1..], ONE);
    }
  }

  /** An attempt that advances to ns replaces the token under work by one new token for each of them. */
  lemma AdvanceTally(jq: Oracle, w: World, output: string, ns: seq<Node>)
    requires w.sched.Working? && PlanOf(jq, w.sched.job) == Plan(Nop, Advance(ns)) && w.store.head <= |w.store.sent|
    ensures Enabled(jq, w, AttemptSucceeds(output))
    ensures var r, w' := w.sched.job.row, Next(jq, w, AttemptSucceeds(output));
      w'.store == Post(w.store, Spawn(r, ns, output, w.next)) && w'.next == w.next + |ns| && w'.insts == w.insts &&
      Tally(w', r.inst) == Tally(w, r.inst) + |ns| - 1
  {
    var r := w.sched.job.row;
    hide StoreCost, SpawnCosts, Sum;
    SpawnCost(w.store, r, ns, output, w.next, Just(r.inst, ONE));
    OnesSum(ns);
  }

  /** A compiled fork without children completes the workflow. */
  lemma EmptyForkCompletes(jq: Oracle, w: World, d: TaskDef, ids: Ids, output: string)
    requires w.sched.Working? && w.sched.job.kind == Fork && d.kind == "fork" && d.name in ids && d.children == []
    requires Reordered(w.sched.job.order, RelationsOf(w.sched.job.row.wid, d, ids))
    ensures Enabled(jq, w, AttemptSucceeds(output)) && !Enabled(jq, w, AttemptFails(true))
    ensures var w' := Next(jq, w, AttemptSucceeds(output));
      w'.store == w.store && w'.insts == w.insts[w.sched.job.row.inst := Instance(w.sched.job.row.wid, Succeeded)]
  {
    OneRelation(w.sched.job.order, Edge(w.sched.job.row.wid, Task(ids[d.name]), End, ""));
  }

  /** New WAIT instances of r's workflow instance: fresh ids, pairwise distinct, one input. */
  predicate Batch(ms: seq<Message>, r: Row, next: nat, input: string) {
    (forall k :: 0 <= k < |ms| ==> ms[k].id == 0 && ms[k].row.tiid >= next) &&
    (forall k :: 0 <= k < |ms| ==> ms[k].row == Row(r.inst, r.wid, ms[k].row.task, ms[k].row.tiid, Wait, input)) &&
    forall j, k :: 0 <= j < k < |ms| ==> ms[j].row.tiid != ms[k].row.tiid
  }

  lemma SpawnIsBatch(r: Row, ns: seq<Node>, output: string, next: nat)
    ensures Batch(Spawn(r, ns, output, next), r, next, output)
  {
  }

  /** A compiled fork with children queues exactly one WAIT instance per child, over every order of
      its rows: distinct fresh ids, one input, and |children| - 1 tokens more than before. */
  lemma ForkFansOut(jq: Oracle, w: World, d: TaskDef, ids: Ids, output: string)
    requires w.sched.Working? && w.sched.job.kind == Fork && w.store.head <= |w.store.sent|
    requires d.kind == "fork" && d.children != [] && d.name in ids && forall c :: c in d.children ==> c.name in ids
    requires Reordered(w.sched.job.order, RelationsOf(w.sched.job.row.wid, d, ids))
    ensures Enabled(jq, w, AttemptSucceeds(output))
    ensures var r, w', ns := w.sched.job.row, Next(jq, w, AttemptSucceeds(output)), Targets(w.sched.job.order);
      multiset(ns) == multiset(Heads(d, ids)) && |ns| == |d.children| &&
      w'.store == Post(w.store, Spawn(r, ns, output, w.next)) && w'.insts == w.insts &&
      Tally(w', r.inst) == Tally(w, r.inst) + |d.children| - 1
    ensures Batch(Spawn(w.sched.job.row, Targets(w.sched.job.order), output, w.next), w.sched.job.row, w.next, output)
  {
    hide StoreCost, Tally, Batch, Enabled, Next;
    ForkTargetsAre(w.sched.job.row.wid, Task(ids[d.name]), d, ids, w.sched.job.order);
    var ns := Targets(w.sched.job.order);
    assert |multiset(ns)| == |ns| && |multiset(Heads(d, ids))| == |Heads(d, ids)|;
    AdvanceTally(jq, w, output, ns);
    SpawnIsBatch(w.sched.job.row, ns, output, w.next);
  }

  // ---- no join ----

  lemma {:induction false} SumIsZero(s: seq<nat>)
    ensures Sum(s) == 0 <==> forall k :: 0 <= k < |s| ==> s[k] == 0
  {
    if s != [] {
      SumIsZero(s[1..]);
      assert forall k :: 0 < k < |s| ==> s[k] == s[1..][k - 1];
    }
  }

  lemma QuietQueue(b: Store, i: nat)
    ensures Sum(QueueCosts(b.sent, b.head, Just(i, ONE))) == 0 <==> forall k: nat :: !At(b, Idle, i, InQueue(k))
  {
    var c := QueueCosts(b.sent, b.head, Just(i, ONE));
    SumIsZero(c);
    forall k: nat | k < |b.sent| ensures c[k] == 0 <==> !At(b, Idle, i, InQueue(k)) {}
  }

  lemma QuietRows(b: Store, i: nat)
    ensures Sum(RowCosts(b.rows, Just(i, ONE))) == 0 <==> forall k: nat :: !At(b, Idle, i, InRow(k))
  {
    var c := RowCosts(b.rows, Just(i, ONE));
    SumIsZero(c);
    forall k: nat | k < |b.rows| ensures c[k] == 0 <==> !At(b, Idle, i, InRow(k)) {}
  }

  lemma QuietEvents(b: Store, i: nat)
    ensures Sum(EventCosts(b.events, b.called, Just(i, ONE))) == 0 <==> forall k: nat :: !At(b, Idle, i, InEvent(k))
  {
    var c := EventCosts(b.events, b.called, Just(i, ONE));
    SumIsZero(c);
    forall k: nat | k < |b.events| ensures c[k] == 0 <==> !At(b, Idle, i, InEvent(k)) {}
  }

  /** The tally counts the places of token conservation: it is zero exactly when there is none. */
  lemma TallyIsZeroIffQuiet(w: World, i: nat)
    ensures Tally(w, i) == 0 <==> Quiet(w.store, w.sched, i)
  {
    QuietQueue(w.store, i);
    QuietRows(w.store, i);
    QuietEvents(w.store, i);
    assert Tally(w, i) == 0 ==> forall p :: !At(w.store, w.sched, i, p) by {
      forall p | Tally(w, i) == 0 ensures !At(w.store, w.sched, i, p) {
        match p
        case InQueue(k) => assert !At(w.store, Idle, i, InQueue(k));
        case InRow(k) => assert !At(w.store, Idle, i, InRow(k));
        case InEvent(k) => assert !At(w.store, Idle, i, InEvent(k));
        case InScheduler =>
      }
    }
    if Quiet(w.store, w.sched, i) {
      forall k: nat ensures !At(w.store, Idle, i, InQueue(k)) && !At(w.store, Idle, i, InRow(k)) && !At(w.store, Idle, i, InEvent(k)) {
        assert !At(w.store, w.sched, i, InQueue(k)) && !At(w.store, w.sched, i, InRow(k)) && !At(w.store, w.sched, i, InEvent(k));
      }
      assert !At(w.store, w.sched, i, InScheduler);
    }
  }

  lemma CompletionTally(jq: Oracle, w: World, output: string)
    requires Enabled(jq, w, AttemptSucceeds(output)) && PlanOf(jq, w.sched.job).goal.Complete?
    requires w.store.head <= |w.store.sent| && |w.store.events| !in w.store.called
    ensures var i, w' := w.sched.job.row.inst, Next(jq, w, AttemptSucceeds(output));
      Done(w', i) && Tally(w', i) == Tally(w, i) - 1
  {
    hide StoreCost;
    var p, r := PlanOf(jq, w.sched.job), w.sched.job.row;
    AnnounceCost(w.store, r, p.work, w.next, Just(r.inst, ONE));
  }

  /** A fork has no join: a branch that reaches END marks the instance SUCCESS, and then nothing of it
      is left exactly when the branch was its only token. */
  lemma SuccessIsTheEndIffAlone(jq: Oracle, w: World, output: string)
    requires Enabled(jq, w, AttemptSucceeds(output)) && PlanOf(jq, w.sched.job).goal.Complete?
    requires w.store.head <= |w.store.sent| && |w.store.events| !in w.store.called
    ensures var i, w' := w.sched.job.row.inst, Next(jq, w, AttemptSucceeds(output));
      Done(w', i) && (Quiet(w'.store, w'.sched, i) <==> Tally(w, i) == 1)
  {
    CompletionTally(jq, w, output);
    TallyIsZeroIffQuiet(Next(jq, w, AttemptSucceeds(output)), w.sched.job.row.inst);
  }
}
