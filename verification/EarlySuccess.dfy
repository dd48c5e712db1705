/** The converse: from a fork that leaks, a run that marks its instance SUCCESS too early. */
module EarlySuccess {
  import opened Model
  import opened Executors
  import opened Protocol
  import opened Invariants
  import opened Records
  import opened Tokens
  import opened Safety
  import opened Rows
  import opened Origins
  import opened Paths
  import opened Progress
  import opened Joins

  /** The scheduler is idle and every message is written. */
  ghost predicate Clear(jq: Oracle, w: World) {
    Lawful(jq, w) && w.sched.Idle? && w.store.head == |w.store.sent|
  }

  /** Row k waits to execute task n of instance i. */
  predicate WaitsAt(w: World, i: nat, wid: string, k: nat, n: Node) {
    k < |w.store.rows| && w.store.rows[k].inst == i && w.store.rows[k].wid == wid && w.store.rows[k].task == n &&
    w.store.rows[k].status == Wait
  }

  /** The rows of w but row k are unchanged in w'. */
  predicate OthersStay(w: World, w': World, k: nat) {
    |w.store.rows| <= |w'.store.rows| && w'.tables == w.tables &&
    forall j :: 0 <= j < |w.store.rows| && j != k ==> w'.store.rows[j] == w.store.rows[j]
  }

  lemma Nothing(jq: Oracle, w: World, k: nat)
    ensures Runs(jq, w, [], w) && Calm([]) && OthersStay(w, w, k)
  {
  }

  lemma StayOn(w: World, v: World, w': World, k: nat, k1: nat)
    requires OthersStay(w, v, k) && OthersStay(v, w', k1) && (k1 == k || k1 >= |w.store.rows|)
    ensures OthersStay(w, w', k)
  {
    forall j | 0 <= j < |w.store.rows| && j != k ensures w'.store.rows[j] == w.store.rows[j] {
      assert v.store.rows[j] == w.store.rows[j];
    }
  }

  lemma StillWaits(w: World, w': World, i: nat, wid: string, k: nat, j: nat, n: Node)
    requires OthersStay(w, w', k) && j != k && WaitsAt(w, i, wid, j, n)
    ensures WaitsAt(w', i, wid, j, n)
  {
  }

  lemma SameTables(w: World, w': World, k: nat)
    requires OthersStay(w, w', k)
    ensures w'.tables == w.tables && |w.store.rows| <= |w'.store.rows|
  {
  }

  /** Two runs one after the other. */
  lemma Compose(jq: Oracle, w: World, a: seq<Step>, v: World, b: seq<Step>, w': World)
    requires Runs(jq, w, a, v) && Runs(jq, v, b, w') && Calm(a) && Calm(b)
    ensures Runs(jq, w, a + b, w') && Calm(a + b)
  {
    RunsOn(jq, w, a, v, b, w');
  }

  // ---- one turn of the scheduler ----

  /** The scheduler works on row k of instance i with this plan. */
  ghost predicate WorksOn(jq: Oracle, w: World, i: nat, wid: string, k: nat, p: Plan) {
    Lawful(jq, w) && w.sched.Working? && w.sched.id == k && w.sched.parked.None? && w.store.head == |w.store.sent| &&
    k < |w.store.rows| && w.store.rows[k].status == Process &&
    w.sched.job.row.inst == i && w.sched.job.row.wid == wid && PlanOf(jq, w.sched.job) == p
  }

  lemma ClaimAt(jq: Oracle, w: World, i: nat, wid: string, k: nat, v: Visit, task: nat, action: Option<Action>, order: seq<Relation>)
    returns (steps: seq<Step>, w': World)
    requires Clear(jq, w) && WaitsAt(w, i, wid, k, v.task) && Reads(w.tables, wid, v.task, task, action, order)
    ensures Runs(jq, w, steps, w') && Calm(steps) && OthersStay(w, w', k) && |w'.store.rows| == |w.store.rows|
    ensures WorksOn(jq, w', i, wid, k, Decide(w.tables.tasks[task].kind, action, order, jq, v.input))
  {
    var s := Claim(k, task, action, order, v.input);
    w' := Next(jq, w, s);
    OneStep(jq, w, s);
    StepLawful(jq, w, s);
    steps := [s];
  }

  /** After a successful attempt that queued only new instances: the final status, and their rows. */
  lemma Settle(jq: Oracle, w: World, k: nat) returns (steps: seq<Step>, w': World)
    requires w.sched == Ended(k, true) && k < |w.store.rows| && w.store.rows[k].status != Invalid
    requires w.store.head <= |w.store.sent| && forall m :: w.store.head <= m < |w.store.sent| ==> w.store.sent[m].id == 0
    ensures Runs(jq, w, steps, w') && Calm(steps)
    ensures w' == w.(sched := Idle, store := w.store.(head := |w.store.sent|,
      rows := w.store.rows[k := w.store.rows[k].(status := Success)] + RowsOf(w.store.sent[w.store.head..])))
  {
    var v := Next(jq, w, Finish);
    var rest := Flush(jq, v);
    w' := v.(store := Flushed(v.store));
    FlushedKeeps(v.store);
    FlushedInserts(v.store);
    Chain(jq, w, Finish, rest, w');
    steps := [Finish] + rest;
  }

  lemma SpawnWaits(w: World, w': World, k: nat, row: Row, r: Row, ns: seq<Node>, next: nat)
    requires k < |w.store.rows| && w'.tables == w.tables
    requires w'.store.rows == w.store.rows[k := row] + RowsOf(Spawn(r, ns, "", next))
    ensures OthersStay(w, w', k) && |w'.store.rows| == |w.store.rows| + |ns|
    ensures forall m :: 0 <= m < |ns| ==> WaitsAt(w', r.inst, r.wid, |w.store.rows| + m, ns[m])
  {
    forall m | 0 <= m < |ns| ensures WaitsAt(w', r.inst, r.wid, |w.store.rows| + m, ns[m]) {
      assert w'.store.rows[|w.store.rows| + m] == RowsOf(Spawn(r, ns, "", next))[m];
    }
  }

  lemma PublishedState(jq: Oracle, w: World, i: nat, wid: string, k: nat, work: Work, ns: seq<Node>)
    requires WorksOn(jq, w, i, wid, k, Plan(work, Advance(ns))) && work != Doomed
    ensures var v := Next(jq, w, AttemptSucceeds(""));
      Enabled(jq, w, AttemptSucceeds("")) && v.sched == Ended(k, true) && v.tables == w.tables && v.store.rows == w.store.rows &&
      v.store.head == |w.store.sent| <= |v.store.sent| &&
      v.store.sent[v.store.head..] == Spawn(w.sched.job.row, ns, "", w.next) &&
      forall m :: v.store.head <= m < |v.store.sent| ==> v.store.sent[m].id == 0
  {
    AnnounceAdds(w.store, w.sched.job.row, PlanOf(jq, w.sched.job).work, w.next);
    assert Next(jq, w, AttemptSucceeds("")).store.sent == w.store.sent + Spawn(w.sched.job.row, ns, "", w.next);
  }

  /** The work under way publishes its successors: each of them gets a WAIT row. */
  lemma Publishes(jq: Oracle, w: World, i: nat, wid: string, k: nat, work: Work, ns: seq<Node>) returns (steps: seq<Step>, w': World)
    requires WorksOn(jq, w, i, wid, k, Plan(work, Advance(ns))) && work != Doomed
    ensures Runs(jq, w, steps, w') && Calm(steps) && w'.sched.Idle? && w'.store.head == |w'.store.sent|
    ensures OthersStay(w, w', k) && |w'.store.rows| == |w.store.rows| + |ns|
    ensures forall m :: 0 <= m < |ns| ==> WaitsAt(w', i, wid, |w.store.rows| + m, ns[m])
  {
    var s := AttemptSucceeds("");
    var v := Next(jq, w, s);
    PublishedState(jq, w, i, wid, k, work, ns);
    hide Next, Enabled, Lawful, PlanOf;
    var rest;
    rest, w' := Settle(jq, v, k);
    SpawnWaits(w, w', k, w'.store.rows[k], w.sched.job.row, ns, w.next);
    hide WaitsAt, OthersStay;
    Chain(jq, w, s, rest, w');
    steps := [s] + rest;
  }

  lemma ParkedState(jq: Oracle, w: World, n: Node)
    requires Lawful(jq, w) && w.sched.Working? && w.sched.parked.None?
    requires PlanOf(jq, w.sched.job).work.Publish? && PlanOf(jq, w.sched.job).goal == Park(n)
    ensures var r, v := w.sched.job.row, Next(jq, w, ParkNext);
      Enabled(jq, w, ParkNext) && Enabled(jq, v, AttemptSucceeds("")) &&
      Next(jq, v, AttemptSucceeds("")) == w.(sched := Ended(w.sched.id, true), next := w.next + 1,
        store := w.store.(sent := w.store.sent + [Message(0, Row(r.inst, r.wid, n, w.next, Sleep, r.input))],
                          events := w.store.events + [Notice(r.inst, w.next, n)]))
  {
  }

  /** The callback of the last event, and the delivery of its waking message. */
  lemma CallsBack(jq: Oracle, w: World, e: nat, m: nat) returns (steps: seq<Step>, w': World)
    requires w.sched.Idle? && w.store.head == |w.store.sent| && e < |w.store.events| && e !in w.store.called
    requires m < |w.store.rows| && Wakes(w.store.rows[m], w.store.events[e], "")
    ensures Runs(jq, w, steps, w') && Calm(steps)
    ensures w'.sched.Idle? && w'.store.head == |w'.store.sent| && w'.tables == w.tables
    ensures w'.store.rows == w.store.rows[m := w.store.rows[m].(status := Wait)]
  {
    var s := Callback(e, "", Some(m));
    var v := Next(jq, w, s);
    assert v.store.sent[v.store.head] == Message(m + 1, w.store.rows[m].(status := Wait));
    w' := Next(jq, v, Deliver(true));
    OneStep(jq, v, Deliver(true));
    Chain(jq, w, s, [Deliver(true)], w');
    steps := [s] + [Deliver(true)];
  }

  /** The work under way parks its successor and publishes its event, whose callback wakes it. */
  lemma ParksAndWakes(jq: Oracle, w: World, i: nat, wid: string, k: nat, work: Work, n: Node) returns (steps: seq<Step>, w': World)
    requires WorksOn(jq, w, i, wid, k, Plan(work, Park(n))) && work.Publish?
    ensures Runs(jq, w, steps, w') && Calm(steps) && w'.sched.Idle? && w'.store.head == |w'.store.sent|
    ensures OthersStay(w, w', k) && WaitsAt(w', i, wid, |w.store.rows|, n)
  {
    var r, m := w.sched.job.row, |w.store.rows|;
    Uncalled(jq, w);
    ParkedState(jq, w, n);
    var v1 := Next(jq, w, ParkNext);
    var v2 := Next(jq, v1, AttemptSucceeds(""));
    hide Next, Enabled, Lawful, PlanOf;
    var rest, v3 := Settle(jq, v2, k);
    assert v2.store.sent[v2.store.head..] == [Message(0, Row(r.inst, r.wid, n, w.next, Sleep, r.input))];
    assert v3.store.rows[m] == Row(r.inst, r.wid, n, w.next, Sleep, r.input);
    var more;
    more, w' := CallsBack(jq, v3, |w.store.events|, m);
    RunsOn(jq, v2, rest, v3, more, w');
    Chain(jq, v1, AttemptSucceeds(""), rest + more, w');
    Chain(jq, w, ParkNext, [AttemptSucceeds("")] + (rest + more), w');
    steps := [ParkNext] + ([AttemptSucceeds("")] + (rest + more));
  }

  // ---- along a trail ----

  lemma HopNode(jq: Oracle, t: Tables, wid: string, v: Visit, n: Node)
    requires Hop(jq, t, wid, v, n)
    ensures v.task.Task?
  {
  }

  /** The rest of a hop after the claim. */
  lemma WorkAlong(jq: Oracle, w: World, i: nat, wid: string, k: nat, p: Plan, n: Node) returns (steps: seq<Step>, w': World, k': nat)
    requires WorksOn(jq, w, i, wid, k, p) && Carries(p, n) && n != End
    ensures Runs(jq, w, steps, w') && Calm(steps) && w'.sched.Idle? && w'.store.head == |w'.store.sent|
    ensures OthersStay(w, w', k) && k' >= |w.store.rows| && WaitsAt(w', i, wid, k', n)
  {
    hide WorksOn, Runs, OthersStay;
    if p.goal.Advance? {
      steps, w' := Publishes(jq, w, i, wid, k, p.work, p.goal.successors);
      var m :| 0 <= m < |p.goal.successors| && p.goal.successors[m] == n;
      k' := |w.store.rows| + m;
    } else {
      steps, w' := ParksAndWakes(jq, w, i, wid, k, p.work, n);
      k' := |w.store.rows|;
    }
  }

  /** A token can be brought along a hop: a turn of the scheduler and, if an event is sent, its callback. */
  lemma HopAlong(jq: Oracle, w: World, i: nat, wid: string, k: nat, v: Visit, n: Node) returns (steps: seq<Step>, w': World, k': nat)
    requires Clear(jq, w) && WaitsAt(w, i, wid, k, v.task) && Hop(jq, w.tables, wid, v, n) && n != End
    ensures Runs(jq, w, steps, w') && Calm(steps) && Clear(jq, w') && OthersStay(w, w', k)
    ensures k' >= |w.store.rows| && WaitsAt(w', i, wid, k', n)
  {
    hide Decide, Carries, Lawful, Runs, WorksOn, Calm;
    var task: nat, action, order :| Reads(w.tables, wid, v.task, task, action, order) &&
      Carries(Decide(w.tables.tasks[task].kind, action, order, jq, v.input), n);
    var w1, rest;
    steps, w1 := ClaimAt(jq, w, i, wid, k, v, task, action, order);
    rest, w', k' := WorkAlong(jq, w1, i, wid, k, Decide(w.tables.tasks[task].kind, action, order, jq, v.input), n);
    hide OthersStay, WaitsAt;
    StayOn(w, w1, w', k, k);
    Compose(jq, w, steps, w1, rest, w');
    steps := steps + rest;
    RunLawful(jq, w, steps, w');
  }

  lemma {:induction false} TrailAlong(jq: Oracle, w: World, i: nat, wid: string, k: nat, a: Node, path: seq<Visit>, b: Node)
    returns (steps: seq<Step>, w': World, k': nat)
    requires Clear(jq, w) && WaitsAt(w, i, wid, k, a) && Trail(jq, w.tables, wid, a, path, b) && b.Task?
    ensures Runs(jq, w, steps, w') && Calm(steps) && Clear(jq, w') && OthersStay(w, w', k)
    ensures WaitsAt(w', i, wid, k', b) && (k' == k || k' >= |w.store.rows|)
    decreases |path|
  {
    hide Clear, Hop, OthersStay, Runs, Calm, Done;
    if path == [] {
      steps, w', k' := [], w, k;
      Nothing(jq, w, k);
    }
    else {
      var n :| Hop(jq, w.tables, wid, path[0], n) && Trail(jq, w.tables, wid, n, path[1..], b);
      if path[1..] != [] { assert exists m :: Hop(jq, w.tables, wid, path[1..][0], m); NextIsTask(jq, w.tables, wid, path[1..][0]); }
      var v, k1, rest;
      steps, v, k1 := HopAlong(jq, w, i, wid, k, path[0], n);
      SameTables(w, v, k);
      rest, w', k' := TrailAlong(jq, v, i, wid, k1, n, path[1..], b);
      hide WaitsAt, Trail;
      StayOn(w, v, w', k, k1);
      Compose(jq, w, steps, v, rest, w');
      steps := steps + rest;
    }
  }

  lemma NextIsTask(jq: Oracle, t: Tables, wid: string, v: Visit)
    requires exists m :: Hop(jq, t, wid, v, m)
    ensures v.task.Task?
  {
    var m :| Hop(jq, t, wid, v, m);
    HopNode(jq, t, wid, v, m);
  }

  lemma Completes(jq: Oracle, w: World, i: nat, wid: string, k: nat, p: Plan) returns (steps: seq<Step>, w': World)
    requires WorksOn(jq, w, i, wid, k, p) && p.work != Doomed && p.goal.Complete?
    ensures Runs(jq, w, steps, w') && Calm(steps) && Done(w', i) && OthersStay(w, w', k)
  {
    var f := AttemptSucceeds("");
    w' := Next(jq, w, f);
    AnnounceAdds(w.store, w.sched.job.row, p.work, w.next);
    OneStep(jq, w, f);
    steps := [f];
  }

  /** Only a completion leads to END. */
  lemma EndIsComplete(jq: Oracle, job: Job)
    requires Carries(PlanOf(jq, job), End)
    ensures PlanOf(jq, job).goal.Complete? && PlanOf(jq, job).work != Doomed
  {
    AdvanceLeads(jq, job);
  }

  /** A hop to END completes the instance. */
  lemma HopToEnd(jq: Oracle, w: World, i: nat, wid: string, k: nat, v: Visit) returns (steps: seq<Step>, w': World)
    requires Clear(jq, w) && WaitsAt(w, i, wid, k, v.task) && Hop(jq, w.tables, wid, v, End)
    ensures Runs(jq, w, steps, w') && Calm(steps) && Done(w', i) && OthersStay(w, w', k)
  {
    hide Decide, Carries, Lawful, Runs, Calm, Clear;
    var task: nat, action, order :| Reads(w.tables, wid, v.task, task, action, order) &&
      Carries(Decide(w.tables.tasks[task].kind, action, order, jq, v.input), End);
    var w1, rest;
    steps, w1 := ClaimAt(jq, w, i, wid, k, v, task, action, order);
    EndIsComplete(jq, w1.sched.job);
    rest, w' := Completes(jq, w1, i, wid, k, PlanOf(jq, w1.sched.job));
    hide OthersStay, WaitsAt;
    StayOn(w, w1, w', k, k);
    Compose(jq, w, steps, w1, rest, w');
    steps := steps + rest;
  }

  lemma {:induction false} TrailToEnd(jq: Oracle, w: World, i: nat, wid: string, k: nat, a: Node, path: seq<Visit>)
    returns (steps: seq<Step>, w': World)
    requires Clear(jq, w) && WaitsAt(w, i, wid, k, a) && Trail(jq, w.tables, wid, a, path, End) && a != End
    ensures Runs(jq, w, steps, w') && Calm(steps) && Done(w', i) && OthersStay(w, w', k)
    decreases |path|
  {
    hide Clear, Hop, OthersStay, Runs, Calm, Done;
    var n :| Hop(jq, w.tables, wid, path[0], n) && Trail(jq, w.tables, wid, n, path[1..], End);
    if n == End { steps, w' := HopToEnd(jq, w, i, wid, k, path[0]); }
    else {
      var v, k1, rest;
      steps, v, k1 := HopAlong(jq, w, i, wid, k, path[0], n);
      SameTables(w, v, k);
      rest, w' := TrailToEnd(jq, v, i, wid, k1, n, path[1..]);
      hide WaitsAt, Trail;
      StayOn(w, v, w', k, k1);
      Compose(jq, w, steps, v, rest, w');
      steps := steps + rest;
    }
  }

  // ---- the witness ----

  /** No instance was ever started. */
  function Fresh(t: Tables): World {
    World(t, Store([], [], 0, [], {}), map[], map[], Idle, 0)
  }

  lemma FirstRow(jq: Oracle, t: Tables, wid: string, a: Node) returns (relation: nat, steps: seq<Step>, w: World)
    requires Sound(t) && StartsAt(t, wid, a)
    ensures Init(Fresh(t)) && Enabled(jq, Fresh(t), StartFlow(relation, "")) && t.relations[relation].wid == wid && a.Task?
    ensures Runs(jq, Next(jq, Fresh(t), StartFlow(relation, "")), steps, w) && Calm(steps) && Clear(jq, w)
    ensures w.tables == t && WaitsAt(w, 0, wid, 0, a)
  {
    var r :| r in t.relations && r.normal && r.wid == wid && r.from == Start && r.to == a;
    relation :| relation < |t.relations| && t.relations[relation] == r;
    var w0 := Fresh(t);
    var s := StartFlow(relation, "");
    var v := Next(jq, w0, s);
    InitLawful(jq, w0);
    StepLawful(jq, w0, s);
    w := Next(jq, v, Deliver(true));
    StepLawful(jq, v, Deliver(true));
    OneStep(jq, v, Deliver(true));
    steps := [Deliver(true)];
  }

  /** The rows from base on wait to execute the nodes ns. */
  predicate AllWait(w: World, i: nat, wid: string, base: nat, ns: seq<Node>) {
    forall m :: 0 <= m < |ns| ==> WaitsAt(w, i, wid, base + m, ns[m])
  }

  lemma SplitPlan(jq: Oracle, job: Job, ns: seq<Node>)
    requires PlanOf(jq, job).goal == Advance(ns)
    ensures End !in ns
  {
    AdvanceLeads(jq, job);
  }

  lemma SplitAlong(jq: Oracle, w: World, i: nat, wid: string, k: nat, v: Visit, ns: seq<Node>) returns (steps: seq<Step>, w': World)
    requires Clear(jq, w) && WaitsAt(w, i, wid, k, v.task) && Splits(jq, w.tables, wid, v, ns)
    ensures Runs(jq, w, steps, w') && Calm(steps) && Clear(jq, w') && w'.tables == w.tables && End !in ns
    ensures |w'.store.rows| == |w.store.rows| + |ns| && AllWait(w', i, wid, |w.store.rows|, ns)
  {
    hide Decide, Lawful, Runs, Calm;
    var task: nat, action, order :| Reads(w.tables, wid, v.task, task, action, order) &&
      Decide(w.tables.tasks[task].kind, action, order, jq, v.input).work != Doomed &&
      Decide(w.tables.tasks[task].kind, action, order, jq, v.input).goal == Advance(ns);
    var w1, rest;
    steps, w1 := ClaimAt(jq, w, i, wid, k, v, task, action, order);
    SplitPlan(jq, w1.sched.job, ns);
    rest, w' := Publishes(jq, w1, i, wid, k, PlanOf(jq, w1.sched.job).work, ns);
    hide OthersStay, WaitsAt, WorksOn;
    SameTables(w, w1, k);
    SameTables(w1, w', k);
    Compose(jq, w, steps, w1, rest, w');
    steps := steps + rest;
    RunLawful(jq, w, steps, w');
  }

  lemma SplitTask(jq: Oracle, t: Tables, wid: string, v: Visit, ns: seq<Node>)
    requires Splits(jq, t, wid, v, ns)
    ensures v.task.Task?
  {
  }

  /** From the split on: one branch goes to END, the row of another still waits. */
  lemma BranchEnds(jq: Oracle, w: World, i: nat, wid: string, base: nat, ns: seq<Node>, c: Node, path: seq<Visit>)
    returns (steps: seq<Step>, w': World)
    requires Clear(jq, w) && |w.store.rows| == base + |ns| && |ns| >= 2 && End !in ns
    requires AllWait(w, i, wid, base, ns)
    requires c in ns && Trail(jq, w.tables, wid, c, path, End)
    ensures Runs(jq, w, steps, w') && Calm(steps) && Done(w', i) && exists p :: At(w'.store, w'.sched, i, p)
  {
    hide Clear, Trail, OthersStay, Runs, Calm, Done;
    var m :| 0 <= m < |ns| && ns[m] == c;
    var other: nat := if m == 0 then 1 else 0;
    steps, w' := TrailToEnd(jq, w, i, wid, base + m, c, path);
    assert WaitsAt(w, i, wid, base + other, ns[other]);
    StillWaits(w, w', i, wid, base + m, base + other, ns[other]);
    assert At(w'.store, w'.sched, i, InRow(base + other));
  }

  /** From the first row on: along the trail to the fork, through it, and along one branch to END. */
  lemma SplitsEarly(jq: Oracle, w: World, i: nat, wid: string, a: Node, before: seq<Visit>, v: Visit, ns: seq<Node>, c: Node,
    path: seq<Visit>) returns (steps: seq<Step>, w': World)
    requires Clear(jq, w) && WaitsAt(w, i, wid, 0, a) && Trail(jq, w.tables, wid, a, before, v.task)
    requires Splits(jq, w.tables, wid, v, ns) && c in ns && Trail(jq, w.tables, wid, c, path, End)
    ensures Runs(jq, w, steps, w') && Calm(steps) && Done(w', i) && exists p :: At(w'.store, w'.sched, i, p)
  {
    SplitTask(jq, w.tables, wid, v, ns);
    hide Clear, Trail, Runs, OthersStay, Calm, Done, WaitsAt, AllWait, At;
    var w2, k, split, w3, end;
    steps, w2, k := TrailAlong(jq, w, i, wid, 0, a, before, v.task);
    SameTables(w, w2, 0);
    split, w3 := SplitAlong(jq, w2, i, wid, k, v, ns);
    SplitCount(jq, w.tables, wid, v, ns);
    hide Splits;
    end, w' := BranchEnds(jq, w3, i, wid, |w2.store.rows|, ns, c, path);
    Compose(jq, w2, split, w3, end, w');
    Compose(jq, w, steps, w2, split + end, w');
    steps := steps + (split + end);
  }

  lemma SplitCount(jq: Oracle, t: Tables, wid: string, v: Visit, ns: seq<Node>)
    requires Splits(jq, t, wid, v, ns)
    ensures |ns| >= 2
  {
  }

  /** From tables with a leaking fork, a run without saves and deletes from the very first start marks
      the instance SUCCESS while another branch of it is still under way. */
  lemma LeakEndsEarly(jq: Oracle, t: Tables, wid: string) returns (relation: nat, steps: seq<Step>, w': World)
    requires Sound(t) && Leaks(jq, t, wid)
    ensures Init(Fresh(t)) && Enabled(jq, Fresh(t), StartFlow(relation, "")) && t.relations[relation].wid == wid
    ensures Runs(jq, Next(jq, Fresh(t), StartFlow(relation, "")), steps, w') && Calm(steps)
    ensures Done(w', 0) && exists p :: At(w'.store, w'.sched, 0, p)
  {
    var v: Visit, ns: seq<Node>, c: Node, path: seq<Visit> :|
      Reached(jq, t, wid, v.task) && Splits(jq, t, wid, v, ns) && c in ns && Trail(jq, t, wid, c, path, End);
    var a, before :| StartsAt(t, wid, a) && Trail(jq, t, wid, a, before, v.task);
    hide Clear, Splits, Trail, Next, Runs, Enabled, Sound, StartsAt, Init, Calm, Done, At, WaitsAt;
    var w1, more;
    relation, steps, w1 := FirstRow(jq, t, wid, a);
    more, w' := SplitsEarly(jq, w1, 0, wid, a, before, v, ns, c, path);
    Compose(jq, Next(jq, Fresh(t), StartFlow(relation, "")), steps, w1, more, w');
    steps := steps + more;
  }

  // ---- the exact condition ----

  /** i is marked SUCCESS in w while something of it is left. */
  ghost predicate TooEarly(w: World, i: nat) {
    Done(w, i) && exists p :: At(w.store, w.sched, i, p)
  }

  /** Some run without saves and deletes marks an instance of wid SUCCESS too early. */
  ghost predicate EndsEarly(jq: Oracle, t: Tables, wid: string) {
    exists relation: nat, input, steps, w' ::
      relation < |t.relations| && t.relations[relation].wid == wid &&
      Enabled(jq, Fresh(t), StartFlow(relation, input)) &&
      Runs(jq, Next(jq, Fresh(t), StartFlow(relation, input)), steps, w') && Calm(steps) && TooEarly(w', 0)
  }

  lemma {:induction false} CalmUntouched(t: Tables, steps: seq<Step>, wid: string)
    requires Calm(steps)
    ensures Untouched(t, steps, wid)
  {
    if steps != [] {
      assert steps[0] in steps && forall s :: s in steps[1..] ==> s in steps;
      CalmUntouched(t, steps[1..], wid);
    }
  }

  /** SUCCESS can come too early exactly when a reachable fork of the stored workflow has two branches
      of which one can reach END. */
  lemma EndsEarlyIffLeaks(jq: Oracle, t: Tables, wid: string)
    requires Sound(t)
    ensures EndsEarly(jq, t, wid) <==> Leaks(jq, t, wid)
  {
    if Leaks(jq, t, wid) {
      var relation, steps, w' := LeakEndsEarly(jq, t, wid);
      assert TooEarly(w', 0);
    } else {
      forall relation: nat, input, steps, w' | relation < |t.relations| && t.relations[relation].wid == wid &&
        Enabled(jq, Fresh(t), StartFlow(relation, input)) &&
        Runs(jq, Next(jq, Fresh(t), StartFlow(relation, input)), steps, w') && Calm(steps)
        ensures !TooEarly(w', 0)
      {
        CalmUntouched(t, steps, wid);
        assert Init(Fresh(t)) && Runs(jq, Fresh(t), [], Fresh(t));
        SuccessIsTheEnd(jq, Fresh(t), [], Fresh(t), relation, input, steps, w');
      }
    }
  }
}
