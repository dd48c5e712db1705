/** What each executed task runs on: the filtered start input, or what an earlier task handed on. */
module Data {
  import opened Model
  import opened Executors
  import opened Protocol
  import opened Invariants
  import opened Records
  import opened Paths

  /** The stored filter expressions of a task, evaluated on a text. */
  datatype Filters = Filters(input: (Node, string) -> string, output: (Node, string) -> string)

  /** What a task hands to its successors: a local task the filtered result of its evaluation, which
      with the empty definition is its input; any other task its input. */
  function Handed(f: Filters, kind: TaskType, v: Visit): string {
    if IsLocal(kind) then f.output(v.task, v.input) else v.input
  }

  /** A claim filters the stored input, and a finished task hands on what it should. */
  ghost predicate Filtered(f: Filters, jq: Oracle, w: World, s: Step)
    requires Enabled(jq, w, s)
  {
    match s
    case Claim(row, _, _, _, input) => input == f.input(w.store.rows[row].task, w.store.rows[row].input)
    case AttemptSucceeds(output) =>
      PlanOf(jq, w.sched.job).goal.Advance? ==> output == Handed(f, w.sched.job.kind, VisitOf(w.sched.job))
    case _ => true
  }

  ghost predicate FilteredRun(f: Filters, jq: Oracle, w: World, steps: seq<Step>)
    decreases |steps|
  {
    steps == [] || (Enabled(jq, w, steps[0]) && Filtered(f, jq, w, steps[0]) && FilteredRun(f, jq, Next(jq, w, steps[0]), steps[1..]))
  }

  /** Filtered runs one after the other. */
  lemma {:induction false} FilteredOn(f: Filters, jq: Oracle, w: World, a: seq<Step>, v: World, b: seq<Step>)
    requires Runs(jq, w, a, v) && FilteredRun(f, jq, w, a) && FilteredRun(f, jq, v, b)
    ensures FilteredRun(f, jq, w, a + b)
    decreases |a|
  {
    hide Enabled, Next, Filtered;
    if a == [] { assert a + b == b; }
    else {
      assert (a + b)[1..] == a[1..] + b;
      FilteredOn(f, jq, Next(jq, w, a[0]), a[1..], v, b);
    }
  }

  // ---- where an input comes from ----

  /** A snapshot of the visited task lets it hand x on to n. */
  ghost predicate Feeds(f: Filters, jq: Oracle, t: Tables, wid: string, v: Visit, n: Node, x: string) {
    exists task: nat, action, order ::
      Reads(t, wid, v.task, task, action, order) &&
      Leads(Decide(t.tasks[task].kind, action, order, jq, v.input), n) && x == Handed(f, t.tasks[task].kind, v)
  }

  /** How an instance was started: its first task and its input. */
  datatype Launch = Launch(task: Node, input: string)

  /** After the visits h, x may wait for task n: at first it is what the instance was started with, and
      from then on it is what one of the visits hands to n. */
  ghost predicate Sourced(f: Filters, jq: Oracle, t: Tables, wid: string, o: Launch, h: seq<Visit>, n: Node, x: string) {
    if h == [] then n == o.task && x == o.input else exists v :: v in h && Feeds(f, jq, t, wid, v, n, x)
  }

  /** The visit v, executed after h, runs on the filter of such an input. */
  ghost predicate Received(f: Filters, jq: Oracle, t: Tables, wid: string, o: Launch, h: seq<Visit>, v: Visit) {
    exists x :: Sourced(f, jq, t, wid, o, h, v.task, x) && v.input == f.input(v.task, x)
  }

  ghost predicate AllReceived(f: Filters, jq: Oracle, t: Tables, wid: string, o: Launch, h: seq<Visit>) {
    forall k :: 0 <= k < |h| ==> Received(f, jq, t, wid, o, h[..k], h[k])
  }

  // ---- what is still to be executed ----

  /** r is a queued message of instance i, or a row of it that sleeps or waits. */
  predicate Open(b: Store, i: nat, r: Row) {
    r.inst == i &&
    ((r.status in {Sleep, Wait} && r in b.rows) || exists k :: b.head <= k < |b.sent| && b.sent[k].row == r)
  }

  predicate Same(r: Row, q: Row) {
    r.inst == q.inst && r.task == q.task && r.tiid == q.tiid && r.input == q.input
  }

  /** r was open before. */
  ghost predicate WasOpen(b: Store, i: nat, r: Row) {
    exists q :: Open(b, i, q) && Same(q, r)
  }

  /** The task under work hands the input of r on. */
  ghost predicate HandsOn(f: Filters, jq: Oracle, w: World, i: nat, r: Row) {
    w.sched.Working? && w.sched.job.row.inst == i && Leads(PlanOf(jq, w.sched.job), r.task) &&
    r.input == Handed(f, w.sched.job.kind, VisitOf(w.sched.job))
  }

  lemma TakeOpens(b: Store, written: bool, i: nat, r: Row)
    requires Mail(b) && b.head < |b.sent| && Open(Take(b, written), i, r)
    ensures WasOpen(b, i, r)
  {
    var c, m := Take(b, written), b.sent[b.head];
    if k :| c.head <= k < |c.sent| && c.sent[k].row == r { assert Open(b, i, r); }
    else if r in b.rows { assert Open(b, i, r); }
    else { assert Open(b, i, m.row) && Same(m.row, r); }
  }

  lemma WakeOpens(b: Store, event: nat, found: Option<nat>, i: nat, r: Row)
    requires found.Some? ==> found.value < |b.rows| && b.rows[found.value].status == Sleep
    requires Open(Wake(b, event, found), i, r)
    ensures WasOpen(b, i, r)
  {
    if Open(b, i, r) { assert Same(r, r); }
    else {
      var q := b.rows[found.value];
      assert r == q.(status := Wait);
      assert Open(b, i, q) && Same(q, r);
    }
  }

  /** Marking rows as taken, final or deleted opens nothing. */
  lemma MarksOpen(b: Store, c: Store, i: nat, r: Row)
    requires c.sent == b.sent && c.head == b.head && |c.rows| == |b.rows|
    requires forall k :: 0 <= k < |c.rows| ==> c.rows[k] == b.rows[k] || c.rows[k].status !in {Sleep, Wait}
    requires Open(c, i, r)
    ensures WasOpen(b, i, r)
  {
    assert Open(b, i, r) && Same(r, r);
  }

  lemma PostOpens(b: Store, c: Store, ms: seq<Message>, i: nat, r: Row)
    requires c.rows == b.rows && c.head == b.head <= |b.sent| && c.sent == b.sent + ms && Open(c, i, r)
    ensures WasOpen(b, i, r) || exists m :: m in ms && m.row == r
  {
    if r.status in {Sleep, Wait} && r in b.rows { assert Open(b, i, r) && Same(r, r); }
    else {
      var k :| c.head <= k < |c.sent| && c.sent[k].row == r;
      if k < |b.sent| { assert Open(b, i, r) && Same(r, r); } else { assert ms[k - |b.sent|] in ms; }
    }
  }

  lemma AchievedOpens(f: Filters, jq: Oracle, w: World, output: string, i: nat, r: Row)
    requires Lawful(jq, w) && Enabled(jq, w, AttemptSucceeds(output)) && Filtered(f, jq, w, AttemptSucceeds(output))
    requires Open(Next(jq, w, AttemptSucceeds(output)).store, i, r)
    ensures WasOpen(w.store, i, r) || HandsOn(f, jq, w, i, r)
  {
    var p, c, job := PlanOf(jq, w.sched.job), Next(jq, w, AttemptSucceeds(output)).store, w.sched.job;
    hide Decide;
    var ms := if p.goal.Advance? then Spawn(job.row, p.goal.successors, output, w.next) else [];
    assert c.sent == w.store.sent + ms;
    PostOpens(w.store, c, ms, i, r);
    if !WasOpen(w.store, i, r) {
      var m :| m in ms && m.row == r;
    }
  }

  lemma ParkOpens(f: Filters, jq: Oracle, w: World, i: nat, r: Row)
    requires Lawful(jq, w) && Enabled(jq, w, ParkNext) && Open(Next(jq, w, ParkNext).store, i, r)
    ensures WasOpen(w.store, i, r) || HandsOn(f, jq, w, i, r)
  {
    var p, job := PlanOf(jq, w.sched.job), w.sched.job;
    PlanShape(jq, job);
    assert p.goal.Park? ==> !IsLocal(job.kind) && p.work != Doomed;
    hide Decide;
    var m := Message(0, Row(job.row.inst, job.row.wid, p.goal.successor, w.next, Sleep, job.row.input));
    PostOpens(w.store, Next(jq, w, ParkNext).store, [m], i, r);
  }

  /** Whatever of an instance is open after a step was open before, or is handed on by its task under work. */
  lemma StepOpens(f: Filters, jq: Oracle, w: World, s: Step, i: nat, r: Row)
    requires Lawful(jq, w) && Enabled(jq, w, s) && Filtered(f, jq, w, s) && i < w.next && Open(Next(jq, w, s).store, i, r)
    ensures WasOpen(w.store, i, r) || HandsOn(f, jq, w, i, r)
  {
    assert r.inst == i;
    hide Decide, Open, WasOpen;
    InvMail(jq, w);
    match s
    case StartFlow(relation, input) =>
      var e := w.tables.relations[relation];
      PostOpens(w.store, Next(jq, w, s).store, [Message(0, Row(w.next, e.wid, e.to, w.next + 1, Wait, input))], i, r);
    case Deliver(written) => TakeOpens(w.store, written, i, r);
    case Callback(event, _, found) => WakeOpens(w.store, event, found, i, r);
    case ParkNext => ParkOpens(f, jq, w, i, r);
    case AttemptSucceeds(output) => AchievedOpens(f, jq, w, output, i, r);
    case _ => MarksOpen(w.store, Next(jq, w, s).store, i, r);
  }

  // ---- along a run ----

  /** Instance i runs workflow wid as it is in t, and everything open of it has its input from where it should. */
  ghost predicate Supplied(f: Filters, jq: Oracle, t: Tables, wid: string, o: Launch, w: World, i: nat) {
    Lawful(jq, w) && RunsFlow(w, i, wid) && Kept(t, w.tables, wid) &&
    AllReceived(f, jq, t, wid, o, History(w, i)) &&
    (forall r :: Open(w.store, i, r) ==> Sourced(f, jq, t, wid, o, History(w, i), r.task, r.input)) &&
    (History(w, i) == [] ==> forall r :: Open(w.store, i, r) ==> r.tiid == i + 1) &&
    (w.sched.Working? && w.sched.job.row.inst == i ==>
       VisitOf(w.sched.job) in History(w, i) && Snapshot(t, wid, w.sched.job, VisitOf(w.sched.job)))
  }

  lemma SnapshotFeeds(f: Filters, jq: Oracle, t: Tables, wid: string, job: Job, n: Node)
    requires Snapshot(t, wid, job, VisitOf(job)) && Leads(PlanOf(jq, job), n)
    ensures Feeds(f, jq, t, wid, VisitOf(job), n, Handed(f, job.kind, VisitOf(job)))
  {
  }

  lemma LaterSourced(f: Filters, jq: Oracle, t: Tables, wid: string, o: Launch, h: seq<Visit>, v: Visit, n: Node, x: string)
    requires h != [] && Sourced(f, jq, t, wid, o, h, n, x)
    ensures Sourced(f, jq, t, wid, o, h + [v], n, x)
  {
    var u :| u in h && Feeds(f, jq, t, wid, u, n, x);
    assert u in h + [v];
  }

  lemma OneMoreReceived(f: Filters, jq: Oracle, t: Tables, wid: string, o: Launch, h: seq<Visit>, v: Visit)
    requires AllReceived(f, jq, t, wid, o, h) && Received(f, jq, t, wid, o, h, v)
    ensures AllReceived(f, jq, t, wid, o, h + [v])
  {
    forall k | 0 <= k < |h + [v]| ensures Received(f, jq, t, wid, o, (h + [v])[..k], (h + [v])[k]) {
      if k < |h| { assert (h + [v])[..k] == h[..k]; } else { assert (h + [v])[..k] == h; }
    }
  }

  lemma KeptSourced(f: Filters, jq: Oracle, t: Tables, wid: string, o: Launch, w: World, s: Step, i: nat, r: Row)
    requires Supplied(f, jq, t, wid, o, w, i) && Enabled(jq, w, s) && Filtered(f, jq, w, s)
    requires History(Next(jq, w, s), i) == History(w, i) && Open(Next(jq, w, s).store, i, r)
    ensures Sourced(f, jq, t, wid, o, History(w, i), r.task, r.input) && (History(w, i) == [] ==> r.tiid == i + 1)
  {
    assert i < w.next;
    StepOpens(f, jq, w, s, i, r);
    hide Next, Enabled, Lawful, Open, Feeds, Snapshot, Filtered, Kept, AllReceived, PlanOf, Decide;
    if WasOpen(w.store, i, r) { var q :| Open(w.store, i, q) && Same(q, r); }
    else { SnapshotFeeds(f, jq, t, wid, w.sched.job, r.task); }
  }

  /** A claimed task instance is open no more. */
  lemma ClaimCloses(jq: Oracle, w: World, s: Step, i: nat, r: Row)
    requires Inv(jq, w) && Enabled(jq, w, s) && s.Claim? && r.tiid == w.store.rows[s.row].tiid
    ensures !Open(Next(jq, w, s).store, i, r)
  {
  }

  lemma ClaimSourced(f: Filters, jq: Oracle, t: Tables, wid: string, o: Launch, w: World, s: Step, i: nat, r: Row)
    requires Supplied(f, jq, t, wid, o, w, i) && Enabled(jq, w, s) && s.Claim? && w.store.rows[s.row].inst == i
    requires Filtered(f, jq, w, s) && Open(Next(jq, w, s).store, i, r)
    ensures Sourced(f, jq, t, wid, o, History(Next(jq, w, s), i), r.task, r.input)
  {
    assert i < w.next;
    StepOpens(f, jq, w, s, i, r);
    var q :| Open(w.store, i, q) && Same(q, r);
    assert Open(w.store, i, w.store.rows[s.row]);
    if History(w, i) == [] { ClaimCloses(jq, w, s, i, r); }
    else { LaterSourced(f, jq, t, wid, o, History(w, i), Visit(w.store.rows[s.row].task, s.input), r.task, r.input); }
  }

  lemma ClaimReceived(f: Filters, jq: Oracle, t: Tables, wid: string, o: Launch, w: World, s: Step, i: nat)
    requires Supplied(f, jq, t, wid, o, w, i) && Enabled(jq, w, s) && s.Claim? && w.store.rows[s.row].inst == i
    requires Filtered(f, jq, w, s)
    ensures var h' := History(Next(jq, w, s), i);
      AllReceived(f, jq, t, wid, o, h') && h' != [] && VisitOf(Next(jq, w, s).sched.job) in h'
  {
    var row := w.store.rows[s.row];
    assert Open(w.store, i, row);
    hide Feeds, Decide, Reads, Lawful, Snapshot;
    assert Received(f, jq, t, wid, o, History(w, i), Visit(row.task, s.input));
    OneMoreReceived(f, jq, t, wid, o, History(w, i), Visit(row.task, s.input));
  }

  lemma ClaimSupplied(f: Filters, jq: Oracle, t: Tables, wid: string, o: Launch, w: World, s: Step, i: nat)
    requires Supplied(f, jq, t, wid, o, w, i) && Enabled(jq, w, s) && s.Claim? && w.store.rows[s.row].inst == i
    requires Filtered(f, jq, w, s)
    ensures Supplied(f, jq, t, wid, o, Next(jq, w, s), i)
  {
    var w' := Next(jq, w, s);
    StepLawful(jq, w, s);
    FlowKept(jq, w, s, i, wid);
    assert Belongs(w.store.rows[s.row], w.insts);
    ClaimReceived(f, jq, t, wid, o, w, s, i);
    ClaimSnapshot(jq, t, wid, w, s);
    forall r | Open(w'.store, i, r) ensures Sourced(f, jq, t, wid, o, History(w', i), r.task, r.input) {
      ClaimSourced(f, jq, t, wid, o, w, s, i, r);
    }
    hide AllReceived, Received, Sourced, Snapshot, Open;
  }

  lemma StepSupplied(f: Filters, jq: Oracle, t: Tables, wid: string, o: Launch, w: World, s: Step, i: nat)
    requires Supplied(f, jq, t, wid, o, w, i) && Enabled(jq, w, s) && Filtered(f, jq, w, s)
    requires s.Republish? ==> Kept(t, s.tables, wid)
    ensures Supplied(f, jq, t, wid, o, Next(jq, w, s), i)
  {
    assert i < w.next;
    if s.Claim? && w.store.rows[s.row].inst == i { ClaimSupplied(f, jq, t, wid, o, w, s, i); }
    else {
      StepLawful(jq, w, s);
      FlowKept(jq, w, s, i, wid);
      TablesKept(jq, t, wid, w, s);
      OtherHistory(jq, w, s, i);
      forall r | Open(Next(jq, w, s).store, i, r)
        ensures Sourced(f, jq, t, wid, o, History(w, i), r.task, r.input) && (History(w, i) == [] ==> r.tiid == i + 1)
      {
        KeptSourced(f, jq, t, wid, o, w, s, i, r);
      }
    }
  }

  lemma {:induction false} RunSupplied(f: Filters, jq: Oracle, t: Tables, wid: string, o: Launch, w: World, steps: seq<Step>, w': World, i: nat)
    requires Supplied(f, jq, t, wid, o, w, i) && Runs(jq, w, steps, w') && FilteredRun(f, jq, w, steps) && Untouched(t, steps, wid)
    ensures Supplied(f, jq, t, wid, o, w', i)
    decreases |steps|
  {
    if steps != [] {
      StepSupplied(f, jq, t, wid, o, w, steps[0], i);
      hide Supplied;
      RunSupplied(f, jq, t, wid, o, Next(jq, w, steps[0]), steps[1..], w', i);
    }
  }

  lemma StartSupplied(f: Filters, jq: Oracle, w: World, relation: nat, input: string)
    requires Lawful(jq, w) && Enabled(jq, w, StartFlow(relation, input))
    ensures var r := w.tables.relations[relation];
      Supplied(f, jq, w.tables, r.wid, Launch(r.to, input), Next(jq, w, StartFlow(relation, input)), w.next)
  {
    var e, s := w.tables.relations[relation], StartFlow(relation, input);
    var w' := Next(jq, w, s);
    StepLawful(jq, w, s);
    KeptItself(w.tables, e.wid);
    forall r | Open(w'.store, w.next, r) ensures r == Row(w.next, e.wid, e.to, w.next + 1, Wait, input) {
      assert forall k :: 0 <= k < |w.store.rows| ==> Belongs(w.store.rows[k], w.insts);
    }
  }

  /** v runs on the filter of what one of the visits h before it handed on to it. */
  ghost predicate Continued(f: Filters, jq: Oracle, t: Tables, wid: string, h: seq<Visit>, v: Visit) {
    exists u, x :: u in h && Feeds(f, jq, t, wid, u, v.task, x) && v.input == f.input(v.task, x)
  }

  lemma FirstAndLater(f: Filters, jq: Oracle, t: Tables, wid: string, o: Launch, h: seq<Visit>)
    requires AllReceived(f, jq, t, wid, o, h)
    ensures h != [] ==> h[0] == Visit(o.task, f.input(o.task, o.input))
    ensures forall k :: 0 < k < |h| ==> Continued(f, jq, t, wid, h[..k], h[k])
  {
    hide Feeds;
    if h != [] { assert Received(f, jq, t, wid, o, h[..0], h[0]); }
    forall k | 0 < k < |h| ensures Continued(f, jq, t, wid, h[..k], h[k]) { assert Received(f, jq, t, wid, o, h[..k], h[k]); }
  }

  /** Start any instance in any reachable state, and go on with any steps that filter and that leave its
      workflow alone, forks included. The first task that is executed is the start task, on the filtered
      start input; and each later one follows an earlier one and runs on the filter of what that handed on. */
  lemma TasksRunOnWhatTheyWereSent(f: Filters, jq: Oracle, w: World, before: seq<Step>, u: World, relation: nat, input: string,
    after: seq<Step>, w': World)
    requires Init(w) && Runs(jq, w, before, u) && Enabled(jq, u, StartFlow(relation, input))
    requires Runs(jq, Next(jq, u, StartFlow(relation, input)), after, w')
    requires FilteredRun(f, jq, Next(jq, u, StartFlow(relation, input)), after)
    requires Untouched(u.tables, after, u.tables.relations[relation].wid)
    ensures var r, h := u.tables.relations[relation], History(w', u.next);
      (h != [] ==> h[0] == Visit(r.to, f.input(r.to, input))) &&
      forall k :: 0 < k < |h| ==> Continued(f, jq, u.tables, r.wid, h[..k], h[k])
  {
    var r, h := u.tables.relations[relation], History(w', u.next);
    InitLawful(jq, w);
    RunLawful(jq, w, before, u);
    StartSupplied(f, jq, u, relation, input);
    RunSupplied(f, jq, u.tables, r.wid, Launch(r.to, input), Next(jq, u, StartFlow(relation, input)), after, w', u.next);
    assert AllReceived(f, jq, u.tables, r.wid, Launch(r.to, input), h);
    hide Supplied, AllReceived, Continued, Runs, Next, Enabled, Init, FilteredRun, Untouched;
    FirstAndLater(f, jq, u.tables, r.wid, Launch(r.to, input), h);
  }
}
