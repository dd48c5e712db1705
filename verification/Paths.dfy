/** The tasks executed for an instance form a path of the graph stored when it started, and SUCCESS
    is written only when that path has reached END. */
module Paths {
  import opened Model
  import opened Executors
  import opened Protocol
  import opened Invariants
  import opened Records
  import opened Tokens
  import opened Safety
  import opened Origins

  ghost predicate StartsAt(t: Tables, wid: string, n: Node) {
    exists r :: r in t.relations && r.normal && r.wid == wid && r.from == Start && r.to == n
  }

  /** Some snapshot of the visited task lets its executor move the instance to n. */
  ghost predicate Follows(jq: Oracle, t: Tables, wid: string, v: Visit, n: Node) {
    exists task: nat, action, order ::
      Reads(t, wid, v.task, task, action, order) &&
      Leads(Decide(t.tasks[task].kind, action, order, jq, v.input), n)
  }

  /** n may come next after the visits h. */
  ghost predicate Continues(jq: Oracle, t: Tables, wid: string, h: seq<Visit>, n: Node) {
    if h == [] then StartsAt(t, wid, n) else Follows(jq, t, wid, h[|h| - 1], n)
  }

  ghost predicate Path(jq: Oracle, t: Tables, wid: string, h: seq<Visit>) {
    forall k :: 0 <= k < |h| ==> Continues(jq, t, wid, h[..k], h[k].task)
  }

  // ---- a workflow that is left alone ----

  /** t' has the live relations of workflow wid that t has, and no more task rows of it. */
  ghost predicate Kept(t: Tables, t': Tables, wid: string) {
    Grows(t, t') && (forall n :: Leaving(t'.relations, wid, n) == Leaving(t.relations, wid, n)) &&
    forall k :: |t.tasks| <= k < |t'.tasks| ==> t'.tasks[k].wid != wid
  }

  /** Whatever is saved or deleted during the steps leaves workflow wid as it is in t. */
  ghost predicate Untouched(t: Tables, steps: seq<Step>, wid: string) {
    steps == [] || ((steps[0].Republish? ==> Kept(t, steps[0].tables, wid)) && Untouched(t, steps[1..], wid))
  }

  lemma KeptItself(t: Tables, wid: string)
    ensures Kept(t, t, wid)
  {
  }

  lemma KeptReads(t: Tables, t': Tables, wid: string, n: Node, task: nat, action: Option<Action>, order: seq<Relation>)
    requires Kept(t, t', wid) && Reads(t', wid, n, task, action, order)
    ensures Reads(t, wid, n, task, action, order) && t.tasks[task].kind == t'.tasks[task].kind
  {
    assert task < |t.tasks| && t'.tasks[task] == t.tasks[task].(normal := t'.tasks[task].normal);
  }

  lemma KeptForkless(t: Tables, t': Tables, wid: string)
    requires Kept(t, t', wid) && Forkless(t, wid)
    ensures Forkless(t', wid)
  {
    forall k | 0 <= k < |t'.tasks| && t'.tasks[k].wid == wid && IsLocal(t'.tasks[k].kind)
      ensures |Leaving(t'.relations, wid, Task(t'.tasks[k].id))| <= 1
    {
      assert k < |t.tasks| && t'.tasks[k] == t.tasks[k].(normal := t'.tasks[k].normal);
    }
  }

  // ---- one path ----

  /** The job was read for the visit v. */
  ghost predicate Snapshot(t: Tables, wid: string, job: Job, v: Visit) {
    v == Visit(job.row.task, job.row.input) &&
    exists task: nat :: Reads(t, wid, v.task, task, job.action, job.order) && job.kind == t.tasks[task].kind
  }

  ghost predicate Good(jq: Oracle, t: Tables, wid: string, w: World, i: nat, p: Place)
    requires At(w.store, w.sched, i, p)
  {
    var h := History(w, i);
    if p.InScheduler? then h != [] && Snapshot(t, wid, w.sched.job, h[|h| - 1])
    else Continues(jq, t, wid, h, Heading(w.store, w.sched, i, p))
  }

  ghost predicate OnPath(jq: Oracle, t: Tables, wid: string, w: World, i: nat) {
    Path(jq, t, wid, History(w, i)) &&
    (forall p :: At(w.store, w.sched, i, p) ==> Good(jq, t, wid, w, i, p)) &&
    (Done(w, i) ==> History(w, i) != [] && Continues(jq, t, wid, History(w, i), End))
  }

  /** Instance i runs workflow wid, which is fork-free and still as it is in t, and is on its path. */
  ghost predicate Following(jq: Oracle, t: Tables, wid: string, w: World, i: nat) {
    Lawful(jq, w) && RunsFlow(w, i, wid) && Conserved(w, i) && Forkless(t, wid) && Kept(t, w.tables, wid) &&
    OnPath(jq, t, wid, w, i)
  }

  lemma PathExtends(jq: Oracle, t: Tables, wid: string, h: seq<Visit>, v: Visit)
    requires Path(jq, t, wid, h) && Continues(jq, t, wid, h, v.task)
    ensures Path(jq, t, wid, h + [v])
  {
    forall k | 0 <= k < |h + [v]| ensures Continues(jq, t, wid, (h + [v])[..k], (h + [v])[k].task) {
      if k < |h| { assert (h + [v])[..k] == h[..k]; } else { assert (h + [v])[..k] == h; }
    }
  }

  lemma PlanFollows(jq: Oracle, t: Tables, wid: string, job: Job, v: Visit, n: Node)
    requires Snapshot(t, wid, job, v) && Leads(PlanOf(jq, job), n)
    ensures Follows(jq, t, wid, v, n)
  {
  }

  lemma ClaimSnapshot(jq: Oracle, t: Tables, wid: string, w: World, s: Step)
    requires Enabled(jq, w, s) && s.Claim? && w.store.rows[s.row].wid == wid && Kept(t, w.tables, wid)
    ensures Snapshot(t, wid, Next(jq, w, s).sched.job, Visit(w.store.rows[s.row].task, s.input))
  {
    KeptReads(t, w.tables, wid, w.store.rows[s.row].task, s.task, s.action, s.order);
  }

  lemma ClaimOnPath(jq: Oracle, t: Tables, wid: string, w: World, s: Step, i: nat)
    requires Following(jq, t, wid, w, i) && Enabled(jq, w, s) && s.Claim? && w.store.rows[s.row].inst == i
    requires Conserved(Next(jq, w, s), i)
    ensures OnPath(jq, t, wid, Next(jq, w, s), i)
  {
    var w' := Next(jq, w, s);
    var v := Visit(w.store.rows[s.row].task, s.input);
    assert At(w.store, w.sched, i, InRow(s.row)) && Good(jq, t, wid, w, i, InRow(s.row)) && !Settled(w, i);
    assert Belongs(w.store.rows[s.row], w.insts);
    PathExtends(jq, t, wid, History(w, i), v);
    ClaimSnapshot(jq, t, wid, w, s);
    assert At(w'.store, w'.sched, i, InScheduler);
    forall p | At(w'.store, w'.sched, i, p) ensures Good(jq, t, wid, w', i, p) { assert p == InScheduler; }
  }

  lemma CarriedGood(jq: Oracle, t: Tables, wid: string, w: World, w': World, i: nat, p: Place, q: Place)
    requires Carried(w, w', i, p, q) && Good(jq, t, wid, w, i, q) && History(w', i) == History(w, i)
    ensures Good(jq, t, wid, w', i, p)
  {
  }

  lemma SentGood(jq: Oracle, t: Tables, wid: string, w: World, w': World, s: Step, i: nat, p: Place)
    requires Sends(jq, w, w', s, i, p) && At(w.store, w.sched, i, InScheduler) && Good(jq, t, wid, w, i, InScheduler)
    requires History(w', i) == History(w, i)
    ensures Good(jq, t, wid, w', i, p)
  {
    var h := History(w, i);
    PlanFollows(jq, t, wid, w.sched.job, h[|h| - 1], Heading(w'.store, w'.sched, i, p));
  }

  lemma OwnStepGood(jq: Oracle, t: Tables, wid: string, w: World, s: Step, i: nat, p: Place)
    requires Following(jq, t, wid, w, i) && Enabled(jq, w, s) && (s.StartFlow? ==> i != w.next)
    requires History(Next(jq, w, s), i) == History(w, i) && !(s.Claim? && w.store.rows[s.row].inst == i)
    requires At(Next(jq, w, s).store, Next(jq, w, s).sched, i, p)
    ensures Good(jq, t, wid, Next(jq, w, s), i, p)
  {
    var w' := Next(jq, w, s);
    var q := StepOrigin(jq, w, s, i, p);
    hide Next, Enabled, Lawful, Conserved, Kept, Path, Good, Carried, Sends;
    if Carried(w, w', i, p, q) { CarriedGood(jq, t, wid, w, w', i, p, q); }
    else { SentGood(jq, t, wid, w, w', s, i, p); }
  }

  lemma EndFollows(jq: Oracle, t: Tables, wid: string, w: World, s: Step, i: nat)
    requires At(w.store, w.sched, i, InScheduler) && Good(jq, t, wid, w, i, InScheduler)
    requires Settles(jq, w, s, i) && s.AttemptSucceeds? && PlanOf(jq, w.sched.job).work != Doomed
    ensures History(w, i) != [] && Continues(jq, t, wid, History(w, i), End)
  {
    PlanFollows(jq, t, wid, w.sched.job, History(w, i)[|History(w, i)| - 1], End);
  }

  lemma DoneOnPath(jq: Oracle, t: Tables, wid: string, w: World, s: Step, i: nat)
    requires Following(jq, t, wid, w, i) && Enabled(jq, w, s) && History(Next(jq, w, s), i) == History(w, i)
    ensures Done(Next(jq, w, s), i) ==> History(w, i) != [] && Continues(jq, t, wid, History(w, i), End)
  {
    SettledBefore(jq, w, s, i);
    hide Next, Lawful, Conserved, Kept, Path, Good, Follows;
    if !Done(w, i) && Settles(jq, w, s, i) && s.AttemptSucceeds? {
      assert At(w.store, w.sched, i, InScheduler) && Good(jq, t, wid, w, i, InScheduler);
      EndFollows(jq, t, wid, w, s, i);
    }
  }

  lemma OtherHistory(jq: Oracle, w: World, s: Step, i: nat)
    requires Enabled(jq, w, s) && !(s.Claim? && w.store.rows[s.row].inst == i) && (s.StartFlow? ==> i != w.next)
    ensures History(Next(jq, w, s), i) == History(w, i)
  {
  }

  lemma StepOnPath(jq: Oracle, t: Tables, wid: string, w: World, s: Step, i: nat)
    requires Following(jq, t, wid, w, i) && Enabled(jq, w, s) && Conserved(Next(jq, w, s), i) && (s.StartFlow? ==> i != w.next)
    ensures OnPath(jq, t, wid, Next(jq, w, s), i)
  {
    var w' := Next(jq, w, s);
    if s.Claim? && w.store.rows[s.row].inst == i { ClaimOnPath(jq, t, wid, w, s, i); }
    else {
      OtherHistory(jq, w, s, i);
      DoneOnPath(jq, t, wid, w, s, i);
      forall p | At(w'.store, w'.sched, i, p) ensures Good(jq, t, wid, w', i, p) { OwnStepGood(jq, t, wid, w, s, i, p); }
    }
  }

  lemma TablesKept(jq: Oracle, t: Tables, wid: string, w: World, s: Step)
    requires Enabled(jq, w, s) && Kept(t, w.tables, wid) && (s.Republish? ==> Kept(t, s.tables, wid))
    ensures Kept(t, Next(jq, w, s).tables, wid)
  {
  }

  lemma StepFollowing(jq: Oracle, t: Tables, wid: string, w: World, s: Step, i: nat)
    requires Following(jq, t, wid, w, i) && Enabled(jq, w, s) && (s.Republish? ==> Kept(t, s.tables, wid))
    ensures Following(jq, t, wid, Next(jq, w, s), i)
  {
    KeptForkless(t, w.tables, wid);
    StepLawful(jq, w, s);
    StepConserves(jq, w, s, i, wid);
    FlowKept(jq, w, s, i, wid);
    TablesKept(jq, t, wid, w, s);
    assert i < w.next;
    StepOnPath(jq, t, wid, w, s, i);
  }

  lemma {:induction false} RunFollowing(jq: Oracle, t: Tables, wid: string, w: World, steps: seq<Step>, w': World, i: nat)
    requires Following(jq, t, wid, w, i) && Runs(jq, w, steps, w') && Untouched(t, steps, wid)
    ensures Following(jq, t, wid, w', i)
    decreases |steps|
  {
    if steps != [] {
      StepFollowing(jq, t, wid, w, steps[0], i);
      hide Following;
      RunFollowing(jq, t, wid, Next(jq, w, steps[0]), steps[1..], w', i);
    }
  }

  lemma StartFollowing(jq: Oracle, w: World, relation: nat, input: string)
    requires Lawful(jq, w) && Enabled(jq, w, StartFlow(relation, input)) && Forkless(w.tables, w.tables.relations[relation].wid)
    ensures Following(jq, w.tables, w.tables.relations[relation].wid, Next(jq, w, StartFlow(relation, input)), w.next)
  {
    var i, r, s := w.next, w.tables.relations[relation], StartFlow(relation, input);
    var w' := Next(jq, w, s);
    StepLawful(jq, w, s);
    StartConserved(jq, w, s);
    KeptItself(w.tables, r.wid);
    assert r in w.tables.relations && StartsAt(w.tables, r.wid, r.to);
    assert At(w'.store, w'.sched, i, InQueue(|w.store.sent|));
    forall p | At(w'.store, w'.sched, i, p) ensures Good(jq, w.tables, r.wid, w', i, p) {
      assert p == InQueue(|w.store.sent|);
    }
  }

  /** Start any instance of a fork-free workflow in any reachable state, and go on with any steps that
      leave that workflow alone: the tasks executed for the instance form a path of the relations stored
      when it started, from its START edge, and SUCCESS is written only when that path reached END. */
  lemma ExecutedTasksFormAPath(jq: Oracle, w: World, before: seq<Step>, u: World, relation: nat, input: string, after: seq<Step>, w': World)
    requires Init(w) && Runs(jq, w, before, u) && Enabled(jq, u, StartFlow(relation, input))
    requires Runs(jq, Next(jq, u, StartFlow(relation, input)), after, w')
    requires Forkless(u.tables, u.tables.relations[relation].wid) && Untouched(u.tables, after, u.tables.relations[relation].wid)
    ensures var wid, h := u.tables.relations[relation].wid, History(w', u.next);
      Path(jq, u.tables, wid, h) &&
      (Done(w', u.next) ==> h != [] && Follows(jq, u.tables, wid, h[|h| - 1], End))
  {
    var wid := u.tables.relations[relation].wid;
    InitLawful(jq, w);
    RunLawful(jq, w, before, u);
    StartFollowing(jq, u, relation, input);
    RunFollowing(jq, u.tables, wid, Next(jq, u, StartFlow(relation, input)), after, w', u.next);
  }
}
