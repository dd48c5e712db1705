/** A fork has no join. SUCCESS ends an instance for good exactly when no fork that can be reached has
    two branches of which one can reach END. */
module Joins {
  import opened Model
  import opened Executors
  import opened Protocol
  import opened Invariants
  import opened Records
  import opened Tokens
  import opened Safety
  import opened Origins
  import opened Paths
  import opened Progress

  // ---- the stored graph ----

  /** Some snapshot of the visited task lets its executor send a token on to n. */
  ghost predicate Hop(jq: Oracle, t: Tables, wid: string, v: Visit, n: Node) {
    exists task: nat, action, order ::
      Reads(t, wid, v.task, task, action, order) &&
      Carries(Decide(t.tasks[task].kind, action, order, jq, v.input), n)
  }

  lemma HopsBy(jq: Oracle, t: Tables, wid: string, v: Visit, task: nat, action: Option<Action>, order: seq<Relation>, n: Node)
    requires Reads(t, wid, v.task, task, action, order)
    requires Carries(Decide(t.tasks[task].kind, action, order, jq, v.input), n)
    ensures Hop(jq, t, wid, v, n)
  {
  }

  /** Visiting the tasks of path leads a token from a to b. */
  ghost predicate Trail(jq: Oracle, t: Tables, wid: string, a: Node, path: seq<Visit>, b: Node)
    decreases |path|
  {
    if path == [] then a == b
    else path[0].task == a && exists n :: Hop(jq, t, wid, path[0], n) && Trail(jq, t, wid, n, path[1..], b)
  }

  /** The visited task publishes the successors ns, two or more. */
  ghost predicate Splits(jq: Oracle, t: Tables, wid: string, v: Visit, ns: seq<Node>) {
    |ns| >= 2 && exists task: nat, action, order ::
      Reads(t, wid, v.task, task, action, order) &&
      var p := Decide(t.tasks[task].kind, action, order, jq, v.input);
      p.work != Doomed && p.goal == Advance(ns)
  }

  /** A token can come from START to n. */
  ghost predicate Reached(jq: Oracle, t: Tables, wid: string, n: Node) {
    exists a, path :: StartsAt(t, wid, a) && Trail(jq, t, wid, a, path, n)
  }

  /** A token can come to n from a branch of a fork with two or more that can be reached. */
  ghost predicate Sprung(jq: Oracle, t: Tables, wid: string, n: Node) {
    exists v: Visit, ns: seq<Node>, c: Node, path: seq<Visit> ::
      Reached(jq, t, wid, v.task) && Splits(jq, t, wid, v, ns) && c in ns && Trail(jq, t, wid, c, path, n)
  }

  /** One branch of a reachable fork can complete the instance while another is still under way. */
  ghost predicate Leaks(jq: Oracle, t: Tables, wid: string) {
    Sprung(jq, t, wid, End)
  }

  lemma {:induction false} TrailOn(jq: Oracle, t: Tables, wid: string, a: Node, path: seq<Visit>, v: Visit, n: Node)
    requires Trail(jq, t, wid, a, path, v.task) && Hop(jq, t, wid, v, n)
    ensures Trail(jq, t, wid, a, path + [v], n)
    decreases |path|
  {
    hide Hop;
    if path == [] {
      assert path + [v] == [v] && [v][1..] == [];
      assert Trail(jq, t, wid, n, [v][1..], n);
    } else {
      var m :| Hop(jq, t, wid, path[0], m) && Trail(jq, t, wid, m, path[1..], v.task);
      TrailOn(jq, t, wid, m, path[1..], v, n);
      assert (path + [v])[0] == path[0] && (path + [v])[1..] == path[1..] + [v];
    }
  }

  lemma ReachedOn(jq: Oracle, t: Tables, wid: string, v: Visit, n: Node)
    requires Reached(jq, t, wid, v.task) && Hop(jq, t, wid, v, n)
    ensures Reached(jq, t, wid, n)
  {
    var a, path :| StartsAt(t, wid, a) && Trail(jq, t, wid, a, path, v.task);
    TrailOn(jq, t, wid, a, path, v, n);
  }

  lemma SprungOn(jq: Oracle, t: Tables, wid: string, v: Visit, n: Node)
    requires Sprung(jq, t, wid, v.task) && Hop(jq, t, wid, v, n)
    ensures Sprung(jq, t, wid, n)
  {
    var f: Visit, ns: seq<Node>, c: Node, path: seq<Visit> :| Reached(jq, t, wid, f.task) && Splits(jq, t, wid, f, ns) && c in ns && Trail(jq, t, wid, c, path, v.task);
    TrailOn(jq, t, wid, c, path, v, n);
  }

  lemma SplitSprings(jq: Oracle, t: Tables, wid: string, v: Visit, ns: seq<Node>, n: Node)
    requires Reached(jq, t, wid, v.task) && Splits(jq, t, wid, v, ns) && n in ns
    ensures Sprung(jq, t, wid, n)
  {
    assert Trail(jq, t, wid, n, [], n);
  }

  // ---- without such a fork, SUCCESS is the end ----

  lemma PlanHops(jq: Oracle, t: Tables, wid: string, job: Job, n: Node)
    requires Snapshot(t, wid, job, VisitOf(job)) && Carries(PlanOf(jq, job), n)
    ensures Hop(jq, t, wid, VisitOf(job), n)
  {
  }

  lemma PlanSplits(jq: Oracle, t: Tables, wid: string, job: Job)
    requires Snapshot(t, wid, job, VisitOf(job)) && PlanOf(jq, job).work != Doomed
    requires PlanOf(jq, job).goal.Advance? && |PlanOf(jq, job).goal.successors| >= 2
    ensures Splits(jq, t, wid, VisitOf(job), PlanOf(jq, job).goal.successors)
  {
  }

  /** The token at p heads for a task that can be reached, and is under work with a snapshot of it. */
  ghost predicate Placed(jq: Oracle, t: Tables, wid: string, w: World, i: nat, p: Place)
    requires At(w.store, w.sched, i, p)
  {
    Reached(jq, t, wid, Heading(w.store, w.sched, i, p)) &&
    (p.InScheduler? ==> Snapshot(t, wid, w.sched.job, VisitOf(w.sched.job)))
  }

  ghost predicate AllSprung(jq: Oracle, t: Tables, wid: string, w: World, i: nat) {
    forall p :: At(w.store, w.sched, i, p) ==> Sprung(jq, t, wid, Heading(w.store, w.sched, i, p))
  }

  ghost predicate Rooted(jq: Oracle, t: Tables, wid: string, w: World, i: nat) {
    Lawful(jq, w) && RunsFlow(w, i, wid) && Kept(t, w.tables, wid) &&
    (forall p :: At(w.store, w.sched, i, p) ==> Placed(jq, t, wid, w, i, p)) &&
    (AtMostOne(w.store, w.sched, i) || AllSprung(jq, t, wid, w, i)) &&
    (Done(w, i) ==> Quiet(w.store, w.sched, i))
  }

  lemma OriginPlaced(jq: Oracle, t: Tables, wid: string, w: World, w': World, s: Step, i: nat, p: Place, q: Place)
    requires At(w'.store, w'.sched, i, p) && At(w.store, w.sched, i, q) && !Claims(w, s, i, p, q)
    requires Origin(jq, w, w', s, i, p, q) && Placed(jq, t, wid, w, i, q)
    ensures Placed(jq, t, wid, w', i, p)
    ensures Sprung(jq, t, wid, Heading(w.store, w.sched, i, q)) ==> Sprung(jq, t, wid, Heading(w'.store, w'.sched, i, p))
  {
    if !Carried(w, w', i, p, q) {
      var n := Heading(w'.store, w'.sched, i, p);
      PlanHops(jq, t, wid, w.sched.job, n);
      ReachedOn(jq, t, wid, VisitOf(w.sched.job), n);
      if Sprung(jq, t, wid, w.sched.job.row.task) { SprungOn(jq, t, wid, VisitOf(w.sched.job), n); }
    }
  }

  lemma ClaimPlaced(jq: Oracle, t: Tables, wid: string, w: World, s: Step, i: nat)
    requires Owned(w) && RunsFlow(w, i, wid) && Kept(t, w.tables, wid) && Enabled(jq, w, s) && s.Claim?
    requires w.store.rows[s.row].inst == i && Placed(jq, t, wid, w, i, InRow(s.row))
    ensures var w' := Next(jq, w, s);
      At(w'.store, w'.sched, i, InScheduler) && Placed(jq, t, wid, w', i, InScheduler) &&
      Heading(w'.store, w'.sched, i, InScheduler) == Heading(w.store, w.sched, i, InRow(s.row))
  {
    assert Belongs(w.store.rows[s.row], w.insts);
    ClaimSnapshot(jq, t, wid, w, s);
  }

  /** Every token after the step is placed, and sprung if its origin was. */
  lemma TokenPlaced(jq: Oracle, t: Tables, wid: string, w: World, s: Step, i: nat, p: Place) returns (q: Place)
    requires Rooted(jq, t, wid, w, i) && Enabled(jq, w, s) && (s.StartFlow? ==> i != w.next)
    requires At(Next(jq, w, s).store, Next(jq, w, s).sched, i, p)
    ensures At(w.store, w.sched, i, q) && Placed(jq, t, wid, Next(jq, w, s), i, p)
    ensures Origin(jq, w, Next(jq, w, s), s, i, p, q)
    ensures Sprung(jq, t, wid, Heading(w.store, w.sched, i, q)) ==>
      Sprung(jq, t, wid, Heading(Next(jq, w, s).store, Next(jq, w, s).sched, i, p))
  {
    q := StepOrigin(jq, w, s, i, p);
    assert Placed(jq, t, wid, w, i, q);
    if Claims(w, s, i, p, q) { ClaimPlaced(jq, t, wid, w, s, i); }
    else {
      hide Next, Enabled, Rooted, Origin, Placed, Sprung;
      OriginPlaced(jq, t, wid, w, Next(jq, w, s), s, i, p, q);
    }
  }

  /** When the only token splits, all that come of it spring from that fork. */
  /** A token that the only one was split into. */
  lemma SplitSent(jq: Oracle, w: World, w': World, s: Step, i: nat, p: Place, q: Place)
    requires AtMostOne(w.store, w.sched, i) && At(w.store, w.sched, i, InScheduler) && At(w.store, w.sched, i, q)
    requires At(w'.store, w'.sched, i, p) && Origin(jq, w, w', s, i, p, q) && !s.Claim? && !w'.sched.Working?
    ensures Carries(PlanOf(jq, w.sched.job), Heading(w'.store, w'.sched, i, p))
  {
    assert q == InScheduler;
  }

  lemma SplitSprung(jq: Oracle, t: Tables, wid: string, w: World, s: Step, i: nat)
    requires Rooted(jq, t, wid, w, i) && Enabled(jq, w, s) && s.AttemptSucceeds? && AtMostOne(w.store, w.sched, i)
    requires !Narrow(jq, w.sched, i)
    ensures AllSprung(jq, t, wid, Next(jq, w, s), i)
  {
    var w' := Next(jq, w, s);
    var job := w.sched.job;
    assert At(w.store, w.sched, i, InScheduler) && Placed(jq, t, wid, w, i, InScheduler);
    PlanSplits(jq, t, wid, job);
    assert !w'.sched.Working? && PlanOf(jq, job).goal.Advance?;
    hide Next, Enabled, Decide, Splits, PlanOf, AtMostOne;
    forall p | At(w'.store, w'.sched, i, p) ensures Sprung(jq, t, wid, Heading(w'.store, w'.sched, i, p)) {
      var q := StepOrigin(jq, w, s, i, p);
      SplitSent(jq, w, w', s, i, p, q);
      SplitSprings(jq, t, wid, VisitOf(job), PlanOf(jq, job).goal.successors, Heading(w'.store, w'.sched, i, p));
    }
  }

  lemma StepSprung(jq: Oracle, t: Tables, wid: string, w: World, s: Step, i: nat)
    requires Rooted(jq, t, wid, w, i) && Enabled(jq, w, s) && (s.StartFlow? ==> i != w.next)
    ensures var w' := Next(jq, w, s); AtMostOne(w'.store, w'.sched, i) || AllSprung(jq, t, wid, w', i)
  {
    var w' := Next(jq, w, s);
    if AtMostOne(w.store, w.sched, i) {
      if s.AttemptSucceeds? && !Narrow(jq, w.sched, i) { SplitSprung(jq, t, wid, w, s, i); }
      else { StepPasses(jq, w, s, i); }
    } else {
      forall p | At(w'.store, w'.sched, i, p) ensures Sprung(jq, t, wid, Heading(w'.store, w'.sched, i, p)) {
        var q := TokenPlaced(jq, t, wid, w, s, i, p);
      }
    }
  }

  lemma CompleteLeaks(jq: Oracle, t: Tables, wid: string, job: Job)
    requires Snapshot(t, wid, job, VisitOf(job)) && PlanOf(jq, job).goal.Complete? && PlanOf(jq, job).work != Doomed
    requires Sprung(jq, t, wid, job.row.task)
    ensures Leaks(jq, t, wid)
  {
    hide Snapshot, Hop, Sprung;
    PlanHops(jq, t, wid, job, End);
    SprungOn(jq, t, wid, VisitOf(job), End);
  }

  lemma CompleteSprung(jq: Oracle, t: Tables, wid: string, w: World, s: Step, i: nat)
    requires Rooted(jq, t, wid, w, i) && Enabled(jq, w, s) && s.AttemptSucceeds? && Settles(jq, w, s, i)
    ensures AtMostOne(w.store, w.sched, i) || Leaks(jq, t, wid)
  {
    hide Lawful, Kept, Snapshot, Sprung, Reached, Leaks;
    assert At(w.store, w.sched, i, InScheduler) && Placed(jq, t, wid, w, i, InScheduler);
    if !AtMostOne(w.store, w.sched, i) {
      assert Sprung(jq, t, wid, Heading(w.store, w.sched, i, InScheduler));
      CompleteLeaks(jq, t, wid, w.sched.job);
    }
  }

  lemma StepDone(jq: Oracle, t: Tables, wid: string, w: World, s: Step, i: nat)
    requires Rooted(jq, t, wid, w, i) && Enabled(jq, w, s) && (s.StartFlow? ==> i != w.next) && !Leaks(jq, t, wid)
    ensures Done(Next(jq, w, s), i) ==> Quiet(Next(jq, w, s).store, Next(jq, w, s).sched, i)
  {
    SettledBefore(jq, w, s, i);
    assert i < w.next;
    if Done(w, i) { QuietStaysIdle(jq, w, s, i); }
    else if s.AttemptSucceeds? && Settles(jq, w, s, i) {
      CompleteSprung(jq, t, wid, w, s, i);
      SettlingIsQuiet(jq, w, s, i);
    }
  }

  lemma StepRooted(jq: Oracle, t: Tables, wid: string, w: World, s: Step, i: nat)
    requires Rooted(jq, t, wid, w, i) && Enabled(jq, w, s) && (s.Republish? ==> Kept(t, s.tables, wid)) && !Leaks(jq, t, wid)
    ensures Rooted(jq, t, wid, Next(jq, w, s), i)
  {
    var w' := Next(jq, w, s);
    assert i < w.next;
    StepLawful(jq, w, s);
    FlowKept(jq, w, s, i, wid);
    TablesKept(jq, t, wid, w, s);
    StepSprung(jq, t, wid, w, s, i);
    StepDone(jq, t, wid, w, s, i);
    forall p | At(w'.store, w'.sched, i, p) ensures Placed(jq, t, wid, w', i, p) {
      var q := TokenPlaced(jq, t, wid, w, s, i, p);
    }
  }

  lemma {:induction false} RunRooted(jq: Oracle, t: Tables, wid: string, w: World, steps: seq<Step>, w': World, i: nat)
    requires Rooted(jq, t, wid, w, i) && Runs(jq, w, steps, w') && Untouched(t, steps, wid) && !Leaks(jq, t, wid)
    ensures Rooted(jq, t, wid, w', i)
    decreases |steps|
  {
    if steps != [] {
      StepRooted(jq, t, wid, w, steps[0], i);
      hide Rooted, Leaks, Next, Enabled, Kept;
      RunRooted(jq, t, wid, Next(jq, w, steps[0]), steps[1..], w', i);
    }
  }

  lemma StartRooted(jq: Oracle, w: World, relation: nat, input: string)
    requires Lawful(jq, w) && Enabled(jq, w, StartFlow(relation, input))
    ensures Rooted(jq, w.tables, w.tables.relations[relation].wid, Next(jq, w, StartFlow(relation, input)), w.next)
  {
    var i, r, s := w.next, w.tables.relations[relation], StartFlow(relation, input);
    var w' := Next(jq, w, s);
    StepLawful(jq, w, s);
    StartConserved(jq, w, s);
    KeptItself(w.tables, r.wid);
    assert r in w.tables.relations && StartsAt(w.tables, r.wid, r.to) && Trail(jq, w.tables, r.wid, r.to, [], r.to);
    assert At(w'.store, w'.sched, i, InQueue(|w.store.sent|));
    forall p | At(w'.store, w'.sched, i, p) ensures Placed(jq, w.tables, r.wid, w', i, p) {
      assert p == InQueue(|w.store.sent|);
    }
  }

  /** Start any instance in any reachable state, and go on with any steps that leave its workflow alone.
      If no fork of the workflow leaks, nothing of the instance is left once it is marked SUCCESS. */
  lemma SuccessIsTheEnd(jq: Oracle, w: World, before: seq<Step>, u: World, relation: nat, input: string, after: seq<Step>, w': World)
    requires Init(w) && Runs(jq, w, before, u) && Enabled(jq, u, StartFlow(relation, input))
    requires Runs(jq, Next(jq, u, StartFlow(relation, input)), after, w')
    requires Untouched(u.tables, after, u.tables.relations[relation].wid) && !Leaks(jq, u.tables, u.tables.relations[relation].wid)
    ensures Done(w', u.next) ==> forall p :: !At(w'.store, w'.sched, u.next, p)
  {
    InitLawful(jq, w);
    RunLawful(jq, w, before, u);
    StartRooted(jq, u, relation, input);
    RunRooted(jq, u.tables, u.tables.relations[relation].wid, Next(jq, u, StartFlow(relation, input)), after, w', u.next);
  }

  /** Only a local task with two relations goes on to two tasks. */
  lemma AdvanceIsLocal(kind: TaskType, action: Option<Action>, order: seq<Relation>, jq: Oracle, input: string, ns: seq<Node>)
    requires Decide(kind, action, order, jq, input).goal == Advance(ns) && |ns| >= 2
    ensures IsLocal(kind) && |order| >= 2
  {
  }

  lemma ForklessNeverSplits(jq: Oracle, t: Tables, wid: string, v: Visit, ns: seq<Node>)
    requires Forkless(t, wid)
    ensures !Splits(jq, t, wid, v, ns)
  {
    if |ns| >= 2 {
      forall task: nat, action, order | Reads(t, wid, v.task, task, action, order)
        ensures Decide(t.tasks[task].kind, action, order, jq, v.input).goal != Advance(ns)
      {
        hide Decide, Filter;
        if Decide(t.tasks[task].kind, action, order, jq, v.input).goal == Advance(ns) {
          AdvanceIsLocal(t.tasks[task].kind, action, order, jq, v.input, ns);
          ReorderedMembers(order, Leaving(t.relations, wid, v.task));
        }
      }
    }
  }

  /** A fork-free workflow does not leak. */
  lemma ForklessNeverLeaks(jq: Oracle, t: Tables, wid: string)
    requires Forkless(t, wid)
    ensures !Leaks(jq, t, wid)
  {
    forall v, ns ensures !Splits(jq, t, wid, v, ns) { ForklessNeverSplits(jq, t, wid, v, ns); }
  }
}
