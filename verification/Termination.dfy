/** Bounded work: over an acyclic workflow, forks included, an instance executes at most as many
    tasks as its start task weighs, and between starts every run stops. */
module Termination {
  import opened Model
  import opened Executors
  import opened Protocol
  import opened Invariants
  import opened Records
  import opened Paths
  import opened Weights

  predicate Weightless(x: Weighing, n: Node) {
    x(n) == 0
  }

  /** Only recorded instances weigh anything, and the workflow of each of them is balanced. */
  ghost predicate Bears(t: Tables, insts: map<nat, Instance>, wt: Burden) {
    forall i :: (forall n :: Weightless(wt(i), n)) || (i in insts && Balanced(t, insts[i].wid, wt(i)))
  }

  lemma {:induction false} NoLoad(order: seq<Relation>, x: Weighing)
    requires forall n :: Weightless(x, n)
    ensures Load(order, x) == 0
  {
    if order != [] {
      assert Weightless(x, order[0].to);
      NoLoad(order[1..], x);
    }
  }

  /** A claim takes the claimed task's own share away. */
  lemma ClaimCost(jq: Oracle, w: World, s: Step, wt: Burden)
    requires Owned(w) && Enabled(jq, w, s) && s.Claim? && Bears(w.tables, w.insts, wt)
    ensures Potential(Next(jq, w, s), wt) <= Potential(w, wt)
    ensures wt(w.store.rows[s.row].inst)(w.store.rows[s.row].task) > 0 ==> Potential(Next(jq, w, s), wt) < Potential(w, wt)
  {
    hide StoreCost, Load;
    var r := w.store.rows[s.row];
    assert Belongs(r, w.insts) && r.task != End;
    MarkCost(w.store, s.row, Process, wt);
    LoadReordered(s.order, Leaving(w.tables.relations, r.wid, r.task), wt(r.inst));
    if forall n :: Weightless(wt(r.inst), n) {
      assert Weightless(wt(r.inst), r.task);
      NoLoad(s.order, wt(r.inst));
    }
  }

  /** No step but a start adds weight, and a claim takes the claimed task's own share away. */
  lemma StepCost(jq: Oracle, w: World, s: Step, wt: Burden)
    requires Lawful(jq, w) && Enabled(jq, w, s) && Bears(w.tables, w.insts, wt) && !s.StartFlow?
    ensures Potential(Next(jq, w, s), wt) <= Potential(w, wt)
    ensures s.Claim? && wt(w.store.rows[s.row].inst)(w.store.rows[s.row].task) > 0 ==>
      Potential(Next(jq, w, s), wt) < Potential(w, wt)
  {
    Uncalled(jq, w);
    hide StoreCost, Load, Bears, Inv;
    match s
    case Deliver(written) => TakeCost(w.store, written, wt);
    case Callback(event, wid, found) => WakeCost(w.store, event, wid, found, wt);
    case Claim(_, _, _, _, _) => ClaimCost(jq, w, s, wt);
    case ParkNext => ParkedCost(w, PlanOf(jq, w.sched.job).goal.successor, wt);
    case AttemptFails(published) => FailingCost(w, PlanOf(jq, w.sched.job), published, wt);
    case AttemptSucceeds(output) => AchievedCost(jq, w, output, wt);
    case Finish => MarkCost(w.store, w.sched.id, FinalStatus(w.store.rows[w.sched.id], w.sched.ok), wt);
    case Republish(_, _, gone) => ForgetCost(w.store, gone, wt);
  }

  // ---- how many tasks an instance executes ----

  /** Only instance i weighs. */
  function Just(i: nat, x: Weighing): Burden {
    (j: nat) => if j == i then x else (n: Node) => 0
  }

  lemma JustBears(t: Tables, insts: map<nat, Instance>, i: nat, x: Weighing)
    requires i in insts && Balanced(t, insts[i].wid, x)
    ensures Bears(t, insts, Just(i, x))
  {
  }

  lemma StepHistory(jq: Oracle, w: World, s: Step, i: nat)
    requires Enabled(jq, w, s) && i < w.next
    ensures |History(Next(jq, w, s), i)| == |History(w, i)| + if s.Claim? && w.store.rows[s.row].inst == i then 1 else 0
  {
  }

  lemma ClaimedTask(jq: Oracle, w: World, s: Step, x: Weighing)
    requires Owned(w) && Enabled(jq, w, s) && s.Claim?
    requires Balanced(w.tables, w.insts[w.store.rows[s.row].inst].wid, x)
    ensures x(w.store.rows[s.row].task) > 0
  {
  }

  lemma StepExecutes(jq: Oracle, w: World, s: Step, i: nat, x: Weighing)
    requires Lawful(jq, w) && Enabled(jq, w, s) && i in w.insts && Balanced(w.tables, w.insts[i].wid, x)
    ensures |History(Next(jq, w, s), i)| + Potential(Next(jq, w, s), Just(i, x)) <= |History(w, i)| + Potential(w, Just(i, x))
  {
    StepHistory(jq, w, s, i);
    JustBears(w.tables, w.insts, i, x);
    Uncalled(jq, w);
    hide Inv, Potential, Balanced, Bears, Next;
    if s.StartFlow? {
      StartAddsNothing(jq, w, s, i, x);
    } else {
      StepCost(jq, w, s, Just(i, x));
      if s.Claim? && w.store.rows[s.row].inst == i { ClaimedTask(jq, w, s, x); }
    }
  }

  lemma StartAddsNothing(jq: Oracle, w: World, s: Step, i: nat, x: Weighing)
    requires Owned(w) && Enabled(jq, w, s) && s.StartFlow? && i in w.insts && w.store.head <= |w.store.sent|
    ensures Potential(Next(jq, w, s), Just(i, x)) == Potential(w, Just(i, x))
  {
    StartedCost(w, w.tables.relations[s.relation], s.input, Just(i, x));
  }

  /** Whatever is saved during the steps keeps workflow wid balanced. */
  ghost predicate StaysBalanced(steps: seq<Step>, wid: string, x: Weighing) {
    steps == [] || ((steps[0].Republish? ==> Balanced(steps[0].tables, wid, x)) && StaysBalanced(steps[1..], wid, x))
  }

  /** Steps that leave the workflow alone keep it balanced. */
  lemma {:induction false} UntouchedStaysBalanced(t: Tables, steps: seq<Step>, wid: string, x: Weighing)
    requires Untouched(t, steps, wid) && Balanced(t, wid, x)
    ensures StaysBalanced(steps, wid, x)
  {
    if steps != [] { UntouchedStaysBalanced(t, steps[1..], wid, x); }
  }

  lemma TablesAfter(jq: Oracle, w: World, s: Step, wid: string, x: Weighing)
    requires Enabled(jq, w, s) && Balanced(w.tables, wid, x) && (s.Republish? ==> Balanced(s.tables, wid, x))
    ensures Balanced(Next(jq, w, s).tables, wid, x)
  {
    hide Balanced;
  }

  lemma {:induction false} RunExecutes(jq: Oracle, w: World, steps: seq<Step>, w': World, i: nat, wid: string, x: Weighing)
    requires Lawful(jq, w) && Runs(jq, w, steps, w') && RunsFlow(w, i, wid)
    requires Balanced(w.tables, wid, x) && StaysBalanced(steps, wid, x)
    ensures |History(w', i)| + Potential(w', Just(i, x)) <= |History(w, i)| + Potential(w, Just(i, x))
    decreases |steps|
  {
    if steps != [] {
      var s, v := steps[0], Next(jq, w, steps[0]);
      StepLawful(jq, w, s);
      FlowKept(jq, w, s, i, wid);
      StepExecutes(jq, w, s, i, x);
      TablesAfter(jq, w, s, wid, x);
      hide Lawful, Balanced, Potential, Next, Enabled;
      RunExecutes(jq, v, steps[1..], w', i, wid, x);
    }
  }

  lemma NothingYet(w: World, x: Weighing)
    requires Within(w.store, w.next) && (w.sched.Working? ==> w.sched.job.row.inst < w.next)
    ensures Potential(w, Just(w.next, x)) == 0
  {
    var wt := Just(w.next, x);
    ZeroSum(QueueCosts(w.store.sent, w.store.head, wt));
    ZeroSum(RowCosts(w.store.rows, wt));
    ZeroSum(EventCosts(w.store.events, w.store.called, wt));
    if w.sched.Working? { NoLoad(w.sched.job.order, wt(w.sched.job.row.inst)); }
  }

  lemma StartWeighs(jq: Oracle, w: World, relation: nat, input: string, x: Weighing)
    requires Lawful(jq, w) && Enabled(jq, w, StartFlow(relation, input))
    ensures var v := Next(jq, w, StartFlow(relation, input));
      Potential(v, Just(w.next, x)) == x(w.tables.relations[relation].to) && History(v, w.next) == [] &&
      RunsFlow(v, w.next, w.tables.relations[relation].wid) && v.tables == w.tables
  {
    NothingYet(w, x);
    hide Potential;
    StartedCost(w, w.tables.relations[relation], input, Just(w.next, x));
  }

  /** From its start on, an instance executes at most as many tasks as its start task weighs, whatever
      the interleaving, the failures and the forks; only its own workflow must be balanced and stay so. */
  lemma WorkIsBounded(jq: Oracle, w: World, before: seq<Step>, u: World, relation: nat, input: string, after: seq<Step>, w': World, x: Weighing)
    requires Init(w) && Runs(jq, w, before, u) && Enabled(jq, u, StartFlow(relation, input))
    requires Runs(jq, Next(jq, u, StartFlow(relation, input)), after, w')
    requires Balanced(u.tables, u.tables.relations[relation].wid, x) && StaysBalanced(after, u.tables.relations[relation].wid, x)
    ensures |History(w', u.next)| <= x(u.tables.relations[relation].to)
  {
    InitLawful(jq, w);
    RunLawful(jq, w, before, u);
    StartWeighs(jq, u, relation, input, x);
    StepLawful(jq, u, StartFlow(relation, input));
    hide Lawful, Balanced, Potential, Next, Enabled;
    RunExecutes(jq, Next(jq, u, StartFlow(relation, input)), after, w', u.next, u.tables.relations[relation].wid, x);
  }

  // ---- every run stops ----

  /** How far the scheduler is from being idle. */
  function Duties(s: Scheduler): nat {
    match s
    case Idle => 0
    case Ended(_, _) => 1
    case Working(_, _, attempt, parked) =>
      if attempt > MAX_ATTEMPTS then 2 else 2 + 2 * (MAX_ATTEMPTS - attempt) + if parked.None? then 1 else 0
  }

  lemma CalledFew(called: set<nat>, n: nat)
    requires forall k :: k in called ==> k < n
    ensures |called| <= n
  {
    if n == 0 { assert called == {}; }
    else {
      var rest := called - {n - 1};
      CalledFew(rest, n - 1);
      if n - 1 in called { assert called == rest + {n - 1}; } else { assert called == rest; }
    }
  }

  /** Messages and events nobody has taken yet. */
  function Traffic(b: Store): int {
    2 * (|b.events| - |b.called|) + |b.sent| - b.head
  }

  /** The measure of m is below that of w: less weight, or as much and less to do for the
      scheduler, or as much of both and less traffic. */
  predicate Lower(m: World, w: World, wt: Burden) {
    Potential(m, wt) < Potential(w, wt) ||
    (Potential(m, wt) == Potential(w, wt) &&
     (Duties(m.sched) < Duties(w.sched) || (Duties(m.sched) == Duties(w.sched) && 0 <= Traffic(m.store) < Traffic(w.store))))
  }

  lemma TrafficIsNatural(b: Store, next: nat)
    requires Within(b, next)
    ensures Traffic(b) >= 0
  {
    CalledFew(b.called, |b.events|);
  }

  lemma SchedulerMoves(jq: Oracle, w: World, s: Step)
    requires Inv(jq, w) && Enabled(jq, w, s) && !s.StartFlow? && !s.Republish? && !s.Claim?
    ensures if s.Deliver? || s.Callback? then Next(jq, w, s).sched == w.sched else Duties(Next(jq, w, s).sched) < Duties(w.sched)
  {
  }

  lemma TakeTraffic(b: Store, written: bool)
    requires b.head < |b.sent|
    ensures Traffic(Take(b, written)) == Traffic(b) - 1
  {
  }

  lemma WakeTraffic(b: Store, event: nat, found: Option<nat>)
    requires event !in b.called && (found.Some? ==> found.value < |b.rows|)
    ensures Traffic(Wake(b, event, found)) < Traffic(b)
  {
    assert |b.called + {event}| == |b.called| + 1;
  }

  lemma OutsideTraffic(jq: Oracle, w: World, s: Step)
    requires Enabled(jq, w, s) && (s.Deliver? || s.Callback?)
    ensures Traffic(Next(jq, w, s).store) < Traffic(w.store)
  {
    hide Traffic;
    if s.Deliver? { TakeTraffic(w.store, s.written); } else { WakeTraffic(w.store, s.event, s.found); }
  }

  /** Every recorded instance weighs at least one for each task of its workflow. */
  ghost predicate Loaded(t: Tables, insts: map<nat, Instance>, wt: Burden) {
    Bears(t, insts, wt) && forall i :: i in insts ==> Balanced(t, insts[i].wid, wt(i))
  }

  /** Every step except a start or a re-save lowers the measure. */
  lemma StepLowers(jq: Oracle, w: World, s: Step, wt: Burden)
    requires Lawful(jq, w) && Enabled(jq, w, s) && Loaded(w.tables, w.insts, wt) && !s.StartFlow? && !s.Republish?
    ensures Lower(Next(jq, w, s), w, wt)
  {
    StepCost(jq, w, s, wt);
    if s.Claim? {
      assert Belongs(w.store.rows[s.row], w.insts);
      ClaimedTask(jq, w, s, wt(w.store.rows[s.row].inst));
    } else {
      SchedulerMoves(jq, w, s);
    }
    if s.Deliver? || s.Callback? {
      OutsideTraffic(jq, w, s);
      StepLawful(jq, w, s);
      TrafficIsNatural(Next(jq, w, s).store, Next(jq, w, s).next);
    }
  }

  lemma SameRecords(jq: Oracle, w: World, s: Step)
    requires Owned(w) && Enabled(jq, w, s) && !s.StartFlow? && !s.Republish?
    ensures var v := Next(jq, w, s); v.tables == w.tables && v.insts.Keys == w.insts.Keys
    ensures forall i :: i in w.insts ==> Next(jq, w, s).insts[i].wid == w.insts[i].wid
  {
  }

  lemma StepLoaded(jq: Oracle, w: World, s: Step, wt: Burden)
    requires Owned(w) && Enabled(jq, w, s) && !s.StartFlow? && !s.Republish? && Loaded(w.tables, w.insts, wt)
    ensures Loaded(Next(jq, w, s).tables, Next(jq, w, s).insts, wt)
  {
    SameRecords(jq, w, s);
    hide Next, Enabled, Balanced;
  }

  /** run and step describe an execution that never ends. */
  ghost predicate Endless(jq: Oracle, run: nat -> World, step: nat -> Step) {
    forall k: nat :: Enabled(jq, run(k), step(k)) && run(k + 1) == Next(jq, run(k), step(k))
  }

  predicate Edit(s: Step) { s.StartFlow? || s.Republish? }

  lemma {:induction false} Descent(jq: Oracle, run: nat -> World, step: nat -> Step, k: nat, wt: Burden)
    requires Endless(jq, run, step) && Lawful(jq, run(k)) && Loaded(run(k).tables, run(k).insts, wt)
    ensures exists n: nat :: n >= k && Edit(step(n))
    decreases Potential(run(k), wt), Duties(run(k).sched), Traffic(run(k).store)
  {
    if !Edit(step(k)) {
      assert Enabled(jq, run(k), step(k)) && run(k + 1) == Next(jq, run(k), step(k));
      StepLowers(jq, run(k), step(k), wt);
      StepLawful(jq, run(k), step(k));
      StepLoaded(jq, run(k), step(k), wt);
      LawfulTraffic(jq, run(k));
      hide Lawful, Loaded, Next, Enabled, Potential;
      Descent(jq, run, step, k + 1, wt);
    }
  }

  lemma LawfulTraffic(jq: Oracle, w: World)
    requires Lawful(jq, w)
    ensures Traffic(w.store) >= 0
  {
    TrafficIsNatural(w.store, w.next);
  }

  lemma {:induction false} EndlessLawful(jq: Oracle, run: nat -> World, step: nat -> Step, k: nat)
    requires Endless(jq, run, step) && Init(run(0))
    ensures Lawful(jq, run(k))
  {
    if k == 0 { InitLawful(jq, run(0)); }
    else {
      EndlessLawful(jq, run, step, k - 1);
      assert Enabled(jq, run(k - 1), step(k - 1)) && run(k - 1 + 1) == Next(jq, run(k - 1), step(k - 1));
      StepLawful(jq, run(k - 1), step(k - 1));
    }
  }

  /** The weights of the recorded instances, from a rank for each workflow. */
  function Ranked(t: Tables, insts: map<nat, Instance>, rank: string -> Weighing): Burden {
    (i: nat) => RankedFor(t, insts, rank, i)
  }

  function RankedFor(t: Tables, insts: map<nat, Instance>, rank: string -> Weighing, i: nat): Weighing {
    if i in insts then WeighingOf(Filter(Of(insts[i].wid), t.relations), rank(insts[i].wid)) else (n: Node) => 0
  }

  lemma RankedLoads(t: Tables, insts: map<nat, Instance>, rank: string -> Weighing)
    requires forall i :: i in insts ==> Acyclic(t, insts[i].wid, rank(insts[i].wid))
    ensures Loaded(t, insts, Ranked(t, insts, rank))
  {
    var wt := Ranked(t, insts, rank);
    forall i | i in insts ensures Balanced(t, insts[i].wid, wt(i)) {
      AcyclicIsBalanced(t, insts[i].wid, rank(insts[i].wid));
    }
  }

  /** An execution that never ends starts or saves workflows for ever: from every point on at which
      the workflows that have an instance are acyclic, another start, save or delete comes. */
  lemma RunsStop(jq: Oracle, run: nat -> World, step: nat -> Step, k: nat, rank: string -> Weighing)
    requires Endless(jq, run, step) && Init(run(0))
    requires forall i :: i in run(k).insts ==> Acyclic(run(k).tables, run(k).insts[i].wid, rank(run(k).insts[i].wid))
    ensures exists n: nat :: n >= k && Edit(step(n))
  {
    EndlessLawful(jq, run, step, k);
    RankedLoads(run(k).tables, run(k).insts, rank);
    Descent(jq, run, step, k, Ranked(run(k).tables, run(k).insts, rank));
  }
}
