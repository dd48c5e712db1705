/** Token conservation: an instance of a fork-free workflow is in one place at a time. */
module Tokens {
  import opened Model
  import opened Executors
  import opened Protocol
  import opened Invariants
  import opened Records

  /** Where a live token of a workflow instance can be. */
  datatype Place = InQueue(k: nat) | InRow(k: nat) | InScheduler | InEvent(k: nat)

  /** A queued WAIT message, a WAIT row, the task under work, or an event that names a parked successor. */
  predicate At(b: Store, s: Scheduler, i: nat, p: Place) {
    match p
    case InQueue(k) => b.head <= k < |b.sent| && b.sent[k].row.inst == i && b.sent[k].row.status == Wait
    case InRow(k) => k < |b.rows| && b.rows[k].inst == i && b.rows[k].status == Wait
    case InScheduler => s.Working? && s.job.row.inst == i
    case InEvent(k) => k < |b.events| && k !in b.called && b.events[k].inst == i && b.events[k].parks != End
  }

  ghost predicate AtMostOne(b: Store, s: Scheduler, i: nat) {
    forall p, q :: At(b, s, i, p) && At(b, s, i, q) ==> p == q
  }

  ghost predicate Quiet(b: Store, s: Scheduler, i: nat) {
    forall p :: !At(b, s, i, p)
  }

  /** No local task of the workflow has more than one relation, so no attempt queues two successors. */
  predicate Forkless(t: Tables, wid: string) {
    forall k :: 0 <= k < |t.tasks| && t.tasks[k].wid == wid && IsLocal(t.tasks[k].kind) ==>
      |Leaving(t.relations, wid, Task(t.tasks[k].id))| <= 1
  }

  predicate Lean(s: Scheduler, i: nat) {
    s.Working? && s.job.row.inst == i && IsLocal(s.job.kind) ==> |s.job.order| <= 1
  }

  /** Some task instance of i has failed, or is about to be written as failed. */
  predicate Dead(b: Store, s: Scheduler, i: nat) {
    (exists k :: 0 <= k < |b.rows| && b.rows[k].inst == i && b.rows[k].status == Failed) ||
    (s.Ended? && !s.ok && s.id < |b.rows| && b.rows[s.id].inst == i && b.rows[s.id].status != Invalid)
  }

  /** The attempt under way for i queues at most one successor. */
  predicate Narrow(jq: Oracle, s: Scheduler, i: nat) {
    s.Working? && s.job.row.inst == i && PlanOf(jq, s.job).goal.Advance? ==> |PlanOf(jq, s.job).goal.successors| <= 1
  }

  lemma LeanIsNarrow(jq: Oracle, s: Scheduler, i: nat)
    requires Lean(s, i)
    ensures Narrow(jq, s, i)
  {
  }

  lemma TakeTokens(b: Store, s: Scheduler, written: bool, i: nat)
    requires Mail(b) && b.head < |b.sent|
    ensures AtMostOne(b, s, i) ==> AtMostOne(Take(b, written), s, i)
    ensures Quiet(b, s, i) ==> Quiet(Take(b, written), s, i)
  {
    var c := Take(b, written);
    var m := b.sent[b.head];
    var from := (p: Place) =>
      if written && p == InRow(if m.id == 0 then |b.rows| else m.id - 1) then InQueue(b.head) else p;
    forall p | At(c, s, i, p) ensures At(b, s, i, from(p)) {}
    assert forall p :: At(c, s, i, p) ==> p != InQueue(b.head);
  }

  lemma WakeTokens(b: Store, s: Scheduler, event: nat, wid: string, found: Option<nat>, i: nat)
    requires Calls(b) && event < |b.events| && event !in b.called && b.head <= |b.sent|
    requires found.Some? ==> found.value < |b.rows| && Wakes(b.rows[found.value], b.events[event], wid)
    ensures AtMostOne(b, s, i) ==> AtMostOne(Wake(b, event, found), s, i)
    ensures Quiet(b, s, i) ==> Quiet(Wake(b, event, found), s, i)
  {
    var c := Wake(b, event, found);
    if found.Some? { WakeFinds(b, event, wid, found.value); }
    var from := (p: Place) => if p == InQueue(|b.sent|) then InEvent(event) else p;
    forall p | At(c, s, i, p) ensures At(b, s, i, from(p)) {}
    assert forall p :: At(c, s, i, p) ==> p != InEvent(event);
  }

  lemma ClaimTokens(b: Store, row: nat, job: Job, i: nat)
    requires row < |b.rows| && b.rows[row].status == Wait && job.row.inst == b.rows[row].inst
    ensures AtMostOne(b, Idle, i) ==> AtMostOne(Mark(b, row, Process), Working(row, job, 1, None), i)
    ensures Quiet(b, Idle, i) ==> Quiet(Mark(b, row, Process), Working(row, job, 1, None), i)
  {
    var c, s := Mark(b, row, Process), Working(row, job, 1, None);
    var from := (p: Place) => if p == InScheduler then InRow(row) else p;
    forall p | At(c, s, i, p) ensures At(b, Idle, i, from(p)) {}
    assert forall p :: At(c, s, i, p) ==> p != InRow(row);
  }

  /** What an attempt that ends can add: at most one new token, for the instance under work. */
  lemma EndTokens(b: Store, s: Scheduler, ok: bool, c: Store, added: Place, i: nat)
    requires s.Working? && c.rows == b.rows && c.head == b.head <= |b.sent| && c.called == b.called
    requires b.sent <= c.sent && b.events <= c.events && (added.InQueue? || added.InEvent?)
    requires forall k :: |b.sent| <= k < |c.sent| ==> InQueue(k) == added && c.sent[k].row.inst == s.job.row.inst
    requires forall k :: |b.events| <= k < |c.events| && c.events[k].parks != End ==>
      InEvent(k) == added && c.events[k].inst == s.job.row.inst
    requires added.k >= if added.InQueue? then |b.sent| else |b.events|
    ensures AtMostOne(b, s, i) ==> AtMostOne(c, Ended(s.id, ok), i)
    ensures Quiet(b, s, i) ==> Quiet(c, Ended(s.id, ok), i)
  {
    var from := (p: Place) => if p == added then InScheduler else p;
    forall p | At(c, Ended(s.id, ok), i, p) ensures At(b, s, i, from(p)) {}
    assert forall p :: At(c, Ended(s.id, ok), i, p) ==> p != InScheduler;
  }

  /** Steps that post no WAIT message and publish no parking event add no token. */
  lemma SameTokens(b: Store, s: Scheduler, c: Store, s': Scheduler, i: nat)
    requires |c.rows| == |b.rows| && c.head == b.head && c.called == b.called
    requires forall k :: 0 <= k < |c.rows| && c.rows[k].status == Wait ==> c.rows[k] == b.rows[k]
    requires b.sent <= c.sent && b.events <= c.events
    requires forall k :: |b.sent| <= k < |c.sent| ==> c.sent[k].row.status != Wait || c.sent[k].row.inst != i
    requires forall k :: |b.events| <= k < |c.events| ==> c.events[k].parks == End || c.events[k].inst != i
    requires s'.Working? ==> s.Working? && s'.job == s.job
    ensures AtMostOne(b, s, i) ==> AtMostOne(c, s', i)
    ensures Quiet(b, s, i) ==> Quiet(c, s', i)
  {
    forall p | At(c, s', i, p) ensures At(b, s, i, p) {}
  }

  /** An attempt that ends without adding a token leaves its instance with none. */
  lemma LastToken(b: Store, s: Scheduler, ok: bool, c: Store)
    requires s.Working? && AtMostOne(b, s, s.job.row.inst)
    requires c.rows == b.rows && c.head == b.head <= |b.sent| && c.called == b.called && c.sent == b.sent
    requires b.events <= c.events && forall k :: |b.events| <= k < |c.events| ==> c.events[k].parks == End
    ensures Quiet(c, Ended(s.id, ok), s.job.row.inst)
  {
    var i := s.job.row.inst;
    assert At(b, s, i, InScheduler);
    forall p ensures !At(c, Ended(s.id, ok), i, p) {
      assert At(c, Ended(s.id, ok), i, p) ==> At(b, s, i, p) && p != InScheduler;
    }
  }

  lemma AnnounceAdds(b: Store, r: Row, work: Work, next: nat)
    ensures var c := Announce(b, r, work, next);
      b == c.(events := b.events) && b.events <= c.events &&
      forall k :: |b.events| <= k < |c.events| ==> c.events[k].parks == End
  {
  }

  /** One step keeps the number of tokens of instance i at most one, and an absent one absent. */
  ghost predicate Passes(w: World, w': World, i: nat) {
    (AtMostOne(w.store, w.sched, i) ==> AtMostOne(w'.store, w'.sched, i)) &&
    (Quiet(w.store, w.sched, i) ==> Quiet(w'.store, w'.sched, i))
  }

  lemma AchievedPasses(jq: Oracle, w: World, output: string, i: nat)
    requires Inv(jq, w) && Narrow(jq, w.sched, i)
    requires w.sched.Working? && CanSucceed(PlanOf(jq, w.sched.job), w.sched.parked)
    ensures Passes(w, Achieved(w, PlanOf(jq, w.sched.job), output), i)
  {
    var b, r, p := w.store, w.sched.job.row, PlanOf(jq, w.sched.job);
    var c := Achieved(w, p, output).store;
    PlanShape(jq, w.sched.job);
    hide AtMostOne, Quiet, Decide;
    AnnounceAdds(b, r, p.work, w.next);
    if r.inst != i { SameTokens(b, w.sched, c, Ended(w.sched.id, true), i); }
    else {
      EndTokens(b, w.sched, true, c, if p.goal.Park? then InEvent(|b.events|) else InQueue(|b.sent|), i);
    }
  }

  lemma FailingPasses(jq: Oracle, w: World, published: bool, i: nat)
    requires Inv(jq, w) && w.sched.Working? && CanFail(PlanOf(jq, w.sched.job), w.sched.parked, published)
    ensures Passes(w, Failing(w, PlanOf(jq, w.sched.job), published), i)
  {
    var p := PlanOf(jq, w.sched.job);
    AnnounceAdds(w.store, w.sched.job.row, p.work, w.next);
    SameTokens(w.store, w.sched, Failing(w, p, published).store, Retry(w.sched), i);
  }

  lemma StartPasses(w: World, r: Relation, input: string, i: nat)
    requires Within(w.store, w.next)
    ensures i != w.next ==> Passes(w, Started(w, r, input), i)
    ensures (w.sched.Working? ==> w.sched.job.row.inst < w.next) ==>
      AtMostOne(Started(w, r, input).store, w.sched, w.next)
  {
    if i != w.next { SameTokens(w.store, w.sched, Started(w, r, input).store, w.sched, i); }
    forall p | (w.sched.Working? ==> w.sched.job.row.inst < w.next) && At(Started(w, r, input).store, w.sched, w.next, p)
      ensures p == InQueue(|w.store.sent|)
    {}
  }

  lemma StepPasses(jq: Oracle, w: World, s: Step, i: nat)
    requires Inv(jq, w) && Enabled(jq, w, s) && (s.StartFlow? ==> i != w.next) && (s.AttemptSucceeds? ==> Narrow(jq, w.sched, i))
    ensures Passes(w, Next(jq, w, s), i)
  {
    match s
    case StartFlow(relation, input) => StartPasses(w, w.tables.relations[relation], input, i);
    case Deliver(written) => TakeTokens(w.store, w.sched, written, i);
    case Callback(event, wid, found) => WakeTokens(w.store, w.sched, event, wid, found, i);
    case Claim(row, task, action, order, input) =>
      var r := w.store.rows[row].(status := Process, input := input);
      ClaimTokens(w.store, row, Job(r, w.tables.tasks[task].kind, action, order), i);
    case ParkNext => SameTokens(w.store, w.sched, Next(jq, w, s).store, Next(jq, w, s).sched, i);
    case AttemptFails(published) => FailingPasses(jq, w, published, i);
    case AttemptSucceeds(output) => AchievedPasses(jq, w, output, i);
    case Finish => SameTokens(w.store, w.sched, Next(jq, w, s).store, Idle, i);
    case Republish(t, next, gone) => SameTokens(w.store, w.sched, Forget(w.store, gone), w.sched, i);
  }

  // ---- settled instances ----

  predicate Done(w: World, i: nat) {
    i in w.insts && w.insts[i].status == Succeeded
  }

  predicate Settled(w: World, i: nat) {
    Done(w, i) || Dead(w.store, w.sched, i)
  }

  /** The instance has at most one live token and, once it succeeded or failed, none; it never does both. */
  ghost predicate Conserved(w: World, i: nat) {
    Lean(w.sched, i) && AtMostOne(w.store, w.sched, i) &&
    (Settled(w, i) ==> Quiet(w.store, w.sched, i)) && !(Dead(w.store, w.sched, i) && Done(w, i))
  }

  /** The step ends the work on instance i by completing it or by its last failed attempt. */
  predicate Settles(jq: Oracle, w: World, s: Step, i: nat) {
    w.sched.Working? && w.sched.job.row.inst == i &&
    (if s.AttemptSucceeds? then PlanOf(jq, w.sched.job).goal.Complete? else s.AttemptFails? && w.sched.attempt >= MAX_ATTEMPTS)
  }

  lemma TakeDead(b: Store, s: Scheduler, written: bool, i: nat)
    requires Mail(b) && b.head < |b.sent| && (s.Ended? ==> s.id < |b.rows| && Held(b, s.id, b.rows[s.id].tiid))
    ensures Dead(Take(b, written), s, i) ==> Dead(b, s, i)
  {
    var c := Take(b, written);
    if s.Ended? { assert b.sent[b.head].row.tiid != b.rows[s.id].tiid; }
    if k: nat :| k < |c.rows| && c.rows[k].inst == i && c.rows[k].status == Failed {
      assert k < |b.rows| && c.rows[k] == b.rows[k];
    }
  }

  lemma FinishDead(b: Store, row: nat, ok: bool, i: nat)
    requires row < |b.rows| && Dead(Mark(b, row, FinalStatus(b.rows[row], ok)), Idle, i)
    ensures Dead(b, Ended(row, ok), i)
  {
    var c := Mark(b, row, FinalStatus(b.rows[row], ok));
    var k: nat :| k < |c.rows| && c.rows[k].inst == i && c.rows[k].status == Failed;
    assert k != row ==> b.rows[k] == c.rows[k];
  }

  lemma ClaimDead(b: Store, row: nat, job: Job, i: nat)
    requires row < |b.rows| && Dead(Mark(b, row, Process), Working(row, job, 1, None), i)
    ensures Dead(b, Idle, i)
  {
    var c := Mark(b, row, Process);
    var k: nat :| k < |c.rows| && c.rows[k].inst == i && c.rows[k].status == Failed;
    assert k != row && b.rows[k] == c.rows[k];
  }

  lemma ForgetDead(b: Store, s: Scheduler, gone: Option<string>, i: nat)
    requires Dead(Forget(b, gone), s, i)
    ensures Dead(b, s, i)
  {
    var c := Forget(b, gone);
    if k: nat :| k < |c.rows| && c.rows[k].inst == i && c.rows[k].status == Failed {
      assert b.rows[k] == c.rows[k];
    }
  }

  /** Only an attempt that settles the instance makes it succeed or fail. */
  lemma SettledBefore(jq: Oracle, w: World, s: Step, i: nat)
    requires Inv(jq, w) && Enabled(jq, w, s)
    ensures Dead(Next(jq, w, s).store, Next(jq, w, s).sched, i) ==>
      Dead(w.store, w.sched, i) || (s.AttemptFails? && Settles(jq, w, s, i))
    ensures Done(Next(jq, w, s), i) ==> Done(w, i) || (s.AttemptSucceeds? && Settles(jq, w, s, i))
  {
    var w' := Next(jq, w, s);
    if Dead(w'.store, w'.sched, i) {
      match s
      case Deliver(written) => TakeDead(w.store, w.sched, written, i);
      case Claim(row, _, _, _, _) => ClaimDead(w.store, row, w'.sched.job, i);
      case Finish => FinishDead(w.store, w.sched.id, w.sched.ok, i);
      case Republish(_, _, gone) => ForgetDead(w.store, w.sched, gone, i);
      case _ =>
    }
  }

  lemma SettlingIsQuiet(jq: Oracle, w: World, s: Step, i: nat)
    requires Inv(jq, w) && Enabled(jq, w, s) && Settles(jq, w, s, i) && AtMostOne(w.store, w.sched, i)
    ensures Quiet(Next(jq, w, s).store, Next(jq, w, s).sched, i)
  {
    var p := PlanOf(jq, w.sched.job);
    AnnounceAdds(w.store, w.sched.job.row, p.work, w.next);
    LastToken(w.store, w.sched, s.AttemptSucceeds?, Next(jq, w, s).store);
  }

  lemma StepLean(jq: Oracle, w: World, s: Step, i: nat, wid: string)
    requires Enabled(jq, w, s) && Owned(w) && RunsFlow(w, i, wid) && Lean(w.sched, i) && Forkless(w.tables, wid)
    ensures Lean(Next(jq, w, s).sched, i)
  {
    if s.Claim? && w.store.rows[s.row].inst == i {
      assert Belongs(w.store.rows[s.row], w.insts);
      var t := w.tables.tasks[s.task];
      ReorderedMembers(s.order, Leaving(w.tables.relations, t.wid, Task(t.id)));
    }
  }

  lemma StartConserves(w: World, r: Relation, input: string)
    requires Owned(w) && Within(w.store, w.next)
    ensures Conserved(Started(w, r, input), w.next)
  {
    assert w.next !in w.insts;
    StartPasses(w, r, input, w.next);
    assert forall k :: 0 <= k < |w.store.rows| ==> Belongs(w.store.rows[k], w.insts);
  }

  lemma StepConserves(jq: Oracle, w: World, s: Step, i: nat, wid: string)
    requires Lawful(jq, w) && Enabled(jq, w, s) && RunsFlow(w, i, wid) && Conserved(w, i) && Forkless(w.tables, wid)
    ensures Conserved(Next(jq, w, s), i)
  {
    SettledBefore(jq, w, s, i);
    StepLean(jq, w, s, i, wid);
    LeanIsNarrow(jq, w.sched, i);
    StepPasses(jq, w, s, i);
    if Settles(jq, w, s, i) {
      SettlingIsQuiet(jq, w, s, i);
      assert At(w.store, w.sched, i, InScheduler);
      assert !Settled(w, i);
    }
  }
}
