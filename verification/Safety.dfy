/** What holds in every run of the protocol. */
module Safety {
  import opened Model
  import opened Executors
  import opened Protocol
  import opened Invariants
  import opened Records
  import opened Tokens

  // ---- token conservation ----

  /** Whatever is saved during the run keeps workflow wid fork-free. */
  predicate ForklessRun(steps: seq<Step>, wid: string) {
    steps == [] || ((steps[0].Republish? ==> Forkless(steps[0].tables, wid)) && ForklessRun(steps[1..], wid))
  }

  /** If i runs workflow wid, it is conserved. */
  ghost predicate Safe(jq: Oracle, w: World, i: nat, wid: string) {
    Lawful(jq, w) && Forkless(w.tables, wid) && (RunsFlow(w, i, wid) ==> Conserved(w, i))
  }

  lemma InvWithin(jq: Oracle, w: World)
    requires Inv(jq, w)
    ensures Within(w.store, w.next)
  {
  }

  lemma StepSafe(jq: Oracle, w: World, s: Step, i: nat, wid: string)
    requires Safe(jq, w, i, wid) && Enabled(jq, w, s) && (s.Republish? ==> Forkless(s.tables, wid))
    ensures Safe(jq, Next(jq, w, s), i, wid)
  {
    StepLawful(jq, w, s);
    FlowKept(jq, w, s, i, wid);
    InvWithin(jq, w);
    hide Lawful, Conserved;
    if RunsFlow(Next(jq, w, s), i, wid) {
      if RunsFlow(w, i, wid) { StepConserves(jq, w, s, i, wid); }
      else { StartConserved(jq, w, s); }
    }
  }

  lemma StartConserved(jq: Oracle, w: World, s: Step)
    requires Lawful(jq, w) && Enabled(jq, w, s) && s.StartFlow?
    ensures Conserved(Next(jq, w, s), w.next)
  {
    StartConserves(w, w.tables.relations[s.relation], s.input);
  }

  lemma {:induction false} RunConserves(jq: Oracle, w: World, steps: seq<Step>, w': World, i: nat, wid: string)
    requires Safe(jq, w, i, wid) && Runs(jq, w, steps, w') && ForklessRun(steps, wid)
    ensures Safe(jq, w', i, wid)
    decreases |steps|
  {
    if steps != [] {
      StepSafe(jq, w, steps[0], i, wid);
      RunConserves(jq, Next(jq, w, steps[0]), steps[1..], w', i, wid);
    }
  }

  /** In every run each instance of a workflow that is fork-free throughout has at most one live
      token, whatever other workflows do, and once it is marked SUCCESS or has a FAIL row it has none. */
  lemma TokenConservation(jq: Oracle, w: World, steps: seq<Step>, w': World, i: nat)
    requires Init(w) && Runs(jq, w, steps, w') && i in w'.insts
    requires Forkless(w.tables, w'.insts[i].wid) && ForklessRun(steps, w'.insts[i].wid)
    ensures forall p, q :: At(w'.store, w'.sched, i, p) && At(w'.store, w'.sched, i, q) ==> p == q
    ensures Done(w', i) || Dead(w'.store, w'.sched, i) ==> forall p :: !At(w'.store, w'.sched, i, p)
    ensures !(Done(w', i) && Dead(w'.store, w'.sched, i))
  {
    var wid := w'.insts[i].wid;
    InitLawful(jq, w);
    RunConserves(jq, w, steps, w', i, wid);
    assert RunsFlow(w', i, wid) && AtMostOne(w'.store, w'.sched, i);
    assert Settled(w', i) ==> Quiet(w'.store, w'.sched, i);
  }

  // ---- when a token is lost ----

  /** The steps that take a token away without settling its instance: a queue write that fails, a
      callback that finds no SLEEP row, a task that parks its successor but publishes no event, and a
      task without relations. */
  predicate Loses(jq: Oracle, w: World, s: Step, i: nat) {
    match s
    case Deliver(written) => !written && At(w.store, w.sched, i, InQueue(w.store.head))
    case Callback(event, _, found) => found.None? && At(w.store, w.sched, i, InEvent(event))
    case AttemptSucceeds(_) =>
      At(w.store, w.sched, i, InScheduler) &&
      var p := PlanOf(jq, w.sched.job);
      (p.goal.Park? && !p.work.Publish?) || p.goal.Nothing?
    case _ => false
  }

  /** Where the step moves the token at p. */
  function Moved(jq: Oracle, w: World, s: Step, p: Place): Place {
    match s
    case Deliver(_) =>
      if p == InQueue(w.store.head) && w.store.head < |w.store.sent| then
        var m := w.store.sent[w.store.head];
        InRow(if m.id == 0 then |w.store.rows| else m.id - 1)
      else p
    case Callback(event, _, _) => if p == InEvent(event) then InQueue(|w.store.sent|) else p
    case Claim(row, _, _, _, _) => if p == InRow(row) then InScheduler else p
    case AttemptSucceeds(_) =>
      if p != InScheduler || !w.sched.Working? then p
      else if PlanOf(jq, w.sched.job).goal.Park? then InEvent(|w.store.events|)
      else InQueue(|w.store.sent|)
    case _ => p
  }

  lemma AdvanceTargets(jq: Oracle, job: Job)
    requires PlanOf(jq, job).goal.Advance?
    ensures PlanOf(jq, job).goal.successors != []
  {
  }

  lemma AchievedMoves(jq: Oracle, w: World, output: string, i: nat, p: Place)
    requires Inv(jq, w) && Enabled(jq, w, AttemptSucceeds(output)) && At(w.store, w.sched, i, p)
    requires !Settles(jq, w, AttemptSucceeds(output), i) && !Loses(jq, w, AttemptSucceeds(output), i)
    ensures var w' := Next(jq, w, AttemptSucceeds(output)); At(w'.store, w'.sched, i, Moved(jq, w, AttemptSucceeds(output), p))
  {
    var plan := PlanOf(jq, w.sched.job);
    PlanShape(jq, w.sched.job);
    AnnounceAdds(w.store, w.sched.job.row, plan.work, w.next);
    if plan.goal.Advance? { AdvanceTargets(jq, w.sched.job); }
  }

  lemma TakeMoves(b: Store, s: Scheduler, written: bool, i: nat, p: Place)
    requires Mail(b) && b.head < |b.sent| && At(b, s, i, p) && (!written ==> p != InQueue(b.head))
    ensures var m := b.sent[b.head];
      At(Take(b, written), s, i, if p == InQueue(b.head) then InRow(if m.id == 0 then |b.rows| else m.id - 1) else p)
  {
  }

  lemma WakeMoves(b: Store, s: Scheduler, event: nat, found: Option<nat>, i: nat, p: Place)
    requires b.head <= |b.sent| && event < |b.events| && At(b, s, i, p)
    requires if found.None? then p != InEvent(event)
             else found.value < |b.rows| && b.rows[found.value].inst == b.events[event].inst
    ensures At(Wake(b, event, found), s, i, if p == InEvent(event) then InQueue(|b.sent|) else p)
  {
  }

  lemma ClaimMoves(b: Store, row: nat, job: Job, i: nat, p: Place)
    requires row < |b.rows| && job.row.inst == b.rows[row].inst && At(b, Idle, i, p)
    ensures At(Mark(b, row, Process), Working(row, job, 1, None), i, if p == InRow(row) then InScheduler else p)
  {
  }

  lemma StillThere(jq: Oracle, w: World, s: Step, i: nat, p: Place)
    requires Lawful(jq, w) && Enabled(jq, w, s) && At(w.store, w.sched, i, p) && !Settles(jq, w, s, i)
    requires s.StartFlow? || s.ParkNext? || s.AttemptFails? || s.Finish?
    ensures At(Next(jq, w, s).store, Next(jq, w, s).sched, i, p)
  {
    if s.AttemptFails? { AnnounceAdds(w.store, w.sched.job.row, PlanOf(jq, w.sched.job).work, w.next); }
  }

  lemma ForgetMoves(w: World, gone: Option<string>, i: nat, p: Place)
    requires Owned(w) && At(w.store, w.sched, i, p) && i in w.insts && gone != Some(w.insts[i].wid)
    ensures At(Forget(w.store, gone), w.sched, i, p)
  {
    if p.InRow? { assert Belongs(w.store.rows[p.k], w.insts); }
  }

  lemma TokenMoves(jq: Oracle, w: World, s: Step, i: nat, p: Place)
    requires Lawful(jq, w) && Enabled(jq, w, s) && At(w.store, w.sched, i, p)
    requires !Settles(jq, w, s, i) && !Loses(jq, w, s, i) && !Deletes(w, s, i) && i in w.insts
    ensures At(Next(jq, w, s).store, Next(jq, w, s).sched, i, Moved(jq, w, s, p))
  {
    match s
    case AttemptSucceeds(output) => AchievedMoves(jq, w, output, i, p);
    case Deliver(written) => TakeMoves(w.store, w.sched, written, i, p);
    case Callback(event, _, found) => WakeMoves(w.store, w.sched, event, found, i, p);
    case Claim(row, _, _, _, _) => ClaimMoves(w.store, row, Next(jq, w, s).sched.job, i, p);
    case Republish(_, _, gone) => ForgetMoves(w, gone, i, p);
    case _ => StillThere(jq, w, s, i, p);
  }

  // ---- deletes ----

  /** The step deletes the workflow of instance i. */
  predicate Deletes(w: World, s: Step, i: nat) {
    s.Republish? && i in w.insts && s.gone == Some(w.insts[i].wid)
  }

  /** A delete of its workflow has marked the instance or one of its rows. */
  predicate Erased(w: World, i: nat) {
    (i in w.insts && w.insts[i].status == Deleted) ||
    exists k :: 0 <= k < |w.store.rows| && w.store.rows[k].inst == i && w.store.rows[k].status == Invalid
  }

  lemma DeletionErases(jq: Oracle, w: World, s: Step, i: nat)
    requires Enabled(jq, w, s) && Deletes(w, s, i)
    ensures Erased(Next(jq, w, s), i)
  {
  }

  lemma FailedStays(jq: Oracle, w: World, s: Step, k: nat)
    requires Inv(jq, w) && Enabled(jq, w, s) && k < |w.store.rows| && w.store.rows[k].status == Failed
    requires s.Republish? ==> s.gone != Some(w.store.rows[k].wid)
    ensures k < |Next(jq, w, s).store.rows| && Next(jq, w, s).store.rows[k] == w.store.rows[k]
  {
  }

  lemma EndedStays(jq: Oracle, w: World, s: Step)
    requires Inv(jq, w) && Enabled(jq, w, s) && w.sched.Ended? && !w.sched.ok && w.store.rows[w.sched.id].status != Invalid
    requires s.Republish? ==> s.gone != Some(w.store.rows[w.sched.id].wid)
    ensures var w' := Next(jq, w, s);
      w.sched.id < |w'.store.rows| && w'.store.rows[w.sched.id].inst == w.store.rows[w.sched.id].inst &&
      if s.Finish? then w'.store.rows[w.sched.id].status == Failed
      else w'.sched == w.sched && w'.store.rows[w.sched.id].status != Invalid
  {
  }

  lemma DeadStays(jq: Oracle, w: World, s: Step, i: nat)
    requires Lawful(jq, w) && Enabled(jq, w, s) && !Deletes(w, s, i) && Dead(w.store, w.sched, i)
    ensures Dead(Next(jq, w, s).store, Next(jq, w, s).sched, i)
  {
    if k: nat :| k < |w.store.rows| && w.store.rows[k].inst == i && w.store.rows[k].status == Failed {
      assert Belongs(w.store.rows[k], w.insts);
      FailedStays(jq, w, s, k);
      hide Next, Enabled, Inv;
    } else {
      assert Belongs(w.store.rows[w.sched.id], w.insts);
      EndedStays(jq, w, s);
      hide Next, Enabled, Inv;
    }
  }

  lemma SettlingSettles(jq: Oracle, w: World, s: Step, i: nat)
    requires Lawful(jq, w) && Enabled(jq, w, s) && Settles(jq, w, s, i)
    ensures Settled(Next(jq, w, s), i) || Erased(Next(jq, w, s), i)
  {
  }

  lemma InvalidRow(jq: Oracle, w: World, s: Step, k: nat)
    requires Inv(jq, w) && Enabled(jq, w, s) && k < |w.store.rows| && w.store.rows[k].status == Invalid
    ensures var w' := Next(jq, w, s);
      k < |w'.store.rows| && w'.store.rows[k].inst == w.store.rows[k].inst && w'.store.rows[k].status in {Invalid, Wait}
  {
  }

  lemma DeletedStays(jq: Oracle, w: World, s: Step, i: nat)
    requires Enabled(jq, w, s) && i in w.insts && w.insts[i].status == Deleted && (s.StartFlow? ==> w.next != i)
    ensures i in Next(jq, w, s).insts && Next(jq, w, s).insts[i].status in {Deleted, Succeeded}
  {
    hide Decide;
  }

  /** An erased instance stays so, unless it succeeds or a waking message puts its row back to WAIT. */
  lemma ErasedStays(jq: Oracle, w: World, s: Step, i: nat)
    requires Lawful(jq, w) && Enabled(jq, w, s) && Erased(w, i)
    ensures var w' := Next(jq, w, s);
      Erased(w', i) || Done(w', i) || exists p :: At(w'.store, w'.sched, i, p)
  {
    var w' := Next(jq, w, s);
    if i in w.insts && w.insts[i].status == Deleted { DeletedStays(jq, w, s, i); }
    else {
      var k: nat :| k < |w.store.rows| && w.store.rows[k].inst == i && w.store.rows[k].status == Invalid;
      InvalidRow(jq, w, s, k);
      hide Next, Enabled, Inv;
      if w'.store.rows[k].status == Invalid { assert Erased(w', i); }
      else { assert At(w'.store, w'.sched, i, InRow(k)); }
    }
  }

  /** A recorded instance is settled, erased, or has a live token. */
  ghost predicate Accounted(w: World, i: nat) {
    i in w.insts ==> Settled(w, i) || Erased(w, i) || exists p :: At(w.store, w.sched, i, p)
  }

  lemma StepAccounts(jq: Oracle, w: World, s: Step, i: nat)
    requires Lawful(jq, w) && Enabled(jq, w, s) && Accounted(w, i) && !Loses(jq, w, s, i)
    ensures Accounted(Next(jq, w, s), i)
  {
    var w' := Next(jq, w, s);
    if Deletes(w, s, i) { DeletionErases(jq, w, s, i); }
    else if Settles(jq, w, s, i) { SettlingSettles(jq, w, s, i); }
    else if s.StartFlow? && i == w.next { assert At(w'.store, w'.sched, i, InQueue(|w.store.sent|)); }
    else if i in w'.insts {
      assert i in w.insts;
      if Dead(w.store, w.sched, i) { DeadStays(jq, w, s, i); }
      else if Erased(w, i) { ErasedStays(jq, w, s, i); }
      else if Done(w, i) { assert Done(w', i); }
      else {
        var p :| At(w.store, w.sched, i, p);
        TokenMoves(jq, w, s, i, p);
      }
    }
  }

  /** None of the steps takes a token of instance i away without settling it. */
  ghost predicate Lossless(jq: Oracle, w: World, steps: seq<Step>, i: nat)
    decreases |steps|
  {
    steps == [] ||
    (Enabled(jq, w, steps[0]) && !Loses(jq, w, steps[0], i) && Lossless(jq, Next(jq, w, steps[0]), steps[1..], i))
  }

  lemma {:induction false} RunAccounts(jq: Oracle, w: World, steps: seq<Step>, w': World, i: nat)
    requires Lawful(jq, w) && Runs(jq, w, steps, w') && Lossless(jq, w, steps, i) && Accounted(w, i)
    ensures Accounted(w', i)
    decreases |steps|
  {
    if steps != [] {
      StepLawful(jq, w, steps[0]);
      StepAccounts(jq, w, steps[0], i);
      RunAccounts(jq, Next(jq, w, steps[0]), steps[1..], w', i);
    }
  }

  /** The converse of TokenConservation, for every workflow and with saves and deletes anywhere: unless
      a losing step hits it, a started instance that has not succeeded or failed and whose workflow was
      not deleted has a live token. */
  lemma NoTokenIsLost(jq: Oracle, w: World, steps: seq<Step>, w': World, i: nat)
    requires Init(w) && Runs(jq, w, steps, w') && Lossless(jq, w, steps, i) && i in w'.insts
    ensures Done(w', i) || Dead(w'.store, w'.sched, i) || Erased(w', i) || exists p :: At(w'.store, w'.sched, i, p)
  {
    InitLawful(jq, w);
    RunAccounts(jq, w, steps, w', i);
  }

  lemma StepErases(jq: Oracle, w: World, s: Step, i: nat)
    requires Lawful(jq, w) && Enabled(jq, w, s) && i in w.insts && !Erased(w, i) && !Deletes(w, s, i)
    ensures !Erased(Next(jq, w, s), i)
  {
    var w' := Next(jq, w, s);
    forall k | 0 <= k < |w'.store.rows| && w'.store.rows[k].inst == i ensures w'.store.rows[k].status != Invalid {
      if k < |w.store.rows| { assert Belongs(w.store.rows[k], w.insts); }
      else if s.Deliver? { assert w.store.sent[w.store.head].row.status != Invalid; }
    }
  }

  /** An instance is erased only by a delete of its own workflow. */
  lemma {:induction false} OnlyDeletesErase(jq: Oracle, w: World, steps: seq<Step>, w': World, i: nat, wid: string)
    requires Lawful(jq, w) && Runs(jq, w, steps, w') && RunsFlow(w, i, wid) && !Erased(w, i) && Spares(steps, wid)
    ensures !Erased(w', i)
    decreases |steps|
  {
    if steps != [] {
      StepErases(jq, w, steps[0], i);
      FlowKept(jq, w, steps[0], i, wid);
      StepLawful(jq, w, steps[0]);
      OnlyDeletesErase(jq, Next(jq, w, steps[0]), steps[1..], w', i, wid);
    }
  }

  lemma TakenLoss(b: Store, s: Scheduler, i: nat)
    requires b.head < |b.sent| && AtMostOne(b, s, i) && At(b, s, i, InQueue(b.head))
    ensures Quiet(Take(b, false), s, i)
  {
    forall p ensures !At(Take(b, false), s, i, p) {
      assert At(Take(b, false), s, i, p) ==> At(b, s, i, p) && p != InQueue(b.head);
    }
  }

  lemma CalledLoss(b: Store, s: Scheduler, event: nat, i: nat)
    requires AtMostOne(b, s, i) && At(b, s, i, InEvent(event))
    ensures Quiet(Wake(b, event, None), s, i)
  {
    forall p ensures !At(Wake(b, event, None), s, i, p) {
      assert At(Wake(b, event, None), s, i, p) ==> At(b, s, i, p) && p != InEvent(event);
    }
  }

  /** A losing step really loses: afterwards the instance has no token and neither succeeded nor failed. */
  lemma LossIsFinal(jq: Oracle, w: World, s: Step, i: nat, wid: string)
    requires Safe(jq, w, i, wid) && RunsFlow(w, i, wid) && Enabled(jq, w, s) && Loses(jq, w, s, i)
    ensures Quiet(Next(jq, w, s).store, Next(jq, w, s).sched, i) && !Settled(Next(jq, w, s), i)
  {
    SettledBefore(jq, w, s, i);
    assert AtMostOne(w.store, w.sched, i) && !Settled(w, i);
    match s
    case AttemptSucceeds(_) =>
      PlanShape(jq, w.sched.job);
      LastToken(w.store, w.sched, true, Next(jq, w, s).store);
    case Deliver(_) => TakenLoss(w.store, w.sched, i);
    case Callback(event, _, _) => CalledLoss(w.store, w.sched, event, i);
  }

  // ---- failure containment ----

  lemma QuietStaysIdle(jq: Oracle, w: World, s: Step, i: nat)
    requires Lawful(jq, w) && Enabled(jq, w, s) && i < w.next && Quiet(w.store, w.sched, i)
    ensures Quiet(Next(jq, w, s).store, Next(jq, w, s).sched, i)
    ensures History(Next(jq, w, s), i) == History(w, i)
    ensures Done(Next(jq, w, s), i) ==> Done(w, i)
  {
    assert !At(w.store, w.sched, i, InScheduler);
    assert Narrow(jq, w.sched, i);
    StepPasses(jq, w, s, i);
    SettledBefore(jq, w, s, i);
    if s.Claim? { assert !At(w.store, w.sched, i, InRow(s.row)); }
  }

  lemma {:induction false} QuietForever(jq: Oracle, w: World, steps: seq<Step>, w': World, i: nat)
    requires Lawful(jq, w) && Runs(jq, w, steps, w') && i < w.next && Quiet(w.store, w.sched, i)
    ensures Quiet(w'.store, w'.sched, i) && History(w', i) == History(w, i) && (Done(w', i) ==> Done(w, i))
    decreases |steps|
  {
    if steps != [] {
      StepLawful(jq, w, steps[0]);
      QuietStaysIdle(jq, w, steps[0], i);
      QuietForever(jq, Next(jq, w, steps[0]), steps[1..], w', i);
    }
  }

  /** Once a task instance has failed, its workflow instance never succeeds and executes nothing more. */
  lemma FailureIsContained(jq: Oracle, w0: World, before: seq<Step>, w: World, after: seq<Step>, w': World, i: nat)
    requires Init(w0) && Runs(jq, w0, before, w) && Runs(jq, w, after, w') && i in w.insts
    requires Forkless(w0.tables, w.insts[i].wid) && ForklessRun(before, w.insts[i].wid) && Dead(w.store, w.sched, i)
    ensures !Done(w', i) && History(w', i) == History(w, i)
  {
    var wid := w.insts[i].wid;
    InitLawful(jq, w0);
    RunConserves(jq, w0, before, w, i, wid);
    assert RunsFlow(w, i, wid) && Settled(w, i) && Quiet(w.store, w.sched, i);
    QuietForever(jq, w, after, w', i);
  }

  // ---- tasks that lead nowhere ----

  /** No attempt carries the instance on: the work always fails, or a successor is parked that no
      event names, or there is nothing to do. */
  predicate DeadEnd(p: Plan) {
    p.work.Doomed? || (p.goal.Park? && !p.work.Publish?) || p.goal.Nothing?
  }

  /** The scheduler is at a dead end with the only token of i, which has not succeeded. */
  ghost predicate Trapped(jq: Oracle, w: World, i: nat) {
    w.sched.Working? && w.sched.job.row.inst == i && DeadEnd(PlanOf(jq, w.sched.job)) &&
    AtMostOne(w.store, w.sched, i) && !Done(w, i)
  }

  lemma TrappedStep(jq: Oracle, w: World, s: Step, i: nat)
    requires Lawful(jq, w) && Enabled(jq, w, s) && Trapped(jq, w, i)
    ensures var w' := Next(jq, w, s);
      History(w', i) == History(w, i) && !Done(w', i) && (Trapped(jq, w', i) || Quiet(w'.store, w'.sched, i))
  {
    var w' := Next(jq, w, s);
    var p := PlanOf(jq, w.sched.job);
    PlanShape(jq, w.sched.job);
    SettledBefore(jq, w, s, i);
    StepPasses(jq, w, s, i);
    if w'.sched.Ended? {
      AnnounceAdds(w.store, w.sched.job.row, p.work, w.next);
      LastToken(w.store, w.sched, w'.sched.ok, w'.store);
    }
  }

  lemma {:induction false} TrappedForever(jq: Oracle, w: World, steps: seq<Step>, w': World, i: nat)
    requires Lawful(jq, w) && Runs(jq, w, steps, w') && i < w.next && Trapped(jq, w, i)
    ensures !Done(w', i) && History(w', i) == History(w, i)
    decreases |steps|
  {
    if steps != [] {
      var v := Next(jq, w, steps[0]);
      StepLawful(jq, w, steps[0]);
      TrappedStep(jq, w, steps[0], i);
      if Trapped(jq, v, i) { TrappedForever(jq, v, steps[1..], w', i); }
      else { QuietForever(jq, v, steps[1..], w', i); }
    }
  }

  /** Whenever an instance of a fork-free workflow reaches a raise, an operation that parks its
      successor but publishes no event, or an event or switch task without relations, it never
      succeeds and executes nothing more. */
  lemma DeadEndsNeverSucceed(jq: Oracle, w0: World, before: seq<Step>, w: World, after: seq<Step>, w': World)
    requires Init(w0) && Runs(jq, w0, before, w) && Runs(jq, w, after, w')
    requires w.sched.Working? && DeadEnd(PlanOf(jq, w.sched.job))
    requires Forkless(w0.tables, w.sched.job.row.wid) && ForklessRun(before, w.sched.job.row.wid)
    ensures !Done(w', w.sched.job.row.inst) && History(w', w.sched.job.row.inst) == History(w, w.sched.job.row.inst)
  {
    var i, wid := w.sched.job.row.inst, w.sched.job.row.wid;
    InitLawful(jq, w0);
    RunConserves(jq, w0, before, w, i, wid);
    assert Belongs(w.sched.job.row, w.insts) && RunsFlow(w, i, wid);
    assert At(w.store, w.sched, i, InScheduler) && !Settled(w, i);
    TrappedForever(jq, w, after, w', i);
  }

  /** How many of the steps are failed attempts. */
  function Failures(steps: seq<Step>): nat {
    if steps == [] then 0 else (if steps[0].AttemptFails? then 1 else 0) + Failures(steps[1..])
  }

  /** A claimed task whose work always fails, such as a raise, ends FAIL after exactly five attempts. */
  lemma {:induction false} DoomedFails(jq: Oracle, w: World, steps: seq<Step>, w': World)
    requires Runs(jq, w, steps, w') && w.sched.Working? && 1 <= w.sched.attempt <= MAX_ATTEMPTS && w.sched.parked.None?
    requires PlanOf(jq, w.sched.job).work.Doomed? && Finish !in steps
    ensures var a := w.sched.attempt + Failures(steps);
      a <= 6 &&
      w'.sched == (if a <= 5 then w.sched.(attempt := a) else Ended(w.sched.id, false))
    decreases |steps|
  {
    if steps != [] {
      var s, v := steps[0], Next(jq, w, steps[0]);
      PlanShape(jq, w.sched.job);
      assert s != Finish && Finish !in steps[1..];
      if v.sched.Working? {
        DoomedFails(jq, v, steps[1..], w');
      } else {
        EndedWaits(jq, v, steps[1..], w');
      }
    }
  }

  lemma {:induction false} EndedWaits(jq: Oracle, w: World, steps: seq<Step>, w': World)
    requires Runs(jq, w, steps, w') && w.sched.Ended? && Finish !in steps
    ensures w'.sched == w.sched && Failures(steps) == 0
    decreases |steps|
  {
    if steps != [] {
      assert steps[0] != Finish && Finish !in steps[1..];
      EndedWaits(jq, Next(jq, w, steps[0]), steps[1..], w');
    }
  }

  /** The work of a raise task fails on every attempt, whatever its relations. */
  lemma RaiseIsDoomed(jq: Oracle, job: Job)
    requires job.kind == Raise
    ensures PlanOf(jq, job).work.Doomed?
  {
  }
}
