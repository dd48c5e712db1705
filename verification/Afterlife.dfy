/** When an instance still executes something, in particular after its workflow was deleted. */
module Afterlife {
  import opened Model
  import opened Executors
  import opened Protocol
  import opened Invariants
  import opened Records
  import opened Tokens
  import opened Safety
  import opened Rows
  import opened Progress

  /** Task instance u is asleep, or will be once its message is written. */
  predicate Sleepable(b: Store, u: nat) {
    (exists k :: 0 <= k < |b.rows| && b.rows[k].tiid == u && b.rows[k].status == Sleep) ||
    exists k :: b.head <= k < |b.sent| && b.sent[k].row.tiid == u && b.sent[k].row.status == Sleep
  }

  /** A row or a queued message of i waits to be executed. */
  predicate Waiting(b: Store, i: nat) {
    (exists k :: 0 <= k < |b.rows| && b.rows[k].inst == i && b.rows[k].status == Wait) ||
    exists k :: b.head <= k < |b.sent| && b.sent[k].row.inst == i && b.sent[k].row.status == Wait
  }

  /** An event still to be called back names a successor of i that can be woken. */
  predicate Callable(b: Store, i: nat) {
    exists j :: 0 <= j < |b.events| && j !in b.called && b.events[j].inst == i && b.events[j].parks != End &&
      Sleepable(b, b.events[j].tiid)
  }

  /** The work under way for i can still send a token on. */
  predicate Hopeful(jq: Oracle, b: Store, s: Scheduler, i: nat) {
    s.Working? && s.job.row.inst == i &&
    var p := PlanOf(jq, s.job);
    p.work != Doomed &&
    (p.goal.Advance? ||
     (p.goal.Park? && p.work.Publish? &&
      (s.attempt < MAX_ATTEMPTS || s.parked.None? || Sleepable(b, s.parked.value))))
  }

  /** Something of instance i can still be executed. */
  predicate Lives(jq: Oracle, w: World, i: nat) {
    Waiting(w.store, i) || Callable(w.store, i) || Hopeful(jq, w.store, w.sched, i)
  }

  // ---- an instance that does not live never executes anything ----

  lemma TakeSleepable(b: Store, written: bool, u: nat)
    requires Mail(b) && b.head < |b.sent| && Sleepable(Take(b, written), u)
    ensures Sleepable(b, u)
  {
    var c := Take(b, written);
    if k :| 0 <= k < |c.rows| && c.rows[k].tiid == u && c.rows[k].status == Sleep {
      if k < |b.rows| && b.rows[k].status == Sleep { assert b.rows[k].tiid == u; }
      else { assert b.sent[b.head].row.tiid == u && b.sent[b.head].row.status == Sleep; }
    } else {
      var k :| c.head <= k < |c.sent| && c.sent[k].row.tiid == u && c.sent[k].row.status == Sleep;
      assert b.sent[k] == c.sent[k];
    }
  }

  lemma TakeWaiting(b: Store, written: bool, i: nat)
    requires Mail(b) && b.head < |b.sent| && Waiting(Take(b, written), i)
    ensures Waiting(b, i)
  {
    var c := Take(b, written);
    if k :| 0 <= k < |c.rows| && c.rows[k].inst == i && c.rows[k].status == Wait {
      if k < |b.rows| && b.rows[k].status == Wait { assert b.rows[k].inst == i; }
      else { assert b.sent[b.head].row.inst == i && b.sent[b.head].row.status == Wait; }
    } else {
      var k :| c.head <= k < |c.sent| && c.sent[k].row.inst == i && c.sent[k].row.status == Wait;
      assert b.sent[k] == c.sent[k];
    }
  }

  /** Steps that add no row, message or event for i, and put nothing to sleep. */
  predicate Adds(b: Store, c: Store, i: nat) {
    |c.rows| == |b.rows| && c.head == b.head && b.called <= c.called &&
    (forall k :: 0 <= k < |c.rows| ==> c.rows[k].inst == b.rows[k].inst && c.rows[k].tiid == b.rows[k].tiid) &&
    (forall k :: 0 <= k < |c.rows| && c.rows[k].status in {Sleep, Wait} ==> c.rows[k].status == b.rows[k].status) &&
    b.sent <= c.sent && b.events <= c.events &&
    (forall k :: |b.sent| <= k < |c.sent| ==> c.sent[k].row.inst != i || c.sent[k].row.status != Wait) &&
    (forall k :: |b.events| <= k < |c.events| ==> c.events[k].inst != i || c.events[k].parks == End)
  }

  lemma AddsWaiting(b: Store, c: Store, i: nat)
    requires Adds(b, c, i) && Waiting(c, i)
    ensures Waiting(b, i)
  {
    if k :| 0 <= k < |c.rows| && c.rows[k].inst == i && c.rows[k].status == Wait {
      assert b.rows[k].inst == i && b.rows[k].status == Wait;
    } else {
      var k :| c.head <= k < |c.sent| && c.sent[k].row.inst == i && c.sent[k].row.status == Wait;
      assert k < |b.sent| && b.sent[k] == c.sent[k];
    }
  }

  /** u was in use before, so no new message is about it. */
  lemma AddsSleepable(b: Store, c: Store, i: nat, u: nat, next: nat)
    requires Adds(b, c, i) && Sleepable(c, u) && u < next
    requires forall k :: |b.sent| <= k < |c.sent| ==> c.sent[k].row.tiid >= next || c.sent[k].row.status == Wait
    ensures Sleepable(b, u)
  {
    if k :| 0 <= k < |c.rows| && c.rows[k].tiid == u && c.rows[k].status == Sleep {
      assert b.rows[k].tiid == u && b.rows[k].status == Sleep;
    } else {
      var k :| c.head <= k < |c.sent| && c.sent[k].row.tiid == u && c.sent[k].row.status == Sleep;
      assert k < |b.sent| && b.sent[k] == c.sent[k];
    }
  }

  lemma AddsCallable(b: Store, c: Store, i: nat, next: nat)
    requires Adds(b, c, i) && Callable(c, i) && forall k :: 0 <= k < |b.events| ==> b.events[k].tiid < next
    requires forall k :: |b.sent| <= k < |c.sent| ==> c.sent[k].row.tiid >= next || c.sent[k].row.status == Wait
    ensures Callable(b, i)
  {
    var j :| 0 <= j < |c.events| && j !in c.called && c.events[j].inst == i && c.events[j].parks != End && Sleepable(c, c.events[j].tiid);
    assert j < |b.events| && b.events[j] == c.events[j];
    AddsSleepable(b, c, i, b.events[j].tiid, next);
  }

  lemma NoHope(jq: Oracle, b: Store, c: Store, s: Scheduler, i: nat)
    requires !Hopeful(jq, b, s, i) && (s.Working? && s.parked.Some? && Sleepable(c, s.parked.value) ==> Sleepable(b, s.parked.value))
    ensures !Hopeful(jq, c, s, i)
  {
  }

  lemma TakeDies(jq: Oracle, w: World, written: bool, i: nat)
    requires Lawful(jq, w) && w.store.head < |w.store.sent| && !Lives(jq, w, i)
    ensures !Lives(jq, w.(store := Take(w.store, written)), i)
  {
    var b, c := w.store, Take(w.store, written);
    assert Mail(b);
    if Waiting(c, i) { TakeWaiting(b, written, i); }
    if Callable(c, i) {
      var j :| 0 <= j < |c.events| && j !in c.called && c.events[j].inst == i && c.events[j].parks != End && Sleepable(c, c.events[j].tiid);
      TakeSleepable(b, written, c.events[j].tiid);
    }
    if w.sched.Working? && w.sched.parked.Some? && Sleepable(c, w.sched.parked.value) { TakeSleepable(b, written, w.sched.parked.value); }
    NoHope(jq, b, c, w.sched, i);
  }

  /** What the steps other than a delivery post: messages about new task instances, or that wake one. */
  predicate News(b: Store, c: Store, next: nat) {
    forall k :: |b.sent| <= k < |c.sent| ==> c.sent[k].row.tiid >= next || c.sent[k].row.status == Wait
  }

  lemma AddsDies(jq: Oracle, w: World, c: Store, i: nat)
    requires Lawful(jq, w) && !Lives(jq, w, i) && Adds(w.store, c, i) && News(w.store, c, w.next)
    ensures !Waiting(c, i) && !Callable(c, i) && !Hopeful(jq, c, w.sched, i)
  {
    if Waiting(c, i) { AddsWaiting(w.store, c, i); }
    if Callable(c, i) { AddsCallable(w.store, c, i, w.next); }
    if w.sched.Working? && w.sched.parked.Some? && Sleepable(c, w.sched.parked.value) {
      AddsSleepable(w.store, c, i, w.sched.parked.value, w.next);
    }
    NoHope(jq, w.store, c, w.sched, i);
  }

  lemma FoundIsCallable(b: Store, event: nat, wid: string, row: nat)
    requires Calls(b) && event < |b.events| && event !in b.called && row < |b.rows| && Wakes(b.rows[row], b.events[event], wid)
    ensures Callable(b, b.rows[row].inst)
  {
    WakeFinds(b, event, wid, row);
    assert Sleepable(b, b.events[event].tiid);
  }

  lemma CallbackAdds(jq: Oracle, w: World, s: Step, i: nat)
    requires Lawful(jq, w) && Enabled(jq, w, s) && s.Callback? && !Lives(jq, w, i)
    ensures Adds(w.store, Next(jq, w, s).store, i) && News(w.store, Next(jq, w, s).store, w.next)
  {
    if s.found.Some? { FoundIsCallable(w.store, s.event, s.wid, s.found.value); }
  }

  lemma ClaimAdds(jq: Oracle, w: World, s: Step, i: nat)
    requires Enabled(jq, w, s) && s.Claim? && !Lives(jq, w, i)
    ensures w.store.rows[s.row].inst != i
    ensures Adds(w.store, Next(jq, w, s).store, i) && News(w.store, Next(jq, w, s).store, w.next)
  {
  }

  lemma PlainAdds(jq: Oracle, w: World, s: Step, i: nat)
    requires Lawful(jq, w) && Enabled(jq, w, s) && (s.StartFlow? || s.ParkNext? || s.Finish? || s.Republish?)
    requires s.StartFlow? ==> i != w.next
    ensures Adds(w.store, Next(jq, w, s).store, i) && News(w.store, Next(jq, w, s).store, w.next)
  {
  }

  lemma FailAdds(jq: Oracle, w: World, s: Step, i: nat)
    requires Lawful(jq, w) && Enabled(jq, w, s) && s.AttemptFails?
    ensures Adds(w.store, Next(jq, w, s).store, i) && News(w.store, Next(jq, w, s).store, w.next)
  {
    AnnounceAdds(w.store, w.sched.job.row, PlanOf(jq, w.sched.job).work, w.next);
  }

  lemma OtherAdds(jq: Oracle, w: World, output: string, i: nat)
    requires Lawful(jq, w) && Enabled(jq, w, AttemptSucceeds(output)) && w.sched.job.row.inst != i
    ensures Adds(w.store, Next(jq, w, AttemptSucceeds(output)).store, i)
    ensures News(w.store, Next(jq, w, AttemptSucceeds(output)).store, w.next)
  {
    Uncalled(jq, w);
    hide Lawful;
    AnnounceAdds(w.store, w.sched.job.row, PlanOf(jq, w.sched.job).work, w.next);
  }

  /** An attempt for i that succeeds without hope completes it, or names a successor that can not wake. */
  lemma OwnDies(jq: Oracle, w: World, output: string, i: nat)
    requires Lawful(jq, w) && Enabled(jq, w, AttemptSucceeds(output)) && w.sched.job.row.inst == i && !Lives(jq, w, i)
    ensures !Waiting(Next(jq, w, AttemptSucceeds(output)).store, i) && !Callable(Next(jq, w, AttemptSucceeds(output)).store, i)
  {
    Uncalled(jq, w);
    PlanShape(jq, w.sched.job);
    hide Lawful;
    var p, c := PlanOf(jq, w.sched.job), Next(jq, w, AttemptSucceeds(output)).store;
    AnnounceAdds(w.store, w.sched.job.row, p.work, w.next);
    assert c.rows == w.store.rows && c.sent == w.store.sent && c.head == w.store.head && c.called == w.store.called;
    assert forall u :: Sleepable(c, u) == Sleepable(w.store, u);
    assert Waiting(c, i) == Waiting(w.store, i);
    forall j | 0 <= j < |c.events| && j !in c.called && c.events[j].inst == i && c.events[j].parks != End
      ensures !Sleepable(c, c.events[j].tiid)
    {
      if j < |w.store.events| { assert c.events[j] == w.store.events[j]; }
    }
  }

  lemma OtherHistory(jq: Oracle, w: World, s: Step, i: nat)
    requires Enabled(jq, w, s) && i < w.next && !Lives(jq, w, i)
    ensures History(Next(jq, w, s), i) == History(w, i)
  {
  }

  lemma StepDies(jq: Oracle, w: World, s: Step, i: nat)
    requires Lawful(jq, w) && Enabled(jq, w, s) && !Lives(jq, w, i) && i < w.next
    ensures !Lives(jq, Next(jq, w, s), i) && History(Next(jq, w, s), i) == History(w, i)
  {
    var c := Next(jq, w, s).store;
    OtherHistory(jq, w, s, i);
    hide Adds, News, Waiting, Callable, Lawful;
    match s
    case Deliver(written) => TakeDies(jq, w, written, i);
    case Callback(_, _, _) => CallbackAdds(jq, w, s, i); AddsDies(jq, w, c, i);
    case Claim(_, _, _, _, _) => ClaimAdds(jq, w, s, i); AddsDies(jq, w, c, i);
    case AttemptFails(_) => FailAdds(jq, w, s, i); AddsDies(jq, w, c, i);
    case AttemptSucceeds(output) =>
      if w.sched.job.row.inst == i { OwnDies(jq, w, output, i); }
      else { OtherAdds(jq, w, output, i); AddsDies(jq, w, c, i); }
    case _ => PlainAdds(jq, w, s, i); AddsDies(jq, w, c, i);
  }

  lemma {:induction false} DeadStaysDead(jq: Oracle, w: World, steps: seq<Step>, w': World, i: nat)
    requires Lawful(jq, w) && Runs(jq, w, steps, w') && !Lives(jq, w, i) && i < w.next
    ensures History(w', i) == History(w, i)
    decreases |steps|
  {
    if steps != [] {
      StepDies(jq, w, steps[0], i);
      StepLawful(jq, w, steps[0]);
      hide Lawful, Lives, Enabled, Next;
      DeadStaysDead(jq, Next(jq, w, steps[0]), steps[1..], w', i);
    }
  }

  // ---- an instance that lives can execute something ----

  lemma ClaimRuns(jq: Oracle, w: World, k: nat) returns (s: Step)
    requires Housed(w) && w.sched.Idle? && k < |w.store.rows| && w.store.rows[k].status == Wait
    ensures s.Claim? && s.row == k && Enabled(jq, w, s)
    ensures |History(Next(jq, w, s), w.store.rows[k].inst)| == |History(w, w.store.rows[k].inst)| + 1
  {
    var r := w.store.rows[k];
    StoredIsReadable(w.tables, r);
    var task, action, order :| Reads(w.tables, r.wid, r.task, task, action, order);
    s := Claim(k, task, action, order, r.input);
  }

  /** From w some run executes another task of i. */
  ghost predicate Executes(jq: Oracle, w: World, i: nat) {
    exists steps, w' :: Runs(jq, w, steps, w') && Calm(steps) && |History(w', i)| > |History(w, i)|
  }

  lemma ExecutesLater(jq: Oracle, w: World, steps: seq<Step>, v: World, i: nat)
    requires Runs(jq, w, steps, v) && Calm(steps) && v.trace == w.trace && Executes(jq, v, i)
    ensures Executes(jq, w, i)
  {
    var more, w' :| Runs(jq, v, more, w') && Calm(more) && |History(w', i)| > |History(v, i)|;
    RunsOn(jq, w, steps, v, more, w');
    assert Calm(steps + more);
  }

  /** A step that executes nothing itself. */
  lemma OneLater(jq: Oracle, w: World, s: Step, i: nat)
    requires Enabled(jq, w, s) && Calm([s]) && Next(jq, w, s).trace == w.trace && Executes(jq, Next(jq, w, s), i)
    ensures Executes(jq, w, i)
  {
    OneStep(jq, w, s);
    hide Next, Enabled, Executes, Runs;
    ExecutesLater(jq, w, [s], Next(jq, w, s), i);
  }

  lemma ClaimExecutes(jq: Oracle, w: World, k: nat)
    requires Housed(w) && w.sched.Idle? && k < |w.store.rows| && w.store.rows[k].status == Wait
    ensures Executes(jq, w, w.store.rows[k].inst)
  {
    var s := ClaimRuns(jq, w, k);
    OneStep(jq, w, s);
    assert Calm([s]);
  }

  lemma WaitingRowExecutes(jq: Oracle, w: World, k: nat)
    requires Lawful(jq, w) && Housed(w) && k < |w.store.rows| && w.store.rows[k].status == Wait
    ensures Executes(jq, w, w.store.rows[k].inst)
  {
    var steps, v := ComeToRest(jq, w);
    assert v.store.rows[k] == w.store.rows[k];
    RunKeepsHoused(jq, w, steps, v);
    hide Lawful, Housed, Runs, Executes;
    ClaimExecutes(jq, v, k);
    ExecutesLater(jq, w, steps, v, w.store.rows[k].inst);
  }

  lemma WaitingExecutes(jq: Oracle, w: World, i: nat)
    requires Lawful(jq, w) && Housed(w) && Waiting(w.store, i)
    ensures Executes(jq, w, i)
  {
    if k :| 0 <= k < |w.store.rows| && w.store.rows[k].inst == i && w.store.rows[k].status == Wait {
      WaitingRowExecutes(jq, w, k);
    } else {
      var m :| w.store.head <= m < |w.store.sent| && w.store.sent[m].row.inst == i && w.store.sent[m].row.status == Wait;
      var steps, v, k := DeliverTo(jq, w, m);
      RunKeepsHoused(jq, w, steps, v);
      WaitingRowExecutes(jq, v, k);
      ExecutesLater(jq, w, steps, v, i);
    }
  }

  lemma SleepingRowExecutes(jq: Oracle, w: World, i: nat, j: nat, k: nat)
    requires Lawful(jq, w) && Housed(w) && k < |w.store.rows| && w.store.rows[k].status == Sleep
    requires j < |w.store.events| && j !in w.store.called && w.store.events[j].inst == i && w.store.events[j].parks != End
    requires w.store.events[j].tiid == w.store.rows[k].tiid
    ensures Executes(jq, w, i)
  {
    assert Dormant(w.store, w.store.events[j].tiid, i, w.store.events[j].parks);
    var s := Callback(j, "", Some(k));
    var v := Next(jq, w, s);
    assert Enabled(jq, w, s);
    OneStep(jq, w, s);
    StepLawful(jq, w, s);
    StepKeepsHoused(jq, w, s);
    assert v.store.sent[|w.store.sent|].row.inst == i && v.store.sent[|w.store.sent|].row.status == Wait;
    assert Waiting(v.store, i);
    WaitingExecutes(jq, v, i);
    assert Calm([s]);
    ExecutesLater(jq, w, [s], v, i);
  }

  lemma CallableExecutes(jq: Oracle, w: World, i: nat)
    requires Lawful(jq, w) && Housed(w) && Callable(w.store, i)
    ensures Executes(jq, w, i)
  {
    var j :| 0 <= j < |w.store.events| && j !in w.store.called && w.store.events[j].inst == i && w.store.events[j].parks != End &&
      Sleepable(w.store, w.store.events[j].tiid);
    var u := w.store.events[j].tiid;
    if k :| 0 <= k < |w.store.rows| && w.store.rows[k].tiid == u && w.store.rows[k].status == Sleep {
      SleepingRowExecutes(jq, w, i, j, k);
    } else {
      var m :| w.store.head <= m < |w.store.sent| && w.store.sent[m].row.tiid == u && w.store.sent[m].row.status == Sleep;
      var steps, v, k := DeliverTo(jq, w, m);
      RunKeepsHoused(jq, w, steps, v);
      SleepingRowExecutes(jq, v, i, j, k);
      ExecutesLater(jq, w, steps, v, i);
    }
  }

  /** The attempt's event names its parked successor. */
  lemma NamedCallable(jq: Oracle, w: World, i: nat)
    requires Lawful(jq, w) && w.sched.Working? && w.sched.job.row.inst == i && w.sched.parked.Some?
    requires PlanOf(jq, w.sched.job).goal.Park? && PlanOf(jq, w.sched.job).work.Publish? && Sleepable(w.store, w.sched.parked.value)
    ensures Enabled(jq, w, AttemptSucceeds("")) && Next(jq, w, AttemptSucceeds("")).trace == w.trace
    ensures Callable(Next(jq, w, AttemptSucceeds("")).store, i)
  {
    var v := Next(jq, w, AttemptSucceeds(""));
    PlanShape(jq, w.sched.job);
    Uncalled(jq, w);
    hide Lawful;
    var e := v.store.events[|w.store.events|];
    assert e.inst == i && e.parks != End && |w.store.events| !in v.store.called;
    assert Sleepable(v.store, e.tiid) == Sleepable(w.store, e.tiid);
  }

  lemma NamedExecutes(jq: Oracle, w: World, i: nat)
    requires Lawful(jq, w) && Housed(w) && w.sched.Working? && w.sched.job.row.inst == i && w.sched.parked.Some?
    requires PlanOf(jq, w.sched.job).goal.Park? && PlanOf(jq, w.sched.job).work.Publish? && Sleepable(w.store, w.sched.parked.value)
    ensures Executes(jq, w, i)
  {
    var s := AttemptSucceeds("");
    NamedCallable(jq, w, i);
    hide Lawful, Housed, Runs, Next, Enabled, PlanOf, Callable, Sleepable, Executes;
    StepLawful(jq, w, s);
    StepKeepsHoused(jq, w, s);
    CallableExecutes(jq, Next(jq, w, s), i);
    assert Calm([s]);
    OneLater(jq, w, s, i);
  }

  lemma ParkingState(jq: Oracle, w: World, i: nat)
    requires w.sched.Working? && w.sched.job.row.inst == i && w.sched.parked.None? && w.store.head <= |w.store.sent|
    requires PlanOf(jq, w.sched.job).goal.Park? && PlanOf(jq, w.sched.job).work.Publish?
    ensures var v := Next(jq, w, ParkNext);
      Enabled(jq, w, ParkNext) && v.trace == w.trace && v.sched.Working? && v.sched.job == w.sched.job &&
      v.sched.parked == Some(w.next) && Sleepable(v.store, w.next)
  {
    var v := Next(jq, w, ParkNext);
    var m := v.store.sent[|w.store.sent|];
    assert m.row.tiid == w.next && m.row.status == Sleep;
  }

  lemma ParkingExecutes(jq: Oracle, w: World, i: nat)
    requires Lawful(jq, w) && Housed(w) && w.sched.Working? && w.sched.job.row.inst == i && w.sched.parked.None?
    requires PlanOf(jq, w.sched.job).goal.Park? && PlanOf(jq, w.sched.job).work.Publish?
    ensures Executes(jq, w, i)
  {
    Uncalled(jq, w);
    ParkingState(jq, w, i);
    hide Lawful, Housed, Runs, Next, Enabled, PlanOf, Sleepable, Executes;
    StepLawful(jq, w, ParkNext);
    StepKeepsHoused(jq, w, ParkNext);
    NamedExecutes(jq, Next(jq, w, ParkNext), i);
    assert Calm([ParkNext]);
    OneLater(jq, w, ParkNext, i);
  }

  lemma RetryExecutes(jq: Oracle, w: World, i: nat)
    requires Lawful(jq, w) && Housed(w) && w.sched.Working? && w.sched.job.row.inst == i && w.sched.parked.Some?
    requires PlanOf(jq, w.sched.job).goal.Park? && PlanOf(jq, w.sched.job).work.Publish? && w.sched.attempt < MAX_ATTEMPTS
    ensures Executes(jq, w, i)
  {
    var s := AttemptFails(false);
    StepLawful(jq, w, s);
    StepKeepsHoused(jq, w, s);
    hide Lawful, Housed, Executes;
    ParkingExecutes(jq, Next(jq, w, s), i);
    assert Calm([s]);
    OneLater(jq, w, s, i);
  }

  lemma AdvanceExecutes(jq: Oracle, w: World, i: nat)
    requires Lawful(jq, w) && Housed(w) && w.sched.Working? && w.sched.job.row.inst == i
    requires PlanOf(jq, w.sched.job).goal.Advance? && PlanOf(jq, w.sched.job).work != Doomed
    ensures Executes(jq, w, i)
  {
    var s := AttemptSucceeds("");
    var v := Next(jq, w, s);
    AdvanceTargets(jq, w.sched.job);
    OneStep(jq, w, s);
    StepLawful(jq, w, s);
    StepKeepsHoused(jq, w, s);
    AnnounceAdds(w.store, w.sched.job.row, PlanOf(jq, w.sched.job).work, w.next);
    assert v.store.sent[|w.store.sent|].row.inst == i && v.store.sent[|w.store.sent|].row.status == Wait;
    assert Waiting(v.store, i);
    WaitingExecutes(jq, v, i);
    assert Calm([s]);
    ExecutesLater(jq, w, [s], v, i);
  }

  lemma HopefulExecutes(jq: Oracle, w: World, i: nat)
    requires Lawful(jq, w) && Housed(w) && Hopeful(jq, w.store, w.sched, i)
    ensures Executes(jq, w, i)
  {
    if PlanOf(jq, w.sched.job).goal.Advance? { AdvanceExecutes(jq, w, i); }
    else if w.sched.parked.None? { ParkingExecutes(jq, w, i); }
    else if w.sched.attempt < MAX_ATTEMPTS { RetryExecutes(jq, w, i); }
    else { NamedExecutes(jq, w, i); }
  }

  /** Some continuation executes another task of i. */
  ghost predicate CanExecute(jq: Oracle, w: World, i: nat) {
    exists steps, w' :: Runs(jq, w, steps, w') && History(w', i) != History(w, i)
  }

  lemma LivesCanExecute(jq: Oracle, w: World, i: nat)
    requires Lawful(jq, w) && Housed(w) && Lives(jq, w, i)
    ensures CanExecute(jq, w, i)
  {
    if Waiting(w.store, i) { WaitingExecutes(jq, w, i); }
    else if Callable(w.store, i) { CallableExecutes(jq, w, i); }
    else { HopefulExecutes(jq, w, i); }
    var steps, w' :| Runs(jq, w, steps, w') && Calm(steps) && |History(w', i)| > |History(w, i)|;
    assert History(w', i) != History(w, i);
  }

  /** In every reachable state: an instance can still execute a task exactly when a row or a queued
      message of it waits, or an event to come names a successor that is or will be asleep, or the work
      under way for it can still send a token on. */
  lemma ExecutesIffLives(jq: Oracle, w0: World, before: seq<Step>, w: World, i: nat)
    requires Init(w0) && Runs(jq, w0, before, w) && i in w.insts
    ensures CanExecute(jq, w, i) <==> Lives(jq, w, i)
  {
    InitLawful(jq, w0);
    RunLawful(jq, w0, before, w);
    RunKeepsHoused(jq, w0, before, w);
    if Lives(jq, w, i) { LivesCanExecute(jq, w, i); }
    else {
      forall steps, w' | Runs(jq, w, steps, w') ensures History(w', i) == History(w, i) {
        DeadStaysDead(jq, w, steps, w', i);
      }
    }
  }

  // ---- after a delete ----

  /** A SLEEP message about task instance u is still queued. */
  predicate Unborn(b: Store, u: nat) {
    exists k :: b.head <= k < |b.sent| && b.sent[k].row.tiid == u && b.sent[k].row.status == Sleep
  }

  /** What a delete of its workflow does not reach: a queued message of i that waits, an event to come
      whose successor is still queued, and work under way that can send a token on to a row that is not
      there yet. */
  predicate Survives(jq: Oracle, b: Store, s: Scheduler, i: nat) {
    (exists k :: b.head <= k < |b.sent| && b.sent[k].row.inst == i && b.sent[k].row.status == Wait) ||
    (exists j :: 0 <= j < |b.events| && j !in b.called && b.events[j].inst == i && b.events[j].parks != End &&
       Unborn(b, b.events[j].tiid)) ||
    (s.Working? && s.job.row.inst == i &&
     var p := PlanOf(jq, s.job);
     p.work != Doomed &&
     (p.goal.Advance? ||
      (p.goal.Park? && p.work.Publish? && (s.attempt < MAX_ATTEMPTS || s.parked.None? || Unborn(b, s.parked.value)))))
  }

  lemma ForgottenSleepable(w: World, wid: string, i: nat, u: nat, n: Node)
    requires Owned(w) && RunsFlow(w, i, wid) && Dormant(w.store, u, i, n)
    ensures Sleepable(Forget(w.store, Some(wid)), u) <==> Unborn(w.store, u)
  {
    var c := Forget(w.store, Some(wid));
    forall k | 0 <= k < |c.rows| && w.store.rows[k].tiid == u ensures c.rows[k].status == Invalid {
      assert w.store.rows[k].inst == i && Belongs(w.store.rows[k], w.insts);
    }
  }

  lemma ForgottenWaiting(w: World, wid: string, i: nat)
    requires Owned(w) && RunsFlow(w, i, wid)
    ensures Waiting(Forget(w.store, Some(wid)), i) <==>
      exists k :: w.store.head <= k < |w.store.sent| && w.store.sent[k].row.inst == i && w.store.sent[k].row.status == Wait
  {
    var c := Forget(w.store, Some(wid));
    forall k | 0 <= k < |c.rows| && w.store.rows[k].inst == i ensures c.rows[k].status == Invalid {
      assert Belongs(w.store.rows[k], w.insts);
    }
  }

  lemma ForgottenCallable(w: World, wid: string, i: nat)
    requires Owned(w) && Calls(w.store) && RunsFlow(w, i, wid)
    ensures Callable(Forget(w.store, Some(wid)), i) <==>
      exists j :: 0 <= j < |w.store.events| && j !in w.store.called && w.store.events[j].inst == i &&
        w.store.events[j].parks != End && Unborn(w.store, w.store.events[j].tiid)
  {
    forall j | 0 <= j < |w.store.events| && j !in w.store.called && w.store.events[j].inst == i && w.store.events[j].parks != End
      ensures Sleepable(Forget(w.store, Some(wid)), w.store.events[j].tiid) <==> Unborn(w.store, w.store.events[j].tiid)
    {
      ForgottenSleepable(w, wid, i, w.store.events[j].tiid, w.store.events[j].parks);
    }
  }

  lemma ForgottenHopeful(jq: Oracle, w: World, wid: string, i: nat)
    requires Lawful(jq, w) && RunsFlow(w, i, wid) && w.sched.Working? && w.sched.job.row.inst == i && w.sched.parked.Some?
    ensures Sleepable(Forget(w.store, Some(wid)), w.sched.parked.value) <==> Unborn(w.store, w.sched.parked.value)
  {
    ForgottenSleepable(w, wid, i, w.sched.parked.value, PlanOf(jq, w.sched.job).goal.successor);
  }

  lemma SurvivesIsLives(jq: Oracle, w: World, s: Step, i: nat)
    requires Lawful(jq, w) && Enabled(jq, w, s) && Deletes(w, s, i)
    ensures Lives(jq, Next(jq, w, s), i) <==> Survives(jq, w.store, w.sched, i)
  {
    var wid := w.insts[i].wid;
    assert Calls(w.store);
    ForgottenWaiting(w, wid, i);
    ForgottenCallable(w, wid, i);
    if w.sched.Working? && w.sched.job.row.inst == i && w.sched.parked.Some? { ForgottenHopeful(jq, w, wid, i); }
  }

  /** Deleting its workflow stops an instance for good exactly when nothing of it survives: then it
      executes nothing more in any continuation, and otherwise some continuation executes a task. */
  lemma DeleteStopsIff(jq: Oracle, w0: World, before: seq<Step>, w: World, s: Step, i: nat)
    requires Init(w0) && Runs(jq, w0, before, w) && Enabled(jq, w, s) && Deletes(w, s, i)
    ensures CanExecute(jq, Next(jq, w, s), i) <==> Survives(jq, w.store, w.sched, i)
  {
    InitLawful(jq, w0);
    RunLawful(jq, w0, before, w);
    OneStep(jq, w, s);
    RunsOn(jq, w0, before, w, [s], Next(jq, w, s));
    ExecutesIffLives(jq, w0, before + [s], Next(jq, w, s), i);
    SurvivesIsLives(jq, w, s, i);
  }
}
