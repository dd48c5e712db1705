/** Retrying an operation never forks its run. */
module Retries {
  import opened Model
  import opened Executors
  import opened Protocol
  import opened Invariants

  /** A parked task instance that no event names and that the scheduler is done with. */
  predicate Orphan(b: Store, s: Scheduler, u: nat, inst: nat, n: Node) {
    Dormant(b, u, inst, n) &&
    (forall j :: 0 <= j < |b.events| ==> b.events[j].tiid != u) &&
    (s.Working? ==> s.job.row.tiid != u && s.parked != Some(u)) &&
    (s.Ended? ==> s.id < |b.rows| && b.rows[s.id].tiid != u)
  }

  /** The successor parked by an attempt that fails is an orphan from then on. */
  lemma FailureOrphans(jq: Oracle, w: World)
    requires Inv(jq, w) && Enabled(jq, w, AttemptFails(false)) && w.sched.parked.Some?
    ensures var w' := Next(jq, w, AttemptFails(false));
      Orphan(w'.store, w'.sched, w.sched.parked.value, w.sched.job.row.inst, PlanOf(jq, w.sched.job).goal.successor)
  {
  }

  lemma OrphanTaken(b: Store, s: Scheduler, written: bool, next: nat, u: nat, inst: nat, n: Node)
    requires Fine(b, next) && b.head < |b.sent| && Orphan(b, s, u, inst, n)
    requires s.Ended? ==> s.id < |b.rows| && Held(b, s.id, b.rows[s.id].tiid)
    ensures Orphan(Take(b, written), s, u, inst, n)
  {
    TakeKeeps(b, written, next, u, inst, n);
    if s.Ended? { HeldTake(b, written, next, s.id, b.rows[s.id].tiid); }
  }

  lemma OrphanCalled(b: Store, s: Scheduler, event: nat, wid: string, found: Option<nat>, u: nat, inst: nat, n: Node)
    requires event < |b.events| && Orphan(b, s, u, inst, n)
    requires found.Some? ==> found.value < |b.rows| && Wakes(b.rows[found.value], b.events[event], wid)
    ensures Orphan(Wake(b, event, found), s, u, inst, n)
  {
    if found.Some? { WakeKeeps(b, event, found.value, u, inst, n); }
  }

  lemma OrphanMarked(b: Store, row: nat, status: Status, u: nat, inst: nat, n: Node)
    requires row < |b.rows| && status in {Process, Success, Failed, Invalid} && b.rows[row].tiid != u
    requires Orphan(b, Idle, u, inst, n)
    ensures Orphan(Mark(b, row, status), Idle, u, inst, n)
  {
    MarkKeeps(b, row, status, u, inst, n);
  }

  lemma OrphanPosted(b: Store, ms: seq<Message>, u: nat, inst: nat, n: Node)
    requires Orphan(b, Idle, u, inst, n) && forall k :: 0 <= k < |ms| ==> ms[k].row.tiid != u
    ensures Orphan(Post(b, ms), Idle, u, inst, n)
  {
    PostKeeps(b, ms, u, inst, n);
  }

  lemma OrphanAnnounced(b: Store, r: Row, work: Work, next: nat, u: nat, inst: nat, n: Node)
    requires Orphan(b, Idle, u, inst, n) && r.tiid != u && next != u
    ensures Orphan(Announce(b, r, work, next), Idle, u, inst, n)
  {
  }

  lemma OrphanWorked(jq: Oracle, w: World, s: Step, u: nat, inst: nat, n: Node)
    requires Inv(jq, w) && Enabled(jq, w, s) && u < w.next && Orphan(w.store, w.sched, u, inst, n)
    requires s.Claim? || s.ParkNext? || s.AttemptFails? || s.Finish?
    ensures Orphan(Next(jq, w, s).store, Next(jq, w, s).sched, u, inst, n)
  {
    match s
    case Claim(row, _, _, _, _) => OrphanMarked(w.store, row, Process, u, inst, n);
    case ParkNext =>
      var r := w.sched.job.row;
      OrphanPosted(w.store, [Message(0, Row(r.inst, r.wid, PlanOf(jq, w.sched.job).goal.successor, w.next, Sleep, r.input))], u, inst, n);
    case AttemptFails(published) => OrphanAnnounced(w.store, w.sched.job.row, PlanOf(jq, w.sched.job).work, w.next, u, inst, n);
    case Finish => OrphanMarked(w.store, w.sched.id, FinalStatus(w.store.rows[w.sched.id], w.sched.ok), u, inst, n);
  }

  lemma OrphanAchieved(jq: Oracle, w: World, output: string, u: nat, inst: nat, n: Node)
    requires Inv(jq, w) && Enabled(jq, w, AttemptSucceeds(output)) && u < w.next && Orphan(w.store, w.sched, u, inst, n)
    ensures Orphan(Achieved(w, PlanOf(jq, w.sched.job), output).store, Ended(w.sched.id, true), u, inst, n)
  {
    var p, r := PlanOf(jq, w.sched.job), w.sched.job.row;
    OrphanAnnounced(w.store, r, p.work, w.next, u, inst, n);
    if p.goal.Advance? {
      OrphanPosted(Announce(w.store, r, p.work, w.next), Spawn(r, p.goal.successors, output, w.next), u, inst, n);
    }
  }

  lemma OrphanStays(jq: Oracle, w: World, s: Step, u: nat, inst: nat, n: Node)
    requires Inv(jq, w) && Enabled(jq, w, s) && u < w.next && Orphan(w.store, w.sched, u, inst, n)
    ensures Orphan(Next(jq, w, s).store, Next(jq, w, s).sched, u, inst, n)
  {
    hide Dormant;
    match s
    case StartFlow(relation, input) =>
      var r := w.tables.relations[relation];
      OrphanPosted(w.store, [Message(0, Row(w.next, r.wid, r.to, w.next + 1, Wait, input))], u, inst, n);
    case Deliver(written) => OrphanTaken(w.store, w.sched, written, w.next, u, inst, n);
    case Callback(event, wid, found) => OrphanCalled(w.store, w.sched, event, wid, found, u, inst, n);
    case Republish(_, _, gone) => ForgetKeeps(w.store, gone, u, inst, n);
    case AttemptSucceeds(output) => OrphanAchieved(jq, w, output, u, inst, n);
    case _ => OrphanWorked(jq, w, s, u, inst, n);
  }

  /** An orphan never wakes: in every continuation its row, if it has one, is never claimed. */
  lemma {:induction false} OrphanForever(jq: Oracle, w: World, steps: seq<Step>, w': World, u: nat, inst: nat, n: Node)
    requires Inv(jq, w) && Runs(jq, w, steps, w') && u < w.next && Orphan(w.store, w.sched, u, inst, n)
    ensures forall k :: 0 <= k < |w'.store.rows| && w'.store.rows[k].tiid == u ==> w'.store.rows[k].status in {Sleep, Invalid}
    ensures forall j :: 0 <= j < |w'.store.events| ==> w'.store.events[j].tiid != u
    decreases |steps|
  {
    if steps != [] {
      OrphanStays(jq, w, steps[0], u, inst, n);
      StepKeepsInv(jq, w, steps[0]);
      assert w.next <= Next(jq, w, steps[0]).next;
      OrphanForever(jq, Next(jq, w, steps[0]), steps[1..], w', u, inst, n);
    }
  }

  /** In any run: the successor parked by an attempt that then fails sleeps for ever. */
  lemma FailedParkSleeps(jq: Oracle, w0: World, before: seq<Step>, w: World, after: seq<Step>, w': World)
    requires Init(w0) && Runs(jq, w0, before, w) && Enabled(jq, w, AttemptFails(false)) && w.sched.parked.Some?
    requires Runs(jq, Next(jq, w, AttemptFails(false)), after, w')
    ensures var u := w.sched.parked.value;
      (forall k :: 0 <= k < |w'.store.rows| && w'.store.rows[k].tiid == u ==> w'.store.rows[k].status in {Sleep, Invalid}) &&
      forall j :: 0 <= j < |w'.store.events| ==> w'.store.events[j].tiid != u
  {
    RunKeepsInv(jq, w0, before, w);
    StepKeepsInv(jq, w, AttemptFails(false));
    FailureOrphans(jq, w);
    assert w.sched.parked.value < w.next;
    var job := w.sched.job;
    OrphanForever(jq, Next(jq, w, AttemptFails(false)), after, w', w.sched.parked.value, job.row.inst, PlanOf(jq, job).goal.successor);
  }

  /** How many of the events name a parked successor. */
  function Parking(events: seq<Notice>): nat {
    if events == [] then 0 else (if events[0].parks != End then 1 else 0) + Parking(events[1..])
  }

  lemma {:induction false} ParkingAppend(a: seq<Notice>, b: seq<Notice>)
    ensures Parking(a + b) == Parking(a) + Parking(b)
  {
    if a == [] { assert a + b == b; } else { assert (a + b)[1..] == a[1..] + b; ParkingAppend(a[1..], b); }
  }

  /** How many successors were queued in SLEEP. */
  function Parks(steps: seq<Step>): nat {
    if steps == [] then 0 else (if steps[0].ParkNext? then 1 else 0) + Parks(steps[1..])
  }

  /** The attempts of this claim that have queued a successor so far. */
  function Used(s: Scheduler): int {
    if s.Working? then s.attempt - 1 + (if s.parked.Some? then 1 else 0) else 0
  }

  lemma {:induction false} NothingParks(jq: Oracle, w: World, steps: seq<Step>, w': World)
    requires Runs(jq, w, steps, w') && w.sched.Ended? && Finish !in steps
    ensures Parks(steps) == 0 && w'.store.events == w.store.events && w'.sched == w.sched
    decreases |steps|
  {
    if steps != [] {
      assert steps[0] != Finish && Finish !in steps[1..];
      NothingParks(jq, Next(jq, w, steps[0]), steps[1..], w');
    }
  }

  /** The event of a successful attempt: it names the successor parked last. */
  function Named(jq: Oracle, s: Scheduler): seq<Notice>
    requires s.Working? && PlanOf(jq, s.job).goal.Park? && s.parked.Some?
  {
    if PlanOf(jq, s.job).work.Publish?
    then [Notice(s.job.row.inst, s.parked.value, PlanOf(jq, s.job).goal.successor)] else []
  }

  lemma AttemptStep(jq: Oracle, w: World, s: Step)
    requires Enabled(jq, w, s) && w.sched.Working? && 1 <= w.sched.attempt <= MAX_ATTEMPTS && PlanOf(jq, w.sched.job).goal.Park?
    ensures var v := Next(jq, w, s);
      (v.sched.Working? ==> v.store.events == w.store.events && v.sched.job == w.sched.job && 1 <= v.sched.attempt <= MAX_ATTEMPTS &&
                            Used(v.sched) == Used(w.sched) + (if s.ParkNext? then 1 else 0)) &&
      (v.sched.Ended? ==> !s.ParkNext? && w.sched.parked.Some?) &&
      (v.sched.Ended? && !v.sched.ok ==> v.store.events == w.store.events && Used(w.sched) == MAX_ATTEMPTS) &&
      (v.sched.Ended? && v.sched.ok ==> v.store.events == w.store.events + Named(jq, w.sched))
    ensures s != Finish && (Next(jq, w, s).sched.Working? || Next(jq, w, s).sched.Ended?)
  {
  }

  /** From the claim of a task with a successor to its end: each attempt queues at most one SLEEP
      successor, so at most five in all; no failed attempt publishes an event that names one; and
      the successful attempt names exactly one when it publishes, and none otherwise. */
  lemma {:induction false} AttemptsPark(jq: Oracle, w: World, steps: seq<Step>, w': World)
    requires Runs(jq, w, steps, w') && w.sched.Working? && 1 <= w.sched.attempt <= MAX_ATTEMPTS && Finish !in steps
    requires PlanOf(jq, w.sched.job).goal.Park?
    ensures Used(w.sched) + Parks(steps) <= 5
    ensures w'.sched.Working? || w'.sched.Ended?
    ensures w'.sched.Working? ==> w'.store.events == w.store.events && Used(w'.sched) == Used(w.sched) + Parks(steps)
    ensures w'.sched.Ended? && !w'.sched.ok ==> w'.store.events == w.store.events && Used(w.sched) + Parks(steps) == 5
    ensures w'.sched.Ended? && w'.sched.ok ==>
      Parking(w'.store.events) == Parking(w.store.events) + if PlanOf(jq, w.sched.job).work.Publish? then 1 else 0
    decreases |steps|
  {
    PlanShape(jq, w.sched.job);
    if steps != [] {
      var v := Next(jq, w, steps[0]);
      AttemptStep(jq, w, steps[0]);
      assert Finish !in steps[1..];
      if v.sched.Working? {
        AttemptsPark(jq, v, steps[1..], w');
      } else {
        NothingParks(jq, v, steps[1..], w');
        if v.sched.ok { ParkingAppend(w.store.events, v.store.events[|w.store.events|..]); }
      }
    }
  }
}
