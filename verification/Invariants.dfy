/** What every step of the protocol keeps, whatever workflows are stored, forks included. */
module Invariants {
  import opened Model
  import opened Executors
  import opened Protocol

  predicate SameIdentity(r: Row, r': Row) {
    r.inst == r'.inst && r.wid == r'.wid && r.task == r'.task && r.tiid == r'.tiid
  }

  /** A row that was deleted keeps its place but takes part in nothing. */
  predicate In(s: Status, a: Status) {
    s == a || s == Invalid
  }

  /** Every id in use was drawn before. */
  predicate Within(b: Store, next: nat) {
    b.head <= |b.sent| && (forall k :: k in b.called ==> k < |b.events|) &&
    (forall k :: 0 <= k < |b.rows| ==> b.rows[k].inst < next && b.rows[k].tiid < next) &&
    (forall k :: 0 <= k < |b.sent| ==> b.sent[k].row.inst < next && b.sent[k].row.tiid < next) &&
    (forall k :: 0 <= k < |b.events| ==> b.events[k].inst < next && b.events[k].tiid < next)
  }

  /** Each task instance id has one home: a row or a message that will insert one. */
  predicate Distinct(b: Store) {
    (forall j, k :: 0 <= j < k < |b.rows| ==> b.rows[j].tiid != b.rows[k].tiid) &&
    (forall j, k :: b.head <= j < k < |b.sent| && b.sent[j].id == 0 && b.sent[k].id == 0 ==>
      b.sent[j].row.tiid != b.sent[k].row.tiid) &&
    (forall j, k :: 0 <= j < |b.rows| && b.head <= k < |b.sent| && b.sent[k].id == 0 ==>
      b.rows[j].tiid != b.sent[k].row.tiid)
  }

  /** A queued message inserts a SLEEP or WAIT row, or wakes its row ... */
  predicate Mail(b: Store) {
    forall k :: b.head <= k < |b.sent| ==>
      if b.sent[k].id == 0 then b.sent[k].row.status in {Sleep, Wait}
      else b.sent[k].id <= |b.rows| && b.sent[k].row.status == Wait &&
           SameIdentity(b.rows[b.sent[k].id - 1], b.sent[k].row) && In(b.rows[b.sent[k].id - 1].status, Sleep) &&
           b.sent[k].row.input == b.rows[b.sent[k].id - 1].input
  }

  /** ... and is the only one that wakes it. */
  predicate MailOnce(b: Store) {
    forall j, k :: b.head <= j < k < |b.sent| && b.sent[j].id != 0 ==> b.sent[j].id != b.sent[k].id
  }

  predicate Unqueued(b: Store, t: nat) {
    forall k :: b.head <= k < |b.sent| ==> b.sent[k].row.tiid != t
  }

  /** Task instance u is parked: its row, inserted or still queued, is the SLEEP successor n. */
  predicate Dormant(b: Store, u: nat, inst: nat, n: Node) {
    (forall k :: 0 <= k < |b.rows| && b.rows[k].tiid == u ==>
      In(b.rows[k].status, Sleep) && b.rows[k].inst == inst && b.rows[k].task == n) &&
    (forall k :: b.head <= k < |b.sent| && b.sent[k].row.tiid == u ==>
      b.sent[k].id == 0 && b.sent[k].row.status == Sleep && b.sent[k].row.inst == inst && b.sent[k].row.task == n)
  }

  /** Task instance t can not be woken, now or later. */
  predicate Spent(b: Store, t: nat) {
    Unqueued(b, t) && forall k :: 0 <= k < |b.rows| && b.rows[k].tiid == t ==> b.rows[k].status != Sleep
  }

  /** No two events name the same parked successor. */
  predicate CallsOnce(b: Store) {
    forall j, k :: 0 <= j < k < |b.events| && b.events[j].parks != End && b.events[k].parks != End ==>
      b.events[j].tiid != b.events[k].tiid
  }

  /** An event names one parked successor, or nothing that can wake. */
  predicate Calls(b: Store) {
    forall j :: 0 <= j < |b.events| && j !in b.called ==>
      if b.events[j].parks == End then Spent(b, b.events[j].tiid)
      else Dormant(b, b.events[j].tiid, b.events[j].inst, b.events[j].parks)
  }

  predicate Fine(b: Store, next: nat) {
    Within(b, next) && Distinct(b) && Mail(b) && MailOnce(b) && CallsOnce(b) && Calls(b)
  }

  // ---- a message for a row that is not there yet ----

  lemma PostFine(b: Store, ms: seq<Message>, next: nat, next': nat)
    requires Fine(b, next) && next <= next'
    requires forall k :: 0 <= k < |ms| ==> ms[k].id == 0 && ms[k].row.status in {Sleep, Wait} &&
                                           ms[k].row.inst < next' && next <= ms[k].row.tiid < next'
    requires forall j, k :: 0 <= j < k < |ms| ==> ms[j].row.tiid != ms[k].row.tiid
    ensures Fine(Post(b, ms), next')
  {
    var c := Post(b, ms);
    assert Within(c, next') by { hide Distinct, Mail, MailOnce, CallsOnce, Calls; }
    assert Distinct(c) by { hide Mail, MailOnce, CallsOnce, Calls; }
    assert Mail(c) && MailOnce(c) by { hide Distinct, CallsOnce, Calls; }
    assert Calls(c) by { hide Distinct, Mail, MailOnce; }
  }

  lemma PostKeeps(b: Store, ms: seq<Message>, t: nat, inst: nat, n: Node)
    requires forall k :: 0 <= k < |ms| ==> ms[k].row.tiid != t
    ensures Unqueued(b, t) ==> Unqueued(Post(b, ms), t)
    ensures Dormant(b, t, inst, n) ==> Dormant(Post(b, ms), t, inst, n)
  {
  }

  // ---- an event ----

  lemma RecordFine(b: Store, e: Notice, next: nat)
    requires Fine(b, next) && e.inst < next && e.tiid < next
    requires e.parks == End ==> Spent(b, e.tiid)
    requires e.parks != End ==> Dormant(b, e.tiid, e.inst, e.parks) &&
                                forall j :: 0 <= j < |b.events| ==> b.events[j].tiid != e.tiid
    ensures Fine(Record(b, e), next)
  {
    var c := Record(b, e);
    assert forall t :: Spent(c, t) == Spent(b, t);
    assert forall u, i, n :: Dormant(c, u, i, n) == Dormant(b, u, i, n);
  }

  // ---- the consumer ----

  lemma TakeFine(b: Store, written: bool, next: nat)
    requires Fine(b, next) && b.head < |b.sent|
    ensures Fine(Take(b, written), next)
  {
    var c := Take(b, written);
    TakeMail(b, written);
    forall j | 0 <= j < |c.events| && j !in c.called
      ensures if c.events[j].parks == End then Spent(c, c.events[j].tiid)
              else Dormant(c, c.events[j].tiid, c.events[j].inst, c.events[j].parks)
    {
      TakeKeeps(b, written, next, c.events[j].tiid, c.events[j].inst, c.events[j].parks);
    }
  }

  lemma TakeMail(b: Store, written: bool)
    requires Distinct(b) && Mail(b) && MailOnce(b) && b.head < |b.sent|
    ensures Distinct(Take(b, written)) && Mail(Take(b, written))
  {
    TakeDistinct(b, written);
  }

  lemma TakeDistinct(b: Store, written: bool)
    requires Distinct(b) && Mail(b) && b.head < |b.sent|
    ensures Distinct(Take(b, written))
  {
  }

  lemma TakeKeeps(b: Store, written: bool, next: nat, t: nat, inst: nat, n: Node)
    requires Within(b, next) && Distinct(b) && Mail(b) && b.head < |b.sent|
    ensures Unqueued(b, t) ==> Unqueued(Take(b, written), t)
    ensures Spent(b, t) ==> Spent(Take(b, written), t)
    ensures Dormant(b, t, inst, n) ==> Dormant(Take(b, written), t, inst, n)
  {
  }

  // ---- a callback ----

  /** A row that a callback finds asleep is the successor its event parked. */
  lemma WakeFinds(b: Store, event: nat, wid: string, row: nat)
    requires Calls(b) && event < |b.events| && event !in b.called
    requires row < |b.rows| && Wakes(b.rows[row], b.events[event], wid)
    ensures b.events[event].parks == b.rows[row].task && b.events[event].parks != End
    ensures Dormant(b, b.rows[row].tiid, b.events[event].inst, b.events[event].parks)
  {
    assert !Spent(b, b.events[event].tiid);
  }

  lemma WakeMail(b: Store, event: nat, row: nat, n: Node)
    requires Distinct(b) && Mail(b) && MailOnce(b) && row < |b.rows| && b.head <= |b.sent|
    requires b.rows[row].status == Sleep && Dormant(b, b.rows[row].tiid, b.rows[row].inst, n)
    ensures Distinct(Wake(b, event, Some(row))) && Mail(Wake(b, event, Some(row))) && MailOnce(Wake(b, event, Some(row)))
  {
    assert Distinct(Wake(b, event, Some(row))) by { hide Mail, MailOnce, Dormant; }
    assert Mail(Wake(b, event, Some(row))) by { hide Distinct, MailOnce; }
    assert MailOnce(Wake(b, event, Some(row))) by { hide Distinct, Mail; }
  }

  lemma WakeKeeps(b: Store, event: nat, row: nat, t: nat, inst: nat, n: Node)
    requires row < |b.rows| && b.rows[row].status == Sleep
    ensures Spent(b, t) ==> Spent(Wake(b, event, Some(row)), t)
    ensures Unqueued(b, t) && b.rows[row].tiid != t ==> Unqueued(Wake(b, event, Some(row)), t)
    ensures Dormant(b, t, inst, n) && b.rows[row].tiid != t ==> Dormant(Wake(b, event, Some(row)), t, inst, n)
  {
  }

  lemma WakeFine(b: Store, event: nat, wid: string, found: Option<nat>, next: nat)
    requires Fine(b, next) && event < |b.events| && event !in b.called
    requires found.Some? ==> found.value < |b.rows| && Wakes(b.rows[found.value], b.events[event], wid)
    ensures Fine(Wake(b, event, found), next)
  {
    var c := Wake(b, event, found);
    if found.None? {
      assert forall t :: Spent(c, t) == Spent(b, t);
      assert forall u, i, n :: Dormant(c, u, i, n) == Dormant(b, u, i, n);
    } else {
      var row := found.value;
      hide Spent, Dormant;
      WakeFinds(b, event, wid, row);
      WakeMail(b, event, row, b.events[event].parks);
      forall j | 0 <= j < |b.events| && j !in c.called
        ensures if b.events[j].parks == End then Spent(c, b.events[j].tiid)
                else Dormant(c, b.events[j].tiid, b.events[j].inst, b.events[j].parks)
      {
        var e := b.events[j];
        WakeKeeps(b, event, row, e.tiid, e.inst, e.parks);
        assert e.parks != End ==> e.tiid != b.events[event].tiid;
      }
    }
  }

  // ---- a status write by the scheduler ----

  /** No event still to be called back names task instance t. */
  predicate Unnamed(b: Store, t: nat) {
    forall j :: 0 <= j < |b.events| && j !in b.called && b.events[j].parks != End ==> b.events[j].tiid != t
  }

  lemma MarkFine(b: Store, row: nat, status: Status, next: nat)
    requires Fine(b, next) && row < |b.rows| && status in {Process, Success, Failed, Invalid}
    requires Unqueued(b, b.rows[row].tiid) && Unnamed(b, b.rows[row].tiid)
    ensures Fine(Mark(b, row, status), next)
  {
    var c := Mark(b, row, status);
    assert Distinct(c) && Mail(c);
    forall j | 0 <= j < |b.events| && j !in b.called
      ensures if b.events[j].parks == End then Spent(c, b.events[j].tiid)
              else Dormant(c, b.events[j].tiid, b.events[j].inst, b.events[j].parks)
    {
      MarkKeeps(b, row, status, b.events[j].tiid, b.events[j].inst, b.events[j].parks);
    }
  }

  lemma MarkKeeps(b: Store, row: nat, status: Status, t: nat, inst: nat, n: Node)
    requires row < |b.rows| && status in {Process, Success, Failed, Invalid}
    ensures Unqueued(Mark(b, row, status), t) == Unqueued(b, t)
    ensures Spent(b, t) ==> Spent(Mark(b, row, status), t)
    ensures Dormant(b, t, inst, n) && b.rows[row].tiid != t ==> Dormant(Mark(b, row, status), t, inst, n)
  {
  }

  /** A WAIT row is in no message and named by no event to come. */
  lemma WaitingIsFree(b: Store, row: nat, next: nat)
    requires Fine(b, next) && row < |b.rows| && b.rows[row].status == Wait
    ensures Unqueued(b, b.rows[row].tiid) && Unnamed(b, b.rows[row].tiid)
  {
    forall k | b.head <= k < |b.sent| ensures b.sent[k].row.tiid != b.rows[row].tiid {
      assert b.sent[k].id != 0 ==> b.sent[k].id - 1 != row;
    }
  }

  // ---- soft deletes ----

  lemma ForgetKeeps(b: Store, gone: Option<string>, t: nat, inst: nat, n: Node)
    ensures Unqueued(Forget(b, gone), t) == Unqueued(b, t)
    ensures Spent(b, t) ==> Spent(Forget(b, gone), t)
    ensures Dormant(b, t, inst, n) ==> Dormant(Forget(b, gone), t, inst, n)
  {
  }

  lemma ForgetFine(b: Store, gone: Option<string>, next: nat, next': nat)
    requires Fine(b, next) && next <= next'
    ensures Fine(Forget(b, gone), next')
  {
    ForgetMail(b, gone);
    ForgetCalls(b, gone);
  }

  lemma ForgetMail(b: Store, gone: Option<string>)
    requires Distinct(b) && Mail(b)
    ensures Distinct(Forget(b, gone)) && Mail(Forget(b, gone))
  {
    assert Distinct(Forget(b, gone)) by { hide Mail; }
    assert Mail(Forget(b, gone)) by { hide Distinct; }
  }

  lemma ForgetCalls(b: Store, gone: Option<string>)
    requires Calls(b)
    ensures Calls(Forget(b, gone))
  {
    hide Spent, Dormant;
    forall j | 0 <= j < |b.events| && j !in b.called
      ensures if b.events[j].parks == End then Spent(Forget(b, gone), b.events[j].tiid)
              else Dormant(Forget(b, gone), b.events[j].tiid, b.events[j].inst, b.events[j].parks)
    {
      ForgetKeeps(b, gone, b.events[j].tiid, b.events[j].inst, b.events[j].parks);
    }
  }

  // ---- the scheduler's claim ----

  /** What the scheduler may rely on about a row under work. */
  predicate Held(b: Store, id: nat, t: nat) {
    id < |b.rows| && b.rows[id].tiid == t && In(b.rows[id].status, Process) && Unqueued(b, t) && Unnamed(b, t)
  }

  /** The successor an attempt has parked is named by no event yet. */
  predicate Pending(b: Store, parked: nat, inst: nat, n: Node) {
    Dormant(b, parked, inst, n) && forall j :: 0 <= j < |b.events| ==> b.events[j].tiid != parked
  }

  predicate Duty(jq: Oracle, b: Store, s: Scheduler, next: nat) {
    match s
    case Idle => true
    case Working(id, job, attempt, parked) =>
      1 <= attempt <= MAX_ATTEMPTS && job.row.inst < next && job.row.tiid < next &&
      Held(b, id, job.row.tiid) && SameIdentity(b.rows[id], job.row) &&
      (parked.Some? ==> PlanOf(jq, job).goal.Park? && parked.value < next && parked.value != job.row.tiid &&
                        Pending(b, parked.value, job.row.inst, PlanOf(jq, job).goal.successor))
    case Ended(id, _) => id < |b.rows| && Held(b, id, b.rows[id].tiid)
  }

  lemma HeldIsSpent(b: Store, id: nat, t: nat)
    requires Held(b, id, t) && Distinct(b)
    ensures Spent(b, t)
  {
  }

  lemma DutyPost(jq: Oracle, b: Store, s: Scheduler, ms: seq<Message>, next: nat, next': nat)
    requires Duty(jq, b, s, next) && next <= next' && Within(b, next)
    requires forall k :: 0 <= k < |ms| ==> next <= ms[k].row.tiid
    ensures Duty(jq, Post(b, ms), s, next')
  {
    if s.Working? {
      PostKeeps(b, ms, s.job.row.tiid, 0, End);
      if s.parked.Some? { PostKeeps(b, ms, s.parked.value, s.job.row.inst, PlanOf(jq, s.job).goal.successor); }
    }
    if s.Ended? { PostKeeps(b, ms, b.rows[s.id].tiid, 0, End); }
  }

  lemma HeldTake(b: Store, written: bool, next: nat, id: nat, t: nat)
    requires Fine(b, next) && b.head < |b.sent| && Held(b, id, t)
    ensures Held(Take(b, written), id, t) && SameIdentity(b.rows[id], Take(b, written).rows[id])
  {
    TakeKeeps(b, written, next, t, 0, End);
  }

  lemma DutyTake(jq: Oracle, b: Store, s: Scheduler, written: bool, next: nat)
    requires Duty(jq, b, s, next) && Fine(b, next) && b.head < |b.sent|
    ensures Duty(jq, Take(b, written), s, next)
  {
    match s
    case Idle =>
    case Ended(id, _) => HeldTake(b, written, next, id, b.rows[id].tiid);
    case Working(id, job, _, parked) =>
      HeldTake(b, written, next, id, job.row.tiid);
      if parked.Some? { TakeKeeps(b, written, next, parked.value, job.row.inst, PlanOf(jq, job).goal.successor); }
  }

  lemma DutyWake(jq: Oracle, b: Store, s: Scheduler, event: nat, wid: string, found: Option<nat>, next: nat)
    requires Duty(jq, b, s, next) && Fine(b, next) && event < |b.events| && event !in b.called
    requires found.Some? ==> found.value < |b.rows| && Wakes(b.rows[found.value], b.events[event], wid)
    ensures Duty(jq, Wake(b, event, found), s, next)
  {
    if found.Some? {
      var row := found.value;
      if !s.Idle? {
        var t := b.rows[s.id].tiid;
        assert b.rows[row].tiid != t by { HeldIsSpent(b, s.id, t); }
        WakeKeeps(b, event, row, t, 0, End);
      }
      if s.Working? && s.parked.Some? {
        WakeKeeps(b, event, row, s.parked.value, s.job.row.inst, PlanOf(jq, s.job).goal.successor);
      }
    }
  }

  lemma DutyForget(jq: Oracle, b: Store, s: Scheduler, gone: Option<string>, next: nat, next': nat)
    requires Duty(jq, b, s, next) && next <= next'
    ensures Duty(jq, Forget(b, gone), s, next')
  {
    if s.Working? && s.parked.Some? {
      ForgetKeeps(b, gone, s.parked.value, s.job.row.inst, PlanOf(jq, s.job).goal.successor);
    }
  }

  // ---- the scheduler's own steps ----

  predicate Shaped(job: Job, p: Plan) {
    (p.goal.Park? ==> p.work in {Nop, Call, Publish(false)} && p.goal.successor != End) &&
    (p.goal.Complete? && p.work == Publish(false) ==> Drawn(job, p) == 1) &&
    (p.goal.Advance? && p.work.Publish? ==> p.work.own) &&
    (p.goal.Nothing? ==> !p.work.Publish?)
  }

  lemma PlanShape(jq: Oracle, job: Job)
    ensures Shaped(job, PlanOf(jq, job))
  {
  }

  lemma FineGrows(b: Store, next: nat, next': nat)
    requires Fine(b, next) && next <= next'
    ensures Fine(b, next')
  {
    assert Within(b, next');
  }

  lemma FreshIsSpent(b: Store, next: nat)
    requires Within(b, next)
    ensures Spent(b, next)
  {
  }

  lemma HeldRecord(b: Store, id: nat, t: nat, e: Notice)
    requires Held(b, id, t) && (e.parks == End || e.tiid != t)
    ensures Held(Record(b, e), id, t)
  {
    assert Unqueued(Record(b, e), t) == Unqueued(b, t);
  }

  lemma AnnounceFine(b: Store, id: nat, r: Row, work: Work, next: nat, next': nat)
    requires Fine(b, next) && Held(b, id, r.tiid) && r.inst < next && r.tiid < next <= next'
    requires work == Publish(false) ==> next < next'
    ensures Fine(Announce(b, r, work, next), next') && Held(Announce(b, r, work, next), id, r.tiid)
  {
    FineGrows(b, next, next');
    if work.Publish? {
      var e := Notice(r.inst, if work.own then r.tiid else next, End);
      assert Spent(b, e.tiid) by { if work.own { HeldIsSpent(b, id, r.tiid); } else { FreshIsSpent(b, next); } }
      RecordFine(b, e, next');
      HeldRecord(b, id, r.tiid, e);
    }
  }

  lemma ClaimKept(jq: Oracle, b: Store, row: nat, job: Job, next: nat)
    requires Fine(b, next) && row < |b.rows| && b.rows[row].status == Wait && SameIdentity(b.rows[row], job.row)
    ensures Fine(Mark(b, row, Process), next)
    ensures Duty(jq, Mark(b, row, Process), Working(row, job, 1, None), next)
  {
    WaitingIsFree(b, row, next);
    MarkFine(b, row, Process, next);
  }

  lemma ParkKept(jq: Oracle, b: Store, s: Scheduler, m: Message, next: nat)
    requires Fine(b, next) && Duty(jq, b, s, next) && s.Working? && s.parked.None?
    requires PlanOf(jq, s.job).goal.Park? && m.id == 0 && m.row.tiid == next && m.row.status == Sleep
    requires m.row.inst == s.job.row.inst && m.row.task == PlanOf(jq, s.job).goal.successor
    ensures Fine(Post(b, [m]), next + 1)
    ensures Duty(jq, Post(b, [m]), s.(parked := Some(next)), next + 1)
  {
    PostFine(b, [m], next, next + 1);
    DutyPost(jq, b, s, [m], next, next + 1);
  }

  lemma FailKept(jq: Oracle, b: Store, s: Scheduler, published: bool, next: nat)
    requires Fine(b, next) && Duty(jq, b, s, next) && s.Working?
    requires CanFail(PlanOf(jq, s.job), s.parked, published)
    ensures var p := PlanOf(jq, s.job); var next' := next + Drawn(s.job, p);
      var c := if published then Announce(b, s.job.row, p.work, next) else b;
      Fine(c, next') && Duty(jq, c, Retry(s), next')
  {
    var p := PlanOf(jq, s.job);
    PlanShape(jq, s.job);
    AnnounceFine(b, s.id, s.job.row, if published then p.work else Nop, next, next + Drawn(s.job, p));
  }

  lemma SucceedKept(jq: Oracle, b: Store, s: Scheduler, p: Plan, ms: seq<Message>, next: nat, next': nat)
    requires Fine(b, next) && Duty(jq, b, s, next) && s.Working? && !p.goal.Park?
    requires p == PlanOf(jq, s.job) && next' == next + Drawn(s.job, p) + |ms| && (!p.goal.Advance? ==> ms == [])
    requires forall k :: 0 <= k < |ms| ==> ms[k].id == 0 && ms[k].row.status == Wait &&
                                           ms[k].row.inst == s.job.row.inst && ms[k].row.tiid == next + k
    ensures var c := Post(Announce(b, s.job.row, p.work, next), ms);
      Fine(c, next') && Duty(jq, c, Ended(s.id, true), next')
  {
    PlanShape(jq, s.job);
    var c := Announce(b, s.job.row, p.work, next);
    var mid := next + Drawn(s.job, p);
    AnnounceFine(b, s.id, s.job.row, p.work, next, mid);
    PostFine(c, ms, mid, next');
    PostKeeps(c, ms, s.job.row.tiid, 0, End);
  }

  lemma ParkSucceedKept(jq: Oracle, b: Store, s: Scheduler, next: nat)
    requires Fine(b, next) && Duty(jq, b, s, next) && s.Working? && s.parked.Some?
    ensures var c := Record(b, Notice(s.job.row.inst, s.parked.value, PlanOf(jq, s.job).goal.successor));
      Fine(c, next) && Duty(jq, c, Ended(s.id, true), next)
  {
    PlanShape(jq, s.job);
    var e := Notice(s.job.row.inst, s.parked.value, PlanOf(jq, s.job).goal.successor);
    RecordFine(b, e, next);
    HeldRecord(b, s.id, s.job.row.tiid, e);
  }

  // ---- every step, every run ----

  ghost predicate Inv(jq: Oracle, w: World) {
    Fine(w.store, w.next) && Duty(jq, w.store, w.sched, w.next)
  }

  lemma StartPosted(jq: Oracle, b: Store, s: Scheduler, m: Message, next: nat)
    requires Fine(b, next) && Duty(jq, b, s, next)
    requires m.id == 0 && m.row.status == Wait && m.row.inst == next && m.row.tiid == next + 1
    ensures Fine(Post(b, [m]), next + 2) && Duty(jq, Post(b, [m]), s, next + 2)
  {
    PostFine(b, [m], next, next + 2);
    DutyPost(jq, b, s, [m], next, next + 2);
  }

  lemma StartKept(jq: Oracle, w: World, r: Relation, input: string)
    requires Inv(jq, w)
    ensures Inv(jq, Started(w, r, input))
  {
    hide Fine, Duty;
    StartPosted(jq, w.store, w.sched, Message(0, Row(w.next, r.wid, r.to, w.next + 1, Wait, input)), w.next);
  }

  lemma DeliverKept(jq: Oracle, w: World, written: bool)
    requires Inv(jq, w) && w.store.head < |w.store.sent|
    ensures Inv(jq, w.(store := Take(w.store, written)))
  {
    TakeFine(w.store, written, w.next);
    DutyTake(jq, w.store, w.sched, written, w.next);
  }

  lemma CallbackKept(jq: Oracle, w: World, s: Step)
    requires Inv(jq, w) && Enabled(jq, w, s) && s.Callback?
    ensures Inv(jq, Next(jq, w, s))
  {
    WakeFine(w.store, s.event, s.wid, s.found, w.next);
    DutyWake(jq, w.store, w.sched, s.event, s.wid, s.found, w.next);
  }

  lemma RepublishKept(jq: Oracle, w: World, s: Step)
    requires Inv(jq, w) && Enabled(jq, w, s) && s.Republish?
    ensures Inv(jq, Next(jq, w, s))
  {
    ForgetFine(w.store, s.gone, w.next, s.next);
    DutyForget(jq, w.store, w.sched, s.gone, w.next, s.next);
  }

  lemma WorkKept(jq: Oracle, w: World, s: Step)
    requires Inv(jq, w) && Enabled(jq, w, s) && (s.Claim? || s.ParkNext? || s.AttemptFails?)
    ensures Inv(jq, Next(jq, w, s))
  {
    match s
    case Claim(row, task, action, order, input) =>
      var r := w.store.rows[row].(status := Process, input := input);
      ClaimKept(jq, w.store, row, Job(r, w.tables.tasks[task].kind, action, order), w.next);
    case ParkNext =>
      var r := w.sched.job.row;
      ParkKept(jq, w.store, w.sched,
        Message(0, Row(r.inst, r.wid, PlanOf(jq, w.sched.job).goal.successor, w.next, Sleep, r.input)), w.next);
    case AttemptFails(published) => FailKept(jq, w.store, w.sched, published, w.next);
  }

  lemma AchievedKept(jq: Oracle, w: World, output: string)
    requires Inv(jq, w) && w.sched.Working? && CanSucceed(PlanOf(jq, w.sched.job), w.sched.parked)
    ensures Inv(jq, Achieved(w, PlanOf(jq, w.sched.job), output))
  {
    var p := PlanOf(jq, w.sched.job);
    PlanShape(jq, w.sched.job);
    match p.goal
    case Park(_) => if p.work.Publish? { ParkSucceedKept(jq, w.store, w.sched, w.next); }
    case Advance(ns) =>
      SucceedKept(jq, w.store, w.sched, p, Spawn(w.sched.job.row, ns, output, w.next), w.next, w.next + |ns|);
    case Complete =>
      SucceedKept(jq, w.store, w.sched, p, [], w.next, w.next + Drawn(w.sched.job, p));
      assert forall b: Store :: Post(b, []) == b;
    case Nothing =>
  }

  lemma FinishKept(jq: Oracle, w: World)
    requires Inv(jq, w) && w.sched.Ended?
    ensures w.sched.id < |w.store.rows| && Inv(jq, Next(jq, w, Finish))
  {
    MarkFine(w.store, w.sched.id, FinalStatus(w.store.rows[w.sched.id], w.sched.ok), w.next);
  }

  /** Every step of the protocol keeps the invariant. */
  lemma StepKeepsInv(jq: Oracle, w: World, s: Step)
    requires Inv(jq, w) && Enabled(jq, w, s)
    ensures Inv(jq, Next(jq, w, s))
  {
    match s
    case StartFlow(relation, input) => StartKept(jq, w, w.tables.relations[relation], input);
    case Deliver(written) => DeliverKept(jq, w, written);
    case Callback(_, _, _) => CallbackKept(jq, w, s);
    case AttemptSucceeds(output) => AchievedKept(jq, w, output);
    case Finish => FinishKept(jq, w);
    case Republish(_, _, _) => RepublishKept(jq, w, s);
    case _ => WorkKept(jq, w, s);
  }

  lemma RunKeepsInv(jq: Oracle, w: World, steps: seq<Step>, w': World)
    requires Inv(jq, w) && Runs(jq, w, steps, w')
    ensures Inv(jq, w')
    decreases |steps|
  {
    if steps != [] {
      StepKeepsInv(jq, w, steps[0]);
      RunKeepsInv(jq, Next(jq, w, steps[0]), steps[1..], w');
    }
  }
}
