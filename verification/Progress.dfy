/** Building runs: what the scheduler, the consumer and the callbacks can do from a given state. */
module Progress {
  import opened Model
  import opened Executors
  import opened Protocol
  import opened Invariants
  import opened Records
  import opened Tokens

  /** The steps save and delete nothing. */
  predicate Calm(steps: seq<Step>) {
    forall s :: s in steps ==> !s.Republish?
  }

  lemma Chain(jq: Oracle, w: World, s: Step, rest: seq<Step>, w': World)
    requires Enabled(jq, w, s) && Runs(jq, Next(jq, w, s), rest, w')
    ensures Runs(jq, w, [s] + rest, w')
  {
    OneStep(jq, w, s);
    RunsOn(jq, w, [s], Next(jq, w, s), rest, w');
  }

  // ---- the consumer ----

  /** The rows after every queued message has been written. */
  function Flushed(b: Store): Store
    requires b.head <= |b.sent|
    decreases |b.sent| - b.head
  {
    if b.head == |b.sent| then b else Flushed(Take(b, true))
  }

  /** The consumer can write every queued message. */
  lemma {:induction false} Flush(jq: Oracle, w: World) returns (steps: seq<Step>)
    requires w.store.head <= |w.store.sent|
    ensures Runs(jq, w, steps, w.(store := Flushed(w.store))) && Calm(steps)
    decreases |w.store.sent| - w.store.head
  {
    if w.store.head == |w.store.sent| { steps := []; }
    else {
      var v := Next(jq, w, Deliver(true));
      var rest := Flush(jq, v);
      Chain(jq, w, Deliver(true), rest, w.(store := Flushed(w.store)));
      steps := [Deliver(true)] + rest;
    }
  }

  lemma {:induction false} FlushedKeeps(b: Store)
    requires b.head <= |b.sent|
    ensures var c := Flushed(b);
      c.head == |c.sent| && c.sent == b.sent && c.events == b.events && c.called == b.called && |b.rows| <= |c.rows|
    decreases |b.sent| - b.head
  {
    if b.head < |b.sent| { FlushedKeeps(Take(b, true)); }
  }

  function RowsOf(ms: seq<Message>): (r: seq<Row>)
    ensures |r| == |ms| && forall k :: 0 <= k < |r| ==> r[k] == ms[k].row
  {
    seq(|ms|, k requires 0 <= k < |ms| => ms[k].row)
  }

  /** Inserts append their rows in order. */
  lemma {:induction false} FlushedInserts(b: Store)
    requires b.head <= |b.sent| && forall k :: b.head <= k < |b.sent| ==> b.sent[k].id == 0
    ensures Flushed(b).rows == b.rows + RowsOf(b.sent[b.head..])
    decreases |b.sent| - b.head
  {
    if b.head < |b.sent| {
      FlushedInserts(Take(b, true));
      assert RowsOf(b.sent[b.head..]) == [b.sent[b.head].row] + RowsOf(b.sent[b.head + 1..]);
    } else {
      assert RowsOf(b.sent[b.head..]) == [];
    }
  }

  /** The consumer can write every message before m. */
  lemma {:induction false} DeliverUntil(jq: Oracle, w: World, m: nat) returns (steps: seq<Step>, w': World)
    requires w.store.head <= m <= |w.store.sent|
    ensures Runs(jq, w, steps, w') && Calm(steps)
    ensures w' == w.(store := w.store.(head := m, rows := w'.store.rows))
    decreases m - w.store.head
  {
    if w.store.head == m { steps, w' := [], w; }
    else {
      var rest;
      rest, w' := DeliverUntil(jq, Next(jq, w, Deliver(true)), m);
      Chain(jq, w, Deliver(true), rest, w');
      steps := [Deliver(true)] + rest;
    }
  }

  /** A written message leaves a row: a new one, or the one it wakes. */
  lemma DeliveredRow(jq: Oracle, w: World) returns (k: nat)
    requires Lawful(jq, w) && w.store.head < |w.store.sent|
    ensures var m, b := w.store.sent[w.store.head], Take(w.store, true);
      k < |b.rows| && b.rows[k].status == m.row.status && b.rows[k].inst == m.row.inst && b.rows[k].tiid == m.row.tiid
  {
    assert Mail(w.store);
    k := if w.store.sent[w.store.head].id == 0 then |w.store.rows| else w.store.sent[w.store.head].id - 1;
  }

  /** The consumer can go on until message m has been written. */
  lemma DeliverTo(jq: Oracle, w: World, m: nat) returns (steps: seq<Step>, w': World, k: nat)
    requires Lawful(jq, w) && w.store.head <= m < |w.store.sent|
    ensures Runs(jq, w, steps, w') && Calm(steps) && Lawful(jq, w')
    ensures w' == w.(store := w.store.(head := m + 1, rows := w'.store.rows)) && k < |w'.store.rows|
    ensures var r, was := w'.store.rows[k], w.store.sent[m].row;
      r.status == was.status && r.inst == was.inst && r.tiid == was.tiid
  {
    var v;
    steps, v := DeliverUntil(jq, w, m);
    RunLawful(jq, w, steps, v);
    k := DeliveredRow(jq, v);
    w' := Next(jq, v, Deliver(true));
    StepLawful(jq, v, Deliver(true));
    OneStep(jq, v, Deliver(true));
    RunsOn(jq, w, steps, v, [Deliver(true)], w');
    steps := steps + [Deliver(true)];
  }

  // ---- the scheduler ----

  /** The scheduler can always come to rest without claiming anything, and rows that wait stay so. */
  lemma {:induction false} ComeToRest(jq: Oracle, w: World) returns (steps: seq<Step>, w': World)
    requires Lawful(jq, w)
    ensures Runs(jq, w, steps, w') && Calm(steps) && Lawful(jq, w') && w'.sched.Idle? && w'.trace == w.trace
    ensures forall k :: 0 <= k < |w.store.rows| && w.store.rows[k].status == Wait ==>
      k < |w'.store.rows| && w'.store.rows[k] == w.store.rows[k]
    decreases if w.sched.Idle? then 0 else if w.sched.Ended? then 1
      else if w.sched.attempt > MAX_ATTEMPTS then 2 else 2 + 2 * (MAX_ATTEMPTS - w.sched.attempt) + if w.sched.parked.None? then 1 else 0
  {
    if w.sched.Idle? { steps, w' := [], w; }
    else {
      var s := if w.sched.Ended? then Finish else NextMove(jq, w);
      RestStep(jq, w, s);
      StepLawful(jq, w, s);
      hide Lawful, Next, Enabled, PlanOf;
      var rest;
      rest, w' := ComeToRest(jq, Next(jq, w, s));
      Chain(jq, w, s, rest, w');
      steps := [s] + rest;
    }
  }

  /** A step that brings the work under way nearer to its end. */
  function NextMove(jq: Oracle, w: World): Step
    requires w.sched.Working?
  {
    var p := PlanOf(jq, w.sched.job);
    if p.goal.Park? && w.sched.parked.None? then ParkNext
    else if p.work.Doomed? then AttemptFails(false)
    else AttemptSucceeds("")
  }

  lemma RestStep(jq: Oracle, w: World, s: Step)
    requires Lawful(jq, w) && ((w.sched.Ended? && s == Finish) || (w.sched.Working? && s == NextMove(jq, w)))
    ensures Enabled(jq, w, s) && Next(jq, w, s).trace == w.trace
    ensures w.sched.Working? && s.ParkNext? ==> Next(jq, w, s).sched == w.sched.(parked := Some(w.next))
    ensures w.sched.Working? && s.AttemptFails? ==> Next(jq, w, s).sched == Retry(w.sched)
    ensures s.AttemptSucceeds? ==> Next(jq, w, s).sched.Ended?
    ensures s.Finish? ==> Next(jq, w, s).sched.Idle?
    ensures forall k :: 0 <= k < |w.store.rows| && w.store.rows[k].status == Wait ==>
      k < |Next(jq, w, s).store.rows| && Next(jq, w, s).store.rows[k] == w.store.rows[k]
  {
    if w.sched.Working? { PlanShape(jq, w.sched.job); }
  }
}
