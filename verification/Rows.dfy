/** Row status only moves forward, identities never change, and no work dangles. */
module Rows {
  import opened Model
  import opened Executors
  import opened Protocol
  import opened Invariants

  /** The edges of the documented life cycle of a task instance. */
  predicate Forward(s: Status, s': Status) {
    s' == s || (s == Sleep && s' == Wait) || (s == Wait && s' == Process) || (s == Process && s' in {Success, Failed})
  }

  /** A row keeps its identity and its input, and unless it is or becomes deleted moves at most one
      edge forward. */
  predicate RowMoves(r: Row, r': Row, deleted: bool) {
    SameIdentity(r, r') && r'.input == r.input && (r.status != Invalid && !deleted ==> Forward(r.status, r'.status))
  }

  lemma TakeMovesRow(b: Store, written: bool, k: nat)
    requires Mail(b) && b.head < |b.sent| && k < |b.rows|
    ensures k < |Take(b, written).rows| && RowMoves(b.rows[k], Take(b, written).rows[k], false)
  {
  }

  lemma RowsStay(jq: Oracle, w: World, s: Step)
    requires Enabled(jq, w, s) && (s.StartFlow? || s.Callback? || s.ParkNext? || s.AttemptFails? || s.AttemptSucceeds?)
    ensures Next(jq, w, s).store.rows == w.store.rows
  {
  }

  lemma SchedulerMovesRow(jq: Oracle, w: World, s: Step, k: nat)
    requires Inv(jq, w) && Enabled(jq, w, s) && (s.Claim? || s.Finish?) && k < |w.store.rows|
    ensures k < |Next(jq, w, s).store.rows| && RowMoves(w.store.rows[k], Next(jq, w, s).store.rows[k], false)
  {
  }

  /** A step moves every live row at most one edge forward and keeps its identity and its input;
      only a delete of the row's workflow does otherwise. */
  lemma StepMovesForward(jq: Oracle, w: World, s: Step, k: nat)
    requires Inv(jq, w) && Enabled(jq, w, s) && k < |w.store.rows|
    ensures k < |Next(jq, w, s).store.rows|
    ensures RowMoves(w.store.rows[k], Next(jq, w, s).store.rows[k], s.Republish? && s.gone == Some(w.store.rows[k].wid))
  {
    match s
    case Deliver(written) => assert Mail(w.store); TakeMovesRow(w.store, written, k);
    case Claim(_, _, _, _, _) => SchedulerMovesRow(jq, w, s, k);
    case Finish => SchedulerMovesRow(jq, w, s, k);
    case Republish(_, _, _) =>
    case _ => RowsStay(jq, w, s);
  }

  function Rank(s: Status): nat {
    match s case Sleep => 0 case Wait => 1 case Process => 2 case _ => 3
  }

  /** r' is what r may have become: further on or where it was, with its identity and its input. */
  predicate Later(r: Row, r': Row) {
    SameIdentity(r, r') && r'.input == r.input && r'.status != Invalid && Rank(r.status) <= Rank(r'.status) &&
    (r.status in {Success, Failed} ==> r'.status == r.status)
  }

  /** What r may have become; `spared` says that its workflow was not deleted meanwhile. */
  predicate Became(r: Row, r': Row, spared: bool) {
    SameIdentity(r, r') && r'.input == r.input && (r.status != Invalid && spared ==> Later(r, r'))
  }

  lemma BecameOn(r: Row, v: Row, r': Row, deleted: bool, spared: bool)
    requires RowMoves(r, v, deleted) && Became(v, r', spared)
    ensures Became(r, r', spared && !deleted)
  {
  }

  /** Along any run, from any reachable state and with any saves and deletes, the identity and the
      input of a row never change; and unless its own workflow is deleted its status never goes back
      and a final status stays. */
  lemma {:induction false} RunMovesForward(jq: Oracle, w: World, steps: seq<Step>, w': World, k: nat)
    requires Inv(jq, w) && Runs(jq, w, steps, w') && k < |w.store.rows|
    ensures k < |w'.store.rows| && Became(w.store.rows[k], w'.store.rows[k], Spares(steps, w.store.rows[k].wid))
    decreases |steps|
  {
    if steps != [] {
      var v := Next(jq, w, steps[0]);
      StepMovesForward(jq, w, steps[0], k);
      StepKeepsInv(jq, w, steps[0]);
      hide Inv, Enabled, Next, Later;
      RunMovesForward(jq, v, steps[1..], w', k);
      BecameOn(w.store.rows[k], v.store.rows[k], w'.store.rows[k],
        steps[0].Republish? && steps[0].gone == Some(w.store.rows[k].wid), Spares(steps[1..], w.store.rows[k].wid));
    }
  }

  /** A callback for a task instance whose row is not SLEEP, or not there, changes no row and queues nothing. */
  lemma StaleCallbackIsIgnored(jq: Oracle, w: World, event: nat, wid: string, found: Option<nat>)
    requires Enabled(jq, w, Callback(event, wid, found))
    requires forall k :: 0 <= k < |w.store.rows| && w.store.rows[k].tiid == w.store.events[event].tiid ==>
      w.store.rows[k].status != Sleep
    ensures Next(jq, w, Callback(event, wid, found)) == w.(store := w.store.(called := w.store.called + {event}))
  {
  }

  /** Why a callback may come only once: two callbacks that both find the row asleep queue it twice,
      and the second message puts it back to WAIT after it was claimed. */
  lemma SecondCallbackRepeats(b: Store, event: nat, row: nat)
    requires b.head == |b.sent| && row < |b.rows| && b.rows[row].status == Sleep
    ensures var twice := Wake(Wake(b, event, Some(row)), event, Some(row));
      var claimed := Mark(Take(twice, true), row, Process);
      claimed.head < |claimed.sent| && Take(claimed, true).rows[row].status == Wait
  {
  }

  // ---- no dangling work ----

  /** Every row, message and claimed snapshot names a stored task and never START or END. */
  predicate Housed(w: World) {
    Sound(w.tables) &&
    (forall k :: 0 <= k < |w.store.rows| ==> Stored(w.tables, w.store.rows[k].wid, w.store.rows[k].task)) &&
    (forall k :: w.store.head <= k < |w.store.sent| ==> Stored(w.tables, w.store.sent[k].row.wid, w.store.sent[k].row.task)) &&
    (w.sched.Working? ==>
      forall r :: r in w.sched.job.order ==> r.to == End || Stored(w.tables, w.sched.job.row.wid, r.to))
  }

  lemma GrowsKeepsStored(t: Tables, t': Tables, wid: string, n: Node)
    requires Grows(t, t') && Stored(t, wid, n)
    ensures Stored(t', wid, n)
  {
    var k :| 0 <= k < |t.tasks| && t.tasks[k].wid == wid && t.tasks[k].id == n.id;
    assert t'.tasks[k].wid == wid && t'.tasks[k].id == n.id;
  }

  lemma ScanChooses(order: seq<Relation>, jq: Oracle, input: string, fallback: Option<Node>)
    ensures var c := ScanSwitch(order, jq, input, fallback);
      c.Chosen? ==> fallback == Some(c.to) || exists r :: r in order && r.to == c.to
  {
    if order != [] {
      ScanChooses(order[1..], jq, input, if order[0].condition == "" then Some(order[0].to) else fallback);
      assert forall r :: r in order[1..] ==> r in order;
      assert order[0] in order;
    }
  }

  /** A plan only leads to targets of the relations it was made from. */
  lemma PlanTargets(jq: Oracle, job: Job, n: Node)
    ensures Leads(PlanOf(jq, job), n) && n != End ==> exists r :: r in job.order && r.to == n
  {
    if job.kind.Switch? { ScanChooses(job.order, jq, job.row.input, None); }
    else if job.order != [] { assert job.order[0] in job.order; }
  }

  lemma AdvanceLeads(jq: Oracle, job: Job)
    ensures PlanOf(jq, job).goal.Park? ==> PlanOf(jq, job).goal.successor != End && PlanOf(jq, job).work != Doomed
    ensures PlanOf(jq, job).goal.Advance? ==> End !in PlanOf(jq, job).goal.successors
  {
  }

  lemma AchievedHoused(jq: Oracle, w: World, output: string)
    requires Housed(w) && Enabled(jq, w, AttemptSucceeds(output))
    ensures Housed(Next(jq, w, AttemptSucceeds(output)))
  {
    var p := PlanOf(jq, w.sched.job);
    AdvanceLeads(jq, w.sched.job);
    if p.goal.Advance? {
      forall n | n in p.goal.successors ensures Stored(w.tables, w.sched.job.row.wid, n) {
        PlanTargets(jq, w.sched.job, n);
      }
    }
  }

  lemma StartHoused(w: World, relation: nat, input: string)
    requires Housed(w) && relation < |w.tables.relations| && w.tables.relations[relation].from == Start
    ensures Housed(Started(w, w.tables.relations[relation], input))
  {
    assert w.tables.relations[relation] in w.tables.relations;
  }

  lemma ClaimHoused(jq: Oracle, w: World, s: Step)
    requires Housed(w) && Enabled(jq, w, s) && s.Claim?
    ensures Housed(Next(jq, w, s))
  {
    ReorderedMembers(s.order, Leaving(w.tables.relations, w.store.rows[s.row].wid, w.store.rows[s.row].task));
  }

  lemma ParkHoused(jq: Oracle, w: World)
    requires Housed(w) && Enabled(jq, w, ParkNext)
    ensures Housed(Next(jq, w, ParkNext))
  {
    AdvanceLeads(jq, w.sched.job);
    PlanTargets(jq, w.sched.job, PlanOf(jq, w.sched.job).goal.successor);
  }

  lemma TakeHoused(w: World, written: bool)
    requires Mail(w.store) && Housed(w) && w.store.head < |w.store.sent|
    ensures Housed(w.(store := Take(w.store, written)))
  {
    assert Stored(w.tables, w.store.sent[w.store.head].row.wid, w.store.sent[w.store.head].row.task);
  }

  lemma WakeHoused(w: World, event: nat, found: Option<nat>)
    requires Housed(w) && (found.Some? ==> found.value < |w.store.rows|)
    ensures Housed(w.(store := Wake(w.store, event, found)))
  {
  }

  lemma EndHoused(jq: Oracle, w: World, s: Step)
    requires Housed(w) && Enabled(jq, w, s) && (s.AttemptFails? || s.Finish?)
    ensures Housed(Next(jq, w, s))
  {
  }

  lemma StepKeepsHoused(jq: Oracle, w: World, s: Step)
    requires Inv(jq, w) && Housed(w) && Enabled(jq, w, s)
    ensures Housed(Next(jq, w, s))
  {
    match s
    case StartFlow(relation, input) => StartHoused(w, relation, input);
    case ParkNext => ParkHoused(jq, w);
    case AttemptSucceeds(output) => AchievedHoused(jq, w, output);
    case Claim(_, _, _, _, _) => ClaimHoused(jq, w, s);
    case Republish(t, _, gone) => RepublishHoused(w, t, gone);
    case Deliver(written) => assert Mail(w.store); TakeHoused(w, written);
    case Callback(event, _, found) => WakeHoused(w, event, found);
    case _ => EndHoused(jq, w, s);
  }

  lemma RepublishHoused(w: World, t: Tables, gone: Option<string>)
    requires Housed(w) && Grows(w.tables, t) && Sound(t)
    ensures Housed(w.(tables := t, store := Forget(w.store, gone)))
  {
    forall wid, n | Stored(w.tables, wid, n) ensures Stored(t, wid, n) { GrowsKeepsStored(w.tables, t, wid, n); }
  }

  lemma {:induction false} RunKeepsHoused(jq: Oracle, w: World, steps: seq<Step>, w': World)
    requires Inv(jq, w) && Housed(w) && Runs(jq, w, steps, w')
    ensures Housed(w')
    decreases |steps|
  {
    if steps != [] {
      StepKeepsHoused(jq, w, steps[0]);
      StepKeepsInv(jq, w, steps[0]);
      RunKeepsHoused(jq, Next(jq, w, steps[0]), steps[1..], w');
    }
  }

  /** A snapshot of the row's task can be read. */
  ghost predicate Readable(t: Tables, r: Row) {
    r.task.Task? && exists task, action, order :: Reads(t, r.wid, r.task, task, action, order)
  }

  lemma StoredIsReadable(t: Tables, r: Row)
    requires Stored(t, r.wid, r.task)
    ensures Readable(t, r)
  {
    var task :| 0 <= task < |t.tasks| && t.tasks[task].wid == r.wid && t.tasks[task].id == r.task.id;
    var actions := t.tasks[task].actions;
    assert Reads(t, r.wid, r.task, task, if actions == [] then None else Some(actions[0]), Leaving(t.relations, r.wid, r.task));
  }

  /** In every reachable state, also after re-saves and soft deletes, the task of every row and of
      every queued message is found, so a claim can always read its snapshot. */
  lemma NoDanglingWork(jq: Oracle, w: World, steps: seq<Step>, w': World)
    requires Init(w) && Runs(jq, w, steps, w')
    ensures forall k :: 0 <= k < |w'.store.rows| ==> Readable(w'.tables, w'.store.rows[k])
    ensures forall k :: w'.store.head <= k < |w'.store.sent| ==> Readable(w'.tables, w'.store.sent[k].row)
  {
    RunKeepsHoused(jq, w, steps, w');
    forall k | 0 <= k < |w'.store.rows| ensures Readable(w'.tables, w'.store.rows[k]) {
      StoredIsReadable(w'.tables, w'.store.rows[k]);
    }
    forall k | w'.store.head <= k < |w'.store.sent| ensures Readable(w'.tables, w'.store.sent[k].row) {
      StoredIsReadable(w'.tables, w'.store.sent[k].row);
    }
  }
}
