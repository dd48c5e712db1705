/** Every row, message, event and job belongs to a recorded workflow instance and to its workflow. */
module Records {
  import opened Model
  import opened Executors
  import opened Protocol
  import opened Invariants

  predicate Belongs(r: Row, insts: map<nat, Instance>) {
    r.inst in insts && r.wid == insts[r.inst].wid
  }

  predicate Owned(w: World) {
    (forall i :: i in w.insts ==> i < w.next) && (forall i :: i in w.trace ==> i in w.insts) &&
    (forall k :: 0 <= k < |w.store.rows| ==> Belongs(w.store.rows[k], w.insts)) &&
    (forall k :: 0 <= k < |w.store.sent| ==> Belongs(w.store.sent[k].row, w.insts)) &&
    (forall k :: 0 <= k < |w.store.events| ==> w.store.events[k].inst in w.insts) &&
    (w.sched.Working? ==> Belongs(w.sched.job.row, w.insts))
  }

  /** What holds in every reachable state. */
  ghost predicate Lawful(jq: Oracle, w: World) {
    Inv(jq, w) && Owned(w)
  }

  /** Instance i is recorded, and runs workflow wid. */
  predicate RunsFlow(w: World, i: nat, wid: string) {
    i in w.insts && w.insts[i].wid == wid
  }

  lemma OwnedStart(w: World, r: Relation, input: string)
    requires Owned(w)
    ensures Owned(Started(w, r, input))
  {
    assert w.next !in w.insts;
  }

  lemma OwnedTake(w: World, written: bool)
    requires Mail(w.store) && Owned(w) && w.store.head < |w.store.sent|
    ensures Owned(w.(store := Take(w.store, written)))
  {
    assert Belongs(w.store.sent[w.store.head].row, w.insts);
  }

  lemma OwnedWake(w: World, event: nat, found: Option<nat>)
    requires Owned(w) && (found.Some? ==> found.value < |w.store.rows|)
    ensures Owned(w.(store := Wake(w.store, event, found)))
  {
  }

  lemma OwnedClaim(jq: Oracle, w: World, s: Step)
    requires Owned(w) && Enabled(jq, w, s) && (s.Claim? || s.Finish?)
    ensures Owned(Next(jq, w, s))
  {
  }

  lemma OwnedAttempt(jq: Oracle, w: World, s: Step)
    requires Owned(w) && Enabled(jq, w, s) && (s.ParkNext? || s.AttemptFails?)
    ensures Owned(Next(jq, w, s))
  {
  }

  lemma OwnedAchieved(jq: Oracle, w: World, output: string)
    requires Owned(w) && Enabled(jq, w, AttemptSucceeds(output))
    ensures Owned(Next(jq, w, AttemptSucceeds(output)))
  {
    hide Decide;
  }

  lemma OwnedRepublished(w: World, t: Tables, next: nat, gone: Option<string>)
    requires Owned(w) && w.next <= next
    ensures Owned(Republished(w, t, next, gone))
  {
  }

  lemma StepLawful(jq: Oracle, w: World, s: Step)
    requires Lawful(jq, w) && Enabled(jq, w, s)
    ensures Lawful(jq, Next(jq, w, s)) && w.next <= Next(jq, w, s).next
  {
    StepKeepsInv(jq, w, s);
    hide Inv;
    match s
    case StartFlow(relation, input) => OwnedStart(w, w.tables.relations[relation], input);
    case Deliver(written) => assert Mail(w.store) by { InvMail(jq, w); } OwnedTake(w, written);
    case Callback(event, _, found) => OwnedWake(w, event, found);
    case Claim(_, _, _, _, _) => OwnedClaim(jq, w, s);
    case Finish => OwnedClaim(jq, w, s);
    case AttemptSucceeds(output) => OwnedAchieved(jq, w, output);
    case Republish(t, next, gone) => OwnedRepublished(w, t, next, gone);
    case _ => OwnedAttempt(jq, w, s);
  }

  lemma InvMail(jq: Oracle, w: World)
    requires Inv(jq, w)
    ensures Mail(w.store)
  {
  }

  /** What the scheduler's code relies on about the records holds in every reachable state. */
  lemma {:induction false} RunLawful(jq: Oracle, w: World, steps: seq<Step>, w': World)
    requires Lawful(jq, w) && Runs(jq, w, steps, w')
    ensures Lawful(jq, w') && w.next <= w'.next
    decreases |steps|
  {
    if steps != [] {
      StepLawful(jq, w, steps[0]);
      RunLawful(jq, Next(jq, w, steps[0]), steps[1..], w');
    }
  }

  lemma InitLawful(jq: Oracle, w: World)
    requires Init(w)
    ensures Lawful(jq, w)
  {
    assert Within(w.store, w.next);
  }

  /** The workflow of an instance never changes, and a step records at most the instance it starts. */
  lemma FlowKept(jq: Oracle, w: World, s: Step, i: nat, wid: string)
    requires Lawful(jq, w) && Enabled(jq, w, s)
    ensures RunsFlow(w, i, wid) ==> RunsFlow(Next(jq, w, s), i, wid)
    ensures RunsFlow(Next(jq, w, s), i, wid) ==> RunsFlow(w, i, wid) || (s.StartFlow? && i == w.next)
  {
    hide Inv;
    assert w.next !in w.insts;
  }

  lemma {:induction false} RunKeepsFlow(jq: Oracle, w: World, steps: seq<Step>, w': World, i: nat, wid: string)
    requires Lawful(jq, w) && Runs(jq, w, steps, w') && RunsFlow(w, i, wid)
    ensures RunsFlow(w', i, wid)
    decreases |steps|
  {
    if steps != [] {
      FlowKept(jq, w, steps[0], i, wid);
      StepLawful(jq, w, steps[0]);
      RunKeepsFlow(jq, Next(jq, w, steps[0]), steps[1..], w', i, wid);
    }
  }

  lemma Uncalled(jq: Oracle, w: World)
    requires Inv(jq, w)
    ensures w.store.head <= |w.store.sent| && |w.store.events| !in w.store.called && Mail(w.store) && Calls(w.store)
  {
  }

  // ---- runs ----

  lemma OneStep(jq: Oracle, w: World, s: Step)
    requires Enabled(jq, w, s)
    ensures Runs(jq, w, [s], Next(jq, w, s))
  {
    assert Runs(jq, Next(jq, w, s), [], Next(jq, w, s));
  }

  lemma {:induction false} RunsOn(jq: Oracle, u: World, a: seq<Step>, v: World, b: seq<Step>, w: World)
    requires Runs(jq, u, a, v) && Runs(jq, v, b, w)
    ensures Runs(jq, u, a + b, w)
    decreases |a|
  {
    if a == [] { assert a + b == b; }
    else {
      assert (a + b)[1..] == a[1..] + b;
      RunsOn(jq, Next(jq, u, a[0]), a[1..], v, b, w);
    }
  }
}
