/** Where every live token comes from: each step carries it along, lets the scheduler take it, or lets
    a finished task send it on. */
module Origins {
  import opened Model
  import opened Executors
  import opened Protocol
  import opened Invariants
  import opened Records
  import opened Tokens

  /** The task a token at p is about to execute. */
  function Heading(b: Store, s: Scheduler, i: nat, p: Place): Node
    requires At(b, s, i, p)
  {
    match p
    case InQueue(k) => b.sent[k].row.task
    case InRow(k) => b.rows[k].task
    case InScheduler => s.job.row.task
    case InEvent(k) => b.events[k].parks
  }

  /** A successful attempt of the plan sends a token on to n, or ends the instance at END; a
      successor that is parked without an event gets none. */
  ghost predicate Carries(p: Plan, n: Node) {
    Leads(p, n) && (p.goal.Park? ==> p.work.Publish?)
  }

  /** The token of i at p stood at q before and heads for the same task. */
  ghost predicate Carried(w: World, w': World, i: nat, p: Place, q: Place) {
    At(w'.store, w'.sched, i, p) && At(w.store, w.sched, i, q) && p.InScheduler? == q.InScheduler? &&
    (p.InScheduler? ==> w'.sched.Working? && w'.sched.job == w.sched.job) &&
    Heading(w'.store, w'.sched, i, p) == Heading(w.store, w.sched, i, q)
  }

  /** The scheduler has taken the token at q. */
  ghost predicate Claims(w: World, s: Step, i: nat, p: Place, q: Place) {
    s.Claim? && p == InScheduler && q == InRow(s.row) && s.row < |w.store.rows| && w.store.rows[s.row].inst == i
  }

  /** The task under work has sent a token on to p. */
  ghost predicate Sends(jq: Oracle, w: World, w': World, s: Step, i: nat, p: Place) {
    s.AttemptSucceeds? && w.sched.Working? && w.sched.job.row.inst == i && !p.InScheduler? &&
    At(w'.store, w'.sched, i, p) && Carries(PlanOf(jq, w.sched.job), Heading(w'.store, w'.sched, i, p))
  }

  ghost predicate Origin(jq: Oracle, w: World, w': World, s: Step, i: nat, p: Place, q: Place) {
    Carried(w, w', i, p, q) || Claims(w, s, i, p, q) || (q == InScheduler && Sends(jq, w, w', s, i, p))
  }

  lemma TakeCarries(w: World, written: bool, i: nat, p: Place)
    requires Mail(w.store) && w.store.head < |w.store.sent| && At(Take(w.store, written), w.sched, i, p)
    ensures var b := w.store;
      Carried(w, w.(store := Take(b, written)), i, p,
        if written && p == InRow(if b.sent[b.head].id == 0 then |b.rows| else b.sent[b.head].id - 1) then InQueue(b.head) else p)
  {
  }

  lemma WakeCarries(w: World, event: nat, wid: string, found: Option<nat>, i: nat, p: Place)
    requires Calls(w.store) && w.store.head <= |w.store.sent| && event < |w.store.events| && event !in w.store.called
    requires found.Some? ==> found.value < |w.store.rows| && Wakes(w.store.rows[found.value], w.store.events[event], wid)
    requires At(Wake(w.store, event, found), w.sched, i, p)
    ensures Carried(w, w.(store := Wake(w.store, event, found)), i, p, if p == InQueue(|w.store.sent|) then InEvent(event) else p)
  {
    if found.Some? { WakeFinds(w.store, event, wid, found.value); }
  }

  lemma WorkCarries(jq: Oracle, w: World, s: Step, i: nat, p: Place)
    requires Lawful(jq, w) && Enabled(jq, w, s) && (s.ParkNext? || s.AttemptFails? || s.Finish? || s.Republish?)
    requires At(Next(jq, w, s).store, Next(jq, w, s).sched, i, p)
    ensures Carried(w, Next(jq, w, s), i, p, p)
  {
    if s.AttemptFails? { AnnounceAdds(w.store, w.sched.job.row, PlanOf(jq, w.sched.job).work, w.next); }
  }

  lemma StartCarries(jq: Oracle, w: World, s: Step, i: nat, p: Place)
    requires Lawful(jq, w) && Enabled(jq, w, s) && s.StartFlow? && i != w.next
    requires At(Next(jq, w, s).store, Next(jq, w, s).sched, i, p)
    ensures Carried(w, Next(jq, w, s), i, p, p)
  {
  }

  lemma ClaimOrigin(jq: Oracle, w: World, s: Step, i: nat, p: Place)
    requires Enabled(jq, w, s) && s.Claim? && At(Next(jq, w, s).store, Next(jq, w, s).sched, i, p)
    ensures At(w.store, w.sched, i, if p.InScheduler? then InRow(s.row) else p)
    ensures Origin(jq, w, Next(jq, w, s), s, i, p, if p.InScheduler? then InRow(s.row) else p)
  {
  }

  lemma AchievedOrigin(jq: Oracle, w: World, output: string, i: nat, p: Place) returns (q: Place)
    requires Lawful(jq, w) && Enabled(jq, w, AttemptSucceeds(output))
    requires At(Next(jq, w, AttemptSucceeds(output)).store, Next(jq, w, AttemptSucceeds(output)).sched, i, p)
    ensures At(w.store, w.sched, i, q)
    ensures Origin(jq, w, Next(jq, w, AttemptSucceeds(output)), AttemptSucceeds(output), i, p, q)
  {
    hide Decide, Lawful;
    var w' := Next(jq, w, AttemptSucceeds(output));
    AnnounceAdds(w.store, w.sched.job.row, PlanOf(jq, w.sched.job).work, w.next);
    if At(w.store, w.sched, i, p) && !p.InScheduler? {
      assert Carried(w, w', i, p, p);
      q := p;
    } else {
      assert Sends(jq, w, w', AttemptSucceeds(output), i, p);
      q := InScheduler;
    }
  }

  /** After a step every token of an instance that was there before has an origin before it. */
  lemma StepOrigin(jq: Oracle, w: World, s: Step, i: nat, p: Place) returns (q: Place)
    requires Lawful(jq, w) && Enabled(jq, w, s) && (s.StartFlow? ==> i != w.next)
    requires At(Next(jq, w, s).store, Next(jq, w, s).sched, i, p)
    ensures At(w.store, w.sched, i, q) && Origin(jq, w, Next(jq, w, s), s, i, p, q)
  {
    hide Decide;
    q := p;
    match s
    case StartFlow(_, _) => StartCarries(jq, w, s, i, p);
    case Deliver(written) =>
      var b := w.store;
      TakeCarries(w, written, i, p);
      q := if written && p == InRow(if b.sent[b.head].id == 0 then |b.rows| else b.sent[b.head].id - 1) then InQueue(b.head) else p;
    case Callback(event, wid, found) =>
      WakeCarries(w, event, wid, found, i, p);
      q := if p == InQueue(|w.store.sent|) then InEvent(event) else p;
    case Claim(row, _, _, _, _) =>
      ClaimOrigin(jq, w, s, i, p);
      q := if p.InScheduler? then InRow(row) else p;
    case AttemptSucceeds(output) => q := AchievedOrigin(jq, w, output, i, p);
    case _ => WorkCarries(jq, w, s, i, p);
  }
}
