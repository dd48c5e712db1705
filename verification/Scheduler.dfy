/** internal/schedule/inline_scheduler.go: one turn of the scheduler loop. */
module Scheduling {
  import opened Model
  import opened Executors
  import opened Protocol
  import opened Dal
  import opened Queue
  import opened Records
  import opened Rows
  import opened Data
  import opened Dispatch
  import opened Tasks
  import LocalRuntime

  datatype Executor =
    | Operating(operation: OperationTask)
    | Eventing(event: EventTask)
    | Switching(switch: SwitchTask)
    | Evaluating(local: LocalRuntimeTask)
  {
    /** The executor is the one for the job's type, and works on the job with its output filter. */
    ghost predicate Serves(jq: Oracle, f: Filters, parts: Parts, job: Job)
      reads if Operating? then {operation} else if Eventing? then {event, event.operation} else {}
    {
      match this
      case Operating(t) => t.parts == parts && t.Serves(jq, job)
      case Eventing(t) => t.parts == parts && t.Serves(jq, job)
      case Switching(t) => t.parts == parts && t.Serves(job)
      case Evaluating(t) =>
        t.parts == parts && t.definition == map[] && t.Serves(job) && forall s :: t.outputFilter(s) == f.output(job.row.task, s)
    }

    ghost function Own(): set<object> {
      match this
      case Operating(t) => {t}
      case Eventing(t) => {t.operation}
      case _ => {}
    }
  }

  /** The stored filters and the evaluator of local tasks. */
  datatype Setting = Setting(filters: Filters, lib: LocalRuntime.Library)

  /** task.New: local tasks first, then events and switches; everything else is an operation. */
  method NewTask(jq: Oracle, parts: Parts, job: Job, setting: Setting) returns (t: Executor)
    ensures t.Serves(jq, setting.filters, parts, job) && fresh(t.Own())
    ensures t.Evaluating? <==> job.kind in {SetTask, Do, Fork, For, Try, WaitTask, Raise, Run, Emit}
    ensures t.Eventing? <==> job.kind in {Event, Listen}
    ensures t.Switching? <==> job.kind == Switch
    ensures t.Operating? <==> job.kind == Operation
  {
    if IsLocal(job.kind) {
      var local := new LocalRuntimeTask(parts, job, map[], setting.lib, (s: string) => setting.filters.output(job.row.task, s));
      return Evaluating(local);
    }
    match job.kind {
      case Event =>
        var event := new EventTask(parts, job);
        return Eventing(event);
      case Listen =>
        var event := new EventTask(parts, job);
        return Eventing(event);
      case Switch =>
        var switch := new SwitchTask(parts, job);
        return Switching(switch);
      case _ =>
        var operation := new OperationTask(parts, job);
        return Operating(operation);
    }
  }

  /** The task is a call to an agent, whose answers decide. */
  predicate Remote(jq: Oracle, job: Job) {
    PlanOf(jq, job).work.Call? && !IsLocal(job.kind)
  }

  /** These are the operations, events and listens with a named action for an agent; for every other task
      the environment alone decides. */
  lemma RemoteIff(jq: Oracle, job: Job)
    ensures Remote(jq, job) <==>
      job.kind in {Operation, Event, Listen} && (job.kind != Operation ==> job.order != []) &&
      job.action.Some? && ForAgent(job.action.value)
  {
    if job.action.Some? { AgentsAreCalled(job.action.value); }
    hide ForAgent, ActionWork;
  }

  /** An operation, an event or a last task hands nothing on when it succeeds. */
  lemma {:induction false} NothingHanded(f: Filters, jq: Oracle, w: World, steps: seq<Step>, w': World)
    requires Runs(jq, w, steps, w') && Attempting(steps) && (w.sched.Working? ==> !PlanOf(jq, w.sched.job).goal.Advance?)
    ensures FilteredRun(f, jq, w, steps)
    decreases |steps|
  {
    if steps != [] {
      assert steps[0] in steps && forall s :: s in steps[1..] ==> s in steps;
      NothingHanded(f, jq, Next(jq, w, steps[0]), steps[1..], w');
    }
  }

  lemma OneFiltered(f: Filters, jq: Oracle, w: World, s: Step)
    requires Enabled(jq, w, s) && Filtered(f, jq, w, s)
    ensures FilteredRun(f, jq, w, [s])
  {
    assert [s][1..] == [];
  }

  /** A switch hands its input on, and a local task its filtered input. */
  lemma OneHanded(f: Filters, jq: Oracle, w: World, steps: seq<Step>, w': World, ok: bool, output: string)
    requires Runs(jq, w, steps, w') && Attempting(steps) && |steps| == 1 && (ok ==> steps == [AttemptSucceeds(output)])
    requires w.sched.Working? && w'.sched == After(w.sched, ok) && output == Handed(f, w.sched.job.kind, VisitOf(w.sched.job))
    ensures FilteredRun(f, jq, w, steps)
  {
    assert steps[0] in steps && steps == [steps[0]];
    OneFiltered(f, jq, w, steps[0]);
  }

  /** One attempt of whatever task it is. */
  method RunTask(jq: Oracle, f: Filters, t: Executor, parts: Parts, x: Response, ghost w: World)
    returns (ok: bool, ghost steps: seq<Step>, ghost w': World)
    requires parts.Mirror(w) && Ready(w) && t.Serves(jq, f, parts, w.sched.job)
    modifies t.Own(), parts.dal`insts, parts.dal`next, parts.queue`sent, parts.broker`events
    ensures Runs(jq, w, steps, w') && parts.Mirror(w') && Attempting(steps) && w'.sched == After(w.sched, ok)
    ensures ok || t.Serves(jq, f, parts, w.sched.job)
    ensures ok ==> Granted(PlanOf(jq, w.sched.job), x)
    ensures Granted(PlanOf(jq, w.sched.job), x) && !Remote(jq, w.sched.job) ==> ok
    ensures FilteredRun(f, jq, w, steps)
  {
    hide FilteredRun, Filtered, Runs, Enabled, Next;
    match t
    case Operating(o) => ok, steps, w' := o.Run(jq, x, w); NothingHanded(f, jq, w, steps, w');
    case Eventing(e) => ok, steps, w' := e.Run(jq, x, w); NothingHanded(f, jq, w, steps, w');
    case Switching(s) => ok, steps, w' := s.Run(jq, x, w); OneHanded(f, jq, w, steps, w', ok, w.sched.job.row.input);
    case Evaluating(l) =>
      ok, steps, w' := l.Run(jq, x, w);
      OneHanded(f, jq, w, steps, w', ok, f.output(w.sched.job.row.task, w.sched.job.row.input));
  }

  predicate OnRecord(w: World, r: Row) {
    Belongs(r, w.insts)
  }

  lemma {:induction false} AttemptsKeepRecord(jq: Oracle, w: World, steps: seq<Step>, w': World, r: Row)
    requires Runs(jq, w, steps, w') && Attempting(steps) && OnRecord(w, r)
    requires w.sched.Working? ==> w.sched.job.row == r
    ensures OnRecord(w', r) && w'.store.rows == w.store.rows && w'.tables == w.tables && w'.trace == w.trace
    decreases |steps|
  {
    if steps != [] {
      var v := Next(jq, w, steps[0]);
      assert steps[0] in steps && forall s :: s in steps[1..] ==> s in steps;
      AttemptsKeepRecord(jq, v, steps[1..], w', r);
    }
  }

  /** One of the first n attempts meets an environment that lets the plan succeed. */
  predicate GrantedWithin(p: Plan, xs: nat -> Response, n: nat) {
    exists k: nat :: k < n && Granted(p, xs(k))
  }

  lemma NoneGranted(p: Plan, xs: nat -> Response)
    ensures !GrantedWithin(p, xs, 0)
  {
  }

  lemma OneMore(p: Plan, xs: nat -> Response, n: nat)
    ensures GrantedWithin(p, xs, n + 1) <==> GrantedWithin(p, xs, n) || Granted(p, xs(n))
  {
  }

  lemma Within(p: Plan, xs: nat -> Response, n: nat)
    requires n <= MAX_ATTEMPTS && GrantedWithin(p, xs, n)
    ensures GrantedWithin(p, xs, 5)
  {
  }

  lemma NoSteps(f: Filters, jq: Oracle, w: World)
    ensures Runs(jq, w, [], w) && FilteredRun(f, jq, w, [])
  {
  }

  /** retry.Do: runs the task until it succeeds, at most five times. */
  method RetryTask(jq: Oracle, f: Filters, t: Executor, parts: Parts, xs: nat -> Response, ghost w: World)
    returns (ok: bool, ghost steps: seq<Step>, ghost w': World)
    requires parts.Mirror(w) && Ready(w) && w.sched.attempt == 1 && t.Serves(jq, f, parts, w.sched.job)
    modifies t.Own(), parts.dal`insts, parts.dal`next, parts.queue`sent, parts.broker`events
    ensures Runs(jq, w, steps, w') && parts.Mirror(w') && Attempting(steps) && w'.sched == Ended(w.sched.id, ok)
    ensures FilteredRun(f, jq, w, steps)
    ensures ok ==> GrantedWithin(PlanOf(jq, w.sched.job), xs, 5)
    ensures GrantedWithin(PlanOf(jq, w.sched.job), xs, 5) && !Remote(jq, w.sched.job) ==> ok
  {
    hide GrantedWithin, Granted, Remote, PlanOf, Runs, FilteredRun;
    var attempts: nat := 0;
    ok, steps, w' := false, [], w;
    NoneGranted(PlanOf(jq, w.sched.job), xs);
    assert Runs(jq, w, steps, w') && FilteredRun(f, jq, w, steps) by { NoSteps(f, jq, w); }
    while attempts < MAX_ATTEMPTS && !ok
      invariant 0 <= attempts <= MAX_ATTEMPTS
      invariant Runs(jq, w, steps, w') && parts.Mirror(w') && Attempting(steps) && OnRecord(w', w.sched.job.row)
      invariant w'.sched == if ok || attempts == MAX_ATTEMPTS then Ended(w.sched.id, ok) else w.sched.(attempt := attempts + 1)
      invariant FilteredRun(f, jq, w, steps)
      invariant ok || t.Serves(jq, f, parts, w.sched.job)
      invariant ok ==> GrantedWithin(PlanOf(jq, w.sched.job), xs, attempts)
      invariant !ok && !Remote(jq, w.sched.job) ==> !GrantedWithin(PlanOf(jq, w.sched.job), xs, attempts)
    {
      ghost var more, v := [], w';
      ok, more, w' := RunTask(jq, f, t, parts, xs(attempts), v);
      AttemptsKeepRecord(jq, v, more, w', w.sched.job.row);
      RunsOn(jq, w, steps, v, more, w');
      FilteredOn(f, jq, w, steps, v, more);
      OneMore(PlanOf(jq, w.sched.job), xs, attempts);
      steps := steps + more;
      attempts := attempts + 1;
    }
    if ok { Within(PlanOf(jq, w.sched.job), xs, attempts); }
  }

  class InlineScheduler {
    const parts: Parts
    const setting: Setting

    constructor (parts: Parts, setting: Setting)
      ensures this.parts == parts
    {
      this.parts, this.setting := parts, setting;
    }

    /** fetchTask: the newest WAIT row with its snapshot, now PROCESS; none when the database refuses. */
    method FetchTask(jq: Oracle, up: bool, ghost w: World) returns (res: Option<Fetched>)
      requires parts.Mirror(w) && w.sched.Idle?
      modifies parts.dal`rows
      ensures res.None? ==> parts.Mirror(w)
      ensures (res.None? && up ==> NothingToClaim(w)) && (!up ==> res.None?)
      ensures res.Some? ==>
        var f := res.value;
        f.row < |w.store.rows| && f.task < |w.tables.tasks| &&
        parts.dal.rows == w.store.rows[f.row := w.store.rows[f.row].(status := Process)] &&
        (forall k :: f.row < k < |w.store.rows| ==> w.store.rows[k].status != Wait) &&
        forall input: string :: Enabled(jq, w, Claim(f.row, f.task, f.action, f.order, input))
    {
      if !up { return None; }
      res := parts.dal.SelectTaskInstance();
      if res.Some? { parts.dal.UpdateTaskInstance(res.value.row + 1, JustStatus(Process), true); }
    }

    /** The attempts of a claimed task and its final status. */
    method Work(jq: Oracle, row: nat, t: Executor, xs: nat -> Response, ghost w: World)
      returns (ok: bool, ghost more: seq<Step>, ghost w': World)
      requires parts.Mirror(w) && Ready(w) && w.sched.attempt == 1 && row == w.sched.id && row < |w.store.rows|
      requires w.store.rows[row].status == Process
      requires t.Serves(jq, setting.filters, parts, w.sched.job)
      modifies t.Own(), parts.dal`insts, parts.dal`next, parts.dal`rows, parts.queue`sent, parts.broker`events
      ensures Attempting(more) && Runs(jq, w, more + [Finish], w') && parts.Mirror(w') && w'.sched.Idle?
      ensures FilteredRun(setting.filters, jq, w, more + [Finish]) && w'.trace == w.trace
      ensures ok ==> GrantedWithin(PlanOf(jq, w.sched.job), xs, 5)
      ensures GrantedWithin(PlanOf(jq, w.sched.job), xs, 5) && !Remote(jq, w.sched.job) ==> ok
      ensures w'.store.rows == w.store.rows[row := w.store.rows[row].(status := if ok then Success else Failed)]
    {
      ghost var v;
      ok, more, v := RetryTask(jq, setting.filters, t, parts, xs, w);
      AttemptsKeepRecord(jq, w, more, v, w.sched.job.row);
      parts.dal.UpdateTaskInstance(row + 1, JustStatus(if ok then Success else Failed), true);
      OneStep(jq, v, Finish);
      RunsOn(jq, w, more, v, [Finish], Next(jq, v, Finish));
      OneFiltered(setting.filters, jq, v, Finish);
      FilteredOn(setting.filters, jq, w, more, v, [Finish]);
      w' := Next(jq, v, Finish);
    }

    /** The fetched task with its filtered input: a Claim step. */
    method FetchJob(jq: Oracle, up: bool, ghost w: World) returns (res: Option<(nat, Job)>, ghost claim: Step)
      requires parts.Mirror(w) && w.sched.Idle?
      modifies parts.dal`rows, parts.dal`trace
      ensures res.None? ==> parts.Mirror(w)
      ensures (res.None? && up ==> NothingToClaim(w)) && (!up ==> res.None?)
      ensures res.Some? ==> claim.Claim? && Enabled(jq, w, claim) && parts.Mirror(Next(jq, w, claim))
      ensures res.Some? ==> Next(jq, w, claim).sched == Working(res.value.0, res.value.1, 1, None)
      ensures res.Some? ==> res.value.0 < |w.store.rows| && w.store.rows[res.value.0].status == Wait
      ensures res.Some? ==>
        var r := w.store.rows[res.value.0];
        res.value.1.row == r.(status := Process, input := setting.filters.input(r.task, r.input))
      ensures res.Some? ==> claim.row == res.value.0 && Filtered(setting.filters, jq, w, claim)
      ensures res.Some? ==>
        Next(jq, w, claim).store.rows == w.store.rows[res.value.0 := w.store.rows[res.value.0].(status := Process)]
      ensures res.Some? ==> forall k :: res.value.0 < k < |w.store.rows| ==> w.store.rows[k].status != Wait
    {
      claim := Finish;
      var fetched := FetchTask(jq, up, w);
      if fetched.None? { return None, claim; }
      var f := fetched.value;
      var stored := parts.dal.rows[f.row];
      var input := setting.filters.input(stored.task, stored.input);
      claim := Claim(f.row, f.task, f.action, f.order, input);
      parts.dal.trace := Next(jq, w, claim).trace;
      return Some((f.row, Job(stored.(input := input), parts.dal.tasks[f.task].kind, f.action, f.order))), claim;
    }

    /** One turn: claim under the lock, at most five attempts, final status. It is a run of the
        protocol from idle to idle, or changes nothing. */
    method Handle(jq: Oracle, locked: bool, up: bool, xs: nat -> Response, ghost w: World)
      returns (claimed: Option<nat>, ok: bool, ghost steps: seq<Step>, ghost w': World)
      requires parts.Mirror(w) && w.sched.Idle? && Owned(w)
      modifies parts.dal, parts.queue`sent, parts.broker`events
      ensures Runs(jq, w, steps, w') && parts.Mirror(w') && w'.sched.Idle?
      ensures claimed.None? ==> w' == w && steps == []
      ensures claimed.None? && locked && up ==> NothingToClaim(w)
      ensures !locked || !up ==> claimed.None?
      ensures claimed.Some? ==> steps != [] && Deserved(jq, w, steps[0], xs, ok)
      ensures claimed.Some? ==> forall k :: claimed.value < k < |w.store.rows| ==> w.store.rows[k].status != Wait
      ensures claimed.Some? ==> Turn(steps) && claimed.value < |w.store.rows| && w.store.rows[claimed.value].status == Wait
      ensures claimed.Some? ==> w'.store.rows == w.store.rows[claimed.value :=
        w.store.rows[claimed.value].(status := if ok then Success else Failed)]
      ensures FilteredRun(setting.filters, jq, w, steps)
      ensures claimed.Some? ==> var r := w.store.rows[claimed.value];
        w'.trace == w.trace[r.inst := History(w, r.inst) + [Visit(r.task, setting.filters.input(r.task, r.input))]]
    {
      hide Owned, Enabled, Turn, OnRecord, GrantedWithin, Remote, PlanOf, NothingToClaim, Filtered;
      claimed, ok, steps, w' := None, false, [], w;
      if !locked { return; }
      var res;
      ghost var claim, more;
      res, claim := FetchJob(jq, up, w);
      if res.None? { return; }
      var (row, job) := res.value;
      var t := NewTask(jq, parts, job, setting);
      ghost var v := Next(jq, w, claim);
      ClaimReady(jq, w, claim, row, job);
      ok, more, w' := Work(jq, row, t, xs, v);
      TurnRuns(setting.filters, jq, w, claim, more, w');
      assert Deserved(jq, w, claim, xs, ok);
      claimed, steps := Some(row), [claim] + more + [Finish];
    }
  }

  /** No row waits, or one whose task is not stored. */
  predicate NothingToClaim(w: World) {
    (forall k :: 0 <= k < |w.store.rows| ==> w.store.rows[k].status != Wait) ||
    exists k :: 0 <= k < |w.store.rows| && w.store.rows[k].status == Wait &&
      !Stored(w.tables, w.store.rows[k].wid, w.store.rows[k].task)
  }

  /** The turn succeeds when one of five attempts meets an environment that lets the claimed task's
      plan succeed, and only then; the answers of an agent may still make it fail. */
  ghost predicate Deserved(jq: Oracle, w: World, claim: Step, xs: nat -> Response, ok: bool) {
    claim.Claim? && Enabled(jq, w, claim) &&
    var job := Next(jq, w, claim).sched.job;
    (ok ==> GrantedWithin(PlanOf(jq, job), xs, 5)) &&
    (GrantedWithin(PlanOf(jq, job), xs, 5) && !Remote(jq, job) ==> ok)
  }

  /** In reachable states the second case does not occur: a turn that gets the lock claims a task
      whenever a row waits. */
  lemma WaitingIsClaimed(jq: Oracle, w: World, steps: seq<Step>, w': World)
    requires Init(w) && Runs(jq, w, steps, w') && NothingToClaim(w')
    ensures forall k :: 0 <= k < |w'.store.rows| ==> w'.store.rows[k].status != Wait
  {
    RunKeepsHoused(jq, w, steps, w');
  }

  lemma ClaimReady(jq: Oracle, w: World, claim: Step, row: nat, job: Job)
    requires Owned(w) && claim.Claim? && Enabled(jq, w, claim) && Next(jq, w, claim).sched == Working(row, job, 1, None)
    ensures Ready(Next(jq, w, claim))
  {
  }

  lemma TurnRuns(f: Filters, jq: Oracle, w: World, claim: Step, more: seq<Step>, w': World)
    requires claim.Claim? && Enabled(jq, w, claim) && Attempting(more) && Runs(jq, Next(jq, w, claim), more + [Finish], w')
    requires Filtered(f, jq, w, claim) && FilteredRun(f, jq, Next(jq, w, claim), more + [Finish])
    ensures Runs(jq, w, [claim] + more + [Finish], w') && Turn([claim] + more + [Finish])
    ensures FilteredRun(f, jq, w, [claim] + more + [Finish])
  {
    OneStep(jq, w, claim);
    OneFiltered(f, jq, w, claim);
    FilteredOn(f, jq, w, [claim], Next(jq, w, claim), more + [Finish]);
    RunsOn(jq, w, [claim], Next(jq, w, claim), more + [Finish], w');
    assert [claim] + (more + [Finish]) == [claim] + more + [Finish];
  }

  /** The steps of one turn. */
  ghost predicate Turn(steps: seq<Step>) {
    exists claim: Step, more: seq<Step> :: claim.Claim? && Attempting(more) && steps == [claim] + more + [Finish]
  }
}
