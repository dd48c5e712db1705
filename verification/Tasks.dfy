/** internal/task: the executors, as objects that publish to the queue, send events and write the
    workflow instance. Each Run is one attempt, and one attempt is a run of the protocol. */
module Tasks {
  import opened Model
  import opened Executors
  import opened Protocol
  import opened Dal
  import opened Queue
  import opened Records
  import opened Data
  import A2a
  import LocalRuntime

  /** The scheduler is about to attempt the job, whose instance is on record. */
  predicate Ready(w: World) {
    w.sched.Working? && w.sched.parked.None? && Belongs(w.sched.job.row, w.insts)
  }

  /** What the environment answers during one attempt: whether it takes an event, whether it takes
      the write of the workflow instance, and what the agent says. */
  datatype Response = Response(sent: bool, written: bool, agent: A2a.Agent)

  /** The environment lets the plan succeed; a call is not judged here. */
  predicate Granted(p: Plan, x: Response) {
    p.work != Doomed && (p.work.Publish? ==> x.sent) && (p.goal.Complete? ==> x.written)
  }

  /** The scheduler after an attempt. */
  function After(s: Scheduler, ok: bool): Scheduler
    requires s.Working?
  {
    if ok then Ended(s.id, true) else Retry(s)
  }

  /** The steps of attempts: no claim, no finish, nothing from outside. */
  predicate Attempting(steps: seq<Step>) {
    forall s :: s in steps ==> s.ParkNext? || s.AttemptFails? || s.AttemptSucceeds?
  }

  function FirstOf(order: seq<Relation>): Option<Relation> {
    if order == [] then None else Some(order[0])
  }

  predicate ToEnd(r: Option<Relation>) {
    r.None? || r.value.to == End
  }

  function Completed(insts: map<nat, Instance>, inst: nat): map<nat, Instance> {
    if inst in insts then insts[inst := insts[inst].(status := Succeeded)] else insts
  }

  /** completeWorkflow: UPDATE of the instance with this id. */
  method CompleteWorkflow(p: Parts, inst: nat, up: bool) returns (ok: bool)
    modifies p.dal`insts
    ensures ok == up
    ensures p.dal.insts == if ok then Completed(old(p.dal.insts), inst) else old(p.dal.insts)
  {
    ok := p.dal.UpdateInstance(inst, Succeeded, up);
  }

  /** publishNextOrComplete: one WAIT successor, or the end of the workflow instance. */
  method PublishNextOrComplete(p: Parts, r: Row, transition: Option<Relation>, input: string, up: bool) returns (ok: bool)
    modifies p.dal`insts, p.dal`next, p.queue`sent
    ensures p.dal.insts == if ToEnd(transition) && ok then Completed(old(p.dal.insts), r.inst) else old(p.dal.insts)
    ensures ok == (ToEnd(transition) ==> up)
    ensures p.dal.next == old(p.dal.next) + if ToEnd(transition) then 0 else 1
    ensures p.queue.sent == old(p.queue.sent) +
      if ToEnd(transition) then [] else Spawn(r, [transition.value.to], input, old(p.dal.next))
  {
    if ToEnd(transition) {
      ok := CompleteWorkflow(p, r.inst, up);
      return;
    }
    var t := Row(r.inst, r.wid, transition.value.to, p.dal.next, Wait, input);
    p.dal.next := p.dal.next + 1;
    p.queue.Publish([Message(0, t)]);
    return true;
  }

  lemma {:induction false} TargetsSplit(order: seq<Relation>, k: nat)
    requires k < |order|
    ensures Targets(order[..k + 1]) == Targets(order[..k]) + if order[k].to == End then [] else [order[k].to]
  {
    if k > 0 {
      assert order[..k + 1][1..] == order[1..][..k] && order[..k][1..] == order[1..][..k - 1];
      TargetsSplit(order[1..], k - 1);
    } else {
      assert order[..1] == [order[0]] && Targets([order[0]][1..]) == [];
    }
  }

  /** publishNextTasks: one WAIT instance per relation that does not lead to END, each with a fresh id. */
  method PublishNextTasks(p: Parts, r: Row, relations: seq<Relation>, input: string, up: bool) returns (ok: bool)
    modifies p.dal`insts, p.dal`next, p.queue`sent
    ensures p.dal.insts == if Targets(relations) == [] && ok then Completed(old(p.dal.insts), r.inst) else old(p.dal.insts)
    ensures ok == (Targets(relations) == [] ==> up)
    ensures p.dal.next == old(p.dal.next) + |Targets(relations)|
    ensures p.queue.sent == old(p.queue.sent) + Spawn(r, Targets(relations), input, old(p.dal.next))
  {
    var instances: seq<Message> := [];
    for k := 0 to |relations|
      invariant p.dal.next == old(p.dal.next) + |Targets(relations[..k])|
      invariant instances == Spawn(r, Targets(relations[..k]), input, old(p.dal.next))
      invariant unchanged(p.dal`insts) && unchanged(p.queue)
    {
      TargetsSplit(relations, k);
      if relations[k].to == End { continue; }
      instances := instances + [Message(0, Row(r.inst, r.wid, relations[k].to, p.dal.next, Wait, input))];
      p.dal.next := p.dal.next + 1;
    }
    assert relations[..|relations|] == relations;
    if |instances| == 0 {
      ok := PublishNextOrComplete(p, r, None, input, up);
      return;
    }
    p.queue.Publish(instances);
    return true;
  }

  class OperationTask {
    const parts: Parts
    const row: Row
    const action: Option<Action>
    const transition: Option<Relation>
    var input: string

    constructor (parts: Parts, job: Job)
      ensures this.parts == parts && row == job.row && action == job.action && transition == FirstOf(job.order) && input == job.row.input
    {
      this.parts := parts;
      row, action, transition, input := job.row, job.action, FirstOf(job.order), job.row.input;
    }

    /** The object serves the job; an A2A answer may have replaced the input of a last task. */
    ghost predicate Serves(jq: Oracle, job: Job)
      reads this
    {
      row == job.row && PlanOf(jq, job) == OperationPlan(action, job.order) && transition == FirstOf(job.order) &&
      !IsLocal(job.kind) && !job.kind.Switch? && (!ToEnd(transition) ==> input == job.row.input)
    }

    /** What the agent makes of the action on an input. */
    function Asked(text: string, agent: A2a.Agent): A2a.Outcome
      requires action.Some?
    {
      var metadata := map["operation_name" := action.value.name, "operation_type" := action.value.kind];
      A2a.Result(text, A2a.Stamped(metadata, agent.now), agent)
    }

    /** Whether the action succeeds on an input. */
    predicate Acts(text: string, x: Response) {
      match ActionWork(action)
      case Call => Asked(text, x.agent).Output?
      case Publish(_) => x.sent
      case _ => true
    }

    /** The agent's output becomes the input, unless it is empty. */
    method RunA2AAction(agent: A2a.Agent) returns (ok: bool)
      requires action.Some?
      modifies this`input
      ensures ok == Asked(old(input), agent).Output?
      ensures input == if ok && Asked(old(input), agent).text != "" then Asked(old(input), agent).text else old(input)
    {
      var metadata := map["operation_name" := action.value.name, "operation_type" := action.value.kind];
      var r, _ := A2a.Execute(input, metadata, agent);
      if r.Failure? { return false; }
      if r.text != "" { input := r.text; }
      return true;
    }

    /** The first action: nothing, an A2A call, or one event that carries the given id. */
    method RunAction(nextTaskInstanceID: nat, parks: Node, x: Response) returns (ok: bool)
      modifies this`input, parts.broker`events
      ensures ok == Acts(old(input), x)
      ensures parts.broker.events == if ok && ActionWork(action).Publish?
        then old(parts.broker.events) + [Notice(row.inst, nextTaskInstanceID, parks)] else old(parts.broker.events)
      ensures !ok ==> input == old(input)
    {
      if action.None? || action.value.name == "" || IsLocalName(action.value.kind) { return true; }
      if IsA2A(action.value) {
        ok := RunA2AAction(x.agent);
        return;
      }
      ok := parts.broker.PublishEvent(row.inst, nextTaskInstanceID, parks, x.sent);
    }

    /** The attempt of a last task: act, then complete the workflow instance. */
    method RunLast(jq: Oracle, x: Response, ghost w: World) returns (ok: bool, ghost s: Step)
      requires parts.Mirror(w) && Ready(w) && Serves(jq, w.sched.job) && ToEnd(transition)
      modifies this`input, parts.dal`insts, parts.dal`next, parts.broker`events
      ensures (s.AttemptFails? || s.AttemptSucceeds?) && Enabled(jq, w, s) && parts.Mirror(Next(jq, w, s))
      ensures Next(jq, w, s).sched == After(w.sched, ok) && Serves(jq, w.sched.job)
      ensures ok == (Acts(old(input), x) && x.written)
      ensures parts.broker.events == old(parts.broker.events) +
        if Acts(old(input), x) && ActionWork(action).Publish? then [Notice(row.inst, old(parts.dal.next), End)] else []
    {
      var id := parts.dal.next;
      parts.dal.next := parts.dal.next + 1;
      ok := RunAction(id, End, x);
      ghost var published := ok && ActionWork(action).Publish?;
      if ok { ok := CompleteWorkflow(parts, row.inst, x.written); }
      LastAttempt(jq, w, published, ok, "");
      s := if ok then AttemptSucceeds("") else AttemptFails(published);
    }

    /** The attempt of a task with a successor: park it in SLEEP, then act with its id. */
    method RunParking(jq: Oracle, x: Response, ghost w: World) returns (ok: bool, ghost s: Step)
      requires parts.Mirror(w) && Ready(w) && Serves(jq, w.sched.job) && !ToEnd(transition)
      modifies this`input, parts.dal`next, parts.queue`sent, parts.broker`events
      ensures Enabled(jq, w, ParkNext) && (s.AttemptFails? || s.AttemptSucceeds?)
      ensures var v := Next(jq, w, ParkNext);
        Enabled(jq, v, s) && parts.Mirror(Next(jq, v, s)) && Next(jq, v, s).sched == After(w.sched, ok)
      ensures ok == Acts(old(input), x) && (ok || Serves(jq, w.sched.job))
      ensures parts.queue.sent == old(parts.queue.sent) +
        [Message(0, Row(row.inst, row.wid, transition.value.to, old(parts.dal.next), Sleep, old(input)))]
      ensures parts.broker.events == old(parts.broker.events) +
        if ok && ActionWork(action).Publish? then [Notice(row.inst, old(parts.dal.next), transition.value.to)] else []
    {
      var id := parts.dal.next;
      parts.dal.next := parts.dal.next + 1;
      parts.queue.Publish([Message(0, Row(row.inst, row.wid, transition.value.to, id, Sleep, input))]);
      ok := RunAction(id, transition.value.to, x);
      ParkAttempt(jq, w);
      ParkedAttempt(jq, w, ok, "");
      s := if ok then AttemptSucceeds("") else AttemptFails(false);
    }

    /** One attempt of an operation is a run of the protocol. */
    method Run(jq: Oracle, x: Response, ghost w: World) returns (ok: bool, ghost steps: seq<Step>, ghost w': World)
      requires parts.Mirror(w) && Ready(w) && Serves(jq, w.sched.job)
      modifies this`input, parts.dal`insts, parts.dal`next, parts.queue`sent, parts.broker`events
      ensures Runs(jq, w, steps, w') && parts.Mirror(w') && Attempting(steps) && w'.sched == After(w.sched, ok)
      ensures ok == (Acts(old(input), x) && (ToEnd(transition) ==> x.written)) && (ok || Serves(jq, w.sched.job))
    {
      ghost var s;
      if ToEnd(transition) {
        ok, s := RunLast(jq, x, w);
        OneStep(jq, w, s);
        return ok, [s], Next(jq, w, s);
      }
      ok, s := RunParking(jq, x, w);
      ghost var v := Next(jq, w, ParkNext);
      TwoSteps(jq, w, ParkNext, s);
      return ok, [ParkNext, s], Next(jq, v, s);
    }
  }

  class EventTask {
    const parts: Parts
    const transition: Option<Relation>
    const operation: OperationTask

    constructor (parts: Parts, job: Job)
      ensures this.parts == parts && transition == FirstOf(job.order) && fresh(operation)
      ensures operation.parts == parts && operation.row == job.row && operation.action == job.action
      ensures operation.transition == FirstOf(job.order) && operation.input == job.row.input
    {
      this.parts := parts;
      transition := FirstOf(job.order);
      operation := new OperationTask(parts, job);
    }

    ghost predicate Serves(jq: Oracle, job: Job)
      reads operation
    {
      operation.parts == parts && job.kind in {Event, Listen} && transition == FirstOf(job.order) &&
      (transition.Some? ==> operation.Serves(jq, job))
    }

    /** Without a relation an event task does nothing; otherwise it is an operation. */
    method Run(jq: Oracle, x: Response, ghost w: World) returns (ok: bool, ghost steps: seq<Step>, ghost w': World)
      requires parts.Mirror(w) && Ready(w) && Serves(jq, w.sched.job)
      modifies operation`input, parts.dal`insts, parts.dal`next, parts.queue`sent, parts.broker`events
      ensures Runs(jq, w, steps, w') && parts.Mirror(w') && Attempting(steps) && w'.sched == After(w.sched, ok)
      ensures ok == (transition.Some? ==>
        operation.Acts(old(operation.input), x) && (ToEnd(transition) ==> x.written))
      ensures ok || Serves(jq, w.sched.job)
    {
      if transition.None? {
        IdleAttempt(jq, w, "");
        OneStep(jq, w, AttemptSucceeds(""));
        return true, [AttemptSucceeds("")], Next(jq, w, AttemptSucceeds(""));
      }
      ok, steps, w' := operation.Run(jq, x, w);
    }
  }

  class SwitchTask {
    const parts: Parts
    const row: Row
    const transitions: seq<Relation>

    constructor (parts: Parts, job: Job)
      ensures this.parts == parts && row == job.row && transitions == job.order
    {
      this.parts := parts;
      row, transitions := job.row, job.order;
    }

    predicate Serves(job: Job) {
      row == job.row && transitions == job.order && job.kind.Switch?
    }

    /** The loop over the transitions: the first condition that holds, else the last default. */
    method Choose(jq: Oracle) returns (chosen: Scan)
      ensures chosen == ScanSwitch(transitions, jq, row.input, None)
    {
      var defaultTransition: Option<Node> := None;
      for k := 0 to |transitions|
        invariant ScanSwitch(transitions, jq, row.input, None) == ScanSwitch(transitions[k..], jq, row.input, defaultTransition)
      {
        var transition := transitions[k];
        assert transitions[k..][0] == transition && transitions[k..][1..] == transitions[k + 1..];
        if transition.condition == "" {
          defaultTransition := Some(transition.to);
          continue;
        }
        match jq(transition.condition, row.input) {
          case Errs => return Broken;
          case Fails =>
          case Holds => return Chosen(transition.to);
        }
      }
      return if defaultTransition.Some? then Chosen(defaultTransition.value) else Unmatched;
    }

    method PublishOrComplete(to: Node, up: bool) returns (ok: bool)
      modifies parts.dal`insts, parts.dal`next, parts.queue`sent
      ensures parts.dal.insts == if to == End && ok then Completed(old(parts.dal.insts), row.inst) else old(parts.dal.insts)
      ensures ok == (to == End ==> up)
      ensures parts.dal.next == old(parts.dal.next) + if to == End then 0 else 1
      ensures parts.queue.sent == old(parts.queue.sent) +
        if to == End then [] else [Message(0, Row(row.inst, row.wid, to, old(parts.dal.next), Wait, row.input))]
    {
      if to == End {
        ok := CompleteWorkflow(parts, row.inst, up);
        return;
      }
      var id := parts.dal.next;
      parts.dal.next := parts.dal.next + 1;
      parts.queue.Publish([Message(0, Row(row.inst, row.wid, to, id, Wait, row.input))]);
      return true;
    }

    /** One attempt of a switch: it fails when a condition errs before a match, publishes the chosen
        successor, or completes the workflow instance. */
    method Run(jq: Oracle, x: Response, ghost w: World) returns (ok: bool, ghost steps: seq<Step>, ghost w': World)
      requires parts.Mirror(w) && Ready(w) && Serves(w.sched.job)
      modifies parts.dal`insts, parts.dal`next, parts.queue`sent
      ensures Runs(jq, w, steps, w') && parts.Mirror(w') && Attempting(steps) && w'.sched == After(w.sched, ok)
      ensures ok == Granted(PlanOf(jq, w.sched.job), x)
      ensures |steps| == 1 && (ok ==> steps == [AttemptSucceeds(row.input)])
    {
      ghost var s;
      if |transitions| == 0 {
        IdleAttempt(jq, w, row.input);
        ok, s := true, AttemptSucceeds(row.input);
      } else {
        var chosen := Choose(jq);
        if chosen.Broken? {
          DoomedAttempt(jq, w);
          ok, s := false, AttemptFails(false);
        } else {
          var to := match chosen case Chosen(n) => n case _ => End;
          ok := PublishOrComplete(to, x.written);
          s := if ok then AttemptSucceeds(row.input) else AttemptFails(false);
          SwitchAttempt(jq, w, to, ok);
        }
      }
      OneStep(jq, w, s);
      steps, w' := [s], Next(jq, w, s);
    }
  }

  class LocalRuntimeTask {
    const parts: Parts
    const row: Row
    const kind: TaskType
    const action: Option<Action>
    const transitions: seq<Relation>
    const definition: LocalRuntime.Fields
    const lib: LocalRuntime.Library
    const outputFilter: string -> string

    /** The definition column is never stored, so the scheduler passes an empty one. */
    constructor (parts: Parts, job: Job, definition: LocalRuntime.Fields, lib: LocalRuntime.Library, outputFilter: string -> string)
      ensures this.parts == parts && row == job.row && kind == job.kind && action == job.action && transitions == job.order
      ensures this.definition == definition && this.lib == lib && this.outputFilter == outputFilter
    {
      this.parts, this.definition, this.lib, this.outputFilter := parts, definition, lib, outputFilter;
      row, kind, action, transitions := job.row, job.kind, job.action, job.order;
    }

    predicate Serves(job: Job) {
      row == job.row && kind == job.kind && action == job.action && transitions == job.order && IsLocal(kind)
    }

    /** execute: run and emit publish an event that carries the running instance's own id. */
    method Execute(x: Response) returns (r: Result<string>)
      modifies parts.broker`events
      ensures definition == map[] ==> (r.Ok? <==> LocalWork(kind, action) != Doomed && (LocalWork(kind, action).Publish? ==> x.sent))
      ensures LocalWork(kind, action).Nop? ==> r.Ok?
      ensures LocalWork(kind, action).Doomed? ==> r.Err?
      ensures r.Ok? || !LocalWork(kind, action).Publish? ==> LocalRuntime.Evaluates(kind, definition, row.input, lib, r)
      ensures definition == map[] && r.Ok? ==> r.value == row.input
      ensures parts.broker.events == old(parts.broker.events) +
        if r.Ok? && LocalWork(kind, action).Publish? then [Notice(row.inst, row.tiid, End)] else []
    {
      if kind.Run? || kind.Emit? {
        if action.None? || action.value.name == "" { return Ok(row.input); }
        var sent := parts.broker.PublishEvent(row.inst, row.tiid, End, x.sent);
        return if sent then Ok(row.input) else Err("publish failed");
      }
      r := LocalRuntime.Execute(kind, definition, row.input, lib);
    }

    /** Completes the instance when the first relation leads to END, else publishes all successors. */
    method Continue(nextInput: string, up: bool) returns (ok: bool)
      modifies parts.dal`insts, parts.dal`next, parts.queue`sent
      ensures LocalGoal(transitions).Complete? ==> parts.queue.sent == old(parts.queue.sent) && parts.dal.next == old(parts.dal.next)
      ensures LocalGoal(transitions).Complete? ==>
        parts.dal.insts == if ok then Completed(old(parts.dal.insts), row.inst) else old(parts.dal.insts)
      ensures ok == (LocalGoal(transitions).Complete? ==> up)
      ensures LocalGoal(transitions).Advance? ==> parts.dal.insts == old(parts.dal.insts)
      ensures LocalGoal(transitions).Advance? ==> parts.dal.next == old(parts.dal.next) + |Targets(transitions)|
      ensures LocalGoal(transitions).Advance? ==>
        parts.queue.sent == old(parts.queue.sent) + Spawn(row, Targets(transitions), nextInput, old(parts.dal.next))
    {
      if |transitions| == 0 || transitions[0].to == End {
        ok := CompleteWorkflow(parts, row.inst, up);
        return;
      }
      if |transitions| == 1 {
        assert Targets(transitions) == [transitions[0].to];
        ok := PublishNextOrComplete(parts, row, Some(transitions[0]), nextInput, up);
        return;
      }
      ok := PublishNextTasks(parts, row, transitions, nextInput, up);
    }

    /** The task goes on to another task. */
    predicate GoesOn() {
      transitions != [] && transitions[0].to != End
    }

    /** One attempt of a local task is one step of the protocol; the successors get the filtered result. */
    method Run(jq: Oracle, x: Response, ghost w: World) returns (ok: bool, ghost steps: seq<Step>, ghost w': World)
      requires parts.Mirror(w) && Ready(w) && Serves(w.sched.job)
      modifies parts.dal`insts, parts.dal`next, parts.queue`sent, parts.broker`events
      ensures Runs(jq, w, steps, w') && parts.Mirror(w') && Attempting(steps) && w'.sched == After(w.sched, ok)
      ensures definition == map[] ==> ok == Granted(PlanOf(jq, w.sched.job), x)
      ensures |steps| == 1 && (definition == map[] && ok ==> steps == [AttemptSucceeds(outputFilter(row.input))])
      ensures ok && GoesOn() ==>
        exists value :: LocalRuntime.Evaluates(kind, definition, row.input, lib, Ok(value)) && (
          parts.queue.sent == old(parts.queue.sent) + Spawn(row, Targets(transitions), outputFilter(value), old(parts.dal.next)))
      ensures ok && GoesOn() && definition == map[] ==>
        parts.queue.sent == old(parts.queue.sent) + Spawn(row, Targets(transitions), outputFilter(row.input), old(parts.dal.next))
      ensures !ok || !GoesOn() ==> parts.queue.sent == old(parts.queue.sent)
    {
      hide LocalRuntime.Evaluates, Spawn, Targets;
      ghost var s;
      var done := Execute(x);
      if done.Err? {
        LocalFails(jq, w);
        ok, s := false, AttemptFails(false);
      } else {
        var nextInput := outputFilter(done.value);
        ok := Continue(nextInput, x.written);
        LocalAttempt(jq, w, ok, nextInput);
        s := if ok then AttemptSucceeds(nextInput) else AttemptFails(LocalWork(kind, action).Publish?);
      }
      OneStep(jq, w, s);
      steps, w' := [s], Next(jq, w, s);
    }
  }

  lemma LocalFails(jq: Oracle, w: World)
    requires Ready(w) && IsLocal(w.sched.job.kind) && PlanOf(jq, w.sched.job).work != Nop
    ensures Enabled(jq, w, AttemptFails(false)) && Next(jq, w, AttemptFails(false)) == w.(sched := After(w.sched, false))
  {
  }

  lemma LocalAttempt(jq: Oracle, w: World, ok: bool, output: string)
    requires Ready(w) && IsLocal(w.sched.job.kind) && PlanOf(jq, w.sched.job).work != Doomed
    requires ok || PlanOf(jq, w.sched.job).goal.Complete?
    ensures var r, p := w.sched.job.row, PlanOf(jq, w.sched.job);
      var s := if ok then AttemptSucceeds(output) else AttemptFails(p.work.Publish?);
      var sent := if p.work.Publish? then Record(w.store, Notice(r.inst, r.tiid, End)) else w.store;
      Enabled(jq, w, s) &&
      Next(jq, w, s) == (
        if p.goal.Complete? then
          w.(store := sent, insts := if ok then w.insts[r.inst := Instance(r.wid, Succeeded)] else w.insts, sched := After(w.sched, ok))
        else
          w.(store := Post(sent, Spawn(r, p.goal.successors, output, w.next)), sched := After(w.sched, true),
             next := w.next + |p.goal.successors|))
  {
  }

  /** A task with nothing to do. */
  lemma IdleAttempt(jq: Oracle, w: World, output: string)
    requires Ready(w) && PlanOf(jq, w.sched.job) == Plan(Nop, Nothing)
    ensures Enabled(jq, w, AttemptSucceeds(output)) && Next(jq, w, AttemptSucceeds(output)) == w.(sched := After(w.sched, true))
  {
  }

  /** An attempt that can only fail. */
  lemma DoomedAttempt(jq: Oracle, w: World)
    requires Ready(w) && PlanOf(jq, w.sched.job).work.Doomed? && (IsLocal(w.sched.job.kind) || w.sched.job.kind.Switch?)
    ensures !PlanOf(jq, w.sched.job).goal.Park? ==>
      Enabled(jq, w, AttemptFails(false)) && Next(jq, w, AttemptFails(false)) == w.(sched := After(w.sched, false))
  {
  }

  lemma SwitchAttempt(jq: Oracle, w: World, to: Node, ok: bool)
    requires Ready(w) && w.sched.job.kind.Switch? && w.sched.job.order != [] && (!ok ==> to == End)
    requires var c := ScanSwitch(w.sched.job.order, jq, w.sched.job.row.input, None);
      !c.Broken? && to == if c.Chosen? then c.to else End
    ensures var r := w.sched.job.row; var s := if ok then AttemptSucceeds(r.input) else AttemptFails(false);
      Enabled(jq, w, s) &&
      Next(jq, w, s) == (
        if to == End then w.(insts := if ok then w.insts[r.inst := Instance(r.wid, Succeeded)] else w.insts, sched := After(w.sched, ok))
        else w.(store := Post(w.store, [Message(0, Row(r.inst, r.wid, to, w.next, Wait, r.input))]),
                sched := After(w.sched, true), next := w.next + 1))
  {
    if to != End { assert Spawn(w.sched.job.row, [to], w.sched.job.row.input, w.next) ==
      [Message(0, Row(w.sched.job.row.inst, w.sched.job.row.wid, to, w.next, Wait, w.sched.job.row.input))]; }
  }

  lemma TwoSteps(jq: Oracle, w: World, a: Step, b: Step)
    requires Enabled(jq, w, a) && Enabled(jq, Next(jq, w, a), b)
    ensures Runs(jq, w, [a, b], Next(jq, Next(jq, w, a), b))
  {
    assert [a, b][1..] == [b];
    OneStep(jq, Next(jq, w, a), b);
  }

  /** The attempt of an operation without a successor, as a step. */
  lemma LastAttempt(jq: Oracle, w: World, published: bool, ok: bool, output: string)
    requires Ready(w) && !IsLocal(w.sched.job.kind) && !w.sched.job.kind.Switch?
    requires PlanOf(jq, w.sched.job).goal.Complete? && PlanOf(jq, w.sched.job).work in {Nop, Call, Publish(false)}
    requires (published ==> PlanOf(jq, w.sched.job).work.Publish?) && (ok ==> published == PlanOf(jq, w.sched.job).work.Publish?)
    ensures var s, r := if ok then AttemptSucceeds(output) else AttemptFails(published), w.sched.job.row;
      Enabled(jq, w, s) &&
      Next(jq, w, s) == w.(
        store := if published then Record(w.store, Notice(r.inst, w.next, End)) else w.store,
        insts := if ok then w.insts[r.inst := Instance(r.wid, Succeeded)] else w.insts,
        sched := After(w.sched, ok), next := w.next + 1)
  {
  }

  lemma ParkAttempt(jq: Oracle, w: World)
    requires Ready(w) && PlanOf(jq, w.sched.job).goal.Park?
    ensures var r := w.sched.job.row;
      Enabled(jq, w, ParkNext) &&
      Next(jq, w, ParkNext) == w.(
        store := Post(w.store, [Message(0, Row(r.inst, r.wid, PlanOf(jq, w.sched.job).goal.successor, w.next, Sleep, r.input))]),
        sched := w.sched.(parked := Some(w.next)), next := w.next + 1)
  {
  }

  /** The rest of an attempt that has parked a successor. */
  lemma ParkedAttempt(jq: Oracle, w: World, ok: bool, output: string)
    requires Ready(w) && PlanOf(jq, w.sched.job).goal.Park? && PlanOf(jq, w.sched.job).work in {Nop, Call, Publish(false)}
    requires !ok ==> PlanOf(jq, w.sched.job).work != Nop
    ensures var v, s, p := Next(jq, w, ParkNext), if ok then AttemptSucceeds(output) else AttemptFails(false), PlanOf(jq, w.sched.job);
      Enabled(jq, v, s) &&
      Next(jq, v, s) == v.(
        store := if ok && p.work.Publish? then Record(v.store, Notice(w.sched.job.row.inst, w.next, p.goal.successor)) else v.store,
        sched := After(w.sched, ok))
  {
  }
}
