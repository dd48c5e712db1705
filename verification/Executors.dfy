/** What each executor of internal/task decides to do with a claimed task instance.
    A Plan is the part of an attempt that depends only on the claimed snapshot; which of the
    external calls fail is chosen later, attempt by attempt. */
module Executors {
  import opened Model

  /** The fallible part of an attempt. */
  datatype Work =
    | Nop              // nothing to call: it cannot fail
    | Call             // an A2A call or a local computation: it can fail and publishes nothing
    | Publish(own: bool) // one event; `own` when it names the running task instance itself
    | Doomed           // fails on every attempt

  /** What a successful attempt does with the workflow instance. */
  datatype Goal =
    | Park(successor: Node)            // queue the successor in SLEEP before the work
    | Advance(successors: seq<Node>)    // queue successors in WAIT after the work
    | Complete                    // mark the workflow instance SUCCESS after the work
    | Nothing

  datatype Plan = Plan(work: Work, goal: Goal)

  predicate IsLocal(kind: TaskType) {
    kind in {SetTask, Do, Fork, For, Try, WaitTask, Raise, Run, Emit}
  }

  predicate IsA2A(a: Action) {
    a.kind == "a2a" || a.kind == "agent" || (|a.name| >= 3 && a.name[..3] == "a2a")
  }

  /** runAction: what the first action of an operation asks for. */
  function ActionWork(action: Option<Action>): Work
  {
    if action.None? || action.value.name == "" || IsLocalName(action.value.kind) then Nop
    else if IsA2A(action.value) then Call
    else Publish(false)
  }

  function OperationPlan(action: Option<Action>, order: seq<Relation>): Plan
  {
    Plan(ActionWork(action), if order == [] || order[0].to == End then Complete else Park(order[0].to))
  }

  function EventPlan(action: Option<Action>, order: seq<Relation>): Plan
  {
    if order == [] then Plan(Nop, Nothing) else OperationPlan(action, order)
  }

  /** Outcome of the loop over a switch task's transitions. */
  datatype Scan = Broken | Chosen(to: Node) | Unmatched

  /** The loop of switchTask.Run: the first condition that holds wins, the last empty
      condition is the default, and a condition that errs before a match ends the loop. */
  function ScanSwitch(order: seq<Relation>, jq: Oracle, input: string, fallback: Option<Node>): Scan {
    if order == [] then
      (if fallback.Some? then Chosen(fallback.value) else Unmatched)
    else if order[0].condition == "" then
      ScanSwitch(order[1..], jq, input, Some(order[0].to))
    else match jq(order[0].condition, input)
      case Errs => Broken
      case Holds => Chosen(order[0].to)
      case Fails => ScanSwitch(order[1..], jq, input, fallback)
  }

  function SwitchPlan(order: seq<Relation>, jq: Oracle, input: string): Plan {
    if order == [] then Plan(Nop, Nothing)
    else match ScanSwitch(order, jq, input, None)
      case Broken => Plan(Doomed, Nothing)
      case Unmatched => Plan(Nop, Complete)
      case Chosen(to) => Plan(Nop, if to == End then Complete else Advance([to]))
  }

  function LocalWork(kind: TaskType, action: Option<Action>): Work {
    match kind
    case Raise => Doomed
    case Run => if action.None? || action.value.name == "" then Nop else Publish(true)
    case Emit => if action.None? || action.value.name == "" then Nop else Publish(true)
    case Fork => Nop
    case _ => Call
  }

  /** The targets of a relation list that are not END, in order. */
  function Targets(order: seq<Relation>): (r: seq<Node>)
    ensures forall n :: n in r <==> n != End && exists x :: x in order && x.to == n
    ensures |r| <= |order|
  {
    if order == [] then []
    else (if order[0].to == End then [] else [order[0].to]) + Targets(order[1..])
  }

  function LocalGoal(order: seq<Relation>): Goal {
    if order == [] || order[0].to == End then Complete else Advance(Targets(order))
  }

  /** task.New: dispatch on the stored type, with the operation task as the fallback. */
  function Decide(kind: TaskType, action: Option<Action>, order: seq<Relation>, jq: Oracle, input: string): Plan
  {
    if IsLocal(kind) then Plan(LocalWork(kind, action), LocalGoal(order))
    else match kind
      case Event => EventPlan(action, order)
      case Listen => EventPlan(action, order)
      case Switch => SwitchPlan(order, jq, input)
      case _ => OperationPlan(action, order)
  }

  /** The nodes a successful attempt of the plan moves the instance to. */
  ghost predicate Leads(p: Plan, n: Node) {
    p.work != Doomed &&
    match p.goal
    case Park(next) => n == next
    case Advance(next) => n in next
    case Complete => n == End
    case Nothing => false
  }
}
