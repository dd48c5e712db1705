/** The run-time protocol as a state machine: Engine.Start and Engine.Transition, the in-memory
    queue, one scheduler loop and the executors, interleaved step by step.

    Environment: ids drawn from the counter are fresh; a failed event publish sends nothing; the
    final row update and commit of `handle` succeed; a callback carries the ids of its event and
    comes at most once per event. The PROCESS write of a claim is shown at once: it is
    uncommitted, but one loop is the only reader of WAIT rows and callbacks look for SLEEP. */
module Protocol {
  import opened Model
  import opened Executors

  /** Status of a task instance row; Invalid is the soft delete. */
  datatype Status = Sleep | Wait | Process | Success | Failed | Invalid

  /** One row of t_workflow_task_instance without its ID. */
  datatype Row = Row(inst: nat, wid: string, task: Node, tiid: nat, status: Status, input: string)

  /** A queued *WorkflowTaskInstance: ID 0 is inserted, any other ID updates that row. */
  datatype Message = Message(id: nat, row: Row)

  /** A published event. It carries `inst` and `tiid`; `parks` is a history field: the task of the
      SLEEP successor the event names, or END when it names none. */
  datatype Notice = Notice(inst: nat, tiid: nat, parks: Node)

  /** Task instance rows, the queue's channel and the broker. rows, sent and events only grow:
      `head` counts the messages the consumer has taken, `called` holds the events whose callback came. */
  datatype Store = Store(rows: seq<Row>, sent: seq<Message>, head: nat, events: seq<Notice>, called: set<nat>)

  datatype FlowStatus = Running | Succeeded | Deleted

  /** One row of t_workflow_instance. */
  datatype Instance = Instance(wid: string, status: FlowStatus)

  /** The snapshot that SelectTaskInstance returns for a claim. */
  datatype Job = Job(row: Row, kind: TaskType, action: Option<Action>, order: seq<Relation>)

  datatype Scheduler =
    | Idle
    | Working(id: nat, job: Job, attempt: nat, parked: Option<nat>)
    | Ended(id: nat, ok: bool)

  /** One executed task of an instance and the filtered input it ran on. */
  datatype Visit = Visit(task: Node, input: string)

  /** The claimed job as a visit. */
  function VisitOf(job: Job): Visit {
    Visit(job.row.task, job.row.input)
  }

  /** `trace` is the history of claims of each workflow instance. */
  datatype World = World(
    tables: Tables,
    store: Store,
    insts: map<nat, Instance>,
    trace: map<nat, seq<Visit>>,
    sched: Scheduler,
    next: nat)

  datatype Step =
    | StartFlow(relation: nat, input: string)
    | Deliver(written: bool)
    | Callback(event: nat, wid: string, found: Option<nat>)
    | Claim(row: nat, task: nat, action: Option<Action>, order: seq<Relation>, input: string)
    | ParkNext
    | AttemptFails(published: bool)
    | AttemptSucceeds(output: string)
    | Finish
    | Republish(tables: Tables, next: nat, gone: Option<string>)

  const MAX_ATTEMPTS: nat := 5

  // ---- the store ----

  function Post(b: Store, ms: seq<Message>): Store {
    b.(sent := b.sent + ms)
  }

  function Record(b: Store, n: Notice): Store {
    b.(events := b.events + [n])
  }

  /** UpdateTaskInstance with a full row: an empty input is a zero value and is not written. */
  function Overlay(stored: Row, update: Row): Row {
    if update.input == "" then update.(input := stored.input) else update
  }

  /** The consumer takes the oldest message; a write error is logged and the message is gone. */
  function Take(b: Store, written: bool): Store
    requires b.head < |b.sent|
  {
    var m := b.sent[b.head];
    if !written then b.(head := b.head + 1)
    else if m.id == 0 then b.(head := b.head + 1, rows := b.rows + [m.row])
    else if m.id <= |b.rows| then b.(head := b.head + 1, rows := b.rows[m.id - 1 := Overlay(b.rows[m.id - 1], m.row)])
    else b.(head := b.head + 1)
  }

  /** SelectTransitionTask: zero values in the condition are ignored, so an empty id matches any. */
  predicate Wakes(r: Row, e: Notice, wid: string) {
    r.status == Sleep && r.inst == e.inst && r.tiid == e.tiid && (wid == "" || r.wid == wid)
  }

  function Wake(b: Store, event: nat, found: Option<nat>): Store
    requires found.Some? ==> found.value < |b.rows|
  {
    var c := b.(called := b.called + {event});
    if found.None? then c else Post(c, [Message(found.value + 1, b.rows[found.value].(status := Wait))])
  }

  function Mark(b: Store, row: nat, status: Status): Store
    requires row < |b.rows|
  {
    b.(rows := b.rows[row := b.rows[row].(status := status)])
  }

  /** The status a turn leaves behind. The soft delete of a claimed row waits for the turn's
      transaction, so a row that was deleted meanwhile ends INVALID. */
  function FinalStatus(r: Row, ok: bool): Status {
    if r.status == Invalid then Invalid else if ok then Success else Failed
  }

  function Forget(b: Store, gone: Option<string>): (c: Store)
    ensures c == b.(rows := c.rows) && |c.rows| == |b.rows|
    ensures forall k :: 0 <= k < |c.rows| ==>
      c.rows[k] == if gone == Some(b.rows[k].wid) then b.rows[k].(status := Invalid) else b.rows[k]
  {
    b.(rows := seq(|b.rows|, k requires 0 <= k < |b.rows| =>
      if gone == Some(b.rows[k].wid) then b.rows[k].(status := Invalid) else b.rows[k]))
  }

  // ---- the stored graph ----

  predicate Stored(t: Tables, wid: string, n: Node) {
    n.Task? && exists k :: 0 <= k < |t.tasks| && t.tasks[k].wid == wid && t.tasks[k].id == n.id
  }

  /** Every relation row leads to END or to a stored task of its workflow, and START only to a task. */
  predicate Sound(t: Tables) {
    forall r :: r in t.relations ==> (r.to == End && r.from != Start) || Stored(t, r.wid, r.to)
  }

  /** Task rows are never removed or changed, only soft-deleted. */
  predicate Grows(t: Tables, t': Tables) {
    |t.tasks| <= |t'.tasks| &&
    forall k :: 0 <= k < |t.tasks| ==> t'.tasks[k] == t.tasks[k].(normal := t'.tasks[k].normal)
  }

  /** The snapshot a claim of task n can read: its task row, one of its actions, its relations. */
  ghost predicate Reads(t: Tables, wid: string, n: Node, task: nat, action: Option<Action>, order: seq<Relation>) {
    task < |t.tasks| && Task(t.tasks[task].id) == n && t.tasks[task].wid == wid &&
    (if t.tasks[task].actions == [] then action.None? else action.Some? && action.value in t.tasks[task].actions) &&
    Reordered(order, Leaving(t.relations, wid, n))
  }

  // ---- steps ----

  function PlanOf(jq: Oracle, job: Job): Plan {
    Decide(job.kind, job.action, job.order, jq, job.row.input)
  }

  function Spawn(r: Row, successors: seq<Node>, output: string, next: nat): (m: seq<Message>)
    ensures |m| == |successors|
    ensures forall k :: 0 <= k < |m| ==>
      m[k] == Message(0, Row(r.inst, r.wid, successors[k], next + k, Wait, output))
  {
    seq(|successors|, k requires 0 <= k < |successors| =>
      Message(0, Row(r.inst, r.wid, successors[k], next + k, Wait, output)))
  }

  /** An operation that has no successor draws an id for its event even when it publishes none. */
  function Drawn(job: Job, p: Plan): nat {
    if p.goal.Complete? && !IsLocal(job.kind) && !job.kind.Switch? then 1 else 0
  }

  /** The event an attempt publishes when its goal is not to park: an operation names an id
      drawn for the purpose, a local task names itself. */
  function Announce(b: Store, r: Row, work: Work, next: nat): Store {
    if work.Publish? then Record(b, Notice(r.inst, if work.own then r.tiid else next, End)) else b
  }

  function Retry(s: Scheduler): Scheduler
    requires s.Working?
  {
    if s.attempt < MAX_ATTEMPTS then s.(attempt := s.attempt + 1, parked := None) else Ended(s.id, false)
  }

  predicate CanFail(p: Plan, parked: Option<nat>, published: bool) {
    match p.goal
    case Park(_) => parked.Some? && p.work != Nop && !published
    case Complete => published ==> p.work.Publish?
    case _ => p.work != Nop && !published
  }

  predicate CanSucceed(p: Plan, parked: Option<nat>) {
    p.work != Doomed && (p.goal.Park? ==> parked.Some?)
  }

  ghost predicate Enabled(jq: Oracle, w: World, s: Step) {
    match s
    case StartFlow(relation, _) =>
      relation < |w.tables.relations| && w.tables.relations[relation].normal &&
      w.tables.relations[relation].from == Start
    case Deliver(_) => w.store.head < |w.store.sent|
    case Callback(event, wid, found) =>
      event < |w.store.events| && event !in w.store.called &&
      (found.Some? ==> found.value < |w.store.rows| &&
                       Wakes(w.store.rows[found.value], w.store.events[event], wid))
    case Claim(row, task, action, order, _) =>
      w.sched.Idle? && row < |w.store.rows| && w.store.rows[row].status == Wait &&
      Reads(w.tables, w.store.rows[row].wid, w.store.rows[row].task, task, action, order)
    case ParkNext =>
      w.sched.Working? && PlanOf(jq, w.sched.job).goal.Park? && w.sched.parked.None?
    case AttemptFails(published) =>
      w.sched.Working? && CanFail(PlanOf(jq, w.sched.job), w.sched.parked, published)
    case AttemptSucceeds(_) =>
      w.sched.Working? && CanSucceed(PlanOf(jq, w.sched.job), w.sched.parked)
    case Finish => w.sched.Ended? && w.sched.id < |w.store.rows|
    case Republish(t, next, gone) => Grows(w.tables, t) && Sound(t) && w.next <= next
  }

  function Started(w: World, r: Relation, input: string): World {
    w.(insts := w.insts[w.next := Instance(r.wid, Running)],
       trace := w.trace[w.next := []],
       store := Post(w.store, [Message(0, Row(w.next, r.wid, r.to, w.next + 1, Wait, input))]),
       next := w.next + 2)
  }

  function History(w: World, i: nat): seq<Visit> {
    if i in w.trace then w.trace[i] else []
  }

  function Claimed(w: World, row: nat, kind: TaskType, action: Option<Action>, order: seq<Relation>, input: string): World
    requires row < |w.store.rows|
  {
    var r := w.store.rows[row].(status := Process, input := input);
    w.(store := Mark(w.store, row, Process),
       sched := Working(row, Job(r, kind, action, order), 1, None),
       trace := w.trace[r.inst := History(w, r.inst) + [Visit(r.task, input)]])
  }

  function Parked(w: World, successor: Node): World
    requires w.sched.Working?
  {
    var r := w.sched.job.row;
    w.(store := Post(w.store, [Message(0, Row(r.inst, r.wid, successor, w.next, Sleep, r.input))]),
       sched := w.sched.(parked := Some(w.next)), next := w.next + 1)
  }

  function Failing(w: World, p: Plan, published: bool): World
    requires w.sched.Working?
  {
    w.(store := if published then Announce(w.store, w.sched.job.row, p.work, w.next) else w.store,
       sched := Retry(w.sched), next := w.next + Drawn(w.sched.job, p))
  }

  function Achieved(w: World, p: Plan, output: string): World
    requires w.sched.Working? && CanSucceed(p, w.sched.parked)
  {
    var r := w.sched.job.row;
    var done := w.(sched := Ended(w.sched.id, true));
    match p.goal
    case Park(n) =>
      if p.work.Publish? then done.(store := Record(w.store, Notice(r.inst, w.sched.parked.value, n))) else done
    case Advance(ns) =>
      done.(store := Post(Announce(w.store, r, p.work, w.next), Spawn(r, ns, output, w.next)), next := w.next + |ns|)
    case Complete =>
      done.(store := Announce(w.store, r, p.work, w.next),
            insts := w.insts[r.inst := Instance(r.wid, Succeeded)], next := w.next + Drawn(w.sched.job, p))
    case Nothing => done
  }

  function Republished(w: World, t: Tables, next: nat, gone: Option<string>): World {
    w.(tables := t, next := next, store := Forget(w.store, gone),
       insts := map i | i in w.insts ::
         if gone == Some(w.insts[i].wid) then w.insts[i].(status := Deleted) else w.insts[i])
  }

  function Next(jq: Oracle, w: World, s: Step): World
    requires Enabled(jq, w, s)
  {
    match s
    case StartFlow(relation, input) => Started(w, w.tables.relations[relation], input)
    case Deliver(written) => w.(store := Take(w.store, written))
    case Callback(event, _, found) => w.(store := Wake(w.store, event, found))
    case Claim(row, task, action, order, input) => Claimed(w, row, w.tables.tasks[task].kind, action, order, input)
    case ParkNext => Parked(w, PlanOf(jq, w.sched.job).goal.successor)
    case AttemptFails(published) => Failing(w, PlanOf(jq, w.sched.job), published)
    case AttemptSucceeds(output) => Achieved(w, PlanOf(jq, w.sched.job), output)
    case Finish => w.(store := Mark(w.store, w.sched.id, FinalStatus(w.store.rows[w.sched.id], w.sched.ok)), sched := Idle)
    case Republish(t, next, gone) => Republished(w, t, next, gone)
  }

  ghost predicate Init(w: World) {
    w.store == Store([], [], 0, [], {}) && w.insts == map[] && w.trace == map[] && w.sched == Idle && Sound(w.tables)
  }

  /** w' is reached from w by the given steps. */
  ghost predicate Runs(jq: Oracle, w: World, steps: seq<Step>, w': World)
    decreases |steps|
  {
    if steps == [] then w' == w
    else Enabled(jq, w, steps[0]) && Runs(jq, Next(jq, w, steps[0]), steps[1..], w')
  }

  /** The steps do not delete workflow wid. */
  predicate Spares(steps: seq<Step>, wid: string) {
    steps == [] || ((steps[0].Republish? ==> steps[0].gone != Some(wid)) && Spares(steps[1..], wid))
  }
}
