/** Weights: what the live tokens of some instances still have to execute. */
module Weights {
  import opened Model
  import opened Executors
  import opened Protocol
  import opened Invariants

  type Weighing = Node -> nat

  // ---- sums ----

  function Sum(s: seq<nat>): nat {
    if s == [] then 0 else s[0] + Sum(s[1..])
  }

  lemma {:induction false} SumAppend(a: seq<nat>, b: seq<nat>)
    ensures Sum(a + b) == Sum(a) + Sum(b)
  {
    if a == [] { assert a + b == b; } else { assert (a + b)[1..] == a[1..] + b; SumAppend(a[1..], b); }
  }

  lemma SumOne(n: nat)
    ensures Sum([n]) == n
  {
  }

  lemma {:induction false} SumChange(a: seq<nat>, b: seq<nat>, k: nat)
    requires |a| == |b| && k < |a| && forall j :: 0 <= j < |a| && j != k ==> a[j] == b[j]
    ensures Sum(b) + a[k] == Sum(a) + b[k]
  {
    if k == 0 { assert a[1..] == b[1..]; } else { SumChange(a[1..], b[1..], k - 1); }
  }

  /** The weight of the tasks a list of relations leads to. */
  function Load(order: seq<Relation>, wt: Weighing): nat {
    if order == [] then 0 else (if order[0].to == End then 0 else wt(order[0].to)) + Load(order[1..], wt)
  }

  lemma {:induction false} LoadAppend(a: seq<Relation>, b: seq<Relation>, wt: Weighing)
    ensures Load(a + b, wt) == Load(a, wt) + Load(b, wt)
  {
    if a == [] { assert a + b == b; } else { assert (a + b)[1..] == a[1..] + b; LoadAppend(a[1..], b, wt); }
  }

  lemma LoadWithout(b: seq<Relation>, k: nat, wt: Weighing)
    requires k < |b|
    ensures Load(b, wt) == Load([b[k]], wt) + Load(b[..k] + b[k + 1..], wt)
  {
    hide Load;
    assert b == b[..k] + ([b[k]] + b[k + 1..]);
    LoadAppend(b[..k], b[k + 1..], wt);
    LoadAppend([b[k]], b[k + 1..], wt);
    LoadAppend(b[..k], [b[k]] + b[k + 1..], wt);
  }

  lemma WithoutFirst(a: seq<Relation>, b: seq<Relation>, k: nat)
    requires Reordered(a, b) && a != [] && k < |b| && b[k] == a[0]
    ensures Reordered(a[1..], b[..k] + b[k + 1..])
  {
    assert a == [a[0]] + a[1..] && b == b[..k] + [b[k]] + b[k + 1..];
    assert multiset(b) == multiset(b[..k]) + multiset{b[k]} + multiset(b[k + 1..]);
    assert multiset(a) == multiset{a[0]} + multiset(a[1..]);
    assert multiset(b[..k] + b[k + 1..]) == multiset(b) - multiset{b[k]};
  }

  /** The order of the rows does not matter. */
  lemma {:induction false} LoadReordered(a: seq<Relation>, b: seq<Relation>, wt: Weighing)
    requires Reordered(a, b)
    ensures Load(a, wt) == Load(b, wt)
  {
    ReorderedMembers(a, b);
    if a != [] {
      hide Load;
      assert a[0] in b;
      var k :| 0 <= k < |b| && b[k] == a[0];
      LoadWithout(b, k, wt);
      LoadWithout(a, 0, wt);
      assert a[..0] + a[1..] == a[1..];
      WithoutFirst(a, b, k);
      LoadReordered(a[1..], b[..k] + b[k + 1..], wt);
    }
  }

  /** Each task of the workflow weighs at least one more than everything it leads to. */
  ghost predicate Balanced(t: Tables, wid: string, wt: Weighing) {
    forall n :: n != End ==> wt(n) >= 1 + Load(Leaving(t.relations, wid, n), wt)
  }

  /** Every live relation between tasks of the workflow leads to a lower rank. */
  ghost predicate Acyclic(t: Tables, wid: string, rank: Weighing) {
    forall r :: r in t.relations && r.normal && r.wid == wid && r.from != End && r.to != End ==> rank(r.to) < rank(r.from)
  }

  /** One more than the weights of the lower-ranked tasks that live relations lead to. */
  function Weight(relations: seq<Relation>, rank: Weighing, n: Node): nat
    decreases rank(n), |relations| + 1
  {
    1 + Below(relations, relations, rank, n)
  }

  function Below(left: seq<Relation>, relations: seq<Relation>, rank: Weighing, n: Node): nat
    requires |left| <= |relations|
    decreases rank(n), |left|
  {
    if left == [] then 0
    else
      (if left[0].normal && left[0].from == n && left[0].to != End && rank(left[0].to) < rank(n)
       then Weight(relations, rank, left[0].to) else 0) + Below(left[1..], relations, rank, n)
  }

  function WeighingOf(relations: seq<Relation>, rank: Weighing): Weighing {
    (n: Node) => Weight(relations, rank, n)
  }

  lemma {:induction false} LeavingIsBelow(left: seq<Relation>, relations: seq<Relation>, rank: Weighing, wid: string, n: Node)
    requires |left| <= |relations|
    requires forall r :: r in left && r.normal && r.from == n && r.to != End ==> rank(r.to) < rank(n)
    ensures Load(Leaving(left, wid, n), WeighingOf(relations, rank)) <= Below(left, relations, rank, n)
  {
    if left != [] {
      var wt := WeighingOf(relations, rank);
      LeavingIsBelow(left[1..], relations, rank, wid, n);
      assert left[0] in left;
      var rest := Leaving(left[1..], wid, n);
      if Exits(wid, n)(left[0]) {
        assert Leaving(left, wid, n) == [left[0]] + rest;
        assert ([left[0]] + rest)[1..] == rest;
      } else {
        assert Leaving(left, wid, n) == rest;
      }
    }
  }

  function Of(wid: string): Relation -> bool {
    (r: Relation) => r.wid == wid
  }

  lemma AcyclicIsBalanced(t: Tables, wid: string, rank: Weighing)
    requires Acyclic(t, wid, rank)
    ensures Balanced(t, wid, WeighingOf(Filter(Of(wid), t.relations), rank))
  {
    var own := Filter(Of(wid), t.relations);
    var wt := WeighingOf(own, rank);
    forall n | n != End ensures wt(n) >= 1 + Load(Leaving(t.relations, wid, n), wt) {
      FilterTwice(Of(wid), Exits(wid, n), Exits(wid, n), t.relations);
      LeavingIsBelow(own, own, rank, wid, n);
    }
  }

  lemma {:induction false} LoadHolds(order: seq<Relation>, r: Relation, wt: Weighing)
    requires r in order && r.to != End
    ensures wt(r.to) <= Load(order, wt)
  {
    if order[0] != r { LoadHolds(order[1..], r, wt); }
  }

  /** Weights exist exactly when the live relations of the workflow have no cycle. */
  lemma BalancedIffAcyclic(t: Tables, wid: string)
    ensures (exists wt :: Balanced(t, wid, wt)) <==> (exists rank :: Acyclic(t, wid, rank))
  {
    if rank :| Acyclic(t, wid, rank) { AcyclicIsBalanced(t, wid, rank); }
    if wt :| Balanced(t, wid, wt) {
      forall r | r in t.relations && r.normal && r.wid == wid && r.from != End && r.to != End ensures wt(r.to) < wt(r.from) {
        LoadHolds(Leaving(t.relations, wid, r.from), r, wt);
      }
      assert Acyclic(t, wid, wt);
    }
  }

  // ---- the weight that is still to be executed ----

  /** How much each task weighs for each workflow instance. */
  type Burden = nat -> Weighing

  function Weigh(live: bool, r: Row, wt: Burden): nat {
    if live then wt(r.inst)(r.task) else 0
  }

  function QueueCosts(sent: seq<Message>, head: nat, wt: Burden): (c: seq<nat>)
    ensures |c| == |sent|
  {
    seq<nat>(|sent|, k requires 0 <= k < |sent| => Weigh(head <= k && sent[k].row.status == Wait, sent[k].row, wt))
  }

  function RowCosts(rows: seq<Row>, wt: Burden): (c: seq<nat>)
    ensures |c| == |rows|
  {
    seq<nat>(|rows|, k requires 0 <= k < |rows| => Weigh(rows[k].status == Wait, rows[k], wt))
  }

  function Call(e: Notice, wt: Burden): nat {
    if e.parks != End then wt(e.inst)(e.parks) else 0
  }

  function EventCosts(events: seq<Notice>, called: set<nat>, wt: Burden): (c: seq<nat>)
    ensures |c| == |events|
  {
    seq<nat>(|events|, k requires 0 <= k < |events| => if k in called then 0 else Call(events[k], wt))
  }

  function StoreCost(b: Store, wt: Burden): nat {
    Sum(QueueCosts(b.sent, b.head, wt)) + Sum(RowCosts(b.rows, wt)) + Sum(EventCosts(b.events, b.called, wt))
  }

  function WorkCost(s: Scheduler, wt: Burden): nat {
    if s.Working? then Load(s.job.order, wt(s.job.row.inst)) else 0
  }

  /** The weight of the live tokens. */
  function Potential(w: World, wt: Burden): nat {
    StoreCost(w.store, wt) + WorkCost(w.sched, wt)
  }

  // ---- messages ----

  lemma DropCost(sent: seq<Message>, head: nat, wt: Burden)
    requires head < |sent|
    ensures Sum(QueueCosts(sent, head + 1, wt)) + Weigh(sent[head].row.status == Wait, sent[head].row, wt) ==
      Sum(QueueCosts(sent, head, wt))
  {
    hide Sum;
    SumChange(QueueCosts(sent, head, wt), QueueCosts(sent, head + 1, wt), head);
  }

  lemma InsertCost(rows: seq<Row>, r: Row, wt: Burden)
    ensures Sum(RowCosts(rows + [r], wt)) == Sum(RowCosts(rows, wt)) + Weigh(r.status == Wait, r, wt)
  {
    hide Sum;
    assert RowCosts(rows + [r], wt) == RowCosts(rows, wt) + [Weigh(r.status == Wait, r, wt)];
    SumAppend(RowCosts(rows, wt), [Weigh(r.status == Wait, r, wt)]);
    SumOne(Weigh(r.status == Wait, r, wt));
  }

  lemma UpdateCost(rows: seq<Row>, k: nat, r: Row, wt: Burden)
    requires k < |rows|
    ensures Sum(RowCosts(rows[k := r], wt)) + Weigh(rows[k].status == Wait, rows[k], wt) ==
      Sum(RowCosts(rows, wt)) + Weigh(r.status == Wait, r, wt)
  {
    hide Sum;
    SumChange(RowCosts(rows, wt), RowCosts(rows[k := r], wt), k);
  }

  lemma TakeCost(b: Store, written: bool, wt: Burden)
    requires Mail(b) && b.head < |b.sent|
    ensures StoreCost(Take(b, written), wt) <= StoreCost(b, wt)
  {
    hide Sum, RowCosts, QueueCosts, EventCosts;
    var m := b.sent[b.head];
    DropCost(b.sent, b.head, wt);
    if written && m.id == 0 { InsertCost(b.rows, m.row, wt); }
    if written && m.id != 0 { UpdateCost(b.rows, m.id - 1, Overlay(b.rows[m.id - 1], m.row), wt); }
  }

  lemma PostCost(b: Store, ms: seq<Message>, wt: Burden)
    requires b.head <= |b.sent|
    ensures StoreCost(Post(b, ms), wt) == StoreCost(b, wt) + Sum(QueueCosts(ms, 0, wt))
  {
    hide Sum, RowCosts, EventCosts;
    assert QueueCosts(b.sent + ms, b.head, wt) == QueueCosts(b.sent, b.head, wt) + QueueCosts(ms, 0, wt);
    SumAppend(QueueCosts(b.sent, b.head, wt), QueueCosts(ms, 0, wt));
  }

  lemma PostOneCost(b: Store, m: Message, wt: Burden)
    requires b.head <= |b.sent|
    ensures StoreCost(Post(b, [m]), wt) == StoreCost(b, wt) + Weigh(m.row.status == Wait, m.row, wt)
  {
    hide StoreCost;
    PostCost(b, [m], wt);
    assert QueueCosts([m], 0, wt) == [Weigh(m.row.status == Wait, m.row, wt)];
    SumOne(Weigh(m.row.status == Wait, m.row, wt));
  }

  // ---- events ----

  lemma RecordCost(b: Store, e: Notice, wt: Burden)
    requires |b.events| !in b.called
    ensures StoreCost(Record(b, e), wt) == StoreCost(b, wt) + Call(e, wt)
  {
    hide Sum, RowCosts, QueueCosts;
    assert EventCosts(b.events + [e], b.called, wt) == EventCosts(b.events, b.called, wt) + [Call(e, wt)];
    SumAppend(EventCosts(b.events, b.called, wt), [Call(e, wt)]);
    SumOne(Call(e, wt));
  }

  lemma CallCost(b: Store, event: nat, wt: Burden)
    requires event < |b.events| && event !in b.called
    ensures StoreCost(b.(called := b.called + {event}), wt) + Call(b.events[event], wt) == StoreCost(b, wt)
  {
    hide Sum, RowCosts, QueueCosts;
    SumChange(EventCosts(b.events, b.called, wt), EventCosts(b.events, b.called + {event}, wt), event);
  }

  lemma WokenCost(b: Store, event: nat, row: nat, wt: Burden)
    requires b.head <= |b.sent| && event < |b.events| && event !in b.called && row < |b.rows|
    requires b.events[event].parks == b.rows[row].task && b.rows[row].task != End && b.events[event].inst == b.rows[row].inst
    ensures StoreCost(Wake(b, event, Some(row)), wt) == StoreCost(b, wt)
  {
    hide StoreCost;
    CallCost(b, event, wt);
    PostOneCost(b.(called := b.called + {event}), Message(row + 1, b.rows[row].(status := Wait)), wt);
  }

  lemma WakeCost(b: Store, event: nat, wid: string, found: Option<nat>, wt: Burden)
    requires Calls(b) && b.head <= |b.sent| && event < |b.events| && event !in b.called
    requires found.Some? ==> found.value < |b.rows| && Wakes(b.rows[found.value], b.events[event], wid)
    ensures StoreCost(Wake(b, event, found), wt) <= StoreCost(b, wt)
  {
    hide StoreCost;
    if found.Some? {
      WakeFinds(b, event, wid, found.value);
      WokenCost(b, event, found.value, wt);
    } else {
      CallCost(b, event, wt);
    }
  }

  // ---- rows ----

  lemma MarkCost(b: Store, row: nat, status: Status, wt: Burden)
    requires row < |b.rows| && status != Wait
    ensures StoreCost(Mark(b, row, status), wt) + Weigh(b.rows[row].status == Wait, b.rows[row], wt) == StoreCost(b, wt)
  {
    hide Sum, RowCosts, QueueCosts, EventCosts;
    UpdateCost(b.rows, row, b.rows[row].(status := status), wt);
  }

  lemma {:induction false} SumLess(a: seq<nat>, b: seq<nat>)
    requires |a| == |b| && forall k :: 0 <= k < |a| ==> a[k] <= b[k]
    ensures Sum(a) <= Sum(b)
  {
    if a != [] { SumLess(a[1..], b[1..]); }
  }

  lemma ForgetCost(b: Store, gone: Option<string>, wt: Burden)
    ensures StoreCost(Forget(b, gone), wt) <= StoreCost(b, wt)
  {
    hide Sum;
    SumLess(RowCosts(Forget(b, gone).rows, wt), RowCosts(b.rows, wt));
  }

  // ---- attempts ----

  function SpawnCosts(ns: seq<Node>, x: Weighing): (c: seq<nat>)
    ensures |c| == |ns|
  {
    seq<nat>(|ns|, k requires 0 <= k < |ns| => x(ns[k]))
  }

  lemma {:induction false} TargetsLoad(order: seq<Relation>, x: Weighing)
    ensures Sum(SpawnCosts(Targets(order), x)) <= Load(order, x)
  {
    if order != [] {
      TargetsLoad(order[1..], x);
      if order[0].to == End {
        assert Targets(order) == Targets(order[1..]);
      } else {
        assert Targets(order)[1..] == Targets(order[1..]);
        assert SpawnCosts(Targets(order), x)[1..] == SpawnCosts(Targets(order[1..]), x);
      }
    }
  }

  lemma {:induction false} ScanLoad(order: seq<Relation>, jq: Oracle, input: string, fallback: Option<Node>, x: Weighing)
    ensures var c := ScanSwitch(order, jq, input, fallback);
      c.Chosen? && c.to != End ==> fallback == Some(c.to) || x(c.to) <= Load(order, x)
  {
    if order != [] {
      ScanLoad(order[1..], jq, input, if order[0].condition == "" then Some(order[0].to) else fallback, x);
    }
  }

  lemma SwitchLoad(order: seq<Relation>, jq: Oracle, input: string, x: Weighing)
    ensures var g := SwitchPlan(order, jq, input).goal;
      !g.Park? && (g.Advance? ==> Sum(SpawnCosts(g.successors, x)) <= Load(order, x))
  {
    ScanLoad(order, jq, input, None, x);
    var c := ScanSwitch(order, jq, input, None);
    if c.Chosen? { assert SpawnCosts([c.to], x) == [x(c.to)]; }
  }

  /** A plan leads to no more than its relations weigh. */
  lemma PlanLoad(jq: Oracle, job: Job, x: Weighing)
    ensures var g := PlanOf(jq, job).goal;
      (g.Park? ==> g.successor != End && x(g.successor) <= Load(job.order, x)) &&
      (g.Advance? ==> Sum(SpawnCosts(g.successors, x)) <= Load(job.order, x))
  {
    if job.kind.Switch? { SwitchLoad(job.order, jq, job.row.input, x); }
    else { TargetsLoad(job.order, x); }
  }

  lemma AnnounceCost(b: Store, r: Row, work: Work, next: nat, wt: Burden)
    requires |b.events| !in b.called
    ensures StoreCost(Announce(b, r, work, next), wt) == StoreCost(b, wt)
  {
    hide StoreCost;
    if work.Publish? { RecordCost(b, Notice(r.inst, if work.own then r.tiid else next, End), wt); }
  }

  lemma SpawnCost(b: Store, r: Row, ns: seq<Node>, output: string, next: nat, wt: Burden)
    requires b.head <= |b.sent|
    ensures StoreCost(Post(b, Spawn(r, ns, output, next)), wt) == StoreCost(b, wt) + Sum(SpawnCosts(ns, wt(r.inst)))
  {
    hide StoreCost;
    PostCost(b, Spawn(r, ns, output, next), wt);
    assert QueueCosts(Spawn(r, ns, output, next), 0, wt) == SpawnCosts(ns, wt(r.inst));
  }

  lemma AchievedCost(jq: Oracle, w: World, output: string, wt: Burden)
    requires w.sched.Working? && CanSucceed(PlanOf(jq, w.sched.job), w.sched.parked)
    requires w.store.head <= |w.store.sent| && |w.store.events| !in w.store.called
    ensures Potential(Achieved(w, PlanOf(jq, w.sched.job), output), wt) <= Potential(w, wt)
  {
    hide StoreCost, Load, SpawnCosts, Sum;
    var p, r := PlanOf(jq, w.sched.job), w.sched.job.row;
    PlanLoad(jq, w.sched.job, wt(r.inst));
    AnnounceCost(w.store, r, p.work, w.next, wt);
    match p.goal
    case Park(n) => if p.work.Publish? { RecordCost(w.store, Notice(r.inst, w.sched.parked.value, n), wt); }
    case Advance(ns) => SpawnCost(Announce(w.store, r, p.work, w.next), r, ns, output, w.next, wt);
    case _ =>
  }

  lemma ParkedCost(w: World, n: Node, wt: Burden)
    requires w.sched.Working? && w.store.head <= |w.store.sent|
    ensures Potential(Parked(w, n), wt) == Potential(w, wt)
  {
    hide StoreCost;
    var r := w.sched.job.row;
    PostOneCost(w.store, Message(0, Row(r.inst, r.wid, n, w.next, Sleep, r.input)), wt);
  }

  lemma FailingCost(w: World, p: Plan, published: bool, wt: Burden)
    requires w.sched.Working? && |w.store.events| !in w.store.called
    ensures Potential(Failing(w, p, published), wt) <= Potential(w, wt)
  {
    hide StoreCost;
    AnnounceCost(w.store, w.sched.job.row, p.work, w.next, wt);
  }

  lemma StartedCost(w: World, r: Relation, input: string, wt: Burden)
    requires w.store.head <= |w.store.sent|
    ensures Potential(Started(w, r, input), wt) == Potential(w, wt) + wt(w.next)(r.to)
  {
    hide StoreCost;
    PostOneCost(w.store, Message(0, Row(w.next, r.wid, r.to, w.next + 1, Wait, input)), wt);
  }

  lemma {:induction false} ZeroSum(s: seq<nat>)
    requires forall k :: 0 <= k < |s| ==> s[k] == 0
    ensures Sum(s) == 0
  {
    if s != [] { ZeroSum(s[1..]); }
  }
}
