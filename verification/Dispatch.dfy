/** Which executor serves a task and what it asks for, said without the executors' own tests: what a
    task does depends on its type text, and whether it goes on depends on its action. */
module Dispatch {
  import opened Model
  import opened Executors
  import opened Protocol
  import opened Invariants
  import opened Origins
  import opened Paths
  import opened Joins
  import opened Swf
  import opened Compiler
  import opened Meaning

  // ---- by the stored type ----

  /** Only operations, events and listens park a successor. */
  lemma OnlyEventsPark(kind: TaskType, action: Option<Action>, order: seq<Relation>, jq: Oracle, input: string)
    ensures kind !in {Operation, Event, Listen} ==> !Decide(kind, action, order, jq, input).goal.Park?
    ensures var goal := Decide(kind, action, order, jq, input).goal;
      goal.Park? ==> order != [] && goal == Park(order[0].to) && order[0].to != End
  {
  }

  /** Along one relation to another task, a local task queues it at once, and an operation, an event
      or a listen parks it; along one relation to END both complete the instance. */
  lemma OneWay(kind: TaskType, action: Option<Action>, e: Relation, jq: Oracle, input: string)
    requires kind != Switch
    ensures Decide(kind, action, [e], jq, input).goal ==
      if e.to == End then Complete
      else if kind in {Operation, Event, Listen} then Park(e.to)
      else Advance([e.to])
    ensures Decide(kind, action, [e], jq, input).work.Doomed? <==> kind == Raise
  {
    assert Targets([e]) == if e.to == End then [] else [e.to];
  }

  /** Without a relation an event, a listen or a switch does nothing, and any other task completes the instance. */
  lemma NoWay(kind: TaskType, action: Option<Action>, jq: Oracle, input: string)
    ensures Decide(kind, action, [], jq, input).goal == if kind in {Event, Listen, Switch} then Nothing else Complete
  {
  }

  // ---- by the action ----

  /** The text is this lower-case word, in letters of either case. */
  predicate Spells(text: string, word: string) {
    |text| == |word| &&
    forall k :: 0 <= k < |text| ==> text[k] == word[k] || ('A' <= text[k] <= 'Z' && text[k] as int + 32 == word[k] as int)
  }

  predicate LocalWord(word: string) {
    word in {"set", "do", "fork", "for", "try", "wait", "raise", "run", "emit"}
  }

  lemma {:induction false} LowerAt(s: string, k: nat)
    requires k < |s|
    ensures Lower(s)[k] == LowerChar(s[k])
  {
    if k > 0 { LowerAt(s[1..], k - 1); }
  }

  /** Words of small letters are spelled by exactly the texts that lower to them. */
  lemma LowerIsSpelled(text: string, word: string)
    requires forall k :: 0 <= k < |word| ==> 'a' <= word[k] <= 'z'
    ensures Lower(text) == word <==> Spells(text, word)
  {
    forall k: nat | k < |text| ensures Lower(text)[k] == LowerChar(text[k]) { LowerAt(text, k); }
    if Spells(text, word) { assert forall k :: 0 <= k < |word| ==> Lower(text)[k] == word[k]; }
  }

  lemma LocalWordsAreSmall(word: string)
    requires LocalWord(word)
    ensures forall k :: 0 <= k < |word| ==> 'a' <= word[k] <= 'z'
  {
  }

  /** isLocalRuntimeTask holds of the names of local tasks in any case. */
  lemma LocalNameIff(text: string)
    ensures IsLocalName(text) <==> exists word :: LocalWord(word) && Spells(text, word)
  {
    assert IsLocalName(text) <==> LocalWord(Lower(text));
    if IsLocalName(text) {
      LocalWordsAreSmall(Lower(text));
      LowerIsSpelled(text, Lower(text));
    }
    forall word | LocalWord(word) && Spells(text, word) ensures IsLocalName(text) {
      LocalWordsAreSmall(word);
      LowerIsSpelled(text, word);
    }
  }

  /** An operation of this action sends an event: it has a name, it is neither a local task nor a call to an agent. */
  ghost predicate Sendable(a: ActionRow) {
    a.name != "" && !(exists word :: LocalWord(word) && Spells(a.kind, word)) &&
    a.kind != "a2a" && a.kind != "agent" && !("a2a" <= a.name)
  }

  /** The work of an operation whose first action is a. */
  lemma OperationSends(a: Action)
    ensures ActionWork(Some(a)).Publish? <==> Sendable(a)
    ensures !Sendable(a) ==> ActionWork(Some(a)) in {Nop, Call}
    ensures ActionWork(Some(a)).Publish? ==> !ActionWork(Some(a)).own
  {
    LocalNameIff(a.kind);
    hide IsLocalName, Spells;
    if |a.name| >= 3 { assert a.name[..3] == "a2a" <==> "a2a" <= a.name; }
  }

  /** The action is a named call to an agent, by its type or by its name. */
  ghost predicate ForAgent(a: ActionRow) {
    a.name != "" && !(exists word :: LocalWord(word) && Spells(a.kind, word)) &&
    (a.kind == "a2a" || a.kind == "agent" || "a2a" <= a.name)
  }

  lemma AgentsAreCalled(a: Action)
    ensures ActionWork(Some(a)).Call? <==> ForAgent(a)
  {
    LocalNameIff(a.kind);
    hide IsLocalName, Spells;
    if |a.name| >= 3 { assert a.name[..3] == "a2a" <==> "a2a" <= a.name; }
  }

  /** Run and emit send an event that names the running instance itself, if they have an action with a name. */
  lemma LocalSends(kind: TaskType, action: Option<Action>, order: seq<Relation>, jq: Oracle, input: string)
    requires kind !in {Operation, Event, Listen}
    ensures Decide(kind, action, order, jq, input).work.Publish? <==> kind in {Run, Emit} && action.Some? && action.value.name != ""
    ensures Decide(kind, action, order, jq, input).work.Publish? ==> Decide(kind, action, order, jq, input).work.own
  {
  }

  // ---- compiled tasks ----

  /** The successors of a task of this type text wait for a callback; an unknown type is an operation. */
  predicate AwaitsCallback(kind: string) {
    kind !in {"switch", "set", "do", "fork", "for", "try", "wait", "raise", "run", "emit"}
  }

  lemma AwaitsIff(kind: string)
    ensures AwaitsCallback(kind) <==> Normalize(kind) in {Operation, Event, Listen}
  {
  }

  lemma PlanCarries(kind: string, a: Action, order: seq<Relation>, jq: Oracle, input: string, n: Node)
    ensures var p := Decide(Normalize(kind), Some(a), order, jq, input);
      Carries(p, n) <==> Leads(p, n) && (n == End || !AwaitsCallback(kind) || Sendable(a))
  {
    AwaitsIff(kind);
    OnlyEventsPark(Normalize(kind), Some(a), order, jq, input);
    OperationSends(a);
    hide Normalize, AwaitsCallback, Sendable, ActionWork;
    var p := Decide(Normalize(kind), Some(a), order, jq, input);
    if AwaitsCallback(kind) && p.goal.Park? { assert p.work == ActionWork(Some(a)); }
    if AwaitsCallback(kind) && !p.goal.Park? { assert p.goal.Complete? || p.goal.Nothing?; }
  }

  /** What a token needs to go on from the task to n. */
  ghost predicate GoesOn(d: Definition, n: Node) {
    n == End || !AwaitsCallback(d.kind) || exists a :: a in ActionsOf(d) && Sendable(a)
  }

  /** A claim of a stored task reads its own type, one of its actions and its own relations. */
  lemma ReadsOwn(t: Tables, wf: Flow, base: nat, k: nat, task: nat, action: Option<Action>, order: seq<Relation>)
    requires Named(wf) && Derived(t, wf, base) && k < |Defs(wf)| && Reads(t, wf.id, Task(base + k), task, action, order)
    ensures t.tasks[task].kind == Normalize(Defs(wf)[k].kind) && action.Some? && action.value in ActionsOf(Defs(wf)[k])
    ensures Reordered(order, RelationsOf(wf.id, Defs(wf)[k], FlowIds(wf, base)))
  {
    ReadTask(t, wf, base, k, task);
    ReadRelations(t, wf, base, k, order);
  }

  /** Where a stored task can really send a token: where the source task can move, if the move ends the
      instance, or the task needs no callback, or one of its actions sends the event that brings it. */
  lemma MoveIsCarriedIff(t: Tables, wf: Flow, base: nat, k: nat, jq: Oracle, input: string, n: Node)
    requires Named(wf) && Derived(t, wf, base) && k < |Defs(wf)| && !Shadowed(Defs(wf)[k])
    ensures Hop(jq, t, wf.id, Visit(Task(base + k), input), n) <==>
      MovesTo(wf, Defs(wf)[k], FlowIds(wf, base), jq, input, n) && GoesOn(Defs(wf)[k], n)
  {
    var d, ids, v := Defs(wf)[k], FlowIds(wf, base), Visit(Task(base + k), input);
    NamesAreIds(wf, base, k);
    hide Named, Derived, Flatten, Decide, Leads, Reads, MovesTo, ActionsOf, RelationsOf, Shadowed, Normalize, NamesAre, AwaitsCallback, Carries;
    if Hop(jq, t, wf.id, v, n) {
      var task: nat, action, order :| Reads(t, wf.id, v.task, task, action, order) &&
        Carries(Decide(t.tasks[task].kind, action, order, jq, input), n);
      ReadsOwn(t, wf, base, k, task, action, order);
      PlanCarries(d.kind, action.value, order, jq, input, n);
      assert Allows(wf, d, ids, action, jq, input, n);
      TaskAgrees(wf, d, ids, action, jq, input, n);
    }
    if MovesTo(wf, d, ids, jq, input, n) && GoesOn(d, n) {
      var action := if a :| a in ActionsOf(d) && Sendable(a) then a else ActionsOf(d)[0];
      TaskAgrees(wf, d, ids, Some(action), jq, input, n);
      var order :| Reordered(order, RelationsOf(wf.id, d, ids)) && Leads(Decide(Normalize(d.kind), Some(action), order, jq, input), n);
      PlanCarries(d.kind, action, order, jq, input, n);
      var task := ReadsFlow(t, wf, base, k, action, order);
      HopsBy(jq, t, wf.id, v, task, Some(action), order, n);
    }
  }

  // ---- stored operations ----

  ghost predicate AllSendable(d: Definition) {
    forall a :: a in ActionsOf(d) ==> Sendable(a)
  }

  lemma OperationPlanned(kind: string, a: Action, e: Relation, jq: Oracle, input: string)
    requires AwaitsCallback(kind) && Sendable(a)
    ensures Decide(Normalize(kind), Some(a), [e], jq, input) == Plan(Publish(false), if e.to == End then Complete else Park(e.to))
  {
    AwaitsIff(kind);
    OperationSends(a);
    hide Normalize, AwaitsCallback, Sendable, ActionWork;
  }

  /** A task of such a type has one relation. */
  lemma OneEdge(wid: string, d: Definition, ids: Ids, order: seq<Relation>)
    requires AwaitsCallback(d.kind) && d.name in ids && Reordered(order, RelationsOf(wid, d, ids))
    ensures order == [Edge(wid, Task(ids[d.name]), ResolveNext(d, ids), "")]
  {
    hide ResolveNext;
    OneRelation(order, Edge(wid, Task(ids[d.name]), ResolveNext(d, ids), ""));
  }

  /** Whatever snapshot a claim reads, such an operation parks its successor, or is the last, and sends its event. */
  lemma StoredOperationPlan(t: Tables, wf: Flow, base: nat, k: nat, task: nat, action: Option<Action>, order: seq<Relation>,
    jq: Oracle, input: string)
    requires Named(wf) && Derived(t, wf, base) && k < |Defs(wf)| && Reads(t, wf.id, Task(base + k), task, action, order)
    requires AwaitsCallback(Defs(wf)[k].kind) && AllSendable(Defs(wf)[k])
    ensures var to := ResolveNext(Defs(wf)[k], FlowIds(wf, base));
      Decide(t.tasks[task].kind, action, order, jq, input) == Plan(Publish(false), if to == End then Complete else Park(to))
  {
    hide Normalize, Sendable, Named, Derived, Reads, ResolveNext, FlowIds, Decide, AwaitsCallback, RelationsOf, Flatten, ActionsOf, NamesAre;
    var d, ids := Defs(wf)[k], FlowIds(wf, base);
    ReadsOwn(t, wf, base, k, task, action, order);
    NamesAreIds(wf, base, k);
    OneEdge(wf.id, d, ids, order);
    OperationPlanned(d.kind, action.value, order[0], jq, input);
  }

  /** The event of an attempt: it names the parked successor, or a fresh id when there is none. */
  function EventOf(w: World, to: Node): Notice
    requires w.sched.Working?
  {
    Notice(w.sched.job.row.inst, if w.sched.parked.Some? then w.sched.parked.value else w.next, to)
  }

  lemma SuccessSends(jq: Oracle, w: World, output: string, to: Node)
    requires w.sched.Working? && Enabled(jq, w, AttemptSucceeds(output))
    requires PlanOf(jq, w.sched.job) == Plan(Publish(false), if to == End then Complete else Park(to))
    requires to == End ==> w.sched.parked.None?
    ensures Next(jq, w, AttemptSucceeds(output)).store.events == w.store.events + [EventOf(w, to)]
    ensures to != End ==> w.sched.parked.Some?
  {
    hide Decide;
  }

  /** So when an attempt of it succeeds, exactly one event is sent, and it names the parked successor. */
  lemma StoredOperationSends(t: Tables, wf: Flow, base: nat, k: nat, jq: Oracle, w: World, output: string)
    requires Named(wf) && Derived(t, wf, base) && k < |Defs(wf)| && AwaitsCallback(Defs(wf)[k].kind) && AllSendable(Defs(wf)[k])
    requires Inv(jq, w) && w.sched.Working? && Snapshot(t, wf.id, w.sched.job, Visit(Task(base + k), w.sched.job.row.input))
    requires Enabled(jq, w, AttemptSucceeds(output))
    ensures var to := ResolveNext(Defs(wf)[k], FlowIds(wf, base));
      Next(jq, w, AttemptSucceeds(output)).store.events == w.store.events + [EventOf(w, to)] && (to != End ==> w.sched.parked.Some?)
  {
    var job := w.sched.job;
    var task: nat :| Reads(t, wf.id, Task(base + k), task, job.action, job.order) && job.kind == t.tasks[task].kind;
    StoredOperationPlan(t, wf, base, k, task, job.action, job.order, jq, job.row.input);
    hide Decide, Named, Derived, Reads, ResolveNext, AllSendable, Next, Enabled, AwaitsCallback, FlowIds, Flatten;
    var to := ResolveNext(Defs(wf)[k], FlowIds(wf, base));
    assert PlanOf(jq, job) == Plan(Publish(false), if to == End then Complete else Park(to));
    if to == End { ParkedPlans(jq, w); }
    SuccessSends(jq, w, output, to);
  }

  lemma ParkedPlans(jq: Oracle, w: World)
    requires Inv(jq, w) && w.sched.Working? && !PlanOf(jq, w.sched.job).goal.Park?
    ensures w.sched.parked.None?
  {
  }
}
