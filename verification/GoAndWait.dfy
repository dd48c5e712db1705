/** internal/util/flow_util.go: handlers in parallel, the first error, and waiting for all. */
module GoAndWait {
  import opened Model

  /** What a handler does: it returns an error or nil, or it panics. */
  datatype Ending = Nil | Error(message: string) | Panic

  /** A handler's goroutine; Failing has an error in hand and not yet entered `once`. */
  datatype Goroutine = Unborn | Busy | Failing | Leaving | Finished

  /** `count` is the wait group, `entered` the history of the handlers that called once.Do. */
  datatype State = State(gs: seq<Goroutine>, launched: nat, count: int, once: bool, err: Option<string>, entered: seq<nat>, returned: bool)

  datatype Step = Launch | Ends(i: nat) | EnterOnce(i: nat) | Done(i: nat) | Return

  function Begin(n: nat): State {
    State(seq(n, k => Unborn), 0, 0, false, None, [], false)
  }

  predicate Can(handlers: seq<Ending>, s: State, t: Step) {
    |s.gs| == |handlers| && !s.returned &&
    match t
    case Launch => s.launched < |handlers|
    case Ends(i) => i < |handlers| && s.gs[i] == Busy
    case EnterOnce(i) => i < |handlers| && s.gs[i] == Failing
    case Done(i) => i < |handlers| && s.gs[i] == Leaving
    case Return => s.launched == |handlers| && s.count == 0
  }

  function Do(handlers: seq<Ending>, s: State, t: Step): State
    requires Can(handlers, s, t)
  {
    match t
    case Launch => s.(gs := s.gs[s.launched := Busy], launched := s.launched + 1, count := s.count + 1)
    case Ends(i) => s.(gs := s.gs[i := if handlers[i].Error? then Failing else Leaving])
    case EnterOnce(i) =>
      s.(gs := s.gs[i := Leaving], once := true, entered := s.entered + [i],
         err := if s.once then s.err else if handlers[i].Error? then Some(handlers[i].message) else None)
    case Done(i) => s.(gs := s.gs[i := Finished], count := s.count - 1)
    case Return => s.(returned := true)
  }

  /** What the goroutine still owes the wait group. */
  function Owes(g: Goroutine): nat {
    if g in {Busy, Failing, Leaving} then 1 else 0
  }

  function Live(gs: seq<Goroutine>): nat {
    if gs == [] then 0 else Owes(gs[0]) + Live(gs[1..])
  }

  lemma {:induction false} LiveChange(gs: seq<Goroutine>, i: nat, g: Goroutine)
    requires i < |gs|
    ensures Live(gs[i := g]) == Live(gs) + Owes(g) - Owes(gs[i])
  {
    if i == 0 { assert gs[0 := g][1..] == gs[1..]; }
    else {
      assert gs[i := g][1..] == gs[1..][i - 1 := g];
      LiveChange(gs[1..], i - 1, g);
    }
  }

  lemma {:induction false} NoneLive(gs: seq<Goroutine>)
    requires Live(gs) == 0
    ensures forall k :: 0 <= k < |gs| ==> gs[k] in {Unborn, Finished}
  {
    if gs != [] {
      NoneLive(gs[1..]);
      match gs[0] { case Unborn => case Finished => case _ => }
      assert forall k :: 0 < k < |gs| ==> gs[k] == gs[1..][k - 1];
    }
  }

  function FirstError(handlers: seq<Ending>, entered: seq<nat>): Option<string> {
    if entered != [] && entered[0] < |handlers| && handlers[entered[0]].Error? then Some(handlers[entered[0]].message) else None
  }

  predicate Counted(handlers: seq<Ending>, s: State) {
    |s.gs| == |handlers| && s.launched <= |handlers| && s.count == Live(s.gs) &&
    (forall k :: 0 <= k < |s.gs| ==> (s.gs[k] == Unborn <==> k >= s.launched)) &&
    (s.returned ==> s.launched == |handlers| && s.count == 0)
  }

  /** The handlers that entered `once` are those that returned an error and are past it. */
  predicate Listed(handlers: seq<Ending>, s: State) {
    |s.gs| == |handlers| &&
    (forall i :: i in s.entered ==> i < |handlers| && handlers[i].Error? && s.gs[i] in {Leaving, Finished}) &&
    (forall k :: 0 <= k < |s.gs| && handlers[k].Error? && s.gs[k] in {Leaving, Finished} ==> k in s.entered) &&
    (forall k :: 0 <= k < |s.gs| && s.gs[k] == Failing ==> handlers[k].Error?) &&
    (s.once <==> s.entered != []) && s.err == FirstError(handlers, s.entered)
  }

  predicate Inv(handlers: seq<Ending>, s: State) {
    Counted(handlers, s) && Listed(handlers, s)
  }

  lemma StepKeepsCounted(handlers: seq<Ending>, s: State, t: Step)
    requires Counted(handlers, s) && Can(handlers, s, t)
    ensures Counted(handlers, Do(handlers, s, t))
  {
    match t
    case Launch => LiveChange(s.gs, s.launched, Busy);
    case Ends(i) => LiveChange(s.gs, i, if handlers[i].Error? then Failing else Leaving);
    case EnterOnce(i) => LiveChange(s.gs, i, Leaving);
    case Done(i) => LiveChange(s.gs, i, Finished);
    case Return =>
  }

  lemma StepKeepsListed(handlers: seq<Ending>, s: State, t: Step)
    requires Counted(handlers, s) && Listed(handlers, s) && Can(handlers, s, t)
    ensures Listed(handlers, Do(handlers, s, t))
  {
  }

  lemma StepKeepsInv(handlers: seq<Ending>, s: State, t: Step)
    requires Inv(handlers, s) && Can(handlers, s, t)
    ensures Inv(handlers, Do(handlers, s, t))
  {
    StepKeepsCounted(handlers, s, t);
    StepKeepsListed(handlers, s, t);
  }

  ghost predicate Runs(handlers: seq<Ending>, s: State, steps: seq<Step>, s': State)
    decreases |steps|
  {
    if steps == [] then s' == s
    else Can(handlers, s, steps[0]) && Runs(handlers, Do(handlers, s, steps[0]), steps[1..], s')
  }

  lemma {:induction false} RunKeepsInv(handlers: seq<Ending>, s: State, steps: seq<Step>, s': State)
    requires Inv(handlers, s) && Runs(handlers, s, steps, s')
    ensures Inv(handlers, s')
    decreases |steps|
  {
    if steps != [] {
      StepKeepsInv(handlers, s, steps[0]);
      RunKeepsInv(handlers, Do(handlers, s, steps[0]), steps[1..], s');
    }
  }

  lemma {:induction false} UnbornIsNotLive(n: nat)
    ensures Live(seq(n, k => Unborn)) == 0
  {
    if n > 0 {
      assert seq(n, k => Unborn)[1..] == seq(n - 1, k => Unborn);
      UnbornIsNotLive(n - 1);
    }
  }

  lemma BeginInv(handlers: seq<Ending>)
    ensures Inv(handlers, Begin(|handlers|))
  {
    UnbornIsNotLive(|handlers|);
  }

  /** However the handlers interleave, on return all have finished; the error is nil exactly when no
      handler returned one, a panic counting as none; otherwise it is the error of the handler that
      was the first to enter `once`. */
  lemma WaitsAndKeepsTheFirst(handlers: seq<Ending>, steps: seq<Step>, s: State)
    requires Runs(handlers, Begin(|handlers|), steps, s) && s.returned
    ensures forall k :: 0 <= k < |s.gs| ==> s.gs[k] == Finished
    ensures s.err.None? <==> forall h :: h in handlers ==> !h.Error?
    ensures s.err.Some? ==> s.entered != [] && s.entered[0] < |handlers| && handlers[s.entered[0]] == Error(s.err.value)
  {
    BeginInv(handlers);
    RunKeepsInv(handlers, Begin(|handlers|), steps, s);
    NoneLive(s.gs);
    if h :| h in handlers && h.Error? {
      var k :| 0 <= k < |handlers| && handlers[k] == h;
      assert s.gs[k] == Finished && k in s.entered;
    }
  }

  lemma {:induction false} SomeLive(gs: seq<Goroutine>) returns (k: nat)
    requires Live(gs) > 0
    ensures k < |gs| && gs[k] in {Busy, Failing, Leaving}
  {
    if gs[0] in {Busy, Failing, Leaving} { k := 0; } else { k := SomeLive(gs[1..]); k := k + 1; }
  }

  /** It never gets stuck: until it returns, some goroutine or the waiter can go on. */
  lemma NeverStuck(handlers: seq<Ending>, steps: seq<Step>, s: State) returns (t: Step)
    requires Runs(handlers, Begin(|handlers|), steps, s) && !s.returned
    ensures Can(handlers, s, t)
  {
    BeginInv(handlers);
    RunKeepsInv(handlers, Begin(|handlers|), steps, s);
    if s.launched < |handlers| { return Launch; }
    if s.count == 0 { return Return; }
    var k := SomeLive(s.gs);
    t := match s.gs[k] case Busy => Ends(k) case Failing => EnterOnce(k) case _ => Done(k);
  }

  // ---- it returns ----

  /** The steps a goroutine still has to take at most. */
  function Steps(g: Goroutine): nat {
    match g case Unborn => 4 case Busy => 3 case Failing => 2 case Leaving => 1 case Finished => 0
  }

  function AllSteps(gs: seq<Goroutine>): nat {
    if gs == [] then 0 else Steps(gs[0]) + AllSteps(gs[1..])
  }

  lemma {:induction false} StepsChange(gs: seq<Goroutine>, i: nat, g: Goroutine)
    requires i < |gs|
    ensures AllSteps(gs[i := g]) == AllSteps(gs) + Steps(g) - Steps(gs[i])
  {
    if i == 0 { assert gs[0 := g][1..] == gs[1..]; }
    else {
      assert gs[i := g][1..] == gs[1..][i - 1 := g];
      StepsChange(gs[1..], i - 1, g);
    }
  }

  lemma {:induction false} FourEach(n: nat)
    ensures AllSteps(seq(n, k => Unborn)) == 4 * n
  {
    if n > 0 {
      assert seq(n, k => Unborn)[1..] == seq(n - 1, k => Unborn);
      FourEach(n - 1);
    }
  }

  function ToGo(s: State): nat {
    AllSteps(s.gs) + if s.returned then 0 else 1
  }

  lemma StepNears(handlers: seq<Ending>, s: State, t: Step)
    requires Inv(handlers, s) && Can(handlers, s, t)
    ensures ToGo(Do(handlers, s, t)) < ToGo(s)
  {
    match t
    case Launch => StepsChange(s.gs, s.launched, Busy);
    case Ends(i) => StepsChange(s.gs, i, if handlers[i].Error? then Failing else Leaving);
    case EnterOnce(i) => StepsChange(s.gs, i, Leaving);
    case Done(i) => StepsChange(s.gs, i, Finished);
    case Return =>
  }

  lemma {:induction false} RunNears(handlers: seq<Ending>, s: State, steps: seq<Step>, s': State)
    requires Inv(handlers, s) && Runs(handlers, s, steps, s')
    ensures |steps| + ToGo(s') <= ToGo(s)
    decreases |steps|
  {
    if steps != [] {
      StepNears(handlers, s, steps[0]);
      StepKeepsInv(handlers, s, steps[0]);
      RunNears(handlers, Do(handlers, s, steps[0]), steps[1..], s');
    }
  }

  /** Every run is at most four steps for each handler and one more long, and one that can not go on has
      returned: so the call returns under every schedule. */
  lemma AlwaysReturns(handlers: seq<Ending>, steps: seq<Step>, s: State)
    requires Runs(handlers, Begin(|handlers|), steps, s)
    ensures |steps| <= 4 * |handlers| + 1
    ensures s.returned <==> forall t :: !Can(handlers, s, t)
  {
    BeginInv(handlers);
    FourEach(|handlers|);
    RunNears(handlers, Begin(|handlers|), steps, s);
    if !s.returned { var t := NeverStuck(handlers, steps, s); }
  }
}
