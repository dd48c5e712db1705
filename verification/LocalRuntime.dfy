/** internal/task/local_runtime.go: the tasks the engine evaluates itself. */
module LocalRuntime {
  import opened Model

  /** A decoded JSON value, as far as the executors look into it. */
  datatype Value = Null | Text(text: string) | Arr(items: seq<Value>) | Obj(fields: map<string, Value>)

  type Fields = map<string, Value>

  function AsMap(v: Value): Fields { if v.Obj? then v.fields else map[] }

  function AsSlice(v: Value): seq<Value> { if v.Arr? then v.items else [] }

  function Field(m: Fields, key: string): Value { if key in m then m[key] else Null }

  /** Evaluating a set expression on an input: decode, apply JQ, encode; any of them may fail. */
  type Evaluator = (string, Value) -> Result<string>

  /** The keys that tell a task's type, in the order in which they are looked for. */
  const TYPE_KEYS: seq<string> := ["call", "set", "wait", "raise", "run", "emit"]

  /** detectTaskType: the first of the keys that the definition has, and `call` when it has none. */
  function DetectTaskType(def: Fields): string {
    if "call" in def then "call"
    else if "set" in def then "set"
    else if "wait" in def then "wait"
    else if "raise" in def then "raise"
    else if "run" in def then "run"
    else if "emit" in def then "emit"
    else "call"
  }

  lemma FirstKeyDecides(def: Fields, k: nat)
    requires k < |TYPE_KEYS| && TYPE_KEYS[k] in def && forall j :: 0 <= j < k ==> TYPE_KEYS[j] !in def
    ensures DetectTaskType(def) == TYPE_KEYS[k]
  {
    if k > 0 { assert TYPE_KEYS[0] !in def; }
    if k > 1 { assert TYPE_KEYS[1] !in def; }
    if k > 2 { assert TYPE_KEYS[2] !in def; }
    if k > 3 { assert TYPE_KEYS[3] !in def; }
    if k > 4 { assert TYPE_KEYS[4] !in def; }
  }

  lemma NoKeyIsCall(def: Fields)
    requires forall k :: 0 <= k < |TYPE_KEYS| ==> TYPE_KEYS[k] !in def
    ensures DetectTaskType(def) == "call"
  {
    assert TYPE_KEYS[0] !in def && TYPE_KEYS[1] !in def && TYPE_KEYS[2] !in def;
    assert TYPE_KEYS[3] !in def && TYPE_KEYS[4] !in def && TYPE_KEYS[5] !in def;
  }

  /** executeSetFromDef, on the task's own input. */
  function SetFromDef(def: Fields, input: string, eval: Evaluator): (r: Result<string>)
    ensures "set" in def && def["set"].Obj? && def["set"].fields != map[] ==> r == eval(input, def["set"])
    ensures "set" !in def || !def["set"].Obj? || def["set"].fields == map[] ==> r == Ok(input)
  {
    var expr := AsMap(Field(def, "set"));
    if expr == map[] then Ok(input) else eval(input, Obj(expr))
  }

  // ---- do ----

  predicate Breaks(def: Fields, input: string, eval: Evaluator) {
    DetectTaskType(def) == "raise" || (DetectTaskType(def) == "set" && SetFromDef(def, input, eval).Err?)
  }

  /** The text an item's set leaves behind, if any. */
  function Leaves(def: Fields, input: string, eval: Evaluator): Option<string> {
    if DetectTaskType(def) != "set" then None
    else match SetFromDef(def, input, eval)
      case Ok(text) => if text == "" then None else Some(text)
      case Err(_) => None
  }

  /** The fold that executeDo computes over its item definitions in the order it visits them. */
  function DoFold(defs: seq<Fields>, input: string, current: string, eval: Evaluator): Result<string> {
    if defs == [] then Ok(current)
    else if DetectTaskType(defs[0]) == "raise" then Err("do task raised")
    else if DetectTaskType(defs[0]) == "set" then
      match SetFromDef(defs[0], input, eval)
      case Err(e) => Err(e)
      case Ok(text) => DoFold(defs[1..], input, if text == "" then current else text, eval)
    else DoFold(defs[1..], input, current, eval)
  }

  /** A do fails exactly when one of its items raises or is a set that fails on the task's input. */
  lemma {:induction false} DoFailsIff(defs: seq<Fields>, input: string, current: string, eval: Evaluator)
    ensures DoFold(defs, input, current, eval).Err? <==> exists d :: d in defs && Breaks(d, input, eval)
  {
    if defs != [] {
      assert forall d :: d in defs <==> d == defs[0] || d in defs[1..];
      if !Breaks(defs[0], input, eval) { DoFailsIff(defs[1..], input, Left(defs[0], input, current, eval), eval); }
    }
  }

  /** The current input after an item that does not break. */
  function Left(def: Fields, input: string, current: string, eval: Evaluator): string {
    if Leaves(def, input, eval).Some? then Leaves(def, input, eval).value else current
  }

  /** Otherwise it returns what the last set with a result left, evaluated on the task's own input
      and not on what the items before it left ... */
  lemma {:induction false} LastSetWins(defs: seq<Fields>, k: nat, input: string, current: string, eval: Evaluator)
    requires k < |defs| && Leaves(defs[k], input, eval).Some?
    requires forall d :: d in defs ==> !Breaks(d, input, eval)
    requires forall d :: d in defs[k + 1..] ==> Leaves(d, input, eval).None?
    ensures DoFold(defs, input, current, eval) == Ok(Leaves(defs[k], input, eval).value)
  {
    assert defs[0] in defs;
    var next := Left(defs[0], input, current, eval);
    if k == 0 { NoSetKeeps(defs[1..], input, next, eval); }
    else {
      assert defs[1..][k..] == defs[k + 1..];
      LastSetWins(defs[1..], k - 1, input, next, eval);
    }
  }

  /** ... or the input, when no set leaves anything. */
  lemma {:induction false} NoSetKeeps(defs: seq<Fields>, input: string, current: string, eval: Evaluator)
    requires forall d :: d in defs ==> !Breaks(d, input, eval) && Leaves(d, input, eval).None?
    ensures DoFold(defs, input, current, eval) == Ok(current)
  {
    if defs != [] {
      assert defs[0] in defs;
      NoSetKeeps(defs[1..], input, current, eval);
    }
  }

  /** Whether a do fails does not depend on the order in which its items are visited. */
  lemma DoFailsInAnyOrder(a: seq<Fields>, b: seq<Fields>, input: string, eval: Evaluator)
    requires Reordered(a, b)
    ensures DoFold(a, input, input, eval).Err? <==> DoFold(b, input, input, eval).Err?
  {
    ReorderedMembers(a, b);
    DoFailsIff(a, input, input, eval);
    DoFailsIff(b, input, input, eval);
  }

  /** The entries of each item in the given orders of its keys, one after the other. */
  function Expand(items: seq<Value>, orders: seq<seq<string>>): seq<Fields>
    requires |orders| == |items|
  {
    if items == [] then [] else Pick(AsMap(items[0]), orders[0]) + Expand(items[1..], orders[1..])
  }

  function Pick(m: Fields, keys: seq<string>): (r: seq<Fields>)
    ensures |r| == |keys| && forall k :: 0 <= k < |r| ==> r[k] == AsMap(Field(m, keys[k]))
  {
    seq(|keys|, k requires 0 <= k < |keys| => AsMap(Field(m, keys[k])))
  }

  /** A map is iterated in any order of its keys. */
  ghost predicate KeyOrder(m: Fields, keys: seq<string>) {
    multiset(keys) == multiset(m.Keys)
  }

  method AnyKeyOrder(m: Fields) returns (keys: seq<string>)
    ensures KeyOrder(m, keys)
  {
    keys := [];
    var rest := m.Keys;
    while rest != {}
      invariant multiset(keys) + multiset(rest) == multiset(m.Keys)
      decreases rest
    {
      var key :| key in rest;
      keys, rest := keys + [key], rest - {key};
    }
  }

  lemma {:induction false} FoldOn(a: seq<Fields>, b: seq<Fields>, input: string, current: string, eval: Evaluator)
    ensures DoFold(a + b, input, current, eval) ==
      match DoFold(a, input, current, eval) case Ok(c) => DoFold(b, input, c, eval) case Err(e) => Err(e)
  {
    if a == [] { assert a + b == b; }
    else {
      assert (a + b)[1..] == a[1..] + b;
      if !Breaks(a[0], input, eval) { FoldOn(a[1..], b, input, Left(a[0], input, current, eval), eval); }
    }
  }

  ghost predicate KeyOrders(items: seq<Value>, orders: seq<seq<string>>) {
    |orders| == |items| && forall k :: 0 <= k < |items| ==> KeyOrder(AsMap(items[k]), orders[k])
  }

  method AnyKeyOrders(items: seq<Value>) returns (orders: seq<seq<string>>)
    ensures KeyOrders(items, orders)
  {
    orders := [];
    for k := 0 to |items|
      invariant |orders| == k && forall j :: 0 <= j < k ==> KeyOrder(AsMap(items[j]), orders[j])
    {
      var keys := AnyKeyOrder(AsMap(items[k]));
      orders := orders + [keys];
    }
  }

  /** The inner loop of executeDo: the entries of one item. */
  method DoItem(m: Fields, keys: seq<string>, input: string, current: string, eval: Evaluator) returns (r: Result<string>)
    ensures r == DoFold(Pick(m, keys), input, current, eval)
  {
    var currentInput := current;
    for k := 0 to |keys|
      invariant DoFold(Pick(m, keys), input, current, eval) == DoFold(Pick(m, keys)[k..], input, currentInput, eval)
    {
      var def := AsMap(Field(m, keys[k]));
      assert Pick(m, keys)[k..][1..] == Pick(m, keys)[k + 1..];
      match DetectTaskType(def) {
        case "set" =>
          var result := SetFromDef(def, input, eval);
          if result.Err? { return result; }
          if result.value != "" { currentInput := result.value; }
        case "raise" => return Err("do task raised");
        case _ =>
      }
    }
    return Ok(currentInput);
  }

  /** A possible result of a do over these items: the fold in some order of each item's entries. */
  ghost predicate DoResult(items: seq<Value>, input: string, eval: Evaluator, r: Result<string>) {
    exists orders :: KeyOrders(items, orders) && r == DoFold(Expand(items, orders), input, input, eval)
  }

  /** executeDo is the fold over the entries of its items, whatever order each map is iterated in. */
  method ExecuteDo(definition: Fields, input: string, eval: Evaluator) returns (r: Result<string>)
    ensures DoResult(AsSlice(Field(definition, "do")), input, eval, r)
  {
    var items := AsSlice(Field(definition, "do"));
    var all := AnyKeyOrders(items);
    var currentInput := input;
    for k := 0 to |items|
      invariant DoFold(Expand(items, all), input, input, eval) == DoFold(Expand(items[k..], all[k..]), input, currentInput, eval)
    {
      var taskMap := AsMap(items[k]);
      FoldOn(Pick(taskMap, all[k]), Expand(items[k + 1..], all[k + 1..]), input, currentInput, eval);
      var done := DoItem(taskMap, all[k], input, currentInput, eval);
      if done.Err? { return done; }
      currentInput := done.value;
    }
    return Ok(currentInput);
  }

  lemma OneKey(m: Fields, key: string, keys: seq<string>)
    requires m.Keys == {key} && KeyOrder(m, keys)
    ensures keys == [key]
  {
    assert multiset(keys) == multiset{key};
    assert |keys| == |multiset(keys)| == 1;
    assert keys[0] in multiset(keys);
  }

  /** When each item has one entry, a do has one result. */
  lemma {:induction false} SingleEntriesAgree(items: seq<Value>, a: seq<seq<string>>, b: seq<seq<string>>)
    requires KeyOrders(items, a) && KeyOrders(items, b)
    requires forall k :: 0 <= k < |items| ==> |AsMap(items[k]).Keys| == 1
    ensures Expand(items, a) == Expand(items, b)
  {
    if items != [] {
      var m := AsMap(items[0]);
      var key :| key in m.Keys;
      assert m.Keys == {key} by { assert |m.Keys - {key}| == 0; }
      OneKey(m, key, a[0]);
      OneKey(m, key, b[0]);
      SingleEntriesAgree(items[1..], a[1..], b[1..]);
    }
  }

  /** So over single-entry items executeDo has exactly one result. */
  lemma SingleEntriesOneResult(items: seq<Value>, input: string, eval: Evaluator, r: Result<string>, s: Result<string>)
    requires forall k :: 0 <= k < |items| ==> |AsMap(items[k]).Keys| == 1
    requires DoResult(items, input, eval, r) && DoResult(items, input, eval, s)
    ensures r == s
  {
    var a :| KeyOrders(items, a) && r == DoFold(Expand(items, a), input, input, eval);
    var b :| KeyOrders(items, b) && s == DoFold(Expand(items, b), input, input, eval);
    SingleEntriesAgree(items, a, b);
  }

  // ---- try ----

  predicate Stops(def: Fields) {
    DetectTaskType(def) in {"set", "raise", "call"}
  }

  /** What the first entry that is a set, a raise or a call makes of a try; later entries do not matter. */
  function TryFold(defs: seq<Fields>, input: string, eval: Evaluator): Result<string> {
    if defs == [] then Ok(input)
    else match DetectTaskType(defs[0])
      case "set" => SetFromDef(defs[0], input, eval)
      case "raise" => Err("try task raised")
      case "call" => Ok(input)
      case _ => TryFold(defs[1..], input, eval)
  }

  /** The first entry that stops a try raises or is a set that fails. */
  predicate StopsBroken(defs: seq<Fields>, input: string, eval: Evaluator) {
    exists k :: 0 <= k < |defs| && Breaks(defs[k], input, eval) && forall j :: 0 <= j < k ==> !Stops(defs[j])
  }

  lemma StopsBrokenLater(defs: seq<Fields>, input: string, eval: Evaluator)
    requires defs != [] && !Stops(defs[0]) && !Breaks(defs[0], input, eval)
    ensures StopsBroken(defs, input, eval) <==> StopsBroken(defs[1..], input, eval)
  {
    hide Stops, Breaks;
    var rest := defs[1..];
    if k :| 0 <= k < |rest| && Breaks(rest[k], input, eval) && forall j :: 0 <= j < k ==> !Stops(rest[j]) {
      assert defs[k + 1] == rest[k] && forall j :: 0 < j <= k ==> defs[j] == rest[j - 1];
    }
    if k :| 0 <= k < |defs| && Breaks(defs[k], input, eval) && forall j :: 0 <= j < k ==> !Stops(defs[j]) {
      assert k > 0 && rest[k - 1] == defs[k] && forall j :: 0 <= j < k - 1 ==> rest[j] == defs[j + 1];
    }
  }

  /** A try fails exactly when the first entry that stops it raises or is a set that fails. */
  lemma {:induction false} TryFailsIff(defs: seq<Fields>, input: string, eval: Evaluator)
    ensures TryFold(defs, input, eval).Err? <==> StopsBroken(defs, input, eval)
  {
    if defs != [] {
      TryFailsIff(defs[1..], input, eval);
      assert Breaks(defs[0], input, eval) ==> Stops(defs[0]);
      if !Stops(defs[0]) { StopsBrokenLater(defs, input, eval); }
      else { assert StopsBroken(defs, input, eval) <==> Breaks(defs[0], input, eval); }
    }
  }

  method TryItem(m: Fields, keys: seq<string>, input: string, eval: Evaluator) returns (r: Option<Result<string>>)
    ensures forall rest :: TryFold(Pick(m, keys) + rest, input, eval) == if r.Some? then r.value else TryFold(rest, input, eval)
  {
    for k := 0 to |keys|
      invariant forall rest :: TryFold(Pick(m, keys) + rest, input, eval) == TryFold(Pick(m, keys)[k..] + rest, input, eval)
    {
      var def := AsMap(Field(m, keys[k]));
      assert forall rest: seq<Fields> :: (Pick(m, keys)[k..] + rest)[1..] == Pick(m, keys)[k + 1..] + rest;
      match DetectTaskType(def) {
        case "set" => return Some(SetFromDef(def, input, eval));
        case "raise" => return Some(Err("try task raised"));
        case "call" => return Some(Ok(input));
        case _ =>
      }
    }
    assert forall rest: seq<Fields> :: Pick(m, keys)[|keys|..] + rest == rest;
    return None;
  }

  ghost predicate TryResult(items: seq<Value>, input: string, eval: Evaluator, r: Result<string>) {
    exists orders :: KeyOrders(items, orders) && r == TryFold(Expand(items, orders), input, eval)
  }

  /** executeTry is decided by the first entry that stops it. */
  method ExecuteTry(definition: Fields, input: string, eval: Evaluator) returns (r: Result<string>)
    ensures TryResult(AsSlice(Field(definition, "try")), input, eval, r)
  {
    var items := AsSlice(Field(definition, "try"));
    var all := AnyKeyOrders(items);
    for k := 0 to |items|
      invariant TryFold(Expand(items, all), input, eval) == TryFold(Expand(items[k..], all[k..]), input, eval)
    {
      var decided := TryItem(AsMap(items[k]), all[k], input, eval);
      if decided.Some? { return decided.value; }
    }
    return Ok(input);
  }

  // ---- wait and the dispatch on the task type ----

  /** What the evaluator and the parser of durations are. */
  datatype Library = Library(eval: Evaluator, isDuration: string -> bool, show: Value -> string)

  function AsString(v: Value, lib: Library): (r: string)
    ensures r == if v.Text? then v.text else if v.Null? then "" else lib.show(v)
  {
    match v
    case Null => ""
    case Text(text) => text
    case _ => lib.show(v)
  }

  /** A field of the wait definition as a text. */
  function Wanted(definition: Fields, key: string, lib: Library): string {
    AsString(Field(AsMap(Field(definition, "wait")), key), lib)
  }

  /** The duration to wait: the first of these three fields that is not empty. */
  function WaitFor(definition: Fields, lib: Library): (r: string)
    ensures var d, s, m := Wanted(definition, "duration", lib), Wanted(definition, "seconds", lib), Wanted(definition, "milliseconds", lib);
      r in {d, s, m} && (d != "" ==> r == d) && (d == "" && s != "" ==> r == s) && (d == "" && s == "" ==> r == m)
  {
    var def := AsMap(Field(definition, "wait"));
    var duration, seconds := AsString(Field(def, "duration"), lib), AsString(Field(def, "seconds"), lib);
    if duration != "" then duration else if seconds != "" then seconds else AsString(Field(def, "milliseconds"), lib)
  }

  /** A possible result of a local task of this type. A for over items returns its input or fails. */
  ghost predicate Evaluates(kind: TaskType, definition: Fields, input: string, lib: Library, r: Result<string>) {
    (kind == Raise ==> r.Err?) &&
    (kind in {Fork, For, Run, Emit, WaitTask} && r.Ok? ==> r.value == input) &&
    (kind in {Fork, Run, Emit} ==> r.Ok?) &&
    (kind == WaitTask ==> (r.Ok? <==> WaitFor(definition, lib) == "" || lib.isDuration(WaitFor(definition, lib)))) &&
    (kind == SetTask ==> r == if "set" in definition then lib.eval(input, definition["set"]) else Ok(input)) &&
    (kind == Do ==> DoResult(AsSlice(Field(definition, "do")), input, lib.eval, r)) &&
    (kind == Try ==> TryResult(AsSlice(Field(definition, "try")), input, lib.eval, r)) &&
    (definition == map[] && kind != Raise ==> r == Ok(input))
  }

  /** execute, without the events of run and emit. */
  method Execute(kind: TaskType, definition: Fields, input: string, lib: Library) returns (r: Result<string>)
    ensures Evaluates(kind, definition, input, lib, r)
    ensures definition == map[] && kind != Raise ==> r == Ok(input)
  {
    match kind
    case SetTask => return if "set" in definition then lib.eval(input, definition["set"]) else Ok(input);
    case WaitTask =>
      var text := WaitFor(definition, lib);
      return if text == "" || lib.isDuration(text) then Ok(input) else Err("invalid duration");
    case Raise => return Err("workflow raise task failed");
    case Try => r := ExecuteTry(definition, input, lib.eval);
    case Do => r := ExecuteDo(definition, input, lib.eval);
    case For =>
      var failed: bool := *;
      var body := AsMap(Field(AsMap(Field(definition, "for")), "do"));
      return if body != map[] && failed then Err("for task failed") else Ok(input);
    case _ => return Ok(input);
  }
}
