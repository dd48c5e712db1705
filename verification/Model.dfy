/** The rows of internal/dal/model and the constants of internal/constants.
    A UUID is a natural number drawn from a counter that only grows; the reserved task ids
    START and END are constructors of their own, so no UUID can equal them. */
module Model {

  datatype Option<+T> = None | Some(value: T)

  datatype Result<+T> = Ok(value: T) | Err(error: string)

  /** The normalised task types a task row can hold. */
  datatype TaskType =
    | Operation | Event | Listen | Switch
    | SetTask | Do | Fork | For | Try | WaitTask | Raise | Run | Emit

  /** A task id as it is stored in from_task_id, to_task_id and task_id. */
  datatype Node = Start | End | Task(id: nat)

  /** One row of t_workflow_task_action: operation_name and operation_type. */
  datatype ActionRow = ActionRow(name: string, kind: string)

  function LowerChar(c: char): char {
    if 'A' <= c <= 'Z' then c - 'A' + 'a' else c
  }

  function Lower(s: string): (r: string)
    ensures |r| == |s|
  {
    if s == "" then "" else [LowerChar(s[0])] + Lower(s[1..])
  }

  /** isLocalRuntimeTask on an action's operation type, which is free text. */
  predicate IsLocalName(kind: string) {
    Lower(kind) in {"set", "do", "fork", "for", "try", "wait", "raise", "run", "emit"}
  }

  /** isA2ATask slices the first three characters of a non-empty name unless the type decides
      first; it panics on names of one or two characters, which are left out. */
  predicate SliceSafe(a: ActionRow) {
    a.kind in {"a2a", "agent", "switch"} || IsLocalName(a.kind) || a.name == "" || |a.name| >= 3
  }

  type Action = a: ActionRow | SliceSafe(a) witness ActionRow("", "")

  /** One row of t_workflow_task together with its actions; `normal` is Status == NormalStatus. */
  datatype TaskRow = TaskRow(wid: string, id: nat, name: string, kind: TaskType, actions: seq<Action>, normal: bool)

  /** One row of t_workflow_task_relation. */
  datatype Relation = Relation(wid: string, from: Node, to: Node, condition: string, normal: bool)

  /** One row of t_workflow. `base` is a history field: the first id drawn for the row's tasks. */
  datatype FlowRow = FlowRow(wid: string, definition: string, base: nat, normal: bool)

  datatype Tables = Tables(flows: seq<FlowRow>, tasks: seq<TaskRow>, relations: seq<Relation>)

  /** What the JQ engine answers for a condition on an input. */
  datatype Verdict = Holds | Fails | Errs

  type Oracle = (string, string) -> Verdict

  /** The elements that satisfy p, in their order. */
  function Filter<T(!new)>(p: T -> bool, s: seq<T>): (r: seq<T>)
    ensures forall x :: x in r <==> x in s && p(x)
    ensures |r| <= |s|
  {
    if s == [] then [] else (if p(s[0]) then [s[0]] else []) + Filter(p, s[1..])
  }

  function Exits(wid: string, from: Node): Relation -> bool {
    (x: Relation) => x.normal && x.wid == wid && x.from == from
  }

  /** The live relation rows that leave `from`, as selectTaskRelation and SelectStartTask read them. */
  function Leaving(relations: seq<Relation>, wid: string, from: Node): (r: seq<Relation>)
    ensures forall x :: x in r <==> x in relations && x.normal && x.wid == wid && x.from == from
  {
    Filter(Exits(wid, from), relations)
  }

  /** True when r lists the elements of s in some order: the database fixes no row order. */
  ghost predicate Reordered<T>(r: seq<T>, s: seq<T>) {
    multiset(r) == multiset(s)
  }

  lemma ReorderedMembers<T>(r: seq<T>, s: seq<T>)
    requires Reordered(r, s)
    ensures |r| == |s|
    ensures forall x :: x in r <==> x in s
  {
    assert |multiset(r)| == |multiset(s)|;
    assert forall x :: x in r <==> x in multiset(r);
    assert forall x :: x in s <==> x in multiset(s);
  }

  lemma {:induction false} FilterCount<T(!new)>(p: T -> bool, s: seq<T>, x: T)
    ensures multiset(Filter(p, s))[x] == if p(x) then multiset(s)[x] else 0
  {
    if s != [] {
      FilterCount(p, s[1..], x);
      assert s == [s[0]] + s[1..];
    }
  }

  lemma {:induction false} FilterAppend<T(!new)>(p: T -> bool, a: seq<T>, b: seq<T>)
    ensures Filter(p, a + b) == Filter(p, a) + Filter(p, b)
  {
    if a == [] { assert a + b == b; } else { assert (a + b)[1..] == a[1..] + b; FilterAppend(p, a[1..], b); }
  }

  /** Filtering twice is filtering by both. */
  lemma {:induction false} FilterTwice<T(!new)>(p: T -> bool, q: T -> bool, both: T -> bool, s: seq<T>)
    requires forall x :: both(x) == (p(x) && q(x))
    ensures Filter(q, Filter(p, s)) == Filter(both, s)
  {
    if s != [] {
      FilterTwice(p, q, both, s[1..]);
      FilterAppend(q, if p(s[0]) then [s[0]] else [], Filter(p, s[1..]));
    }
  }

  lemma FilterAll<T(!new)>(p: T -> bool, s: seq<T>)
    ensures (forall x :: x in s ==> p(x)) ==> Filter(p, s) == s
    ensures (forall x :: x in s ==> !p(x)) ==> Filter(p, s) == []
  {
    if forall x :: x in s ==> p(x) { FilterKeeps(p, s); }
    if forall x :: x in s ==> !p(x) { FilterDrops(p, s); }
  }

  lemma {:induction false} FilterKeeps<T(!new)>(p: T -> bool, s: seq<T>)
    requires forall x :: x in s ==> p(x)
    ensures Filter(p, s) == s
  {
    if s != [] {
      assert s == [s[0]] + s[1..];
      FilterKeeps(p, s[1..]);
    }
  }

  lemma FilterDrops<T(!new)>(p: T -> bool, s: seq<T>)
    requires forall x :: x in s ==> !p(x)
    ensures Filter(p, s) == []
  {
    if Filter(p, s) != [] { assert Filter(p, s)[0] in Filter(p, s); }
  }
}
