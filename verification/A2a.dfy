/** internal/bridge/a2a_executor.go: sending a task to an agent and polling for its result. */
module A2a {
  import opened Model

  datatype Task = Answer(error: Option<string>, id: string, status: string, artifacts: seq<seq<string>>, message: seq<string>)

  /** What the client returns: a transport error, or the agent's answer. */
  datatype Reply = Lost(reason: string) | Got(task: Task)

  datatype Failure =
    | SendFailed(reason: string) | TaskError(message: string)
    | PollError(message: string) | TaskFailed(id: string) | TimedOut(id: string, retries: nat)

  datatype Outcome = Output(text: string) | Failure(failure: Failure)

  type Metadata = map<string, string>

  /** The clock, and what the agent answers to the task and to each poll. */
  datatype Agent = Agent(now: string, send: (string, Metadata) -> Reply, replies: nat -> Reply)

  /** extractOutput: the first part of the first artifact, else of the message, else nothing. */
  function ExtractOutput(t: Task): (r: string)
    ensures t.artifacts != [] && t.artifacts[0] != [] ==> [r] <= t.artifacts[0]
    ensures (t.artifacts == [] || t.artifacts[0] == []) && t.message != [] ==> [r] <= t.message
    ensures (t.artifacts == [] || t.artifacts[0] == []) && t.message == [] ==> r == ""
  {
    if |t.artifacts| > 0 && |t.artifacts[0]| > 0 then t.artifacts[0][0]
    else if |t.message| > 0 then t.message[0]
    else ""
  }

  /** A reply that ends the polling. */
  predicate Decisive(r: Reply) {
    r.Got? && (r.task.error.Some? || r.task.status in {"completed", "failed"})
  }

  function Decision(r: Reply, taskID: string): Outcome
    requires Decisive(r)
  {
    if r.task.error.Some? then Failure(PollError(r.task.error.value))
    else if r.task.status == "completed" then Output(ExtractOutput(r.task))
    else Failure(TaskFailed(taskID))
  }

  /** At most maxRetry polls; the first decisive reply fixes the result, transport errors and other
      statuses are skipped, and without a decisive reply it times out after exactly maxRetry polls. */
  method PollUntilComplete(taskID: string, replies: nat -> Reply, maxRetry: nat) returns (r: Outcome, polls: nat)
    ensures polls <= maxRetry && forall j :: 0 <= j < polls - 1 ==> !Decisive(replies(j))
    ensures if polls > 0 && Decisive(replies(polls - 1)) then r == Decision(replies(polls - 1), taskID)
            else polls == maxRetry && r == Failure(TimedOut(taskID, maxRetry))
  {
    polls := 0;
    while polls < maxRetry
      invariant polls <= maxRetry && forall j :: 0 <= j < polls ==> !Decisive(replies(j))
    {
      var reply := replies(polls);
      polls := polls + 1;
      if reply.Lost? { continue; }
      var resp := reply.task;
      if resp.error.Some? { return Failure(PollError(resp.error.value)), polls; }
      match resp.status {
        case "completed" => return Output(ExtractOutput(resp)), polls;
        case "failed" => return Failure(TaskFailed(taskID)), polls;
        case _ =>
      }
    }
    return Failure(TimedOut(taskID, maxRetry)), polls;
  }

  /** The specification of polling as a function, from the i-th poll on. */
  function Poll(taskID: string, replies: nat -> Reply, i: nat, maxRetry: nat): Outcome
    requires i <= maxRetry
    decreases maxRetry - i
  {
    if i == maxRetry then Failure(TimedOut(taskID, maxRetry))
    else if Decisive(replies(i)) then Decision(replies(i), taskID)
    else Poll(taskID, replies, i + 1, maxRetry)
  }

  /** The result is fixed by the first decisive reply, whatever comes after it and however many more
      polls are allowed. */
  lemma {:induction false} FirstDecisiveDecides(taskID: string, replies: nat -> Reply, i: nat, d: nat, maxRetry: nat)
    requires i <= d < maxRetry && Decisive(replies(d)) && forall j :: i <= j < d ==> !Decisive(replies(j))
    ensures Poll(taskID, replies, i, maxRetry) == Decision(replies(d), taskID)
    decreases d - i
  {
    if i < d { FirstDecisiveDecides(taskID, replies, i + 1, d, maxRetry); }
  }

  lemma {:induction false} NoneDecisiveTimesOut(taskID: string, replies: nat -> Reply, i: nat, maxRetry: nat)
    requires i <= maxRetry && forall j :: i <= j < maxRetry ==> !Decisive(replies(j))
    ensures Poll(taskID, replies, i, maxRetry) == Failure(TimedOut(taskID, maxRetry))
    decreases maxRetry - i
  {
    if i < maxRetry { NoneDecisiveTimesOut(taskID, replies, i + 1, maxRetry); }
  }

  /** A result other than a timeout does not change when more polls are allowed. */
  lemma {:induction false} MorePollsKeepTheResult(taskID: string, replies: nat -> Reply, i: nat, few: nat, many: nat)
    requires i <= few <= many && Poll(taskID, replies, i, few) != Failure(TimedOut(taskID, few))
    ensures Poll(taskID, replies, i, many) == Poll(taskID, replies, i, few)
    decreases few - i
  {
    if !Decisive(replies(i)) { MorePollsKeepTheResult(taskID, replies, i + 1, few, many); }
  }

  const MAX_RETRY: nat := 30

  /** What the answers of an agent make of a task: the specification of Execute. */
  function Result(input: string, sent: Metadata, agent: Agent): Outcome {
    match agent.send(input, sent)
    case Lost(reason) => Failure(SendFailed(reason))
    case Got(t) =>
      if t.error.Some? then Failure(TaskError(t.error.value))
      else if t.status == "completed" then Output(ExtractOutput(t))
      else Poll(t.id, agent.replies, 0, MAX_RETRY)
  }

  function Stamped(metadata: Metadata, now: string): Metadata {
    metadata["source" := "eventmesh-workflow"]["timestamp" := now]
  }

  /** Sends the task with two more metadata entries; an answer that is completed at once needs no
      poll, and one that is failed at once is polled all the same. */
  method Execute(input: string, metadata: Metadata, agent: Agent) returns (r: Outcome, polls: nat)
    ensures r == Result(input, Stamped(metadata, agent.now), agent)
    ensures polls <= 30 && (r.Failure? && r.failure.TimedOut? ==> polls == 30 && r.failure.retries == 30)
    ensures polls > 0 ==> agent.send(input, Stamped(metadata, agent.now)).Got?
  {
    var sent := metadata;
    sent := sent["source" := "eventmesh-workflow"];
    sent := sent["timestamp" := agent.now];
    var resp := agent.send(input, sent);
    if resp.Lost? { return Failure(SendFailed(resp.reason)), 0; }
    if resp.task.error.Some? { return Failure(TaskError(resp.task.error.value)), 0; }
    if resp.task.status == "completed" { return Output(ExtractOutput(resp.task)), 0; }
    r, polls := PollUntilComplete(resp.task.id, agent.replies, MAX_RETRY);
    if polls > 0 && Decisive(agent.replies(polls - 1)) {
      FirstDecisiveDecides(resp.task.id, agent.replies, 0, polls - 1, MAX_RETRY);
    } else {
      NoneDecisiveTimesOut(resp.task.id, agent.replies, 0, MAX_RETRY);
    }
  }
}
