# EventMesh workflow engine: a verified model

The engine stores a workflow definition as task rows and relation rows, and executes it with a queue,
a scheduler loop and callbacks from the services it sends events to. This project models

* the compiler from a parsed definition to rows (`Swf`, `Compiler`), what the stored rows mean to the
  executors (`Executors`, `Meaning`, `Dispatch`, `Branching`), and saving and deleting workflows (`Catalog`, `Dal`);
* the run-time protocol as a state machine over task instance rows, workflow instance rows, queued
  messages, published events and callbacks, with saves and deletes of workflows at any moment
  (`Protocol`), and what every step and every run keeps (`Invariants`, `Records`, `Tokens`, `Safety`,
  `Rows`, `Retries`, `Origins`);
* what that says of a workflow: the path its instances take (`Paths`, `EndToEnd`), the data its tasks
  run on (`Data`), how much work they do
  (`Weights`, `Termination`), when SUCCESS comes too early (`Joins`, `Progress`, `EarlySuccess`,
  `Examples`) and what a delete leaves running (`Afterlife`);
* the code itself as objects that change their fields (`Dal`, `Queue`, `Engine`, `Tasks`, `Scheduling`).
  Each of their methods is proved to be a run of the protocol's steps, so what is proved of every run
  holds of them;
* the MySQL lock (`Dblock`), `GoAndWait`, the A2A polling loop (`A2a`) and the tasks that the engine
  evaluates itself (`LocalRuntime`).

A token of a workflow instance is a queued WAIT message, a WAIT row, the task under work, or a published
event that names a parked (SLEEP) successor and has not been called back.

## Assumptions about the environment

* An id drawn from the id counter is new. Task ids START and END are no drawn ids.
* A publish of an event that fails has sent nothing.
* The last row update of a scheduler turn and its commit succeed; any other write may fail.
* A callback carries the ids of its event and comes at most once for each event. Without this a task
  can run twice: `Rows.SecondCallbackRepeats`.
* There is one scheduler loop. The PROCESS write of a claim is shown at once: it is uncommitted when the
  scheduler lock is released, but no other loop is there to read it.
* JQ, JSON and YAML are deterministic functions that may fail. The database may return rows without an
  ORDER BY, and concurrent inserts may arrive, in any order.
* The first three characters of an action's name can be sliced: a name has none, or at least three, or
  its type decides before (`internal/task/a2a_integration.go:34-35` panics otherwise).

## What the model shows about the code

* A task without `then` whose first child is named `end`, `exit` or `continue` loses that child: its
  stored relation ends the workflow. This is the only case in which compilation changes the meaning
  (`Meaning.PreservedUnlessShadowed`); `Examples.AChildIsLost` gives such a workflow.
* `docs/USAGE.md:190-206` gives a fork a `then` that joins the branches. The code ignores it: a fork has
  no join, and the first branch that reaches END marks the instance SUCCESS. That happens too early,
  while another branch is under way, for exactly those stored workflows in which a fork that can be
  reached has two branches of which one can reach END (`EarlySuccess.EndsEarlyIffLeaks`,
  `Examples.AForkLeaks`).
* Deleting a workflow does not stop its instances: a queued WAIT message, a parked successor that is still
  queued, and a task under work that can still send a token on survive it, and the instance goes on.
  `Afterlife.DeleteStopsIff` says exactly when a delete is final.
* An operation that has a successor and whose action is an A2A call, or is not to be published, parks the
  successor and publishes no event. Nothing can wake it: the instance has lost its token and never
  succeeds (`Safety.LossIsFinal`, `Safety.DeadEndsNeverSucceed`).
* A callback that comes before the parked row is inserted is lost in the same way.
* `TaskDefinition` is no column (`internal/dal/model/workflow_task.go`), so the scheduler always hands a local task an empty
  definition; every local task but a raise then returns its input (`LocalRuntime.Execute`).
* `docs/DESIGN.md` says that a try skips an item that fails. The code lets the first set, raise or call
  decide, and a failing set fails the try (`LocalRuntime.TryFailsIff`).
* If a failed ping makes the refresher release the lock first, the owner's `Release` blocks for ever, and
  the other way round (`Dblock.OwnerReturnsIff`, `Dblock.RefresherReturnsIff`). Until then the
  owner may still be in its section while another session has the key; only its cancelled context tells
  it (`Dblock.SectionsExclude`, `Dblock.SectionsCanOverlap`), and the scheduler does not look at it.
* The comment on `isA2ATask` promises that names starting with `agent:` are calls to an agent; the code looks for
  `a2a` alone (`Dispatch.OperationSends`).
* An agent that answers `failed` to the first message is polled all the same (`A2a.Execute`).

## Model

| member | source | states |
|---|---|---|
| Compiler.BuildTask | internal/dal/workflow.go:311-332 | one row per flattened task, in order, with consecutive fresh ids: the task's name, its type or "operation" for an unknown one, and its actions, or one action of its own name and type |
| Compiler.NormalizeInverts | internal/dal/workflow.go:334-364 | the type texts and the stored types correspond one to one; every other text is stored as an operation |
| Swf.SubtreeFollows | third_party/swf/model.go:94-111 | the flattened list has every task right before what is nested in it, and siblings in their order |
| Swf.FlattenIsNested | third_party/swf/model.go:94-111 | it holds exactly the tasks and those nested in them |
| Compiler.BuildNameTable | internal/dal/workflow.go:406-409 | the name table; of two tasks with one name the later wins |
| Compiler.BuildForkTaskRelation | internal/dal/workflow.go:433-450 | one unconditional edge per child to its task, or a single edge to END |
| Compiler.BuildSwitchTaskRelation | internal/dal/workflow.go:452-466 | one edge per case with its condition and resolved target, or a single edge to END |
| Compiler.BuildTaskRelation | internal/dal/workflow.go:401-431 | the START edge if the start task exists, then every task's edges, in order |
| Meaning.FlowIdsAre | internal/dal/workflow.go:406-409 | with unique names the table maps exactly the task names, each to its own id |
| Meaning.ReadRelations | internal/dal/workflow.go:534-542 | reading the relations of a stored task yields a permutation of the edges compiled for it and no other row |
| Meaning.ReadTask | internal/dal/workflow.go:506-518 | the unfiltered task query finds the compiled row, although deleted rows are not excluded |
| Meaning.ScanSound | internal/task/switch_task.go:53-83 | whatever the order: an erring condition, a condition that holds, or all fail and a default or nothing is chosen |
| Meaning.MeaningPreserved | internal/dal/workflow.go:401-492 | for every workflow with unique task names, unknown targets included, every oracle and every task without a shadowed child: an executor can move an instance from the stored task to a node in some row order iff the source moves to the target stored there |
| Meaning.ShadowedChildIsLost | internal/dal/workflow.go:475-487 | a first child named like a directive should run next, but every stored move ends the workflow |
| Meaning.ShadowedEnds | internal/dal/workflow.go:475-487 | and the stored task can end the workflow on every input |
| Examples.AChildIsLost | internal/dal/workflow.go:475-487 | a valid workflow whose stored tables end where its source goes on to a child |
| Dispatch.OnlyEventsPark | internal/task/task.go:53-69 | only operations, events and listens park a successor |
| Dispatch.OneWay | internal/task/task.go:53-69 | along one relation to another task, operations, events and listens park it and every local task queues it at once; along one to END all complete; exactly a raise always fails |
| Dispatch.NoWay | internal/task/task.go:53-69 | without a relation an event, a listen or a switch does nothing and any other task completes |
| Dispatch.LocalNameIff | internal/task/runtime_util.go:31-40 | the local type names are the nine words, in letters of either case |
| Dispatch.OperationSends | internal/task/operation_task.go:69-77 | an operation sends an event iff its action has a name, its type is no local name, "a2a" or "agent", and its name does not start with "a2a" |
| Dispatch.LocalSends | internal/task/local_runtime.go:145-157 | among the other tasks exactly a run or an emit with a named action sends one, which names the running instance |
| Dispatch.MoveIsCarriedIff | internal/task/operation_task.go:51-77 | a stored task can send a token to a node iff the source task can move there and the move ends the instance, or the task needs no callback, or one of its actions sends the event for it |
| Dispatch.StoredOperationPlan | internal/dal/workflow.go:367-399 | whatever snapshot is read, a stored operation whose actions can all be sent parks its successor, or is the last, and sends its event |
| Dispatch.StoredOperationSends | internal/task/operation_task.go:59-77 | so a successful attempt of it sends exactly one event, which names the parked successor |
| Meaning.PreservedUnlessShadowed | internal/dal/workflow.go:468-492 | for unique task names, the meaning of a task is preserved iff its first child is not shadowed |
| Branching.FirstDecides | internal/task/switch_task.go:59-77 | in list order the first condition that does not fail decides, by a match or by an error |
| Branching.LastDefaultDecides | internal/task/switch_task.go:63-66 | when all conditions fail, the last default in the list is chosen |
| Branching.NoDefault | internal/task/switch_task.go:78-82 | when all conditions fail and there is no default, the switch is unmatched and completes |
| Branching.SwitchIsOrderFree | internal/task/switch_task.go:53-83 | a switch decides the same for all row orders iff the matching conditions agree without an error beside them, or one errs and none matches, or all fail and the defaults agree |
| Branching.OneMatchIsSteady | internal/task/switch_task.go:53-83 | no error, at most one match and at most one default suffice |
| Branching.ForkTargetsAre | internal/task/runtime_util.go:62-88 | over any row order a compiled fork publishes exactly its children's tasks, each once |
| Branching.ForkFansOut | internal/task/runtime_util.go:62-88 | one run of a fork queues one WAIT instance per child, distinct fresh ids, one input, and adds children minus one tokens |
| Branching.EmptyForkCompletes | internal/dal/workflow.go:446-448 | a fork without children completes the instance and publishes nothing |
| Branching.TallyIsZeroIffQuiet | internal/task/runtime_util.go:62-88 | the token tally is zero iff no place holds a token |
| Catalog.Parse | third_party/swf/swf.go:27-52 | a text gives a workflow iff the YAML parser finds one that has a task, tasks with names of their own, and only known `then` and case targets; what the parser gives else is passed through |
| Swf.ValidIffAccepted | third_party/swf/model.go:113-170 | validation accepts exactly these workflows |
| Catalog.DeleteAgrees | internal/dal/workflow.go:233-259 | a delete keeps all tables in agreement with the definitions and leaves nothing live of the workflow |
| Catalog.SaveAgrees | internal/dal/workflow.go:196-206 | a save keeps the agreement, whether it commits or rolls back |
| Catalog.TablesAgree | internal/dal/workflow.go:196-309 | after any sequence of saves and deletes a workflow id has at most one live row, and its live tasks and relations are the compilation of that row's definition, or none |
| Catalog.DeleteAgreesIffWhole | internal/dal/workflow.go:191-194 | a delete is no transaction: the tables of a live workflow agree afterwards iff the updates of the workflow, its tasks and its relations were taken together or not at all |
| Catalog.StartEdge | internal/dal/workflow.go:410-413 | the live START edges of a stored workflow are exactly the one to its start task, or none |
| Catalog.OneStartEdge | internal/dal/workflow.go:128-141 | so the query for the start task never has to choose |
| Catalog.CreatedSound | internal/dal/workflow.go:261-309 | a creation only adds task rows, and every relation row leads to END or to a stored task |
| Catalog.SaveIsAStep | internal/dal/workflow.go:196-206 | what a save leaves behind, committed or not, may be installed by a Republish step of the protocol |
| Catalog.DeleteIsAStep | internal/dal/workflow.go:191-194 | the same for a delete |
| Dal.WorkflowDal.Select | internal/dal/workflow.go:58-68 | finds a live row of the workflow iff there is one |
| Dal.WorkflowDal.DeleteRows | internal/dal/workflow.go:233-259 | each table is retired or left as it was by its own update; success means all of them |
| Dal.WorkflowDal.Create | internal/dal/workflow.go:261-309 | succeeds iff the definition is acceptable, no live workflow has its id and the inserts are taken; then its compilation is added, in any insert order |
| Dal.WorkflowDal.Save | internal/dal/workflow.go:196-206 | all or nothing: succeeds exactly when its updates and inserts are taken, the definition is acceptable and no other live workflow has its id; then the retired tables with the new compilation, else the old tables |
| Dal.WorkflowDal.SelectStartTask | internal/dal/workflow.go:128-141 | a live START edge of the workflow iff there is one; an empty id matches any |
| Dal.WorkflowDal.SelectTransitionTask | internal/dal/workflow.go:143-153 | a SLEEP row with the given ids iff there is one; empty ids match any |
| Dal.WorkflowDal.SelectTaskInstance | internal/dal/workflow.go:155-189 | the newest WAIT row with its task, an action and its live relations in any order; none only if there is no WAIT row or one without a stored task |
| Dal.WorkflowDal.UpdateTaskInstance | internal/dal/workflow.go:227-231 | only the row with this ID changes, and only in the columns that are not zero |
| Queue.InMemoryQueue.Publish | internal/queue/in_memory_queue.go:53-63 | the messages go to the end of the queue, in order |
| Queue.InMemoryQueue.Handle | internal/queue/in_memory_queue.go:86-101 | takes the oldest message: inserts it, updates its row, or loses it if the write fails |
| Queue.Consume | internal/queue/in_memory_queue.go:69-81 | a turn of the consumer is a Deliver step of the protocol |
| Queue.SaveWorkflow | internal/dal/workflow.go:196-206 | a save of the live system is a Republish step |
| Queue.DeleteWorkflow | internal/dal/workflow.go:191-194 | a successful delete of the live system is a Republish step |
| Engine.FlowEngine.Start | flow/engine.go:47-67 | succeeds iff a live START edge matches and the insert is taken, and is then a StartFlow step; an error changes neither the queue nor the instances |
| Engine.FlowEngine.Transition | flow/engine.go:70-83 | queues one waking message for a SLEEP row with these ids, or nothing when there is none |
| Engine.FlowEngine.CallBack | flow/engine.go:70-83 | the first callback with an event's ids is a Callback step |
| Tasks.PublishNextOrComplete | internal/task/runtime_util.go:42-60 | one WAIT successor, or the instance completed |
| Tasks.PublishNextTasks | internal/task/runtime_util.go:62-88 | one WAIT instance per relation that does not lead to END, with consecutive fresh ids, in one publish |
| Tasks.OperationTask.RunAction | internal/task/operation_task.go:69-89 | nothing, an A2A call, or one event with the given id; a failure publishes nothing and keeps the input |
| Tasks.OperationTask.RunLast | internal/task/operation_task.go:53-58 | an attempt of a last operation is one step of the protocol, succeeds iff its action and the write of the instance do, and sends at most one event, with a fresh id |
| Tasks.OperationTask.RunParking | internal/task/operation_task.go:59-66 | an attempt with a successor queues it in SLEEP with a fresh id and its own input, then sends at most one event, which names that id |
| Tasks.OperationTask.Run | internal/task/operation_task.go:51-67 | every attempt is a run of the protocol that ends or retries the claim |
| Tasks.EventTask.Run | internal/task/event_task.go:50-57 | the same for an event task, which does nothing without a relation |
| Tasks.SwitchTask.Choose | internal/task/switch_task.go:58-82 | the loop computes the scan that the theorems about switches speak of |
| Tasks.SwitchTask.Run | internal/task/switch_task.go:53-112 | an attempt of a switch is one step of the protocol, and succeeds iff no condition errs first and a completion is written |
| Tasks.LocalRuntimeTask.Continue | internal/task/local_runtime.go:59-65 | completes the instance, or publishes all successors |
| Tasks.LocalRuntimeTask.Run | internal/task/local_runtime.go:53-66 | an attempt of a local task is one step of the protocol; its successors get the filtered result of its evaluation, which with the empty definition the scheduler passes is its input; then only a raise, an event or the write of the instance can fail it |
| Scheduling.NewTask | internal/task/task.go:53-69 | the nine local types get a local executor, event and listen an event executor, switch a switch executor and operation an operation executor, each set up for the job |
| Scheduling.RemoteIff | internal/task/a2a_integration.go:27-41 | the answers of an agent decide exactly for operations, events and listens with a named action for one |
| Scheduling.RetryTask | internal/schedule/inline_scheduler.go:92-94 | at most five attempts, together a run of the protocol; the task ends as succeeded iff one of five attempts meets an environment that lets its plan succeed (only the answers of an agent are not judged by it) |
| Scheduling.InlineScheduler.FetchJob | internal/schedule/inline_scheduler.go:121-136 | the newest WAIT row becomes PROCESS and is a Claim step; the job runs on the filtered stored input; otherwise nothing changes |
| Scheduling.InlineScheduler.Handle | internal/schedule/inline_scheduler.go:68-103 | one turn claims the newest WAIT row, attempts it and writes its final status, as a filtered run of the protocol from idle to idle; it executes one visit, on the filtered stored input; with the lock and the database at hand it does nothing only if there is nothing to claim |
| Scheduling.WaitingIsClaimed | internal/schedule/inline_scheduler.go:121-136 | in reachable states there is nothing to claim only if no row waits |
| Invariants.WakeFinds | flow/engine.go:70-83 | a row that a callback finds asleep is the successor its event parked |
| Invariants.StepKeepsInv | internal/queue/in_memory_queue.go:86-101 | every step keeps ids unique to one home, messages matched to their rows, each event naming one parked successor, and the claim undisturbed |
| Invariants.RunKeepsInv | internal/schedule/inline_scheduler.go:62-103 | the same for every run, with forks and re-saves |
| Tokens.StepConserves | internal/schedule/inline_scheduler.go:68-103 | in tables in which the workflow of the instance does not fork every step keeps: at most one token of the instance, none when it succeeded or failed |
| Safety.TokenConservation | internal/schedule/inline_scheduler.go:68-103 | in every run, saves and deletes included, an instance whose own workflow is fork-free throughout has at most one token, none once it is SUCCESS or has a FAIL row, and never both; other workflows may fork |
| Safety.NoTokenIsLost | internal/schedule/inline_scheduler.go:68-103 | the converse, for every workflow and every run with saves and deletes: a started instance that no losing step hits is SUCCESS, has a FAIL row, is erased by a delete, or has a token |
| Safety.OnlyDeletesErase | internal/dal/workflow.go:233-259 | an instance is erased only by a delete of its own workflow |
| Safety.LossIsFinal | internal/task/operation_task.go:59-77 | after a losing step an instance of a fork-free workflow has no token, is not SUCCESS and has no FAIL row: it stalls |
| Safety.QuietForever | internal/schedule/inline_scheduler.go:68-103 | an instance without a token executes nothing more and does not come to SUCCESS |
| Safety.FailureIsContained | internal/schedule/inline_scheduler.go:92-97 | once a task row is FAIL, an instance of a workflow that was fork-free until then never becomes SUCCESS and executes nothing more |
| Safety.DeadEndsNeverSucceed | internal/task/operation_task.go:59-77 | an instance that reaches a raise, an operation that parks its successor but publishes no event, or an event or switch task without relations never becomes SUCCESS and executes nothing more |
| Safety.DoomedFails | internal/schedule/inline_scheduler.go:92-97 | work that always fails, such as a raise, ends the claim as failed after exactly five attempts |
| Retries.OrphanForever | flow/engine.go:72-80 | such a row never leaves SLEEP, except by a delete, and is never named |
| Retries.FailedParkSleeps | internal/task/operation_task.go:63-66 | in every run, the successor parked by an attempt that then fails is such a row |
| Retries.AttemptsPark | internal/task/operation_task.go:51-77 | over all attempts of a claim at most five successors are queued, failed attempts name none, and a successful one names exactly one if it publishes |
| Rows.StepMovesForward | internal/queue/in_memory_queue.go:86-101 | a step moves a row at most one edge along SLEEP, WAIT, PROCESS, SUCCESS or FAIL and keeps its identity and input; only a delete of the row's workflow does otherwise |
| Rows.RunMovesForward | internal/dal/workflow.go:227-231 | along every run, from every reachable state and with any saves and deletes, identity and input of a row stay; unless its own workflow is deleted its status never goes back and a final one stays |
| Rows.StaleCallbackIsIgnored | flow/engine.go:78-80 | a callback for a task instance that is not asleep changes no row and queues nothing |
| Rows.NoDanglingWork | internal/dal/workflow.go:155-189 | in every reachable state, across re-saves and deletes, the task of every row and of every queued message is found, so a claim can be read |
| Records.RunLawful | internal/schedule/inline_scheduler.go:68-103 | in every run the invariant holds and every row, message, event and job belongs to the workflow its recorded instance was started for |
| Paths.ExecutedTasksFormAPath | flow/engine.go:47-67 | start an instance of a fork-free workflow in any reachable state and leave that workflow alone, while others are saved, deleted and run: its executed tasks form a path of the relations stored at its start, from START, and SUCCESS means the path reached END |
| Data.TasksRunOnWhatTheyWereSent | internal/schedule/inline_scheduler.go:86-94 | in runs that filter as Handle does, forks included: the first executed task is the start task on the filtered start input, and every later one follows an earlier one and runs on the filter of what that handed on |
| Data.StepOpens | internal/task/runtime_util.go:42-88 | whatever of an instance waits or sleeps after a step did so before with the same input, or is handed on by its task under work |
| EndToEnd.ForkFreeIsForkless | internal/dal/workflow.go:433-450 | fork-free definitions give tables without a forking task |
| EndToEnd.OtherEditKeeps | internal/dal/workflow.go:191-206 | a save or delete that is not addressed to a live workflow leaves its live relations and its tasks as they are |
| EndToEnd.OtherEditsUntouched | internal/dal/workflow.go:191-206 | so a run of saves and deletes of other workflows meets what the path theorem asks |
| EndToEnd.RunsFollowTheSource | flow/engine.go:47-67 | through any saves and deletes, an instance of a fork-free workflow that is not itself addressed while it runs executes a path of the definition that was live when it started, from its start task, and SUCCESS means the source ends there, or a shadowed child was lost |
| Origins.StepOrigin | internal/schedule/inline_scheduler.go:68-103 | every token after a step is one that was there before, a row that was claimed, or one that the task under work sent to a node its plan names |
| Joins.SuccessIsTheEnd | internal/task/runtime_util.go:90-98 | if no fork of the workflow leaks, nothing of an instance is left once it is SUCCESS, in every run that leaves the workflow alone |
| Joins.ForklessNeverLeaks | internal/dal/workflow.go:433-450 | a fork-free workflow does not leak |
| EarlySuccess.LeakEndsEarly | internal/task/runtime_util.go:62-98 | from a fork that leaks, a run from the first start on that marks its instance SUCCESS while another branch holds a token |
| EarlySuccess.EndsEarlyIffLeaks | internal/task/runtime_util.go:62-98 | SUCCESS can come too early iff a fork of the stored workflow that can be reached has two branches of which one can reach END |
| Examples.AForkLeaks | internal/task/runtime_util.go:62-98 | a valid workflow, a fork of two `set` tasks, that does |
| Afterlife.ExecutesIffLives | internal/schedule/inline_scheduler.go:62-103 | in every reachable state some continuation executes another task of an instance iff a row or message of it waits, an event to come names a successor that sleeps or will sleep, or the work under way can send a token on |
| Afterlife.DeleteStopsIff | internal/dal/workflow.go:233-259 | a delete of its workflow stops an instance for good iff no WAIT message of it is queued, no event to come names a successor still queued, and no work under way can send a token on |
| Weights.BalancedIffAcyclic | internal/dal/workflow.go:401-431 | weights of one more than all successors exist iff the live relation graph of the workflow has no cycle |
| Termination.StepCost | internal/schedule/inline_scheduler.go:68-103 | no step but a start adds weight to the live tokens, saves and deletes included, and a claim takes the claimed task's own share away |
| Termination.UntouchedStaysBalanced | internal/dal/workflow.go:191-206 | saves and deletes of other workflows keep it so |
| Termination.WorkIsBounded | internal/schedule/inline_scheduler.go:68-103 | from its start in any reachable state on, an instance executes at most as many tasks as its start task weighs, forks and failures included; only its own workflow must be acyclic and stay so |
| Termination.StepLowers | internal/schedule/inline_scheduler.go:62-103 | while the workflows that have an instance are acyclic, every step but a start or a re-save lowers a lexicographic measure |
| Termination.RunsStop | internal/schedule/inline_scheduler.go:62-103 | an endless execution has another start, save or delete after every point at which the workflows that have an instance are acyclic: in between, every run stops |
| Dblock.ObtainTimeoutContext | middleware/dblock/lock_client.go:71-116 | a refresher runs iff a Lock is returned; each answer has its error, and the context is cancelled on every error |
| Dblock.ReleasedAtMostOnce | middleware/dblock/lock.go:42-74 | in every interleaving at most one of owner and refresher gets past the send, RELEASE_LOCK and Close succeed at most once, Close only after RELEASE_LOCK, and the context is cancelled when the refresher has returned |
| Dblock.ReleaseUnlocksAndCloses | middleware/dblock/lock.go:42-49 | a Release none of whose steps fails has unlocked and closed exactly once when it returns |
| Dblock.OwnerPassesIff | middleware/dblock/lock.go:42-43 | the owner's send can go on iff the refresher has not won it |
| Dblock.OwnerReturnsIff | middleware/dblock/lock.go:42-66 | in every reachable state some continuation returns from the owner's Release iff the refresher has not won the send |
| Dblock.RefresherReturnsIff | middleware/dblock/lock.go:53-69 | in every reachable state some continuation ends the refresher iff it is not past a failed ping while the owner has the send |
| Dblock.OwnerBlocksForever | middleware/dblock/lock.go:42-66 | after the refresher's send the owner's Release never returns |
| Dblock.RefresherBlocksForever | middleware/dblock/lock.go:59-66 | after the owner's send a refresher whose ping fails never returns |
| Dblock.MutualExclusion | middleware/dblock/lock_client.go:80-115 | over any number of sessions at most one holds an unreleased Lock |
| Dblock.SectionsExclude | middleware/dblock/lock.go:26-39 | at most one owner is in its section with a live context |
| Dblock.SectionsCanOverlap | middleware/dblock/lock.go:57-66 | a run in which two owners are in their sections at once |
| GoAndWait.WaitsAndKeepsTheFirst | internal/util/flow_util.go:34-60 | on return all handlers have finished; the error is nil iff none returned one, else it is that of the first to enter `once` |
| GoAndWait.NeverStuck | internal/util/flow_util.go:34-60 | until it returns some goroutine or the waiter can go on |
| GoAndWait.AlwaysReturns | internal/util/flow_util.go:34-60 | every run has at most four steps per handler and one more, and a run that can not go on has returned |
| A2a.PollUntilComplete | internal/bridge/a2a_executor.go:69-87 | the first decisive reply within the bound fixes the result, otherwise it times out after exactly the bound |
| A2a.FirstDecisiveDecides | internal/bridge/a2a_executor.go:69-87 | the result does not depend on what comes after the first decisive reply |
| A2a.MorePollsKeepTheResult | internal/bridge/a2a_executor.go:69-87 | allowing more polls changes only timeouts |
| A2a.Execute | internal/bridge/a2a_executor.go:49-67 | the outcome for every answer to the first message, and the metadata that is sent |
| LocalRuntime.DoItem | internal/task/local_runtime.go:229-244 | the inner loop is the fold over one item's entries |
| LocalRuntime.FirstKeyDecides | internal/task/local_runtime.go:295-305 | the type of an entry is the first of call, set, wait, raise, run and emit that it has |
| LocalRuntime.ExecuteDo | internal/task/local_runtime.go:221-247 | a do is the fold over the entries of its items, for some order of each map |
| LocalRuntime.DoFailsIff | internal/task/local_runtime.go:221-247 | it fails iff some entry raises or is a set that fails on the task's own input |
| LocalRuntime.LastSetWins | internal/task/local_runtime.go:233-240 | otherwise the last set with a result decides, evaluated on the task's own input |
| LocalRuntime.NoSetKeeps | internal/task/local_runtime.go:226-246 | without such a set the input is returned |
| LocalRuntime.DoFailsInAnyOrder | internal/task/local_runtime.go:229-244 | whether it fails does not depend on the iteration order |
| LocalRuntime.SingleEntriesOneResult | internal/task/local_runtime.go:221-247 | over single-entry items the result is unique |
| LocalRuntime.ExecuteTry | internal/task/local_runtime.go:159-180 | a try is decided by the first entry that is a set, a raise or a call |
| LocalRuntime.TryFailsIff | internal/task/local_runtime.go:159-180 | it fails iff that entry raises or is a set that fails |
| LocalRuntime.Execute | internal/task/local_runtime.go:68-91 | the result of each task type; with an empty definition everything but a raise returns its input |

## Left out

- gRPC, HTTP, REST handlers, agent cards, the catalog query, metrics, logging and configuration: I/O and wiring.
- The contents of JQ, JSON and YAML, and of input and output filters: abstract functions.
- `eventmesh_queue.go`: delivery is decided by an external broker; the queue is the in-memory one, as an unbounded FIFO instead of an unbuffered channel.
- Several engines or scheduler loops on one database: the claim's PROCESS write is uncommitted when the lock is released, so the code gives no at-most-once execution there.
- Eventual completion: a lost callback or a lost queue message stalls an instance; safety and bounded work are proved.
- Termination.RunsStop: bounds runs between starts and saves; an interleaving with infinitely many of these is not bounded.
- EndToEnd.RunsFollowTheSource: for instances whose own workflow is not saved or deleted while they run.
- Rows with equal creation time, where the claim query falls back to the lowest row: the protocol lets a claim take any WAIT row, the object model takes the last one inserted.
- An empty workflow id in a start request, which matches any workflow, is in the contract of `Engine.FlowEngine.Start` but is no step of the protocol; empty instance ids in a callback likewise.
- Catalog.TablesAgree: speaks of deletes that succeed; which partial deletes keep the agreement is Catalog.DeleteAgreesIffWhole.
- The task id in the metadata of an A2A call, and the text of error messages.
- Failing reads of the database: a turn or a request that fails to read changes nothing and is no step.
- `nil` entries in the parser's lists: the parser makes none.
- The item loop of a `for` task: it returns its input or an error.
- Page queries, instance counters, workflow instance cancellation and the workflow agent: easy members without a bearing on the protocol.
- Letters outside ASCII in the type names of actions, which `strings.ToLower` may fold.
- Times: ticks, sleeps, poll delays, deadlines and durations are choices of the environment.
