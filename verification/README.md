# Reef: queues, scheduling, replication and evolution gates

A Dafny model of the parts of Reef that keep several structures in step, and proofs of
what they promise.

- **Queues.** `PriorityHeap.dfy` is the heap of `priority_queue.go` as an array of item
  objects with stored indices, with Go's documented `container/heap` algorithms written
  over the repository's own `Less` and `Swap`. `PriorityQueue.dfy` adds the ID index and
  proves the whole against one sequence, the dequeue order (`DequeueOrder.dfy`).
  `Queues.dfy` gives the FIFO queue the same abstract order, so that the scheduler is
  proved once for both.
- **Scheduler.** `SchedulerSpec.dfy` says on values what each handler does.
  `SchedulerInvariant.dfy` and `SchedulerRuns.dfy` prove what runs keep, the queue apart
  from the books; `DispatchTheorems.dfy`, `StuckTasks.dfy` and `EscalationBound.dfy` are
  the theorems about dispatch calls and runs, which do not depend on the books.
  `Scheduler.dfy` is the object itself, sharing mutable task objects with its queue; every
  method is proved to take the value of the whole system (`View`) along one step of the
  specification. `HandlerEffects.dfy` says the same steps field by field, and
  `DispatchChoices.dfy` whom a dispatch chooses and what it changes, over whole runs.
  `Tasks.dfy` and `Registry.dfy` hold the task object with its status
  table, the client registry and the selection strategies.
- **DAG engine.** `DagSpec.dfy` (values), `DagSafety.dfy`, `DagProgress.dfy`,
  `DagFailure.dfy` and `DagRuns.dfy` (runs of engine and scheduler), `DagEngine.dfy` (the
  engine and the copying store over a live scheduler), `Examples.dfy` (runs that reach
  the states in which promises fail).
- **Replicated state.** `ReplicatedState.dfy` states the effect of each command on the
  one key it names and proves independence, commutation and snapshot equivalence;
  `CommandLaws.dfy` what a log makes of one task;
  `ReefFSM.dfy` is the object with five maps; `LogStore.dfy` the log bucket and its keys.
- **Gates.** `Tokens.dfy` and `Similarity.dfy` are the duplicate decision on exact
  counts; `Genes.dfy` the truncation of generated genes and the two validators.
- **Leadership.** `Leadership.dfy` follows soft states into the stop channels, with the two
  halves of Stop as separate events.

A handler call, a dispatch call and a report are atomic steps; a dispatch the code starts
in the background is a later step. Which of several least-loaded clients the registry's
map iteration offers first, and whether the dispatch hook accepts, are left open and
recorded in the log of a dispatch.

Findings about the code, each with its exact condition and, where a state must be
reached, a run that reaches it:

- A late completion can free a slot twice (`CompletionAccounts`,
  `LateCompletionMiscounts`).
- A dispatch that fails changes the order of the queue exactly when another undispatched
  task has the same rank (`OrderIsKeptIff`).
- A finished plan does not move a parent that is Running (`ParentAggregatesIff`), and
  moving one that still waits leaves an entry no dispatch can take
  (`AggregationSticksIff`). Such an entry ends every call that comes to it while a client
  fits it, and moves behind its equals (`StuckEntryEnds`, `CallIsVainIff`); at the head
  without an equal it blocks the queue, as long as nothing of its rank or above enters and
  its client stays (`BlocksForGood`, `DagBlocksForGood`, `QueueCanBeBlocked`).
- A failure report fails the direct dependents and strands what is further down
  (`FailureStrandsIff`, `PlanCanBeStranded`); a plan with a blocked sub-task stranded is
  never found done unless a failure of one it depends on itself is reported, and a plan
  that is worked off is done exactly if it has none (`StrandedHoldsPlan`, `PlanEndsIff`,
  `PlanEndsInRunIff`).
- A node that regains leadership while Stop waits for the raft node opens a channel
  nothing closes (`OpenForGoodIff`, `LeadingAgainAfterStop`).

## Model

| member | source | states |
|---|---|---|
| `PriorityHeaps.PriorityHeap.Swap` | `pkg/reef/server/priority_queue.go:34-38` | exchanges two items of the heap array and keeps every stored index equal to its array position |
| `PriorityHeaps.PriorityHeap.Append` | `pkg/reef/server/priority_queue.go:40-45` | the item joins at the end with its index; nothing else moves |
| `PriorityHeaps.PriorityHeap.DropLast` | `pkg/reef/server/priority_queue.go:47-55` | the last item leaves with index -1; exactly one key leaves with it |
| `PriorityHeaps.PriorityHeap.Up` | `pkg/reef/server/priority_queue.go:26-38` | container/heap up over this Less and Swap: from one hole the heap order is restored, no key is gained or lost, and no position behind the start moves |
| `PriorityHeaps.PriorityHeap.Down` | `pkg/reef/server/priority_queue.go:26-38` | container/heap down: restores the order below one position within the first n, leaves the rest of the array alone, and reports whether anything moved |
| `PriorityHeaps.PriorityHeap.Push` | `pkg/reef/server/priority_queue.go:103` | heap.Push: heap order and links hold again, with exactly the new key added |
| `PriorityHeaps.PriorityHeap.Pop` | `pkg/reef/server/priority_queue.go:117` | heap.Pop: the root leaves; heap order and links hold for what remains, which is everything else |
| `PriorityHeaps.PriorityHeap.Remove` | `pkg/reef/server/priority_queue.go:224` | heap.Remove at any position: exactly that item leaves and the heap is sound again |
| `PriorityHeaps.PriorityHeap.Fix` | `pkg/reef/server/priority_queue.go:210` | heap.Fix after a priority changed: the heap is sound with the new key, and an item that became more urgent moves nothing behind its old position |
| `PriorityHeaps.RootIsFirst` | `pkg/reef/server/priority_queue.go:26-32` | nothing in a heap comes before its root |
| `PriorityQueues.PriorityQueue.constructor` | `pkg/reef/server/priority_queue.go:69-81` | an empty sound queue; non-positive limits become 1000 tasks and ten minutes |
| `PriorityQueues.PriorityQueue.Enqueue` | `pkg/reef/server/priority_queue.go:84-106` | refused exactly when full; otherwise the task takes its place in the order by (priority descending, insertion ascending), an unset priority counting as 5 |
| `PriorityQueues.PriorityQueue.Dequeue` | `pkg/reef/server/priority_queue.go:109-120` | returns the head of the dequeue order and leaves its tail; heap, indices and byID stay consistent |
| `PriorityQueues.PriorityQueue.Peek` | `pkg/reef/server/priority_queue.go:123-131` | shows the head of the dequeue order |
| `PriorityQueues.PriorityQueue.Remove` | `pkg/reef/server/priority_queue.go:186-190` | found exactly when queued; that task leaves, the rest keep their order |
| `PriorityQueues.PriorityQueue.RemoveItem` | `pkg/reef/server/priority_queue.go:219-227` | removeByID keeps the heap, the stored indices and byID in step |
| `PriorityQueues.PriorityQueue.Expire` | `pkg/reef/server/priority_queue.go:153-168` | exactly the over-age tasks leave and are returned; the rest keep their order |
| `PriorityQueues.PriorityQueue.BoostStarvation` | `pkg/reef/server/priority_queue.go:195-216` | although Fix reorders the array being ranged over, the queue stays sound; when the boost is not negative and nothing is above the cap, an entry older than the threshold has priority p + boost, or the cap if that is more, in the order and on its item, and on its task whenever the priority changed; every other entry is as before, and the count is the number of overdue entries below the cap under a positive boost |
| `DequeueOrder.Sweep.RaisedTo` | `pkg/reef/server/priority_queue.go:203-209` | entry by entry what a sweep leaves in the order: p + boost up to the cap for the overdue, the rest unchanged |
| `DequeueOrder.Sweep.RaisedAre` | `pkg/reef/server/priority_queue.go:195-216` | a sweep that only raises changes exactly the overdue entries below the cap, under a positive boost |
| `PriorityQueues.PriorityQueue.OrderIsIndex` | `pkg/reef/server/priority_queue.go:59-66` | the dequeue order, the heap array and byID list the same tasks, each once |
| `PriorityQueues.PriorityQueue.RootIsHead` | `pkg/reef/server/priority_queue.go:117-131` | the root of the heap is the head of the dequeue order |
| `DequeueOrder.SortedIsUnique` | `pkg/reef/server/priority_queue.go:26-32` | what is queued determines the dequeue order |
| `DequeueOrder.NewestGoesLast` | `pkg/reef/server/priority_queue.go:98-103` | a fresh sequence number puts a task behind all equals, so sequence numbers cannot be observed |
| `DequeueOrder.Sweep.OrderIrrelevant` | `pkg/reef/server/priority_queue.go:195-216` | a sweep gives the same priorities and the same count in whatever order the items are visited |
| `Queues.TaskQueue.Enqueue` | `pkg/reef/server/queue.go:36-44` | appends unless the queue is full |
| `Queues.TaskQueue.Dequeue` | `pkg/reef/server/queue.go:47-56` | takes the first task |
| `Queues.TaskQueue.Expire` | `pkg/reef/server/queue.go:85-99` | splits the queue by age, both halves in queue order |
| `Queues.ExpireSplits` | `pkg/reef/server/queue.go:85-99` | every queued task is expired or kept, and none twice |
| `Queues.ExpireSplitsByAge` | `pkg/reef/server/queue.go:91-95` | the two halves are the tasks over and not over the age limit |
| `Queues.ExpireKeepsOrder` | `pkg/reef/server/queue.go:85-99` | expiring a queue expires its parts in turn, down to the single task, so both halves keep the order of the queue |
| `Queues.Queue.Enqueue` | `pkg/reef/server/queue_iface.go:9-17` | both in-memory queues implement one abstract dequeue order: insertion behind everything of the same or higher rank, refused exactly when full |
| `Queues.Queue.Dequeue` | `pkg/reef/server/queue_iface.go:9-17` | both in-memory queues return the head of that order and leave its tail |
| `Queues.Queue.OrderIsObjects` | `pkg/reef/server/queue_iface.go:9-17` | the order lists exactly the queued task objects, no ID twice |
| `Tasks.Task.Transition` | `pkg/reef/task.go:193-210` | moves along the table or fails and changes nothing |
| `Tasks.ReachedFrom` | `pkg/reef/task.go:43-69` | the status table read by target: from which statuses each status can be reached |
| `Registries.Matches` | `pkg/reef/client_info.go:32-49` | true exactly if the role is equal and every required skill is among the skills of the client |
| `Registries.Registry.List` | `pkg/reef/server/registry.go:87-95` | every registered client once, in some order |
| `Registries.Registry.IncrementLoad` | `pkg/reef/server/registry.go:139-148` | one more for a known client, nothing else |
| `Registries.Registry.DecrementLoad` | `pkg/reef/server/registry.go:151-162` | one less for a known client, clamped at zero |
| `Registries.Registry.MarkStale` | `pkg/reef/server/registry.go:60-72` | marks a known client that is not stale yet |
| `Registries.SelectLeastLoad` | `pkg/reef/server/strategy.go:38-49` | the first candidate of least load |
| `Registries.SelectRoundRobin` | `pkg/reef/server/strategy.go:62-75` | a candidate of least load, and among those of the least ID, whatever the order of the candidates |
| `Schedulers.Scheduler.MatchClient` | `pkg/reef/server/scheduler.go:135-193` | nothing exactly when each client is excluded, not connected, full, of another role or without some required skill; otherwise a client that is none of these, of least load among such clients, under either load-based strategy |
| `Schedulers.Scheduler.LastFailure` | `pkg/reef/server/scheduler.go:103-109` | the client of the latest failed attempt that names one, or none if no failed attempt does |
| `SchedulerSpec.LastFailedIs` | `pkg/reef/server/scheduler.go:103-109` | the excluded client is characterised by the attempts: some failed attempt names it and no later failed one names any |
| `Schedulers.Scheduler.DispatchTo` | `pkg/reef/server/scheduler.go:196-219` | a created or queued task runs on the client, which has one slot less; a failed hook leaves it Queued without a client and gives the slot back; a task in any other status changes nothing |
| `Schedulers.Scheduler.DrainQueue` | `pkg/reef/server/scheduler.go:97-126` | the loop ends, with the queue empty or a dispatch failed, having taken one legal turn per queued task over shared task objects |
| `Schedulers.Scheduler.ReturnHeld` | `pkg/reef/server/scheduler.go:128-131` | the tasks held aside are enqueued again in order |
| `Schedulers.Scheduler.TryDispatch` | `pkg/reef/server/scheduler.go:93-132` | refines the value-level dispatch step, and every client it chooses plays the role of the task and has each of its skills |
| `DispatchChoices.ChoicesInRuns` | `pkg/reef/server/scheduler.go:103-119` | in every run, at every turn of every call: aside only if each connected client with a free slot that did not fail last plays another role or lacks a skill; otherwise to such a client with the role and all skills, of least load |
| `DispatchChoices.ChangesInRuns` | `pkg/reef/server/scheduler.go:196-219` | in every run a call changes exactly this: dispatched tasks run on their client, refused ones are Queued without one, all others are untouched, and loads grow by the dispatches counted per client |
| `DispatchChoices.FailedClientIsAvoided` | `pkg/reef/server/scheduler.go:103-109` | over runs: after an accepted report whose last attempt failed, no call sends the task to the client it names, or to the one it ran on if it names none, until it is reported on or filed again |
| `Schedulers.Scheduler.Submit` | `pkg/reef/server/scheduler.go:71-88` | files the task; one that can be queued is Queued or dispatched afterwards, and succeeds exactly if the queue has room; any other keeps its status, and nothing is dispatched |
| `Schedulers.Scheduler.RegisterTask` | `pkg/reef/server/scheduler.go:472-476` | files a task without queueing it |
| `Schedulers.Scheduler.HandleTaskCompleted` | `pkg/reef/server/scheduler.go:222-295` | a running, failed or paused task is Completed with the reported result and no client, its error cleared unless it was running, and one slot of that client is freed; nothing else changes |
| `Schedulers.Scheduler.HandleTaskFailed` | `pkg/reef/server/scheduler.go:298-393` | the old attempts are a prefix of the new; the added ones have the reported statuses in order, each with the client it names or else the one the task ran on, or are one failed attempt there for an empty report; the slot is freed, and the task is Escalated at the limit, Queued once more if another client serves it, Failed otherwise |
| `HandlerEffects.FailureIs` | `pkg/reef/server/scheduler.go:298-393` | the failure handler field by field: attempts, error, slot, status, escalations and queue in each of its three outcomes |
| `HandlerEffects.CompletionIs` | `pkg/reef/server/scheduler.go:222-295` | completion and late completion field by field |
| `Schedulers.Scheduler.HandleTaskTimedOut` | `pkg/reef/server/scheduler.go:397-430` | a running task is Failed with the error and no client, and one slot of that client is freed; any other task stays as it is |
| `Schedulers.Scheduler.HandleTaskPaused` | `pkg/reef/server/scheduler.go:434-456` | a running task is Paused with the reason and keeps its client and slot; any other stays as it is |
| `Schedulers.Scheduler.Decide` | `pkg/reef/server/scheduler.go:498-506` | to the administrator exactly at the escalation limit, reassignment exactly below it if a connected client other than the failed one with a free slot has the role and the skills, termination otherwise |
| `Schedulers.FillIn` | `pkg/reef/server/scheduler.go:317-332` | the reported statuses in order, each with the client it names or else the failed one; an empty report becomes one failed attempt on that client |
| `DispatchTheorems.NoTaskIsLost` | `pkg/reef/server/scheduler.go:93-132` | queued before = dispatched + left, as multisets of IDs, even when the hook fails; so no put-back meets a full queue |
| `DispatchTheorems.OrderIsKept` | `pkg/reef/server/scheduler.go:128-131` | without a failing dispatch the tasks left keep their dequeue order and their ranks |
| `DispatchTheorems.OrderIsKeptIff` | `pkg/reef/server/scheduler.go:93-132` | whatever the hook answers: the order is kept exactly if no dispatch failed, or no other undispatched task has the rank of the one that failed |
| `DispatchTheorems.FailedCall` | `pkg/reef/server/scheduler.go:119-131` | what a call that fails leaves: around the failing task, the queued tasks of its rank come first and those held aside of its rank last; higher and lower ranks stay |
| `DispatchTheorems.FailureCanReorder` | `pkg/reef/server/scheduler.go:122-131` | a state in which a failing hook makes two tasks swap |
| `DispatchTheorems.WorkConserving` | `pkg/reef/server/scheduler.go:90-132` | without a failing dispatch no task left in the queue has a client that is available, matching and not excluded |
| `DispatchTheorems.DispatchIsSound` | `pkg/reef/server/scheduler.go:93-205` | every turn takes the next task of the queue and is the right one: aside exactly if no client is connected, suitable, not excluded and free, and otherwise to one of those of least load, counting the earlier dispatches of the call |
| `DispatchTheorems.CallEnds` | `pkg/reef/server/scheduler.go:97-126` | a call goes through the whole queue unless a dispatch fails |
| `DispatchTheorems.DispatchInRuns` | `pkg/reef/server/scheduler.go:71-132` | in every run that submits no task while it waits, whatever the loads are, every dispatch call - on its own or inside a submission - loses no task, takes the right turns and keeps the order exactly as above; unless a dispatch fails it goes through the queue and leaves nothing dispatchable |
| `StuckTasks.NothingSticks` | `pkg/reef/server/scheduler.go:71-456` | no handler of the scheduler makes a queued task undispatchable |
| `StuckTasks.StuckEntryEnds` | `pkg/reef/server/scheduler.go:119-126` | a call that comes to a task no dispatch can take ends there exactly if some client fits that task; then it reached only tasks ranked before it, or equal and ahead of it |
| `StuckTasks.CallIsVainIff` | `pkg/reef/server/scheduler.go:119-131` | with such a task at the head and a client for it, a call dispatches nothing; it changes nothing exactly if the head has no equal, and otherwise the next call begins with another task |
| `StuckTasks.BlocksForGood` | `pkg/reef/server/scheduler.go:93-132` | such a head without an equal blocks the queue in every run as long as nothing of its rank or above enters and its client stays as it is |
| `SchedulerInvariant.DispatchedKeepsQueue` | `pkg/reef/server/scheduler.go:93-132` | TryDispatch keeps the queue sound, whatever the loads are and the hook answers: known tasks in rank order, each once, none running or blocked |
| `SchedulerInvariant.DispatchedKeepsInv` | `pkg/reef/server/scheduler.go:93-132` | and it keeps slot accounting, capacity and the escalation limit too |
| `SchedulerInvariant.PutBackKeepsQueue` | `pkg/reef/server/scheduler.go:128-131` | putting the held tasks back keeps the queue sound |
| `SchedulerInvariant.UnsendRestores` | `pkg/reef/server/scheduler.go:208-216` | a failed hook leaves the loads as they were and the task Queued; the load it lowers is positive |
| `SchedulerRuns.RunKeepsQueue` | `pkg/reef/server/scheduler.go:71-456` | the queue is sound in every state of every run that files and submits no task while it waits |
| `SchedulerRuns.StepKeepsInv` | `pkg/reef/server/scheduler.go:71-456` | every handler keeps queue and books in a clean step |
| `SchedulerRuns.RunKeepsInv` | `pkg/reef/server/scheduler.go:196-456` | in every state of every clean run each client's load is the number of tasks running or paused on it, within its capacity |
| `SchedulerRuns.ClampFiresIff` | `pkg/reef/server/registry.go:151-162` | a handler finds the load it lowers at zero exactly when a failed task is completed whose client has nothing to do; in every other case the clamp does not apply |
| `SchedulerRuns.CompletionAccounts` | `pkg/reef/server/scheduler.go:248-287` | a completion keeps the accounting exactly when it does not release a slot that a failure report already released |
| `Examples.LateCompletionMiscounts` | `pkg/reef/server/scheduler.go:248-287` | a run from a fresh scheduler, clean up to its last step, that ends in a failure report and a completion of the same task and miscounts |
| `SchedulerRuns.ReassignedUnlessFull` | `pkg/reef/server/scheduler.go:340-382` | a failed task is Queued again exactly on reassignment, and in the queue exactly when there was also room |
| `EscalationBound.EscalationsBoundAttempts` | `pkg/reef/server/scheduler.go:298-393` | in every run in which a task is filed and submitted once, or again only while it waits, its escalation count stays within the limit, and it is dispatched, and accepts failure reports, at most limit + 1 times |
| `DagEngines.MemoryStore.SaveTask` | `pkg/reef/server/store/memory.go:30-43` | stores a copy unless the ID is taken |
| `DagEngines.MemoryStore.GetTask` | `pkg/reef/server/store/memory.go:46-55` | a fresh copy of the stored record |
| `DagEngines.MemoryStore.UpdateTask` | `pkg/reef/server/store/memory.go:58-70` | replaces the record of a known ID |
| `DagEngines.MemoryStore.SaveRelation` | `pkg/reef/server/store/memory.go:165-171` | appends the child and remembers its parent |
| `DagEngines.DAGEngine.FindTask` | `pkg/reef/server/dag_engine.go:208-214` | the scheduler's live object, or else a copy from the store |
| `DagEngines.DAGEngine.AllSubTasksDone` | `pkg/reef/server/dag_engine.go:198-220` | true exactly for a non-empty plan of terminal sub-tasks, failing at the first missing one before an unfinished one |
| `DagEngines.DAGEngine.CheckUnblock` | `pkg/reef/server/dag_engine.go:222-265` | the loop moves each sub-task that is ready at its turn to Queued, in scheduler and store, and returns those objects |
| `DagEngines.DAGEngine.CreateSubTasks` | `pkg/reef/server/dag_engine.go:33-95` | succeeds exactly if there are plans and every generated ID is free; then each plan is stored with its role, skills and dependencies, the priority and ID of the parent, Blocked exactly if it has dependencies, all are listed under the parent in order, and those without dependencies are submitted; on a taken ID nothing reaches the scheduler |
| `DagSafety.CreationIs` | `pkg/reef/server/dag_engine.go:44-75` | creation plan by plan: the records stored, the relations, and when it fails |
| `DagEngines.DAGEngine.OnSubTaskCompleted` | `pkg/reef/server/dag_engine.go:110-151` | reports a finished plan and moves its parent, or releases the ready sub-tasks through the scheduler |
| `DagEngines.DAGEngine.OnSubTaskFailed` | `pkg/reef/server/dag_engine.go:154-196` | fails the dependent siblings, in scheduler and store |
| `DagSafety.UnblockIsExact` | `pkg/reef/server/dag_engine.go:222-265` | checkUnblock releases exactly the sub-tasks that were ready when it began, each once, although it changes statuses as it goes |
| `DagSafety.DagStepKeeps` | `pkg/reef/server/dag_engine.go:33-265` | every step of the engine and of the scheduler keeps DAG safety |
| `DagSafety.DependenciesFirst` | `pkg/reef/server/dag_engine.go:246-262` | in every state of every run a sub-task the scheduler knows has all its dependencies Completed |
| `DagSafety.CompletedForGood` | `pkg/reef/task.go:43-57` | a task found Completed is found Completed in every later state, with the same dependencies |
| `DagSafety.SubIdsDiffer` | `pkg/reef/server/dag_engine.go:46` | generated sub-task IDs never collide |
| `DagProgress.AllDoneIff` | `pkg/reef/server/dag_engine.go:198-220` | a plan is done exactly when it is not empty and all its sub-tasks are found terminal |
| `DagProgress.AllDoneFailsIff` | `pkg/reef/server/dag_engine.go:198-220` | the search errs exactly if a missing sub-task comes before any that is not terminal |
| `DagProgress.AggregatesOnlyWhenDone` | `pkg/reef/server/dag_engine.go:121-132` | in any step, a task becomes Aggregating only by the report that finds all its sub-tasks terminal |
| `DagProgress.ParentAggregatesIff` | `pkg/reef/server/dag_engine.go:127-130` | the finished plan's parent becomes Aggregating exactly if it was Created or Queued (or is already); a Running parent is left as it is |
| `DagProgress.AggregationSticksIff` | `pkg/reef/server/dag_engine.go:127-130` | moving the parent keeps the queue sound, and leaves it free of tasks no dispatch can take exactly if the parent does not wait in it |
| `DagProgress.ReportMakesProgress` | `pkg/reef/server/dag_engine.go:110-151` | with acyclic sibling dependencies, once every released sub-task has ended and none that is not Completed is under a waiting one, the report finds the plan done or releases another ready sub-task |
| `DagProgress.RoundsAreBounded` | `pkg/reef/server/dag_engine.go:110-151` | so in any run a plan needs at most as many such rounds as it has sub-tasks waiting |
| `DagFailure.FailureHitsOnlyWaiting` | `pkg/reef/server/dag_engine.go:154-196` | a failure report fails exactly the dependent siblings, none of which the scheduler knows, so no running task is touched |
| `DagFailure.FailureStrandsIff` | `pkg/reef/server/dag_engine.go:154-196` | the first failure reported in a plan strands exactly the waiting sub-tasks under the failed one, at any depth: direct dependents fail with it, those further down stay blocked |
| `DagFailure.FailureStrands` | `pkg/reef/server/dag_engine.go:154-265` | once stranded - failed before its release, or blocked under a stranded one - a sub-task is never released and never Completed, in every run, and nothing that depends on it is released either |
| `DagFailure.StrandedHoldsPlan` | `pkg/reef/server/dag_engine.go:198-220` | a stranded sub-task that is still blocked keeps its plan from ever being found done, until a failure of one it depends on itself is reported |
| `DagFailure.PlanEndsIff` | `pkg/reef/server/dag_engine.go:198-265` | when nothing of an acyclic plan runs or can be released and its failures are reported, it is done exactly if no sub-task is blocked under a stranded one |
| `DagFailure.PlanEndsInRunIff` | `pkg/reef/server/dag_engine.go:110-196` | over a run: once its failures are reported, a plan that is later worked off is done exactly if those reports left no sub-task blocked under a stranded one |
| `DagFailure.ReportOutcome` | `pkg/reef/server/dag_engine.go:110-151` | a report on a plan whose released sub-tasks have ended releases more exactly if one is ready, and otherwise finds the plan done exactly if none is stranded |
| `DagRuns.DagRunKeepsQueue` | `pkg/reef/server/dag_engine.go:33-265` | the scheduler's queue is sound in every state of every run of engine and scheduler: nothing queued runs or is blocked |
| `DagRuns.DagRunKeepsBooks` | `pkg/reef/server/dag_engine.go:33-265` | what the engine releases are clean submissions, so in clean runs of both every load is the number of tasks on the client |
| `DagRuns.DagBlocksForGood` | `pkg/reef/server/dag_engine.go:127-130` | in runs of engine and scheduler too, a stuck head without an equal blocks the queue |
| `Examples.QueueCanBeBlocked` | `pkg/reef/server/dag_engine.go:121-132` | a run from a fresh engine to a parent, aggregated while it waited, that blocks the queue before a dispatchable task |
| `Examples.PlanCanBeStranded` | `pkg/reef/server/dag_engine.go:154-196` | a run from a fresh engine in which one failure among three sub-tasks leaves the last blocked under a stranded one |
| `Schedulers.Scheduler.QueuedMayWait` | `pkg/reef/server/scheduler.go:298-347` | a sound queue holds no running and no blocked task object, which HandleTaskFailed and OnSubTaskCompleted count on |
| `ReefFSMs.ReefFSM.Apply` | `pkg/reef/raft/types.go:494-824` | each of the 21 commands in terms of the five maps: which fields of which entry get which values, that everything else stays, and when it errs; appliedIndex moves for every decodable normal entry, failed or not |
| `CommandLaws.StatusIsLastFixed` | `pkg/reef/raft/types.go:494-824` | after any log the status of a task is the one fixed by the last command on it that fixes one |
| `CommandLaws.StatusStays` | `pkg/reef/raft/types.go:494-824` | commands that fix no status of a task leave its status and neither add nor remove it |
| `CommandLaws.EscalationsAreCounted` | `pkg/reef/raft/types.go:494-824` | after any log the escalations of a task are the count it was last entered with plus the number of escalation commands since |
| `ReefFSMs.ReefFSM.Snapshot` | `pkg/reef/raft/types.go:826-840` | encodes the five maps and remembers the applied index |
| `ReefFSMs.ReefFSM.Restore` | `pkg/reef/raft/types.go:842-880` | replaces the maps whatever they were, missing ones by empty ones; a corrupt snapshot changes nothing |
| `ReefFSMs.ReefFSM.Equal` | `pkg/reef/raft/types.go:882-891` | true exactly for equal maps |
| `ReefFSMs.ReefFSM.ShouldCompact` | `pkg/reef/raft/types.go:909-916` | true exactly if a threshold is set and, while the log is applied forwards, more entries than it were applied since the snapshot; after a replay of older entries, unless the threshold exceeds what is left of the 64 bits |
| `ReefFSMs.Replay` | `pkg/reef/raft/types.go:494-824` | applying a log entry by entry gives the maps its decodable commands determine |
| `ReplicatedState.KeysAreIndependent` | `pkg/reef/raft/types.go:506-822` | for every log, the entry under a key is what the commands naming that key alone produce |
| `ReplicatedState.DifferentKeysCommute` | `pkg/reef/raft/types.go:506-822` | commands on different keys commute, with the same errors |
| `ReplicatedState.ErrorsChangeNothing` | `pkg/reef/raft/types.go:506-822` | a command that reports an error changes none of the five maps |
| `ReplicatedState.AppliedAt` | `pkg/reef/raft/types.go:506-822` | a command touches no cell but the one it names |
| `ReplicatedState.SnapshotThenSuffix` | `pkg/reef/raft/types.go:826-880` | for every log and split point, restoring a snapshot of the prefix and applying the suffix gives the maps of the whole log |
| `LogStore.KeysSortAsIndices` | `pkg/reef/raft/types.go:264` | byte order of the zero-padded keys is numerical order of the 64-bit indices, and different indices have different keys |
| `LogStore.BoltStore.SaveEntries` | `pkg/reef/raft/types.go:256-271` | an index written to keeps the last entry written for it, every other index what it had |
| `LogStore.LastWriteWins` | `pkg/reef/raft/types.go:256-271` | of several entries for one index the last is the one kept |
| `LogStore.BoltStore.LoadEntries` | `pkg/reef/raft/types.go:273-295` | seeking and stopping at the first larger index returns the entries between the bounds |
| `LogStore.BetweenIsExact` | `pkg/reef/raft/types.go:273-295` | which are exactly the stored entries with lo <= index <= hi, in index order |
| `Tokens.Tokenize3Grams` | `pkg/reef/evolution/server/gate.go:440-465` | the set of three-word windows of the cleaned text; empty exactly below three words |
| `Tokens.ShinglesAreWindows` | `pkg/reef/evolution/server/gate.go:461-463` | joining words with spaces loses nothing: equal shingles are the same three words |
| `Tokens.WordFreqVector` | `pkg/reef/evolution/server/gate.go:548-575` | each counted word with its number of occurrences |
| `Tokens.FieldsAtSpace` | `pkg/reef/evolution/server/gate.go:454` | splitting at a space splits into the words before and after it |
| `Tokens.FieldsOfWord` | `pkg/reef/evolution/server/gate.go:454` | a word without a space is split into itself |
| `Tokens.CharactersKept` | `pkg/reef/evolution/server/gate.go:440-557` | which characters each of the two tokenizers blanks and which it keeps |
| `Similarity.JaccardSimilarity` | `pkg/reef/evolution/server/gate.go:468-484` | the derived denominator is the true size of the union; two empty sets are identical |
| `Similarity.JaccardMeasures` | `pkg/reef/evolution/server/gate.go:468-484` | between 0 and 1, symmetric, 1 exactly for equal sets, 0 exactly for sets that share nothing |
| `Similarity.JaccardIsShare` | `pkg/reef/evolution/server/gate.go:468-483` | the ratio is the size of the intersection over that of the union |
| `Similarity.CosineSimilarity` | `pkg/reef/evolution/server/gate.go:488-544` | the exact dot product and magnitudes; both computations in the code agree |
| `Similarity.BothComputationsAgree` | `pkg/reef/evolution/server/gate.go:502-536` | summing over each vector's own words gives what summing over all words gives |
| `Similarity.DotIsBounded` | `pkg/reef/evolution/server/gate.go:526-543` | Cauchy-Schwarz: the squared dot product is at most the product of the squared magnitudes, for all word vectors |
| `Similarity.CosineMeasures` | `pkg/reef/evolution/server/gate.go:488-544` | symmetric, at most 1, 0 exactly when no word is shared; magnitudes of non-empty vectors are positive |
| `Similarity.CompareShingles` | `pkg/reef/evolution/server/gate.go:398-418` | finds a gene whose Jaccard reaches the threshold exactly when there is one, and otherwise gives the largest Jaccard |
| `Similarity.CompareWords` | `pkg/reef/evolution/server/gate.go:421-433` | finds a gene the square of whose cosine is at least the square of the threshold exactly when there is one, and otherwise gives the largest cosine |
| `Similarity.ReachesIff` | `pkg/reef/evolution/server/gate.go:428` | a threshold is reached if some number from it on is at most the cosine; otherwise every number at most the cosine is below it; and exactly if the squared cosine is at least its square |
| `Similarity.ReviewLayer2` | `pkg/reef/evolution/server/gate.go:369-437` | rejects exactly a candidate with shingles for which the Jaccard of some gene is at least the threshold, or all are 0 and the square of some cosine is at least the square of the threshold; reports the largest similarity of an accepted one; passes when disabled or when the store fails |
| `Similarity.OrderDoesNotMatter` | `pkg/reef/evolution/server/gate.go:398-433` | the verdict does not depend on the order of the existing genes |
| `Leadership.RaftNode.TrackLeadership` | `pkg/reef/raft/node.go:723-753` | stores the leader and fires exactly the edge the soft state is |
| `Leadership.LeaderedServer.constructor` | `pkg/reef/raft/leadered.go:64-106` | wires the callbacks and catches up with a node that already leads |
| `Leadership.LeaderedServer.OnBecomeLeader` | `pkg/reef/raft/leadered.go:176-196` | opens one new channel unless the flag is up |
| `Leadership.LeaderedServer.OnLoseLeadership` | `pkg/reef/raft/leadered.go:198-209` | closes the current, open channel if the flag is up |
| `Leadership.LeaderedServer.Deliver` | `pkg/reef/raft/node.go:723-753` | a soft state takes the server through one step while the ready loop runs; no closed channel is closed again |
| `Leadership.LeaderedServer.BeginStop` | `pkg/reef/raft/leadered.go:119-126` | the locked section of Stop closes the open channel, once |
| `Leadership.LeaderedServer.EndStop` | `pkg/reef/raft/leadered.go:128-134` | the rest of Stop ends the ready loop, after which no soft state has an effect |
| `Leadership.LeadershipAlternates` | `pkg/reef/raft/leadered.go:176-210` | for every sequence of soft states and halves of Stop: callbacks alternate, no channel is closed twice, at most one is open, and until Stop begins the flag is up exactly while the node leads |
| `Leadership.StartsThenStops` | `pkg/reef/raft/node.go:723-758` | from a node without a leader the callbacks begin with a start |
| `Leadership.FlagIsUpIff` | `pkg/reef/raft/leadered.go:119-135` | at any time the flag is up exactly when the node leads and Stop did not begin in this very term |
| `Leadership.OpenForGoodIff` | `pkg/reef/raft/leadered.go:119-135` | when Stop has ended the ready loop nothing changes any more, and a channel is left open exactly if the node leads at that moment in a term that began after Stop did |
| `Leadership.LeadingAgainAfterStop` | `pkg/reef/raft/node.go:428-440` | a node that loses and regains leadership while Stop waits for the ready loop leaves a channel open for good |
| `Genes.Gene.TruncateControlSignal` | `pkg/reef/evolution/client/evolver.go:637-663` | cuts by bytes, then by lines, and caps the warnings |
| `Genes.SplitJoins` | `pkg/reef/evolution/client/evolver.go:651-653` | Split gives as many pieces as there are lines, and Join undoes it |
| `Genes.TruncatedIsLongest` | `pkg/reef/evolution/client/evolver.go:637-663` | the truncated signal is the longest prefix of the original within both limits |
| `Genes.TruncatedToNothing` | `pkg/reef/evolution/client/evolver.go:637-663` | it is empty exactly when the signal was, or when one line is allowed and the first is empty |
| `Genes.Gene.CheckSyntax` | `pkg/reef/evolution/client/gate.go:142-161` | passes exactly a named gene with a non-empty signal within the limits |
| `Genes.Gene.Validate` | `pkg/reef/evolution/gene.go:49-72` | no error exactly for a named gene with a non-empty signal within the fixed limits |
| `Genes.GenerateGene` | `pkg/reef/evolution/client/evolver.go:413-452` | a decoded answer that names a strategy becomes version 1, a draft, with the given ID, the events in order, the client of the first, its warnings up to twenty and the longest prefix of its signal within the limits; within the limits of the validators it meets every bound of both |
| `Genes.GeneratedGenePasses` | `pkg/reef/evolution/client/evolver.go:413-452` | under default limits a named gene passes checkSyntax and Validate exactly when the model gave it a control signal |
| `Genes.MergeSources` | `pkg/reef/evolution/client/evolver.go:482-496` | known and new source events, each once, where it first occurs |
| `Genes.FirstsAre` | `pkg/reef/evolution/client/evolver.go:482-496` | no event is lost or listed twice |
| `Genes.FirstsExtend` | `pkg/reef/evolution/client/evolver.go:480-496` | the source events already recorded keep their place at the front |
| `Genes.FirstsKeepOrder` | `pkg/reef/evolution/client/evolver.go:484-496` | events keep the order in which they first occur |

## Left out

- PriorityQueues.PriorityQueue.BoostStarvation: the exact visit-once result is proved for a boost that is not negative with no priority above the cap; outside that only soundness of the queue is.
- PriorityQueues.PriorityQueue.Enqueue: requires an ID that is not queued yet; with a duplicate the code overwrites the index entry, and both items stay in the heap.
- Queues.Queue.Enqueue: requires an ID that is not queued yet, for both queues.
- Schedulers.Scheduler.Submit: requires an ID that does not wait in the queue.
- Schedulers.Scheduler.RegisterTask: requires an ID that does not wait in the queue.
- SchedulerRuns.RunKeepsInv: for clean runs; `CompletionAccounts` and `RegistrationAccounts` say exactly which completions and registrations break the accounting. The server registers a reconnecting client at load 0, which is true only if no task is paused on it.
- Schedulers.Scheduler.HandleTaskFailed: requires that no running task waits in the queue, which `QueuedMayWait` derives from `RunKeepsQueue`.
- DagEngines.DAGEngine.OnSubTaskCompleted: requires that no blocked task waits in the queue, which `QueuedMayWait` derives from `DagRunKeepsQueue`.
- DagEngines.DAGEngine.CreateSubTasks: requires that a generated ID the scheduler knows is taken in the store too.
- Similarity.CosineSimilarity: the cosine is kept as its exact numerator and squared magnitudes, and compared by squaring; floating-point rounding is outside the model.
- Lower case is a function on single characters, left open.
- Clients are values inside the registry; that callers hold pointers to them is not modelled.
- `AffinityStrategy`: floating scores with a sentinel.
- `HandleTaskResumed`: the table has no edge from Paused to Queued, so it queues a Paused task.
- `HandleTaskCancelled`: it does not free a slot.
- The persistent queues and `restoreFromStore`.
- Queue expiry and the starvation sweep as steps of scheduler runs; both are proved on the queue alone.
- Interleaving inside one handler or one dispatch call, locks, and callbacks' contents.
- Integer widths, except where the code subtracts 64-bit indices.
- JSON text (a payload is what it decodes to), clocks (times are integers), logging, errors' wording.
- The file database behind the log bucket: seeking and stepping a cursor are modelled as finding the first key admitted.
- `TruncateEntries`, `CompactLog`, restart, replay from disk, transports and the raft library.
- `BuildAggregationMessage`, progress reports, notifications and webhooks.
- The safety patterns and the regression layer of the gatekeepers, prompts, and calls to language models.
