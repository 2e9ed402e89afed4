# Verification of the orchestrator core

A Dafny 4.11 model of the agent orchestrator's core, with proofs about every
run of it: the life of a task across scheduler, engine, agent registry and
store; workflows on top of it; and the rate limiter, throughput history,
configuration tree and bounded executor.

`dafny verify dfyconfig.toml` checks everything.

## How the model is laid out

The orchestrator is a set of coroutines on one event loop, so what matters is
what holds whenever one of them awaits. Each block of code between two awaits
is one step.

* **Specification functions on values.** `StableQueue`, `Scheduling`,
  `Registry`, `Lifecycle`, `WorkflowSpec`, `WorkflowRunSpec`, `RateLimit`,
  `Configuration` and `ExecutorSpec` say what each step does to the state.
  `Lifecycle` is the machine: submit, poll (dequeue and spawn), begin an
  execution, finish it, fail it, register or delete an agent, set an agent's
  status, and crash. A crash may hit in the middle of a step, after any number
  of its store writes, and the new process reads the tables in any order.
* **Classes, as the source has them.** `PriorityQueue` (a binary heap),
  `TaskScheduler`, `SqliteStore`, `Agent`, `AgentRegistry`,
  `OrchestrationEngine`, `WorkflowStep`, `Workflow`, `WorkflowManager`,
  `WorkflowRun`, `RateLimiter`, `Config` and `AgentExecutor` have the fields of
  the source's objects and one method for each block. Every method is proved to
  take the abstract state to what the specification function says. Agents are
  heap objects, because an execution goes on holding the dict of an agent that
  was deleted meanwhile.
* **What each step does.** The effect modules say it once more, field by field
  and without the specification functions: which record, queue entry, agent row,
  outcome and stored row a step leaves behind, and in which order it writes. The
  store object keeps a log of its writes, and the engine's methods are proved to
  write exactly those of the event, in that order; so the states that a crash can
  leave are those of the code.
* **Theorems over runs.** The other modules prove what the states of all runs
  have in common, and what a run from one state to another preserves.

| question | module |
|---|---|
| what exactly does each step do, and in which order does it write | `SchedulerEffects`, `EventEffects`, `RestartEffects`, `WorkflowEffects` |
| where is a task, and what does the store hold of it | `TaskInvariant`, `LifecycleInvariant`, `CrashSafety` |
| which task is dispatched next | `PriorityQueues`, `DispatchRefinement` |
| are delayed tasks early or lost | `DelayedTasks` |
| do metrics add up, how often is a task dispatched | `Bookkeeping` |
| does the throughput history miss an end | `OutcomeHistory`, `Throughput`, `RunThroughput` |
| does the work come to an end | `Drain` |
| is an agent's status restored, does a deleted agent stay deleted | `StatusBrackets`, `StatusTraces`, `DeletedAgents` |
| what does a workflow run guarantee | `WorkflowSpec`, `WorkflowSequencing`, `WorkflowTimeouts`, `WorkflowCrash` |
| for which clocks is the request limit kept, when does the order of overrides matter | `RateLimitClock`, `OverrideOrder` |

Where the natural statement is false of the code, the exact condition is
proved, in both directions and for all inputs:

* `RateLimitClock.BoundIff`: the rate limiter keeps its bound for whatever
  arrives at the readings of a clock, if and only if the limit is at most one
  or the clock never comes back to within a window of a reading after showing
  one at least a window later.
* `StatusTraces.RestoredIff`: executions of an agent, any number of them and
  interleaved in any way, give it its status back if and only if that was
  "running" or the last end leads back, from end to begin to the end before
  it, to the start. Two crossing executions leave it running
  (`StatusBrackets.OverlapLeavesRunning`), and a pending agent can get there
  from every first start (`StatusTraces.PendingOverlapReachable`).
* `RateLimitClock.RefusalIff`: exactly those requests are refused whose client's
  whole history fills the trailing window, if and only if the limit is not
  positive or no reading leaves the window at another one and is back in it later
  without that other one filling the limit by itself.
* `RunThroughput.ThroughputIff`: the buckets add up to the tasks that ended in
  their span if and only if the history has forgotten none of those; with a clock
  that does not run backwards (`RunThroughput.ExactIffFewEnds`), if and only if no
  more tasks have ended since the start of the window than the history keeps, or
  none of them counts.
* `OverrideOrder.EnvironmentOrderMattersIff`: the order of the environment does
  not matter if and only if no override lies below another and equal keys have
  equal values, or one of the overrides cannot be set on its own.
* `ExecutorSpec.StartsAfterShutdownIff`: after a shutdown a handler can still
  start if and only if an execution had been granted a permit, or one waits and
  there are permits at all.
* `Configuration.PutFails`, `WorkflowSpec.SuccessMeansCompleted` (a step with a
  negative retry count is skipped but counts as passed),
  `WorkflowSpec.RewriteIsIdentityOnCanonical` (which dicts are written back
  unchanged) and `Throughput.EveryOutcomeHasOneBucket` (an outcome at the
  present moment is dropped when that is a bucket edge).
* `Drain.DropsIff`: for any prices of a dispatch, of waiting and of a spawned
  execution, a step lowers the work at those prices if and only if it pays, which
  can be told before the step. At three, two and one every productive step pays, so
  runs are bounded (`Drain.WorkBoundsRuns`). At two, one and nothing all pay but a
  begin that finds its agent (`Drain.CoarseDropsIff`, with the witness
  `Drain.CoarseWorkStalls`).

## Assumptions

* Time is an integer that comes with each step; a block reads the clock once.
  Clocks are monotone only where a lemma says so.
* Ids of new tasks, agents and executions are unused (they are version 4 UUIDs).
* Handlers and hooks are oracles: handlers return or raise anything, and do not
  change the dicts they are given; hooks neither raise nor suspend. A completion
  hook that raises would turn a completed record into a failed one.
* Handlers of the executor do not swallow a cancellation, and its semaphore
  serves waiters in order and hands a released permit to the first of them.
* One run per workflow at a time, no deletion during it, and dicts as payloads
  of task steps. The process lives on through a run; what a crash in the middle
  leaves, even between two store writes of a block, is in `WorkflowCrash`.
* Two features of the code to keep in mind when reading the claims: "running" is
  never persisted, and retries are not restored, so the retry budget counts per
  process lifetime.

## Model

| member | source | states |
|---|---|---|
| StableQueue.HeadIsFirstHighest | src/orchestrator/scheduler.py:14-21 | The head of a queue built by any pushes is the earliest push of the highest priority, and removing it leaves the queue that the remaining pushes build on their own. |
| StableQueue.InsertGoesBehindPeers | src/orchestrator/scheduler.py:14-16 | A push goes behind exactly the waiting items of at least its priority, and shifts only the others. |
| PriorityQueues.PushKeeps | src/orchestrator/scheduler.py:14-16 | A heap with one entry more, whose ticket is the counter, still has pairwise distinct tickets, all below the next counter, and pops its items in the order of a stable insertion. |
| PriorityQueues.PopKeeps | src/orchestrator/scheduler.py:18-21 | A heap without its root pops the same items in the same order, less the first. |
| PriorityQueues.SiftUp | src/orchestrator/scheduler.py:15 | Moving the last entry up restores the heap and permutes its entries; tuples with equal priority and counter are never compared, so comparison does not reach the dicts. |
| PriorityQueues.SiftDown | src/orchestrator/scheduler.py:20 | Moving a replaced root down restores the heap and permutes its entries, again without comparing dicts. |
| PriorityQueues.PriorityQueue.Push | src/orchestrator/scheduler.py:14-16 | The waiting items become those of a stable insertion of the new one. |
| PriorityQueues.PriorityQueue.Pop | src/orchestrator/scheduler.py:18-21 | Returns and removes the item first in dispatch order, None from an empty queue. |
| PriorityQueues.PriorityQueue.Peek | src/orchestrator/scheduler.py:23-26 | Shows the item first in dispatch order, None for an empty queue. |
| TaskSchedulers.TaskScheduler.constructor | src/orchestrator/scheduler.py:33-38 | A new scheduler holds nothing. |
| TaskSchedulers.TaskScheduler.Enqueue | src/orchestrator/scheduler.py:40-51 | Resolves a missing or empty id, stamps the task and inserts it stably into its own queue; no other queue changes. |
| TaskSchedulers.TaskScheduler.Schedule | src/orchestrator/scheduler.py:53-57 | The task waits under its id until its due time, replacing an earlier one of the same id. |
| TaskSchedulers.TaskScheduler.PromoteDueTasks | src/orchestrator/scheduler.py:59-64 | Every due task, and no other, goes to its queue in order of scheduling. |
| TaskSchedulers.TaskScheduler.Dequeue | src/orchestrator/scheduler.py:66-74 | After promotion, hands out the first task of the queue's dispatch order and puts it in flight. |
| TaskSchedulers.TaskScheduler.Complete | src/orchestrator/scheduler.py:76-77 | Takes the task out of flight and says whether it was there. |
| TaskSchedulers.TaskScheduler.Fail | src/orchestrator/scheduler.py:79-89 | Takes the task out of flight and, while retries remain, puts it back into its queue with one more retry; says whether it did. |
| TaskSchedulers.TaskScheduler.PendingCount | src/orchestrator/scheduler.py:91-93 | The number of tasks waiting in a queue, none for an unknown one. |
| DispatchRefinement.DispatchIsStablePriority | src/orchestrator/scheduler.py:40-89 | Over every sequence of enqueue, schedule, dequeue, complete and fail, the scheduler gives the replies of one that keeps lists in order of arrival and picks the first arrival of the highest priority. |
| DispatchRefinement.RetryGoesBehindItsPeers | src/orchestrator/scheduler.py:79-89 | A retried task comes behind every waiting task of at least its priority and before all others. |
| SchedulerEffects.EnqueueEffect | src/orchestrator/scheduler.py:40-51 | A task is queued with the target, payload, queue and priority it was handed in with, under its own id if that is not empty, and with its own stamps if it has any; it joins its queue behind its peers, and nothing else changes. |
| SchedulerEffects.PromoteEffect | src/orchestrator/scheduler.py:59-64 | A promoted task leaves the schedule and joins its queue as it was handed in. |
| SchedulerEffects.PromotedInOrder | src/orchestrator/scheduler.py:59-64 | Promotion is as if the due tasks of a queue had arrived just now, in the order in which they were scheduled. |
| SchedulerEffects.OldKeepsPlace | src/orchestrator/scheduler.py:53-57 | A task scheduled again under its id replaces the earlier one in its place. |
| SchedulerEffects.FailEffect | src/orchestrator/scheduler.py:79-89 | A failed task leaves flight; exactly while its retries are below the maximum it joins its queue again with one more, and nothing else changes. |
| DelayedTasks.NeverEarlyNeverLate | src/orchestrator/scheduler.py:59-67 | A dequeue promotes exactly the tasks that have fallen due, each into the queue and with the priority it was scheduled with. |
| DelayedTasks.NothingIsLost | src/orchestrator/scheduler.py:40-89 | With distinct ids, after any operations every id ever accepted is in exactly one of scheduled, queued, in flight and finished. |
| SqliteStores.Load | src/common/store.py:37-40 | Returns every row of the table once, in an unspecified order. |
| SqliteStores.SqliteStore.UpsertTask | src/common/store.py:55-56 | The row under the record's id becomes the record; no other row changes. |
| SqliteStores.SqliteStore.UpsertAgent | src/common/store.py:44-45 | The row under the agent's id becomes the given one; no other row changes. |
| SqliteStores.SqliteStore.DeleteAgent | src/common/store.py:47-48 | The row of the agent is gone; no other row changes. |
| SqliteStores.SqliteStore.UpsertWorkflow | src/common/store.py:63-64 | The row under the workflow's id becomes the dict; no other row changes. |
| SqliteStores.SqliteStore.DeleteWorkflow | src/common/store.py:66-67 | The row of the workflow is gone; no other row changes. |
| Registry.ListIsDirectFilter | src/agent/registry.py:60-67 | While the index is consistent, listing by status and group equals filtering all agents by status and first type segment; an empty group name does not filter. |
| Registry.RegisterConsistent | src/agent/registry.py:30-50 | Registering keeps every index list the duplicate-free list of its group's live ids. |
| Registry.DeleteConsistent | src/agent/registry.py:78-87 | Deleting keeps the index consistent and removes exactly the one agent. |
| Registry.RebuildConsistent | src/agent/registry.py:24-28 | The index rebuilt at start is consistent, whatever the order of the rows. |
| EventEffects.RegisterEffect | src/agent/registry.py:30-50 | A registered agent has the name, type and config it was given, is pending with both times now and no outcomes, in memory and store, and comes last in the group named by the first dot-separated segment of its type; no other group changes. |
| EventEffects.RegisteredIsListed | src/agent/registry.py:60-67 | It is then listed under that group and no other. |
| EventEffects.RemoveEffect | src/agent/registry.py:78-87 | A deleted agent is gone from memory and store and from the list of its group, of which it was one entry; nothing else changes. |
| EventEffects.SetStatusEffect | src/agent/registry.py:69-76 | A status change writes status and time of a known agent in memory and store, and nothing else. |
| AgentRegistries.AgentRegistry.constructor | src/agent/registry.py:19-28 | Holds the stored agents, with the index rebuilt in the order in which their rows came, or nothing without a store. |
| AgentRegistries.AgentRegistry.Register | src/agent/registry.py:30-50 | Adds a pending agent with the given name, type and config to memory, index and store, with one write, touching no other. |
| AgentRegistries.AgentRegistry.Touch | src/agent/registry.py:52-55 | Persists a registered agent as it is in memory; an unknown or deleted one is not written. |
| AgentRegistries.AgentRegistry.List | src/agent/registry.py:60-67 | Exactly the agents with the status whose first type segment is the group, each once, in the order in which they entered the registry. |
| AgentRegistries.AgentRegistry.UpdateStatus | src/agent/registry.py:69-76 | Changes status and time of a known agent in memory and store; an unknown agent changes nothing. |
| AgentRegistries.AgentRegistry.Delete | src/agent/registry.py:78-87 | Removes the agent from memory, index and store; an unknown agent changes nothing. |
| LifecycleInvariant.AdvanceKeepsInv | src/orchestrator/engine.py:109-363 | Every block of every coroutine keeps the task invariant, the agreement of registry, index and stored agents, and the agreement of stored and live task records. |
| LifecycleInvariant.WritesAreComplete | src/orchestrator/engine.py:90-92 | The store writes of a block, done one by one in the source's order, leave the store that the block as a whole leaves. |
| EventEffects.WritesInOrder | src/orchestrator/engine.py:319-361 | The writes of each event, in order: an ended execution writes its agent's status, then the task's record, then the agent with the new outcome; a deleted agent is not written. |
| LifecycleInvariant.TornDiskKeeps | src/orchestrator/engine.py:332-341 | A crash after any number of the writes of a block leaves a store that a new process can start from, with every recorded task still the same task and terminal rows untouched. |
| LifecycleInvariant.RestartFromKeeps | src/orchestrator/engine.py:58-76 | A new process satisfies the invariant, has exactly the stored tasks and agents, nothing in flight, and live tasks queued with no retries spent. |
| RestartEffects.RestartEffect | src/orchestrator/engine.py:58-76 | After a crash at any point the new process has exactly the rows of the store: ended tasks as they were, every other one marked queued and waiting once in its queue with its priority and no retries, nothing in flight, no outcomes, and every group listing its own agents once. |
| RestartEffects.RestartOrder | src/orchestrator/engine.py:62-75 | Each queue holds the requeued tasks in the dispatch order of their rows: by priority, and in the order of the rows among equals. |
| RestartEffects.CrashCanHappen | src/orchestrator/engine.py:90-92 | The process can die in the course of any event after any number of its writes. |
| LifecycleInvariant.RunKeepsInv | src/orchestrator/engine.py:291-363 | The invariant holds after every run, however executions interleave and wherever crashes fall. |
| CrashSafety.EveryTaskInOnePlace | src/orchestrator/engine.py:309-363 | After every run from a first start, with any interleaving and any crashes, a terminal task is in no queue, not in flight and has no execution; a running one is in flight with one execution; a queued or retrying one is once in its own queue and nowhere else or, between dispatch and begin, in flight. |
| CrashSafety.StoreFollowsMemory | src/orchestrator/engine.py:309-363 | After every such run with a store, memory and store hold the same tasks; no row says running; a terminal record equals its row, and a live one differs from it at most in its status. |
| CrashSafety.SubmitRecords | src/orchestrator/engine.py:109-132 | When submission returns, the task is queued once and on record in memory and store, with the target, payload, queue and priority that were asked for. |
| EventEffects.SubmitEffect | src/orchestrator/engine.py:109-132 | A submission to a known agent changes just these: the record, the task's place in its own queue behind its peers, and the stored row. |
| EventEffects.PollEffect | src/orchestrator/engine.py:299-301 | A poll puts the first task of the default queue, if there is one, in flight with a new execution, and changes nothing else. |
| EventEffects.BeginEffect | src/orchestrator/engine.py:309-330 | An execution that finds its agent remembers the agent's status and sets it to running in memory and store; the task's record is running in memory only. |
| EventEffects.UnfoundEffect | src/orchestrator/engine.py:319-359 | An execution whose agent is gone fails its task with "Agent not found: " and the agent's id. |
| EventEffects.FinishEffect | src/orchestrator/engine.py:331-341 | A finished execution completes the record with result and time, keeps whatever error an earlier attempt left, leaves flight, adds one outcome to the last 4999, and gives a registered agent its status back and one completion. |
| EventEffects.ErrorEffect | src/orchestrator/engine.py:350-361 | A raised error is kept in the record; while retries remain the task waits again with one more, otherwise it has failed and an outcome is added; a registered agent has its status back and one error. |
| CrashSafety.RunKeepsRecord | src/orchestrator/engine.py:334-359 | Over any run with any crashes no task is forgotten or changes identity, and a terminal record never changes again. |
| CrashSafety.SubmittedTasksSurvive | src/orchestrator/engine.py:58-76 | After any run and a crash at any point of it, a task on record is still the same task and is either terminal and nowhere, or queued exactly once with no retries spent. |
| CrashSafety.TerminalRowsAreFinal | src/orchestrator/engine.py:64-75 | A task with a persisted terminal status is never queued or run again, and its row never changes. |
| Bookkeeping.DoubleEntry | src/orchestrator/engine.py:334-361 | In one process lifetime the errors of a registered agent grow by the sum of its tasks' retry counters, and its completions by the number of its tasks that became completed; the counters are the ones in the task dicts while the tasks wait or are in flight. |
| Bookkeeping.RetryBudget | src/orchestrator/scheduler.py:79-89 | In one process lifetime a task is dispatched at most maxRetries + 1 times, exactly that often if it failed for good, and once more than it was retried if it completed. |
| Bookkeeping.RestartJustStarted | src/orchestrator/engine.py:58-76 | A restarted process is a start for those books: nothing in flight, no retries spent. |
| OutcomeHistory.OneEndAtMost | src/orchestrator/engine.py:334-359 | No event ends two tasks, and only the begin, finish or error of a task's own execution ends it. |
| OutcomeHistory.HistoryIsComplete | src/orchestrator/engine.py:48-358 | In one process lifetime the outcome history is the latest 5000 entries of everything that ended, in order: each task that became completed or failed for good once, with the time and kind of its end. |
| RunThroughput.ThroughputIff | src/orchestrator/engine.py:189-208 | For any clock and any number of ends in a process, the completed (or failed) counts of the buckets add up to the tasks that completed (or failed for good) from the start of the window to the last edge, less those the bounded history has forgotten; so to all of them if and only if it has forgotten none of them. |
| RunThroughput.ThroughputCountsTasks | src/orchestrator/engine.py:189-208 | With no ends in the future, the counts are those of the window, and of this moment if it is no bucket edge, if and only if none of these is forgotten, as when no more tasks have ended than the history keeps. |
| RunThroughput.ExactIffFewEnds | src/orchestrator/engine.py:48-208 | With a clock that does not run backwards all counts together are exact if and only if at most 5000 tasks have ended since the start of the window, or none of those counts. |
| RunThroughput.CompletedTasksAreCounted | src/orchestrator/engine.py:335-338 | The tasks so counted as completed in an interval are exactly those whose records say completed with a time in it, and which had not ended before. |
| Drain.StepWork | src/orchestrator/engine.py:295-303 | Without submissions and crashes, each dispatch, begin, finish and error lowers the work left on the default queue, and other events leave it as it is. |
| Drain.WorkBoundsRuns | src/orchestrator/engine.py:291-304 | So the number of such steps in any run is bounded by the work at its start. |
| Drain.ProgressWhileLive | src/orchestrator/engine.py:299-301 | The engine has such a step to make exactly as long as a task of the default queue is live. |
| Drain.OtherQueuesAreLeftAlone | src/orchestrator/engine.py:299 | Nothing but submissions to it changes a queue other than the default one. |
| Drain.DropsIff | src/orchestrator/engine.py:295-361 | At any prices for a dispatch left, for waiting and for a spawned execution, a step without submission or crash lowers the work if and only if it pays: a dispatch when waiting costs more than being spawned, a begin that finds its agent when being spawned costs anything, an end when what it gives up is worth more than the waiting of a retry. |
| Drain.CoarseDropsIff | src/orchestrator/engine.py:295-361 | Two for every dispatch left and one for waiting go down exactly at the productive steps other than a begin that finds its agent. |
| StatusBrackets.LastFinisherDecides | src/orchestrator/engine.py:324-332 | However executions of an agent overlap and whoever else writes its status meanwhile: if the end of one execution writes it last, the agent is left with the status it had when that execution began. |
| StatusBrackets.WellNestedRestores | src/orchestrator/engine.py:324-332 | For any well-nested executions of an agent, with anything else beside them, the status at the end is the one from the beginning. |
| StatusBrackets.PlayIsRun | src/orchestrator/engine.py:324-332 | Well-nested executions are runs of the machine. |
| StatusBrackets.OverlapLeavesRunning | src/orchestrator/engine.py:324-332 | If an execution begins while another has begun, with quiet events between, and its end, of either kind, is the last to write the agent's status, the agent is left running, whatever happened meanwhile; its earlier status is restored if and only if it was running. |
| StatusTraces.RestoredIff | src/orchestrator/engine.py:324-332 | Over any crash-free run that starts with none of its executions begun and in which only they write an agent's status, it is restored if and only if it was running at the start or the last end leads back to the start. |
| StatusTraces.PendingOverlapReachable | src/orchestrator/engine.py:299-332 | From every first start, a registration, two submissions and two polls lead to two executions of a pending agent that can overlap. |
| DeletedAgents.RegistryAgrees | src/agent/registry.py:24-87 | After every run the stored agents are the live ones, every index list has exactly its group's live ids without duplicates, and listing equals a direct filter of all agents. |
| DeletedAgents.DeleteMakesGone | src/agent/registry.py:78-87 | A deleted agent is in no index list, not in memory and not in the store. |
| DeletedAgents.DeletedStaysDeleted | src/orchestrator/engine.py:319-361 | Over every run, with its executions still under way and crashes anywhere, a deleted agent is never written back. |
| Engines.OrchestrationEngine.constructor | src/orchestrator/engine.py:25-76 | The engine starts empty, or as the machine restarts from the store's rows in some order. |
| Engines.OrchestrationEngine.RestoreState | src/orchestrator/engine.py:58-76 | Every stored task is on record again, and the unfinished ones are queued with their queue and priority. |
| Engines.OrchestrationEngine.SubmitTask | src/orchestrator/engine.py:109-132 | The submit event, with the record as it was asked for; an unknown agent is an error and changes nothing. |
| Engines.OrchestrationEngine.PollOnce | src/orchestrator/engine.py:299-301 | The poll event: one task of the default queue goes in flight with a new execution, if one waits. |
| Engines.OrchestrationEngine.BeginExecution | src/orchestrator/engine.py:309-330 | The begin event: the record runs in memory only, the agent's status is saved and set to running; without the agent the execution fails. |
| Engines.OrchestrationEngine.FinishExecution | src/orchestrator/engine.py:331-341 | The finish event, done in the source's order of effects on an agent dict that may be deleted by now. |
| Engines.OrchestrationEngine.ErrorInExecution | src/orchestrator/engine.py:350-361 | The error event, done in the source's order of effects on an agent dict that may be deleted by now. |
| Engines.OrchestrationEngine.DeleteAgent | src/agent/registry.py:78-87 | Deleting an agent through the engine is the remove event; executions keep its dict. |
| Engines.FinishIsSettled | src/orchestrator/engine.py:331-341 | Restoring the status, completing, counting and persisting one after the other amounts to one event. |
| Engines.ErrorIsSettled | src/orchestrator/engine.py:350-361 | Restoring the status, counting, failing and persisting one after the other amounts to one event. |
| WorkflowSpec.StepOutcome | src/orchestrator/workflow.py:134-147 | With a nonnegative budget a step completes with the value of its first successful attempt after as many calls, or every attempt fails and it fails with the last error after all calls; nothing else about it changes. |
| WorkflowSpec.NoHandlerFails | src/orchestrator/workflow.py:129-133 | A step without a handler fails without a call, with the message that says what runs it. |
| WorkflowSpec.RunOutcome | src/orchestrator/workflow.py:127-150 | The run returns True if and only if every step is a handler step that gets past; otherwise exactly one step failed, those before it got past, and those after it are untouched. |
| WorkflowSpec.SuccessMeansCompleted | src/orchestrator/workflow.py:134-136 | After a successful run every step is completed if and only if no retry count is negative. |
| WorkflowSpec.CallsWithinBudget | src/orchestrator/workflow.py:135-147 | No handler is called more than its retries plus one times. |
| WorkflowSpec.RoundTrip | src/orchestrator/workflow.py:72-98 | Writing and reading back keeps id, name, description and status and, in order, exactly the steps with a nonempty target and their persisted fields. |
| WorkflowSpec.WrittenStep | src/orchestrator/workflow.py:43-53 | The dict of a step, key by key; its kind is "task" exactly if it has a target that is not empty. |
| WorkflowSpec.ReadStepIs | src/orchestrator/workflow.py:89-96 | What is read of a task step, key by key: a missing name, a missing id and a bad status are errors in this order, every other missing key has its default. |
| WorkflowSpec.ReadStepsAre | src/orchestrator/workflow.py:86-97 | The steps that are read are those with a target that is not empty, in order, and the first bad one of them is the error. |
| WorkflowSpec.ReadFlowIs | src/orchestrator/workflow.py:82-98 | What is read of a workflow, key by key, with the same errors and defaults. |
| WorkflowSpec.StatusNames | src/orchestrator/workflow.py:8-13 | The names of the five statuses, both ways. |
| WorkflowSpec.RewriteIsIdentityOnCanonical | src/orchestrator/workflow.py:72-98 | Writing what was read gives the same dict if and only if the dict is one the writer makes for a workflow of task steps. |
| WorkflowSpec.RewriteIsIdempotent | src/orchestrator/workflow.py:72-98 | Writing and reading once more changes nothing. |
| Workflows.WorkflowStep.Run | src/orchestrator/workflow.py:129-147 | One step with its retry loop, as specified. |
| Workflows.Workflow.AddStep | src/orchestrator/workflow.py:64-67 | Appends the step and keeps the step map pointing at the last step of every id. |
| Workflows.Workflow.GetStep | src/orchestrator/workflow.py:69-70 | Finds the last step with the id; None exactly when there is none. |
| Workflows.Workflow.ToDict | src/orchestrator/workflow.py:72-79 | The dict form of the workflow and all its steps in order. |
| Workflows.Workflow.Execute | src/orchestrator/workflow.py:127-150 | The whole run, with the workflow's final status. |
| Workflows.MapFindsLast | src/orchestrator/workflow.py:61-70 | Whatever steps were added, the step map has exactly their ids and takes each to the last step that has it. |
| Workflows.FromDict | src/orchestrator/workflow.py:81-98 | A workflow with the content of the dict and an agreeing step map, or the error of the first missing key or bad status. |
| Workflows.WorkflowManager.AddWorkflow | src/orchestrator/workflow.py:110-111 | The workflow is found under its id; others are as before. |
| Workflows.WorkflowManager.DeleteWorkflow | src/orchestrator/workflow.py:119-120 | The workflow is gone and others are as before; says whether there was one. |
| Workflows.WorkflowManager.ExecuteWorkflow | src/orchestrator/workflow.py:122-150 | An unknown workflow gives False; a known one is run. |
| WorkflowSequencing.NextKeeps | src/orchestrator/engine.py:142-187 | Every block of a workflow run and every event of the engine keeps what the following rows say. |
| WorkflowSequencing.SubmitsAfterCompletion | src/orchestrator/engine.py:154-160 | In every run a later step's task, with that step's target and payload, is submitted only by a block before which every earlier step's task record was already completed. |
| WorkflowSequencing.TrueMeansAllDone | src/orchestrator/engine.py:185-187 | When the run returned True every step is completed, with the result of its own task, submitted with its target and payload, or of its handler; no two steps share a task. |
| WorkflowSequencing.FalseMeansStopped | src/orchestrator/engine.py:178-183 | When it returned False there is a step before which all are completed, which failed for the reason given, and after which all are exactly as before the run. |
| WorkflowEffects.StartEffect | src/orchestrator/engine.py:152-173 | A run begins by storing the workflow as running and beginning its first step: marked running, its task submitted with priority 0 to the default queue and its id remembered, or its handler awaited; or by completing a workflow without steps. |
| WorkflowEffects.AnswerEffect | src/orchestrator/engine.py:175-183 | When an awaited handler returns, its value is the step's result and the next step begins; when it raises, its error is the step's and ends the run; a step without a handler fails as not callable. |
| WorkflowEffects.PollEffect | src/orchestrator/engine.py:163-172 | A wake-up at or after the deadline ends the run with the timeout's message; otherwise a completed task gives its result and the next step begins, a failed one its error, or "task failed" if it has none, and any other leaves everything as it is. |
| WorkflowEffects.ValuesComeFromHandlers | src/orchestrator/engine.py:175-183 | Over every run a step is done with a value if and only if the run was woken up from its await with that value returned, and the run returned False for a handler's error if and only if it was woken up with that error. |
| WorkflowEffects.TrueMeansAllReturned | src/orchestrator/engine.py:175-187 | When the run returned True, the result of every handler step is what its handler returned in that run. |
| WorkflowSequencing.StoreMatchesAtAwaits | src/orchestrator/engine.py:153-182 | At every await and at the end the stored workflow equals the one in memory, except that the result of a step whose task is awaited is still the one from before the run. |
| WorkflowTimeouts.TimesOutIff | src/orchestrator/engine.py:162-172 | A run returns False for the timeout of a task if and only if some wake-up that awaited it came at or after its deadline, or it was submitted with no time to wait. |
| WorkflowSequencing.CrashMidRun | src/orchestrator/engine.py:77-82 | When the process dies while a run sleeps, at an await or after any number of the store writes of an engine block, the workflow comes back pending, with its task steps as far as they got. |
| WorkflowCrash.CrashMidBlock | src/orchestrator/engine.py:77-182 | In any run, a crash after any number of the store writes of a block, of the run itself or of the engine while the run sleeps, leaves a store that a new process can start from and reads the workflow back from part of the way through: completed task steps with their results, at most one step begun or failed, later ones as before the run, pending if it was running. |
| WorkflowCrash.CrashInFirstBlock | src/orchestrator/engine.py:152-161 | The same after every write of the first block: readable store, and the workflow read back part of the way through. |
| WorkflowRuns.WorkflowRun.Start | src/orchestrator/engine.py:152-173 | The first block of a run is the specified one, engine and store included. |
| WorkflowRuns.WorkflowRun.Poll | src/orchestrator/engine.py:163-183 | Waking up in the poll loop does what is specified: time out, go on to the next step, fail, or sleep again. |
| WorkflowRuns.WorkflowRun.Answer | src/orchestrator/engine.py:175-183 | Waking up with a handler's outcome does what is specified: the step has the value that was returned, or fails with the error that was raised. |
| RateLimit.RateLimiter.Dispatch | src/api/middleware.py:46-57 | Decides as specified; an admission is recorded last under the request's own host, or "unknown" without one, no other host's record changes, and a refusal changes nothing. |
| RateLimit.RefusedIffFull | src/api/middleware.py:50-53 | With a clock that does not run backwards, a request is refused exactly when its client's whole, unpruned history has the maximum of admissions in the trailing window. |
| RateLimitClock.RefusalIff | src/api/middleware.py:46-57 | Whatever requests arrive at the readings of a clock, exactly those are refused whose client's whole history fills the trailing window, if and only if the limit is not positive or no reading leaves the window at a later one and is back in it at a third, where the second alone does not fill the limit. |
| RateLimit.WindowBound | src/api/middleware.py:46-57 | Every half-open interval as long as the window holds at most the maximum of admissions of a client, over every run. |
| RateLimitClock.BoundIff | src/api/middleware.py:46-57 | Whatever requests arrive at the readings of a clock, the bound holds for every client and interval, if and only if the limit is at most one or the clock does not step back. |
| RateLimitClock.NonDecreasingDoesNotStepBack | src/api/middleware.py:48 | A clock that does not run backwards does not step back. |
| RateLimit.BackwardClockBreaksBound | src/api/middleware.py:48-50 | A witness: one clock, and three admissions in a window that allows two. |
| RateLimit.ClientsAreIndependent | src/api/middleware.py:47-50 | A request fares as on the earlier arrivals from the same host alone; only requests without a host and from a host called "unknown" share one record. |
| RateLimit.HistoryIsOwn | src/api/middleware.py:47-56 | So do the admissions of a host. |
| Throughput.Throughput | src/orchestrator/engine.py:189-208 | Contiguous buckets from the aligned edge at or before the window to the first edge not below now, each counting exactly the completed and failed outcomes in it that are not before the window; an error exactly when there is no bucket but an outcome to count. |
| Throughput.BucketCount | src/orchestrator/engine.py:198-201 | There are ceil((window + start mod bucket) / bucket) buckets, at least one. |
| Throughput.EdgesAligned | src/orchestrator/engine.py:198 | Every bucket starts at a multiple of the bucket width. |
| Throughput.EveryOutcomeHasOneBucket | src/orchestrator/engine.py:202-207 | Every outcome of the window before now falls into exactly one bucket; one at now does unless now is a multiple of the width. |
| Throughput.Conservation | src/orchestrator/engine.py:202-207 | The buckets together count each outcome from the start of the window to the last edge once. |
| Throughput.WindowIsCounted | src/orchestrator/engine.py:202-207 | With no outcomes in the future, the total is what happened in the window, and what happened at now only if now is no multiple of the width. |
| Configuration.SplitThenJoin | src/common/config.py:27 | Splitting a key at its dots loses nothing, so different keys are different paths. |
| Configuration.PutFails | src/common/config.py:29-33 | Setting fails exactly when something on the way to the last part exists and is no dict. |
| Configuration.GetAfterSet | src/common/config.py:26-45 | After a set the value comes back; a null gives the default. |
| Configuration.LookupIs | src/common/config.py:35-45 | Getting gives the value at the path exactly when every part of the way is there and not null, and the default otherwise, below a scalar too. |
| Configuration.SetKeepsOthers | src/common/config.py:26-45 | A set changes no key that is neither above nor below its own. |
| Configuration.SetsCommute | src/common/config.py:26-33 | Setting two such keys in either order gives the same tree, or fails either way. |
| Configuration.KeyOfName | src/common/config.py:23 | A variable's key, letter by letter: small letters for capital ones, dots for underscores, anything else as it is. |
| Configuration.OverridesAre | src/common/config.py:19-24 | There is an override for each variable whose name starts with "AO_", of its key and with its value, and no other. |
| Configuration.OverridesAreRead | src/common/config.py:19-45 | When the overrides are compatible and can be set, getting the key of any such variable gives its value. |
| Configuration.OverrideOrderDoesNotMatter | src/common/config.py:19-24 | When no override lies below another and equal keys have equal values, every order of the environment gives the same tree, or an error. |
| OverrideOrder.OrderMattersIff | src/common/config.py:19-33 | From any tree, overrides that are no dicts give the same result in every order if and only if they are compatible in that sense or one of them cannot be set on its own. |
| OverrideOrder.EnvironmentOrderMattersIff | src/common/config.py:19-24 | The same for the order in which the environment lists its variables. |
| OverrideOrder.EmptyConfigOrder | src/common/config.py:9-24 | Without a configuration file compatibility alone decides. |
| OverrideOrder.LongestFirstSucceeds | src/common/config.py:26-33 | Set innermost first, overrides that can each be set on their own can all be set. |
| Configuration.ComparableOverridesClash | src/common/config.py:19-24 | A witness: a key and one below it, set from an empty tree; one order loses the inner value, the other is an error. |
| Configuration.Config.SetNested | src/common/config.py:26-33 | The walk down the tree, making dicts as it goes, ends in the specified tree, or in an error with the tree as it was. |
| Configuration.Config.Get | src/common/config.py:35-45 | The walk down the tree ends in the specified value or the default. |
| Configuration.Config.LoadEnvOverrides | src/common/config.py:19-24 | Sets every override in order, up to the first error. |
| ExecutorSpec.ConcurrencyBound | src/agent/executor.py:16-30 | Over every run, with handler errors and cancellations anywhere, free permits and holders add up to the limit, active executions are holders, nobody waits while a permit is free, and exactly the executions that returned have a stored result. |
| ExecutorSpec.CancelIff | src/agent/executor.py:48-53 | In any reachable state cancel says True and requests the cancellation exactly for an active execution whose handler has not come to an end, also a second time, and changes nothing else. |
| ExecutorSpec.CancelStops | src/agent/executor.py:48-53 | A call of cancel while the handler runs is the end of the execution: whatever happens after, no result is stored. |
| ExecutorSpec.CancelledNeverReturns | src/agent/executor.py:48-53 | An execution that cancel accepted never stores a result, whatever happens after; once it has raised it is not active and holds no permit, and permits still add up. |
| ExecutorSpec.AbortedNeverReturns | src/agent/executor.py:16-30 | A call of execute can be cancelled at any await; unless it has returned it never stores a result then, and it leaves the line at once. |
| ExecutorSpec.ServedInOrder | src/agent/executor.py:18 | First come, first served, over any run: while a call waits, those behind it go on waiting behind it, unless their callers give up. |
| ExecutorSpec.ExecuteJoins | src/agent/executor.py:16-23 | A call takes a free permit at once and runs its handler, or else waits behind all that wait. |
| ExecutorSpec.ShutdownCancelsActive | src/agent/executor.py:55-59 | After shutdown whatever was running never stores a result; waiting executions stay in line. |
| ExecutorSpec.StartsAfterShutdownIff | src/agent/executor.py:55-59 | From any reachable state, a shutdown can be followed by the start of a handler without a new call, if and only if some execution had been granted a permit, or some waits and the limit is positive. |
| Executors.AgentExecutor.Execute | src/agent/executor.py:16-24 | Takes a permit and launches the handler, or joins the line. |
| Executors.AgentExecutor.Resume | src/agent/executor.py:24-30 | Stores the result or error and returns, or lets a cancellation through; gives the permit on either way. |
| Executors.AgentExecutor.Cancel | src/agent/executor.py:48-53 | True, with the cancellation requested, exactly for an active execution whose handler is not done; otherwise nothing changes. |
| Executors.AgentExecutor.Shutdown | src/agent/executor.py:55-57 | The loop over the active tasks requests the cancellation of all of them and touches nothing else. |
| Executors.AgentExecutor.GetResult | src/agent/executor.py:45-46 | After any events of the executor there is a result exactly for the executions that returned, and it is what their own handler came to. |
| ExecutorSpec.ResultsAreOutcomes | src/agent/executor.py:16-46 | Over every run an execution has a result if and only if it returned, and the result is the envelope of what its own handler returned or the text of what it raised. |
| ExecutorSpec.ResultsAreFinal | src/agent/executor.py:25-27 | A stored result never changes or goes away. |

## Left out

- Throughput.Throughput: a zero or negative bucket width is excluded, because the source divides by it or need not stop; the model has integer time.
- Workflows.Workflow.Execute: assumes no step object was added twice; running one object twice would overwrite its first outcome.
- WorkflowRuns.WorkflowRun.Start: holds the workflow as one value, so sharing of step objects with other holders is not captured; an unknown workflow id is `WorkflowManager.ExecuteWorkflow`'s case only.
- WorkflowSequencing.NextKeeps: assumes dict payloads, one run of the workflow at a time and no deletion of it; the queue and priority of its tasks are the defaults.
- Configuration.Config.SetNested: the tree is a value, so a dict shared between the tree and a caller is not captured.
- WorkflowSpec.RewriteIsIdentityOnCanonical: a key is missing or has a value of its type; a null where the source wants a string, such as a null id, cannot be expressed, and a null target counts as a missing one.
- OverrideOrder.EnvironmentOrderMattersIff: lower-casing is that of ASCII letters.
- Engines.OrchestrationEngine.RestoreState: restores tasks; the workflows that the source restores beside them are covered row by row in `WorkflowSequencing.CrashMidRun` and `WorkflowCrash.CrashMidBlock`.
- LifecycleInvariant.AdvanceKeepsInv: the engine never delays tasks, so the machine assumes an empty schedule; `DelayedTasks` covers delays in the scheduler alone.
- Executors.AgentExecutor.Shutdown: ends with the requests; that it then awaits the tasks it cancelled is not modelled.
- Task dicts and records are values: that scheduler and coroutine share one task dict is not captured. Agent dicts are objects.
- A record created by the engine for a task it does not know is modelled but cannot occur here, because tasks enter through `submit_task` only.
- `maxRetries` is not negative.
- `reconcile_runtimes`, `start_agent`, `stop_agent`, runtimes and logs: they depend on operating system processes. They would write an agent's status and errors like the status event does.
- The task timeout is one of the ways a handler can fail; cancelling coroutines when the event loop itself shuts down is not modelled.
- `stats`, `list_tasks`, counts and other getters, the version and uptime constants of agents: only easy members.
- SQL, JSON text (values that have no JSON form are stored as strings), locks and threads: the store is three tables with atomic writes.
- Logging, authentication and CORS middleware, HTTP routes, command line, dashboard: no deep invariant.
