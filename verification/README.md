# flowd: a verified model of the history store and the deterministic replayer

flowd is an event-sourced workflow engine. A server keeps every run's history in
Postgres and hands out leased tasks; workers replay workflow code against the
history and answer with commands, which become new events. This project models the
two sides and the loop between them in Dafny and proves what the engine relies on,
over every input, every interleaving of its transactions and every reachable state.

**The store.** `Events` has the values on the wire and `Store` the tables and what each
transaction does to them, as functions `Db -> Tx`. `World` is the state machine: twenty-one
kinds of step (start, dequeue, record started, deliver, complete, the four statements
of a workflow task failure and its death between them, the activity steps, both reapers,
timers, signals, cancel, terminate), with the dispatches and failure reports that are
between two of them. `Reach(Init(), steps)` is the state after any finite run. `Effects`
reduces the steps to seven ways of changing the tables (`Steps` says that each step does its
transaction whenever it can), and each invariant is proved per way:
`Soundness`, `Leases`, `Conservation`, `Wakeups`, `Continuations`, `OpenRuns`, `Retries`,
`Routing`. `Transactions` says of each transaction when it commits and what it does row by
row, `Responses` the same of a workflow task response by its commands; `RoundTrip` says what
becomes of a response's activities and timers, `Backoff` is the
retry delay, and `CompareAndSet` with `CommitOrder` drops the atomicity: writers read, compare-and-set, commit and
abort in any interleaving, under row locks and READ COMMITTED.

**The replayer.** A workflow is a function from everything it has been told to the next
thing it asks (`Replayer.Program`); one engine call is `Advance`, a round runs until the
coroutine yields or is done. `Loading` says what a load makes of each event, `Endings` what
a round reports. `StickyReplay` compares resuming a cached Execution with
replaying the whole history, `ReplayPaths` says when a history replays without a
NonDeterministicError, `WorkerCache` follows one run through a worker's hits, misses and
evictions, `Overtaken` is about entries that another worker has left behind, `Rounds` about
the numbers a round gives its calls, `Signals` follows signals to their handlers, `Dispatcher` has the rounds over
many coroutines.

**The join.** `ReplaySafety` puts the two together: commands computed by replay become
events in the store, and the store's reachable histories replay cleanly. `Numbering` says
exactly when activity and timer ids stay in order, `StoreSessions` that the store's own runs
meet what the worker's cache assumes. `Overlap` and `Scenarios` show what happens without
the discipline.

**The objects.** What the source updates in place is a class here, and each method is
proved against the functions above: `StoreObject.HistoryStore` (tables, transactions with
rollback, the command loop of `CommandBatch`), `ExecutionObject.Execution`,
`WorkerObject.Worker`, `Lru.ExecutionCache`, `Dispatcher.RoundDispatcher`; `Paging` has the
page loops.

Several promises hold only under a condition, and the project states it exactly, for all
inputs, beside an input that fails:

- One open run per workflow: if and only if every accepted continue-as-new came from the
  current run or found it closed (`OneOpenIffGuarded`; `ClosedIsNotFinal` fails, because no
  append checks that the run is RUNNING).
- Activity and timer ids in order: if and only if every accepted response scheduled nothing
  or had been sent everything scheduled before it (`NumberedIffSeen`;
  `OverlappingTasksDuplicateIds` fails).
- No lost wake-up: if and only if every FailWorkflowTask call that died left the last waking
  event it held covered by another task, an accepted delivery or another call
  (`NoLostWakeupIff`; `FailureInterruptedLosesWakeup` fails).
- Replay without a NonDeterministicError: if and only if every call the program makes along
  the way the history leads it matches the record (`NeverPanicsIff`; `ClockReaderReplays` has
  a program that branches on the clock and a history on which it fails).
- Resuming as replaying: if and only if the longer history still answers what the coroutine
  was told (`StickyEqualsFullIff`), and, for an entry another worker has overtaken, the round
  makes no new call of a kind recorded from elsewhere (`OvertakenIff`;
  `OvertakenEntryRepeatsCommands` fails). Whatever the code does next, that is so exactly when
  nothing was recorded from elsewhere (`SafeWhateverIff`).
- A cache entry stored by a query: if and only if it had no commands to report
  (`QueryEntryLosesItsCommands`; `QueryFirstNeverSchedules` fails).
- The capped exponential backoff, on every platform: if and only if the initial interval is
  zero, or the power fits 64 bits and the product fits too or wraps past the maximum
  (`DelayIsCappedIff`; `OverflowedDelayIsNegative` fails).

Where the code and its comments differ, the model follows the code. FailWorkflowTask is
described as releasing the lease back to PENDING; it deletes the row, clears the sticky
registration and inserts another row, as separate statements
(internal/history/workflow_task.go:488-534). The worker expects a response to be rejected
when a signal landed after its history was loaded (sdk/worker/worker.go:281-285); the
completion re-reads next_event_id in its own transaction and accepts it, which is why the
numbering of activities needs the discipline stated in `ReplaySafety`.

## Model

| member | source | states |
|---|---|---|
| `ReplaySafety.ReachableReplaysCleanly` | internal/history/workflow_task.go:219-334 | for outcome-driven code, if every accepted response was computed from a history holding all earlier responses, then in every reachable state each run's activity and timer ids are 1, 2, 3, ... in program order and no replay of its history ever raises NonDeterministicError, whatever order outcomes arrived in |
| `ReplaySafety.CommandsReadBack` | sdk/internal/replayer/execution.go:241-252 | loading the events of a response gives back exactly its commands' activities and timers, in order |
| `ReplaySafety.ConservedOutcomes` | internal/history/activity_task.go:92-245 | numbered activities and conservation leave at most one recorded outcome per activity |
| `ReplayPaths.ReplayNeverPanics` | sdk/internal/replayer/execution.go:339-403 | a history whose record is the calls of a path its own state answers never makes any step of replay panic |
| `ReplayPaths.RoundExtendsRecord` | sdk/internal/replayer/execution.go:339-403 | a settled round's commands are exactly the calls that follow the recorded ones, in order |
| `ReplayPaths.ResponseKeepsReplayable` | internal/history/workflow_task.go:244-334 | recording a response that had seen every earlier one keeps the history replayable, whatever other events came in between |
| `ReplayPaths.ReplayableIsClean` | sdk/internal/replayer/execution.go:339-403 | a replayable history with one outcome per activity is numbered in order, follows one path and never panics |
| `ReplayPaths.NeverPanicsIff` | sdk/internal/replayer/execution.go:339-403 | for every program and history, no replay raises NonDeterministicError if and only if at every position the history leads the program to, its next call is the recorded one or beyond the record |
| `ReplayPaths.ClockReaderReplays` | sdk/internal/replayer/execution.go:239-240 | one program and one history on which that fails: it branches on Now, and its second task replays without a panic only if the start time makes it repeat itself |
| `Numbering.NumberedIffSeen` | internal/history/workflow_task.go:239-331 | for any code, over any run of the store whose accepted responses come from replaying what was delivered, all activity and timer ids are always 1, 2, 3, ... if and only if every accepted response scheduled nothing or had been sent everything scheduled before it |
| `Rounds.ResponseNumbersIff` | sdk/internal/replayer/execution.go:339-403 | recording one round's commands keeps a history numbered if and only if the round scheduled no activity or had seen them all, and likewise for timers |
| `Overlap.OverlappingTasksDuplicateIds` | internal/history/workflow_task.go:239-331 | a run of the store that fails the condition: two tasks of one run out at once are both accepted, and one activity id is scheduled twice |
| `Loading.LoadersMean` | sdk/internal/replayer/execution.go:233-298 | after either loader, for every history: an activity has an outcome exactly when some event settles it, the result or failure of the last such event; a timer has fired exactly when that is recorded; cancel reason and clock are the last ones; every signal is queued once, in order, with its payload |
| `Loading.FullLoadMeansCalls` | sdk/internal/replayer/execution.go:241-252 | a full load remembers each scheduled activity by id and type and each started timer by id and duration, in the order recorded, and no others |
| `Loading.StartLoaded` | sdk/internal/replayer/execution.go:236-238 | the input and type handed back are those of the last recorded start, and none exactly when there is none |
| `Endings.ReplayOutput` | sdk/internal/replayer/execution.go:339-452 | at any point of a replay that has not panicked the commands are those of the program's calls beyond the record, with the id, type, input, policy and timeouts the code gave, followed, exactly if it has ended, by CompleteWorkflowExecution, FailWorkflowExecution or ContinueAsNew with what it returned, which is also the recorded outcome |
| `Endings.CallTells` | sdk/internal/replayer/execution.go:325-382 | a live coroutine waits exactly for an outcome or firing that is not loaded, and is otherwise told the call-order id, the loaded outcome, the clock or the cancel request it asked for; nothing loaded changes |
| `Endings.ResumedOutput` | sdk/worker/worker.go:222-227 | a resumed round, whatever the tail, never panics and reports the calls since the cached position followed by its ending |
| `StickyReplay.StickyEqualsFullIff` | sdk/worker/worker.go:222-227 | resuming a cached Execution agrees with full replay at every later engine call if and only if the longer history still answers the cached position |
| `StickyReplay.StickyEqualsFull` | sdk/worker/worker.go:211-243 | with one outcome per activity and code that observes outcomes and firings only, resume and replay end alike in position, counters, commands and outcome, or not at all |
| `StickyReplay.ReplayReachesIff` | sdk/internal/replayer/execution.go:325-403 | replay stands at a position after that many calls if and only if the loaded state answers the whole path to it |
| `StickyReplay.SplitLoading` | sdk/internal/replayer/execution.go:233-298 | loading a prefix and then the tail after its last id shows the same outcomes, firings, clock, cancel request and signals as one full load, for every dense history and cut |
| `StickyReplay.EventsAfterCut` | sdk/worker/worker.go:309-316 | eventsAfter cuts a dense history exactly at the bookmark |
| `StickyReplay.ResumeCaches` | sdk/worker/worker.go:257-265 | a resumed Execution is again fit to be cached, so caching composes over any number of tasks |
| `StickyReplay.LoadRecords` | sdk/internal/replayer/execution.go:241-252 | a full load remembers the earlier record followed by what the events record |
| `WorkerCache.EvictionIsInvisible` | sdk/worker/worker.go:211-301 | over any number of tasks with any hits, misses and evictions, every round ends as a full replay of what was delivered |
| `WorkerCache.SameResponses` | sdk/worker/worker.go:277-280 | two workers with different cache luck send the same commands for the same deliveries |
| `WorkerCache.QueryEntryLosesItsCommands` | sdk/worker/worker.go:331-356 | a later task that hits an entry stored by a query gives a full replay's commands minus exactly the unreported ones, so the two agree if and only if there were none |
| `WorkerCache.QueryFirstNeverSchedules` | sdk/worker/worker.go:331-356 | a run whose first replay was a query's: the workflow task that follows schedules nothing, ever |
| `Overtaken.OvertakenIff` | sdk/internal/replayer/execution.go:277-298 | for every program, resuming an overtaken entry agrees with replaying if and only if the history still answers the cached position and the round makes no new call of a kind recorded from elsewhere |
| `Overtaken.SafeWhateverIff` | sdk/worker/worker.go:222-227 | an entry is safe whatever the code does next exactly when nothing was recorded from elsewhere |
| `Overtaken.OvertakenEntryRepeatsCommands` | sdk/internal/replayer/execution.go:277-298 | an entry that fails the condition schedules again what is already recorded, where a replay would not |
| `StoreSessions.StoreRunsAreSessions` | sdk/worker/worker.go:211-301 | of every run of a disciplined store, each round whose answer was accepted ended as a full replay of its delivery, whatever the worker's cache hit, missed or evicted |
| `StoreSessions.DisciplinedConsecutive` | internal/history/workflow_task.go:331-356 | each accepted response was computed from a history that records, beyond the one before it, exactly what that one commanded |
| `WorkerObject.Worker.ProcessWorkflowTask` | sdk/worker/worker.go:211-301 | the round starts from the cached Execution and the tail, or from the whole history with the registered code; a panic fails the task, otherwise the round's commands go out, sticky exactly while it is running; a running round whose answer was accepted is stored with its last event id, and otherwise no entry is left; all other entries are the old ones less one evicted |
| `WorkerObject.Worker.Answer` | sdk/worker/worker.go:245-300 | the same for what follows the round |
| `WorkerObject.CodeMeans` | sdk/worker/worker.go:231-237 | the code is the one registered for the type of the last recorded start |
| `WorkerObject.Worker.Resume` | sdk/worker/worker.go:222-227 | the cached object ends where the resumed round ends |
| `WorkerObject.Worker.Replay` | sdk/worker/worker.go:228-243 | a fresh object ends where the full replay ends, with the code the start event asks for |
| `WorkerObject.Worker.EventsAfter` | sdk/worker/worker.go:309-316 | the scan returns the suffix with larger ids |
| `WorkerObject.OutcomeIffFinished` | sdk/worker/worker.go:258-275 | a round has recorded a result, failure or continuation if and only if its coroutine finished |
| `Steps.FailWorkflowTaskSteps` | internal/history/workflow_task.go:499-534 | the statements of a failure report, undisturbed: the leased row is gone, the run has lost its stickiness, and an unreserved pending row is there for its last event |
| `Steps.FailActivitySteps` | internal/history/activity_task.go:150-222 | a failure report reads the leased row and then, by that row, retries exactly when attempts are left and the type is not excluded, and otherwise records the failure |
| `Steps.AnswerSteps` | internal/history/workflow_task.go:219-243 | a worker that was delivered its task may answer, and an answer that commits is booked with what was delivered |
| `Wakeups.NoLostWakeupIff` | internal/history/workflow_task.go:499-534 | over any run of the store no wake-up is ever lost if and only if every failure report that died left the last waking event it held with another task, an accepted delivery or another report |
| `Wakeups.DropKeepsWakeupsIff` | internal/history/workflow_task.go:499-534 | the same for one report that dies, in any state without lost wake-ups |
| `Wakeups.ReachableNoLostWakeup` | internal/history/workflow_task.go:89-156 | while no failure report dies, in every reachable state each waking event among the first 100,000 of its run has a live task scheduled after it, or was delivered to a worker whose response was accepted, or is held by a failure report between its delete and its enqueue |
| `Wakeups.ReachableDeliveries` | internal/history/workflow_task.go:122-136 | in every reachable state a delivered history is a prefix of its run's and reaches the event its task was scheduled by, unless cut at 100,000 |
| `Wakeups.FailureInterruptedLosesWakeup` | internal/history/workflow_task.go:499-534 | a run of the store that fails the condition: the report dies after its delete and the start event has nothing to wake for it |
| `Soundness.ReachableSound` | internal/history/append.go:26-68 | in every reachable state event ids are exactly 1 .. next_event_id - 1 and every task, activity and timer row names the event of its run that scheduled it |
| `Soundness.HistoryOnlyExtends` | internal/persistence/postgres/sqlc/history.sql.go:14-36 | from any sound state, whatever happens, runs stay and histories are only extended |
| `Effects.StepEffect` | internal/history/workflow_task.go:219-419 | each of the twenty-one kinds of step changes the tables in exactly the way its effect describes |
| `Leases.ReachableLeases` | internal/persistence/postgres/sqlc/workflow_tasks.sql.go:14-60 | in every reachable state a row is STARTED exactly when it carries the one token issued for it, unconsumed, and no token is consumed twice |
| `Leases.StaleStaysStale` | internal/persistence/postgres/sqlc/workflow_tasks.sql.go:151-155 | a lease that no row holds is never held again |
| `Leases.StaleIsRejected` | internal/persistence/postgres/sqlc/activity_tasks.sql.go:14-30 | a response with such a lease changes nothing at all |
| `Conservation.ReachableConserved` | internal/history/workflow_task.go:263-356 | in every reachable state, per run and id, activities scheduled equal live rows plus completed plus failed, and timers started equal pending (at most one) plus fired |
| `Conservation.StepGrounded` | internal/history/activity_task.go:92-245 | a response or firing takes off the queue exactly what it records as settled |
| `Continuations.ReachableChained` | internal/history/workflow_task.go:421-487 | every ContinuedAsNew event names an existing run born from the closing one with the announced type, queue and input and its execution timeout; no two name the same run; every continued run has its event |
| `Continuations.ChainsNeverCycle` | internal/history/workflow_task.go:305-318 | along any chain run ids never repeat and the execution timeout is constant |
| `Continuations.ChainsNeverMerge` | internal/history/workflow_task.go:305-318 | a continued run has exactly one predecessor |
| `OpenRuns.OneOpenIffGuarded` | internal/history/workflow_task.go:429-434 | over any run of the store every RUNNING run is always the current one if and only if every accepted continue-as-new came from the current run or found it not RUNNING |
| `OpenRuns.RunningContinuationsKeepOneOpen` | migrations/0001_init.up.sql:13-23 | so it holds when continue-as-new is accepted from RUNNING runs only |
| `OpenRuns.ClosedIsNotFinal` | internal/history/query.go:100-122 | a terminated run's outstanding task can still continue it as new, leaving two open runs |
| `OpenRuns.RepeatedStart` | internal/history/start.go:40-141 | after any steps that do not make another run current, repeating a start gives the same run id and changes nothing |
| `Routing.NoStrandedWorkflowTask` | internal/persistence/postgres/sqlc/workflow_tasks.sql.go:30-60 | in every reachable state each workflow task has a time from which a reap and any worker's poll lease it anew |
| `Routing.NoStrandedActivityTask` | internal/persistence/postgres/sqlc/activity_tasks.sql.go:32-52 | likewise each activity task, at the same attempt number |
| `Routing.LeaseLastsTenSeconds` | internal/persistence/postgres/sqlc/workflow_tasks.sql.go:151-155 | the reaper leaves a leased task alone for its ten seconds and takes it back after that |
| `Routing.StickyRouting` | internal/history/util.go:54-67 | a task enqueued under a live sticky registration is visible to that worker alone until the registration runs out and to all afterwards |
| `Retries.ReachableWithinLimit` | internal/history/activity_task.go:158-182 | no reachable activity row with a positive limit is past it |
| `Retries.RetriesBounded` | internal/persistence/postgres/sqlc/activity_tasks.sql.go:215-223 | from any state a row at attempt n of m is retried at most m - n times, and its attempt number counts its retries |
| `Retries.RetryWaitsBackoff` | internal/persistence/postgres/sqlc/activity_tasks.sql.go:215-223 | a retried row is visible again exactly from the failure's time plus the backoff of the failed attempt |
| `Backoff.DelayWithinMaximum` | internal/history/activity_task.go:167-170 | the delay never exceeds a positive maximum, whatever an out-of-range conversion gives |
| `Backoff.DelayNeverShrinks` | internal/history/activity_task.go:167-170 | for coefficient at least 1, a non-negative initial interval and a product within 64 bits, later attempts wait no less, on every platform |
| `Backoff.DelayIsCappedIff` | internal/history/activity_task.go:167-170 | for coefficient at least 1, the delay is the capped exponential backoff for every value an out-of-range float conversion may give, if and only if the initial interval is zero, or the power fits 64 bits and the product does too or wraps to at least the maximum |
| `Backoff.BackoffGrowsByCoefficient` | internal/history/activity_task.go:167 | the first retry waits the initial interval, each further attempt multiplies the power by the coefficient, and a coefficient of 2 doubles the backoff |
| `Backoff.OverflowedDelayIsNegative` | internal/history/activity_task.go:167-170 | one second doubled 34 times wraps below zero |
| `CommitOrder.EveryInterleavingIsSerial` | internal/history/append.go:26-68 | under any interleaving of reads, compares, commits and aborts by any writers the committed runs and task rows are those of the committed transactions run alone in commit order |
| `CommitOrder.CommittedHistoriesAreDense` | internal/persistence/postgres/sqlc/executions.sql.go:14-23 | committed ids are exactly 1 .. next_event_id - 1 and every earlier committed history is a prefix |
| `CommitOrder.OneWinnerPerValue` | internal/persistence/postgres/sqlc/executions.sql.go:14-23 | the writers of two commits to one run had read different next_event_id values, the later the larger |
| `CommitOrder.UndisturbedCommits` | internal/history/append.go:26-68 | a writer nobody gets in the way of commits its events and its task row and leaves no lock |
| `CommitOrder.OvertakenConflicts` | internal/history/append.go:38-43 | a writer whose run was written since it read it does not commit, and starts over while it has tries left |
| `CommitOrder.OnceOrNotAtAll` | internal/history/retry.go:29-38 | a retrying writer commits its events and task row exactly once or not at all, within its limit, and exhausts it only if at least that many other commits happened |
| `CommitOrder.SignalOnceOrNotAtAll` | internal/history/signal.go:28-72 | however a signal's five attempts interleave with other writers, its pair of events and its task row are committed together exactly once or not at all |
| `Responses.ResponseMeans` | internal/history/workflow_task.go:261-411 | of every accepted response, by its commands alone: one event each with the command's own fields, ids and time; a complete, fail or continue-as-new command closes the run as COMPLETED, FAILED or CONTINUED_AS_NEW at that time; a continue-as-new leaves a current run with every field given or inherited and its first task; otherwise status and current run are kept and stickiness is what the response asks for or none |
| `Responses.ActivityRowMeans` | internal/history/util.go:69-120 | the row of a schedule command, for every policy and timeout it may carry or leave out |
| `Transactions.AppendMeans` | internal/history/append.go:26-68 | an append commits exactly when there is nothing to append or the counter is the expected one, and then adds just these events under consecutive ids with this time |
| `Transactions.StartMeans` | internal/history/start.go:40-141 | a start commits exactly when the workflow has no current run, or repeats its request id, or the current run is not RUNNING; a repetition changes nothing; otherwise a fresh run is open and current with exactly the requested type, queue, input, policy and timeouts and one task for event 2 |
| `Transactions.DequeueWorkflowMeans` | internal/persistence/postgres/sqlc/workflow_tasks.sql.go:35-60 | a poll leases a row exactly when it is of its queue and namespace, pending, visible and not reserved for another worker; that row alone changes, for ten seconds |
| `Transactions.DequeueActivityMeans` | internal/persistence/postgres/sqlc/activity_tasks.sql.go:32-52 | a poll leases a row exactly when it is of its queue and namespace, pending and visible; that row alone changes, for its own start-to-close timeout |
| `Transactions.RecordStartedMeans` | internal/history/workflow_task.go:103-117 | recording a start adds just that event to the run |
| `Transactions.ReapMeans` | internal/persistence/postgres/sqlc/activity_tasks.sql.go:201-205 | the reapers free exactly the rows whose lease has run out and change nothing else |
| `Transactions.WakeMeans` | internal/history/signal.go:50-71 | a wake-up adds the cause and a scheduled task to the run and one pending row for the latter, reserved for the sticky worker exactly while its registration lasts |
| `Transactions.CompleteActivityMeans` | internal/history/activity_task.go:92-137 | a completion commits exactly when its row holds the lease, takes that row and wakes the run with the row's activity id and the result |
| `Transactions.FailActivityMeans` | internal/history/activity_task.go:188-222 | a terminal failure does the same with the failure and the attempt |
| `Transactions.RetryMeans` | internal/persistence/postgres/sqlc/activity_tasks.sql.go:215-223 | a retry commits exactly when the row holds the lease and puts it back unleased, one attempt on, visible after the delay |
| `Transactions.FireMeans` | internal/history/timers.go:36-85 | a timer fires exactly when it is pending and due, once, and wakes its run |
| `Transactions.SignalMeans` | internal/history/signal.go:28-72 | a signal reaches the run it names, or the current run if it names none, and no other; it is NotFound exactly when that run does not exist |
| `Transactions.CancelMeans` | internal/history/cancel.go:26-70 | the same for a cancel request and its reason |
| `Transactions.TerminateMeans` | internal/history/query.go:100-123 | the same for a termination, which closes the run as TERMINATED and schedules nothing |
| `RoundTrip.CommandRoundTrip` | internal/history/workflow_task.go:244-356 | an accepted response appends WorkflowTaskCompleted and one event per command in order, makes one row per activity and timer naming that event, and extends what a load remembers by exactly those commands |
| `RoundTrip.AcceptedIff` | internal/history/workflow_task.go:227-334 | a response commits if and only if its token holds its row, the run exists, there is at most one terminal command, no continue-as-new mixed with scheduling, and no timer id is pending or repeated |
| `RoundTrip.RejectedWith` | internal/history/workflow_task.go:227-334 | a rejected response gets the error of the first check it fails: lease, run, unknown command, two terminals, mixed continue-as-new, repeated timer |
| `RoundTrip.InsertTimersIff` | internal/persistence/postgres/sqlc/timers.sql.go:39-56 | inserting timers succeeds if and only if all ids are new and distinct, and then each has its row |
| `CommandBatch.ReadCommands` | internal/history/workflow_task.go:261-322 | the command loop yields the events, the index of each activity's and timer's event, the counts and the closing command, or fails exactly on an unrecognised command |
| `CommandBatch.CheckCommands` | internal/history/workflow_task.go:261-329 | the checks after the loop reject exactly the malformed responses, each with its error |
| `CommandBatch.IsRetryable` | internal/history/activity_task.go:158-164 | retryable exactly when attempts are left and the failure type is not excluded |
| `StoreObject.HistoryStore.AppendHistory` | internal/history/append.go:26-68 | the compare-and-set and insert loop store the events under consecutive ids, or change nothing |
| `StoreObject.HistoryStore.CompleteWorkflowTask` | internal/history/workflow_task.go:219-419 | the transaction with its loops and index arrays does what the specification says, or leaves the tables as they were |
| `StoreObject.HistoryStore.RecordResponse` | internal/history/workflow_task.go:331-356 | append, then rows stamped through the index arrays |
| `StoreObject.HistoryStore.StartWorkflow` | internal/history/start.go:40-141 | the start with its idempotency and already-running branches |
| `StoreObject.HistoryStore.DispatchWorkflowTask` | internal/history/workflow_task.go:89-156 | lease the row, then record the start and send at most 100,000 events; if the second part fails the row stays leased |
| `StoreObject.HistoryStore.DispatchActivityTask` | internal/history/activity_task.go:32-82 | lease the row, then record the attempt's start; if the second part fails the row stays leased |
| `StoreObject.HistoryStore.FailWorkflowTask` | internal/history/workflow_task.go:499-534 | delete the leased row, clear stickiness, enqueue a row for the last event; a missing run leaves the row deleted |
| `StoreObject.HistoryStore.Terminate` | internal/history/query.go:100-123 | record the termination and close the run, open or not |
| `StoreObject.HistoryStore.CompleteActivityTask` | internal/history/activity_task.go:92-137 | delete the leased row, record the result, wake the run, or nothing |
| `StoreObject.HistoryStore.FailActivityTask` | internal/history/activity_task.go:144-227 | retry with backoff or record the failure, or nothing |
| `StoreObject.HistoryStore.FireTimer` | internal/history/timers.go:36-85 | delete the due row, record the firing, wake the run, or nothing |
| `StoreObject.HistoryStore.DrainDueTimers` | internal/history/timers.go:19-31 | the drain fires exactly due timers, each once, until none is due or one has no run |
| `StoreObject.HistoryStore.SignalWorkflow` | internal/history/signal.go:28-78 | resolve the run, record the signal and wake it |
| `StoreObject.HistoryStore.WithTxRetryOnConflict` | internal/history/retry.go:29-38 | the outcome is that of the first attempt that is not a conflict, after only conflicts, within five |
| `ExecutionObject.Execution.LoadHistory` | sdk/internal/replayer/execution.go:233-264 | the loop folds the events into the fields and returns the last start's input and type |
| `ExecutionObject.Execution.LoadNewEvents` | sdk/internal/replayer/execution.go:277-298 | the loop folds only what a waiting coroutine may observe |
| `ExecutionObject.Execution.ResetRoundOutput` | sdk/internal/replayer/execution.go:306-311 | clears the last round's output and nothing else |
| `ExecutionObject.Execution.ScheduleActivity` | sdk/internal/replayer/execution.go:339-366 | the Nth call gets id N; a recorded call must match in id and type or panics; otherwise a command is added |
| `ExecutionObject.Execution.ScheduleTimer` | sdk/internal/replayer/execution.go:383-403 | the same for timers, comparing the id only |
| `ExecutionObject.Execution.Complete` | sdk/internal/replayer/execution.go:407-420 | records the result or the failure as outcome and command |
| `ExecutionObject.Execution.ContinueAsNew` | sdk/internal/replayer/execution.go:439-452 | records the continuation as outcome and command |
| `ExecutionObject.Execution.ExecuteRound` | sdk/internal/replayer/dispatcher.go:89-97 | the coroutine is resumed until it yields or is done, and ends where the round settles |
| `ExecutionObject.Execution.DrainSignals` | sdk/internal/replayer/execution.go:203-216 | delivers the claimed signals in order and keeps the others in order |
| `ExecutionObject.Execution.SetSignalHandler` | sdk/internal/replayer/execution.go:180-197 | registers the name, delivers its backlog and has the pump started |
| `ExecutionObject.Execution.ExecuteRoundAndPump` | sdk/internal/replayer/execution.go:186-196 | a round runs the workflow's coroutine and then, if it had been started before the round, the pump |
| `ExecutionObject.LoadersQueueSignals` | sdk/internal/replayer/execution.go:258-260 | both loaders queue exactly the recorded signals, in order |
| `Signals.SignalsConserved` | sdk/internal/replayer/execution.go:180-216 | over any loads, registrations and pump rounds the delivered payloads of a name followed by the pending ones are the recorded ones in order |
| `Signals.HandledInFull` | sdk/internal/replayer/execution.go:180-216 | after a registration or round every recorded signal of a registered name has been delivered |
| `Dispatcher.RoundResumesPending` | sdk/internal/replayer/dispatcher.go:57-97 | a round resumes exactly the coroutines that existed at its start and were not done, once each, in creation order, each against the state the ones before it left; a coroutine is done unless it yielded, with its panic recorded; those started in the round are there in order, to run in the next |
| `Dispatcher.DoneForGood` | sdk/internal/replayer/dispatcher.go:57-97 | over any rounds a done coroutine is never resumed again and none is removed |
| `Dispatcher.RoundDispatcher.Go` | sdk/internal/replayer/dispatcher.go:57-81 | a new coroutine is added at the end, not yet run |
| `Dispatcher.RoundDispatcher.ExecuteRound` | sdk/internal/replayer/dispatcher.go:89-97 | the loop over the list as it was at the start is the specified round |
| `Dispatcher.RoundDispatcher.AllDone` | sdk/internal/replayer/dispatcher.go:101-108 | true exactly when every coroutine is done |
| `Dispatcher.RoundDispatcher.FirstPanic` | sdk/internal/replayer/dispatcher.go:113-120 | the first recorded panic in creation order, if any |
| `Lru.CacheIsFaithful` | sdk/worker/cache.go:46-89 | over any operations the cache stays within its capacity, holds what was last put and lists keys from most to least recently used |
| `Lru.HitIsLastPut` | sdk/worker/cache.go:56-63 | a hit returns the value last put under the key and not deleted since |
| `Lru.EvictsLeastRecentlyUsed` | sdk/worker/cache.go:75-79 | a put that overflows evicts exactly the least recently used key |
| `Lru.StoredMeans` | sdk/worker/cache.go:67-80 | a put leaves its entry at the front and all others in order, less the last exactly when a new key finds the cache full |
| `Lru.OthersStay` | sdk/worker/cache.go:56-87 | whatever the operation, any other key keeps its value, unless it is the last of a full cache and a new key is put |
| `Lru.ExecutionCache.Get` | sdk/worker/cache.go:56-63 | list and map together look the key up and move it to the front |
| `Lru.ExecutionCache.Put` | sdk/worker/cache.go:67-80 | list and map together refresh or insert the key and evict the back |
| `Lru.ExecutionCache.Delete` | sdk/worker/cache.go:82-87 | list and map together drop the key |
| `Paging.GetHistory` | internal/history/query.go:19-62 | a page is the next slice of the history, with a token exactly when it is full |
| `Paging.GetWorkflowHistory` | sdk/client/client.go:321-337 | for any page size following the tokens ends with the whole history in order |
| `Paging.ListWorkflowExecutions` | internal/history/list.go:45-119 | a page is the top of the matching rows below the cursor, with a cursor exactly when it is full |
| `Paging.ListAll` | internal/persistence/postgres/sqlc/executions.sql.go:197-212 | for any page size following the cursors ends with exactly the rows that match the status and queue filters, later start times first, then larger workflow ids, then larger run ids |
| `Paging.DescendingLists` | internal/persistence/postgres/sqlc/executions.sql.go:197-212 | that listing has each matching row exactly once, in strictly descending (start_time, workflow_id, run_id) order |

## Left out

- gRPC, TLS, HTTP, web UI, CLI, configuration, metrics, logging, migrations and authorisation: plumbing around the protocol.
- Payload and token encodings: payloads are opaque values, and a task token is a value only dispatch can make, carrying the row and lease it dequeued.
- Partitions and shards: a poll may pick any visible row of its queue, which includes every choice a partition set allows.
- The notifier and long polling: they only change when a poll happens; steps happen at any time here.
- Query tasks: they touch no table modelled here; only what a query leaves in a worker's cache is modelled.
- Generated UUIDs are numbers from a counter, so "larger run id" stands for "created later"; nothing else uses the order.
- Identifiers drawn by a transaction that rolls back are drawn again; in Postgres they are skipped, and no property depends on gaps.
- `math.Pow` is exact on reals; floating-point rounding is not modelled. A conversion out of the 64-bit range gives an arbitrary value, as the language leaves it.
- World transactions are atomic: a transaction that loses the compare-and-set is a step that changes nothing, and `CompareAndSet` is where interleaving inside transactions is treated.
- CommitOrder.EveryInterleavingIsSerial: uncommitted inserts are private to their writer, so that a loser or aborter changes nothing is part of the model (`LosersChangeNothing`); writes to a run's row outside the compare-and-set (its stickiness, its status) are not among these writers.
- StoreObject.HistoryStore.SignalWorkflow: one attempt without a conflict; the retry loop is `WithTxRetryOnConflict` and its interleavings are in `CompareAndSet`.
- StoreObject.HistoryStore.WithTxRetryOnConflict: what other writers commit between attempts is the attempt number's argument, not a change to this object's tables.
- ExecutionObject.Execution.SetSignalHandler: the handler table holds names; calling a handler is appending to what it has handled.
- ExecutionObject.Execution.ExecuteRound: one coroutine that makes finitely many engine calls per round; a workflow that never yields has no result in the source either.
- WorkerObject.Worker.ProcessWorkflowTask: the server's reply is an argument, the delivered history has at least one event, as every run's has (`ReachableSound`), and rounds are the workflow coroutine's, without the signal pump.
- ReplaySafety.ReachableReplaysCleanly: code with one coroutine, whose ids are its own call order; with several, ids depend on the order of resumption.
- Dispatcher.RoundDispatcher.ExecuteRound: goroutines and channels are resumptions of named code against a shared state.
- Signals.SignalsConserved: handlers that panic or register further handlers while being called.
- Lru.ExecutionCache.Put: the doubly linked list is a sequence of element identities with their cells, not nodes with pointers.
- Paging.ListWorkflowExecutions: decoding of malformed cursors; a cursor is the last row itself, on an unchanged table.
