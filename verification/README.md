# Verified models of the agent runtime

Four parts of the runtime are modelled here in Dafny, with proofs about whole runs rather than single calls.

**Autonomous runs** (`src/agent/autonomous.cpp`). A run is a list of steps with dependencies, kept in a
persistent store. The manager plans, starts the first ready step, calls an executor that may finish, wait or
throw and may ask for more steps, and completes the run.

- `Autonomous`, `AutonomousCodec`, `Values`: the data, what each store write does, and the value forms.
- `AutonomousOperations`: every manager operation as the sequence of store writes it makes. A crash is a
  prefix of that sequence, and the executor is an arbitrary function of what it is shown.
- `AutonomousProtocol`, `AutonomousGuards`: a discipline for single writes, and that every operation keeps it
  at every write.
- `AutonomousHistory`: dependency safety and completion soundness over all histories of operations, each cut
  by a crash anywhere. `PlanGraph` has the graph reasoning behind it.
- `AutonomousEdges`: where a promise breaks, at crashes inside an operation, duplicate ids and cancelled runs,
  with the exact conditions. It also has the runs that are completed although a step failed or was cancelled.
- `AutonomousSchedule`: how much work a run does, in which order, and how it ends. `AutonomousPlans` says the same,
  and the safety of starts, in terms of the plans as the planner and the executor hand them over.
- `AutonomousEffects`: what each operation comes to when nothing interrupts it, as the record after it in terms of
  the record before, field by field.
- `AutonomousLedger`, `AutonomousOpenSteps`: agreement of the event log with the steps, and at most one open step.
- `AutonomousCrashLedger`: what is left of that agreement when operations are cut short.
- `AutonomousStore`, `AutonomousManager`, `AutonomousFileStore`: the store, the manager and the file store as
  classes whose methods update their fields, proved to make exactly the writes above. The file store is
  proved to answer like the memory store whenever its process is restarted.

The results over histories of a run assume that its step ids are unique, which nothing in the code enforces:
steps are looked up by the first match.

An executor is a function of its input, which is no loss within one `run`: the input holds the step with its
attempt count, and with unique ids no step is executed twice in one `run`.

**The bounded stream queue** (`include/agent/streaming.hpp`). `StreamQueue` is the queue object,
`StreamProtocol` interleaves any number of threads through its critical sections, waits and notifications
(with spurious wakeups), and `StreamLiveness` has the results.

**Retries** (`include/agent/execution.hpp`). `RetryDelay` is the back-off arithmetic with its `int` bounds,
`RetryLoop` the loop. Time and other threads are arguments: an attempt comes with the time it took, a token with
the observation from which on it reads as cancelled.

**Async runs** (`src/agent/async.cpp`).

- `AsyncPolicy`, `AsyncRuns`: policies, the stored form of a start request, normalisation and admission.
- `AsyncForest`: all steps that change the set of runs, as functions on worlds.
- `AsyncTopology`, `AsyncQuota`, `AsyncMirror`: the forest, the spawn quotas and the mirrored child histories,
  each for every world that operations reach.
- `AsyncOverrun`: a history of ordinary calls that exceeds a limit.
- `AsyncEffects`: what each step does to the status and the log of a run and to the log of its parent.
- `AsyncCancellation`: the registry of cancellation requests under any interleaving of its locked sections.
- `AsyncController`: store, controller and worker as objects that take exactly those steps.
- `AsyncCodec`: activities, ledgers and child results.

The task store and its queue are used through what `src/agent/tasks.cpp` does at the points that matter here:
creating a known id or a used idempotency key is refused, what is stored comes back, only queued tasks are
claimed. All async runs are tasks of one type, so a key is told apart by its owner and tenant.

## What the proofs found

- A plan whose number of steps equals the limit is finished and still ends with the limit error, with the run
  left running (`AutonomousSchedule.ExactWork`: all steps are completed, and the run is not).
- A crash after a step was completed and before its `next_steps` were appended loses those steps: this is so at
  exactly three cuts of an execution (`AutonomousEdges.CrashBeforeAppend`), and for good, because the step is
  never started again (`AutonomousEdges.LostForGood`).
- Two steps with one id break the promise that completed steps stay completed, exactly when a step is started
  while the first step with its id is completed (`AutonomousEdges.DuplicateIdLosesCompletion`). Ordinary calls
  reach such a state (`AutonomousEdges.TwinPlanLosesCompletion`).
- `run`, unlike `resume`, completes a cancelled run, exactly if nothing is left to do in it
  (`AutonomousEdges.RunCompletesCancelled`).
- `run`, and `resume` without retry, complete a planned run as it stands, failed steps and all, exactly if no step
  is running, ready or waiting (`AutonomousEdges.RunCompletesFailed`).
- After a cancellation that a crash cut short, `complete_waiting_step` puts the run back into the queue, exactly
  if the step was waiting and the crash came before the cancellation got to it
  (`AutonomousEdges.CompletionReopensCutCancel`).
- A cancellation that arrives between two attempts is lost if the older attempt clears its mark before the
  newer one registers (`AsyncCancellation.ClearedByPredecessor`). `AsyncCancellation.ToldIffMarked` says exactly
  when it is not lost.
- Resuming a failed child run is not checked against any limit (`AsyncQuota.ResumeIsUnchecked`): the limit
  still holds exactly if there was room for one more. Six ordinary calls make two active child runs where one
  is allowed (`AsyncOverrun.LimitOverrun`). The quotas hold up to the number of such resumes.
- The policy of a request replaces the controller's limits in both directions: it can tighten them and loosen
  them, and allow what the controller forbids (`AsyncPolicy.MergeInPlainTerms`, `AsyncQuota.ChildStartsIff`). The
  quotas are proved for requests without a policy of their own.
- `docs/async-agent-run.md:181-183` says that root and depth of a child are derived when they are not given; the
  code always takes them from the parent, and the model follows the code.

## Model

| member | source | states |
|---|---|---|
| `StreamQueue.BoundedStreamQueue.constructor` | include/agent/streaming.hpp:28-31 | an empty open queue; a capacity of zero becomes one |
| `StreamQueue.BoundedStreamQueue.Push` | include/agent/streaming.hpp:33-47 | after its wait a push appends or is refused; a refused push changes nothing and finds the queue stopped |
| `StreamQueue.BoundedStreamQueue.Next` | include/agent/streaming.hpp:49-65 | buffered events come first, in order; only a drained queue reports failure or end, when everything accepted was delivered |
| `StreamQueue.BoundedStreamQueue.Close` | include/agent/streaming.hpp:67-74 | sets the sticky flag and nothing else |
| `StreamQueue.BoundedStreamQueue.Fail` | include/agent/streaming.hpp:76-83 | sets the failure; no failure given means the closed error |
| `StreamProtocol.InvStep` | include/agent/streaming.hpp:33-83 | every step of any thread, spurious wakeups included, keeps: a sleeping producer implies free slots are at most woken producers plus pending notifies, likewise for consumers, and on a stopped queue sleepers have a broadcast coming |
| `StreamProtocol.InvAlongRun` | include/agent/streaming.hpp:33-83 | so this holds in every reachable state for any number of threads |
| `StreamLiveness.RestingSleepersMustWait` | include/agent/streaming.hpp:33-83 | no lost wakeup: at rest a producer sleeps only before a full queue, a consumer only before an empty one, nobody on a stopped queue, and never both kinds |
| `StreamLiveness.BothSidesAsleepMeansSomeoneMoves` | include/agent/streaming.hpp:33-65 | no deadlock: with a producer and a consumer asleep some thread can move without a new call |
| `StreamLiveness.InternalRunsAreShort` | include/agent/streaming.hpp:33-83 | without new calls the number of steps is bounded: no livelock |
| `StreamLiveness.ComesToRest` | include/agent/streaming.hpp:33-83 | from every state the threads can come to rest on their own |
| `StreamLiveness.OneStopWakesEverybody` | include/agent/streaming.hpp:67-83 | once any one close or failure has issued its two broadcasts nobody is asleep, then or ever after, whatever other calls are on their way |
| `StreamLiveness.StoppedQueueKeepsNobodyAsleep` | include/agent/streaming.hpp:67-83 | the same from every moment at which the queue is stopped and no broadcast is pending |
| `StreamLiveness.NothingLostOrReordered` | include/agent/streaming.hpp:33-65 | accepted events are the delivered ones followed by the buffered ones, and the buffer respects the capacity |
| `StreamLiveness.HistoriesOnlyGrow` | include/agent/streaming.hpp:33-83 | histories only grow; a stopped queue stays stopped and accepts nothing; drained, it delivers nothing more |
| `StreamLiveness.StopReportedOnlyWhenDrained` | include/agent/streaming.hpp:49-65 | end or failure is reported only after all accepted events were delivered |
| `StreamLiveness.LastFailureCounts` | include/agent/streaming.hpp:76-83 | in every reachable state the failure of the queue is the one that the last `fail` gave, or the closed error if it gave none |
| `RetryDelay.ResolveRetryDelayMs` | include/agent/execution.hpp:75-101 | the loop computes the plain delay without exceeding an `int`, and jitter of a positive delay d lands in d/2 to d-1 |
| `RetryDelay.ExponentialDelay` | include/agent/execution.hpp:83-93 | the plain delay is the smaller of base times two to the attempt minus one and the ceiling |
| `RetryDelay.DelayMonotone` | include/agent/execution.hpp:75-101 | later attempts never wait shorter, and never longer than the ceiling |
| `RetryDelay.TotalDelayLinear` | include/agent/execution.hpp:75-101 | consecutive delays sum to at most their number times the ceiling |
| `RetryDelay.TotalDelayGeometric` | include/agent/execution.hpp:75-101 | and to at most the geometric sum of the base delay |
| `RetryLoop.SleepWithCancellation` | include/agent/execution.hpp:135-151 | sleeps the whole delay in chunks of at most 50 ms and stops at the first look that finds the token cancelled |
| `RetryLoop.AfterFailure` | include/agent/execution.hpp:177-206 | a failure is retried exactly if attempts are left, the predicate approves and no cancellation is seen; the announced delay is the policy's |
| `RetryLoop.RunAttempts` | include/agent/execution.hpp:160-213 | at most max(1, max_attempts) calls; how each ending relates to the attempts, the announcements and the looks at the token |
| `RetryLoop.EndingInPlainTerms` | include/agent/execution.hpp:121-213 | a value is returned only from an attempt that came back in time; an error passed on or announced is the one thrown, or the timeout error of an attempt that came back too late; announced retries were approved, had attempts left and wait as the policy says |
| `RetryLoop.SingleAttempt` | include/agent/execution.hpp:153-214 | without a policy and a cancellation one attempt decides: its value in time, the timeout error too late, its exception else |
| `RetryLoop.ExecuteWithPolicies` | include/agent/execution.hpp:153-214 | the same with timeout and policy of the target: no timeout for permission checks and for absent or negative entries, and without a policy one call and no retry |
| `RetryLoop.EndingDetermined` | include/agent/execution.hpp:153-214 | two uncancelled endings of one call agree on outcome and number of calls |
| `RetryLoop.EverythingDetermined` | include/agent/execution.hpp:153-214 | without jitter the contract determines outcome, calls, announcements and looks, cancelled or not |
| `RetryLoop.WaitsBounded` | include/agent/execution.hpp:75-101 | the announced waits of a whole call stay within both bounds |
| `Values.MergeMetadata` | src/agent/autonomous.cpp:64-75 | the result has the keys of both, and the overlay's value where both have one |
| `AutonomousCodec.DatedRunRoundTrip` | src/agent/autonomous.cpp:1657-1668 | a run with object metadata and its three dates come back unchanged from the value form |
| `AutonomousCodec.DatedStepRoundTrip` | src/agent/autonomous.cpp:1670-1688 | likewise a step with its four dates, index, attempts and dependencies |
| `AutonomousCodec.StampedEventRoundTrip` | src/agent/autonomous.cpp:1690-1697 | likewise an event with its id and date |
| `AutonomousCodec.StampedCheckpointRoundTrip` | src/agent/autonomous.cpp:1699-1706 | likewise a checkpoint with its id and date |
| `AutonomousCodec.StepStatusRoundTrip` | src/agent/autonomous.cpp:466-504 | the status names decode to the statuses they encode |
| `AutonomousCodec.RunStatusRoundTrip` | src/agent/autonomous.cpp:446-494 | the same for run statuses |
| `AutonomousCodec.StatusNames` | src/agent/autonomous.cpp:446-504 | which names are which statuses, and that every other text means queued or pending |
| `PlanGraph.PendingMeansStuck` | src/agent/autonomous.cpp:39-52 | from each step a settled plan leaves pending, unmet dependencies lead to a missing id or around a cycle |
| `PlanGraph.SettledIsCompleted` | src/agent/autonomous.cpp:39-52 | a settled plan whose dependencies resolve without a cycle has every step completed |
| `AutonomousGuards.ExecuteGuarded` | src/agent/autonomous.cpp:1533-1633 | every write of an execution is legal, and together they change exactly the executed step, the run status and the appended steps as its result says |
| `AutonomousGuards.LoopGuarded` | src/agent/autonomous.cpp:1374-1402 | every write of the scheduling loop is legal, however it ends |
| `AutonomousGuards.SweepGuarded` | src/agent/autonomous.cpp:1516-1531 | going over the steps changes exactly the selected ones, each by a legal write |
| `AutonomousGuards.RunGuarded` | src/agent/autonomous.cpp:1374-1402 | every write of `run` is legal, planning and requeueing included |
| `AutonomousGuards.ResumeGuarded` | src/agent/autonomous.cpp:1404-1431 | every write of `resume` is legal |
| `AutonomousGuards.CompleteWaitingGuarded` | src/agent/autonomous.cpp:1433-1463 | every write of `complete_waiting_step` is legal |
| `AutonomousGuards.CancelGuarded` | src/agent/autonomous.cpp:1465-1491 | every write of `cancel` is legal |
| `AutonomousGuards.OperationGuarded` | src/agent/autonomous.cpp:1355-1655 | every write of every operation, for every planner and executor, is legal |
| `AutonomousHistory.StartsAreSafe` | src/agent/autonomous.cpp:39-52 | in every history with crashes a step is started only when each id it depends on names a completed step, which is still completed at every later moment |
| `AutonomousHistory.CompletedForever` | src/agent/autonomous.cpp:592-643 | in every history completed and cancelled steps stay so, attempts never fall, and ids, positions and dependencies never change |
| `AutonomousHistory.PrepareQuietly` | src/agent/autonomous.cpp:1501-1514 | preparing a planned run without interrupted steps only marks it running |
| `AutonomousHistory.CompletionIsSound` | src/agent/autonomous.cpp:1382-1390 | a run that `plan`, `run`, `resume` with retry and `complete_waiting_step` bring to Completed, across crashes, is settled; if dependencies resolve without a cycle every step is completed, else each pending one leads to a missing id or a cycle |
| `AutonomousEdges.DuplicateIdLosesCompletion` | src/agent/autonomous.cpp:592-604 | the start of a ready step takes some completion away exactly if the first step with its id is completed |
| `AutonomousEdges.TwinPlanLosesCompletion` | src/agent/autonomous.cpp:1374-1463 | for every plan of two steps with one id: after a run in which the executor waits and an external completion the first step is completed, and after three more writes of `run` it is running |
| `AutonomousEdges.CutExecution` | src/agent/autonomous.cpp:1533-1610 | the steps after every cut of an execution that asks for more steps |
| `AutonomousEdges.CrashBeforeAppend` | src/agent/autonomous.cpp:1590-1609 | the completion is stored and nothing appended exactly at the three cuts between the completion and the append |
| `AutonomousEdges.CompletedNeverStarts` | src/agent/autonomous.cpp:1379-1381 | no later history starts a completed step |
| `AutonomousEdges.LostForGood` | src/agent/autonomous.cpp:1590-1609 | after such a crash no later history starts the step that asked for the lost steps |
| `AutonomousEdges.RunCompletesCancelled` | src/agent/autonomous.cpp:1501-1506 | on a cancelled run `resume` writes nothing, and `run` completes it exactly if no step is ready and none waits |
| `AutonomousEdges.RunCompletesFailed` | src/agent/autonomous.cpp:1374-1431 | `run`, and `resume` without retry, complete a planned open run as it is, failed steps included, exactly if no step is running, ready or waiting |
| `AutonomousEdges.CancelClosesEverything` | src/agent/autonomous.cpp:1465-1491 | cancelling cancels every open step with the reason, leaves the others alone, and neither `resume` nor `complete_waiting_step` does anything afterwards |
| `AutonomousEdges.CutCancelStaysClosed` | src/agent/autonomous.cpp:1465-1491 | a cancellation that a crash cut short after its first write is not undone by `resume` |
| `AutonomousEdges.CompletionReopensCutCancel` | src/agent/autonomous.cpp:1433-1491 | for every cut: completing a step reopens the run exactly if the step was waiting and at most as many writes were made as open steps come before it, and one |
| `AutonomousSchedule.IndexKept` | src/agent/autonomous.cpp:694-716 | step i has index i, after every sequence of store writes |
| `AutonomousSchedule.PreviousStepsArePrefix` | src/agent/autonomous.cpp:1554-1562 | the previous steps given to the executor are exactly the list before the step |
| `AutonomousSchedule.IdleMeansDone` | src/agent/autonomous.cpp:1379-1391 | in an acyclic resolved plan the loop is idle only when all steps are done |
| `AutonomousSchedule.LoopWork` | src/agent/autonomous.cpp:1374-1402 | with an executor that always completes, each turn starts the least ready step until all are done or the budget is used up |
| `AutonomousSchedule.ExactWork` | src/agent/autonomous.cpp:1374-1402 | for the stored plan: n steps start once each, in topological order with the smallest ready index first; the run completes if n is below the limit, and otherwise stops with the limit error, still running, after exactly limit calls; the completed steps are then exactly the started ones, so all of them if n equals the limit |
| `AutonomousPlans.PlannedWork` | src/agent/autonomous.cpp:1374-1402 | for a plan whose steps have different ids and name only ids of the plan, in no circle: every step starts after all the steps its own plan entry names, the first that may start goes first, and the answer is the completed run if n is below the limit and the limit error otherwise |
| `AutonomousPlans.StartsFollowPlans` | src/agent/autonomous.cpp:39-52 | in every history with crashes a started step was brought by an earlier plan or by an executor, and all the ids its entry there depends on belong to steps completed then and at every later moment |
| `AutonomousLedger.ExecuteKeepsLedger` | src/agent/autonomous.cpp:1533-1633 | an execution adds one attempt and one start event to its step, and one completion event exactly if it completes it |
| `AutonomousLedger.OperationKeepsLedger` | src/agent/autonomous.cpp:1355-1655 | every operation keeps the agreement between log and steps |
| `AutonomousLedger.LogMatchesSteps` | src/agent/autonomous.cpp:1433-1610 | after every crash-free history attempts equals the number of start events, the k-th carries attempt k, and a step is completed exactly if the log has one completion of it, and never more |
| `AutonomousLedger.CreatedRunLogMatches` | src/agent/autonomous.cpp:1345-1353 | this holds for every run that the manager creates |
| `AutonomousCrashLedger.OperationIsTimely` | src/agent/autonomous.cpp:1355-1655 | every operation reports a start only after it was counted, and a completion only after it happened and only once, at every write |
| `AutonomousCrashLedger.LogNeverAhead` | src/agent/autonomous.cpp:1533-1633 | at every moment of every history with crashes the log has at most as many starts of a step as attempts, and at most one completion of it, which then is completed |
| `AutonomousOpenSteps.ResumeIsOrderly` | src/agent/autonomous.cpp:1404-1431 | resuming with retry leaves at most one step waiting or failed |
| `AutonomousOpenSteps.OrderlyForever` | src/agent/autonomous.cpp:1355-1491 | between crash-free calls of `plan`, `run`, `resume` with retry, `complete_waiting_step` and `cancel` no step runs, at most one waits or has failed, and the run's status shows which |
| `AutonomousEffects.ReadyIff` | src/agent/autonomous.cpp:39-52 | a step may start exactly if it is pending and each id it depends on is that of a completed step |
| `AutonomousEffects.ExecutorIsShown` | src/agent/autonomous.cpp:1537-1562 | the executor is given the run and the step as it is started: running, one more attempt, no error and no wait reason |
| `AutonomousEffects.ExecutionInPlainTerms` | src/agent/autonomous.cpp:1533-1633 | the executed step has the status, output, error, wait reason and merged metadata of its outcome and one more attempt, other steps stay; the run waits or fails with it; what was asked for is appended as given exactly on completion |
| `AutonomousEffects.ExecutionLogs` | src/agent/autonomous.cpp:1533-1633 | the events of an execution: the start with the number of the attempt, and the outcome |
| `AutonomousEffects.ExecutionNotes` | src/agent/autonomous.cpp:1533-1633 | its checkpoints: the started step, those of the executor, and the output of a completed step |
| `AutonomousEffects.PlanningInPlainTerms` | src/agent/autonomous.cpp:1355-1372 | a run without steps gets one step for each planned one, with its id, texts, input and dependencies, a checkpoint and an event; a planned run is left alone |
| `AutonomousEffects.PlanAsNoted` | src/agent/autonomous.cpp:77-93 | the checkpoint of a plan holds each step with its dependencies |
| `AutonomousEffects.PreparingInPlainTerms` | src/agent/autonomous.cpp:1501-1531 | preparing marks an open run running, puts interrupted steps back to pending with a reason, and leaves the others |
| `AutonomousEffects.PreparingLogs` | src/agent/autonomous.cpp:1501-1531 | its events: one for each interrupted step in order, and the start of the run |
| `AutonomousEffects.IdleInPlainTerms` | src/agent/autonomous.cpp:1382-1391 | with nothing to start a run waits if a step waits, and else is completed with id, title and output of every step |
| `AutonomousEffects.TurnsGoOn` | src/agent/autonomous.cpp:1379-1401 | each turn executes the first ready step, and the loop goes on exactly if the run is then neither waiting, failed, interrupted nor cancelled |
| `AutonomousEffects.ExternalCompletionInPlainTerms` | src/agent/autonomous.cpp:1433-1463 | a waiting step gets the given output and is completed, the run is queued, and any other step is left alone |
| `AutonomousEffects.CancellingInPlainTerms` | src/agent/autonomous.cpp:1465-1491 | the run and its pending, running and waiting steps are cancelled with the reason, the others stay, and one event says so |
| `AutonomousEffects.ResumeWritesNothingIff` | src/agent/autonomous.cpp:1404-1431 | `resume` writes nothing exactly for a completed or cancelled run, a run without steps and plan, and a waiting run in which a step waits and none is retried |
| `AutonomousEffects.PrepareWritesNothingIff` | src/agent/autonomous.cpp:1501-1508 | preparing writes nothing exactly for a completed or cancelled run |
| `AutonomousEffects.ResumeRetriesFirstFailed` | src/agent/autonomous.cpp:1410-1423 | resuming a failed run with retry first puts its first failed step back to pending without its error and logs it, and then runs |
| `AutonomousEffects.RetriedStepRunsNext` | src/agent/autonomous.cpp:1404-1431 | that step is the one executed next if its dependencies are met and those of no open step before it |
| `AutonomousStore.InMemoryAutonomousStore.CreateRun` | src/agent/autonomous.cpp:506-527 | files a new run with empty lists, or refuses a known id and changes nothing |
| `AutonomousStore.InMemoryAutonomousStore.GetRun` | src/agent/autonomous.cpp:529-541 | answers the record of the run and changes no answer |
| `AutonomousStore.InMemoryAutonomousStore.UpdateRun` | src/agent/autonomous.cpp:543-569 | changes the given fields of that run only; an unknown run is an error |
| `AutonomousStore.InMemoryAutonomousStore.ReplaceSteps` | src/agent/autonomous.cpp:571-579 | replaces the list by one step for each planned one, with the id, texts, input and dependencies of the plan |
| `AutonomousStore.InMemoryAutonomousStore.AppendSteps` | src/agent/autonomous.cpp:581-590 | appends one step for each planned one, with the id, texts, input and dependencies of the plan, numbered on |
| `AutonomousStore.InMemoryAutonomousStore.UpdateStep` | src/agent/autonomous.cpp:592-643 | changes the first step with the id only; an unknown step is an error and changes nothing |
| `AutonomousStore.InMemoryAutonomousStore.AppendEvent` | src/agent/autonomous.cpp:645-656 | appends to the log of its run, or refuses an unknown run |
| `AutonomousStore.InMemoryAutonomousStore.AppendCheckpoint` | src/agent/autonomous.cpp:658-669 | appends to the checkpoints of its run, or refuses an unknown run |
| `AutonomousStore.InMemoryAutonomousStore.ListRuns` | src/agent/autonomous.cpp:671-683 | lists exactly the runs that match status and metadata, each once, in the order of their ids |
| `AutonomousStore.MetadataMatches` | src/agent/autonomous.cpp:27-37 | the loop finds whether every key of the filter is there with the same value; a filter that is no object matches all |
| `KeyOrder.BeforeIff` | src/agent/autonomous.cpp:671-683 | the order of the ids: smaller where they first differ |
| `AutonomousStore.InMemoryAutonomousStore.NormalizedSteps` | src/agent/autonomous.cpp:694-716 | the loop yields for each plan step, in order, a pending step with its id, texts, input, dependencies and object metadata |
| `AutonomousManager.AutonomousRunManager.constructor` | src/agent/autonomous.cpp:1335-1343 | a limit of zero means 64 |
| `AutonomousManager.OutputFrom` | src/agent/autonomous.cpp:54-62 | id, title and output of every step |
| `AutonomousManager.CopyPrevious` | src/agent/autonomous.cpp:1556-1561 | the steps with a smaller index, in order |
| `AutonomousManager.FindReady` | src/agent/autonomous.cpp:1379-1381 | the first step that may start |
| `AutonomousManager.DependenciesDone` | src/agent/autonomous.cpp:39-52 | the loops find whether every dependency is there and completed |
| `AutonomousManager.AutonomousRunManager.CreateRun` | src/agent/autonomous.cpp:1345-1353 | a new run whose log holds its creation, or the store's refusal |
| `AutonomousManager.AutonomousRunManager.Plan` | src/agent/autonomous.cpp:1355-1372 | plans a run without steps, refuses an empty plan before writing, and leaves a planned run alone |
| `AutonomousManager.AutonomousRunManager.Run` | src/agent/autonomous.cpp:1374-1402 | makes exactly the writes of `run` to this run and none to others, and answers its record, the empty plan or the limit error |
| `AutonomousManager.AutonomousRunManager.RunPrepared` | src/agent/autonomous.cpp:1376-1401 | the loop over snapshots ends where the specification ends, with the same answer |
| `AutonomousManager.AutonomousRunManager.Resume` | src/agent/autonomous.cpp:1404-1431 | makes exactly the writes of `resume`, and none on a closed run |
| `AutonomousManager.AutonomousRunManager.CompleteWaitingStep` | src/agent/autonomous.cpp:1433-1463 | completes a waiting step by three writes; a missing or not waiting step is an error without writes |
| `AutonomousManager.AutonomousRunManager.Cancel` | src/agent/autonomous.cpp:1465-1491 | makes exactly the writes of `cancel` |
| `AutonomousManager.AutonomousRunManager.RequireSnapshot` | src/agent/autonomous.cpp:1493-1499 | the record of the run, or not found |
| `AutonomousManager.AutonomousRunManager.PrepareRun` | src/agent/autonomous.cpp:1501-1514 | plans, requeues and marks running in this order; nothing on a closed run |
| `AutonomousManager.AutonomousRunManager.SweepSteps` | src/agent/autonomous.cpp:1516-1531 | the loop over the snapshot's steps makes the writes of the specification in order |
| `AutonomousManager.AutonomousRunManager.ExecuteStep` | src/agent/autonomous.cpp:1533-1633 | the writes before, during and after the executor's call, for each way it can end |
| `AutonomousManager.AutonomousRunManager.CompleteRun` | src/agent/autonomous.cpp:1635-1655 | completes the run with the output of all its steps in three writes |
| `AutonomousFileStore.LoadPersisted` | src/agent/autonomous.cpp:795-850 | reading back what was written, whatever order the tables were visited in, gives the same runs and the same answer to every `get_run` |
| `AutonomousFileStore.LoadGroupsBack` | src/agent/autonomous.cpp:807-825 | reading groups back gives every key its list in order |
| `AutonomousFileStore.FileAutonomousStore.EnsureLoaded` | src/agent/autonomous.cpp:795-826 | loading makes memory answer what the file holds |
| `AutonomousFileStore.FileAutonomousStore.Persist` | src/agent/autonomous.cpp:828-850 | after persisting the file holds what memory answers |
| `AutonomousFileStore.FileAutonomousStore.CreateRun` | src/agent/autonomous.cpp:720-726 | like the memory store, and durable |
| `AutonomousFileStore.FileAutonomousStore.GetRun` | src/agent/autonomous.cpp:728-732 | answers the stored record, loaded or not |
| `AutonomousFileStore.FileAutonomousStore.ListRuns` | src/agent/autonomous.cpp:789-793 | lists exactly the stored runs that match, in the order of their ids |
| `AutonomousFileStore.FileAutonomousStore.UpdateRun` | src/agent/autonomous.cpp:734-740 | like the memory store, and durable |
| `AutonomousFileStore.FileAutonomousStore.ReplaceSteps` | src/agent/autonomous.cpp:742-750 | like the memory store, with the dependencies of the plan, and durable |
| `AutonomousFileStore.FileAutonomousStore.AppendSteps` | src/agent/autonomous.cpp:752-760 | like the memory store, with the dependencies of the plan, and durable |
| `AutonomousFileStore.FileAutonomousStore.UpdateStep` | src/agent/autonomous.cpp:762-771 | like the memory store, and durable |
| `AutonomousFileStore.FileAutonomousStore.AppendEvent` | src/agent/autonomous.cpp:773-779 | like the memory store, and durable |
| `AutonomousFileStore.FileAutonomousStore.AppendCheckpoint` | src/agent/autonomous.cpp:781-787 | like the memory store, and durable |
| `AutonomousFileStore.Restart` | src/agent/autonomous.cpp:795-826 | a new store on the same file gives every answer the old one gave |
| `AsyncPolicy.MergeChecksOverlay` | src/agent/async.cpp:142-171 | a merge succeeds only if the overlay alone is acceptable, and yields a normal policy |
| `AsyncPolicy.MergeInPlainTerms` | src/agent/async.cpp:142-171 | each field of a merge is the overlay's where it has one and the base's where it has not; an empty propagation becomes none |
| `AsyncPolicy.MergeFailsIff` | src/agent/async.cpp:125-171 | a merge fails exactly if a limit in force is negative or the propagation in force is unknown, and the limits are checked first |
| `AsyncPolicy.MergeIsIdempotent` | src/agent/async.cpp:142-171 | merging a merged policy again changes nothing |
| `AsyncPolicy.MergeIsAssociative` | src/agent/async.cpp:142-171 | merging normal policies one at a time is merging them all |
| `AsyncPolicy.PolicyRoundTrip` | src/agent/async.cpp:1836-1875 | every acceptable policy decodes to its normal form, a normal one to itself |
| `AsyncPolicy.PolicyDecodesIffChecked` | src/agent/async.cpp:1847-1875 | decoding refuses a stored policy exactly if it is not acceptable |
| `AsyncRuns.TopologySurvives` | src/agent/async.cpp:702-727 | the topology of a normalised request comes back unchanged from the stored task input, which decodes exactly if its policy is acceptable |
| `AsyncRuns.StoredDefaults` | src/agent/async.cpp:1958-1977 | what a stored run without a topology is taken for |
| `AsyncForest.StepChanges` | src/agent/async.cpp:1283-1571 | every step but a start changes at most one status, which one, and no topology |
| `AsyncEffects.RootInPlainTerms` | src/agent/async.cpp:1593-1607 | how a request for a root is filled in: own root, depth 0, the defaults of kind and role, all else as asked |
| `AsyncEffects.ChildInPlainTerms` | src/agent/async.cpp:1602-1633 | how a request for a child is filled in: root and depth from the parent, the defaults of kind, role and relation, all else as asked |
| `AsyncEffects.StartInPlainTerms` | src/agent/async.cpp:1056-1083 | a start adds one queued run with its first events, tells the parent of a child and changes nothing else |
| `AsyncEffects.BeginInPlainTerms` | src/agent/async.cpp:1317-1324 | the entries for a started attempt in the run's log and its parent's |
| `AsyncEffects.CompletionInPlainTerms` | src/agent/async.cpp:1368-1400 | a completed attempt: status, count of children, and the entries in both logs |
| `AsyncEffects.FailureInPlainTerms` | src/agent/async.cpp:1440-1454 | a failed attempt: status failed, and the entries in both logs |
| `AsyncEffects.StopInPlainTerms` | src/agent/async.cpp:1405-1439 | a stopped attempt: status cancelled, and the entries in both logs |
| `AsyncEffects.ResumeInPlainTerms` | src/agent/async.cpp:1519-1550 | resuming queues the run with three entries in its own log only |
| `AsyncEffects.CancelInPlainTerms` | src/agent/async.cpp:1552-1571 | cancelling, the same with its entries |
| `AsyncTopology.AdmittedTopology` | src/agent/async.cpp:1593-1669 | an admitted child names an existing, open, orchestrator parent and sits one below it with its root; an admitted root is its own root at depth 0 |
| `AsyncTopology.NeverPromoted` | src/agent/async.cpp:1106-1110 | the store shows every run with its stored role, and its child count is the number of its children |
| `AsyncTopology.LeavesAreBare` | src/agent/async.cpp:1621-1623 | a leaf has no children |
| `AsyncTopology.StepKeepsInv` | src/agent/async.cpp:1486-1571 | every operation keeps the forest and never changes a topology |
| `AsyncTopology.ReachableForest` | src/agent/async.cpp:1486-1494 | every reachable store is a forest; leaves have neither children nor a child count |
| `AsyncTopology.StartsUnderOpenParent` | src/agent/async.cpp:1613-1623 | a child starts only under a parent that is then neither completed nor cancelled |
| `AsyncTopology.KeysUsedOnce` | src/agent/tasks.cpp:62-69 | in every reachable store no two runs with a nonempty idempotency key have key, owner and tenant in common |
| `AsyncTopology.ReachesRoot` | src/agent/async.cpp:1627-1628 | parents lead from any run to its root in exactly depth hops, without repetition |
| `AsyncQuota.ChildStartsIff` | src/agent/async.cpp:1593-1669 | for requests with and without a policy of their own: a child is started exactly if its id and its idempotency key are new, its parent is an orchestrator neither completed nor cancelled, its role is one, the policy in force is acceptable and does not forbid spawning, and all four limits in force leave room |
| `AsyncQuota.RootStartsIff` | src/agent/async.cpp:1593-1641 | a root is started exactly if its id and its idempotency key are new, its role is one and the policy in force is acceptable |
| `AsyncQuota.StepKeepsQuotas` | src/agent/async.cpp:1519-1669 | every operation keeps the quotas |
| `AsyncQuota.QuotasHold` | src/agent/async.cpp:1635-1669 | depth and children per parent never exceed their limits; active children, global and per parent, exceed theirs by at most the failed child runs resumed so far |
| `AsyncQuota.BadLimitsStartNothing` | src/agent/async.cpp:136-140 | under a negative limit no run ever starts |
| `AsyncQuota.ResumeIsUnchecked` | src/agent/async.cpp:1519-1534 | resuming a failed child adds one active child whatever the limits, so each of the two limits on active children holds afterwards exactly if there was room for one more |
| `AsyncOverrun.LimitOverrun` | src/agent/async.cpp:1519-1534 | with one active child run allowed, a history from the empty store (start a parent, start a child, claim it, let it fail, start a second child, resume the first) ends with two |
| `AsyncMirror.StepKeepsMirrors` | src/agent/async.cpp:1056-1083 | every operation keeps the two logs of every child in agreement |
| `AsyncMirror.ChildHistoriesAgree` | src/agent/async.cpp:1305-1314 | what a child's log says about it is what its parent's log says about it, event by event, beginning with the only queued event |
| `AsyncCancellation.AlwaysTold` | src/agent/async.cpp:1249-1281 | under every interleaving a run with a pending request and a registered token has that token cancelled |
| `AsyncCancellation.OlderLeavesNewer` | src/agent/async.cpp:1275-1281 | an older attempt's unregister does not remove a newer token |
| `AsyncCancellation.CancelledStays` | src/agent/async.cpp:1254-1273 | a cancelled token stays cancelled |
| `AsyncCancellation.ToldIffMarked` | src/agent/async.cpp:1249-1281 | an attempt's token is cancelled exactly if a cancellation was marked before it registered and not cleared in between, or while it was registered |
| `AsyncCancellation.FailedIffNotMarked` | src/agent/async.cpp:1423-1454 | an attempt that throws a `std::exception` is recorded failed exactly if it was not told and no cancellation is pending |
| `AsyncController.OutcomeAsRecorded` | src/agent/async.cpp:1403-1454 | the outcome that the worker records for an exception is the one that the registry's state decides |
| `AsyncCancellation.ClearedByPredecessor` | src/agent/async.cpp:1459-1460 | a history in which a mark set before an attempt registers does not reach it |
| `AsyncCancellation.CancellationRegistry.MarkCancelled` | src/agent/async.cpp:1254-1260 | records the reason and cancels the registered token |
| `AsyncCancellation.CancellationRegistry.ClearCancelled` | src/agent/async.cpp:1262-1265 | forgets the request and nothing else |
| `AsyncCancellation.CancellationRegistry.RegisterActiveToken` | src/agent/async.cpp:1267-1273 | registers the token, cancelled if a request is pending |
| `AsyncCancellation.CancellationRegistry.UnregisterActiveToken` | src/agent/async.cpp:1275-1281 | removes the entry only if it is this token's |
| `AsyncCancellation.CancellationRegistry.IsCancelled` | src/agent/async.cpp:1249-1252 | whether a request is pending |
| `AsyncController.AsyncRunStore.DirectChildCount` | src/agent/async.cpp:254-269 | the loop counts the children of a run |
| `AsyncController.AsyncRunStore.GetRun` | src/agent/async.cpp:1085-1113 | the run as the store shows it |
| `AsyncController.AsyncRunStore.Create` | src/agent/async.cpp:1056-1083 | refuses a known id or a used idempotency key; otherwise stores the request with its first events, and tells the parent about a child |
| `AsyncController.AsyncRunStore.EmitChildLifecycle` | src/agent/async.cpp:1305-1314 | a lifecycle event goes to the child's log and to its parent's, and a root emits none |
| `AsyncController.AsyncAgentRunController.FillTopology` | src/agent/async.cpp:1593-1633 | fills the request in field by field, with the refusals in the source's order |
| `AsyncController.AsyncAgentRunController.CountChildren` | src/agent/async.cpp:1647-1664 | one pass counts active children, children and active children of a parent |
| `AsyncController.MergeAgentPolicies` | src/agent/async.cpp:142-171 | merges field by field as the specification says, with the same refusals |
| `AsyncController.AsyncAgentRunController.EnforceChildAgentPolicy` | src/agent/async.cpp:1635-1669 | admits or refuses by the merged policy, in the source's order |
| `AsyncController.AsyncAgentRunController.StartRun` | src/agent/async.cpp:1486-1494 | takes exactly the start step, keeps forest and mirrored logs, and a refused start leaves no trace |
| `AsyncController.AsyncAgentRunController.ResumeRun` | src/agent/async.cpp:1519-1550 | queues a waiting or failed run again and refuses any other |
| `AsyncController.AsyncAgentRunController.CancelRun` | src/agent/async.cpp:1552-1571 | cancels a run that is not closed and refuses a closed one; with a worker the request is recorded and the running attempt's token cancelled |
| `AsyncController.AsyncAgentRunWorker.CancelRunning` | src/agent/async.cpp:1464-1477 | marks the run, cancels its token and its task, or answers that there is no such run |
| `AsyncController.AsyncAgentRunWorker.EndAttempt` | src/agent/async.cpp:1392-1454 | records status, ledger count and events of an outcome in order |
| `AsyncController.AsyncAgentRunWorker.CloseAttempt` | src/agent/async.cpp:1403-1460 | records completed exactly if the runner returned, failed exactly if nobody told it to stop and it did not stop by itself, and cancelled otherwise, with the last log entry saying so; forgets attempt and request; a foreign exception only forgets the attempt |
| `AsyncController.AsyncAgentRunWorker.RunOnce` | src/agent/async.cpp:1283-1462 | one attempt with any number of cancellations while it runs ends completed exactly if the runner returned, failed exactly if nobody told it to stop and it did not stop by itself, and cancelled otherwise; forest, logs and registry are kept |
| `AsyncController.CancelDuringAttempt` | src/agent/async.cpp:1552-1562 | a cancellation through the controller while an attempt is registered reaches it: however it then throws, the run ends cancelled |
| `AsyncCodec.ActivityRoundTrip` | src/agent/async.cpp:1671-1699 | a trip keeps everything but a negative iteration, which becomes 0, and a second trip changes nothing |
| `AsyncCodec.NoActivity` | src/agent/async.cpp:1684-1699 | what a missing activity is read as |
| `AsyncCodec.TokensRoundTrip` | src/agent/async.cpp:1720-1733 | every token figure and source survives |
| `AsyncCodec.LedgerRoundTrip` | src/agent/async.cpp:1701-1779 | counts and token figures survive, details gain the six lists and keep the rest, and a second trip changes nothing |
| `AsyncCodec.OlderLedger` | src/agent/async.cpp:1701-1779 | how a ledger of the older form is read: token figures beside the counts, tool calls under another name, child runs by their list |
| `AsyncCodec.ResultRoundTrip` | src/agent/async.cpp:1781-1834 | texts, ids, status and counts survive, lists and metadata are normalised, and a second trip changes nothing |
| `AsyncCodec.TextOnly` | src/agent/async.cpp:1781-1834 | a result with only a text has it as summary and output, and defaults for the rest |
| `AsyncCodec.StatusRoundTrip` | src/agent/async.cpp:1019-1046 | the status names decode to the statuses they encode |

## Left out

- Clocks, uuids and the ids that stores generate for events and checkpoints: `AutonomousCodec` carries dates and ids as the text they are, and the stores, the manager and the file store are modelled without them. A plan step without an id is taken with the id it is given.
- Completed runs that are run again, beyond the legality of every single write.
- JSON text and file I/O: a file holds a value tree. Numbers are exact reals, so integers are exact, as they are in a double up to 2^53; `not a number` does not occur.
- A negative step index in a file wraps around in the source; here it is read as zero. The store never writes one.
- A file that was not written by the store: loading is modelled for every value tree, but the file store's methods require tables in which runs are filed under their own ids, lists belong to runs and metadata are objects.
- `PgAutonomousStore` and its SQL.
- The manager is an object over the memory store; over the file store it would make the same calls with the same answers.
- Exceptions of the store, the planner or a checkpoint callback, executors that throw something other than a `std::exception` (like a crash, they end the operation at the last write), and manager calls from inside an executor.
- Mutexes and condition variables themselves: a critical section is one step, `wait` may wake spuriously, and no fairness is assumed. `closed()` and the default capacity are not modelled.
- Real time: sleeping and timeouts are arithmetic on given durations. `RetryLoop` assumes that the retry predicate and the announcement callback do not throw.
- The check-then-create of async starts takes no lock in the source; starts are taken one at a time.
- A child event reaches its own log and its parent's in one step; two workers emitting for the same run at the same time are not interleaved between the two appends.
- A worker's end of an attempt overwrites the status whatever it is by then, as `queue.complete` and `queue.fail` do; lease expiry, heartbeats and the order of the queue are not modelled.
- A token's identity: the source compares addresses of tokens on the stack, and a reused address is not modelled.
- `AsyncController.AsyncRunStore.GetRun`: attempts, checkpoints, transcript, derived activity and result of a snapshot.
- `AsyncController.AsyncAgentRunController.CancelRun`: the payloads of its events, which differ with and without a worker.
- Start requests: model settings, retrieval, writeback, skills, context, knowledge options and planning, which travel with the request and do not influence the properties here.
- The two display dates of an activity, which are derived from its milliseconds and never read back; payloads of run-level async events; transcripts; activity derived from stream events.
- Model runners, prompts, streaming of model output, the C API, configuration, command line, knowledge, sandbox, permissions, workflows and servers: marshalling and plumbing, or other components.
