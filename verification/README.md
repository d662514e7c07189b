# duro, modelled in Dafny

duro turns a pipeline of stages into a durable DBOS workflow: each stage execution takes
a step ID and is checkpointed, a crashed run is replayed from its checkpoints on any
executor of its fleet, and the fleet keeps itself alive with leases, takeovers and
execution records. This project models the three parts of it whose guarantees span whole
runs, and proves those guarantees.

**The pipeline engine.** `Values`, `Pipelines` and `Engine` model how PipeN's chained
observers push one item at a time through Step, Filter, Expand, Reduce, Pure, Switch,
Loop, Rescue, Sub, Via, Alongside, Parallel and FanOut, and how each durable execution
takes the next step ID. An attempt is driven by a partial map from step ID to outcome; a
crash is fuel running out, or an await on an outcome that was never recorded.
`Interpreter` is the same engine with its state changed in place, proved equal to
`Engine`. `Replay` is one simulation over the whole engine; `Determinism` and `Recovery`
turn it into theorems on arbitrary histories of crashes. `Safety` and `Guarantees` cover
the abort flag and what a scope fails with, what is left in flight, Sub and forks;
`LoopBound` a Loop's iterations; `FailFast` fail-fast and its limit; `ParallelChoice` and
`FailingBatches` what a batch stage fails with and lets through. `Streams` says without an
engine what a pipeline computes, failures included, as functions on streams, and `Dataflow`
that the engine computes it. `Shape` and `PipelineShape` are the fingerprint and the guard
built on it.

**Two concurrent stages.** `ParallelStage` is Parallel as a small-step system (workflow
goroutine, step goroutines and their retries, forwarders, semaphore, failure signal,
crashes) with its invariants, `ParallelPromises` what follows from them. `FanOutWatch` is
the await step of a cancelling FanOut racing its watcher over the children's states;
`AwaitStep` has the loops of both in their own form.

**The fleet.** `Tables` has the SQL statements on workflow_status, the leases and the
execution rows; `WorkerPool` the program's methods that issue them, Resume, Unsettled,
Launch and Close. `Fleet` is the state machine of many processes over one database,
`FleetInvariants` what each of its actions keeps, `FleetPromises` exclusive execution and
Unsettled, `Housekeeping` what sweeps, resumes and prunes do in it, and `FleetScenes` the
runs from a boot that show what those promises need. `Tracker` is the execution tracker of
one executor, split at its unlock points, and `ExecutionTracker` its methods and loops;
that no retried close reaches a newer execution, which Fleet's RetryEnd takes for granted,
is Tracker.NoCloseOfANewerExecution.

## What is assumed

- DBOS records a step's outcome before anything receives it, returns the record instead
  of running a recorded step, keeps of an error only its message, and does not execute a
  run twice at once on one executor. A dequeue and the start after it are one step. A
  stage starts only after a check that its run is not CANCELLED, and an outcome never
  overwrites a cancellation.
- An ro observer ignores events after its first Error or Complete; ro's FlatMap and Map
  call their projection for later items even after an error has gone downstream.
- No stage function returns duro.ErrAborted itself (`Honest`).
- A live process beats before its lease is older than any stale threshold in its fleet;
  one process at a time uses an executor ID; a process that tombstones its lease is gone;
  tokens and nonces are unique. Besides dequeue and recovery, only a caller that starts an
  existing run's ID again changes which executor the run's row names, and it changes
  nothing else.
- Go's type checker rules out results of the wrong type; the engine reads them as the
  type's zero value. `%q` is modelled as plain quotes.

## Where the code and its documentation part

- duro.go:32-34 says that once any stage fails no item behind it runs another stage. A
  Loop that hits its bound does not raise the abort flag (flow.go:188-190): a
  counterexample, and the exact condition, are below.
- fanout.go:548-550 says that the batch fails with the triggering child's error. It fails
  with the first outright failure in input order (fanout.go:591-599).
- register.go:124-127 offers a run's ID as an idempotency key, and executions.go:376-377 says
  that DBOS then rewrites the run's executor_id. Takeover goes by that column
  (workerpool.go:710-722), so such a call on a PENDING run, from another executor that then
  leaves, has the run executed twice at once: a run of the fleet that does it, and the
  guarantees for every run that is not disturbed so, are below.
- workerpool.go:783-786 says that a dead executor's rows count for nothing in Unsettled.
  They do, through NOT EXISTS (executions.go:404-407): the exact condition is below.
- executions.go:116-118 says that a failed close is retried until it lands. A begin that
  gives up can overwrite it (executions.go:193-195): again the exact condition is below.

## Model

| member | source | states |
|---|---|---|
| Determinism.Simulation | duro.go:519-533 | two attempts whose outcomes agree up to error identity ask for the same steps, in order, with the same items and causes, and finish with the same values or message, for every pipeline |
| Determinism.RunAlike | run.go:31-45 | a Run that finishes yields the same single value, or the same message, on every attempt whose outcomes agree |
| Replay.SimRescue | flow.go:253-279 | a Rescue handler gets an equal cause, and leaves an equal result, however the identities of live and recorded errors differ |
| Replay.SimAlongside | flow.go:384-421 | the same for Alongside, whose side step has its ID before the embedded pipeline runs |
| Replay.SimDoneParallel | parallel.go:134-161 | Parallel's choice of error, its emissions and its flag are the same on replay, though outcomes carry other identities |
| Recovery.CommitReplayable | duro.go:519-533 | one more attempt, crashing anywhere with any subset of its in-flight outcomes recorded, leaves a log that replays |
| Recovery.LogOnlyGrows | run.go:67-78 | no record is lost or changed by a later attempt |
| Recovery.CrashReplay | duro.go:519-533 | over any history of crashes, each attempt asks for a prefix of what one crash-free run over the final log asks for, under the recorded names, and if it finishes has that run's result |
| Recovery.FinishedAlike | run.go:49-60 | any two attempts of a run that finish asked for the same steps and have the same values or message |
| Recovery.LostInFlight | parallel.go:79-161 | a log that lost any of the outcomes its pipeline had not yet received replays to the same point, request for request |
| Guarantees.AttemptSettles | parallel.go:68-76 | at every death the step IDs without a received outcome are the awaited one or were themselves taken ahead by a Parallel or Alongside; an attempt that finishes has received them all, each with its outcome, and never fails with ErrAborted |
| Guarantees.FailureRaisesFlag | duro.go:502-533 | a scope that fails does so with what one of its own stages makes of an outcome of this run, the one that raised its abort flag, or with the bound of one of its Loops after a recorded refusal; a scope with the flag up was raised like that and fails; never with ErrAborted |
| Guarantees.AlongsideIsABarrier | flow.go:384-421 | when an item has come through an Alongside, every step ID taken on the way is received and has its outcome |
| Guarantees.ParallelIsABarrier | parallel.go:134-161 | a Parallel that has completed, whatever came of its batch, has received every outcome it launched |
| Guarantees.RescueShields | flow.go:249-279 | a Rescue whose embedded run fails asks its handler with the item and the message, drops what that run had emitted and emits the handler's answer alone; it raises the outer flag if and only if the handler fails, and asks for nothing if the run succeeds |
| Guarantees.AlongsideDecides | flow.go:384-421 | the side step is asked for first; a failed embedded run is the stage's failure; otherwise, and only then, a failed side step has its rescue step asked for, which decides |
| Guarantees.SubIsSplicing | flow.go:296-300 | a Sub emits and records exactly what its stages spliced in its place would |
| Guarantees.ShapeGuard | run.go:67-78 | a run recorded under another fingerprint fails before any stage takes a step ID |
| Guarantees.StartStep | fork.go:46-54 | the loop finds the smallest step ID recorded under the stage's name, or reports that there is none |
| Guarantees.ForkReplayable | fork.go:55-62 | the records below any step ID form a replayable log, gaps included |
| Guarantees.ForkAtStage | fork.go:46-62 | forking at that ID reuses every record below it, replays no execution of the stage, and asks for the stage next |
| LoopBound.LoopKeepsBound | flow.go:163-193 | at most bound iterations an item; only a value with a recorded accepting verdict is emitted; the bound is reported at iteration bound after a recorded refusal |
| LoopBound.FlagStaysDownExactlyAtBound | flow.go:163-193 | a failing Loop leaves the abort flag down if and only if it hit its bound or its body left the flag down |
| LoopBound.SameTurnsOnReplay | flow.go:163-193 | every replay goes through the same iterations as far as it gets and stops at the same one in the same way |
| FailFast.FailsFast | duro.go:32-34 | in every scope no Loop of which carries a bound, a run fails if and only if its flag is up, takes no step ID once the failure has reached its result, and fails with what a stage makes of the last outcome asked for or of one of a Parallel's batch |
| FailFast.OnlyABoundGoesOn | duro.go:502-533 | in any scope, a failure after which a step ID was taken, or which left the flag down, is the bound of one of the scope's Loops |
| FailFast.LeavesFlagExactlyAtBound | flow.go:163-193 | a scope's failure is not the one that has its flag up if and only if one of its Loops hit its bound, and if and only if the error is ErrMaxIterations |
| FailFast.BoundIsNotFailFast | flow.go:188-190 | a run in which an item behind a Loop's bound failure still runs the stage in front of the Loop |
| FailFast.BoundThenFailure | flow.go:188-190 | a run whose error is a Loop's bound and whose flag is up: an item behind the bound has failed in front of the Loop |
| FailingBatches.ParallelDelivers | parallel.go:134-161 | Parallel hands on, in input order, the results ahead of the first failure of any kind; whatever stands behind it, it then fails with the chosen error, the flag up and no request more, or completes if there was none |
| FailingBatches.FanOutDelivers | fanout.go:419-433 | FanOut hands on each result before it asks for the next; it fails with the first failed child's error, or because a stage behind it failed, and asks for no result after that; otherwise it completes |
| Dataflow.RunIsSpec | duro.go:369-476 | a run that finishes, whatever fails in it, has the values or the error that the composition of the stages' stream functions has (map, filter, flatMap, fold, first matching case, bounded iteration, fallback, batch); the functions are in Streams and use nothing of the engine but its messages |
| Dataflow.RunWantsOne | run.go:31-45 | Run gives the one value, or fails naming none or several, or with the pipeline's own error |
| Dataflow.RescuedRunYields | flow.go:212-218 | a run of a Rescue whose handler always answers never fails: it yields what its embedded pipeline does, or the fallback |
| Streams.BranchDispatches | flow.go:56-71 | a Branch is if-then-else over its predicate, with no route to miss |
| Streams.RouteIsTheFirst | flow.go:85-115 | a Switch misses a route if and only if no case has the key, and takes the first that has |
| Streams.RescueReplaces | flow.go:212-218 | in any stream, a Rescue whose handler always answers puts the answer in the place of each item that failed and lets the others' outputs through |
| Interpreter.Session.RunStep | duro.go:519-533 | the flag is read and raised in place as Engine.RunStep says |
| Interpreter.Session.LoopItem | flow.go:163-193 | the loop over v and iteration computes Engine.LoopItem |
| Interpreter.Session.RescueItem | flow.go:249-279 | the child scope with its own flag computes Engine.RescueItem |
| Interpreter.Session.AlongsideItem | flow.go:384-421 | launch, embedded run, await on every path: Engine.AlongsideItem |
| Interpreter.Session.Collect | flow.go:473-482 | collectSub gathers what Engine.Collect says |
| Interpreter.Session.Forward | flow.go:458-469 | forwardSub sends an arm's items on and reports its end as Engine.Forward says |
| Interpreter.Session.NextReduce | duro.go:429-466 | acc and failed change as Engine.NextReduce says |
| Interpreter.Session.NextSwitch | flow.go:102-122 | routing, unmatched routes and arms: Engine.NextSwitch |
| Interpreter.Session.NextParallel | parallel.go:79-128 | launching an item: Engine.NextParallel |
| Interpreter.Session.DoneParallel | parallel.go:134-161 | drain, emit up to the first error, fail: Engine.DoneParallel |
| Interpreter.Session.DoneFanOut | fanout.go:419-433 | awaiting children one by one in input order: Engine.DoneFanOut |
| Interpreter.Session.DoneFanOutCancel | fanout.go:373-418 | watcher, one await step, emit: Engine.DoneFanOutCancel |
| Interpreter.Session.RunAll | run.go:49-60 | the whole run from the shape step on equals Engine.RunAll |
| ParallelChoice.FirstParallelError | parallel.go:217-234 | the scanning loop returns the error ParallelError chooses and the index of the first error of any kind |
| ParallelChoice.FirstGenuineMeaning | parallel.go:217-234 | the chosen error is the first that no sibling cancellation made |
| Values.UniqueIDs | fanout.go:607-617 | the loop with its seen map deduplicates in order |
| Values.UniqueKeepsFirsts | fanout.go:604-617 | deduplication keeps every ID once, in the order of first appearance |
| ParallelPromises.ConcurrencyBound | parallel.go:89-127 | under every schedule at most maxConcurrent stage functions execute at once |
| ParallelPromises.BlockedHasStepAhead | parallel.go:89-91 | a blocked launch, drain or collection always has a launched step that can move |
| ParallelPromises.NeverStuck | parallel.go:79-161 | no reachable state short of delivery is at rest |
| ParallelPromises.AttemptEnds | parallel.go:79-161 | once the source's end is decided, a process makes a bounded number of moves, whatever the schedule |
| ParallelPromises.NothingRunsPastTheStage | parallel.go:62-76 | at the stage's Error or Complete no launched step is running, every one has its record, and every forwarder has handed its outcome over |
| ParallelPromises.CancellationNeverMasks | parallel.go:193-234 | with sibling cancellation the stage's error is the first failure, in input order, of a step that the signal did not halt, and what that step's function returned, over any mix of live, retried and replayed outcomes, if no function forges the mark |
| ParallelPromises.RecordsAreHonest | parallel.go:193-209 | under every schedule a step's record is what its function returned, unless the signal kept it from being called or cancelled its context: then, and without forging only then, it carries the mark |
| ParallelPromises.ForgedMarkMasks | parallel.go:184-186 | a function that does return the mark makes a stage fail with no genuine failure |
| ParallelPromises.FreedSlotLaunchesNothing | parallel.go:112-126 | once a genuinely failed step has given its slot back no function is called again: not on that slot, not for an item launched before, and not as a retry |
| ParallelPromises.DrainingCallsNothing | parallel.go:62-76 | once an error from outside has reached a stage that cancels siblings, no function is called any more |
| ParallelPromises.CompletesTheSameAgain | parallel.go:134-161 | after any crashes the stage completes with the same outcomes, up to error identity |
| FanOutWatch.NoCancelWithoutCause | fanout.go:619-673 | for any interleaving, crashes and resumes, no child is cancelled by the batch unless some child failed or was cancelled otherwise |
| FanOutWatch.CancelReachesAll | fanout.go:655-663 | the bulk cancellation leaves every live child of the batch cancelled and every other child as it was |
| FanOutWatch.AwaitIsRepeatable | fanout.go:552-602 | a normal return means every child is terminal and the ruling is the promised one, and every later execution of the await step rules the same, while no child is resumed or deleted |
| FanOutWatch.RecordedIsFinal | fanout.go:401-418 | once the await step is recorded, the parent keeps that ruling through every later crash, and through every resume and deletion of a child |
| FanOutWatch.RulesUnique | fanout.go:591-600 | the promise leaves exactly one ruling |
| FanOutWatch.ReportedExactlyWhenFirst | fanout.go:570-599 | a failed child is reported if and only if no child ahead of it in input order failed outright |
| FanOutWatch.TriggerIsNotAlwaysTheError | fanout.go:546-602 | a schedule in which the child that triggered the cancellation is not the one reported |
| FanOutWatch.AwaitComesToAnEnd | fanout.go:564-602 | from every reachable state in which the loop polls and a child has failed or all are terminal, the await step alone, no child moving of its own, cancels those still live and comes to its ruling |
| AwaitStep.Batch.Survey | fanout.go:641-654 | the counting loop: all children terminal if and only if the count is full, any failed if and only if the flag is set |
| AwaitStep.Batch.TryCancel | fanout.go:655-663 | a cancellation that goes through leaves nobody live, and touches nobody else |
| AwaitStep.Batch.WatchAndCancel | fanout.go:627-673 | the polling loop is a schedule of FanOutWatch; it returns nil only when every child is terminal, and does so within two rounds free of faults once a child has failed |
| AwaitStep.Batch.AssembleOutcome | fanout.go:570-600 | the gathering loop returns the ruling FanOutWatch.Rules promises, or an error exactly when a child is missing |
| FleetPromises.ExclusiveExecution | workerpool.go:710-722 | after every trace in which no caller on another executor started the run's ID while it was PENDING, at most one live process executes the run: the one its row names, or the one it was cancelled under, and then it cannot be resumed |
| FleetPromises.SettledStaysSettled | executions.go:352-410 | if Unsettled does not report a run undisturbed so far, its state is final, no live process is in any of its stages and none enters one, whatever follows, until somebody resumes it |
| FleetPromises.StageShows | executions.go:356-377 | an executing stage of a known run, still its executor's own, shows in the snapshot |
| FleetInvariants.SweepsSpareTheLiving | workerpool.go:718-721 | no sweeper adopts a run of a live process |
| FleetInvariants.ReachableKeepsInv | app.go:228-260 | which process holds which lease, that code runs only in launched processes on existing runs, and open rows, are kept by every action of the fleet |
| FleetInvariants.UndisturbedKeepsOwned | workerpool.go:710-722 | that a run's row names the one process whose code is on it is kept by every trace that does not disturb the run |
| FleetScenes.DisturbedRunsTwice | executions.go:376-377 | the condition is needed: from every state in which a second executor can start a PENDING run's ID again, its leaving and a third executor's sweep put two processes on the run |
| FleetScenes.TwoExecuteOneRun | register.go:124-127 | a run of the fleet from its boot that ends with two live processes inside a stage of one run |
| FleetScenes.SettledTooSoon | executions.go:352-410 | a run of the fleet from its boot in which a disturbed run, tracked by everybody, is settled and a stage of it begins afterwards without a Resume |
| Housekeeping.StartsAndTakeoversBounded | workerpool.go:697-705 | without a Resume, a run's starts are bounded by what its attempt limit leaves, and its takeovers by one more if it is running |
| Housekeeping.ParkedStaysParked | workerpool.go:703-705 | a dead-lettered run keeps its state and attempts and is never adopted or started until it is resumed |
| Housekeeping.ResumeAppliesOnce | control.go:68-94 | in every trace, each Resume that applies uses up one reopening of the run: at most one applies until the run is cancelled before a start, or a start parks it; starts of the resumed run do not make a second one apply |
| Housekeeping.ReopensExactly | control.go:73-79 | a step makes a run that Resume refuses one that it admits if and only if it cancels the run before its first start or starts it past its limit |
| Housekeeping.ResumeRevives | control.go:80-94 | an applied Resume gives the run its whole budget of starts and puts it on its own queue, or the internal one; nothing else changes |
| Housekeeping.ResumedRunStarts | control.go:80-84 | the next start of a resumed run, by whoever can start it, makes it PENDING there with its code running, not parked again |
| Housekeeping.CancelledThenResumed | control.go:117-121 | a run cancelled before its first start is resumed on the internal queue, its own having been cleared |
| Housekeeping.StrandedStaysAdoptable | workerpool.go:754-781 | a dead executor's run stays adoptable until taken over, cancelled, its executor ID is claimed again, or a caller starts its ID again |
| Housekeeping.PruneIsExact | workerpool.go:773-781 | a lease past the horizon is pruned if and only if no run adoptable through it exists |
| Housekeeping.PruneLagsTakeover | workerpool.go:330-333 | a lease is pruned only after a hundred of the pruner's thresholds without a beat |
| Housekeeping.SweepAdopts | workerpool.go:710-722 | the next sweep at the run's application and version puts it on its own queue, or the internal one, with its attempts and the rest of its row unchanged |
| Housekeeping.SweepTakesOnlyTheDead | workerpool.go:710-722 | a sweep changes a run if and only if it is PENDING at the sweeper's version and application, for an executor of that application whose lease has expired by the sweeper's threshold |
| Housekeeping.LeaveStrands | workerpool.go:460-474 | a tombstone makes the leaving process's runs adoptable at once |
| Housekeeping.PruneDirection | workerpool.go:787-791 | pruning rows never turns executing into settled if and only if no lease past the pruner's horizon is live by its own threshold |
| Housekeeping.HorizonSuffices | workerpool.go:331-333 | a pruner whose hundredfold threshold no lease's own threshold exceeds is on the safe side of that condition |
| Housekeeping.PruneUnsettles | executions.go:396-408 | the exact condition under which pruning turns a settled run back to executing |
| FleetScenes.PrunedRowsCount | workerpool.go:783-791 | a run of the fleet from its boot after which a prune does |
| FleetScenes.UntrackedAdopterGoesUnseen | executions.go:379-382 | a run of the fleet from its boot into the documented gap: a run once tracked and adopted untracked executes unseen |
| WorkerPool.Pool.Beat | workerpool.go:438-458 | a beat renews this process's lease or reports it stolen and changes nothing |
| WorkerPool.Pool.FirstBeat | workerpool.go:478-490 | the ID is live and a predecessor's rows closed before anything is dequeued |
| WorkerPool.Pool.Takeover | workerpool.go:710-752 | exactly the stranded runs return to a queue, no run's attempts change |
| WorkerPool.Pool.PruneLeases | workerpool.go:796-811 | rows and leases after the two statements in their order; no row outlives its pruned lease |
| WorkerPool.ResumeRun | control.go:154-182 | the transition applies exactly to resumable runs, resets the attempts and keeps or defaults the queue; a refusal changes nothing |
| WorkerPool.RefusalsExplained | control.go:169-181 | without a race each refusal names the run's state, and the catch-all answer does not occur |
| WorkerPool.UnsettledRuns | executions.go:423-466 | the loop reports the unsettled among the distinct IDs in order, or the first unknown ID |
| WorkerPool.ReportIsExact | executions.go:472-493 | a report holds a run if and only if it is unsettled, each once, with the snapshot's state |
| WorkerPool.App.Launch | app.go:234-260 | lease before queue runners, and only once |
| WorkerPool.App.Close | app.go:293-315 | maintenance, engine, beat, tombstone, in that order, the tombstone once and last |
| Tracker.RunningRowStaysOpen | executions.go:184-253 | for any interleaving, the row of an execution in `running` is open under its token |
| Tracker.NoCloseOfANewerExecution | executions.go:77-88 | whatever closes a row, its execution is over |
| Tracker.InterruptedOnlyIfCancelled | executions.go:267-302 | a context is cancelled only if its run was CANCELLED while that execution was running |
| Tracker.SeenIsHistory | executions.go:292-300 | the history that statement rests on records exactly such moments |
| Tracker.QueuedIsNotRunning | executions.go:190-204 | if no begin gives up, no run is queued to be closed while an execution of it is running |
| Tracker.NoCloseIsLost | executions.go:235-253 | if no begin gives up and executions of a run do not overlap, every open row whose execution is over is queued to be closed |
| Tracker.GivingUpLosesAClose | executions.go:190-196 | a begin that gives up loses a close if and only if the row is still open under an older, ended execution |
| Tracker.LossIsPossible | executions.go:190-196 | a run of the tracker from its boot in which it does |
| ExecutionTracker.ExecutionTracker.RecordStart | executions.go:211-231 | the retry loop succeeds if and only if a write does before the context ends, and may leave an open row when it fails |
| ExecutionTracker.ExecutionTracker.Begin | executions.go:184-204 | both maps and the row after a start, or the queued close after a failure |
| ExecutionTracker.ExecutionTracker.End | executions.go:235-253 | the row is closed or its close is queued, and no other row changes |
| ExecutionTracker.ExecutionTracker.CancelContexts | executions.go:292-300 | exactly the executions asked about that still run are interrupted |
| ExecutionTracker.ExecutionTracker.CancelObserved | executions.go:267-302 | a poll reaches exactly the executions whose runs are cancelled |
| ExecutionTracker.ExecutionTracker.ForgetCloses | executions.go:321-327 | the deletion loop drops exactly the closes that were written and not replaced |
| ExecutionTracker.ExecutionTracker.RetryEnds | executions.go:305-329 | one retry closes every row still under its queued token and no other; if the write succeeds it leaves none queued, if not all of them |
| Shape.FingerprintOf | pipe.go:61-78 | the loops over parts and inner compute Shape.Fingerprint |
| Shape.FingerprintInjective | pipe.go:36-78 | equal fingerprints mean equal shapes, at every depth, when names avoid arrow, brackets and bar, and keys also colon and equals sign |
| Shape.ArrowInNameIsAmbiguous | pipe.go:33-43 | without that, two shapes share a fingerprint |
| PipelineShape.SameShapeIsAlike | pipe.go:13-31 | shapes are equal if and only if kinds, names and arms agree at every depth |
| PipelineShape.GuardPassesExactlyTheAlike | run.go:67-78 | a replay passes the shape guard if and only if the pipelines are alike; otherwise no stage takes a step ID |

## Left out

- RunIsSpec: takes a step's outcome to be a function of its request; what a run records otherwise is in Recovery. It is about results; which step IDs are asked for in which order is in Guarantees, FailFast, LoopBound and FailingBatches, stage by stage.
- ShapeOf: Branch and Tap render under their own kinds in the source and share Switch's and Step's here, as Collect shares Reduce's.
- WatchAndCancel: waits are rounds of the children's own moves, given as an argument; elapsed time is not modelled.
- Session: the semaphore, the failure signal and the goroutines of Parallel are in ParallelStage only.
- Known: stands for "tracked" in SettledStaysSettled; the fleet only partly on tracking has the gap UntrackedAdopterGoesUnseen shows.
- dbos.Go's and queue.handle's own errors, per-attempt timeouts, backoff and retry predicates (a retry itself is ParallelStage.Retry), serialization and the goroutine check: plumbing of a step's outcome.
- Postgres, pools, transactions, DDL and advisory locks: each statement is one atomic guarded step, and takeover does not need its lock.
- Retention: it deletes finished runs with their rows; FanOutWatch has it as a child's deletion, Fleet does not have it.
- The rest of what DBOS does when a caller starts an existing run's ID (its attempt count, its handle): only the rewritten executor_id matters to duro.
- cancelRun, mustPipeline, concatQueues, strandedRuns, options and construction-time panics: settled by reading one branch.
- Send, Recv, SetEvent, GetEvent, ToStream, FromStream and Delay are plain checkpointed steps to the engine; UnsafeOperator promises nothing.
- Handles, jobs, schedules, queues, status and list queries, and the client wrap DBOS.
