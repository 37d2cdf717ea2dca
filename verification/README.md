# Verification of incuse's runner orchestration

incuse keeps a pool of ephemeral GitHub Actions runners, one Incus instance each, for several runner
classes inside one Incus project. This project models the parts of it whose correctness is not visible in
any single function and proves them for all inputs, all interleavings and all outcomes of the calls into
Incus and GitHub. `dafny verify dfyconfig.toml` checks everything.

## How the model is laid out

The orchestrator appears twice, with the registry operations of `Tracking` as the common vocabulary.

* **As imperative code.** `Tracking` has the mutable registry (`InstanceTracker` over `TrackedRunner`
  objects whose fields change in place), `Permits` the counting semaphore, `Orchestration` the
  orchestrator's methods. Each method is proved against functions on registry values (`WithIdle`,
  `WithBusy`, `WithPending`, `Without`, `Terminated`, `Swept`).
* **As a state machine.** `Lifecycle` has one state per orchestrator and one step per section under a
  mutex or per start or return of an external call. Its actors are the calls of the three handlers, any
  number of spawn tasks, the reaper goroutine, the workers it starts, and the shutdown. `spawnMu` is a
  lock with steps inside its sections; `Apply` uses the same registry functions. A run is any sequence of
  enabled events from `Init`: `Legal(s, es)` and `Exec(s, es)`.

`SoloRuns` ties the two together: a goroutine of the state machine that nobody interrupts leaves what the method
leaves. What the specification functions mean is spelled out beside each of them, in a lemma or in the `ensures`
of the method, in terms of the fields, numbers and characters involved.

`LifecycleInvariant`, `Capacity` and `Obligations` carry the invariant; `LifecycleAccounts` and `Sums` are the
bookkeeping behind them. `Guarantees`, `Orders`, `RunnerLives` and `ScalingUp` draw the conclusions over runs.
`EarlyJobs`, `Surplus` and `Verdicts` deal with what holds only conditionally, with the help of the pieces of runs
in `Schedules`. `ParallelSweep` shows that the parallel timeout sweep equals the loop of `SweepSpec`, and
`ParallelDrift` the same for the drift sweep; `LiveSweep` carries whole sweeps out. `Fleet` composes the
orchestrators of all classes around the two limiters and the release resolver they share; `Rest` shows that under
every schedule their work comes to an end, `FleetShutdown` shuts one of them down among the others, and
`SharedHost` puts them on one Incus project.

`RunnerNames`, `Decimals`, `ClassConfig`, `Labels`, `ReleaseCache` and `ScaleSets` cover naming, the class part
of validation, label handling, the release cache, and the bootstrap of a scale set. Loops and in-place updates
of the program are loops and updates here, proved against functions whose properties are separate lemmas.

The fields of `History` and `Books` record what has happened. The program's steps never depend on them; they
occur in two assumptions about its environment: a chosen name is new (`CanAct`), and no instance appears
under a name whose Launch was never called (`Enabled`).

## What holds only conditionally

Each of these has a run that shows the failure and a theorem that says when there is none.

* **No teardown during a launch.** `markBusy` turns a launching runner busy, so `terminateInstance` no longer
  defers. The guarantee (`NoTeardownDuringLaunch`) holds unless a job-started event for the name arrived before
  its launch was over. `ProvisoExact` shows that the proviso cannot be dropped in any reachable state with a
  launch in flight, and `EarlyJobTearsDownLaunch` that such states are reachable.
* **A request before the launch prevents it** (`RequestForestallsLaunch`), again unless a job of the runner starts
  early: its completion then removes the record, and the request with it, and the launch goes ahead. From every
  state with such a request there is that run (`EarlyJobUndoesRequest`).
* **BusyAt at or after MintedAt.** It holds also for jobs that start during the launch. It can fail only if the
  job-started event arrived before MintedAt was taken: the handler read the clock then and marks the record
  when it has been added. `BackdatedExactly` has both directions for every reachable state with a runner
  that is minted and not stamped, `StampedInTime` says that after the stamp it is too late, and
  `EarlyJobBackdates` that the failure is reachable.
* **The capacity bound** is on tracked plus in-flight runners (`CapacityBound`). `terminateInstance` removes the
  record before it stops and deletes the instance, so MaxRunners does not bound the instances:
  `InstancesUnbounded` has a run with any number of them. `PoolBounded` says what is bounded: every instance is a
  leftover, a runner whose record is gone, or one of at most MaxRunners tracked ones.
* **The sweep** acts on a snapshot. A runner whose record is not past its timeout any more may still be reaped: one
  whose job has just started for its registration timeout (`BusyRunnerReaped`), and one that was busy for too
  long and was stamped anew by a further job-started event for its job duration (`RestampedRunnerReaped`).
  `TornDownByVerdict` says exactly when, over all interleavings: the snapshot's record was past its timeout, and the
  record as it is by now is not past it if and only if the time it goes by comes from a job-started event
  that was handled since and is recent enough; a runner that was not busy then is busy now if and only if
  such an event was handled since. `StaleWorkerGoesAhead` shows that nothing else is needed. What a sweep
  leaves behind as a whole is stated for one that nothing else interrupts.
* **`makeRunnerName`** is not well formed on all strings, and indexes out of range for one suffix length.
  `Misnamed` is the exact set of inputs; none of them occurs with validated classes and 8-digit suffixes.

## Where the code and its documentation differ

* `docs/operations.md:86` says that in-flight runners are unaffected by a restart. A new process starts with
  an empty tracker, so its drift sweep tears them down as orphans. The model follows the code:
  instances in `hist.prior` are orphans like any other.
* `internal/orchestrator/orchestrator.go:117-118` calls the default suffix an 8-byte hex string. The code
  takes 4 bytes, which are 8 hex digits, and the 54-character cap relies on that.

## Parameters and assumptions

* Outcomes of external calls (mint, render, Launch, Stop, Delete, List, RemoveRunner, release fetch, opening a
  session) are parameters: a `Choice` per step, `Outcomes` per sequential spawn, `Call` and `Attempt` values.
  Each call returns eventually, with any outcome. A failed Launch may leave its instance behind.
* The clock is an integer that does not go back. Time of day, durations and timers are integers too.
* The events `Appear` and `Vanish` let a launched instance show up at any moment, also after a failed Launch, and
  let any instance disappear on its own.
* In `Lifecycle`, `remote` holds the instances of one scale set. `SharedHost` derives this view from one host for all
  classes, where calls go by the name alone, under two assumptions: runner names come from `makeRunnerName` with
  8-digit suffixes, and so did the names of the leftovers that carry a scale set's tags.
* Stop and Delete are issued as a pair everywhere; which instances are gone after the pair is a parameter
  (`deletable`, or the choice at the return of Delete). Stopping or deleting an absent instance is not an
  error (`internal/incus/types.go:78-84`).
* Labels are proved for any lower-casing function. Runner names use the one that matters to them: A to Z and
  the two other code points that Unicode maps into a to z.

## Model

| member | source | states |
|---|---|---|
| Guarantees.NoTeardownDuringLaunch | internal/orchestrator/orchestrator.go:488-568 | in every run, no completion handler, reaper worker, drift-sweep worker or spawn task has a Stop or Delete of a name under way while its Launch call is in flight, unless a job of that name started before the launch was over |
| Orders.RequestForestallsLaunch | internal/orchestrator/orchestrator.go:497-505 | in every run, a spawn task whose record was flagged before its check never calls Launch, unless a job of that runner started early |
| Orders.EarlyJobUndoesRequest | internal/orchestrator/tracker.go:136-143 | the proviso is needed in every such state: there is a continuation in which that spawn task calls Launch all the same |
| Orders.StopBeforeDelete | internal/orchestrator/orchestrator.go:554-567 | in every run, an actor calls Delete for an instance only after a Stop call of its own for it has returned |
| Orders.NobodyGivesUpEarly | internal/orchestrator/orchestrator.go:136-143 | until a shutdown begins no spawn task gives its runner up for want of a permit and no handler gives a reservation back |
| EarlyJobs.ProvisoExact | internal/orchestrator/tracker.go:109-120 | from every reachable state with a launch in flight the proviso is necessary and sufficient: no continuation without an early job start tears the runner down, and one with it does |
| EarlyJobs.EarlyJobTearsDownLaunch | internal/orchestrator/orchestrator.go:335-377 | for every configuration and fresh name there is a run in which the runner is torn down during its own launch |
| EarlyJobs.BackdatedExactly | internal/orchestrator/orchestrator.go:335-353 | from every reachable state with a runner minted and not stamped: no continuation gives its record a BusyAt before its MintedAt unless a job-started event arrives before the stamp, and with such an event one does |
| EarlyJobs.StampedInTime | internal/orchestrator/orchestrator.go:445-469 | once MintedAt is taken without such an event, no continuation backdates the record, also with jobs that start during the launch |
| EarlyJobs.EarlyJobBackdates | internal/orchestrator/tracker.go:109-120 | for every configuration and fresh name there is a run that ends with BusyAt before MintedAt |
| Surplus.PoolBounded | internal/orchestrator/orchestrator.go:541-568 | whenever spawnMu is free, every instance is a leftover, a runner whose record was removed, or tracked, and of the last kind there are at most MaxRunners |
| Surplus.InstancesUnbounded | internal/orchestrator/orchestrator.go:552-567 | for every k there is a run that ends with at least k instances and nothing tracked or in flight |
| Verdicts.TornDownByVerdict | internal/orchestrator/reaper.go:26-63 | over all interleavings, a worker tears a runner down only if the record it was handed was in a snapshot and then due: busy and for longer than max_job_duration, or not busy and minted more than registration_timeout before the sweep began; the runner's present record is not past its timeout exactly if its BusyAt comes from a recent job-started event handled since the snapshot, and a runner not busy in the snapshot is busy exactly if such an event was handled since |
| Verdicts.VerdictOutdated | internal/orchestrator/reaper.go:39-63 | the same two equivalences for any record seen past its timeout at any snapshot of a run |
| Verdicts.Retimed | internal/orchestrator/tracker.go:92-134 | over any run only job-started handlers change what a timeout goes by, and BusyAt is the arrival time of one of those handled |
| Verdicts.StaleWorkerGoesAhead | internal/orchestrator/reaper.go:51-61 | from every state with a stale record in a worker's hands and its runner tracked, the job can start and the worker tears the runner down at that moment |
| Verdicts.RestampedRunnerReaped | internal/orchestrator/reaper.go:41-50 | for every configuration and fresh name there is a run in which a runner that was busy in the snapshot and has been stamped anew is about to be torn down |
| Verdicts.VerdictFrom | internal/orchestrator/reaper.go:28-31 | every worker's verdict is about a record of one of its run's snapshots |
| Verdicts.BusyNeedsStart | internal/orchestrator/tracker.go:109-120 | over any run, a runner becomes busy only by the step of a job-started handler for it |
| Verdicts.BusyRunnerReaped | internal/orchestrator/reaper.go:51-61 | for every configuration and fresh name there is a run in which a runner that was idle in the snapshot and whose job has just started is about to be torn down |
| Guarantees.DriftSweepSound | internal/orchestrator/reaper.go:68-101 | whatever the drift sweep tears down while others spawn was left by an earlier process, or its record was removed before the names were read and never comes back |
| LiveSweep.SweepCleans | internal/orchestrator/reaper.go:26-122 | from every state at rest that keeps the invariant there is a run of one whole sweep, from the ticker over both halves to its end, after which exactly the records that were due are gone, or flagged while launching, and exactly the instances of tracked runners are left; every untracked one got its sweeper |
| LiveSweep.LeftoversGo | internal/orchestrator/reaper.go:68-101 | so from every initial state the first sweep can take away all that an earlier process left |
| LifecycleInvariant.NamesRead | internal/orchestrator/reaper.go:69-89 | listing before reading the names, against adding before launching, makes every unknown listed instance a leftover or a removed one |
| Guarantees.RemovedForever | internal/orchestrator/tracker.go:72-76 | a removed name is never tracked again, in any run |
| Guarantees.NoRequestLost | internal/orchestrator/orchestrator.go:488-568 | in every reachable state each pending termination has a live actor bound to remove the record; when all actors are done no record is pending or launching and no reservation is left |
| Obligations.HandsOver | internal/orchestrator/orchestrator.go:519-529 | the hand-over between markForTermination and markIdle: the spawn task that finds the request terminates, and that termination does not defer |
| Obligations.PendingAct | internal/orchestrator/tracker.go:92-143 | every step of every actor keeps an actor bound to each pending record |
| Guarantees.NoRegistrationDropped | internal/orchestrator/orchestrator.go:425-536 | every nonzero registration ever minted is tracked, handed to RemoveRunner, ended by its job's completion or owed by an active actor; once all actors are done the last case is gone |
| Obligations.AccountedAct | internal/orchestrator/orchestrator.go:570-597 | no step of any actor loses track of a registration, on any failure, abort or shutdown path |
| Guarantees.CapacityBound | internal/orchestrator/orchestrator.go:283-331 | whenever spawnMu is free, spawnInflight is the sum of unsettled reservations, every reservation ever made is in flight, given back, tracked or removed, and tracked plus in flight is within the largest clamped target, so within MaxRunners |
| Capacity.ReservingKeeps | internal/orchestrator/orchestrator.go:293-299 | the reservation under spawnMu keeps the accounts; either nothing is reserved, or tracked plus in flight is at most this handler's target |
| Capacity.AddKeeps | internal/orchestrator/orchestrator.go:465-469 | turning a reservation into a record keeps the accounts, with the double count confined to the section under spawnMu |
| Capacity.BystanderKeeps | internal/orchestrator/orchestrator.go:385-397 | a step outside the sections under spawnMu keeps the accounts and changes neither spawnInflight, nor who holds spawnMu, nor what was reserved and given back, and adds no record |
| Capacity.CapacityApply | internal/orchestrator/orchestrator.go:283-331 | every event keeps lock discipline, accounts and bound |
| ScalingUp.ExactScaleUp | internal/orchestrator/orchestrator.go:283-317 | for any desired counts handled concurrently, with sweeps of both kinds, jobs, completions for unknown names and even a shutdown in between: if the spawn tasks' calls succeed, no start is refused, no job of a tracked runner completes and no record is found past its timeout, the settled pool has exactly MaxRunners runners if a larger count was delivered, and otherwise the largest of the counts delivered and of what was tracked or in flight before; none is launching |
| ScalingUp.LevelStep | internal/orchestrator/orchestrator.go:293-299 | only a reservation raises the level of the pool, and to its target exactly |
| Fleet.PermitsConserved | internal/orchestrator/orchestrator.go:126-147 | in every run of all classes the occupied slots of each limiter are the actors between its acquire and its release, and fit the capacity; the resolver's mutex has one holder at most |
| Fleet.ConcurrencyBounded | internal/orchestrator/orchestrator.go:126-147 | in every reachable state, over all classes together, at most max_parallel_mints mints and at most max_parallel_launches calls into Incus are under way, those of job-completed handlers aside |
| Fleet.HoldersCount | internal/orchestrator/orchestrator.go:399-407 | a holder's limiter is not empty |
| Fleet.ReleaseNeverBlocks | internal/orchestrator/orchestrator.go:145-147 | a release always finds a token, so every step that takes no permit is possible whatever the limiters hold |
| Fleet.DeadlockFree | cmd/incuse/main.go:125-127 | whatever all classes are doing, while work remains in one of them some step of the program is possible: waits for permits, for the resolver's mutex, for spawnMu and for workers do not close into a cycle |
| Fleet.DeadlockFreeFromStart | internal/orchestrator/reaper.go:103-122 | the same for every state reachable from the start |
| Rest.EveryScheduleRests | internal/orchestrator/orchestrator.go:250-536 | from every reachable state of all classes, the program's own steps, in any order and with any outcome of its calls, are at most as many as a measure says; and when none is possible any more, every class is at rest: no actor at work, no sweep under way, no shutdown that has not joined |
| Rest.InternalRunsEnd | internal/orchestrator/reaper.go:26-122 | each such step uses up the measure over actors, snapshot, listing and orphans |
| Rest.ComesToRest | cmd/incuse/main.go:125-127 | so there is a schedule that brings all classes to rest |
| Fleet.AllWaitingMeansFree | internal/orchestrator/orchestrator.go:481-495 | if every live actor waits for a permit, all slots of both limiters are free |
| Fleet.NoHoldAndWait | internal/orchestrator/orchestrator.go:399-407 | no actor waits for a permit while it holds one, or the resolver's mutex |
| Fleet.NobodyResolving | internal/runner/resolver.go:69-71 | the mutex is held across a fetch by an actor that can step: if nobody can, it is free |
| FleetShutdown.FleetWaitReturns | internal/orchestrator/orchestrator.go:253-259 | whatever all classes are doing, a class that is shutting down comes to the return of Wait by steps that are each one of its spawn tasks, of the holder of its spawnMu, or of the holder of the resolver's mutex, with no call succeeding and no permit granted; no other actor has to give a permit back |
| SharedHost.ClassesIsolated | internal/orchestrator/launch.go:46-54 | over every run of all classes on one host each class sees exactly the instances with its tags, and no actor of one class stops or deletes an instance of another, or one that another launched |
| SharedHost.ApartStep | internal/orchestrator/reaper.go:74-82 | every step of every class keeps names and slices apart, although Launch and Delete go by the name alone |
| RunnerLives.ShutdownDrains | internal/orchestrator/orchestrator.go:253-259 | after shutdown began, in every continuation: no spawn task is added, the steps of spawn tasks are bounded by a measure, and while one is left it or the holder of spawnMu can step without a permit |
| RunnerLives.WaitReturns | internal/orchestrator/orchestrator.go:253-259 | from wherever a shutdown has got to, steps that are each one of a spawn task or of the holder of spawnMu lead to the return of Wait, with no call succeeding and no permit granted |
| RunnerLives.ShutdownJoins | internal/orchestrator/orchestrator.go:319-331 | from the return of Wait on, however the run continues, no spawn task is at work, no record is launching, and what is in flight belongs to handlers still in their loop |
| RunnerLives.RecordLife | internal/orchestrator/tracker.go:88-134 | over whole runs a record keeps its identity, moves only from launching over idle to busy, keeps a termination request, has BusyAt exactly while busy, and not before MintedAt unless a job-started event arrived before MintedAt was taken |
| RunnerLives.OneLaunchTask | internal/orchestrator/orchestrator.go:456-483 | each launching record has exactly one spawn task that will still look at it |
| ParallelSweep.ParallelIsSequential | internal/orchestrator/reaper.go:103-122 | for every snapshot order and every interleaving of workers, tracker, host and the registrations handed to RemoveRunner end as the sequential loop over the handed-out records leaves them: all of them, or a prefix if the context was cancelled |
| ParallelSweep.MidwayAct | internal/orchestrator/reaper.go:39-63 | each worker's step affects its own record and instance only, and in the way its position says |
| ParallelDrift.DriftIsSequential | internal/orchestrator/reaper.go:87-122 | for every interleaving of the goroutines that delete orphans, exactly those Incus deletes are gone from the host, of all orphans or, if the context was cancelled, of a prefix; tracker and registrations are untouched |
| SweepSpec.LoopIsSwept | internal/orchestrator/reaper.go:26-63 | the loop of reapTracked over distinct records equals an order-free description: stale records gone, stale launching ones flagged, all others unchanged |
| SweepSpec.SweptMeans | internal/orchestrator/reaper.go:39-63 | the order-free description record by record: due are busy runners with no BusyAt or one more than max_job_duration ago, and others minted more than registration_timeout ago; due ones are gone, or flagged while launching, and nothing else changes |
| SweepSpec.ReturnedMeans | internal/orchestrator/reaper.go:39-63 | exactly the nonzero registrations of due records are handed to RemoveRunner |
| SweepSpec.OrderIrrelevant | internal/orchestrator/tracker.go:145-156 | the order in which the snapshot lists the map does not matter |
| SweepSpec.ReturnedBothWays | internal/orchestrator/reaper.go:39-63 | the list of registrations the loop hands over and the set the workers hand over have the same members |
| Orchestration.Orchestrator.ReapOnce | internal/orchestrator/reaper.go:26-37 | after an uninterrupted sweep exactly the records that were due are gone or flagged, and exactly the nonzero registrations of those were handed to RemoveRunner; of the instances Incus deletes exactly those of due runners that were not launching are gone, and, unless the context ended or the listing failed, those tagged for this scale set and not tracked |
| Orchestration.Orchestrator.ReapTimeouts | internal/orchestrator/reaper.go:26-63 | record by record and instance by instance: exactly the busy runners that are busy for longer than max_job_duration and the others minted more than registration_timeout ago are removed and torn down, or flagged while launching, and exactly their registrations handed over, in the snapshot's order |
| Orchestration.Orchestrator.ReapTracked | internal/orchestrator/reaper.go:39-63 | terminates the runner and hands its nonzero registration over exactly if its snapshot is busy with no BusyAt or one more than max_job_duration ago, or is not busy and minted more than registration_timeout ago |
| Orchestration.Orchestrator.DriftSweep | internal/orchestrator/reaper.go:68-101 | tears down exactly the instances tagged for this scale set that are not tracked; nothing if the listing fails |
| Orchestration.BuildConfig | internal/orchestrator/launch.go:46-75 | the launch tags are the documented keys and values, the scale set's number reads back, and they match the drift sweep's filter for that number and for no other; nesting and privilege keys appear for containers only |
| Orchestration.Orchestrator.HandleDesiredRunnerCount | internal/orchestrator/orchestrator.go:283-317 | returns MaxRunners for larger counts, 0 for negative ones and the count itself in between; reserves exactly the missing runners, starts a task for each up to the point where a shutdown begins, before or within its loop, and gives the other reservations back |
| SoloRuns.DesiredCountAgrees | internal/orchestrator/orchestrator.go:283-317 | an uninterrupted handler of the state machine does the same: it reserves what is missing to the clamped count and starts that many tasks, or none once a shutdown has begun |
| Orchestration.Orchestrator.HandleJobStarted | internal/orchestrator/orchestrator.go:335-353 | marks the named tracked runner busy and changes nothing for an empty or unknown name |
| Orchestration.Orchestrator.HandleJobCompleted | internal/orchestrator/orchestrator.go:357-377 | terminates a tracked runner; an unknown or empty name touches neither tracker nor host |
| SoloRuns.CompletionAgrees | internal/orchestrator/orchestrator.go:357-377 | and so does an uninterrupted completion: it flags a launching runner, removes and tears down any other that is tracked, and leaves the rest alone |
| Orchestration.Orchestrator.SpawnIdleRunner | internal/orchestrator/orchestrator.go:385-484 | for every outcome of its calls, and whatever others do to its record while it waits for a permit or for Launch: the reservation is settled once, both permits are back, and the runner is tracked with its registration exactly if its launch goes through; otherwise record and registration are given up |
| Orchestration.SpawnEnds | internal/orchestrator/orchestrator.go:456-536 | a spawn whose launch does not go through leaves the registry as it was, one that does changes its own name only, and left alone it ends with an idle runner exactly if Incus was asked and succeeded |
| Orchestration.SpawnMeans | internal/orchestrator/orchestrator.go:456-536 | when a launch goes through and what is left of the record, in terms of the outcomes and of the job starts, requests and removals during the two waits |
| SoloRuns.SpawnAgrees | internal/orchestrator/orchestrator.go:385-536 | an uninterrupted spawn task of the state machine does the same: its runner is tracked as idle exactly if every call succeeds and both permits are granted, otherwise the registry is as before and a minted nonzero registration has been handed back |
| Orchestration.Orchestrator.Launch | internal/orchestrator/orchestrator.go:488-536 | whatever has become of the record, and whatever others do to it during the call - a job starts, its termination is requested, it is removed: the launch goes through if it got a permit, Incus succeeded and the record was not flagged before or by the end of the call; otherwise record and registration are given up, and the instance too if it was created and the record flagged |
| Orchestration.Orchestrator.TerminateInstance | internal/orchestrator/orchestrator.go:541-568 | flags a launching runner and touches nothing else; removes, stops and then deletes any other, also one that is not tracked |
| Orchestration.Orchestrator.RemoveRunnerById | internal/orchestrator/orchestrator.go:580-597 | hands over exactly the nonzero IDs |
| Tracking.InstanceTracker.Add | internal/orchestrator/tracker.go:66-70 | an existing record of the name is replaced, all others stay |
| Tracking.InstanceTracker.Remove | internal/orchestrator/tracker.go:72-76 | exactly this name is gone |
| Tracking.InstanceTracker.Get | internal/orchestrator/tracker.go:78-86 | the record's value, or the zero record and false |
| Tracking.InstanceTracker.MarkIdle | internal/orchestrator/tracker.go:92-104 | promotes only a launching runner, never demotes a busy one, and reports a termination request |
| Tracking.InstanceTracker.MarkBusy | internal/orchestrator/tracker.go:109-120 | busy with its time stamp from whatever state, and reports that state |
| Tracking.InstanceTracker.MarkForTermination | internal/orchestrator/tracker.go:125-134 | sets the flag and reports the state it found |
| Tracking.InstanceTracker.TerminationPending | internal/orchestrator/tracker.go:138-143 | whether the name is tracked and flagged |
| Tracking.InstanceTracker.Snapshot | internal/orchestrator/tracker.go:148-156 | every record exactly once, in some order |
| Tracking.InstanceTracker.Names | internal/orchestrator/tracker.go:158-166 | exactly the tracked names |
| Tracking.InstanceTracker.Size | internal/orchestrator/tracker.go:168-172 | the number of records |
| Permits.Limiter.Acquire | internal/orchestrator/orchestrator.go:136-143 | takes a slot exactly if one is free and the select picks it; with a cancelled context it may succeed or fail |
| Permits.Limiter.Release | internal/orchestrator/orchestrator.go:145-147 | gives one slot back |
| RunnerNames.SanitizeNamePart | internal/orchestrator/orchestrator.go:616-632 | the loop yields the maximal runs of letters and digits joined by single dashes |
| RunnerNames.SanitizedIsClean | internal/orchestrator/orchestrator.go:616-632 | the result has only letters, digits and single inner dashes; sanitizing is idempotent and leaves exactly such strings alone |
| RunnerNames.SanitizedReads | internal/orchestrator/orchestrator.go:616-632 | the result has the letters and digits of the input in lower case and in order, and keeps apart exactly what something else stood between |
| RunnerNames.ReadingDetermines | internal/orchestrator/orchestrator.go:616-632 | and there is only one string of letters, digits and single inner dashes with that reading |
| RunnerNames.SanitizedJoin | internal/orchestrator/orchestrator.go:616-632 | sanitizing distributes over a dash between parts that do not vanish |
| RunnerNames.NameWellFormed | internal/orchestrator/orchestrator.go:601-614 | for all inputs: the name has 1 to 63 characters, only letters, digits and single inner dashes, if and only if the sanitized parts avoid four listed cases |
| RunnerNames.NameMeans | internal/orchestrator/orchestrator.go:601-614 | the name, from the sanitized parts, in every case: what is cut off, and where |
| RunnerNames.SuffixKept | internal/orchestrator/orchestrator.go:599-614 | for every suffix that sanitizes to 1 to 61 characters the name is well formed and ends in a dash and the whole suffix |
| RunnerNames.NamePanics | internal/orchestrator/orchestrator.go:607-609 | the slice is out of range exactly if the sanitized suffix has 62 characters and the scale set's name does not vanish |
| ClassConfig.ScaleSetNameInjective | internal/config/labels.go:24-27 | under one prefix two classes share a name exactly if CPUs, memory, disk and lower-cased architecture agree |
| ClassConfig.ScaleSetNameReads | internal/config/labels.go:24-27 | the name is the prefix, the three numbers of the class in their places with their units, and the architecture, and the numbers read back |
| Decimals.ReadBack | internal/config/labels.go:25-26 | a rendered integer has a minus exactly if it is negative, and its digits, read one by one with the most significant first, are its magnitude |
| Decimals.DecimalForm | internal/config/labels.go:25-26 | they are digits without a leading zero |
| ClassConfig.ValidateClasses | internal/config/config.go:274-306 | reports every problem of prefix, limits, architectures, lengths and repetitions, each spelled out with its index, and none that is not there; nothing at all exactly if the configuration is acceptable |
| ClassConfig.CheckClass | internal/config/config.go:280-305 | the complaints about one class are exactly the justified ones, given the names seen and the baked architecture; lengths are counted in bytes |
| ClassConfig.NothingJustified | internal/config/config.go:274-306 | complaint by complaint there is nothing to report exactly if all classes are good, have distinct names, and share one architecture when the image is baked |
| ClassConfig.AcceptableMeans | internal/config/config.go:274-306 | under a valid prefix that is: there is a class, all numbers are positive, each architecture is amd64 or arm64, no name has more than 54 characters, no two classes have the same shape, and with a baked image all are of one architecture |
| ClassConfig.PrefixMeans | internal/config/config.go:341-348 | what the pattern for the prefix accepts |
| ClassConfig.ByteLengthMeans | internal/config/config.go:291-293 | lengths count bytes of UTF-8 |
| ClassConfig.RunnerNameParts | internal/orchestrator/orchestrator.go:601-640 | in a validated class nothing is ever cut off: the name is the sanitized prefix, the class and the suffix, and is well formed |
| ClassConfig.RunnerNamesApart | internal/config/config.go:339-348 | in any accepted configuration, for all classes and 8-digit suffixes, two runner names are equal only if class and suffix are |
| Labels.ScaleSetLabels | internal/config/labels.go:40-59 | the loop yields the first occurrence of each nonempty label up to case, in order |
| Labels.LabelsCover | internal/config/labels.go:40-59 | that is an order-preserving cover of the input without repetitions up to case, keeping the first casing |
| Labels.SameLabelsMeans | internal/scaleset/scaleset.go:402-422 | two label configurations match exactly if they mention the same labels, whatever their order, casing and repetitions |
| Labels.SortStrings | internal/scaleset/scaleset.go:414-415 | sorts in place and permutes |
| Labels.SortedUnique | internal/scaleset/scaleset.go:414-420 | sorted sequences with the same elements are equal, so sort and compare decides multiset equality |
| Labels.LabelNamesMatch | internal/scaleset/scaleset.go:402-422 | true exactly if the lower-cased names are equal as multisets |
| Labels.SameLabelsCount | internal/scaleset/scaleset.go:402-422 | that is, exactly if every label stands in both equally often up to case |
| ScaleSets.ReconcileScaleSet | internal/scaleset/scaleset.go:211-261 | creates what is missing under the given name and group, updates what differs to the given group and wanted labels under the old ID and name, returns the rest as it is; fails exactly if a mutation is due and not accepted, and then the service is unchanged |
| ScaleSets.ReconcileFixpoint | internal/scaleset/scaleset.go:208-261 | one reconcile yields the wanted labels under the old identity, mutates only on a difference, and a second one mutates nothing and returns the same set |
| ScaleSets.UpdatedIffRelabelled | internal/scaleset/scaleset.go:234-238 | reconciled with one configuration, a scale set is updated under another one exactly if the two do not mention the same labels |
| ScaleSets.OpenSessionWithRetry | internal/scaleset/scaleset.go:267-293 | at most 20 attempts; it stops at the first that is no 409, is the last allowed, or whose wait is cancelled; that attempt's outcome is the result; scheduled waits sum to at most 4350 seconds |
| ScaleSets.TotalWaitClosed | internal/scaleset/scaleset.go:200-206 | the sum of the first n backoffs in closed form |
| ReleaseCache.LatestResolver.Resolve | internal/runner/resolver.go:69-89 | answer, new cache and whether GitHub is asked, for every clock and fetch outcome, as functions of the old cache |
| ReleaseCache.ResolveMeans | internal/runner/resolver.go:65-89 | with caching on, over any history of calls: one asks GitHub exactly if no earlier call was brought a release for its architecture, or the last that was is at least the time to live ago; it answers what it is brought, else what that last one was, else fails |
| ReleaseCache.CacheIsLatest | internal/runner/resolver.go:69-89 | after any history of calls the cache holds exactly the latest successful fetch of each architecture |
| ReleaseCache.AnswersLatest | internal/runner/resolver.go:65-89 | every answer is the latest successful fetch for that same architecture, and an error comes exactly if there never was one |
| ReleaseCache.UncachedAsksAlways | internal/runner/resolver.go:73-88 | without a time to live the cache stays empty and every call asks GitHub |
| ReleaseCache.RefreshesApart | internal/runner/resolver.go:73-88 | under a monotone clock stored refreshes of an architecture are at least the time to live apart |
| ReleaseCache.RefreshRate | internal/runner/resolver.go:73-88 | any window of length w holds at most w / ttl + 1 of them |

## Left out

- Incus REST client, TLS and sockets: I/O over a foreign library; only the contract of Stop and Delete is used.
- GitHub's scale-set client and its listener loop: foreign code; they are the source of events and outcomes.
- Metrics, HTTP server and logging: no effect on the modelled state; the gauge may lag and is not described.
- Cloud-init templates and rendering: text; rendering succeeds or fails.
- YAML decoding, defaults, credentials, URL and file checks, and the rest of `Validate`: single-branch checks.
- `RunnerSpec`, `ScaleSetSpecs` and the launch request's devices, image, limits and minted-at tag: plain field copies.
- HTTP and JSON handling inside `fetch`: a fetch brings a release or fails.
- Lower-casing beyond A to Z and two other characters: it can change the byte length of a rejected architecture, which only affects whether NameTooLong is reported beside BadArch.
- Name collisions: `add` overwrites on a collision; the state machine and SpawnIdleRunner take chosen names to be new.
- Job events without a runner name: HandleJobStarted and HandleJobCompleted drop them; they are no events of the state machine.
- Failure of Stop with success of Delete, and the other way round: the pair has one joint effect.
- The listing is one observation of the host at the return of List.
- Repeated teardown: two actors may tear the same runner down; no exactly-once claim is made.
- Fairness: Rest.EveryScheduleRests bounds every schedule of the program's own steps; that some possible step is eventually taken, and that calls return, is assumed.
- RunnerLives.WaitReturns: takes the resolver's mutex, which other classes share, for free; FleetShutdown.FleetWaitReturns does not.
- Orchestration.Orchestrator.SpawnIdleRunner: runs one spawn from start to end; of other goroutines it sees what they do to its record at its two waits, all other interleavings are in Lifecycle.
- Orchestration.Orchestrator.Launch: the same for the one wait it has after its permit; between its own sections under the tracker's mutex nobody steps in.
- Orchestration.Orchestrator.ReapOnce: workers run one after the other here; their interleavings are in ParallelSweep and ParallelDrift.
- ParallelSweep.ParallelIsSequential, ParallelDrift.DriftIsSequential: other events than the sweep's and the cancellation are absent, as in the sequential loop.
- Labels.SortStrings: an insertion sort stands for the library's sort; only its contract is used.
- Duration overflow: attempt numbers and clocks are unbounded integers; attempts stay below 21.
