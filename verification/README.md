# Verified models of Erabi's core

This project models the state machines and algorithms at the core of Erabi, a local
crawler studio, and proves what they guarantee.  `dafny verify dfyconfig.toml` checks
everything.

Protocols that several threads or tasks run together are transition systems with one
step per critical section or await point; their theorems are about every run.  Code that
changes state in place is also given as a class or a loop whose contract is a function of
the old state, and the theorems are about those functions.

| files | what they model |
|---|---|
| `DbWorker*.dfy` | the bounded database worker: admission, execution, shutdown, panics and lock poisoning |
| `Pacing*.dfy` | origin-scoped request pacing: deadlines, backoff, concurrency and the bounded registry of origins |
| `Progress*.dfy` | durable job progress merged with a lossy live broadcast into one event stream |
| `Robots*.dfy` | robots rules: parsing, matching, evaluation, the cache and single-flight fetching |
| `CanonicalJson.dfy`, `CanonicalPrint.dfy`, `JsonReader.dfy`, `CrawlSnapshot*.dfy` | canonical JSON, a reader of the JSON grammar to judge it by, and the two hashes of a crawl run snapshot |
| `Query*.dfy` | canonical URL queries |
| `Migration*.dfy` | the schema migration runner |
| `StructuralFacts.dfy`, `FactsEffects.dfy`, `CompleteSnapshot.dfy` | facts reconstructed from crawl evidence and the complete-snapshot decision |
| `CrawlerVersion*.dfy` | crawler versions: editing, publishing and cloning |
| `Wrappers.dfy`, `SetFacts.dfy`, `Text.dfy`, `CrawlRun.dfy` | shared definitions |

What stands for what: time is a natural number of milliseconds and every clock sample is at
most the current instant (samples may be stale where the program takes them before a lock);
`horizon` is the last instant the clock can represent; origins are numbered by key order;
identities come from a supply that never repeats; SHA-256 is a function on texts, injective
where a theorem says so; the codec of crawl delays, the percent-decoding of query names, URL
parsing and domain-scope validation are parameters.  SQL scripts are functions on the product
state that may fail in any call and leave the bookkeeping tables alone.  The live channel may repeat and
reorder, which is more than the broadcast channel does.  The number of waiter guards on all
origins together stays below 2^32.

## What the proofs brought to light

- Worker: the worker thread can end while an accepted job is unanswered, when another thread
  that found the lock poisoned is still failing the queue it took away (`EndedUnanswered`);
  `EndedMeansAnswered` gives the exact condition.
- Worker: a thread that panics between changing the shared state and notifying leaves a parked
  worker asleep with work to do (`WakeUpLost`); `ParkedMeansIdle` and `WakeLostExactlyBy` show
  that nothing else does.
- Pacing: an admission counts up before its next deadline is checked; if the clock cannot
  represent that deadline, the counter stays up for good and pins the origin
  (`OverflowLeaks`, `LeakPinsOrigin`).
- Pacing: when registration ids are exhausted, `register` fails but leaves the state it created
  for a new origin in the registry (`FailureMayAddOrigin`, exactly when by `FailureAddsOrigin`).
- Progress: an event whose publication failed stays unseen by a blocked stream until the next
  one (`SilentCommit`); `CompleteExactly` says when a blocked stream has everything.
- Robots: an origin already cached may be fetched once more (`CachedOriginMayBeFetchedAgain`),
  exactly in the window that `RefetchedExactly` describes.
- Migrations: a gap in the recorded versions is filled out of order (`GapIsFilled`), exactly
  when there is one (`RunsBelowExactly`); no sequence of calls leads to one (`PrefixHasNoGap`).
- Crawler versions: publishing checks nothing about seed hints, so a version can be published
  that can never be cloned (`DeadEnd`).
- Queries: an empty query stays an empty query, while a query of dropped pairs only becomes none
  (`EmptyQueryStays`, `DroppedPairsDoNotMatter`).

## Model

| member | source | states |
|---|---|---|
| DbWorkerSteps.StepKeepsInv | crates/erabi-db/src/worker.rs:120-157 | Every step of every interleaving of callers, shutdown threads, operation panics, worker panics and lock poisoning keeps the protocol invariant: jobs are accounted for by position in admission order, and permits and calls agree with it. |
| DbWorkerSteps.RunKeepsInv | crates/erabi-db/src/worker.rs:371-586 | The invariant holds after any run. |
| DbWorkerTheorems.AtMostOnce | crates/erabi-db/src/worker.rs:131-157 | In any run a job is invoked at most once, answered at most once, a real answer means it ran exactly once, and no accepted job is told that the worker is shutting down. |
| DbWorkerTheorems.RealResultsArePrefix | crates/erabi-db/src/worker.rs:446-548 | Real results form a prefix of admission order, and a job is invoked only after every earlier one was answered for real. |
| DbWorkerTheorems.EndedMeansAnswered | crates/erabi-db/src/worker.rs:371-435 | When the worker thread has ended, every accepted job has been answered exactly once if and only if no thread that took the queue away is still failing its batch. |
| DbWorkerTheorems.EndedUnanswered | crates/erabi-db/src/worker.rs:190-198 | That condition is needed: a caller that finds the lock poisoned takes the queue, the worker finds the poison too and ends, and an accepted job is still unanswered. |
| DbWorkerTheorems.BatchDrains | crates/erabi-db/src/worker.rs:588-595 | The thread holding that batch answers everything left by its own steps, one per job. |
| DbWorkerTheorems.ClosedMeansExecuted | crates/erabi-db/src/worker.rs:498-509 | A Closed lifecycle means every accepted job was executed once and got its real result. |
| DbWorkerTheorems.AdmissionStep | crates/erabi-db/src/worker.rs:189-218 | The push under the lock while Running and unpoisoned is the only step that admits, and it admits one job. |
| DbWorkerTheorems.PastStep | crates/erabi-db/src/worker.rs:550-586 | No step leads back to Running, and none leaves Panicked. |
| DbWorkerTheorems.NothingAfterRunning | crates/erabi-db/src/worker.rs:200-213 | Once the lifecycle has left Running nothing is ever admitted again, and Panicked is absorbing. |
| DbWorkerTheorems.CallerIsToldTheTruth | crates/erabi-db/src/worker.rs:178-224 | What a finished call returned agrees with what happened to its job: a real result is that of its one execution, a call told of a shutdown was never admitted, and one told of a panic was never admitted or got that as the answer to its job. |
| DbWorkerReports.PanicReportsAreTrue | crates/erabi-db/src/worker.rs:597-615 | In every run a call is told that the worker panicked only if the worker is Panicked. |
| DbWorkerReports.ShutdownReportsAreTrue | crates/erabi-db/src/worker.rs:597-615 | In every run a step after which a call is newly told that the worker is shutting down leaves the worker Closing or Closed, so never Panicked. |
| DbWorkerReports.NoPanicNoReport | crates/erabi-db/src/worker.rs:178-224 | While nothing panics and no lock is poisoned, no call is ever told that the worker panicked. |
| DbWorkerTheorems.PermitsConserved | crates/erabi-db/src/worker.rs:178-211 | Free permits, permits of callers not yet admitted and permits in envelopes add up to the capacity, so queued plus executing work never exceeds it. |
| DbWorkerPoison.ParkedMeansIdle | crates/erabi-db/src/worker.rs:487-497 | No lost wake-up, exactly, over all runs: a worker parked with no pending wake has an empty queue and a Running lifecycle if and only if no thread has panicked, since it parked, between changing the shared state and notifying; so always while the lock is sound, and after poisoning of any other kind. |
| DbWorkerPoison.WakeLostExactlyBy | crates/erabi-db/src/worker.rs:189-218 | Step by step: under a parked idle worker the panics that lose the wake-up are exactly those after the push of a job and after the closing of admission. |
| DbWorkerPoison.WakeUpLost | crates/erabi-db/src/worker.rs:207-218 | Such a run exists: a job is queued, the lifecycle is Running, and the parked worker has no wake-up pending. |
| DbWorkerPoison.EndedSoundMeansAnswered | crates/erabi-db/src/worker.rs:371-435 | If the lock is sound when the worker has ended, every accepted job has been answered. |
| DbWorkerLoop.RunLoop | crates/erabi-db/src/worker.rs:446-548 | The whole worker loop, with the other threads acting wherever it does not hold the lock: it does nothing but steps of the transition system, returns only when the thread has ended, and waits only parked with no notification pending. |
| DbWorkerLoop.Serve | crates/erabi-db/src/worker.rs:521-546 | One job from its dequeuing to its answer and released permit, or to the failing of everything, with the other threads acting in between. |
| DbWorkerLoop.FailOwnBatch | crates/erabi-db/src/worker.rs:588-595 | The worker fails its whole batch and ends Panicked, whatever the other threads do meanwhile. |
| DbWorkerTheorems.ShutdownStartsDrain | crates/erabi-db/src/worker.rs:550-560 | Shutdown of a healthy running worker starts a drain. |
| DbWorkerTheorems.DrainStep | crates/erabi-db/src/worker.rs:446-548 | While draining, each step of the worker brings it exactly one step closer and no other quiet step takes it back. |
| DbWorkerTheorems.DrainNeverStuck | crates/erabi-db/src/worker.rs:446-548 | Until it has ended, a draining worker always has a step to take, and is never parked without a wake-up pending: the wake-up of begin_shutdown was delivered. |
| DbWorkerTheorems.DrainReachesClosed | crates/erabi-db/src/worker.rs:446-518 | If nothing panics, the drain reaches Closed after exactly the outstanding executions, however others interleave. |
| DbWorkerShared.WorkerShared.TerminalizeLocked | crates/erabi-db/src/worker.rs:576-586 | Panics the lifecycle, closes admission and takes the queue in one critical section. |
| DbWorkerShared.WorkerShared.Admit | crates/erabi-db/src/worker.rs:189-218 | The critical section of a call, in all three outcomes; what a refused call is told is true by PanicReportsAreTrue and ShutdownReportsAreTrue. |
| DbWorkerShared.WorkerShared.ObservedFailure | crates/erabi-db/src/worker.rs:597-615 | The failure a caller refused by the semaphore reports, a step of the system for which the same two theorems hold. |
| DbWorkerShared.WorkerShared.BeginShutdown | crates/erabi-db/src/worker.rs:550-566 | Closes admission and wakes the worker, or terminalizes a poisoned worker and fails its queue. |
| DbWorkerShared.WorkerShared.InspectQueue | crates/erabi-db/src/worker.rs:451-518 | One pass of the worker loop under the lock. |
| DbWorkerShared.WorkerShared.Execute | crates/erabi-db/src/worker.rs:131-148 | Takes the operation once, runs it, answers and releases the permit, or reports a panic. |
| DbWorkerShared.ExecuteIsSteps | crates/erabi-db/src/worker.rs:131-148 | Executing a job is a run of the transition system, so other threads may interleave inside it. |
| DbWorkerShared.WorkerShared.FailJob | crates/erabi-db/src/worker.rs:150-157 | Drops operation and permit and answers at most once. |
| DbWorkerShared.WorkerShared.FailJobs | crates/erabi-db/src/worker.rs:588-595 | Answers every job of a batch, in order, and leaves the batch empty. |
| DbWorkerShared.WorkerShared.WorkerLoop | crates/erabi-db/src/worker.rs:446-548 | The worker loop after shutdown, left to itself, ends, having served the queue in order; if an operation panics, the jobs after it are failed, and if none does it ends Closed with everything served. |
| DbWorkerEnds.StartDecides | crates/erabi-db/src/worker.rs:388-443 | A worker that starts is Running with admission open; after a failed initialization nothing can happen any more. |
| DbWorkerEnds.PanicsPoison | crates/erabi-db/src/worker.rs:189-218 | A caller or a shutdown thread that panics under the lock poisons it and wakes nobody; a pushed job stays queued with its permit, and closed admission stays closed. |
| DbWorkerEnds.PanicUnwinds | crates/erabi-db/src/worker.rs:409-424 | A panic under the lock poisons it and one outside does not; either way the worker unwinds with the job in hand, which is lost if it was not answered. |
| DbWorkerEnds.PanicEndsWorker | crates/erabi-db/src/worker.rs:412-424 | Whatever it held, a worker that has panicked fails it by its own steps and ends Panicked. |
| DbWorkerEnds.ShutdownExactly | crates/erabi-db/src/worker.rs:550-566 | Shutdown closes admission and wakes the worker; a running worker begins to close with its queue, and under a poisoned lock it is Panicked and its queue taken away to be failed. |
| DbWorkerEnds.CallReturns | crates/erabi-db/src/worker.rs:170-224 | Once the worker has ended, every call that has not returned does so by its own steps, whether it waits for a permit, the lock, or the answer to its job. |
| Pacing.BackoffBounds | crates/erabi-crawler/src/pacing.rs:526-533 | The backoff never shrinks as rate limits repeat and stays between one second and one minute. |
| Pacing.BackoffSchedule | crates/erabi-crawler/src/pacing.rs:526-533 | It doubles from one second and is a minute from the seventh rate limit on. |
| PacingBackoff.BackoffFollowsStreak | crates/erabi-crawler/src/pacing.rs:472-493 | Whatever outcomes were recorded, the next rate limit backs off by what the streak since the last success calls for (1, 2, 4, 8, 16, 32 seconds, then a minute), other failures counting for nothing, and reaches its retry time. |
| PacingBackoff.OnlyOutcomesCount | crates/erabi-crawler/src/pacing.rs:472-493 | No step other than the recording of an outcome changes the count of rate limits of an origin. |
| PacingBackoff.RetryTimes | crates/erabi-crawler/src/pacing.rs:306-312 | Retry times are kept up to five minutes and clamped beyond. |
| PacingBackoff.ConfigurationsAccepted | crates/erabi-crawler/src/pacing.rs:365-378 | A configuration is accepted exactly with a positive concurrency and a delay of at most five minutes; a concurrency of zero is reported first. |
| Pacing.AttemptExactly | crates/erabi-crawler/src/pacing.rs:803-823 | An origin without registrations refuses an attempt; one with room under every registration and no deadline ahead grants it, or refuses it if the clock cannot represent the next request time; any other makes it wait. |
| Pacing.AdmitKeepsDeadlines | crates/erabi-crawler/src/pacing.rs:803-816 | An admission drops no deadline that is still ahead, and a grant sets one at its own effective delay. |
| Pacing.RecordKeepsDeadlines | crates/erabi-crawler/src/pacing.rs:472-493 | An outcome never shortens a deadline, a recorded rate limit reaches both its backoff and its retry time, and any other outcome is recorded without error and leaves the deadlines ahead as they were. |
| Pacing.WaitIsRight | crates/erabi-crawler/src/pacing.rs:817-822 | An attempt that waits for a deadline is not granted or refused before it, and one that waits for a permit not at all, on any state from which nothing was released meanwhile; at its deadline only concurrency can refuse. |
| PacingWakeups.NoLostWakeUp | crates/erabi-crawler/src/pacing.rs:797-848 | In every run a sleeping waiter whose attempt would now be granted or refused has been notified, is past its deadline, or has a notification of its origin still to come. |
| PacingWakeups.SilentStepsReleaseNothing | crates/erabi-crawler/src/pacing.rs:436-493 | A critical section that is not followed by a notification releases nothing: no registration, no permit and no deadline that is still ahead. |
| PacingWakeups.NotificationWakes | crates/erabi-crawler/src/pacing.rs:797-848 | A notification reaches every waiter of the origin that has registered interest, also one that has not yet looked at the state. |
| PacingSteps.StepKeepsInv | crates/erabi-crawler/src/pacing.rs:435-619 | Every step of registrations, waiters, permits, outcomes, pruning and the clock keeps the pacing invariant. |
| PacingSteps.RunKeepsInv | crates/erabi-crawler/src/pacing.rs:435-929 | The invariant holds after any run. |
| PacingTheorems.GrantsAreSpaced | crates/erabi-crawler/src/pacing.rs:777-816 | Two grants at one origin, across registrations, retirement and re-creation, are apart by at least the delay that the earlier one's registration asked for, and by at least its robots delay. |
| PacingProvenance.AcquisitionTakesBoth | crates/erabi-crawler/src/pacing.rs:777-785 | An acquisition observes the longer of its registration's delay and the robots delay it was given. |
| PacingProvenance.GrantsHonorRequests | crates/erabi-crawler/src/pacing.rs:687-711 | Every grant of a run goes back to a register call for its origin, with the delay asked for there, and to the robots delay given to its acquisition. |
| PacingProvenance.PermitMeansGrant | crates/erabi-crawler/src/pacing.rs:803-816 | A permit appears exactly when a grant is recorded, for the waiter's origin, now, with the delays its acquisition began with. |
| PacingProvenance.AttemptSettles | crates/erabi-crawler/src/pacing.rs:797-848 | An attempt that has to wait changes no handle; one that is granted or refused settles its acquisition and touches no other. |
| PacingProvenance.SettledStays | crates/erabi-crawler/src/pacing.rs:777-849 | A settled acquisition makes no further attempt, so it brings at most one permit; all that is left of it is its guard. |
| PacingProvenance.LimitIsRecorded | crates/erabi-crawler/src/pacing.rs:472-493 | A first rate limit on a permit is recorded with its backoff and its retry time unless the clock cannot represent them; nothing else is. |
| PacingTheorems.RateLimitIsHonored | crates/erabi-crawler/src/pacing.rs:478-488 | After a recorded rate limit no grant comes before its backoff nor before its retry time. |
| PacingTheorems.HandlesAreCurrent | crates/erabi-crawler/src/pacing.rs:569-619 | Every live registration, waiter and permit refers to the state object the registry maps now for its origin, and the registry never exceeds its capacity. |
| PacingTheorems.IdsNeverReused | crates/erabi-crawler/src/pacing.rs:590-598 | Registration ids are handed out in strictly increasing order, and every live registration has one of them. |
| PacingProvenance.IdsAreConsecutive | crates/erabi-crawler/src/pacing.rs:590-598 | They are consecutive from 1 on and run out only after 2^64 - 1 of them. |
| PacingProvenance.RegistrationGetsNext | crates/erabi-crawler/src/pacing.rs:580-603 | A registration whose origin has a state, found or made, gets the next id while there is one, and otherwise gives the lock back. |
| PacingTheorems.CountersAreExact | crates/erabi-crawler/src/pacing.rs:453-470 | waiting_admissions is the number of live waiter guards, and in_flight the number of live permits plus the admissions that overflowed the clock; it equals the permits alone exactly when there were none. |
| PacingTheorems.LeaksExactlyOnOverflow | crates/erabi-crawler/src/pacing.rs:803-816 | A step leaks an admission if and only if it is an attempt with room and no deadline ahead whose next request time the clock cannot represent. |
| PacingTheorems.OverflowLeaks | crates/erabi-crawler/src/pacing.rs:814-815 | Such a run exists: the counter stays up with no permit to release it. |
| PacingTheorems.LeakPinsOrigin | crates/erabi-crawler/src/pacing.rs:418-426 | A leaked admission keeps its origin's state from ever being retired. |
| PacingTheorems.GrantFitsEveryRegistration | crates/erabi-crawler/src/pacing.rs:807-814 | Every grant leaves in_flight within the bound of every registration live at that instant, so nothing is granted until it has fallen below the strictest. |
| PacingTheorems.RefusedExactlyWhenProtected | crates/erabi-crawler/src/pacing.rs:580-589 | A new origin is refused for capacity exactly when the registry is full and no scanned state is removable; otherwise at most the least removable origin leaves. |
| PacingTheorems.ScanMeaning | crates/erabi-crawler/src/pacing.rs:606-612 | A state is removable exactly when it has no registration, permit, waiter or deadline after the caller's instant; removable keys are in ascending order. |
| PacingTheorems.SecondOutcomeIgnored | crates/erabi-crawler/src/pacing.rs:905-910 | A permit contributes at most one outcome. |
| PacingTheorems.DeadlinesStayNear | crates/erabi-crawler/src/pacing.rs:270-312 | In every run with retry times made by their constructors, no deadline is more than five minutes ahead. |
| PacingShared.OriginPacing.NormalizeExpiredSafety | crates/erabi-crawler/src/pacing.rs:404-414 | Clears exactly the deadlines that have passed. |
| PacingShared.OriginPacing.EffectiveConcurrency | crates/erabi-crawler/src/pacing.rs:400-402 | The minimum over the live registrations, none if there is none. |
| PacingShared.OriginPacing.TryAdmit | crates/erabi-crawler/src/pacing.rs:803-823 | The critical section of an acquisition. |
| PacingShared.OriginPacing.Acquire | crates/erabi-crawler/src/pacing.rs:777-849 | The retry loop under one waiter guard, whatever other tasks do in between: every turn before the last waits, the last one admits, refuses or is cancelled, and the guard is released once on each way out. |
| PacingShared.OriginPacing.RecordOutcome | crates/erabi-crawler/src/pacing.rs:472-493 | Records one outcome, or stops at the first deadline the clock cannot represent. |
| PacingShared.OriginPacing.IsSafeToRetire | crates/erabi-crawler/src/pacing.rs:418-426 | Normalizes, then decides whether the state may be retired. |
| PacingShared.OriginRegistry.Removable | crates/erabi-crawler/src/pacing.rs:606-612 | Normalizes every state and lists those that may retire, least key first. |
| PacingShared.OriginRegistry.PruneSafeStates | crates/erabi-crawler/src/pacing.rs:606-619 | Retires them one by one until there is room. |
| PacingShared.OriginRegistry.Register | crates/erabi-crawler/src/pacing.rs:569-603 | Reuses or creates the origin's state, pruning a full registry first, then allocates an id and attaches the registration; states every outcome including the two refusals. |
| PacingShared.FailureAddsOrigin | crates/erabi-crawler/src/pacing.rs:575-595 | A register that fails adds its origin exactly when the origin is new, there is room or a state that may retire, and no id is left. |
| PacingShared.FailureMayAddOrigin | crates/erabi-crawler/src/pacing.rs:590-594 | Such a call exists. |
| ProgressLog.AppendKeepsLog | crates/erabi-db/src/repositories/progress.rs:473-511 | An append gives the next sequence number and keeps the log ordered, of one job, with at most its last event terminal. |
| ProgressLog.AppendExactly | crates/erabi-db/src/repositories/progress.rs:473-511 | An append is refused after a terminal event, or else at the largest sequence, each with its own error, and otherwise gives the row asked for, one after the last. |
| ProgressLog.AfterIsSuffix | crates/erabi-db/src/repositories/progress.rs:444-448 | In an ordered log the rows after a cursor are a suffix. |
| ProgressLog.Splits | crates/erabi-api/src/progress.rs:143-155 | What a client has received and the rows after its last event make up the whole log after its start. |
| ProgressLog.Replay | crates/erabi-db/src/repositories/progress.rs:429-467 | A page holds the next rows up to the limit, and says whether more follow. |
| ProgressLog.PagesGiveAll | crates/erabi-db/src/repositories/progress.rs:429-467 | Whatever the page size, following the marks from page to page gives every row after the cursor once, in order. |
| ProgressInvariant.StepKeepsInv | crates/erabi-api/src/progress.rs:87-222 | Every step of the stream and of its environment keeps the stream invariant. |
| ProgressInvariant.RunKeepsInv | crates/erabi-api/src/progress.rs:87-222 | The invariant holds after any run. |
| ProgressInvariant.RunKeepsKnown | crates/erabi-api/src/progress.rs:87-222 | Nothing is received or pending that was neither published nor in the log when its latest page was read. |
| ProgressInvariant.RefillIsPage | crates/erabi-api/src/progress.rs:143-155 | A refill takes the page as it is: nothing is filtered out of it, and after a sequence jump it is not empty. |
| ProgressTheorems.ReceivedIsPrefix | crates/erabi-api/src/progress.rs:164-222 | Over all its connections a client receives a prefix of the log after its starting cursor, strictly rising, with nothing after a terminal event. |
| ProgressTheorems.LiveSideNeverShows | crates/erabi-api/src/progress.rs:192-220 | Two clients of one log with the same start never disagree, whatever their live channels dropped, lagged, repeated or reordered. |
| ProgressTheorems.BlockedMeansCaughtUp | crates/erabi-api/src/progress.rs:192-218 | A stream that blocks has emitted every published event of its job and everything committed when it last read a page. |
| ProgressTheorems.CompleteExactly | crates/erabi-api/src/progress.rs:143-218 | A blocked stream has everything committed exactly when the newest row of its log was published or was there when its latest page was read (or lies not after the start). |
| ProgressTheorems.SilentCommit | crates/erabi-api/src/progress.rs:192-218 | That condition can fail: a commit whose publication failed stays unseen while the stream blocks. |
| ProgressTheorems.TerminalIsComplete | crates/erabi-api/src/progress.rs:176-183 | A client that has received a terminal event has the whole log after its start. |
| ProgressTheorems.NothingAfterTerminal | crates/erabi-api/src/progress.rs:168-183 | No later step or connection adds to it. |
| ProgressEnd.EndsOnlyWhenComplete | crates/erabi-api/src/progress.rs:164-222 | However the live channel loses, repeats or lags, a stream over a known job ends only after its terminal event, unless a query or an encoding fails or the hub goes away. |
| ProgressEnd.ReceiveTakes | crates/erabi-api/src/progress.rs:192-220 | The next row is taken from the channel as it is; a row further ahead, and everything after a lag, is fetched from the log; rows of other jobs and rows already emitted are passed over. |
| ProgressEnd.TakeEmits | crates/erabi-api/src/progress.rs:172-183 | The next pending row is emitted if it can be encoded, and the stream is then done exactly when the row is terminal; if it cannot be encoded the stream ends. |
| ProgressEnd.PublicationIsSent | crates/erabi-jobs/src/progress.rs:119-132 | A published row goes last on an open channel and nowhere on a closed one. |
| ProgressDrain.OwnStep | crates/erabi-api/src/progress.rs:167-221 | A connected stream that is not waiting for the hub can always go on, and every step brings it closer to waiting or to its end. |
| ProgressDrain.Drains | crates/erabi-api/src/progress.rs:167-221 | Left to itself a connected stream reaches, after finitely many steps, the wait for the hub or its end after a terminal event. |
| ProgressDrain.ReconnectGivesAll | crates/erabi-api/src/progress.rs:87-222 | From anywhere in any run, while the hub is open, a client that connects again and is left alone has every row of the log after its start within finitely many steps. |
| ProgressTheorems.FallbackUnreachable | crates/erabi-api/src/progress.rs:203-212 | After a sequence jump the refill always finds rows, so the live candidate is never pushed in their place. |
| ProgressSession.ProgressSession.RefillFromDurable | crates/erabi-api/src/progress.rs:143-155 | The refill in place, with what the caller does with its candidate. |
| ProgressSession.ProgressSession.TakePending | crates/erabi-api/src/progress.rs:172-183 | The pop of a pending event. |
| ProgressSession.ProgressSession.Receive | crates/erabi-api/src/progress.rs:192-220 | The receive branch for an event, a lag and a closed hub; what it takes is stated by ReceiveTakes. |
| ProgressSession.ProgressSession.NextItem | crates/erabi-api/src/progress.rs:164-222 | One call runs steps of the transition system, emits at most one event, that event is the next row after the cursor, it waits only when the receiver is empty and nobody acts, and it returns the end of the stream only after a terminal event, a failed query or encoding, or the end of the hub. |
| RobotsMatch.RuleMatches | crates/erabi-crawler/src/robots.rs:519-543 | The single greedy pass returns true exactly when some strings in place of the stars make the pattern a prefix of the path, or the whole path if anchored (section 2.2.3 of RFC 9309). |
| RobotsMatch.LongerIsEasier | crates/erabi-crawler/src/robots.rs:530-541 | What a suffix of the remainder matches, the longer remainder matches. |
| RobotsMatch.LeftmostIsBest | crates/erabi-crawler/src/robots.rs:537-540 | Taking a part that is not the last at its leftmost place loses no match. |
| RobotsMatch.ExpandIsFill | crates/erabi-crawler/src/robots.rs:520-528 | Filling the stars of a pattern is laying out its parts with the fillers between them. |
| RobotsMatch.UnanchoredCoversBelow | crates/erabi-crawler/src/robots.rs:535-542 | An unanchored rule covers everything below a path it covers. |
| RobotsEvaluate.SelectGroups | crates/erabi-crawler/src/robots.rs:463-497 | Keeps, in document order, the groups that name the crawler most specifically, or the groups for everyone if none names it. |
| RobotsLayout.SelectedExactly | crates/erabi-crawler/src/robots.rs:463-497 | A group is selected exactly when an agent of it names the crawler and no agent that names the crawler in any group is longer, or, if there is none in any group, when it is for everyone. |
| RobotsEvaluate.Evaluate | crates/erabi-crawler/src/robots.rs:312-354 | The path is allowed exactly when every matching disallow is outweighed by a matching allow of at least its specificity, and the delay is the longest of the selected groups. |
| RobotsEvaluate.EvaluationIsUnique | crates/erabi-crawler/src/robots.rs:312-354 | There is only one such evaluation. |
| RobotsEvaluate.OrderAndGroupingDoNotMatter | crates/erabi-crawler/src/robots.rs:327-353 | The evaluation depends only on which rules and delays stand under which agents. |
| RobotsEvaluate.PermutedGroups | crates/erabi-crawler/src/robots.rs:363-449 | Permuting groups changes none of that. |
| RobotsEvaluate.SplitGroup | crates/erabi-crawler/src/robots.rs:363-449 | Splitting a group into two with the same agents changes none of that. |
| RobotsParse.ParseRobotsDocument | crates/erabi-crawler/src/robots.rs:363-449 | The parser loop computes the fold over the classified lines; ParsedByGrammar, RuleMeansItsText and LayoutDoesNotMatter say what that is. |
| RobotsGroups.ParsedByGrammar | crates/erabi-crawler/src/robots.rs:363-449 | The flag and the open group of the parser give an accepted document exactly the groups of its grammar: one or more user-agent lines, then the rules and delays up to a blank line or the next user-agent line (section 2.2.1 of RFC 9309). |
| RobotsMeasure.SpecificityCounts | crates/erabi-crawler/src/robots.rs:421-427 | The specificity of a pattern is its length in bytes less its stars. |
| RobotsMeasure.Utf8LenCountsBytes | crates/erabi-crawler/src/robots.rs:425-425 | Lengths are numbers of UTF-8 bytes (section 3 of RFC 3629). |
| RobotsMeasure.RuleMeansItsText | crates/erabi-crawler/src/robots.rs:415-427 | A value stands for the rule with its text, without the final dollar sign that anchors it; an empty pattern stands for none. |
| RobotsMeasure.LongestRuleDecides | crates/erabi-crawler/src/robots.rs:312-354 | In a parsed document a path is allowed exactly when every matching disallow has a matching allow that is at least as long, not counting stars. |
| RobotsMeasure.LongerPatternWins | crates/erabi-crawler/src/robots.rs:327-353 | Among rules without stars the longest that matches decides. |
| RobotsMeasure.LowerForgetsCase | crates/erabi-crawler/src/robots.rs:385-407 | Lower-casing forgets the case of ASCII letters and nothing else. |
| RobotsMeasure.CrawlerCaseDoesNotMatter | crates/erabi-crawler/src/robots.rs:463-497 | The case in which the crawler writes its name does not matter. |
| RobotsMeasure.DocumentCaseDoesNotMatter | crates/erabi-crawler/src/robots.rs:388-406 | Nor does the case in which a document writes it. |
| RobotsLayout.LayoutDoesNotMatter | crates/erabi-crawler/src/robots.rs:368-387 | However a directive is indented, spaced, commented or written in capitals, it means what its name and its value say. |
| RobotsLayout.LinesOfDocument | crates/erabi-crawler/src/robots.rs:368-372 | The lines of a document are the pieces between its line feeds, up to the last that holds anything, whatever carriage returns end them. |
| RobotsLayout.LastLineCounts | crates/erabi-crawler/src/robots.rs:368-368 | The last line counts with its line feed and without it. |
| RobotsLayout.SelectorsMatch | crates/erabi-crawler/src/robots.rs:499-510 | A selector names the crawler exactly when it is its whole name or the part before a slash or a space. |
| RobotsParse.RejectedExactly | crates/erabi-crawler/src/robots.rs:387-437 | A document is rejected exactly when some line offends, with the error of the first: a rule or delay line with no group open, an empty or control-carrying user agent, a control character in a rule, a bad delay. |
| RobotsPrint.ParsedGroupsOk | crates/erabi-crawler/src/robots.rs:388-435 | Every parsed group names at least one agent; agents are lower case and patterns are not empty. |
| RobotsPrint.PrintThenParse | crates/erabi-crawler/src/robots.rs:363-449 | Printed groups parse back to themselves, in order. |
| RobotsPrint.ParseRoundTrip | crates/erabi-crawler/src/robots.rs:363-449 | Printing what was parsed and parsing it again gives the same groups. |
| RobotsCache.RobotsCache.Get | crates/erabi-crawler/src/robots.rs:558-567 | Drops what has expired, then looks the origin up. |
| RobotsCache.RobotsCache.EarliestExpiring | crates/erabi-crawler/src/robots.rs:579-583 | The entry that expires first, least key first. |
| RobotsCache.RobotsCache.Insert | crates/erabi-crawler/src/robots.rs:569-596 | Drops what has expired, evicts the earliest-expiring entry of a full cache, inserts. |
| RobotsCache.HitsAgree | crates/erabi-crawler/src/robots.rs:557-597 | After any operations at any instants, a hit is the last entry written for the origin and has not expired since; the cache stays within 256 entries. |
| RobotsCache.NothingElseIsLost | crates/erabi-crawler/src/robots.rs:569-596 | While no more than 256 origins have been written, the cache hits exactly where an unbounded map would. |
| RobotsCache.EvictsTheEarliest | crates/erabi-crawler/src/robots.rs:569-596 | An entry that has not expired leaves only when 256 such entries leave no room for a new origin; it expires no later than anything that stays, and no entry that expires with it has a smaller key. |
| RobotsFlights.RunKeepsInv | crates/erabi-crawler/src/robots.rs:743-787 | Leaders and in-flight entries correspond one to one, and every follower's flight is led or completed. |
| RobotsFlights.OneLeaderPerOrigin | crates/erabi-crawler/src/robots.rs:756-765 | At most one fetch per origin is in flight. |
| RobotsFlights.FollowersHaveLeaders | crates/erabi-crawler/src/robots.rs:767-775 | A follower can wake, or the flight it follows has a leader. |
| RobotsFlights.LandingWakesEveryone | crates/erabi-crawler/src/robots.rs:608-614 | However a leader ends, it removes its own flight and no other, and every follower of the origin can wake. |
| RobotsFlights.CallerReturns | crates/erabi-crawler/src/robots.rs:743-787 | No caller is stranded: wherever it is, once the leader of its origin lands, if there is one, it returns by at most four steps of its own. |
| RobotsFlights.FollowersWait | crates/erabi-crawler/src/robots.rs:767-775 | A follower can wake exactly when the flight it follows is no longer in the air. |
| RobotsFlights.HitsAreCached | crates/erabi-crawler/src/robots.rs:748-752 | A caller is served from the cache exactly by looking at it while its origin is cached. |
| RobotsFlights.RefetchedExactly | crates/erabi-crawler/src/robots.rs:743-787 | A caller that found its origin uncached fetches it although it is cached by then, exactly when, between its look at the cache and its look at the flights, the origin was stored and has not expired, and no flight of it is in progress. |
| RobotsFlights.RefetchStarts | crates/erabi-crawler/src/robots.rs:750-765 | Entering with the origin cached and not in flight is the only step that starts such a fetch. |
| RobotsFlights.CachedExactly | crates/erabi-crawler/src/robots.rs:889-901 | Over any run that starts with the origin uncached, it is cached at the end exactly when its leader stored it and it has not expired since. |
| RobotsFlights.CachedOriginMayBeFetchedAgain | crates/erabi-crawler/src/robots.rs:750-765 | Such a run exists: the cache check and the in-flight check are separate. |
| RobotsFlights.Flights.Join | crates/erabi-crawler/src/robots.rs:756-765 | Follows the origin's flight or starts one and leads it. |
| RobotsFlights.Flights.DropFlight | crates/erabi-crawler/src/robots.rs:608-614 | Removes and completes the origin's flight. |
| CanonicalJson.SortKeepsMap | crates/erabi-domain/src/crawl_snapshot.rs:393-394 | Sorting entries keeps the map an object stands for. |
| CanonicalJson.SortedKeysAgree | crates/erabi-domain/src/crawl_snapshot.rs:393-394 | Two sorted lists with the same keys list them in the same order. |
| CanonicalJson.SortedFieldsDecide | crates/erabi-domain/src/crawl_snapshot.rs:391-404 | Objects are equal as maps exactly when their sorted entries agree place by place. |
| CanonicalPrint.EscapePrefixFree | crates/erabi-domain/src/crawl_snapshot.rs:380-380 | String escapes are prefix-free (section 7 of RFC 8259). |
| CanonicalPrint.QuotesDelimit | crates/erabi-domain/src/crawl_snapshot.rs:380-380 | A quoted string is self-delimiting. |
| CanonicalPrint.NumbersDelimit | crates/erabi-domain/src/crawl_snapshot.rs:379-379 | A number ends where its characters end. |
| CanonicalPrint.PrintDelimits | crates/erabi-domain/src/crawl_snapshot.rs:372-407 | Equal texts come from equal values and leave equal rests. |
| CanonicalPrint.CanonicalTextDecides | crates/erabi-domain/src/crawl_snapshot.rs:354-407 | Two values print alike exactly when they are equal as JSON values, the order of object entries not counting. |
| CanonicalPrint.Output.WriteCanonicalJson | crates/erabi-domain/src/crawl_snapshot.rs:372-407 | The recursive writer appends exactly the canonical text, which CanonicalTextIsJson says is a JSON text of the value. |
| JsonReader.CanonicalTextIsJson | crates/erabi-domain/src/crawl_snapshot.rs:354-407 | The canonical text is a JSON text (sections 3 to 7 of RFC 8259): a reader of that grammar gives back an equal value and nothing is left, and the keys of every object are read in ascending order. |
| JsonReader.PrintReads | crates/erabi-domain/src/crawl_snapshot.rs:372-407 | The same with any text that may follow the value. |
| JsonReader.EscapeIsShortest | crates/erabi-domain/src/crawl_snapshot.rs:380-380 | Only quotes, backslashes and control characters are escaped, as shortly as the grammar allows. |
| Text.KeyOrderMeans | crates/erabi-domain/src/crawl_snapshot.rs:394-394 | The order of keys is that of their first difference, a proper prefix coming first. |
| CrawlSnapshotDrafts.AcceptedDrafts | crates/erabi-domain/src/crawl_snapshot.rs:409-471 | A draft becomes a snapshot exactly when every text says something, an override gives its reason in at most 1000 characters, the robots decision is about the resolved user agent and the version that is run, a quick scrape and nothing else is configured ad hoc, and a version comes with a SHA-256 value; what fails first is blamed. |
| CrawlSnapshot.RecordsDecide | crates/erabi-domain/src/crawl_snapshot.rs:170-180 | Objects with the same fixed keys are equal exactly when their values are, pairwise. |
| CrawlSnapshot.DraftJsonDecides | crates/erabi-domain/src/crawl_snapshot.rs:170-180 | The JSON of two drafts is equal exactly when every field agrees. |
| CrawlSnapshot.CompatibilityJsonDecides | crates/erabi-domain/src/crawl_snapshot.rs:339-348 | The compatibility JSON of two drafts is equal exactly when the fields that matter for resuming agree. |
| CrawlSnapshotReader.DraftReads | crates/erabi-domain/src/crawl_snapshot.rs:315-336 | Any JSON value equal to that of a draft, whatever the order of its entries, is read back by name as a draft that agrees with it in every field. |
| CrawlSnapshotReader.DraftTextReads | crates/erabi-domain/src/crawl_snapshot.rs:354-360 | The canonical text of a draft, over which its hash is taken, reads back as the draft. |
| CrawlSnapshotReader.CompatibilityReads | crates/erabi-domain/src/crawl_snapshot.rs:339-348 | The JSON for resuming has seven entries by name and reads back as the parts of the draft that they name. |
| CrawlSnapshot.HashDecides | crates/erabi-domain/src/crawl_snapshot.rs:217-231 | With a collision-free hash, snapshot hashes agree exactly when every field does. |
| CrawlSnapshot.CompatibilityHashDecides | crates/erabi-domain/src/crawl_snapshot.rs:221-229 | The compatibility hash ignores actor, creation time, profile and who decided about robots and when, and nothing else. |
| CrawlSnapshot.RehydratesOnlyItsOwn | crates/erabi-domain/src/crawl_snapshot.rs:245-262 | A stored draft is accepted under a snapshot's hashes exactly when every field agrees with the draft it was created from. |
| QueryCanonicalization.OrderIsUnique | crates/erabi-domain/src/canonicalization.rs:315-317 | Raw text breaks every tie, so a multiset of pairs has one order. |
| QueryCanonicalization.SameCanonicalExactly | crates/erabi-domain/src/canonicalization.rs:151-187 | Two queries have the same canonical form exactly when the policy keeps the same pairs of them, each as often. |
| QueryCanonicalization.Idempotent | crates/erabi-domain/src/canonicalization.rs:151-187 | Canonicalizing a canonical query changes nothing. |
| QueryCanonicalization.PermutationInvariant | crates/erabi-domain/src/canonicalization.rs:153-158 | The order of the pairs does not matter. |
| QueryCanonicalization.DroppedPairsDoNotMatter | crates/erabi-domain/src/canonicalization.rs:163-187 | A pair the policy drops may be inserted anywhere, even where there was no query. |
| QueryCanonicalization.EmptyQueryStays | crates/erabi-domain/src/canonicalization.rs:179-187 | An empty query stays an empty query and differs from none. |
| QueryCanonicalization.CanonicalizeQuery | crates/erabi-domain/src/canonicalization.rs:151-187 | The loop computes the canonical query and explains each decision, sorting first if and only if the pairs were out of order. |
| QueryPolicy.ValidExactly | crates/erabi-domain/src/canonicalization.rs:53-79 | A policy is valid exactly when it is of version 1, its rules name parameters that a query can have and none is both kept and dropped; the first of these that fails is reported. |
| QueryPolicy.CanonicalPairs | crates/erabi-domain/src/canonicalization.rs:163-178 | The canonical query has exactly the pairs that do not go, each as often: a kept parameter stays, a dropped one and a tracking one (utm_ names, fbclid, gclid) goes. |
| QueryPolicy.CanonicalOrder | crates/erabi-domain/src/canonicalization.rs:153-158 | They come in the order of their names, and those of one name in the order of their text. |
| QueryPolicy.ExplanationAccounts | crates/erabi-domain/src/canonicalization.rs:164-178 | Every removed pair is accounted for by one decision with the reason that holds, and no other pair is. |
| Migrations.ValidPlans | crates/erabi-db/src/migrate.rs:351-378 | A plan is accepted exactly when it is not empty and its versions strictly increase. |
| Migrations.Database.ApplyBody | crates/erabi-db/src/migrate.rs:279-349 | The transaction body. |
| Migrations.Database.Apply | crates/erabi-db/src/migrate.rs:252-277 | The transaction with commit or rollback. |
| MigrationTheorems.ApplyExact | crates/erabi-db/src/migrate.rs:252-349 | From a prefix of the plan a call applies and reports exactly the missing migrations up to its last version, or changes nothing. |
| MigrationTheorems.CallsKeepPrefix | crates/erabi-db/src/migrate.rs:142-170 | Whatever calls are made and wherever scripts or commits fail, also a script that succeeds when tried again, the recorded versions stay a prefix of the plan, the product is what exactly those scripts make in order, and no lock row is left. |
| MigrationTheorems.CallsFromEmpty | crates/erabi-db/src/migrate.rs:142-226 | From an empty database every sequence of calls ends at such a prefix, and verification succeeds there exactly when it is the whole plan. |
| MigrationTheorems.CallSucceedsOrNothing | crates/erabi-db/src/migrate.rs:252-277 | A call in which a script or the commit fails changes nothing, and one that succeeds does what it does when nothing fails. |
| MigrationTheorems.ThroughThenApply | crates/erabi-db/src/migrate.rs:152-170 | Applying through a version and then the rest equals applying everything, and fails when that fails. |
| MigrationTheorems.ApplyTwice | crates/erabi-db/src/migrate.rs:313-323 | A repeated apply does nothing. |
| MigrationTheorems.VerifyExactly | crates/erabi-db/src/migrate.rs:211-250 | On any database verification succeeds exactly when the recorded rows are those of the whole plan. |
| MigrationTheorems.VerifyAtPrefix | crates/erabi-db/src/migrate.rs:211-226 | At a prefix verification succeeds exactly when every migration is applied. |
| MigrationTheorems.ChangedScriptIsRefused | crates/erabi-db/src/migrate.rs:313-323 | A plan that changes a recorded script is refused and changes nothing. |
| MigrationGaps.ReportsTheMissing | crates/erabi-db/src/migrate.rs:298-345 | On any database a call that succeeds reports exactly the versions up to its last one that were not recorded, in plan order. |
| MigrationGaps.RunsBelowExactly | crates/erabi-db/src/migrate.rs:298-345 | On any database a call that succeeds runs a script below a recorded version exactly when some version up to its last one is missing below a recorded one. |
| MigrationGaps.PrefixHasNoGap | crates/erabi-db/src/migrate.rs:298-345 | At a prefix, so after any calls from an empty database, no version is missing below a recorded one. |
| MigrationGaps.GapIsFilled | crates/erabi-db/src/migrate.rs:298-345 | A database with a gap: the earlier script runs after the later one. |
| MigrationFailures.PlanBlamed | crates/erabi-db/src/migrate.rs:351-378 | A plan is refused for being empty, or for its first migration whose version is empty or does not come after the one before, with the error that says which. |
| MigrationFailures.ApplyBlames | crates/erabi-db/src/migrate.rs:252-349 | Why a call fails on any database: a bad plan, then the lock row, then a recorded version outside the plan, each blamed exactly when it is so; or a migration the call gets to that is recorded with another checksum, or whose script fails; or the commit. |
| MigrationFailures.BaselineIsKnown | crates/erabi-db/src/migrate.rs:152-170 | Applying through a version is refused exactly when the plan does not have it, and is otherwise applying up to it. |
| MigrationFailures.VerifyBlames | crates/erabi-db/src/migrate.rs:211-250 | A verification blames a checksum exactly when all rows before agree and the row there has the identity of the migration in its place, and the schema for everything else. |
| StructuralFacts.CheckEvidence | crates/erabi-crawler/src/finalization.rs:62-79 | Accepts exactly the evidence that is about one run with parsable, fragment-free URLs. |
| FactsEffects.CoherentExactly | crates/erabi-crawler/src/finalization.rs:219-239 | That is: all records name one run, and every URL parses and has no fragment. |
| FactsEffects.DiscoveryCounts | crates/erabi-crawler/src/finalization.rs:81-98 | A discovered page counts as planned if it was admitted and there is no logical work, and as ambiguous if its page type was. |
| FactsEffects.WorkCounts | crates/erabi-crawler/src/finalization.rs:101-124 | Admitted work counts as planned; completed in full or in part it counts as completed, and short of completed in full as unresolved. |
| FactsEffects.AttemptCounts | crates/erabi-crawler/src/finalization.rs:125-158 | Without logical work the best attempt on a page decides whether it is completed and whether it is unresolved. |
| FactsEffects.StatusExactly | crates/erabi-crawler/src/finalization.rs:187-216 | A terminal status stays; a quick scrape takes over the failure or else the cancellation of its admitted work; otherwise a run is partial if something is missing and succeeded if nothing is. |
| StructuralFacts.CollectPlanned | crates/erabi-crawler/src/finalization.rs:81-98 | The planned pages. |
| StructuralFacts.CollectFromWork | crates/erabi-crawler/src/finalization.rs:101-124 | Completed and unresolved pages from logical work. |
| StructuralFacts.CollectFromAttempts | crates/erabi-crawler/src/finalization.rs:125-158 | Completed and unresolved pages from attempts: the best outcome of each page decides. |
| StructuralFacts.ReconstructFacts | crates/erabi-crawler/src/finalization.rs:54-217 | The loops compute the facts as counts of sets of canonical URLs, with every error and status branch. |
| CompleteSnapshot.CompletedIsPlanned | crates/erabi-crawler/src/finalization.rs:177-179 | Every completed page is planned, whatever the evidence. |
| CompleteSnapshot.FailsExactlyOnBadEvidence | crates/erabi-crawler/src/finalization.rs:62-79 | Reconstruction fails exactly on incoherent evidence (or a count beyond 64 bits): the check on the counts never fires, so the decision over the facts never errs. |
| CompleteSnapshot.OrderAndRepetitionDoNotMatter | crates/erabi-crawler/src/finalization.rs:81-174 | The facts depend only on which records there are. |
| CompleteSnapshot.ExtraAttemptsDoNotMatter | crates/erabi-crawler/src/finalization.rs:82-84 | With logical work, one more valid attempt of the same run on a planned page changes nothing. |
| CompleteSnapshot.SucceededExactly | crates/erabi-crawler/src/finalization.rs:187-208 | A run not already terminal is reconstructed as succeeded exactly when every planned page is completed and resolved and nothing is truncated or ambiguous. |
| CompleteSnapshot.Decide | crates/erabi-domain/src/complete_snapshot.rs:62-104 | The decision lists exactly the reasons that hold, in order, and errs exactly when completed exceeds planned. |
| FactsEffects.CompleteExactly | crates/erabi-domain/src/complete_snapshot.rs:62-104 | A snapshot is complete exactly for a production run that succeeded with every planned page completed, nothing truncated, unresolved or ambiguous, and a healthy or unneeded extraction; each of these that fails is listed. |
| CompleteSnapshot.SucceededLeavesOnlyHealth | crates/erabi-domain/src/complete_snapshot.rs:62-104 | For a production run reconstructed as succeeded only the extraction health is left in question. |
| CrawlerVersion.CrawlerVersion.DoAddSeed | crates/erabi-domain/src/crawler_version.rs:103-107 | Adds a seed to a draft. |
| CrawlerVersion.CrawlerVersion.DoSetPageTypes | crates/erabi-domain/src/crawler_version.rs:112-127 | Replaces the page types of a draft, unless a guardrail would be left without its page type. |
| CrawlerVersion.CrawlerVersion.DoSetTransitions | crates/erabi-domain/src/crawler_version.rs:132-139 | Replaces the transitions of a draft. |
| CrawlerVersion.CrawlerVersion.DoSetPolicyId | crates/erabi-domain/src/crawler_version.rs:144-151 | Sets the policy reference of a draft. |
| CrawlerVersion.CrawlerVersion.DoSetScopeId | crates/erabi-domain/src/crawler_version.rs:156-160 | Sets the scope reference of a draft. |
| CrawlerVersion.CrawlerVersion.DoSetPolicy | crates/erabi-domain/src/crawler_version.rs:165-173 | Replaces the canonicalization policy of a draft, if valid. |
| CrawlerVersion.CrawlerVersion.DoSetScope | crates/erabi-domain/src/crawler_version.rs:178-183 | Replaces the domain scope of a draft, if valid. |
| CrawlerVersion.CrawlerVersion.DoSetGuardrails | crates/erabi-domain/src/crawler_version.rs:189-207 | Replaces the guardrails of a draft, if valid and about its page types. |
| CrawlerVersion.CrawlerVersion.DoPublish | crates/erabi-domain/src/crawler_version.rs:234-238 | Publishes a draft. |
| CrawlerVersion.CrawlerVersion.DraftFromPublished | crates/erabi-domain/src/crawler_version.rs:243-308 | The clone loop renames seeds, page types, guardrail entries, seed hints and transitions from the identity supply. |
| CrawlerVersionTheorems.PublishedIsImmutable | crates/erabi-domain/src/crawler_version.rs:90-98 | No edit changes a published version. |
| CrawlerVersionTheorems.PublishedStaysFor | crates/erabi-domain/src/crawler_version.rs:90-98 | No sequence of edits does. |
| CrawlerVersionEdits.AcceptedExactly | crates/erabi-domain/src/crawler_version.rs:103-238 | An edit of a draft is accepted exactly when what it sets is valid and leaves no guardrail without its page type; otherwise it changes nothing and the error names the part. |
| CrawlerVersionEdits.AcceptedEditsAreKept | crates/erabi-domain/src/crawler_version.rs:103-238 | After any edits each part of a version is what the last accepted edit of it gave, the accepted seeds follow in order, and it is published exactly if a publication was accepted. |
| CrawlerVersionEdits.DescentIsLimited | crates/erabi-domain/src/guardrails.rs:60-103 | Whatever is done to a version and its clones, it stays with its crawler, every limit stays positive and every page-type guardrail is about a page type of it. |
| CrawlerVersionEdits.CloneKeepsTheRest | crates/erabi-domain/src/crawler_version.rs:259-307 | A clone differs from its original in its state, its own identities and the references to them, and in nothing else. |
| CrawlerVersionEdits.CloneBlames | crates/erabi-domain/src/crawler_version.rs:213-258 | Why a version cannot be cloned: the first part of its semantic contract that fails, or else a conflict. |
| CrawlerVersionTheorems.CloneIsFresh | crates/erabi-domain/src/crawler_version.rs:259-307 | A clone is a draft whose own identities are all new and all different. |
| CrawlerVersionTheorems.CloneKeepsPlaces | crates/erabi-domain/src/crawler_version.rs:275-305 | Every seed hint and guardrail entry of the clone names the page type at the place its original named, and all else about them is equal. |
| CrawlerVersionTheorems.CloneIsSound | crates/erabi-domain/src/crawler_version.rs:213-229 | Different guardrail targets stay different, so the clone meets the semantic contract. |
| CrawlerVersionTheorems.DescentIsSound | crates/erabi-domain/src/crawler_version.rs:103-308 | Whatever is done to a version and its clones, the semantic contract holds: above all, guardrails are about page types of the version. |
| CrawlerVersionTheorems.CloneFailsExactly | crates/erabi-domain/src/crawler_version.rs:243-258 | A reachable version cannot be cloned exactly when it is a draft or a seed hints at a page type it does not have. |
| CrawlerVersionTheorems.DeadEnd | crates/erabi-domain/src/crawler_version.rs:234-258 | Publishing does not look at seed hints, so a version can be published that can never be edited or cloned again. |

## Left out

- Panics inside terminalization itself and while operations, results or envelopes are dropped; the panics modelled are those of operations, of the worker between critical sections, and of lock holders.
- Opening the database connection, the completion channel and joining the worker thread.
- The fairness of waking: that a task that owes a notification, or a waiter that was woken, is scheduled.
- In the transition system of pacing, an acquisition is its guard and its attempts as separate steps, and cancellation is the dropping of the guard at any point; `Acquire` puts them together as the loop.
- The tests of the robots admission with which `acquire` begins, of its origin and its verdict.
- Network policy, DNS, the HTTP transport, retry-after header parsing, response size limits and the robots override decision.
- Escalation of the backoff across retirement of an origin: the retirement test ignores the number of rate limits, so only deadlines, permits and registrations survive.
- Full conformance of the robots parser to RFC 9309: blank and comment-only lines close groups and paths are not percent-normalized, as in the program.
- A guarantee that no origin is fetched again within its cache lifetime, which is false: `RefetchedExactly` says when one is.
- Storage of events beyond their sequence, job, terminal mark and an opaque body; attempts and key validation; deletion of progress rows.
- Scheme, host, port, fragment and root-path canonicalization, which the URL library does most of.
- Number formatting and deserialization in serde_json: a number is identified with its text; the JSON reader is one of canonical texts, without white space between tokens and without surrogate pairs written as two escapes.
- Timestamps of migrations, and I/O errors of the bookkeeping statements other than a failing commit.
- Classification of URLs against a domain scope, and versions deserialized from storage rather than reached by edits.
- HTTP handlers, schemas, telemetry, settings resolution, extraction and the web application: presentation or one-branch checks that would only add easy members.
- DbWorkerShared.WorkerShared.WorkerLoop: describes the loop after begin_shutdown with no other thread interfering, where it can say how it ends; `DbWorkerLoop.RunLoop` is the loop from any state among other threads.
