# Crank, modelled in Dafny

Crank is a job queue. Clients enqueue jobs; a processor's fetcher leases them from a broker and hands them to
workers; a failed job goes to a retry set and, when its attempts are used up, to a dead set; a retry loop moves due
jobs back to their queues; a reaper reclaims leases that have expired; a circuit breaker per job class turns jobs away
while their class keeps failing. This project models those parts and proves what they keep over whole runs.

| file | what it holds |
|---|---|
| `Sequences.dfy` | counting in sequences, sums over maps |
| `Payload.dfy` | job records, clamping, backoff delays |
| `MemoryBroker.dfy` | the in-memory broker: its calls as functions on a value, and the object that carries them out |
| `Lifecycle.dfy` | the protocol: any number of processors, each a fetcher, workers, a retry loop and a reaper, interleaving over one broker; and the census, the number of places in which a job is found |
| `NoLoss.dfy`, `Survival.dfy`, `Shutdown.dfy`, `Exclusive.dfy`, `Retries.dfy`, `Backoff.dfy` | invariants of every run of the protocol |
| `History.dfy` | what the history and the job records in a state say about the run that led to it |
| `Stopping.dfy` | a shutdown that happens |
| `Duplicates.dfy`, `ExclusiveIff.dfy` | the runs in which a job is duplicated, and which configurations exclude them |
| `ProcessorLoops.dfy` | the bodies of the worker, retry and reaper loops as code over the broker object |
| `Fifo.dfy` | an abstract first-in-first-out queue, and runs of in-memory broker calls |
| `Breaker.dfy`, `BreakerProbes.dfy`, `BreakerMap.dfy` | one class's breaker and its log specification, calls with their identities, the bounded map of classes and the object |
| `Middleware.dfy` | handler composition, with panic as an outcome of its own |
| `RoundRobin.dfy` | weighted polling |
| `Redis.dfy`, `RedisRuns.dfy` | the Redis key space, the broker object over it, and runs of processors that mutate jobs between calls |
| `RedisNoLoss.dfy`, `RedisCrash.dfy`, `RedisLifecycle.dfy` | no loss over Redis without and with crashes; the agreement of such runs with the protocol and with the broker object |
| `CodecExists.dfy` | a codec that has the laws assumed of JSON |

How the model reads the code:

- Every in-memory broker call holds one mutex and every Redis script is atomic, so each is one step. Between calls a
  goroutine can be overtaken anywhere; the phases of `Lifecycle.Phase` are exactly those points.
- Jobs are shared by pointer and matched by JID. A pointer is represented by its JID, and the mutable fields live in one
  shared record per JID, so that two goroutines with the same pointer see the same retry count. Client-made JIDs are
  fresh, and client-made jobs have `Retry` within 0..25 as `SetRetry` leaves it.
- Time is an integer number of nanoseconds that never goes back. A handler is an arbitrary outcome.
- JSON is a codec with stated laws (`Redis.Lawful`): the raw bytes are not encoded, encodings are not empty, decoding
  leaves canonical arguments, and decoding undoes the encoding of a record with canonical arguments. These laws can be
  met (`CodecExists.LawfulCodecExists`).

Where the code does not do what one would expect, the code is kept and the exact limit is proved:

- The reaper drops an orphan whose queue is not configured or whose re-enqueue is refused. Without a crash the orphan is
  never the last copy, because the goroutine whose lease expired is still at work on the job: whatever the reaper
  drops, nothing is lost (`Survival.NothingLostWithoutCrash`, `Shutdown.CleanShutdown`). A drop loses a job only together
  with a crash (`Survival.LossNeedsCrash`), exactly when the orphan is the last copy (`Survival.ReaperLosesIff`);
  `NoLoss.LosingRunLoses` is such a run, in which a handler ends its worker's goroutine.
- Two retry loops that serve the same queue can read the same entry and enqueue the job twice: two workers then run it
  at once and its count passes `Retry + 1` (`Duplicates.TwoLoopsDuplicate`, `Duplicates.TwoLoopsPassBound`). A
  configuration makes execution exclusive, in all runs without harmful reaps, if and only if no queue is served both by
  two retry loops and by two workers (`ExclusiveIff.ExclusiveIffApart`). A reap is harmless if it takes one lease of the
  job at a time when nobody has a copy, which is the lease of a crashed worker or of a success that has still to be
  acked; with one retry loop for its queue a job has at most one copy all through a run if and only if every reap is harmless for it (`Exclusive.OneCopyIff`). The
  lease of a worker that is merely slow is not (`Duplicates.ExpiredLeaseDuplicates`).
- A worker that crashes after using up the last attempt and before dead-lettering the job leaves a lease whose
  reclamation takes the count past `Retry + 1` (`Duplicates.CrashedBurialPassesBound`). The bound holds in all runs
  whose reaps bring no job back past its allowance (`Retries.BoundedRetries`, `Retries.ReapAccountedIff`), and the
  backoff in all runs whose reaps bring none back before its waits have passed (`Backoff.BackoffFloor`,
  `Backoff.ReapPacedIff`).
- Entries of queues that the processor does not serve stay in the retry set and use up places in its batches. A due
  entry of a served queue waits for ever if and only if a hundred of them lie before it
  (`ProcessorLoops.StarvesIff`).
- Over Redis, an ack can take another holder's lease on the same job: a deferred or put-back job is written under the
  bytes it is leased under, so a second lease of it merges with the first (`RedisRuns.DeferralLosesLease`). Every un-acked
  dequeue has a lease of its own, all through a run, if and only if no such lease expires and no dequeue pops bytes
  that are still held (`RedisRuns.AlwaysExactIff`); whether the dequeue script conserves payloads depends on the
  same (`Redis.DequeueConservesIff`). Under that condition crashes lose no job (`RedisCrash.NoJobLostInCrashes`);
  without it a crash of the holder whose lease was taken loses the job for good (`RedisCrash.CrashAfterDeferralLoses`).
  A comment in the source says that the reaper takes scores before now; the
  script's range includes now, and the model follows it.
- A Redis lease keeps its full five minutes if and only if it began on a whole second (`Redis.FullLeaseIff`).
- One probe per half-open episode is admitted, but an outcome of an earlier call that is recorded while the class is
  half-open lets a second probe run beside the first (`BreakerProbes.StaleFailureAdmitsSecondProbe`); at most one is
  in flight if and only if there is no such outcome (`BreakerProbes.OneProbeInFlightIff`).
- A probe that panics records no outcome. Its class turns every job away until an outcome of another call is recorded
  for it or it is evicted, and exactly until then (`Middleware.PanickingProbeJams`).
- Deleting a queue with jobs in it breaks its first-in-first-out order, and nothing else does
  (`MemoryRuns.MemoryQueueIsFifo`, `Redis.RedisQueueIsFifo`).
- Until its reset time an open class admits nothing if and only if it is not evicted
  (`BreakerMap.OpenExactlyUntilEvicted`); an evicted one admits every call (`BreakerMap.EvictionForgets`).

## Model

| member | source | states |
|---|---|---|
| `NoLoss.NoJobLost` | internal/queue/processor.go:206-391 | In every interleaved run of any number of processors, with expired leases, duplicate leases and crashes, an accepted job has succeeded or is in a queue, the processing, retry or dead set, or in a loop's hands, unless a step dropped that very job |
| `NoLoss.KeptStep` | internal/broker/memory.go:68-189 | Every step keeps the counting invariant: a job that has neither succeeded nor been dropped has at least one placement more than it has goroutines that placed it and have still to ack |
| `NoLoss.KeptRun` | internal/queue/processor.go:206-391 | The same over whole runs; records are never forgotten; a job is marked dropped only by one of the drop steps |
| `NoLoss.StepHistory` | internal/queue/processor.go:382-391 | A step marks a job dropped exactly when it deletes its queue, is one of the reaper's two drop branches for it, or kills a loop with it in hand; only an accepted submission makes a record |
| `NoLoss.MentionedWasAccepted` | internal/queue/processor.go:237-310 | Whatever job a goroutine holds, has placed, or has in a batch was accepted, so no step of the protocol is blocked for want of a record |
| `History.SucceededIff` | internal/queue/processor.go:245-267 | In every run from the start, a job counts as succeeded if and only if some handler call with it returned success: a step of the run is that return, by a worker that was inside the handler with the job |
| `History.RecordTellsRun` | internal/queue/processor.go:269-357 | In every run that submits a job: its record has the queue and the retry setting the client gave, and counts exactly the run's handler failures and refused re-enqueues of it, the time of the first, and the waits imposed, `2^n` seconds for a failure as attempt `n` and a minute for a refusal |
| `History.AcceptedWasSubmitted` | internal/broker/memory.go:49-61 | Only a job that the run submits has a record |
| `NoLoss.LosingRunLoses` | internal/queue/processor.go:376-391 | A concrete run in which a job is neither succeeded nor anywhere: its handler ends the worker's goroutine, the lease expires, and shutdown begins between the reaper's removal and its re-enqueue |
| `Survival.NothingLostWithoutCrash` | internal/queue/processor.go:206-391 | In every run without crashes, with expired and duplicate leases and whatever the reaper drops: an accepted job whose queue is not deleted under it has succeeded, or is in a queue, the retry or the dead set, or is held by a goroutine that will put it there |
| `Survival.AliveStep` | internal/queue/processor.go:206-391 | Every step but a crash and a deletion of the job's queue keeps a copy of the job that is neither a mere lease nor an orphan in a reaper's hands |
| `Survival.ReaperLosesIff` | internal/queue/processor.go:382-391 | Handling an orphan loses the job for good if and only if its queue is not configured or its re-enqueue is refused, it has not succeeded, the orphan is its only placement, and no goroutine is still at work on it |
| `Survival.LossNeedsCrash` | internal/queue/processor.go:376-391 | A run that ends with a job lost, its queue not having been deleted under it, contains a crash |
| `LifecycleCensus.CensusStep` | internal/queue/processor.go:170-394 | For every step and every job, by how much each of the nine counts (queued, leased, retrying, dead, and the five kinds of goroutine involvement) changes |
| `LifecycleCensus.AckedCensus` | internal/broker/memory.go:112-122 | An ack lowers the number of leases of its JID by one if there is one, whoever leased it, and touches no other JID |
| `LifecycleCensus.RecordedCensus` | internal/queue/processor.go:248-310 | Recording an outcome moves no job, whatever it decides about where the job will go |
| `Shutdown.CleanShutdown` | internal/queue/processor.go:163-235 | In a run without crashes, also one with expired and duplicate leases and orphans dropped by the reaper: once every goroutine has stopped the processing set is empty, and every job whose queue was not deleted under it has succeeded or is in a queue, the retry set or the dead set |
| `Shutdown.LeasesOwedStep` | internal/queue/processor.go:230-310 | Every step but a crash keeps the number of leases of a JID within the number of goroutines that will still ack it |
| `Shutdown.RolesStep` | internal/queue/processor.go:170-394 | Each goroutine stays within the phases of its own role |
| `Shutdown.FetcherPutsBackFirst` | internal/queue/processor.go:206-224 | For a fetcher that is about to ack there is an earlier step of the run in which it put that very job at the end of the queue it was taken from, or into the retry set |
| `Shutdown.LeavesOnlyWhenCancelled` | internal/queue/processor.go:183-225 | In every run a fetcher gives a job back, or has left, only if its processor has been cancelled |
| `Shutdown.WorkersStopLast` | internal/queue/processor.go:170-235 | In every run a goroutine has stopped only if its processor has been cancelled, and a worker only if its fetcher has stopped before it |
| `Shutdown.NoPollAfterCancel` | internal/queue/processor.go:184-191 | Once a processor is cancelled its fetcher starts no further poll |
| `Shutdown.ClosedLast` | engine.go:125-130 | In every run of an engine, whose stop cancels, waits for its goroutines and then closes: the broker is closed if and only if stop is through, and then, as from the end of the wait on, all the engine's goroutines have ended |
| `Shutdown.PutBackLandsInItsQueue` | internal/queue/processor.go:208-224 | Under the engine a job given back at shutdown is never refused: it goes to the end of the queue it was taken from before the fetcher acks |
| `Shutdown.EngineRunsProtocol` | engine.go:125-130 | An engine's run is a run of the lifecycle protocol with the same outcome |
| `Shutdown.EngineShutdown` | engine.go:125-130 | Once the stop of an engine without crashes is through, the broker is closed, the processing set is empty, and every accepted job whose queue was not deleted under it has succeeded or is in a queue, the retry set or the dead set |
| `Stopping.StopCanFinish` | engine.go:125-130 | A run of an engine from its start to the end of its stop, with a job in the fetcher's hands that ends up back in its queue |
| `Shutdown.ClosedRefuses` | internal/broker/memory.go:52-58 | A closed broker refuses every re-enqueue: a job given back goes to the retry set at once, a retry loop's job is charged, an orphan is dropped, a client is not served, and no queue grows |
| `Shutdown.ClosedQueuesShrink` | internal/broker/memory.go:52-58 | Over whole runs, no queue grows once the broker is closed |
| `Exclusive.ExclusiveExecution` | internal/queue/processor.go:230-310 | With at most one retry loop for the job's queue and no harmful reap of it, crashes or not: no two workers are ever inside the handler with the job |
| `Exclusive.OneCopyIff` | internal/broker/memory.go:81-189 | With at most one retry loop for its queue, a job has at most one copy all through a run, crashes or not, if and only if every reap that takes a lease of it takes one only, and at a time when nobody has a copy |
| `ExclusiveIff.ExclusiveIffApart` | internal/queue/processor.go:230-394 | From a start with given goroutines and a given configuration: no two workers ever run the same job, in any run without harmful reaps, if and only if no queue is served both by two retry loops and by two workers |
| `ExclusiveIff.AtHomeStep` | internal/queue/processor.go:170-394 | Every step keeps each job in its own queue and with workers whose processor serves that queue |
| `Exclusive.LeaseAccounting` | internal/broker/memory.go:81-122 | If moreover nothing crashes and no lease of the job is taken, its processing entries number exactly its un-acked placers and winners plus its holder, and the holder's entry is the last of them |
| `Exclusive.OrderlyStep` | internal/broker/memory.go:81-189 | Every step but a harmful reap keeps at most one copy of the job, and no more mentions in the batch of a loop that serves its queue than retry entries |
| `Exclusive.SingleStepIff` | internal/broker/memory.go:81-189 | From such a state a step keeps the copy single if and only if it is no harmful reap |
| `Exclusive.AccountableStep` | internal/broker/memory.go:81-189 | Every step but a crash and a reap of the job keeps the exact lease count and the holder's entry last |
| `Exclusive.LastOfRemoveFirst` | internal/broker/memory.go:115-120 | Removing the first match of a JID leaves its last entry alone while there are two, and always leaves other JIDs' last entries alone |
| `Retries.BoundedRetries` | internal/queue/processor.go:269-357 | At most one retry loop for its queue, no reap that brings the job back past its allowance: the retry count of a job submitted with `retry` is at most `retry` until the job is bound for the dead set and then at most one more, never above 26; past `retry` it is in the dead set or about to be put there, unless a goroutine crashed and no copy is left |
| `Retries.AccountedStep` | internal/queue/processor.go:282-357 | Every step but a reap that brings the job back past its allowance keeps that account of a job with a single copy |
| `Retries.ReapAccountedIff` | internal/queue/processor.go:377-391 | A harmless reap that takes the job keeps the account if and only if the job has attempts left |
| `Retries.RetryCountIsExact` | internal/queue/processor.go:269-357 | In every run at all, a job's retry count is its real handler failures plus its refused re-enqueues; circuit-open deferrals cost nothing |
| `Retries.DeferralCostsNothing` | internal/queue/processor.go:271-280 | A circuit-open outcome leaves the record alone and makes the job due again in five seconds |
| `Retries.RecordChange` | internal/queue/processor.go:269-357 | A job's record is changed only by a real failure of its own handler call and by a refused re-enqueue |
| `Retries.HolderNotDeadBound` | internal/queue/processor.go:299-308 | The one copy of a job cannot be held by a goroutine and be bound for the dead set elsewhere, or be gone |
| `Backoff.BackoffFloor` | internal/queue/processor.go:282-357 | At most one retry loop for its queue, no reap that brings the job back before its waits have passed: a job submitted with `retry` is in the dead set no sooner after the run's first failure or refusal of it than the waits imposed by all of them; these are at least the lesser of its delay and a minute per allowed attempt, and without refusals exactly `2^(retry+1) - 2` seconds |
| `Backoff.PacedStep` | internal/queue/processor.go:282-357 | Every other step keeps: nothing runs, schedules or dead-letters the job before the waits imposed so far have passed |
| `Backoff.PricedStep` | internal/queue/processor.go:282-357 | In every run the imposed waits are at least the least wait of the attempts paid for, and without refusals exactly the sum of their delays |
| `Backoff.ReapPacedIff` | internal/queue/processor.go:377-391 | A reap that takes the job keeps its pace if and only if the waits imposed so far have passed |
| `Backoff.ReadyByBatch` | internal/broker/memory.go:154-168 | A job read in a batch is past the time it was scheduled for |
| `Backoff.WaitedIsSumOfDelays` | internal/queue/processor.go:284-290 | `2^(n+1) - 2` seconds is the sum of the first `n` delays |
| `Duplicates.TwoLoopsDuplicate` | internal/queue/processor.go:325-341 | With two retry loops and two workers that serve a queue, of whatever processors, there is a run, without expired leases and crashes, in which both workers are inside the handler with the same job |
| `Duplicates.TwoLoopsPassBound` | internal/queue/processor.go:269-310 | And one that takes the retry count to `Retry + 2` |
| `Duplicates.ExpiredLeaseDuplicates` | internal/queue/processor.go:377-391 | With any number of retry loops there is a run with one expired lease in which two workers are inside the handler with the same job, and whose continuation takes its retry count to `Retry + 2` |
| `Duplicates.CrashedBurialPassesBound` | internal/queue/processor.go:299-308 | With any number of retry loops there is a run in which a worker crashes between using up the last attempt and dead-lettering, its lease is reclaimed, and the retry count reaches `Retry + 2` |
| `Payload.DelayDoublesAndFits` | internal/queue/processor.go:284-290 | Each delay doubles up to the cap, the cap is never reached by a bounded job, and every delay is positive and fits in int64 nanoseconds |
| `Payload.NormaliseProjects` | internal/payload/job.go:80-101 | What decoding does to a record is idempotent, lands within the bounds, and changes nothing exactly for records within them; above 25 becomes 25, below 0 becomes 0, an unset state becomes pending, and nothing else changes |
| `Payload.ClientJobIsNormal` | internal/payload/job.go:44-69 | A client's job is pending, without attempts used and with five retries by default; a retry setting it asks for is kept within 0..25, above becomes 25 and below 0 |
| `Payload.Clamp` | internal/payload/job.go:61-66 | Within 0..25 unchanged, above 25 becomes 25, below 0 becomes 0 |
| `ProcessorLoops.FinishJob` | internal/queue/processor.go:248-310 | The worker's calls after the handler returned have the effect of `Finish` on broker and record |
| `ProcessorLoops.UndisturbedWorker` | internal/queue/processor.go:248-310 | The protocol's separate worker steps, taken without interruption, do the same |
| `ProcessorLoops.RetryPoll` | internal/queue/processor.go:326-358 | One iteration of the retry loop over the broker object has the effect of `RetryPass` on the batch it read |
| `ProcessorLoops.RetryDrain` | internal/queue/processor.go:325-358 | JIDs distinct, re-enqueues accepted: one poll takes out exactly those of the first hundred due entries whose queue is known, appends them in order to their own queues, and leaves all else untouched |
| `ProcessorLoops.RefusedPoll` | internal/queue/processor.go:341-357 | A poll whose re-enqueues are refused changes no queue and loses no entry, and charges every served job that is due one attempt |
| `ProcessorLoops.DrainedInRounds` | internal/broker/memory.go:154-181 | `d` due entries, all of served queues, have all moved after `polls` polls if and only if `100 * polls >= d`, whatever else is in the set |
| `ProcessorLoops.StarvesIff` | internal/queue/processor.go:326-335 | A due entry of a served queue stays through all polls if and only if at least a hundred due entries of unserved queues lie before it |
| `ProcessorLoops.HowLong` | internal/queue/processor.go:326-335 | With `u` fewer than a hundred unserved due entries and `n` served ones before it, the entry has gone once `polls * (100 - u)` exceeds `n` |
| `ProcessorLoops.ReapRound` | internal/queue/processor.go:377-391 | One iteration of the reaper over the broker object has the effect of `ReapPass` |
| `ProcessorLoops.ReapConservesIff` | internal/queue/processor.go:382-391 | A reaper round puts every orphan back into its own queue, in order, if and only if every orphan's queue is known and the broker accepts |
| `ProcessorLoops.ReapPartition` | internal/broker/memory.go:127-143 | The reaper's split is exact: as multisets the two parts make up the processing set, one with the entries strictly before now, the other with the rest |
| `MemoryBroker.InMemoryBroker.constructor` | internal/broker/memory.go:39-46 | A new broker is empty and open |
| `MemoryBroker.InMemoryBroker.Enqueue` | internal/broker/memory.go:49-61 | Accepted if and only if the context is not done and the broker not closed, and then at the end of the queue; refused without effect |
| `MemoryBroker.InMemoryBroker.TryDequeue` | internal/broker/memory.go:81-97 | The first queue of the list that is not empty gives up its oldest job, which is leased for five minutes; nothing changes if all are empty |
| `MemoryBroker.InMemoryBroker.Ack` | internal/broker/memory.go:112-122 | The first processing entry of the JID goes, if any; nothing else changes |
| `MemoryBroker.InMemoryBroker.ReapOrphanedJobs` | internal/broker/memory.go:127-143 | Returns the expired entries' jobs in order and keeps the others in order |
| `MemoryBroker.InMemoryBroker.AddToRetry` | internal/broker/memory.go:146-151 | Appends an entry |
| `MemoryBroker.InMemoryBroker.GetRetryJobs` | internal/broker/memory.go:154-168 | The first `limit` due entries' jobs in order, none for a non-positive limit |
| `MemoryBroker.InMemoryBroker.RemoveFromRetry` | internal/broker/memory.go:171-181 | The first retry entry of the JID goes, if any |
| `MemoryBroker.InMemoryBroker.AddToDead` | internal/broker/memory.go:184-189 | Appends the job |
| `MemoryBroker.InMemoryBroker.Record` | internal/broker/memory.go:210-223 | Counts one success or one failure |
| `MemoryBroker.InMemoryBroker.DeleteKey` | internal/broker/memory.go:199-207 | Deletes the named queue, and only under the `queue:` prefix |
| `MemoryBroker.InMemoryBroker.Close` | internal/broker/memory.go:262-272 | Idempotent; nothing but the closed flag changes |
| `MemoryBroker.TallyRemoveFirst` | internal/broker/memory.go:115-120 | Removal by JID lowers that JID's count by one if it had an entry, and no other's |
| `MemoryBroker.TallyReap` | internal/broker/memory.go:133-141 | Reaping splits the entries of each JID without losing or inventing one |
| `MemoryBroker.TallyDue` | internal/broker/memory.go:162-166 | A batch holds no JID more often than the retry set does |
| `MemoryBroker.DueIsDue` | internal/broker/memory.go:162-166 | A batch holds only entries of the retry set whose time has come |
| `MemoryBroker.RemoveFirstSplice` | internal/broker/memory.go:115-119 | The search-and-splice loop computes the recursive removal |
| `Fifo.FirstInFirstOut` | internal/broker/memory.go:49-108 | Whatever behaves like the abstract queue: the removed elements followed by the contents are the initial contents followed by the added ones, if and only if no clearing threw anything away |
| `MemoryRuns.MemoryQueueIsFifo` | internal/broker/memory.go:49-207 | For each queue and every run of broker calls: dequeued jobs followed by the current contents are the enqueued jobs in order, if and only if the queue was never deleted with jobs in it |
| `MemoryRuns.ClosedAddsNothing` | internal/broker/memory.go:52-58 | Over every run of calls on a closed broker nothing is added to any queue |
| `MemoryRuns.NothingAfterClose` | internal/broker/memory.go:262-272 | So after a close no call adds to any queue |
| `MemoryRuns.Perform` | internal/broker/memory.go:49-272 | Every call on the broker object does to its contents what the call does in a run |
| `MemoryRuns.PerformAll` | internal/broker/memory.go:49-272 | So does every sequence of calls, which carries the laws over runs to the object |
| `MemoryRuns.LeaseHasDequeue` | internal/broker/memory.go:87-91 | Every processing entry goes back to one dequeue call of the run that leased that job |
| `MemoryRuns.LeaseSafety` | internal/broker/memory.go:127-143 | What the reaper reclaims was leased more than five minutes, 300 seconds, ago |
| `Breaker.Configure` | internal/queue/breaker.go:43-59 | All three settings are positive afterwards: positive ones are kept, the others become 5 failures, one minute and one minute |
| `Breaker.CapNeverFires` | internal/queue/breaker.go:195-206 | In every run a closed class holds fewer failures than the threshold and the others none, so the length cap never changes the list |
| `Breaker.OpenAdmitsNothing` | internal/queue/breaker.go:131-208 | Until `openUntil` no call is admitted and no recorded outcome changes an open class |
| `Breaker.ProbeUsedAdmitsNothing` | internal/queue/breaker.go:146-152 | After the probe nothing is admitted until an outcome is recorded |
| `Breaker.EpisodeAdmitsOne` | internal/queue/breaker.go:131-155 | From opening on: none before `openUntil`, the first call from then on is admitted, and no other until an outcome is recorded |
| `Breaker.OpeningDeniesForReset` | internal/queue/breaker.go:188-205 | From the failure that opens a class until the reset time has passed nothing is admitted, whatever else is called |
| `BreakerProbes.OneProbeInFlightIff` | internal/queue/breaker.go:131-208 | All through a run, and in all its continuations without stale outcomes, at most one probe is in flight, if and only if no outcome of another call is recorded while the class is half-open |
| `BreakerProbes.OneProbeStep` | internal/queue/breaker.go:146-193 | A step that is not such an outcome keeps: half-open with exactly the current probe in flight, or no probe in flight |
| `BreakerProbes.StaleLetsSecondProbeIn` | internal/queue/breaker.go:166-193 | After a stale outcome of either kind some continuation has a second probe in flight beside the first, which still has no outcome |
| `BreakerProbes.StaleFailureAdmitsSecondProbe` | internal/queue/breaker.go:188-193 | With any settings there is a run from the start in which call 1 is admitted as a probe and never has an outcome, and call 2 is admitted as a probe beside it |
| `BreakerLog.TrimIsWithin` | internal/queue/breaker.go:118-127 | On sorted times, dropping the old prefix is filtering by the window |
| `BreakerLog.BreakerRefinesLog` | internal/queue/breaker.go:118-208 | In every run whose clock does not go back, the class is in the state the whole untrimmed log dictates: a closed class opens at a failure exactly when the failures since its last reset within the window ending now reach the threshold |
| `BreakerLog.DecisionFollowsLog` | internal/queue/breaker.go:131-155 | A call is admitted if and only if the log says so |
| `BreakerMap.MapBounded` | internal/queue/breaker.go:65-116 | In every run the map holds at most 10000 classes, and with non-empty class names the sentinel is never returned |
| `BreakerMap.EvictionOrder` | internal/queue/breaker.go:70-106 | A class is evicted only for a new one when the map is full, and alone; one with failures only when no clean one is there, one that is not closed only when none is, and then with minimal `openUntil` |
| `BreakerMap.EmptyNameRefuses` | internal/queue/breaker.go:102-110 | With no closed class in a full map and the class of the empty name due to go, new classes are turned away over any run of calls and leave no trace |
| `BreakerMap.OpenExactlyUntilEvicted` | internal/queue/breaker.go:65-208 | Over any run of calls on any classes that asks for the class only before its reset time: it stays open until that time, admitting nothing, if and only if no call evicts it |
| `BreakerMap.EvictionForgets` | internal/queue/breaker.go:90-155 | After an eviction the class admits every call over any run of calls, until a failure is recorded for it or the sentinel turns it away |
| `BreakerMap.JammedExactlyUntil` | internal/queue/breaker.go:146-193 | Over any run of calls on any classes, a half-open class whose probe is taken stays so, admitting nothing, if and only if no call records an outcome for it or evicts it |
| `BreakerMap.ClassesAreIsolated` | internal/queue/breaker.go:131-208 | Any interleaving of calls on all classes leaves a class that is not evicted as its own machine run alone on its own calls |
| `BreakerMap.BelowCapacitySpares` | internal/queue/breaker.go:65-116 | With no more distinct class names than the bound, no class is ever evicted or denied |
| `BreakerMap.CircuitBreaker.constructor` | internal/queue/breaker.go:43-59 | Normalised settings and no classes |
| `BreakerMap.CircuitBreaker.TrimWindow` | internal/queue/breaker.go:118-127 | The index loop drops exactly the leading entries before the cutoff |
| `BreakerMap.CircuitBreaker.FindClosed` | internal/queue/breaker.go:72-89 | Finds a closed class, clean if asked, if and only if there is one |
| `BreakerMap.CircuitBreaker.FindOldest` | internal/queue/breaker.go:92-101 | Finds a class with minimal `openUntil` |
| `BreakerMap.CircuitBreaker.MakeRoom` | internal/queue/breaker.go:65-116 | Evicts only when full, only a class the three passes may pick, and fails exactly when that is the empty name among no closed classes |
| `BreakerMap.CircuitBreaker.Allow` | internal/queue/breaker.go:131-155 | Answer and new map are those of the class machine behind the bounded map |
| `BreakerMap.CircuitBreaker.RecordSuccess` | internal/queue/breaker.go:158-175 | The new map is that of the class machine |
| `BreakerMap.CircuitBreaker.FailClosed` | internal/queue/breaker.go:195-207 | What a failure makes of a closed class: trimmed, extended, capped, and open at the threshold |
| `BreakerMap.CircuitBreaker.RecordFailure` | internal/queue/breaker.go:178-208 | The new map is that of the class machine |
| `BreakerMap.CircuitBreaker.IsOpen` | internal/queue/breaker.go:211-223 | True exactly for an open class that would turn a call away now; creates nothing |
| `Middleware.Chain.constructor` | internal/queue/middleware.go:20-24 | Holds the given layers |
| `Middleware.Chain.Use` | internal/queue/middleware.go:26-28 | Adds layers behind those already there |
| `Middleware.Chain.Wrap` | internal/queue/middleware.go:30-36 | The descending loop computes the right fold, first layer outermost |
| `Middleware.FoldConcat` | internal/queue/middleware.go:26-36 | Folding over concatenated layers is folding the outer ones around the inner fold |
| `Middleware.NoPanicEscapes` | internal/queue/middleware.go:65-92 | With recovery outermost no panic of any inner layer or worker escapes; all other results pass unchanged |
| `Middleware.EngineCall` | engine.go:66-70 | Through the engine's chain with any further layers: a denied job is circuit-open without running; an admitted one that returns has exactly one outcome recorded, of the right kind; an admitted one that panics comes back as a plain error with none recorded |
| `Middleware.OutcomeReachesBreaker` | internal/queue/middleware.go:103-115 | Through the engine's chain with any further layers, an admitted job whose worker returns an error makes its class what a failure at that time makes it, and one without error what a success makes it, and no other class is touched |
| `Middleware.ThresholdOpens` | internal/queue/middleware.go:103-115 | Over runs of failing jobs of one class within the window, through the engine's chain: `threshold` of them open the class for the reset time after the last, and fewer do not |
| `Middleware.ProbeDecides` | internal/queue/middleware.go:103-115 | A probe that returns without error closes and cleans the class; one that returns an error opens it for another reset time |
| `Middleware.PanickingProbeJams` | internal/queue/middleware.go:65-116 | A probe that panics comes back as a plain error and, whatever breaker calls other goroutines make meanwhile and afterwards, its class stays half-open with the probe taken, admitting nothing, if and only if none of them records an outcome for it or evicts it |
| `Middleware.JammedClassTurnsAway` | internal/queue/middleware.go:97-116 | A job of such a class goes through the engine's chain circuit-open, without running, and changes nothing about that |
| `RoundRobin.Expand` | internal/queue/processor.go:43-56 | The nested loops build the expanded slice, which is never empty |
| `RoundRobin.Poll` | internal/queue/processor.go:174-191 | The cursor loop polls as the recursive description says |
| `RoundRobin.SlotsGiveShares` | internal/queue/processor.go:43-52 | Each queue is in the slice as often as its entries weigh together, a non-positive weight counting as 1 |
| `RoundRobin.ExpandedGivesShares` | internal/queue/processor.go:43-56 | The same for the final slice, whose length is the sum of the weights, with the default queue when nothing is configured |
| `RoundRobin.FullTurn` | internal/queue/processor.go:188-191 | A full turn from any cursor polls every slot once and returns to that cursor |
| `RoundRobin.TurnsAreFair` | internal/queue/processor.go:188-191 | `k` turns poll each queue exactly `k` times its number of slots |
| `RoundRobin.AnyWindow` | internal/queue/processor.go:188-191 | A window of `k` turns and a remainder stays between `k` and `k + 1` times that number |
| `RoundRobin.WeightedFairness` | internal/queue/processor.go:43-191 | Any `m` polls from any cursor poll a queue between `floor(m/n)` and `ceil(m/n)` times its weight, `n` being the total weight |
| `Redis.FixedPointIff` | internal/payload/job.go:80-101 | What a job encodes to is unchanged by decode, clamp, encode if and only if the job is within the clamping bounds |
| `Redis.DequeueConservesIff` | internal/broker/redis_broker.go:142-147 | The dequeue script conserves the payloads of its queue and the processing set if and only if the popped bytes are not leased already |
| `Redis.ReapConserves` | internal/broker/redis_broker.go:235-241 | The reap script always conserves: what leaves the processing set is what it returns |
| `Redis.ReapTakes` | internal/broker/redis_broker.go:235-241 | A reap takes min(limit, n) of the n expired leases and leaves the other members alone |
| `Redis.DrainedInRounds` | internal/broker/redis_broker.go:245-257 | n expired leases are gone after a number of rounds if and only if limit times that number reaches n |
| `Redis.LeaseNeverBefore299` | internal/broker/redis_broker.go:161-161 | Truncation to seconds and the inclusive cutoff never end a lease within 4 minutes 59 seconds |
| `Redis.FullLeaseIff` | internal/broker/redis_broker.go:245-251 | No reap ends a lease before its five minutes if and only if it began on a whole second |
| `Redis.RedisQueueIsFifo` | internal/broker/redis_broker.go:125-147 | LPUSH and RPOP make the same abstract queue as the in-memory slice: over a run of calls, first in, first out if and only if the list is never deleted with payloads in it |
| `Redis.RedisBroker.constructor` | internal/broker/redis_broker.go:107-112 | Starts from an empty key space |
| `Redis.RedisBroker.Enqueue` | internal/broker/redis_broker.go:125-137 | Pushes the encoded job at the head of its list |
| `Redis.RedisBroker.TryDequeue` | internal/broker/redis_broker.go:155-186 | The first queue of the list that is not empty gives up its oldest payload, leased under its own bytes and decoded with those bytes kept; a payload that cannot be decoded is an error and stays leased |
| `Redis.RedisBroker.Ack` | internal/broker/redis_broker.go:196-210 | Removes the member with the leased bytes, or the encoding if there are none, and nothing else |
| `Redis.RedisBroker.Range` | internal/broker/redis_broker.go:293-295 | A sorted-set range: distinct members between 0 and the maximum, lowest scores first, as many as there are up to the limit |
| `Redis.RedisBroker.ReapScript` | internal/broker/redis_broker.go:235-241 | Removes and returns such a range of the processing set |
| `Redis.RedisBroker.ReapOrphanedJobs` | internal/broker/redis_broker.go:245-271 | Reaps at most 100 leases whose second has come and returns those that decode, pending and without raw bytes |
| `Redis.OrphansArePending` | internal/broker/redis_broker.go:259-270 | An orphan for every member that decodes, in order, pending and without raw bytes, and else as decoded |
| `Redis.RedisBroker.AddToRetry` | internal/broker/redis_broker.go:273-283 | Adds the encoding, or renews its score, in whole seconds |
| `Redis.RedisBroker.GetRetryJobs` | internal/broker/redis_broker.go:285-311 | Decodes a range of the retry set up to now, the limit brought within 1..10000, passing over members that do not decode |
| `Redis.RedisBroker.RemoveFromRetry` | internal/broker/redis_broker.go:313-319 | Removes the member equal to the encoding and nothing else |
| `Redis.RedisBroker.DeleteKey` | internal/broker/redis_broker.go:337-342 | Deletes the named list, and only under the `queue:` prefix |
| `Redis.RedisBroker.AddToDead` | internal/broker/redis_broker.go:321-331 | Adds the encoding to the dead set |
| `RedisRuns.WritesFixedPoints` | internal/queue/processor.go:206-310 | What a worker or fetcher adds to the retry set is a fixed point, because the count stays within the clamp on every path that adds to retry |
| `RedisLifecycle.OutcomeInNumbers` | internal/queue/processor.go:206-310 | What each outcome does to the key space: a failure with attempts left is due `2^n` seconds later as attempt `n` in the retry set, the last one goes to the dead set, an open circuit costs five seconds and no attempt, a job given back goes to its list or, refused, is due at once; leases are untouched |
| `RedisLifecycle.FailureAgrees` | internal/queue/processor.go:282-308 | A failure over Redis changes the counts, and chooses set and time, as in the in-memory protocol |
| `RedisLifecycle.RefusalAgrees` | internal/queue/processor.go:341-357 | So does a refused re-enqueue |
| `RedisLifecycle.OnlySpentAreDead` | internal/queue/processor.go:282-357 | In every run, every member of the dead set decodes to a job that has used up its allowance |
| `RedisLifecycle.SucceededIff` | internal/queue/processor.go:245-267 | In every run over Redis, a job counts as succeeded if and only if a holder of it was settled with success |
| `RedisLifecycle.SettleJob` | internal/queue/processor.go:206-310 | The worker's and the fetcher's calls on the broker object have the effect of the outcome in a run |
| `RedisLifecycle.PutJob` | internal/queue/processor.go:340-357 | So have the retry loop's calls for a job it has taken |
| `RedisLifecycle.Carry` | internal/broker/redis_broker.go:125-331 | For each step of a run, the calls behind it leave the broker object with the contents of the next state |
| `RedisLifecycle.CarryReap` | internal/broker/redis_broker.go:245-271 | A reap of the object is a reap of the run, with the same orphans |
| `RedisLifecycle.CarryRead` | internal/broker/redis_broker.go:285-311 | A poll of the object is a read of the run, with the same jobs |
| `RedisLifecycle.CarryDelete` | internal/broker/redis_broker.go:337-342 | Deleting a queue's key is the deletion of its list |
| `RedisRuns.RefusalWritesFixedPoint` | internal/queue/processor.go:340-357 | So is what the retry loop adds back after a refused re-enqueue |
| `RedisRuns.RetryRemovalHitsItsTarget` | internal/broker/redis_broker.go:273-319 | In every run, with any number of retry loops and any bytes from clients: all members of the retry set are fixed points, and removing a job read from the set removes exactly the member it was read from |
| `RedisRuns.AckRemovesOwnMember` | internal/broker/redis_broker.go:196-210 | In every run, however the job was mutated: its ack removes the member its own dequeue leased and nothing else, never another job's lease |
| `RedisRuns.DequeueExactIff` | internal/broker/redis_broker.go:142-186 | If every un-acked dequeue has a lease of its own, a dequeue keeps that so if and only if no un-acked dequeue holds the bytes it pops |
| `RedisRuns.AlwaysExactIff` | internal/broker/redis_broker.go:142-271 | Every un-acked dequeue has a lease of its own all through a run, if and only if the run's dequeues meet that condition and no reap takes a held lease |
| `RedisRuns.AckExact` | internal/broker/redis_broker.go:204-210 | In runs whose dequeues meet that condition and in which no held lease expires, every ack finds and removes its own lease and leaves all other holders' in place |
| `RedisRuns.DeferralLosesLease` | internal/queue/processor.go:271-280 | For any client job, a run from the start, without a reap and with the retry loop reading only what is due, in which the ack of a circuit-open deferral takes the lease of the job's next holder |
| `RedisRuns.RedisLeaseSafety` | internal/broker/redis_broker.go:245-271 | In every run a reap that takes the lease of a job still held comes more than 4 minutes 59 seconds after that holder's dequeue |
| `RedisLifecycle.LeasesEnd` | internal/broker/redis_broker.go:161-166 | In every run no lease ends later than five minutes from now |
| `RedisNoLoss.NoJobLostOverRedis` | internal/queue/processor.go:206-391 | In every run over Redis without crashes, with expired leases, merged payloads and orphans dropped by a reaper: a client's job that can be decoded has succeeded, or is in a queue, the retry or the dead set, or is held by a goroutine that has still to settle it, or is in a retry loop's hand |
| `RedisNoLoss.KeptStep` | internal/broker/redis_broker.go:125-331 | Every step but a crash keeps a job in one of those places |
| `RedisCrash.NoJobLostInCrashes` | internal/broker/redis_broker.go:142-271 | With crashes, in every run in which no held lease expires and no dequeue pops bytes still held: such a job is in one of those places, or leased without an ack that could take the lease away, or in a reaper's hands, unless a reaper's re-enqueue of it was refused |
| `RedisCrash.SafeStep` | internal/broker/redis_broker.go:142-271 | From a state with exact leases every step but such a refusal keeps that |
| `RedisCrash.CrashAfterDeferralLoses` | internal/queue/processor.go:271-280 | For any client job, a run from the start without a reap, in which the ack of a circuit-open deferral takes the next holder's lease and the crash of that holder leaves the job nowhere |
| `CodecExists.LawfulCodecExists` | internal/payload/job.go:76-84 | There is a codec with all the laws assumed of JSON, every argument list being canonical |

## Left out

- Exclusive.LeaseAccounting: runs with crashes, since a crashed goroutine leaves its lease behind, and with reaps of the job's leases.
- Exclusive.ExclusiveExecution, Retries.BoundedRetries, Backoff.BackoffFloor: runs that fail their conditions on loops and reaps; `Duplicates` has such runs.
- RedisNoLoss.NoJobLostOverRedis, RedisCrash.NoJobLostInCrashes: deletion of queues over Redis.
- Job.State in the in-memory protocol: no branch there reads it. It is kept over Redis, where it is part of the encoded bytes.
- The Queue field of a processing entry: written and never read.
- The cursor in the lifecycle protocol: a fetcher may poll any queue of its configuration; `RoundRobin` has the cursor.
- Liveness: that handlers return, that tickers fire, and that `Stop` ends.
- Waiting inside `Dequeue` and between polls, context timeouts and tickers: time only passes between steps.
- Races in Go's memory model on fields of a shared job: steps are atomic.
- JSON syntax, UUIDs and floating-point timestamps: a codec with laws, fresh identifiers and integers; text is Unicode and integers are unbounded.
- The order of members with equal scores and the order in which Go walks a map: any order is allowed.
- Redis connections, errors of the network and of single commands, key scans and the statistics sets.
- An in-memory broker after a panic outside a handler: such a panic ends the Go process. The protocol allows any goroutine to crash alone; a worker's does when a handler ends it.
- The denial sentinel after the year 9999, when its own fields would begin to change.
- Validators, worker registries, logging, redaction, metrics, health, statistics and configuration files: lookups and presentation. The logging layer passes results through and is modelled so.
