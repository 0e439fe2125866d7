# Verification of the distributed task queue

A Dafny model of the queue's job life cycle and of the algorithms around it, with proofs. The system
is a job store, a queue manager that routes jobs to named queues, worker pools that fetch, run, retry
and retire them, and some features beside that path: rate limiters, batching, a Redis queue and
recurring schedules.

`dafny verify dfyconfig.toml` checks the whole project.

## How it is laid out

| file | what is in it |
|---|---|
| `Jobs.dfy` | the job and queue-configuration records |
| `Backoff.dfy` | the retry delay in 64-bit nanoseconds |
| `MemoryStore.dfy` | the memory backend: a value with one function per storage call, and the class that does the calls in place |
| `Manager.dfy`, `Selection.dfy` | the queue manager (value and class), and what its draw and its dequeue guarantee |
| `Defaults.dfy` | what registrations and submissions leave out is filled in with |
| `Pool.dfy` | the worker pool's phases (value and class) |
| `StatsLocks.dfy` | the memory backend's lock when the statistics of all queues are read |
| `Protocol.dfy`, `Invariant.dfy`, `Preservation.dfy` | the whole system as a step machine, its inductive invariant, and every action's proof |
| `Guarantees.dfy`, `Conservation.dfy`, `Termination.dfy` | what follows for every run: ownership, no loss, finality, spacing, counters, progress |
| `PanicRuns.dfy` | runs after which the next fetch panics |
| `Interleaving.dfy` | the same system with every storage call its own step, any number of callers and of pools that start and stop; single ownership |
| `CallOutcomes.dfy`, `CallAttempts.dfy`, `CallCancellation.dfy` | there: when an outcome is final and a job kept, how often and how soon a job runs, when a cancellation works |
| `CallCounters.dfy`, `CallMeasure.dfy`, `CallStatuses.dfy` | there: what the counters say at every point, how many calls a job can cause, under which status it is stored meanwhile |
| `CallRaces.dfy` | runs of storage calls that lose or strand a job, replace an outcome, execute a cancelled job |
| `CallPhases.dfy` | each manager call and pool phase is the storage calls it is made of |
| `DrainOrder.dfy` | emptying a memory queue, against a stable sort and against the SQL order |
| `TokenBucket.dfy`, `SlidingWindow.dfy` | the two rate limiters |
| `FloatScore.dfy`, `RedisQueue.dfy` | binary64 rounding of integers, and the Redis queue's order |
| `Batching.dfy`, `BatchLocks.dfy` | batches, timers, flushes and registrations, for one job type and under the processor's read-write lock |
| `Calendar.dfy`, `Scheduler.dfy` | UTC months, and recurring schedules |
| `Sums.dfy`, `Orders.dfy` | sums over the jobs of a store, and visiting the keys of a map in some order |

Objects that the program updates in place are classes whose methods are proved against functions on
values; lemmas about runs use those functions. A run is a sequence of actions (or calls, or events)
from an initial state; what is proved of a run holds for every such sequence.

Two step machines describe the pool. In `PoolProtocol` a manager call and a phase of a pool goroutine
(mark running, record success, handle a failure) is one step. In `CallInterleaving` only a single
storage call is, which is what the memory backend's lock makes atomic. `CallPhases` connects them:
run without interruption, the calls of a phase leave the store that the phase leaves.

Ownership, the bound on attempts, their spacing and a bound on the steps a job causes hold in both, and
the counters balance in both. Finality, no loss and cancellation hold unconditionally in the coarse
machine only; in the fine one each holds under an exact condition: an outcome is final unless a caller
of CancelJob read the job before it and has yet to write (`RecordedOutcomeFinalIff`); no job is lost
unless a canceller's Remove takes the entry of a job that a worker has meanwhile written back, a retry
finds no configuration, or an unfinished job is left in, or sent into, the channel of a stopped pool
without a worker (`NeverLostIff`); a cancelled job is never executed unless it was started before the
Remove, or something other than its queue entry could lead to a start then (`CancellationWorksIff`).
`CallRaces` has runs from the empty system on which each condition fails.

## Where the code and its descriptions differ

The model follows the code.

- A job whose retries are used up is not delivered to the dead-letter queue: the dead letter carries
  the ID of the failed job, whose record still exists, so it is refused (`DeadLetterRefused`).
- A retried job is stored PENDING with the error text of its dequeue-time copy, because requeueing
  writes that copy over the RETRYING status and the error set just before (`RetryEffect`).
- `CanRetry` refuses a FAILED job, since FAILED is terminal (pkg/job/job.go:96-98); a test in the
  repository expects the opposite (pkg/job/job_test.go:43).
- The exponential delay overflows: with the default minute it is right through retry 28, negative at
  retry 29 and zero from retry 54 on, where the cap was meant; `DefaultIsPromisedIff` lists the retries
  at which it is right.
- The random source is called with zero and panics when all the candidates have a negative priority
  (the maximum starts from zero), or when the highest priority is listed twice or more and weighs
  nothing (`WeightlessPanicsIff`; `PanicsIff` for any weights). Both happen (`NegativePriorityPanics`,
  `WeightlessPanics`).
- The Redis score is commented as priority first; it is priority with ageing (`PriorityIsNotStrict`,
  `BoundedOvertaking`).
- The batch size is an upper bound only while no job is added to a buffer that is already full
  (`SizeIsBoundIff`, `SizeIsExceeded`).
- A batch handler registered again leaves what the old batch holds, or still gets from an AddJob that
  found it, to the flushes that had found it; when there is none the jobs are lost (`LostIff`).
- Stop of the batch processor holds the lock for reading while each processBatch it calls reads it
  again (internal/features/batching.go:129-140 and 94-96). A writer that asks in between, an AddJob or
  a registration, blocks the inner read and waits for the outer one: Stop never returns, no batch is
  looked up again, and what is buffered stays (`StopStuckIff`, `StuckForever`, `StuckIsReachable`).
- `GetQueueStatsAll` of the memory backend does the same with the store's lock
  (internal/storage/memory/memory.go:640-656): a write asked for in between, and then every call of
  the store, waits for ever (`StatsLocks.StuckIff`).
- A pool that stops can leave jobs in its channel, stored PENDING and in no queue: its workers may see
  the stop before they look into the channel (`StopStrandsChannelOnly`, `StrandingIsReachable`).
- `@monthly` skips a month from days the next month does not have (`NextRunPeriod`).
- A retry appended with a long delay keeps its place before later entries of its priority, so the
  memory queue and `ORDER BY priority DESC, scheduled_for ASC` can pick differently (`MatchesSqlIff`).

## Model

| member | source | states |
|---|---|---|
| Backoff.MultiplierWraps | internal/worker/pool.go:455-458 | at every retry number, past 64 too, the 64-bit shift is 2^(n-1) modulo 2^64 |
| Backoff.DelayIsPromisedIff | internal/worker/pool.go:442-470 | for every configuration and strategy the delay is min(cap, base·factor) in unbounded integers if and only if the smaller of cap and product fits 64 bits and the other does not wrap below it |
| Backoff.DelayGrows | internal/worker/pool.go:442-470 | below the overflow point delays lie in [0, cap] and never shrink with the retry number |
| Backoff.DefaultHoldsThrough28 | internal/queue/manager.go:81-86 | with the default minute and hour the promise is kept for retries 1 to 28; retry 29 gets a negative delay |
| Backoff.DefaultVanishesFrom54 | internal/worker/pool.go:455-467 | from retry 54 on the default delay is zero |
| Backoff.DefaultIsPromisedIff | internal/worker/pool.go:442-470 | with the defaults the promise is kept at exactly the retries 1 to 28, 31, 38 to 41, 43 to 45, 49 and 51 |
| MemoryStorage.Scan | internal/storage/memory/memory.go:268-281 | the scan finds the first of the highest-priority due entries, or reports that none is due |
| MemoryStorage.PickUnique | internal/storage/memory/memory.go:272-285 | that description determines the entry |
| MemoryStorage.FirstOf | internal/storage/memory/memory.go:304-309 | the entry removed on cancellation is the first one of the job |
| MemoryStorage.MemoryStore.CreateJob | internal/storage/memory/memory.go:78-91 | stores a new job, refuses an ID that exists, changes nothing else |
| MemoryStorage.MemoryStore.UpdateJob | internal/storage/memory/memory.go:107-119 | replaces the record of an existing job |
| MemoryStorage.MemoryStore.UpdateStatus | internal/storage/memory/memory.go:162-185 | writes the status and dates the first start and the first end |
| MemoryStorage.DatesAreFirst | internal/storage/memory/memory.go:162-185 | after any sequence of status updates a job has the last status, its start dated by the first to RUNNING and its end by the first to SUCCESS, FAILED, CANCELLED or EXPIRED, unless it came dated; nothing else of it changes and no other job |
| MemoryStorage.MemoryStore.Enqueue | internal/storage/memory/memory.go:234-252 | appends an entry due after the delay, only for a stored job |
| MemoryStorage.MemoryStore.Dequeue | internal/storage/memory/memory.go:254-293 | refuses when paused or nothing is due; otherwise removes exactly the pick, the rest in order |
| MemoryStorage.MemoryStore.Remove | internal/storage/memory/memory.go:300-313 | removes the first entry of a job or reports it missing |
| QueueManager.MaxPriority | internal/queue/manager.go:344-350 | the greatest of 0 and the candidates' priorities: at least 0, at least each of them, and one of them unless it is 0 |
| QueueManager.AtPriority | internal/queue/manager.go:352-358 | exactly the candidates of one priority |
| QueueManager.Manager.Enqueue | internal/queue/manager.go:193-250 | default queue and configuration, job defaults, creation and entry; a taken ID registers the queue and nothing more |
| QueueManager.Manager.GatherCandidates | internal/queue/manager.go:313-338 | the registered, unpaused, non-empty listed queues in list order |
| QueueManager.Manager.FilterTop | internal/queue/manager.go:344-358 | the candidates of highest priority in order |
| QueueManager.Manager.DrawWeighted | internal/queue/manager.go:365-381 | the cumulative loop returns the candidate whose interval of cumulated weights holds the draw; a total of zero panics |
| QueueManager.Manager.Dequeue | internal/queue/manager.go:253-297 | drawn queue first, the others in list order when it has nothing due, then the stored record |
| QueueManager.Manager.Requeue | internal/queue/manager.go:385-395 | writes the caller's copy back, then appends the entry |
| QueueManager.Manager.CancelJob | internal/queue/manager.go:508-532 | refuses unknown and terminal jobs; marks CANCELLED and takes a PENDING job's entry out |
| QueueDefaults.RegistrationFills | internal/queue/manager.go:66-106 | a registration gets 3 retries, exponential back-off, 60 and 3600 seconds and weight 1 where it leaves them out, keeps what it sets, enters both tables and leaves other queues alone; an update is taken as it is |
| QueueDefaults.RegistrationSettles | internal/queue/manager.go:66-106 | registering again what a registration left changes nothing |
| QueueDefaults.LookupFinds | internal/queue/manager.go:109-132 | a look-up prefers the manager's own table, falls back to the storage's, remembers that, and changes no other look-up |
| QueueDefaults.SubmissionRegisters | internal/queue/manager.go:193-235 | a submission to an unknown queue registers it with 3 retries, exponential back-off from 60 to 3600 seconds, priority 5, weight 1 and no dead-letter queue; the job is created with 3 retries unless it asks for some |
| QueueDefaults.SubmissionBacksOff | internal/worker/pool.go:442-470 | a job of such a queue waits 60 s before its first retry and twice as long before each further one, up to an hour, for 28 retries |
| QueueSelection.FallbackUnreachable | internal/queue/manager.go:371-381 | with a positive total the loop returns before the fallback line, whatever the weights |
| QueueSelection.ExactlyProportional | internal/queue/manager.go:365-378 | candidate i is returned for exactly weight_i of the totalWeight draws |
| QueueSelection.ChoiceIsWinner | internal/queue/manager.go:344-381 | for any weights and priorities the selection, its one-candidate shortcut included, names the winner of the draw among the candidates no other exceeds in priority, or panics when there is neither one candidate nor a positive weight |
| QueueSelection.PanicsIff | internal/queue/manager.go:313-381 | for any weights and listing, the selection panics if and only if some listed queue is a candidate and those of the highest priority, at least zero, are not exactly one and weigh nothing or less together |
| QueueSelection.WeightlessPanicsIff | internal/queue/manager.go:345-371 | with weights that are not negative that is: all candidates have a priority below 0, or the highest priority is listed at least twice and all of it weighs zero |
| ProtocolPanics.NegativePriorityPanics | internal/queue/manager.go:345-371 | a run from the initial state, of one registration with priority -1 and one submission, after which the selection panics |
| ProtocolPanics.WeightlessPanics | internal/queue/manager.go:130-152 | one of two submissions and two reconfigurations to weight zero after which it does |
| QueueSelection.DequeueOutcome | internal/queue/manager.go:253-297 | a dequeue panics when the selection does and reports an empty queue (or that no queues were named) without a candidate; otherwise a candidate that none exceeds in priority is drawn, and it takes the pick of that queue if it serves, else of the first other listed queue that does, and when none does it changes nothing and reports the error of the last queue tried; a candidate is registered, not paused and not empty, a queue serves when it is not paused and holds an entry whose timestamp is not after now, and drawing the queue "" counts as drawing none |
| QueueSelection.WorkConserving | internal/queue/manager.go:253-297 | with the listed queues registered, of positive weight and priority 0 or more, a dequeue never panics and takes an entry if and only if some listed unpaused queue holds one whose time has come |
| QueueSelection.LoneCandidateIsDrawn | internal/queue/manager.go:344-363 | a single candidate of priority 0 or more is drawn, whatever it weighs |
| StatsLocks.StuckIff | internal/storage/memory/memory.go:640-656 | in every run of store calls the lock is stuck if and only if a write was asked for while a caller of GetQueueStatsAll had queues left to read |
| StatsLocks.StuckForever | internal/storage/memory/memory.go:600-656 | and then no call is served again in any continuation, but for callers of GetQueueStatsAll with nothing left to read |
| DrainOrder.DrainIsStable | internal/storage/memory/memory.go:263-292 | repeated dequeues hand out each priority in append order and leave what is not due, in order |
| DrainOrder.DrainIsDescending | internal/storage/memory/memory.go:272-281 | priorities come out in descending order |
| DrainOrder.DrainIsPermutation | internal/storage/memory/memory.go:287-292 | what is handed out and what is left are together the original entries |
| DrainOrder.DrainIsStableSort | internal/storage/memory/memory.go:254-293 | draining equals an insertion-based stable sort of the due entries |
| DrainOrder.MatchesSqlIff | internal/storage/postgres/postgres.go:523-529 | at every instant every pick of a drain is one the SQL order allows, if and only if entries of one priority were appended in timestamp order |
| DrainOrder.PickCanMissSqlPick | internal/storage/postgres/postgres.go:523-529 | two entries out of that order on which the backends differ |
| WorkerPool.Pool.FetchJobs | internal/worker/pool.go:242-262 | the loop fills the channel to the concurrency, stops at the first failed dequeue, gives the job back when stopping; the clock is read anew each round |
| WorkerPool.Pool.ProcessJob | internal/worker/pool.go:284-318 | mark running, run the handler, record success or handle the failure; nothing for a job that is gone |
| WorkerPool.Pool.HandleJobSuccess | internal/worker/pool.go:347-369 | status, progress, completion counter, worker counter |
| WorkerPool.Pool.HandleJobFailure | internal/worker/pool.go:372-439 | error text, then retry or giving up, with the early return when no configuration is found |
| ProtocolPreservation.EnqueueEffect | internal/queue/manager.go:193-250 | an enqueue either refuses a known ID, leaving jobs, queues and counters alone, or creates the submission with its defaults filled in, appends one entry due at its time or now, and counts one creation |
| ProtocolPreservation.CancelEffect | internal/queue/manager.go:508-532 | CancelJob answers that the job is unknown, that it is already SUCCESS, FAILED, CANCELLED or EXPIRED, or that it went well, and only then does something: it marks the job, dates its first end and removes at most its first entry, only of a PENDING job |
| ProtocolPreservation.FetchEffect | internal/queue/manager.go:253-297 | a fetch takes the pick of one listed unpaused queue and brings its record into the hand, exactly when one is to be had, or changes nothing |
| ProtocolPreservation.StartEffect | internal/worker/pool.go:284-300 | starting stores RUNNING and dates the first start, and changes nothing else |
| ProtocolPreservation.SucceedEffect | internal/worker/pool.go:347-369 | success leaves the record SUCCESS with its first end dated and progress 100, in no queue, one more completion counted and one more job processed by the worker, nothing else |
| ProtocolPreservation.RetryEffect | internal/worker/pool.go:379-408 | a retry leaves the worker's copy with one more retry as the record, one entry behind the delay, one more retry counted and one more failed job of the worker |
| ProtocolPreservation.DeadLetterRefused | internal/worker/pool.go:420-430 | the dead letter changes no job, queue or counter |
| ProtocolPreservation.DeadLetterStored | internal/worker/pool.go:420-430 | were the record gone, the dead letter would be created PENDING in the dead-letter queue, with that queue's defaults and one entry |
| ProtocolPreservation.GiveUpEffect | internal/worker/pool.go:409-438 | giving up leaves the record FAILED with the error text and its first end dated, otherwise as it was, in no queue, one more failure counted and one more failed job of the worker |
| ProtocolPreservation.StepKeepsCore | internal/worker/pool.go:222-439 | every action keeps the invariant and touches at most one job |
| ProtocolGuarantees.OwnedOnce | internal/worker/pool.go:242-281 | in every reachable state a job is in at most one of: a queue, the fetcher's hand, the channel, a worker; no two workers hold the same job |
| ProtocolGuarantees.NothingLost | internal/worker/pool.go:284-439 | a job that is not terminal is somewhere, waiting only in its own queue and PENDING; one that is nowhere is SUCCESS, FAILED or CANCELLED |
| ProtocolGuarantees.RecordedOutcomeIsFinal | internal/worker/pool.go:347-351 | after a worker records SUCCESS or FAILED, no continuation changes the record or starts another attempt |
| ProtocolGuarantees.CancelledWhileWaiting | internal/queue/manager.go:508-532 | a job cancelled while its entry is in its queue stays CANCELLED and is never executed, in any continuation |
| ProtocolGuarantees.BoundedAttempts | internal/worker/pool.go:379-412 | attempts started never exceed MaxRetries, less the retries submitted with, plus one |
| ProtocolGuarantees.AttemptsSpaced | internal/worker/pool.go:390-400 | the n-th retry starts no sooner than the first failure plus the delays computed after failures 1 to n, added up |
| ProtocolGuarantees.SendNeverBlocks | internal/worker/pool.go:242-261 | a fetched job always finds a free seat in the channel; channel, hand and workers hold at most twice the concurrency |
| ProtocolGuarantees.StopStrandsChannelOnly | internal/worker/pool.go:164-175 | after a full stop an unfinished job without a queue entry is one of at most `concurrency` jobs in the channel |
| ProtocolGuarantees.FetchLoopIsRun | internal/worker/pool.go:242-262 | the fetch loop of the code, its clock advancing from round to round, is a run of the protocol's tick, fetch, send and give-back actions |
| ProtocolGuarantees.FetchLoopFills | internal/worker/pool.go:242-262 | the fetch loop only adds to the channel, and ends only when the channel is full, when it is told to stop, or when nothing can be fetched at its last reading of the clock |
| ProtocolConservation.CountersConserved | internal/storage/memory/memory.go:530-598 | in every reachable state created = completed + failed + cancelled at rest + in play, completed + failed + retried = ended attempts, the worker's processed count = completed and its failed count = failed + retried |
| ProtocolTermination.SubmitCredit | internal/worker/pool.go:379-412 | a new job adds five steps for each attempt it may make |
| ProtocolTermination.StepAccounted | internal/worker/pool.go:242-439 | every pool step lowers the measure by at least one, and no other action raises it beyond its credit |
| ProtocolTermination.PoolStepsBounded | internal/worker/pool.go:242-439 | in any run from a reachable state the pool steps are at most the measure there plus what is submitted or given back |
| ProtocolTermination.Progress | internal/worker/pool.go:222-281 | while the selection does not panic and any job can move (delay over, queue listed and unpaused) some pool step is enabled |
| ProtocolTermination.QuiescentMeansDone | internal/worker/pool.go:222-439 | when no pool step is enabled and no job is held up, every job is terminal |
| CallInterleaving.SingleOwnershipOfCalls | internal/storage/memory/memory.go:78-91 | under every interleaving of single storage calls, by any number of callers and of pools that start and stop, a job ID occurs at most once across queues, channels and goroutines |
| CallOutcomes.RestNeverRuns | internal/worker/pool.go:284-318 | a job that no queue, channel or goroutine stands for is never executed again, in any continuation by storage calls |
| CallOutcomes.OutcomeFinalIff | internal/queue/manager.go:508-521 | the terminal record of such a job keeps its status in every continuation if and only if it is CANCELLED or no caller of CancelJob read the job earlier and has yet to write |
| CallOutcomes.RecordedOutcomeFinalIff | internal/worker/pool.go:347-419 | so SUCCESS or FAILED, at the call that records it, is final if and only if no such cancellation is in flight |
| CallOutcomes.CallLosesIff | internal/queue/manager.go:508-532 | where somebody cares for every unfinished job, a call leaves one uncared for if and only if it is a canceller's Remove that takes the entry of an unfinished job, a retry that finds no configuration, or a send into the channel of a stopped pool without a worker |
| CallOutcomes.EventLosesIff | internal/worker/pool.go:164-175 | and any other event does if and only if it leaves a stopped pool without a worker and with an unfinished job in its channel |
| CallOutcomes.NeverLostIff | internal/worker/pool.go:372-408 | over every run of storage calls, starts, stops and exits, nobody is missing for an unfinished job at any point, if and only if no event of the run is one of those |
| CallAttempts.BoundedAttemptsOfCalls | internal/worker/pool.go:379-412 | a job is executed at most MaxRetries, less the retries submitted with, plus one times, under every interleaving of storage calls by any number of pools |
| CallAttempts.AttemptsSpacedOfCalls | internal/worker/pool.go:379-400 | and its n-th retry starts no sooner than the first failure plus the delays computed after failures 1 to n, added up |
| CallAttempts.DeadLettersRefused | internal/worker/pool.go:420-430 | and no dead letter is ever stored |
| CallStatuses.StatusesOfCalls | internal/worker/pool.go:284-400 | at every point of every run of storage calls a job whose handler runs, or whose failure is not yet judged, is stored RUNNING, and one whose retry is not yet written back RETRYING, unless it was marked CANCELLED meanwhile |
| CallCounters.CountersOfCalls | internal/storage/memory/memory.go:530-598 | at every point of every run of storage calls: stored jobs = created + goroutines yet to count a creation; failed attempts = failed + retried + goroutines yet to count a failure + retries dropped without a configuration; started attempts = failed attempts + completed + attempts under way + goroutines yet to count a success |
| CallMeasure.EventAccounted | internal/worker/pool.go:242-439 | every call on behalf of a job lowers the job's measure by one or more, giving it back raises it by at most three, and no other event raises it |
| CallMeasure.CallsOfJobBounded | internal/worker/pool.go:242-439 | from its creation on, under every interleaving and with any number of pools, a job causes at most nine calls for each attempt it may make, one to enter its queue, and four for each time it is given back |
| CallCancellation.CanStartIff | internal/worker/pool.go:222-318 | some continuation starts the job again if and only if a queue, the channel of a pool that is not stopped or still has a worker, or a goroutine stands for it, other than in a last attempt under way |
| CallCancellation.RemoveStopsIff | internal/queue/manager.go:523-529 | after a canceller's Remove the job can still be executed if and only if something other than its queue entry stood for it that could lead to a start |
| CallCancellation.CancellationWorksIff | internal/queue/manager.go:508-532 | seen from any earlier state, a cancelled job is never executed in any continuation if and only if it was not started before the Remove and only its queue entry could lead to a start then |
| CallCancellation.UntakenMeansCancelled | internal/queue/manager.go:508-532 | in particular when its entry waits and no fetcher takes it before the Remove |
| CallRaces.LossIsReachable | internal/queue/manager.go:518-529 | a run from the empty system after which a stored job is PENDING and nothing stands for it |
| CallRaces.OverwriteIsReachable | internal/queue/manager.go:508-521 | a run from the empty system in which a recorded SUCCESS is replaced by CANCELLED |
| CallRaces.CancelledYetExecuted | internal/queue/manager.go:508-532 | a run from the empty system after which a job is CANCELLED, its cancellation complete, and can still be executed |
| CallRaces.StrandingIsReachable | internal/worker/pool.go:222-281 | a run from the empty system after which a PENDING job lies in the channel of a stopped pool and no continuation executes it |
| CallPhases.SubmitIsItsCalls | internal/queue/manager.go:193-250 | the calls of an Enqueue, uninterrupted, leave the store that Enqueue leaves, refused or not |
| CallPhases.CancelIsItsCalls | internal/queue/manager.go:508-532 | the calls of a CancelJob leave the store that CancelJob leaves, in all its outcomes |
| CallPhases.FetchIsItsCalls | internal/queue/manager.go:253-297 | the calls of a successful Dequeue leave its store and carry its job |
| CallPhases.GiveBackIsItsCalls | internal/queue/manager.go:385-395 | the calls of a Requeue leave the store that Requeue leaves |
| CallPhases.StartIsItsCall | internal/worker/pool.go:284-300 | the call that marks a job RUNNING is the start phase |
| CallPhases.SuccessIsItsCalls | internal/worker/pool.go:347-369 | the four calls of a success leave the store of the success phase, counters included |
| CallPhases.RetryIsItsCalls | internal/worker/pool.go:372-408 | the six calls of a retry leave the store of the failure phase, counters included |
| CallPhases.DroppedRetryIsItsCalls | internal/worker/pool.go:379-392 | so do the two calls of a retry that finds no configuration |
| CallPhases.GiveUpIsItsCalls | internal/worker/pool.go:409-439 | and those of giving up without a dead-letter queue |
| CallPhases.DeadLetterIsItsCalls | internal/worker/pool.go:409-439 | and those of giving up with one, the refused dead letter included |
| TokenBucket.LevelIsLeastAllowance | internal/features/ratelimit.go:61-70 | the token level at a call is the least, over all earlier calls k and itself, of burst + rate·(time since k) − accepted since k |
| TokenBucket.AllowIsExact | internal/features/ratelimit.go:36-79 | after SetLimit(rate, burst) at `start`: a call is accepted if and only if for every earlier call k, itself included, the accepted calls since k and this one fit in burst + rate·(time since k) |
| TokenBucket.DrainingIsExact | internal/features/ratelimit.go:36-79 | with a negative rate a call is accepted if and only if all accepted calls and this one fit in burst + rate·(time since SetLimit) |
| TokenBucket.WindowBound | internal/features/ratelimit.go:36-79 | every window of calls that ends in an accepted one holds at most burst + rate·(its length) accepted calls |
| TokenBucket.RefillsCompose | internal/features/ratelimit.go:61-70 | two capped refills are one |
| TokenBucket.DeletingRefused | internal/features/ratelimit.go:61-79 | deleting or inserting a refused call changes no other answer and no later state |
| TokenBucket.WaitEnds | internal/features/ratelimit.go:81-95 | by any poll n with n·rate/10 at least the missing tokens the bucket has one |
| TokenBucket.RateLimiter.Allow | internal/features/ratelimit.go:49-79 | refill, cap and spend in place; a queue without a limit always allows |
| TokenBucket.RateLimiter.Wait | internal/features/ratelimit.go:82-95 | without a competing caller, succeeds at the first poll at which the initial bucket holds a token, within every n that WaitEnds covers, or gives up when cancelled before |
| SlidingWindow.LogAgreesWithHistory | internal/features/ratelimit.go:160-176 | the pruned log and the full history agree after every cutoff from the last one on |
| SlidingWindow.LogIsPrunedHistory | internal/features/ratelimit.go:160-176 | with a window of positive length the log is exactly the accepted times after the last cutoff, in order |
| SlidingWindow.AllowCountsHistory | internal/features/ratelimit.go:148-179 | a call is accepted if and only if the whole history holds fewer than `limit` accepted calls in its window |
| SlidingWindow.GetCountIsHistoryCount | internal/features/ratelimit.go:182-205 | the reported count is the count over the whole history |
| SlidingWindow.EveryWindowKeepsLimit | internal/features/ratelimit.go:148-179 | in every run every interval (s, s + window] holds at most `limit` accepted calls |
| SlidingWindow.RefusedOnlyWhenFull | internal/features/ratelimit.go:173-178 | a call is refused if and only if the window ending at it holds exactly `limit` accepted calls |
| SlidingWindow.EmptyWindowNeverRefuses | internal/features/ratelimit.go:136-146 | with a window of zero or negative length nothing is refused unless the limit is zero |
| SlidingWindow.SlidingWindowRateLimiter.SetLimit | internal/features/ratelimit.go:136-146 | a negative limit panics and stores nothing |
| SlidingWindow.SlidingWindowRateLimiter.Allow | internal/features/ratelimit.go:148-179 | the rebuilding loop is one step of the window's history |
| SlidingWindow.SlidingWindowRateLimiter.GetCount | internal/features/ratelimit.go:182-205 | the counting loop counts the log after the cutoff |
| FloatScore.Float64Monotone | internal/storage/redis/queue.go:31 | rounding to binary64 never inverts the order of two integers |
| FloatScore.Float64Within | internal/storage/redis/queue.go:31 | for every integer it moves the value by at most half the distance between neighbours there |
| FloatScore.Float64Error | internal/storage/redis/queue.go:31 | below 2^(53+k) it moves an integer by at most 2^(k-1) |
| FloatScore.Float64IsFloat | internal/storage/redis/queue.go:31 | the result has at most 53 significant bits |
| FloatScore.Float64IsNearest | internal/storage/redis/queue.go:31 | no number of 53 significant bits is nearer |
| FloatScore.Float64TiesToEven | internal/storage/redis/queue.go:31 | of two equally near ones it is the even multiple of the spacing |
| RedisQueue.ScoreGrowsWithTime | internal/storage/redis/queue.go:28-31 | within a priority a later job never has the smaller score, for any integers |
| RedisQueue.ScoreFallsWithPriority | internal/storage/redis/queue.go:28-31 | at one time a higher priority never has the larger score, for any integers |
| RedisQueue.ScoreOrder | internal/storage/redis/queue.go:28-31 | for any integers scores are ordered as time − priority·10^10 ns, up to their roundings, both ways |
| RedisQueue.SlackInRange | internal/storage/redis/queue.go:28-31 | for times that fit 64-bit nanoseconds and priorities up to 4·10^8 the roundings of two scores are at most 3584 ns |
| RedisQueue.TimeIsRounded | internal/storage/redis/queue.go:31 | a score that shows that the time is rounded before the sum |
| RedisQueue.PriorityIsRounded | internal/storage/redis/queue.go:31 | one that shows that the priority is rounded before the product |
| RedisQueue.ProductIsRounded | internal/storage/redis/queue.go:31 | one that shows that the product is rounded before the sum |
| RedisQueue.SumIsRounded | internal/storage/redis/queue.go:31 | one that shows that the sum is rounded |
| RedisQueue.LexLessIs | internal/storage/redis/queue.go:62-69 | the order of equal scores: the bytes are equal up to some point, where the first ID ends or has the smaller byte |
| RedisQueue.FirstExists | internal/storage/redis/queue.go:62-69 | a non-empty sorted set has a first member by score, then by bytes |
| RedisQueue.StoredScore | internal/storage/redis/queue.go:33-39 | a member is in the set once, with the score of its last enqueue |
| RedisQueue.BoundedOvertaking | internal/storage/redis/queue.go:28-69 | for any integers, a pop that leaves a behind took a job enqueued at most ten seconds per priority step (and the roundings) after a, and within one priority, enqueued no earlier, one of equal score and smaller ID |
| RedisQueue.NoStarvation | internal/storage/redis/queue.go:28-69 | while a job waits, pops are fewer than the jobs it found queued plus the enqueues inside its overtaking window |
| RedisQueue.PriorityIsNotStrict | internal/storage/redis/queue.go:28-31 | a low job goes before a high one enqueued 101 s later |
| RedisQueue.RedisStore.Enqueue | internal/storage/redis/queue.go:14-42 | empty names and paused queues are refused; otherwise the member gets its score, other sets untouched |
| RedisQueue.RedisStore.Dequeue | internal/storage/redis/queue.go:45-89 | removes and returns the first member, with the errors for empty names, paused and empty queues |
| RedisQueue.RedisStore.Remove | internal/storage/redis/queue.go:98-113 | removes a member, paused or not, or reports it missing |
| Batching.NeitherDroppedNorDuplicated | internal/features/batching.go:48-113 | for every interleaving, re-registrations included, the batches taken from a registration followed by its buffer are the jobs appended to it, once and in order |
| Batching.AlwaysCovered | internal/features/batching.go:59-113 | a non-empty registered batch has a flush under way or an armed timer due a timeout after its oldest job; one of at least the batch size has a flush under way; no empty batch is processed |
| Batching.FlushesSpawned | internal/features/batching.go:76-87 | in every run the flushes spawned are exactly the timers fired and the appends that leave a batch of at least the batch size |
| Batching.TimersKept | internal/features/batching.go:71-86 | in every run, for every registration: a batch that holds jobs has the timer of its oldest job armed, due a timeout after that job, if and only if it is below the batch size and the timer has not fired |
| Batching.AbandonedForever | internal/features/batching.go:48-106 | from a replaced batch that no started flush refers to nothing is taken in any run |
| Batching.InternalStepsBounded | internal/features/batching.go:76-86 | timer firings and the two halves of a flush use up a measure one by one |
| Batching.DryMeansAllTaken | internal/features/batching.go:59-111 | when no timer is armed and no flush under way, every appended job was taken, once and in order, if and only if no replaced batch holds a job |
| Batching.SizeIsBoundIff | internal/features/batching.go:68-106 | for every size of at least one and every run, no batch and no buffer exceeds the size if and only if no job was appended to a buffer already at that size |
| Batching.SizeIsExceeded | internal/features/batching.go:82-87 | at every size some run does append to a full buffer |
| BatchLocks.EachLaneRuns | internal/features/batching.go:48-140 | every run of the processor under its lock is, for each job type, a run of that type, so the results on one type hold of every type under the lock |
| BatchLocks.StopStuckIff | internal/features/batching.go:129-140 | in every run Stop waits for itself if and only if a writer asked for the lock between Stop's taking it and its last look-up |
| BatchLocks.StuckForever | internal/features/batching.go:48-140 | and then, in every continuation, Stop does not return, no writer gets the lock and no batch is looked up again |
| BatchLocks.ReturnsIff | internal/features/batching.go:129-140 | a Stop under way can return if and only if it is not stuck |
| BatchLocks.StopIsRun | internal/features/batching.go:129-140 | an uninterrupted Stop, visiting the types in any order, is such a run: it returns and has taken what every registered batch held |
| BatchLocks.LostIff | internal/features/batching.go:48-140 | in every reachable state what a batch holds will yet be taken if and only if a started flush refers to it, or it is the registered one, the writer whose turn is next does not replace it, and Stop is not stuck |
| BatchLocks.DoomedForever | internal/features/batching.go:48-140 | otherwise it is taken in no continuation, whatever is asked |
| BatchLocks.StuckIsReachable | internal/features/batching.go:129-140 | a run after which Stop is stuck and a buffer whose batch nobody replaced is lost |
| Batching.SettleAllOutcome | internal/features/batching.go:117-125 | every stored job of a batch ends with the batch's outcome, SUCCESS, or FAILED with the handler's error; every other job stays as it was |
| Batching.BatchProcessor.constructor | internal/features/batching.go:33-46 | no size means 10 and no timeout 5 s; nothing is registered |
| Batching.BatchProcessor.RegisterBatchHandler | internal/features/batching.go:48-56 | a new empty batch becomes the registered one; the one it replaces stays with whoever found it |
| Batching.BatchProcessor.FindForAdd | internal/features/batching.go:60-66 | under the processor's lock: the registered batch of the type, if any |
| Batching.BatchProcessor.AppendTo | internal/features/batching.go:68-87 | under the batch's lock: one step of the machine that FlushesSpawned and TimersKept describe |
| Batching.BatchProcessor.AddJob | internal/features/batching.go:59-90 | both halves, uninterrupted: look-up, then append; without a registration nothing |
| Batching.BatchProcessor.FindForFlush | internal/features/batching.go:94-100 | under the processor's lock: the registered batch of the type, if any |
| Batching.BatchProcessor.TakeFrom | internal/features/batching.go:102-111 | under the batch's lock: takes all that is buffered and leaves it empty |
| Batching.BatchProcessor.Settle | internal/features/batching.go:117-125 | writes the outcome of every job of the batch, in order |
| Batching.BatchProcessor.ProcessBatch | internal/features/batching.go:93-126 | look-up, take and the jobs' outcomes, uninterrupted |
| Batching.BatchProcessor.Stop | internal/features/batching.go:129-140 | takes and settles every type's registered buffer, each type once, in some order, when no writer asks for the lock meanwhile |
| Calendar.MonthOf | internal/scheduler/scheduler.go:315-317 | the month whose first day is not after the day and whose successor's is, months starting as MonthStartIs says |
| Calendar.MonthStartIs | internal/scheduler/scheduler.go:315-317 | month m of year y (both from 0) starts on day 365y + y/4 − y/100 + y/400 + the days of January to m, with the leap day of year y + 1 from March on |
| Calendar.MonthLaterSkips | internal/scheduler/scheduler.go:316 | the same day a month later lies in the next month if that month has such a day, and in the one after if not |
| Scheduler.NextRunPeriod | internal/scheduler/scheduler.go:304-318 | the next run is later, at the very start of the next minute, hour, day or month, or of the day seven days on; two months on exactly when the next month lacks the day |
| Scheduler.NextRunIs | internal/scheduler/scheduler.go:296-322 | the next run in nanoseconds for an interval and for each keyword, months by their closed form; any other expression has none |
| Scheduler.MarchOfALeapYear | internal/scheduler/scheduler.go:315-317 | on 5 and on 20 March 2024 `@monthly` plans 1 April |
| Scheduler.TickIs | internal/scheduler/scheduler.go:210-262 | a pass runs a schedule exactly when it is enabled, its time has come and its runs are not used up, then counts and dates the run and plans the next; one that is used up is switched off |
| Scheduler.LastRunIsDated | internal/scheduler/scheduler.go:242-243 | the last run is the one dated, over any life |
| Scheduler.RunEnqueues | internal/scheduler/scheduler.go:265-292 | a run creates one job, PENDING, of priority 5, in the schedule's queue or "default", due at once, with the queue's retries or three, and counts one run |
| Scheduler.AddedRunsFirst | internal/scheduler/scheduler.go:53-93 | an added schedule first runs at a pass not before its first planned time, unless its runs are used up |
| Scheduler.RunsCounted | internal/scheduler/scheduler.go:226-243 | jobs enqueued by a schedule are the growth of its run count, which never exceeds a positive MaxRuns it respected at the start, under any enabling and disabling |
| Scheduler.RunsKeepPlan | internal/scheduler/scheduler.go:222-256 | no run comes before the time planned by the run before it |
| Scheduler.IntervalSpacing | internal/scheduler/scheduler.go:246-247 | any two runs of an interval schedule lie at least their distance times the interval apart |
| Scheduler.CronSpacing | internal/scheduler/scheduler.go:248-256 | no two runs fall in the same minute, hour, day or month; weekly runs lie seven days apart |
| Scheduler.PassTicksEachOnce | internal/scheduler/scheduler.go:210-262 | in whatever order a pass visits the map, each schedule makes one step of its life |
| Scheduler.PassCountsJobs | internal/scheduler/scheduler.go:234-243 | a pass creates exactly as many jobs in the store as the run counts grow by |
| Scheduler.Scheduler.AddSchedule | internal/scheduler/scheduler.go:53-93 | a missing job type, an unknown cron expression, and neither interval nor expression are refused, each exactly then; otherwise the schedule is stored, enabled, in its queue or "default", with its first planned run and the caller's run count |
| Scheduler.Scheduler.SetEnabled | internal/scheduler/scheduler.go:135-164 | switches a known schedule on or off and changes nothing else |
| Scheduler.Scheduler.ProcessDueSchedules | internal/scheduler/scheduler.go:210-262 | the loop over the map, through the manager's Enqueue, visits every schedule once in some order |

## Left out

- NothingLost: proved with whole manager calls and pool phases as single steps; for single storage calls `CallOutcomes.NeverLostIff` has the exact condition. It also rests on what the steps leave out: `DeleteJob`, and `DeleteQueue` while jobs of that queue are in flight. A job in the channel of a stopped pool counts as kept there (`StopStrandsChannelOnly`).
- RecordedOutcomeIsFinal: under the same assumption; for single storage calls `CallOutcomes.RecordedOutcomeFinalIff` has the exact condition.
- CancelledWhileWaiting: under the same assumption; for single storage calls `CallCancellation.CancellationWorksIff` has the exact condition.
- OwnedOnce: one pool; `SingleOwnershipOfCalls` covers any number.
- CountersConserved: Stop ends by unregistering its worker (internal/worker/pool.go:193), which deletes the worker's two counters; that is not a step here.
- FetchLoopIsRun: no worker receives from the channel while the loop runs; in the runs of the machine fetches and receives interleave freely.
- WorkerPool.Pool.FetchJobs: the same.
- CallInterleaving.Step: the configuration that a look-up finds is the environment's choice; the capacity of a channel and the number of a pool's goroutines before it stops are not bounded, so what some continuation can do may take more of them than one pool has. A pool's forced stop is not modelled.
- WorkerPool.Pool.HandleJobFailure: the RETRYING mark is written over before it returns, so its contract cannot show it; `CallStatuses.StatusesOfCalls` does.
- CallCounters.CountersOfCalls: the workers' own two counters are left to `CountersConserved`.
- Backoff.DelayIsPromisedIff: for retry numbers from one on, the only ones the pool computes.
- BoundedOvertaking: the figure of 3584 ns is for times that fit 64-bit nanoseconds and priorities up to 4·10^8.
- PoolProtocol.Enabled: a submission carries PENDING, as every caller in the repository sets it.
- TokenBucket.AllowIsExact: over real numbers, binary64 rounding of tokens is not modelled; for rates that are not negative, `DrainingIsExact` has the others.
- TokenBucket.RateLimiter.Wait: the times of the polls are parameters, at least 100 ms apart; cancellation is the number of polls after which the context is done.
- QueueManager.Manager.DrawWeighted: the random source is a parameter, and the sum of weights does not wrap.
- Batching.BatchProcessor.Stop: no writer asks for the lock while it runs; `BatchLocks.StopStuckIff` says what happens otherwise. A handler is taken to return, and not to call the batch processor itself.
- Batching.BatchProcessor.ProcessBatch: look-up, take and status writes are one call here; in the machine look-up and take are the steps, and the goroutine and timer runtime is the choice of the next event.
- Scheduler.Scheduler.ProcessDueSchedules: one clock reading for a pass; UUIDs are a parameter.
- SlidingWindow.SlidingWindowRateLimiter.SetLimit: a limit too large to allocate a log for panics in the source as well; memory is not modelled.
- RedisQueue.Score: the product is rounded before the sum; a compiler may fuse the two on some targets. The exponent of binary64 is unbounded here, which no 64-bit priority and time can tell.
- Time zones and daylight saving: UTC only.
- Job payloads, results, types, execution timeouts, panics and stack traces: a handler succeeds or fails, and does not change its job.
- Job `CreatedAt` and `UpdatedAt`, listing and paging, `Peek` and `GetScheduled` of the memory backend: they decide nothing.
- Heartbeats, current job, stale workers, per-queue and per-type statistics, success rates: read-outs beside the life cycle. Both step machines take store calls to return, which `GetQueueStatsAll` can prevent; only `StatsLocks` has it.
- Forced shutdown after the timeout: it cancels contexts; only the graceful stop is modelled.
- Postgres beyond the order of its dequeue, and the Redis client beyond the sorted set: external systems.
- The HTTP server, dashboard, logging, Prometheus metrics, commands and deployment files: I/O and wiring.
- `internal/queue/scheduler.go`: it only logs.
- Closing a stopped batch processor again, which panics.
- The queue wrapper around the rate limiter, and tenancy: easy compositions.
