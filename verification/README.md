# Ordered jobs, verified

A Dafny model of the ordered-job queue: jobs stand at numbered positions of chains, and a
job may run only when its predecessor has finished. The project proves what the queue
promises - order, mutual exclusion, fencing, no lost promotion, termination of a drain,
all-or-nothing batches - for every run and every interleaving of workers, recovery and
operators.

    dafny verify dfyconfig.toml

## How it is built

- `Lifecycle`, `Jobs`, `Rows` - statuses, jobs, requests, table rows.
- `Queue` - what each repository call means for the set of jobs, without index, loops or
  iteration order. `MemoryRepository` implements it: a class with the job map and the
  chain index, whose inner maps are heap objects because Go maps are references. A loop
  over a Go map picks entries in arbitrary order. Every method is proved equal to its
  meaning in `Queue`, and `Effects` says what that is in the fields of a job and for the next
  claim, recovery or bulk edit; each call holds the mutex, so it is one atomic step.
- `Protocol` - the engine and everyone else as a machine whose steps are single repository
  calls in any order. Ghost history records held tokens, owed promotions, recoveries.
  A finishing call presents a job snapshot returned by a claim and not used before; that is
  the only discipline assumed. `Invariants` proves what every step keeps; `Safety`,
  `Liveness`, `Drain`, `Cancels` and `LiveWorkers` draw the theorems about whole runs.
- `EngineWorker` - the engine's own code as a class over the repository: each call it makes
  is an enabled step of the machine, and a whole round is a stretch of it. `Operators` - the
  same for every other call that reaches the repository.
- `Retry`, `Lease`, `Batches` - backoff, leases, batches.
- `Postgres`, `PostgresOrder` - the SQL statements as guarded row updates, and runs of them
  sent by anyone with any token, with the order of strict chains. `PostgresModes` - order and
  mutual exclusion in every mode; `PostgresCancels`, `PostgresLeases` - cancels and live
  workers; `PostgresWitnesses` - short runs in which a guarantee fails. `RowEffects` - what the
  statements mean in columns and for the next claim, recovery or bulk edit. `SqlServer` - the
  variant in which recovery raises the generation, with its runs.

Times are integers in nanoseconds, ids are numbers drawn fresh, random draws and handler
outcomes are parameters. An ordering mode is one of the published constants, unset, or any
other string.

## What turned out otherwise

- The handler-not-found path (engine.go:363-369) fails a job without promoting its
  successor. `Liveness.LostPromotion` is a run that loses a job that way;
  `Liveness.HandlerMissingLoses` says exactly when it happens.
- PostgreSQL's ConfirmCancel (repository/postgres/repository.go:477-490) does not look at
  the status. `PostgresWitnesses.ExclusionLost` is a run in which it breaks mutual exclusion;
  `PostgresOrder.ConfirmCancelKeepsOrder` says exactly which calls keep the order.
- On PostgreSQL the engine's cancel request (engine.go:461-463) takes the job from its own
  worker, and the Fail that follows conflicts. `PostgresWitnesses.EngineWedgesChain` is that
  run; `PostgresCancels.AskedLeaves` says that only a ConfirmCancel of that token moves the
  row again, `CancelWedgesChain` that a strict chain waits for it, `CancelWayOut` how it ends.
- In memory the request leaves a running job alone, but a job that was never claimed stays
  CANCEL_REQUESTED for ever and its strict chain with it (`Cancels.CancelStopsChain`,
  `Cancels.AskedLeaves`, `Cancels.CancelWedgesChain`).
- Outside strict chains eligibility alone does not always exclude two running jobs:
  `PostgresWitnesses.OverlapInLenientChain` is a run, and `PostgresModes.StepKeepsFollowing`
  and `MutualExclusionInAllModes` say that it takes a call that undoes a finished row in front
  of a claimed one. The second scan of the in-memory claim excludes it always
  (`Safety.OneProcessingPerChain`).
- PostgreSQL's BulkSkipDLQ always returns 0 (repository/postgres/repository.go:1073).
- The memory repository's fence does not look at the status, and its recovery keeps the
  generation, so a recovered worker can still finish (`Safety.RecoveredTokenStillCompletes`).

Where the documentation and the code differ, the model follows the code: README.md:282
says that negative sequences are refused (the memory repository accepts them, and
`Safety.NonPositiveNeverRuns` says what becomes of them); README.md:285 ties the initial
status to a COMPLETED predecessor (a failed one in a continuing mode counts as well);
README.md:407 says that recovery raises the generation (only SQL Server does);
README.md:411 says that skipping ahead is refused (after a purge a hole below the maximum is
filled). The transition table of lifecycle/state.go is not consulted by the repositories and
is not claimed to hold.


## Model

| member | source | states |
|---|---|---|
| `MemoryRepository.IndexIsDetermined` | repository/memory/repository.go:17-22 | the jobs determine the chain index: two indexes that agree with the same jobs, with no empty inner map, are equal |
| `MemoryRepository.IndexFollowsIdentity` | repository/memory/repository.go:17-22 | rewriting jobs without moving them keeps index and job map inverse to each other |
| `MemoryRepository.InsertKeepsIndex` | repository/memory/repository.go:195-200 | filing a new job at a free position keeps index and job map inverse to each other |
| `MemoryRepository.RemoveKeepsIndex` | repository/memory/repository.go:864-872 | deleting a job, its index entry and an inner map that became empty keeps them inverse to each other, and positions and keys unique |
| `MemoryRepository.Repository.constructor` | repository/memory/repository.go:24-29 | a new repository is empty and valid |
| `MemoryRepository.Repository.Link` | repository/memory/repository.go:195-199 | the index gains exactly one entry; chains still share no inner map; nothing but the index is touched |
| `MemoryRepository.Repository.Store` | repository/memory/repository.go:195-200 | one job is added to both structures and validity (unique positions, unique keys, mutual inverses, no sharing) is kept |
| `MemoryRepository.Repository.FindJobByIdempotencyKey` | repository/memory/repository.go:69-76 | finds a job exactly when one carries the key, for every map order |
| `MemoryRepository.Repository.LookupIs` | repository/memory/repository.go:91-113 | an index lookup at (chain, sequence) hits exactly when a job stands there, and leads to the only such job |
| `MemoryRepository.Repository.GetMaxSequence` | repository/memory/repository.go:78-88 | the largest positive sequence of the chain, 0 if there is none, read off the index in any order |
| `MemoryRepository.Repository.ValidateAndResolveSequence` | repository/memory/repository.go:90-114 | the automatic or explicit position, ErrSequenceGap or ErrDuplicateChainSeq, as a function of the jobs alone |
| `MemoryRepository.Repository.DetermineInitialStatus` | repository/memory/repository.go:116-136 | PENDING at positions up to 1 and behind a finished predecessor, else BLOCKED, as a function of the jobs alone |
| `MemoryRepository.Repository.EnqueueSingleInMemory` | repository/memory/repository.go:138-201 | result and new jobs are those of the abstract enqueue, in the error, the idempotent and the inserting case; a job it adds has the fields of the request - available time or now, 5 attempts for 0, strict for no mode, {} for no payload - and is ready exactly from that time on, when it is its turn and its chain is idle |
| `MemoryRepository.Repository.Enqueue` | repository/memory/repository.go:33-37 | as EnqueueSingleInMemory, fields and readiness of the new job included |
| `MemoryRepository.Repository.CopyOfChain` | repository/memory/repository.go:43-54 | the backup has the same contents, and every inner map in it is a new object shared with nothing |
| `MemoryRepository.Repository.EnqueueAll` | repository/memory/repository.go:56-65 | the loop runs single enqueues one after another and stops at the first that fails |
| `MemoryRepository.Repository.EnqueueBatch` | repository/memory/repository.go:39-67 | returns the recursive fold of single enqueues over the requests; all or nothing: an error restores jobs and index exactly |
| `Queue.GapFree` | repository/memory/repository.go:78-114 | if every job past position 1 has a predecessor, the positive positions of a chain are exactly 1..max |
| `Queue.AcceptedPositions` | repository/memory/repository.go:90-114 | in a gap-free chain an explicit non-negative position is accepted if and only if it is automatic or max+1, and both get max+1, which is free |
| `Queue.ResolvedIsFree` | repository/memory/repository.go:90-114 | a position that is handed out is free, also in chains in which a purge has left gaps |
| `Queue.EnqueueAdds` | repository/memory/repository.go:138-201 | an enqueue changes nothing or adds one new job at a free position; unique positions, unique keys and gap-freedom are kept |
| `Queue.EnqueueAddsAtMost` | repository/memory/repository.go:138-201 | an enqueue leaves every existing job as it is and adds no id but its own |
| `Liveness.NoGaps` | repository/memory/repository.go:78-114 | in every state of every purge-free run each job past position 1 has a predecessor |
| `Liveness.GapFreeRuns` | repository/memory/repository.go:78-114 | in purge-free runs positions are exactly 1..max, automatic requests get max+1, and an explicit positive one is accepted if and only if it is max+1 |
| `Liveness.PurgeGaps` | repository/memory/repository.go:859-878 | a purge leaves a gap if and only if it takes a job and keeps the one directly behind it |
| `Batches.AutomaticBatch` | repository/memory/repository.go:39-67 | k automatic requests to one chain without idempotency hits never fail and get max+1, ..., max+k in order, after which the maximum is max+k |
| `Queue.RunFolds` | repository/memory/repository.go:56-66 | a batch run step by step computes the recursive fold of single enqueues, answers and jobs |
| `Queue.BreakFolds` | repository/memory/repository.go:57-63 | a batch that breaks at one request fails the fold with that error, whatever requests come after |
| `Batches.BatchIsSegment` | repository/memory/repository.go:39-67 | a successful batch is a stretch of enqueue steps of the protocol, so the theorems about runs cover it |
| `Batches.RepeatIsIdempotent` | repository/memory/repository.go:143-148 | enqueuing again with the same key changes nothing and returns the first job |
| `MemoryRepository.SortByAvailability` | repository/memory/repository.go:254-259 | the candidates come back as a permutation in which nobody is available before, or at the same time and created before, somebody further up |
| `MemoryRepository.Repository.EligibleThroughIndex` | repository/memory/repository.go:234-252 | the test through the index decides eligibility as defined on the jobs |
| `MemoryRepository.Repository.Candidates` | repository/memory/repository.go:232-253 | exactly the eligible jobs are collected, in any map order |
| `MemoryRepository.Repository.ChainBusy` | repository/memory/repository.go:265-276 | true exactly when a job of the chain is in processing |
| `MemoryRepository.Repository.FirstIdleIsEarliest` | repository/memory/repository.go:260-285 | the first sorted candidate of an idle chain is minimal among all claimable jobs |
| `MemoryRepository.Repository.Pick` | repository/memory/repository.go:224-284 | finds a ready job such that no ready job is available before it, nor at the same time and created before it; none exactly when no job is ready: a busy chain hides no other chain's work |
| `MemoryRepository.Repository.Claim` | repository/memory/repository.go:224-298 | returns the first ready job by available, then created time - waiting, due, behind a predecessor that is completed or failed in a continuing mode, its chain idle - in processing with one attempt and one generation more and a lease that runs out exactly after now + lease; ErrNotFound exactly when none is ready; nothing else changes |
| `MemoryRepository.Repository.Complete` | repository/memory/repository.go:300-330 | fenced by worker and generation; completes the job and unblocks the next position in one step, or changes nothing |
| `MemoryRepository.Repository.Fail` | repository/memory/repository.go:332-361 | fenced; FAILED or DEAD_LETTERED by the stored mode, successor untouched; or changes nothing |
| `MemoryRepository.Repository.Retry` | repository/memory/repository.go:363-381 | fenced; RETRYING from the given time, lease cleared; or changes nothing |
| `MemoryRepository.Repository.Heartbeat` | repository/memory/repository.go:383-399 | fenced; renews the lease and nothing else; or changes nothing |
| `MemoryRepository.Repository.ConfirmCancel` | repository/memory/repository.go:416-431 | fenced; CANCELLED; or changes nothing |
| `MemoryRepository.Repository.PromoteNext` | repository/memory/repository.go:460-474 | unblocks exactly the blocked job at the next position of the chain, found through the index |
| `MemoryRepository.Repository.CompleteAndPromote` | repository/memory/repository.go:312-329 | the two writes shared by Complete, SkipJob and BulkSkipDLQ are one abstract step |
| `MemoryRepository.Repository.RequestCancel` | repository/memory/repository.go:401-414 | only a waiting or blocked job becomes CANCEL_REQUESTED; a job in processing is left alone |
| `MemoryRepository.Repository.ReplayJob` | repository/memory/repository.go:497-538 | reopens stopped jobs only, with attempts reset and optionally a new payload |
| `MemoryRepository.Repository.SkipJob` | repository/memory/repository.go:540-567 | completes stopped jobs only, and unblocks the next position |
| `MemoryRepository.Repository.RescheduleJob` | repository/memory/repository.go:569-588 | moves the available time of a waiting job, ErrNotFound or ErrJobNotEligible otherwise |
| `MemoryRepository.Repository.RecoverStale` | repository/memory/repository.go:433-458 | of the jobs in processing whose lease lies in the past, exactly min(limit, their number) are put back to RETRYING after the policy's wait for their attempts, or one second without a policy; every other job stays, in any map order and for any limit; the count is their number |
| `MemoryRepository.Repository.BulkReplayDLQ` | repository/memory/repository.go:806-826 | reopens exactly the failed and dead-lettered jobs that differ from no field the filter gives and pass its search, and no other job changes; the count is their number in the starting state, in any map order |
| `MemoryRepository.Repository.BulkSkipDLQ` | repository/memory/repository.go:828-857 | completes exactly those jobs and unblocks exactly the jobs blocked directly behind them; no other job changes, in any map order, although the loop edits the map it ranges over; the count is their number |
| `MemoryRepository.Repository.BulkPurgeDLQ` | repository/memory/repository.go:859-878 | deletes exactly those jobs from both structures while ranging over them, keeps validity and every other job; the count is their number |
| `MemoryRepository.Repository.CountDLQ` | repository/memory/repository.go:880-891 | the number of jobs that are FAILED or DEAD_LETTERED |
| `Queue.SkipVisits` | repository/memory/repository.go:834-854 | one more skip in the middle of a bulk skip, whatever was skipped before, lands in the order-free result for one more job |
| `Effects.ClaimableIsReady` | repository/memory/repository.go:233-253 | claimable means: PENDING or RETRYING, due, first of the chain or behind a job that is COMPLETED or failed in a continuing mode, and no other job of the chain in processing |
| `Effects.EarliestMeans` | repository/memory/repository.go:254-259 | an earliest job is ready and no ready job has an earlier available time, nor an earlier created time at the same available time |
| `Effects.EnqueueMeans` | repository/memory/repository.go:154-194 | the fields of a job that an enqueue adds, from the request and the clock, and when it becomes ready |
| `Effects.FenceMeans` | repository/memory/repository.go:303-309 | a call is let through exactly with the worker and generation of the last claim; ErrNotFound exactly for an unknown job |
| `Effects.ClaimedMeans` | repository/memory/repository.go:285-296 | what a claim writes and keeps, and from when on its lease has run out |
| `Effects.BeatenMeans` | repository/memory/repository.go:393-397 | a heartbeat moves the time from which the lease has run out, and nothing else |
| `Effects.CompletedAndPromotedMeans` | repository/memory/repository.go:310-328 | completing writes that job, opens a job blocked at the next position, and leaves all others alone |
| `Effects.FailedMeans` | repository/memory/repository.go:342-359 | dead-lettered exactly for a terminal failure in that mode, else failed; error and time on record; all else kept |
| `Effects.RetriedMeans` | repository/memory/repository.go:373-380 | a job put back is ready exactly from the given time on, in its turn; error on record; all else kept |
| `Effects.CancelRequestedMeans` | repository/memory/repository.go:404-413 | a request changes the status of a waiting or blocked job and nothing else |
| `Effects.ReplayedMeans` | repository/memory/repository.go:497-538 | a replay reopens a failed, cancelled or dead-lettered job, which is ready at once in its turn with all attempts back, and changes no other |
| `Effects.RescheduledMeans` | repository/memory/repository.go:569-588 | a rescheduled job is ready exactly from the new time on, in its turn; all else kept |
| `Effects.RecoveredMeans` | repository/memory/repository.go:444-455 | a recovered job is put back under its old token after one second or the policy's answer for its attempts; all else kept |
| `Effects.BulkSkipMeans` | repository/memory/repository.go:776-857 | what a bulk skip does to each job, in the fields of the filter and of the jobs |
| `Operators.Enqueue` | repository/memory/repository.go:33-37 | an enqueue through the repository is a step of the protocol |
| `Operators.ConfirmCancel` | repository/memory/repository.go:416-431 | a confirmed cancel with a held token is a step of the protocol |
| `Operators.ReplayJob` | repository/memory/repository.go:497-538 | a replay is a step of the protocol |
| `Operators.SkipJob` | repository/memory/repository.go:540-567 | a skip is a step of the protocol |
| `Operators.BulkReplay` | repository/memory/repository.go:806-826 | a bulk replay is a step of the protocol |
| `Operators.BulkSkip` | repository/memory/repository.go:828-857 | a bulk skip is a step of the protocol |
| `Operators.BulkPurge` | repository/memory/repository.go:859-878 | a purge is a step of the protocol |
| `Protocol.StepUpdates` | engine.go:337-561 | every protocol step but an enqueue and a purge changes each job in one of eight listed ways and keeps tokens and debts on record |
| `Invariants.UpdateKeepsInv` | repository/memory/repository.go:224-567 | a change of those ways keeps the invariant of the jobs, tokens and debts |
| `Invariants.EnqueueKeepsInv` | repository/memory/repository.go:116-201 | an enqueue keeps the invariant |
| `Invariants.PurgeKeepsInv` | repository/memory/repository.go:859-878 | a purge keeps the invariant |
| `Invariants.StepKeepsInv` | engine.go:337-561 | every enabled step keeps the invariant |
| `Invariants.Reachable` | engine.go:337-561 | the invariant holds in every state of every run |
| `Safety.OneProcessingPerChain` | repository/memory/repository.go:264-284 | at most one job per chain is in processing, in every reachable state, all modes, replays included |
| `Safety.StrictFifo` | repository/memory/repository.go:224-298 | in a chain of strict jobs, behind a job that was ever claimed all earlier positions exist and are COMPLETED; recovery, cancel, replay, skip, purge and spurious promotion may come anywhere |
| `Safety.AllBefore` | repository/memory/repository.go:229-249 | one state's version of strict FIFO, by descent along the chain |
| `Safety.ClaimOrder` | repository/memory/repository.go:224-298 | in every mode and purge-free run, the predecessor of a claimed job has been claimed itself, and is completed unless its mode continues after a failure |
| `Safety.NonPositiveNeverRuns` | repository/memory/repository.go:90-136 | negative positions are accepted but such a job is never claimed and only ever PENDING or CANCEL_REQUESTED |
| `Safety.CompletedForever` | repository/memory/repository.go:300-330 | under token discipline COMPLETED is absorbing, worker, attempt and generation included |
| `Safety.CompletesOnce` | engine.go:442-444 | at most one Complete per job ever takes effect |
| `Safety.OldTokenRefused` | repository/memory/repository.go:307-309 | once a job has a later generation or is purged, every finishing call and heartbeat of the older one is refused for ever without effect |
| `Safety.RecoveredTokenStillCompletes` | repository/memory/repository.go:433-458 | recovery in memory leaves the generation alone: until the next claim the old worker can still complete the job |
| `Safety.AttemptBudget` | engine.go:465-493 | attempts never exceed max(1, min(job limit, policy limit)) plus the stale recoveries since the last replay |
| `Safety.SnapshotAgrees` | engine.go:465-493 | a token that the fence accepts carries the stored attempt count, limit, mode and position |
| `Liveness.NoLostPromotion` | repository/memory/repository.go:116-136 | a blocked job is past position 1, never claimed, and behind a missing or unfinished job or one whose PromoteNext is still owed |
| `Liveness.HandlerMissingLoses` | engine.go:363-369 | the handler-not-found path loses a promotion if and only if it takes effect, the mode continues, the successor is blocked, and no other worker owes the promotion |
| `Liveness.LostPromotion` | engine.go:363-369 | a run of four steps after which a job stays BLOCKED behind a finished one, owed nothing, and no claim ever finds work |
| `Liveness.NoSilentWedge` | repository/memory/repository.go:224-298 | in purge-free runs with no promotion owed or abandoned, the lowest unfinished job of an idle chain, if blocked, pending or retrying, is not blocked and is claimable from its available time on |
| `Liveness.FrontWaitsExactly` | repository/memory/repository.go:224-298 | in every run, purges included, the front job of an idle chain is claimable from its time on if and only if it is not blocked and stands at position 1 or behind a job that still exists; blocked behind an existing job means a promotion owed or abandoned |
| `Liveness.FrontIsClaimable` | repository/memory/repository.go:116-136 | one state's version of it |
| `Drain.StepFalls` | engine.go:442-496 | every draining step lets the remaining weight fall, and every claim and effective finish strictly |
| `Drain.DrainBound` | engine.go:442-496 | between enqueues, replays and recoveries the claims and effective finishes number at most the total weight at the start |
| `Drain.TotalWithout` | engine.go:442-496 | the total weight does not depend on the order of summation |
| `Cancels.AskedLeaves` | repository/memory/repository.go:401-431 | a job asked to cancel is never deleted and leaves that status if and only if a worker presents the token of its last claim |
| `Cancels.AskedForever` | repository/memory/repository.go:401-414 | without such a token it stays CANCEL_REQUESTED for ever: replay, skip, recovery and claim refuse it |
| `Cancels.UnclaimedHasNoToken` | repository/memory/repository.go:285-290 | a job that was never claimed has no token |
| `Cancels.CancelWedgesChain` | repository/memory/repository.go:401-414 | so a cancel request on a job that was never claimed wedges its strict chain for good: nothing behind it is ever claimed |
| `Cancels.CancelStopsChain` | repository/memory/repository.go:401-414 | two enqueues and one cancel request after which no claim ever finds work |
| `EngineWorker.Engine.TryClaim` | engine.go:337-344 | claiming is a protocol step that hands out exactly the stored job |
| `EngineWorker.Engine.FailUnknown` | engine.go:363-369 | failing an unknown job type is a protocol step that leaves the successor alone |
| `EngineWorker.Engine.Complete` | engine.go:442-463 | completing is a protocol step; a conflict is reported and nothing promoted |
| `EngineWorker.Engine.FailOrRetry` | engine.go:465-493 | the decision between giving up and retrying, the mode fallback and the backoff are the protocol's step; promotion is due exactly after giving up in a continuing mode |
| `EngineWorker.Engine.Beat` | engine.go:510-514 | one turn of the heartbeat loop is a protocol step; the loop goes on exactly while the fence accepts |
| `EngineWorker.Engine.RecoverOnce` | engine.go:533-545 | one turn of the recovery loop recovers min(100, stale) jobs, each put off by the policy's backoff for its attempt; the alarm follows the dead-letter count |
| `EngineWorker.Engine.TryClaimAndExecute` | engine.go:337-496 | a whole round, any handler outcome: a stretch of the protocol that claims an earliest job, ends with the token used up and no new debt, abandons a promotion only if the handler is missing, restores the lease counter, and leaves the job in the verdict's status, a retried one put off by the policy's backoff |
| `EngineWorker.TokenAndDebtWait` | engine.go:442-493 | whatever others do in between, a claimed token stays presentable and a promotion stays owed until its worker acts |
| `EngineWorker.FreshToken` | engine.go:337-344 | a claim hands out a token that nobody holds |
| `Retry.DelayDoubles` | retry/policy.go:34-45 | the delay starts at the base and doubles per attempt up to the cap |
| `Retry.DelayMonotone` | retry/policy.go:34-45 | later attempts never wait less, and none longer than the cap |
| `Retry.DelaySaturates` | retry/policy.go:34-45 | with a positive base the cap is reached |
| `Retry.JitterBounds` | retry/policy.go:47-63 | full jitter stays in [0, d), or 0 for d = 0, and equal jitter in [d/2 rounded down, d] |
| `Retry.FullSpreads` | retry/policy.go:51-54 | full jitter is the drawn share of the delay, cut to whole units |
| `Retry.EqualSpreads` | retry/policy.go:55-59 | equal jitter is half of the delay and the drawn share of the other half, cut to whole units |
| `Retry.JitterMirrors` | retry/policy.go:47-63 | negative delays mirror the positive ones |
| `Retry.DefaultBackoffs` | retry/policy.go:25-32 | the default policy: five attempts, a first wait of half a second to one second, never more than five minutes, from the tenth attempt on never less than half of that |
| `Retry.BackoffBounds` | retry/policy.go:34-63 | for every attempt number and draw the backoff stays within those bounds of the un-jittered delay and below the cap |
| `Lease.HeartbeatFits` | lease/lease.go:13-21 | three heartbeats fit into the lease, and one into the lease as the SQL repositories round it, the 60 s fallback included |
| `LiveWorkers.RunsOutExactly` | repository/memory/repository.go:442-442 | in every reachable state the lease of a job in processing has run out if and only if its last claim or heartbeat lies further back than the lease |
| `LiveWorkers.SilentWorkerRecovered` | repository/memory/repository.go:433-458 | and then a recovery whose limit covers all such jobs puts it back: recovery does come |
| `Lease.Rounded` | repository/postgres/repository.go:328-331 | a lease of a second or more loses its fraction of a second, one below becomes a minute |
| `Lease.RoundingCostsMargin` | repository/postgres/repository.go:328-331 | with a lease of 1.9 s two heartbeat intervals no longer fit into the rounded lease |
| `LiveWorkers.LiveWorkerKept` | engine.go:498-518 | in memory, a worker whose heartbeats are at most one interval apart keeps its job in processing under its generation, whatever else runs |
| `Postgres.Repository.Claim` | repository/postgres/repository.go:326-374 | claims the first ready row by available, then created time, and writes that row only - one attempt and one generation more, a lease in whole seconds - and fails exactly when no row is ready; no busy check |
| `Postgres.Repository.Complete` | repository/postgres/repository.go:376-405 | a conflict changes nothing; success completes the row, opens a row blocked at the next position, and leaves all others alone |
| `Postgres.Repository.Fail` | repository/postgres/repository.go:407-430 | a conflict changes nothing; success writes this row only: dead-lettered exactly for a terminal failure in that mode, else failed, error and time on record, held by no worker |
| `Postgres.Repository.Retry` | repository/postgres/repository.go:432-447 | a conflict changes nothing; success writes this row only, keeps its token and attempts, leaves it held by no worker, and makes it a candidate exactly from the given time on when it is its turn |
| `Postgres.Repository.Heartbeat` | repository/postgres/repository.go:449-466 | a conflict changes nothing; success keeps the token valid, writes this row only, and the row is stale exactly after the lease in whole seconds |
| `Postgres.Repository.RequestCancel` | repository/postgres/repository.go:468-475 | unlike memory, takes a row in processing too: no worker holds the row any more, and no claim, recovery, replay or skip finds it; other rows and other statuses stay |
| `Postgres.Repository.ConfirmCancel` | repository/postgres/repository.go:477-490 | accepts by worker and generation whatever the status, so even a completed row stops being finished; it then can be replayed or skipped, no worker holds it, and no other row changes |
| `Postgres.Repository.SelectStale` | repository/postgres/repository.go:495-501 | the stale rows with the oldest leases, as many as the limit allows |
| `Postgres.Repository.RecoverStale` | repository/postgres/repository.go:492-539 | of the rows in processing whose lease lies in the past, the min(limit, their number) oldest are put back under their old token, attempts and payload kept; each is ready exactly from one second, or the policy's answer for its attempts, on, in its turn; all other rows stay; a negative limit is refused; the count is their number |
| `Postgres.Repository.PromoteNext` | repository/postgres/repository.go:541-548 | changes nothing but that a row blocked at the next position opens, and takes no candidate away |
| `Postgres.Repository.ReplayJob` | repository/postgres/repository.go:596-644 | accepts stopped rows only and none twice; the row alone changes, keeps its token but no worker holds it, has its attempts back, and is a candidate at once when it is its turn |
| `Postgres.Repository.SkipJob` | repository/postgres/repository.go:646-673 | accepts stopped rows only; the row is completed under its token, and nothing else changes but that a row blocked at the next position opens |
| `Postgres.Repository.RescheduleJob` | repository/postgres/repository.go:675-701 | accepts waiting rows only; the row alone changes and is a candidate exactly from the new time on when it is its turn |
| `Postgres.Repository.BulkReplayDLQ` | repository/postgres/repository.go:1056-1070 | reopens exactly the dead letters that differ from no column the filter gives, attempts back and old token kept, and none of them is left; all other rows stay; the count is their number |
| `Postgres.Repository.BulkSkipDLQ` | repository/postgres/repository.go:1072-1118 | completes exactly the dead letters that differ from no column the filter gives, and opens exactly what is blocked directly behind them, in any order; always returns 0 |
| `Postgres.Repository.BulkPurgeDLQ` | repository/postgres/repository.go:1120-1129 | a row is gone if and only if it was a dead letter that differs from no column the filter gives; survivors stay; the count is the number of rows lost |
| `RowEffects.HitsMeans` | repository/postgres/repository.go:378-398 | a fenced statement finds exactly a row in processing under the presented worker and generation, never a row whose worker is NULL |
| `Postgres.RecoveredWaits` | repository/postgres/repository.go:516-531 | a recovered row is ready exactly from the end of its wait on, when it is its turn |
| `Rows.OpensOne` | repository/postgres/repository.go:541-548 | with unique positions a promotion opens one row at most |
| `PostgresOrder.StatementUpdates` | repository/postgres/repository.go:326-701 | every statement but INSERT and DELETE moves each row along one of the listed edges, whoever sends it |
| `PostgresOrder.StepKeepsSound` | repository/postgres/repository.go:326-701 | unique positions, claimed-before-touched and, but for a harmful ConfirmCancel, the order of strict chains are kept by every statement |
| `PostgresOrder.Reachable` | repository/postgres/repository.go:326-701 | they hold in every state of every run, without any token discipline |
| `PostgresOrder.MutualExclusion` | repository/postgres/repository.go:333-350 | eligibility alone keeps a strict chain from ever having two rows in processing |
| `PostgresOrder.StrictFifo` | repository/postgres/repository.go:333-350 | in a strict chain all positions before a row that was ever claimed exist and are COMPLETED |
| `PostgresOrder.ConfirmCancelKeepsOrder` | repository/postgres/repository.go:477-490 | ConfirmCancel keeps the order of strict chains if and only if it does not hit a completed row whose successor has been claimed |
| `PostgresWitnesses.ExclusionLost` | repository/postgres/repository.go:477-490 | a run of eight statements, one ConfirmCancel among them, that leads to two rows of a strict chain in processing |
| `PostgresModes.StepKeepsFollowing` | repository/postgres/repository.go:326-701 | in every mode: claimed rows past position 1 stand behind finished ones after a step if and only if the step does not reopen, cancel or delete a finished row in front of a claimed one |
| `PostgresModes.Fifo` | repository/postgres/repository.go:333-350 | in every mode, without such steps, all positions before a row that was ever claimed exist and are finished |
| `PostgresModes.MutualExclusionInAllModes` | repository/postgres/repository.go:333-350 | in every mode, without such steps, a chain never has two rows in processing |
| `PostgresModes.ReplayOverlaps` | repository/postgres/repository.go:596-614 | the condition is needed: replaying a failed first row while a row of the same chain runs lets the next claim start it beside the other |
| `PostgresWitnesses.OverlapInLenientChain` | repository/postgres/repository.go:596-614 | a run of eight statements of a skip-on-failure chain in which one such replay leads to two rows of the chain in processing |
| `PostgresOrder.CompletedForever` | repository/postgres/repository.go:376-490 | COMPLETED is absorbing but for a ConfirmCancel that hits the row |
| `PostgresOrder.CompletesOnce` | repository/postgres/repository.go:376-405 | at most one Complete per row takes effect between such cancels |
| `PostgresOrder.SpentForever` | repository/postgres/repository.go:376-466 | once a row has left processing in a generation, no completion, failure, retry or heartbeat of that generation ever touches it again |
| `PostgresOrder.RecoverySpends` | repository/postgres/repository.go:492-539 | recovery leaves the generation number alone and spends it nevertheless |
| `PostgresCancels.CancelSpends` | repository/postgres/repository.go:468-475 | a cancel request takes the row from its worker for good |
| `PostgresCancels.AskedLeaves` | repository/postgres/repository.go:468-490 | a row asked to cancel leaves that status if and only if a ConfirmCancel hits it |
| `PostgresCancels.AskedForever` | repository/postgres/repository.go:468-490 | without such a ConfirmCancel it stays CANCEL_REQUESTED for ever |
| `PostgresCancels.UnclaimedAskedForever` | repository/postgres/repository.go:468-490 | a row asked before any claim has no token and stays CANCEL_REQUESTED whatever is sent |
| `PostgresCancels.CancelWedgesChain` | engine.go:461-463 | so the request that the engine makes for a cancelled or timed-out handler, and never confirms, wedges a strict chain: until a ConfirmCancel hits that row, nothing behind it is ever claimed |
| `PostgresCancels.CancelWayOut` | repository/postgres/repository.go:477-490 | a ConfirmCancel with the worker's token and then a skip complete the row and open the next position |
| `PostgresWitnesses.EngineWedgesChain` | engine.go:461-472 | a run of the engine's own calls: claim, cancel request, a Fail without effect, and no claim ever finds work |
| `PostgresLeases.LiveStep` | repository/postgres/repository.go:326-539 | while its lease lasts, a row in processing leaves it if and only if its worker finishes it or it is cancelled |
| `PostgresLeases.LiveRowKept` | repository/postgres/repository.go:449-466 | with beats at most one heartbeat interval apart and leases rounded to seconds, a row stays in processing under its token and no recovery picks it, until its worker or a cancel ends the work |
| `SqlServer.Repository.Finish` | repository/sqlserver/repository.go:319-465 | a conflict changes nothing; a heartbeat keeps the token valid and moves the time from which the row is stale; any other accepted call uses the token up for every later call; only Complete touches a second row, by opening the next position |
| `SqlServer.Repository.RequestCancel` | repository/sqlserver/repository.go:429-446 | takes a row in processing from its worker, who can only confirm the cancel; ErrNotFound without effect for other statuses |
| `SqlServer.Repository.ReplayJob` | repository/sqlserver/repository.go:524-570 | accepts stopped rows only; the row alone changes, keeps its token but no call is accepted for it |
| `SqlServer.Repository.SkipJob` | repository/sqlserver/repository.go:572-605 | accepts stopped and blocked rows; the row is completed and nothing else changes but that the next position opens |
| `SqlServer.Repository.RecoverStale` | repository/sqlserver/repository.go:467-522 | of the rows in processing whose lease lies in the past, min(limit, their number), 100 for a limit that is not positive, lose their worker and get a new generation: retried after the policy's answer if there is one and attempts are left, else pending at once; all other rows stay; the count is their number |
| `SqlServer.AcceptsMeans` | repository/sqlserver/repository.go:323-452 | a fenced call finds exactly a row of the presented worker and generation, in processing, or asked to cancel if it confirms a cancel |
| `SqlServer.Repository.RescheduleJob` | repository/sqlserver/repository.go:607-632 | accepts waiting rows only; the row alone changes, and only its available time |
| `SqlServer.Repository.PromoteNext` | repository/sqlserver/repository.go:634-641 | changes nothing but that a row blocked at the next position opens |
| `SqlServer.Repository.BulkReplayDLQ` | repository/sqlserver/repository.go:1044-1058 | reopens exactly the dead letters that differ from no column the filter gives; all other rows stay; the count is their number |
| `SqlServer.Repository.BulkSkipDLQ` | repository/sqlserver/repository.go:1060-1115 | completes exactly those rows and opens exactly what is blocked directly behind them; unlike PostgreSQL it returns their number |
| `SqlServer.Repository.BulkPurgeDLQ` | repository/sqlserver/repository.go:1117-1126 | deletes exactly those rows; the count is the number of rows lost |
| `SqlServerRuns.TokensMove` | repository/sqlserver/repository.go:272-1126 | claim and recovery raise the generation by one, and no other statement touches worker and generation of a row it keeps |
| `SqlServerRuns.OutdatedForever` | repository/sqlserver/repository.go:272-1126 | a generation that is outdated stays so in every run |
| `SqlServerRuns.RecoveredTokenRefused` | repository/sqlserver/repository.go:509-513 | after a recovery every call with the old token is refused for ever, by the generation alone |
| `SqlServerRuns.LiveStep` | repository/sqlserver/repository.go:272-522 | while its lease lasts, a row in processing leaves it if and only if its worker finishes it or it is asked to cancel |
| `SqlServerRuns.LiveRowKept` | repository/sqlserver/repository.go:404-427 | as PostgresLeases.LiveRowKept, on SQL Server |

## Left out

- Integer widths: attempts, generations and sequences are unbounded; int64 wrap-around and float64 rounding in the backoff are not modelled (reals, floor).
- Protocol: token discipline is assumed for the in-memory theorems. A caller that finishes an unclaimed job with an empty worker and generation 0, as ui/ui_test.go:151 does, is outside them; the PostgreSQL theorems assume no discipline.
- Liveness.NoSilentWedge: excludes purges, which can leave a gap (`Liveness.PurgeGaps`), and the handler-not-found path, which loses a promotion (`Liveness.LostPromotion`); `Liveness.FrontWaitsExactly` covers all runs.
- EngineWorker.Engine.TryClaimAndExecute: other workers do not interfere within the round; each call is proved a step from any state, and `EngineWorker.TokenAndDebtWait` carries the token and the debt across anything in between.
- Goroutines, tickers, Start and Shutdown, context deadlines, notifications: interleaved steps instead. A heartbeat interval of 0 ns, at which Go's ticker panics, is not modelled.
- Handler bodies, payload marshalling and validation: an arbitrary outcome and an already marshalled string; a panic is one of the error outcomes.
- The text search of a filter: an arbitrary predicate on the job or row.
- Get, GetByChainSeq, ListJobs, ListChains, ListPendingChains, GetStats: read-only; they add only easy members.
- Engine.Enqueue's default for the ordering mode: requests carry any mode, so the default is one of the cases.
- PostgreSQL and SQL Server enqueue paths: an insert of any new row at a free position with status PENDING or BLOCKED.
- Row locking (SKIP LOCKED, READPAST, advisory locks, NOLOCK): transactions are atomic.
- SQL Server claim order: its claim reads the predecessor under NOLOCK and its SkipJob also completes BLOCKED rows (repository/sqlserver/repository.go:285, :580), so the claim may pick any waiting row and no order theorem is stated for it; the claim is part of the runs but not written out as a method.
- Several engines with different retry limits, default modes or leases on one repository: one configuration serves every worker of a run.
- SqlServer.Repository.RecoverStale: a statement that fails on one row is skipped in the source; here none fails.
- The ui and webhook code, metrics, tracing and logging: no state that the queue depends on.
