/** Jobs, requests, filters and errors (job.go, errors.go, repository.go). */
module Jobs {
  import opened Wrappers
  import opened Lifecycle

  type JobId = nat
  type Time = int
  type Duration = int

  const SECOND: Duration := 1_000_000_000

  datatype Error =
    | ErrChainRequired
    | ErrNotFound
    | ErrLeaseConflict
    | ErrSequenceGap
    | ErrDuplicateChainSeq
    | ErrJobNotEligible

  datatype Job = Job(
    id: JobId,
    chain: string,
    sequence: int,
    jobType: string,
    payload: string,
    idempotencyKey: string,
    tenant: string,
    trace: string,
    mode: OrderingMode,
    status: Status,
    attempt: int,
    maxAttempts: int,
    availableAt: Time,
    deadlineAt: Option<Time>,
    worker: string,
    leaseUntil: Option<Time>,
    generation: int,
    lastError: string,
    createdAt: Time,
    updatedAt: Time,
    startedAt: Option<Time>,
    completedAt: Option<Time>,
    failedAt: Option<Time>)

  datatype EnqueueRequest = EnqueueRequest(
    chain: string,
    sequence: int,
    jobType: string,
    payload: string,  // already marshalled; empty when marshalling failed
    idempotencyKey: string,
    tenant: string,
    trace: string,
    mode: OrderingMode,
    maxAttempts: int,
    deadlineAt: Option<Time>,
    availableAt: Option<Time>)

  /** Empty strings match everything. The case-insensitive text search over id,
      key, trace and last error is an arbitrary predicate. */
  datatype JobFilter = JobFilter(
    chain: string,
    jobType: string,
    tenant: string,
    trace: string,
    search: Option<Job -> bool>)

  predicate MatchesDLQ(f: JobFilter, j: Job) {
    && InDeadLetterQueue(j.status)
    && (f.chain == "" || j.chain == f.chain)
    && (f.jobType == "" || j.jobType == f.jobType)
    && (f.tenant == "" || j.tenant == f.tenant)
    && (f.trace == "" || j.trace == f.trace)
    && (f.search.Some? ==> f.search.value(j))
  }

  /** `p` stands directly before `j` in the same chain. */
  predicate Before(p: Job, j: Job) {
    p.chain == j.chain && p.sequence + 1 == j.sequence
  }

  predicate IsFinished(j: Job) {
    Finished(j.status, j.mode)
  }

  /** The fields that no operation changes after a job has been created. */
  predicate SameIdentity(a: Job, b: Job) {
    && a.id == b.id && a.chain == b.chain && a.sequence == b.sequence
    && a.jobType == b.jobType && a.idempotencyKey == b.idempotencyKey
    && a.tenant == b.tenant && a.trace == b.trace && a.mode == b.mode
    && a.maxAttempts == b.maxAttempts && a.deadlineAt == b.deadlineAt
    && a.createdAt == b.createdAt
  }
}
