/** What the repository's calls mean for a caller, in the fields of a job and in what the
    next claim, recovery or bulk edit will find: reference definitions beside those of
    `Queue`, and what every definition of `Queue` amounts to. */
module Effects {
  import opened Wrappers
  import opened Lifecycle
  import opened Jobs
  import opened Queue

  // ---------------------------------------------------------------- who is claimed next

  /** `p` stands directly before `k` and no longer holds it back. */
  ghost predicate LetsGo(jobs: Table, p: JobId, k: JobId)
    requires k in jobs
  {
    && p in jobs && jobs[p].chain == jobs[k].chain && jobs[p].sequence + 1 == jobs[k].sequence
    && (|| jobs[p].status == Completed
        || ((jobs[p].status == Failed || jobs[p].status == DeadLettered)
            && (jobs[p].mode == SkipOnFailure || jobs[p].mode == DeadLetterAndContinue)))
  }

  /** It is the turn of `k`: it is first, or its predecessor lets it go. */
  ghost predicate HasTurn(jobs: Table, k: JobId)
    requires k in jobs
  {
    jobs[k].sequence == 1 || exists p {:trigger LetsGo(jobs, p, k)} :: LetsGo(jobs, p, k)
  }

  /** No job of the chain but possibly `k` is in processing. */
  ghost predicate OthersIdle(jobs: Table, k: JobId)
    requires k in jobs
  {
    forall l :: l in jobs && l != k && jobs[l].chain == jobs[k].chain ==> jobs[l].status != Processing
  }

  /** What a claim at `now` may return. */
  ghost predicate Ready(jobs: Table, k: JobId, now: Time) {
    && k in jobs && (jobs[k].status == Pending || jobs[k].status == Retrying)
    && now >= jobs[k].availableAt && HasTurn(jobs, k) && OthersIdle(jobs, k)
  }

  lemma TurnMeans(jobs: Table, k: JobId)
    requires k in jobs
    ensures HasTurn(jobs, k) <==> jobs[k].sequence == 1 || HasFinishedAt(jobs, jobs[k].chain, jobs[k].sequence - 1)
  {
    if HasFinishedAt(jobs, jobs[k].chain, jobs[k].sequence - 1) {
      var p :| FinishedAt(jobs, p, jobs[k].chain, jobs[k].sequence - 1);
      assert LetsGo(jobs, p, k);
    }
    forall p | LetsGo(jobs, p, k) ensures FinishedAt(jobs, p, jobs[k].chain, jobs[k].sequence - 1) {}
  }

  lemma ClaimableIsReady(jobs: Table, k: JobId, now: Time)
    ensures Claimable(jobs, k, now) <==> Ready(jobs, k, now)
  {
    if k in jobs {
      TurnMeans(jobs, k);
      forall l | l in jobs ensures RunsIn(jobs, l, jobs[k].chain) <==> jobs[l].chain == jobs[k].chain && jobs[l].status == Processing {}
    }
  }

  /** `a` comes before `b`, or neither: earlier available time, then earlier created time. */
  predicate NotAfter(a: Job, b: Job) {
    a.availableAt <= b.availableAt && (a.availableAt == b.availableAt ==> a.createdAt <= b.createdAt)
  }

  lemma NoLaterMeans(a: Job, b: Job)
    ensures NoLater(a, b) <==> NotAfter(a, b)
  {
  }

  /** An earliest claimable job is ready, and no ready job comes strictly before it. */
  lemma EarliestMeans(jobs: Table, i: JobId, now: Time)
    requires Earliest(jobs, i, now)
    ensures Ready(jobs, i, now)
    ensures forall k {:trigger Ready(jobs, k, now)} :: Ready(jobs, k, now) ==> NotAfter(jobs[i], jobs[k])
  {
    ClaimableIsReady(jobs, i, now);
    forall k | Ready(jobs, k, now) ensures NotAfter(jobs[i], jobs[k]) {
      ClaimableIsReady(jobs, k, now);
      NoLaterMeans(jobs[i], jobs[k]);
    }
  }

  lemma NoneReady(jobs: Table, now: Time)
    ensures (forall k :: !Claimable(jobs, k, now)) <==> (forall k {:trigger Ready(jobs, k, now)} :: !Ready(jobs, k, now))
  {
    forall k ensures Claimable(jobs, k, now) <==> Ready(jobs, k, now) { ClaimableIsReady(jobs, k, now); }
  }

  // ---------------------------------------------------------------- who is recovered next

  /** The lease of a job in processing has run out. */
  predicate RanOut(j: Job, now: Time) {
    j.status == Processing && j.leaseUntil != None && now > j.leaseUntil.value
  }

  /** The jobs whose lease has run out. */
  ghost function AllRanOut(jobs: Table, now: Time): set<JobId> {
    set i | i in jobs && RanOut(jobs[i], now)
  }

  lemma StaleMeans(jobs: Table, now: Time)
    ensures Stale(jobs, now) == AllRanOut(jobs, now)
  {
  }

  // ---------------------------------------------------------------- whom a bulk edit finds

  /** A dead letter that differs from no field the filter gives. */
  predicate Selected(f: JobFilter, j: Job) {
    && (j.status == Failed || j.status == DeadLettered)
    && (f.chain != "" ==> f.chain == j.chain)
    && (f.jobType != "" ==> f.jobType == j.jobType)
    && (f.tenant != "" ==> f.tenant == j.tenant)
    && (f.trace != "" ==> f.trace == j.trace)
    && (f.search == None || f.search.value(j))
  }

  lemma MatchingMeans(jobs: Table, f: JobFilter)
    ensures Matching(jobs, f) == set i | i in jobs && Selected(f, jobs[i])
  {
  }

  // ---------------------------------------------------------------- fields

  /** Everything about a job but what its processing writes. */
  predicate SameOrder(j: Job, k: Job) {
    SameIdentity(j, k) && k.payload == j.payload
  }

  predicate SameToken(j: Job, k: Job) {
    k.worker == j.worker && k.generation == j.generation
  }

  /** The job as it was, but for its status and the time of the change. */
  predicate OnlyStatus(j: Job, k: Job) {
    && SameOrder(j, k) && SameToken(j, k) && k.attempt == j.attempt && k.availableAt == j.availableAt
    && k.leaseUntil == j.leaseUntil && k.lastError == j.lastError
    && k.startedAt == j.startedAt && k.completedAt == j.completedAt && k.failedAt == j.failedAt
  }

  /** The new job of a request, whatever position and status it gets. */
  predicate FromRequest(req: EnqueueRequest, j: Job, now: Time) {
    && j.chain == req.chain && j.jobType == req.jobType && j.tenant == req.tenant && j.trace == req.trace
    && j.idempotencyKey == req.idempotencyKey && j.deadlineAt == req.deadlineAt
    && (j.payload == if req.payload != "" && req.payload != "null" then req.payload else "{}")
    && (j.mode == if req.mode == Unset then Strict else req.mode)
    && (j.maxAttempts == if req.maxAttempts != 0 then req.maxAttempts else 5)
    && (j.availableAt == match req.availableAt case Some(at) => at case None => now)
    && (j.status == Pending || j.status == Blocked)
    && j.attempt == 0 && j.generation == 0 && j.worker == "" && j.leaseUntil == None && j.lastError == ""
    && j.createdAt == now && j.updatedAt == now && j.startedAt == None && j.completedAt == None && j.failedAt == None
  }

  /** A job that an enqueue adds is the request's job: it is ready exactly from the requested
      time on, or from now on, when it is its turn and its chain is idle. */
  lemma EnqueueMeans(jobs: Table, req: EnqueueRequest, id: JobId, now: Time)
    requires WellFormed(jobs) && id !in jobs && EnqueueResult(jobs, req, id, now).Success?
    requires EnqueueResult(jobs, req, id, now).value.id !in jobs
    ensures var j, after := EnqueueResult(jobs, req, id, now).value, Enqueued(jobs, req, id, now);
            && j.id == id && FromRequest(req, j, now) && after == jobs[id := j]
            && forall at {:trigger Ready(after, id, at)} ::
                 Ready(after, id, at) <==> j.status == Pending && at >= j.availableAt && HasTurn(after, id) && OthersIdle(after, id)
  {
  }

  /** The fence lets a call through exactly with the worker and generation of the last claim. */
  lemma FenceMeans(jobs: Table, id: JobId, w: string, g: int)
    ensures Fence(jobs, id, w, g) == None <==> id in jobs && jobs[id].worker == w && jobs[id].generation == g
    ensures Fence(jobs, id, w, g) == Some(ErrNotFound) <==> id !in jobs
    ensures Fence(jobs, id, w, g) == None || Fence(jobs, id, w, g) == Some(ErrNotFound) || Fence(jobs, id, w, g) == Some(ErrLeaseConflict)
  {
  }

  lemma ClaimedMeans(j: Job, w: string, lease: Duration, now: Time)
    ensures var k := Claimed(j, w, lease, now);
            && SameOrder(j, k) && k.status == Processing && k.worker == w
            && k.generation - j.generation == 1 && k.attempt - j.attempt == 1
            && k.updatedAt == now && (k.startedAt == if j.startedAt == None then Some(now) else j.startedAt)
            && k.availableAt == j.availableAt && k.lastError == j.lastError
            && k.completedAt == j.completedAt && k.failedAt == j.failedAt
            && forall at :: RanOut(k, at) <==> at > now + lease
  {
  }

  /** A heartbeat moves the end of the lease and nothing else. */
  lemma BeatenMeans(j: Job, lease: Duration, now: Time)
    ensures var k := Beaten(j, lease, now);
            && OnlyStatus(j.(leaseUntil := k.leaseUntil), k) && k.status == j.status && k.updatedAt == now
            && forall at :: RanOut(k, at) <==> j.status == Processing && at > now + lease
  {
  }

  /** What a promotion behind position `q` of chain `c` does to job `i`. */
  predicate PromotedAt(jobs: Table, after: Table, c: string, q: int, now: Time, i: JobId)
    requires i in jobs && i in after
  {
    if jobs[i].chain == c && jobs[i].sequence - 1 == q && jobs[i].status == Blocked
    then after[i].status == Pending && after[i].updatedAt == now && OnlyStatus(jobs[i], after[i])
    else after[i] == jobs[i]
  }

  lemma PromotedMeans(jobs: Table, c: string, q: int, now: Time)
    ensures var after := Promoted(jobs, c, q, now);
            && after.Keys == jobs.Keys
            && forall i {:trigger PromotedAt(jobs, after, c, q, now, i)} :: i in jobs ==> PromotedAt(jobs, after, c, q, now, i)
  {
  }

  /** A completed job: done, at its time, without a lease. */
  lemma CompletedMeans(j: Job, now: Time)
    ensures var k := CompletedJob(j, now);
            && k.status == Completed && k.completedAt == Some(now) && k.updatedAt == now && k.leaseUntil == None
            && OnlyStatus(j, k.(leaseUntil := j.leaseUntil, completedAt := j.completedAt))
  {
  }

  /** Completing a job and promoting what is behind it: that job, at most one more, and nothing else. */
  lemma CompletedAndPromotedMeans(jobs: Table, id: JobId, now: Time)
    requires id in jobs
    ensures var after := CompletedAndPromoted(jobs, id, now);
            && after.Keys == jobs.Keys && after[id] == CompletedJob(jobs[id], now)
            && forall i {:trigger PromotedAt(jobs, after, jobs[id].chain, jobs[id].sequence, now, i)} ::
                 i in jobs && i != id ==> PromotedAt(jobs, after, jobs[id].chain, jobs[id].sequence, now, i)
  {
    PromotedMeans(jobs[id := CompletedJob(jobs[id], now)], jobs[id].chain, jobs[id].sequence, now);
  }

  /** A failed job: the error and its time on record, dead-lettered if its own mode asks for it. */
  lemma FailedMeans(j: Job, msg: string, terminal: bool, now: Time)
    ensures var k := FailedJob(j, msg, terminal, now);
            && (k.status == DeadLettered <==> terminal && j.mode == DeadLetterAndContinue)
            && (k.status == Failed <==> !terminal || j.mode != DeadLetterAndContinue)
            && k.lastError == msg && k.failedAt == Some(now) && k.updatedAt == now && k.leaseUntil == None
            && OnlyStatus(j, k.(leaseUntil := j.leaseUntil, lastError := j.lastError, failedAt := j.failedAt))
  {
  }

  /** A job put back: ready exactly from the given time on, in its turn. */
  lemma RetriedMeans(jobs: Table, id: JobId, msg: string, next: Time, now: Time)
    requires id in jobs
    ensures var k, after := RetriedJob(jobs[id], msg, next, now), jobs[id := RetriedJob(jobs[id], msg, next, now)];
            && k.status == Retrying && k.lastError == msg && k.updatedAt == now && k.leaseUntil == None
            && OnlyStatus(jobs[id], k.(leaseUntil := jobs[id].leaseUntil, lastError := jobs[id].lastError, availableAt := jobs[id].availableAt))
            && forall at {:trigger Ready(after, id, at)} :: Ready(after, id, at) <==> at >= next && HasTurn(after, id) && OthersIdle(after, id)
  {
  }

  lemma CancelledMeans(j: Job, now: Time)
    ensures var k := CancelledJob(j, now);
            && k.status == Cancelled && k.updatedAt == now && k.leaseUntil == None && OnlyStatus(j, k.(leaseUntil := j.leaseUntil))
  {
  }

  /** A cancel request changes a job that waits or is blocked, and no other. */
  lemma CancelRequestedMeans(j: Job, now: Time)
    ensures var k := CancelRequestedJob(j, now);
            if j.status == Pending || j.status == Retrying || j.status == Blocked
            then k.status == CancelRequested && k.updatedAt == now && OnlyStatus(j, k)
            else k == j
  {
  }

  /** A replay reopens a stopped job, and no other: ready at once, in its turn, with all
      attempts back, no error on record, and a new payload if one is given. */
  lemma ReplayedMeans(jobs: Table, id: JobId, payload: string, now: Time)
    requires id in jobs
    ensures var j, after := jobs[id], Replayed(jobs, id, payload, now);
            if j.status == Failed || j.status == Cancelled || j.status == DeadLettered
            then
              var k := after[id];
              && after == jobs[id := k]
              && k.status == Pending && k.attempt == 0 && k.lastError == "" && k.updatedAt == now && k.leaseUntil == None
              && (k.payload == if payload == "" then j.payload else payload)
              && OnlyStatus(j, k.(attempt := j.attempt, lastError := j.lastError, availableAt := j.availableAt,
                                  leaseUntil := j.leaseUntil, payload := j.payload))
              && forall at {:trigger Ready(after, id, at)} :: Ready(after, id, at) <==> at >= now && HasTurn(after, id) && OthersIdle(after, id)
            else after == jobs
  {
  }

  /** A skip completes a stopped job and promotes what is behind it, and leaves every other job alone. */
  lemma SkippedMeans(jobs: Table, id: JobId, now: Time)
    requires id in jobs
    ensures var j := jobs[id];
            Skipped(jobs, id, now) ==
              if j.status == Failed || j.status == Cancelled || j.status == DeadLettered then CompletedAndPromoted(jobs, id, now) else jobs
  {
  }

  /** A rescheduled job is ready exactly from the new time on, in its turn. */
  lemma RescheduledMeans(jobs: Table, id: JobId, to: Time, now: Time)
    requires id in jobs && (jobs[id].status == Pending || jobs[id].status == Retrying)
    ensures var k, after := RescheduledJob(jobs[id], to, now), jobs[id := RescheduledJob(jobs[id], to, now)];
            && CanBeClaimed(jobs[id].status) && k.status == jobs[id].status && k.updatedAt == now
            && OnlyStatus(jobs[id], k.(availableAt := jobs[id].availableAt))
            && forall at {:trigger Ready(after, id, at)} :: Ready(after, id, at) <==> at >= to && HasTurn(after, id) && OthersIdle(after, id)
  {
  }

  lemma ReschedulableMeans(s: Status)
    ensures CanBeClaimed(s) <==> s == Pending || s == Retrying
  {
  }

  /** How long a recovered job waits: one second without a policy, else the policy's answer
      for the attempts it has had. */
  function Wait(b: Backoffs, j: Job): Duration {
    match b.policy
    case None => 1_000_000_000
    case Some(p) => p(j.attempt, b.draw(j.id))
  }

  /** A recovered job: put back under its old token, after the policy's wait. */
  predicate PutBack(j: Job, k: Job, b: Backoffs, now: Time) {
    && k.status == Retrying && k.availableAt == now + Wait(b, j) && k.lastError == "stale lease recovered"
    && k.updatedAt == now && k.leaseUntil == None
    && OnlyStatus(j, k.(leaseUntil := j.leaseUntil, lastError := j.lastError, availableAt := j.availableAt))
  }

  lemma RecoveredMeans(j: Job, b: Backoffs, now: Time)
    ensures PutBack(j, RecoveredJob(j, b, now), b, now)
  {
  }

  /** Job `i` after a recovery of the chosen jobs. */
  predicate RecoveredAt(jobs: Table, after: Table, chosen: set<JobId>, b: Backoffs, now: Time, i: JobId)
    requires i in jobs && i in after
  {
    if i in chosen then PutBack(jobs[i], after[i], b, now) else after[i] == jobs[i]
  }

  lemma RecoveryMeans(jobs: Table, chosen: set<JobId>, b: Backoffs, now: Time)
    ensures var after := Recovered(jobs, chosen, b, now);
            && after.Keys == jobs.Keys
            && forall i {:trigger RecoveredAt(jobs, after, chosen, b, now, i)} :: i in jobs ==> RecoveredAt(jobs, after, chosen, b, now, i)
  {
    forall i | i in jobs ensures RecoveredAt(jobs, Recovered(jobs, chosen, b, now), chosen, b, now, i) {
      RecoveredMeans(jobs[i], b, now);
    }
  }

  /** Job `i` after a bulk replay: reopened if it was selected, else as it was. */
  predicate ReplayedAt(jobs: Table, after: Table, f: JobFilter, now: Time, i: JobId)
    requires i in jobs && i in after
  {
    var j, k := jobs[i], after[i];
    if Selected(f, j)
    then
      && k.status == Pending && k.attempt == 0 && k.lastError == "" && k.availableAt == now && k.updatedAt == now && k.leaseUntil == None
      && OnlyStatus(j, k.(attempt := j.attempt, lastError := j.lastError, availableAt := j.availableAt, leaseUntil := j.leaseUntil))
    else k == j
  }

  lemma BulkReplayMeans(jobs: Table, f: JobFilter, now: Time)
    ensures var after := BulkReplayed(jobs, f, now);
            && after.Keys == jobs.Keys
            && forall i {:trigger ReplayedAt(jobs, after, f, now, i)} :: i in jobs ==> ReplayedAt(jobs, after, f, now, i)
  {
    MatchingMeans(jobs, f);
  }

  /** A selected job stands directly before `i`. */
  ghost predicate SelectedBefore(jobs: Table, f: JobFilter, p: JobId, i: JobId)
    requires i in jobs
  {
    p in jobs && Selected(f, jobs[p]) && jobs[p].chain == jobs[i].chain && jobs[p].sequence + 1 == jobs[i].sequence
  }

  /** Job `i` after a bulk skip: completed if it was selected, opened if it was blocked
      directly behind a selected job, else as it was. */
  ghost predicate SkippedAt(jobs: Table, after: Table, f: JobFilter, now: Time, i: JobId)
    requires i in jobs && i in after
  {
    var j, k := jobs[i], after[i];
    if Selected(f, j)
    then
      && k.status == Completed && k.completedAt == Some(now) && k.updatedAt == now && k.leaseUntil == None
      && OnlyStatus(j, k.(leaseUntil := j.leaseUntil, completedAt := j.completedAt))
    else if j.status == Blocked && exists p {:trigger SelectedBefore(jobs, f, p, i)} :: SelectedBefore(jobs, f, p, i)
    then k.status == Pending && k.updatedAt == now && OnlyStatus(j, k)
    else k == j
  }

  lemma BulkSkipMeans(jobs: Table, f: JobFilter, now: Time)
    ensures var after := BulkSkipped(jobs, f, now);
            && after.Keys == jobs.Keys
            && forall i {:trigger SkippedAt(jobs, after, f, now, i)} :: i in jobs ==> SkippedAt(jobs, after, f, now, i)
  {
    MatchingMeans(jobs, f);
    forall i | i in jobs
      ensures BehindOneOf(jobs, Matching(jobs, f), jobs[i]) <==> exists p {:trigger SelectedBefore(jobs, f, p, i)} :: SelectedBefore(jobs, f, p, i)
    {
      forall p | SelectedBefore(jobs, f, p, i) ensures BehindOneOf(jobs, Matching(jobs, f), jobs[i]) {
        assert p in Matching(jobs, f) && Before(jobs[p], jobs[i]);
      }
      if BehindOneOf(jobs, Matching(jobs, f), jobs[i]) {
        var p :| p in Matching(jobs, f) && p in jobs && Before(jobs[p], jobs[i]);
        assert SelectedBefore(jobs, f, p, i);
      }
    }
  }

  lemma BulkPurgeMeans(jobs: Table, f: JobFilter)
    ensures forall i :: i in jobs ==> (i !in BulkPurged(jobs, f) <==> Selected(f, jobs[i]))
    ensures forall i :: i in BulkPurged(jobs, f) ==> i in jobs && BulkPurged(jobs, f)[i] == jobs[i]
  {
    MatchingMeans(jobs, f);
  }

  lemma DeadLettersMean(jobs: Table)
    ensures DeadLetters(jobs) == set i | i in jobs && (jobs[i].status == Failed || jobs[i].status == DeadLettered)
  {
  }
}
