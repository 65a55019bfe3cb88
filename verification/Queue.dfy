/** What each repository operation means for the set of jobs, stated without
    the chain index, without loops and without iteration order. Both the
    in-memory repository and the engine protocol are held to these definitions. */
module Queue {
  import opened Wrappers
  import opened Lifecycle
  import opened Jobs

  type Table = map<JobId, Job>

  // ---------------------------------------------------------------- well-formedness

  ghost predicate KeysMatch(jobs: Table) {
    forall i :: i in jobs ==> jobs[i].id == i
  }

  /** No other job stands at the position of `i`. */
  ghost predicate AloneAt(jobs: Table, i: JobId)
    requires i in jobs
  {
    forall k :: k in jobs && jobs[k].chain == jobs[i].chain && jobs[k].sequence == jobs[i].sequence ==> k == i
  }

  /** No other job has the idempotency key of `i`, unless the key is empty. */
  ghost predicate AloneWithKey(jobs: Table, i: JobId)
    requires i in jobs
  {
    forall k :: k in jobs && jobs[k].idempotencyKey == jobs[i].idempotencyKey != "" ==> k == i
  }

  ghost predicate UniquePositions(jobs: Table) {
    forall i {:trigger AloneAt(jobs, i)} :: i in jobs ==> AloneAt(jobs, i)
  }

  ghost predicate UniqueKeys(jobs: Table) {
    forall i {:trigger AloneWithKey(jobs, i)} :: i in jobs ==> AloneWithKey(jobs, i)
  }

  ghost predicate WellFormed(jobs: Table) {
    KeysMatch(jobs) && UniquePositions(jobs) && UniqueKeys(jobs)
  }

  /** Same jobs, and each keeps the fields fixed at creation. */
  ghost predicate KeepsIdentity(before: Table, after: Table) {
    && after.Keys == before.Keys
    && forall i :: i in before ==> SameIdentity(before[i], after[i])
  }

  lemma IdentityKeepsWellFormed(before: Table, after: Table)
    requires WellFormed(before) && KeepsIdentity(before, after)
    ensures WellFormed(after)
  {
    forall i | i in after ensures AloneAt(after, i) && AloneWithKey(after, i) {
      assert AloneAt(before, i) && AloneWithKey(before, i);
    }
  }

  /** An edit that a bulk operation makes to each job it picks. */
  datatype Edit = Recovery(b: Backoffs, at: Time) | Replay(at: Time) {
    function Of(j: Job): Job {
      match this
      case Recovery(_, _) => RecoveredJob(j, b, at)
      case Replay(_) => ReplayedJob(j, at)
    }
  }

  /** The table in which the jobs of `hit` have been edited. */
  function Mapped(jobs: Table, hit: set<JobId>, e: Edit): Table {
    map i | i in jobs :: if i in hit then e.Of(jobs[i]) else jobs[i]
  }

  /** Job `i` in the middle of a sweep: edited if it is due and has been visited. */
  ghost predicate SweptAt(start: Table, jobs: Table, due: set<JobId>, todo: set<JobId>, e: Edit, i: JobId)
    requires i in start && i in jobs
  {
    jobs[i] == if i in due && i !in todo then e.Of(start[i]) else start[i]
  }

  /** A loop that edits the due jobs, in any order, with `todo` still to visit. */
  ghost predicate Swept(start: Table, jobs: Table, due: set<JobId>, todo: set<JobId>, e: Edit) {
    && jobs.Keys == start.Keys
    && forall i {:trigger SweptAt(start, jobs, due, todo, e, i)} :: i in start ==> SweptAt(start, jobs, due, todo, e, i)
  }

  lemma SweepStarts(start: Table, due: set<JobId>, e: Edit)
    ensures Swept(start, start, due, start.Keys, e)
  {
  }

  lemma SweepVisits(start: Table, jobs: Table, due: set<JobId>, todo: set<JobId>, e: Edit, id: JobId)
    requires Swept(start, jobs, due, todo, e) && id in todo && id in start
    ensures jobs[id] == start[id]
    ensures Swept(start, if id in due then jobs[id := e.Of(start[id])] else jobs, due, todo - {id}, e)
  {
    var after := if id in due then jobs[id := e.Of(start[id])] else jobs;
    assert SweptAt(start, jobs, due, todo, e, id);
    forall i | i in start ensures SweptAt(start, after, due, todo - {id}, e, i) {
      assert SweptAt(start, jobs, due, todo, e, i);
    }
  }

  lemma SweepEnds(start: Table, jobs: Table, due: set<JobId>, todo: set<JobId>, e: Edit)
    requires Swept(start, jobs, due, todo, e)
    ensures jobs == Mapped(start, due - todo, e)
  {
    forall i | i in start ensures jobs[i] == Mapped(start, due - todo, e)[i] {
      assert SweptAt(start, jobs, due, todo, e, i);
    }
  }

  // ---------------------------------------------------------------- lookups

  ghost predicate InChain(jobs: Table, i: JobId, c: string) {
    i in jobs && jobs[i].chain == c
  }

  ghost predicate HasChain(jobs: Table, c: string) {
    exists i {:trigger InChain(jobs, i, c)} :: InChain(jobs, i, c)
  }

  ghost predicate CarriesKey(jobs: Table, i: JobId, key: string) {
    i in jobs && jobs[i].idempotencyKey == key
  }

  ghost predicate HasKey(jobs: Table, key: string) {
    exists i {:trigger CarriesKey(jobs, i, key)} :: CarriesKey(jobs, i, key)
  }

  ghost predicate HasJobAt(jobs: Table, c: string, q: int) {
    exists i :: i in jobs && jobs[i].chain == c && jobs[i].sequence == q
  }

  ghost function At(jobs: Table, c: string, q: int): (i: JobId)
    requires HasJobAt(jobs, c, q)
    ensures i in jobs && jobs[i].chain == c && jobs[i].sequence == q
  {
    var i :| i in jobs && jobs[i].chain == c && jobs[i].sequence == q; i
  }

  ghost predicate FinishedAt(jobs: Table, i: JobId, c: string, q: int) {
    i in jobs && jobs[i].chain == c && jobs[i].sequence == q && IsFinished(jobs[i])
  }

  ghost predicate HasFinishedAt(jobs: Table, c: string, q: int) {
    exists i {:trigger FinishedAt(jobs, i, c, q)} :: FinishedAt(jobs, i, c, q)
  }

  ghost function Seqs(jobs: Table, c: string): set<int> {
    set i {:trigger InChain(jobs, i, c)} | i in jobs && InChain(jobs, i, c) :: jobs[i].sequence
  }

  /** Largest positive element, or 0. */
  ghost function MaxOf(s: set<int>): (m: int)
    ensures m >= 0 && (m == 0 || m in s)
    ensures forall x :: x in s ==> x <= m
  {
    if exists y :: y in s then
      var y :| y in s;
      var rest := MaxOf(s - {y});
      assert forall z :: z in s ==> z == y || z in s - {y};
      if y > rest then y else rest
    else 0
  }

  ghost function MaxSeq(jobs: Table, c: string): int {
    MaxOf(Seqs(jobs, c))
  }

  lemma MaxSeqIs(jobs: Table, c: string, m: int)
    requires m >= 0 && (m == 0 || HasJobAt(jobs, c, m))
    requires forall i :: i in jobs && jobs[i].chain == c ==> jobs[i].sequence <= m
    ensures MaxSeq(jobs, c) == m
  {
    if m > 0 {
      assert InChain(jobs, At(jobs, c, m), c) && m in Seqs(jobs, c);
    }
  }

  // ---------------------------------------------------------------- enqueue

  /** The sequence number an enqueue gets, or why it is refused. */
  ghost function ResolveSequence(jobs: Table, c: string, q: int): Result<int, Error> {
    if q == 0 then Success(MaxSeq(jobs, c) + 1)
    else if q > 1 && !HasJobAt(jobs, c, q - 1) && (HasChain(jobs, c) ==> q > MaxSeq(jobs, c) + 1) then
      Failure(ErrSequenceGap)
    else if HasJobAt(jobs, c, q) then Failure(ErrDuplicateChainSeq)
    else Success(q)
  }

  ghost function InitialStatus(jobs: Table, c: string, q: int): Status {
    if q <= 1 || HasFinishedAt(jobs, c, q - 1) then Pending else Blocked
  }

  function ResolvedMode(m: OrderingMode): OrderingMode {
    if m.Unset? then Strict else m
  }

  function NewJob(req: EnqueueRequest, id: JobId, q: int, status: Status, now: Time): Job {
    Job(id, req.chain, q, req.jobType,
        if req.payload == "" || req.payload == "null" then "{}" else req.payload,
        req.idempotencyKey, req.tenant, req.trace, ResolvedMode(req.mode), status, 0,
        if req.maxAttempts == 0 then 5 else req.maxAttempts,
        if req.availableAt.Some? then req.availableAt.value else now,
        req.deadlineAt, "", None, 0, "", now, now, None, None, None)
  }

  ghost function EnqueueResult(jobs: Table, req: EnqueueRequest, id: JobId, now: Time): Result<Job, Error> {
    if req.chain == "" then Failure(ErrChainRequired)
    else if req.idempotencyKey != "" && HasKey(jobs, req.idempotencyKey) then
      var i :| CarriesKey(jobs, i, req.idempotencyKey);
      Success(jobs[i])
    else
      match ResolveSequence(jobs, req.chain, req.sequence)
      case Failure(e) => Failure(e)
      case Success(q) => Success(NewJob(req, id, q, InitialStatus(jobs, req.chain, q), now))
  }

  /** The jobs after an enqueue; an idempotent hit and an error change nothing. */
  ghost function Enqueued(jobs: Table, req: EnqueueRequest, id: JobId, now: Time): Table {
    match EnqueueResult(jobs, req, id, now)
    case Failure(_) => jobs
    case Success(j) => jobs[j.id := j]
  }

  /** A single enqueue call inside a batch: the request, the fresh id it draws
      and the clock it reads. */
  datatype Call = Call(req: EnqueueRequest, id: JobId, now: Time)

  /** Call `k` draws an id that is not in use and that no later call draws. */
  ghost predicate DrawsFresh(jobs: Table, calls: seq<Call>, k: nat)
    requires k < |calls|
  {
    calls[k].id !in jobs && forall l :: k < l < |calls| ==> calls[l].id != calls[k].id
  }

  ghost predicate FreshFrom(jobs: Table, calls: seq<Call>, n: nat) {
    forall k {:trigger DrawsFresh(jobs, calls, k)} :: n <= k < |calls| ==> DrawsFresh(jobs, calls, k)
  }

  /** Call `k` succeeds as a single enqueue between table `k` and table `k + 1`. */
  ghost predicate CallAt(tables: seq<Table>, out: seq<Job>, calls: seq<Call>, k: nat)
    requires k + 1 < |tables| && k < |out| && k < |calls|
  {
    && EnqueueResult(tables[k], calls[k].req, calls[k].id, calls[k].now) == Success(out[k])
    && tables[k + 1] == Enqueued(tables[k], calls[k].req, calls[k].id, calls[k].now)
  }

  /** `out` answers the first calls of a batch, each a single enqueue on the
      table its predecessors left. */
  ghost predicate Runs(tables: seq<Table>, out: seq<Job>, calls: seq<Call>) {
    && |tables| == |out| + 1
    && |out| <= |calls|
    && forall k {:trigger CallAt(tables, out, calls, k)} :: 0 <= k < |out| ==> CallAt(tables, out, calls, k)
  }

  /** The call after the ones answered so far fails. */
  ghost predicate Breaks(jobs: Table, calls: seq<Call>, n: nat, e: Error) {
    n < |calls| && EnqueueResult(jobs, calls[n].req, calls[n].id, calls[n].now) == Failure(e)
  }

  // ---------------------------------------------------------------- claim

  ghost predicate RunsIn(jobs: Table, i: JobId, c: string) {
    i in jobs && jobs[i].chain == c && jobs[i].status.Processing?
  }

  ghost predicate Busy(jobs: Table, c: string) {
    exists i {:trigger RunsIn(jobs, i, c)} :: RunsIn(jobs, i, c)
  }

  /** Available now, and first in its chain or behind a finished predecessor. */
  ghost predicate Eligible(jobs: Table, j: Job, now: Time) {
    && CanBeClaimed(j.status)
    && j.availableAt <= now
    && (j.sequence == 1 || HasFinishedAt(jobs, j.chain, j.sequence - 1))
  }

  ghost predicate Claimable(jobs: Table, i: JobId, now: Time) {
    i in jobs && Eligible(jobs, jobs[i], now) && !Busy(jobs, jobs[i].chain)
  }

  predicate NoLater(a: Job, b: Job) {
    a.availableAt < b.availableAt || (a.availableAt == b.availableAt && a.createdAt <= b.createdAt)
  }

  /** `i` is claimable and no claimable job comes strictly before it. */
  ghost predicate Earliest(jobs: Table, i: JobId, now: Time) {
    && Claimable(jobs, i, now)
    && forall k :: Claimable(jobs, k, now) ==> NoLater(jobs[i], jobs[k])
  }

  function Claimed(j: Job, worker: string, lease: Duration, now: Time): Job {
    j.(status := Processing, worker := worker, generation := j.generation + 1,
       leaseUntil := Some(now + lease), attempt := j.attempt + 1,
       startedAt := if j.startedAt.None? then Some(now) else j.startedAt, updatedAt := now)
  }

  // ---------------------------------------------------------------- fenced finishing calls

  /** The check every finishing call and every heartbeat starts with. */
  function Fence(jobs: Table, id: JobId, worker: string, generation: int): Option<Error> {
    if id !in jobs then Some(ErrNotFound)
    else if jobs[id].worker != worker || jobs[id].generation != generation then Some(ErrLeaseConflict)
    else None
  }

  function CompletedJob(j: Job, now: Time): Job {
    j.(status := Completed, completedAt := Some(now), updatedAt := now, leaseUntil := None)
  }

  /** Unblocks the job behind position `q` of chain `c`, if it is blocked. */
  function Promoted(jobs: Table, c: string, q: int, now: Time): Table {
    map i | i in jobs ::
      if jobs[i].chain == c && jobs[i].sequence == q + 1 && jobs[i].status.Blocked?
      then jobs[i].(status := Pending, updatedAt := now)
      else jobs[i]
  }

  /** Completing a job and unblocking its successor is one step. */
  function CompletedAndPromoted(jobs: Table, id: JobId, now: Time): Table
    requires id in jobs
  {
    Promoted(jobs[id := CompletedJob(jobs[id], now)], jobs[id].chain, jobs[id].sequence, now)
  }

  function FailedJob(j: Job, msg: string, terminal: bool, now: Time): Job {
    j.(status := if terminal && j.mode.DeadLetterAndContinue? then DeadLettered else Failed,
       lastError := msg, failedAt := Some(now), updatedAt := now, leaseUntil := None)
  }

  function RetriedJob(j: Job, msg: string, next: Time, now: Time): Job {
    j.(status := Retrying, lastError := msg, availableAt := next, updatedAt := now, leaseUntil := None)
  }

  function CancelledJob(j: Job, now: Time): Job {
    j.(status := Cancelled, updatedAt := now, leaseUntil := None)
  }

  function Beaten(j: Job, lease: Duration, now: Time): Job {
    j.(leaseUntil := Some(now + lease), updatedAt := now)
  }

  // ---------------------------------------------------------------- operator calls

  function CancelRequestedJob(j: Job, now: Time): Job {
    if j.status.Pending? || j.status.Retrying? || j.status.Blocked?
    then j.(status := CancelRequested, updatedAt := now)
    else j
  }

  function ReplayedJob(j: Job, now: Time): Job {
    j.(status := Pending, attempt := 0, lastError := "", availableAt := now, updatedAt := now, leaseUntil := None)
  }

  /** A replay, optionally with a new payload; ignored unless the job has stopped. */
  function Replayed(jobs: Table, id: JobId, payload: string, now: Time): Table
    requires id in jobs
  {
    var j := jobs[id];
    if !Stopped(j.status) then jobs
    else jobs[id := ReplayedJob(if payload == "" then j else j.(payload := payload), now)]
  }

  function Skipped(jobs: Table, id: JobId, now: Time): Table
    requires id in jobs
  {
    if Stopped(jobs[id].status) then CompletedAndPromoted(jobs, id, now) else jobs
  }

  function RescheduledJob(j: Job, at: Time, now: Time): Job {
    j.(availableAt := at, updatedAt := now)
  }

  // ---------------------------------------------------------------- stale recovery

  /** The retry policy handed to recovery, with the random draw made for each job. */
  datatype Backoffs = Backoffs(policy: Option<(int, real) -> Duration>, draw: JobId -> real) {
    function Delay(j: Job): Duration {
      if policy.None? then SECOND else policy.value(j.attempt, draw(j.id))
    }
  }

  predicate IsStale(j: Job, now: Time) {
    j.status.Processing? && j.leaseUntil.Some? && j.leaseUntil.value < now
  }

  ghost function Stale(jobs: Table, now: Time): set<JobId> {
    set i | i in jobs && IsStale(jobs[i], now)
  }

  function RecoveredJob(j: Job, b: Backoffs, now: Time): Job {
    j.(status := Retrying, availableAt := now + b.Delay(j), lastError := "stale lease recovered",
       updatedAt := now, leaseUntil := None)
  }

  function Recovered(jobs: Table, chosen: set<JobId>, b: Backoffs, now: Time): Table {
    Mapped(jobs, chosen, Recovery(b, now))
  }

  /** A recovery pass may pick any stale jobs, but as many as the limit allows. */
  ghost predicate RecoveryPicks(jobs: Table, chosen: set<JobId>, limit: int, now: Time) {
    && chosen <= Stale(jobs, now)
    && |chosen| == (if limit <= 0 then 0 else if limit < |Stale(jobs, now)| then limit else |Stale(jobs, now)|)
  }

  // ---------------------------------------------------------------- bulk dead-letter edits

  ghost function Matching(jobs: Table, f: JobFilter): set<JobId> {
    set i | i in jobs && MatchesDLQ(f, jobs[i])
  }

  lemma MatchingIs(jobs: Table, f: JobFilter, i: JobId)
    requires i in jobs
    ensures i in Matching(jobs, f) <==> MatchesDLQ(f, jobs[i])
  {
  }

  ghost function DeadLetters(jobs: Table): set<JobId> {
    set i | i in jobs && InDeadLetterQueue(jobs[i].status)
  }

  ghost predicate BehindOneOf(jobs: Table, hit: set<JobId>, j: Job) {
    exists p :: p in hit && p in jobs && Before(jobs[p], j)
  }

  /** Completes the jobs of `hit` and unblocks exactly the jobs directly behind them. */
  ghost function SkippedAll(jobs: Table, hit: set<JobId>, now: Time): Table {
    map i | i in jobs ::
      if i in hit then CompletedJob(jobs[i], now)
      else if jobs[i].status.Blocked? && BehindOneOf(jobs, hit, jobs[i])
      then jobs[i].(status := Pending, updatedAt := now)
      else jobs[i]
  }

  ghost function BulkReplayed(jobs: Table, f: JobFilter, now: Time): Table {
    Mapped(jobs, Matching(jobs, f), Replay(now))
  }

  ghost function BulkSkipped(jobs: Table, f: JobFilter, now: Time): Table {
    SkippedAll(jobs, Matching(jobs, f), now)
  }

  ghost function BulkPurged(jobs: Table, f: JobFilter): Table {
    jobs - Matching(jobs, f)
  }

  /** Job `i` in the middle of a purge: gone if it matched and has been visited. */
  ghost predicate PurgedAt(start: Table, jobs: Table, due: set<JobId>, todo: set<JobId>, i: JobId)
    requires i in start
  {
    (i in jobs <==> !(i in due && i !in todo)) && (i in jobs ==> jobs[i] == start[i])
  }

  ghost predicate Purging(start: Table, jobs: Table, due: set<JobId>, todo: set<JobId>) {
    && jobs.Keys <= start.Keys
    && forall i {:trigger PurgedAt(start, jobs, due, todo, i)} :: i in start ==> PurgedAt(start, jobs, due, todo, i)
  }

  lemma PurgeStarts(start: Table, due: set<JobId>)
    ensures Purging(start, start, due, start.Keys)
  {
  }

  lemma PurgeVisits(start: Table, jobs: Table, due: set<JobId>, todo: set<JobId>, id: JobId)
    requires Purging(start, jobs, due, todo) && id in todo && id in start
    ensures id in jobs && jobs[id] == start[id]
    ensures Purging(start, if id in due then jobs - {id} else jobs, due, todo - {id})
  {
    assert PurgedAt(start, jobs, due, todo, id);
    forall i | i in start ensures PurgedAt(start, if id in due then jobs - {id} else jobs, due, todo - {id}, i) {
      assert PurgedAt(start, jobs, due, todo, i);
    }
  }

  lemma PurgeEnds(start: Table, jobs: Table, due: set<JobId>)
    requires Purging(start, jobs, due, {})
    ensures jobs == start - due
  {
    forall i | i in start ensures i in jobs <==> i !in due {
      assert PurgedAt(start, jobs, due, {}, i);
    }
    forall i | i in jobs ensures jobs[i] == start[i] {
      assert PurgedAt(start, jobs, due, {}, i);
    }
  }

  lemma BehindOneMore(jobs: Table, hit: set<JobId>, id: JobId, j: Job)
    requires id in jobs
    ensures BehindOneOf(jobs, hit + {id}, j) <==> BehindOneOf(jobs, hit, j) || Before(jobs[id], j)
  {
    if BehindOneOf(jobs, hit, j) {
      var p :| p in hit && p in jobs && Before(jobs[p], j);
      assert p in hit + {id};
    }
    if Before(jobs[id], j) { assert id in hit + {id}; }
  }

  /** Job `i` in the middle of a skip: completed if it matched and has been
      visited, unblocked if it was blocked directly behind such a job. */
  ghost predicate SkippedAt(start: Table, jobs: Table, hit: set<JobId>, now: Time, i: JobId)
    requires i in start && i in jobs
  {
    jobs[i] == if i in hit then CompletedJob(start[i], now)
               else if start[i].status.Blocked? && BehindOneOf(start, hit, start[i])
               then start[i].(status := Pending, updatedAt := now)
               else start[i]
  }

  ghost predicate Skipping(start: Table, jobs: Table, hit: set<JobId>, now: Time) {
    && jobs.Keys == start.Keys
    && forall i {:trigger SkippedAt(start, jobs, hit, now, i)} :: i in start ==> SkippedAt(start, jobs, hit, now, i)
  }

  lemma SkipStarts(start: Table, hit: set<JobId>, now: Time)
    requires hit == {}
    ensures Skipping(start, start, hit, now)
  {
  }

  /** What the loop finds: a job that a skip has unblocked matches no filter,
      before or after, and a matching job is still as it was. */
  lemma SkipFinds(start: Table, jobs: Table, hit: set<JobId>, now: Time, f: JobFilter, id: JobId)
    requires Skipping(start, jobs, hit, now) && id in start && id !in hit
    ensures MatchesDLQ(f, jobs[id]) <==> MatchesDLQ(f, start[id])
    ensures MatchesDLQ(f, start[id]) ==> jobs[id] == start[id]
  {
    assert SkippedAt(start, jobs, hit, now, id);
  }

  /** Skipping one more job, whatever was skipped before. */
  lemma SkipVisits(start: Table, jobs: Table, hit: set<JobId>, now: Time, id: JobId)
    requires Skipping(start, jobs, hit, now) && id in start && id !in hit
    requires InDeadLetterQueue(start[id].status)
    ensures Skipping(start, CompletedAndPromoted(jobs, id, now), hit + {id}, now)
  {
    var after := CompletedAndPromoted(jobs, id, now);
    assert SkippedAt(start, jobs, hit, now, id);
    forall i | i in start ensures SkippedAt(start, after, hit + {id}, now, i) {
      assert SkippedAt(start, jobs, hit, now, i);
      BehindOneMore(start, hit, id, start[i]);
    }
  }

  lemma SkipEnds(start: Table, jobs: Table, hit: set<JobId>, now: Time)
    requires Skipping(start, jobs, hit, now)
    ensures jobs == SkippedAll(start, hit, now)
  {
    forall i | i in start ensures jobs[i] == SkippedAll(start, hit, now)[i] {
      assert SkippedAt(start, jobs, hit, now, i);
    }
  }

  // ---------------------------------------------------------------- enqueue theorems

  /** Every job past position 1 has a job directly before it. */
  ghost predicate PredecessorClosed(jobs: Table) {
    forall i :: i in jobs && jobs[i].sequence > 1 ==> HasJobAt(jobs, jobs[i].chain, jobs[i].sequence - 1)
  }

  lemma {:induction false} Descend(jobs: Table, c: string, q: int, n: int)
    requires PredecessorClosed(jobs) && 1 <= q <= n && HasJobAt(jobs, c, n)
    ensures HasJobAt(jobs, c, q)
    decreases n
  {
    if q < n {
      var i := At(jobs, c, n);
      assert HasJobAt(jobs, jobs[i].chain, jobs[i].sequence - 1);
      Descend(jobs, c, q, n - 1);
    }
  }

  lemma AtMostMax(jobs: Table, c: string)
    ensures forall i :: i in jobs && jobs[i].chain == c ==> jobs[i].sequence <= MaxSeq(jobs, c)
    ensures MaxSeq(jobs, c) > 0 ==> HasJobAt(jobs, c, MaxSeq(jobs, c))
  {
    forall i | i in jobs && jobs[i].chain == c ensures jobs[i].sequence <= MaxSeq(jobs, c) {
      assert InChain(jobs, i, c) && jobs[i].sequence in Seqs(jobs, c);
    }
  }

  /** Without gaps the positive positions of a chain are exactly 1..max. */
  lemma GapFree(jobs: Table, c: string, q: int)
    requires PredecessorClosed(jobs) && q >= 1
    ensures HasJobAt(jobs, c, q) <==> q <= MaxSeq(jobs, c)
  {
    AtMostMax(jobs, c);
    if q <= MaxSeq(jobs, c) { Descend(jobs, c, q, MaxSeq(jobs, c)); }
  }

  /** In a gap-free chain an explicit positive position is accepted exactly when
      it is the next one, and an automatic one is always accepted. */
  lemma AcceptedPositions(jobs: Table, c: string, q: int)
    requires PredecessorClosed(jobs) && q >= 0
    ensures ResolveSequence(jobs, c, q).Success? <==> q == 0 || q == MaxSeq(jobs, c) + 1
    ensures ResolveSequence(jobs, c, q).Success? ==> ResolveSequence(jobs, c, q).value == MaxSeq(jobs, c) + 1
    ensures !HasJobAt(jobs, c, MaxSeq(jobs, c) + 1)
  {
    GapFree(jobs, c, MaxSeq(jobs, c) + 1);
    if q >= 1 { GapFree(jobs, c, q); }
    if q >= 2 {
      GapFree(jobs, c, q - 1);
      if HasJobAt(jobs, c, q - 1) { assert At(jobs, c, q - 1) in jobs; }
    }
  }

  /** A position that is handed out is free, whatever gaps a purge has left. */
  lemma ResolvedIsFree(jobs: Table, c: string, q: int)
    requires ResolveSequence(jobs, c, q).Success?
    ensures !HasJobAt(jobs, c, ResolveSequence(jobs, c, q).value)
  {
    AtMostMax(jobs, c);
  }

  lemma InsertKeepsWellFormed(jobs: Table, j: Job)
    requires WellFormed(jobs) && j.id !in jobs && !HasJobAt(jobs, j.chain, j.sequence)
    requires j.idempotencyKey != "" ==> !HasKey(jobs, j.idempotencyKey)
    ensures WellFormed(jobs[j.id := j])
  {
    forall i | i in jobs ensures AloneAt(jobs[j.id := j], i) && AloneWithKey(jobs[j.id := j], i) {
      assert AloneAt(jobs, i) && AloneWithKey(jobs, i);
      assert CarriesKey(jobs, i, jobs[i].idempotencyKey);
    }
    forall k | k in jobs && jobs[k].idempotencyKey == j.idempotencyKey ensures j.idempotencyKey == "" {
      assert CarriesKey(jobs, k, j.idempotencyKey);
    }
  }

  /** The one way an enqueue changes the jobs: one new job in a free position. */
  lemma EnqueueAdds(jobs: Table, req: EnqueueRequest, id: JobId, now: Time)
    requires WellFormed(jobs) && id !in jobs
    ensures WellFormed(Enqueued(jobs, req, id, now))
    ensures PredecessorClosed(jobs) ==> PredecessorClosed(Enqueued(jobs, req, id, now))
    ensures Enqueued(jobs, req, id, now) == jobs
            || exists q :: ResolveSequence(jobs, req.chain, req.sequence) == Success(q) && !HasJobAt(jobs, req.chain, q)
                           && Enqueued(jobs, req, id, now) == jobs[id := NewJob(req, id, q, InitialStatus(jobs, req.chain, q), now)]
  {
    var r := EnqueueResult(jobs, req, id, now);
    var after := Enqueued(jobs, req, id, now);
    if r.Success? && r.value.id != id {
      assert after == jobs;
    } else if r.Success? {
      ResolvedIsFree(jobs, req.chain, req.sequence);
      var q := ResolveSequence(jobs, req.chain, req.sequence).value;
      assert after == jobs[id := NewJob(req, id, q, InitialStatus(jobs, req.chain, q), now)];
      InsertKeepsWellFormed(jobs, r.value);
      if PredecessorClosed(jobs) { NewJobHasPredecessor(jobs, req, id, q, now); }
    }
  }

  lemma NewJobHasPredecessor(jobs: Table, req: EnqueueRequest, id: JobId, q: int, now: Time)
    requires WellFormed(jobs) && id !in jobs && PredecessorClosed(jobs)
    requires ResolveSequence(jobs, req.chain, req.sequence) == Success(q)
    ensures PredecessorClosed(jobs[id := NewJob(req, id, q, InitialStatus(jobs, req.chain, q), now)])
  {
    var after := jobs[id := NewJob(req, id, q, InitialStatus(jobs, req.chain, q), now)];
    if q > 1 {
      if req.sequence > 0 { AcceptedPositions(jobs, req.chain, req.sequence); }
      assert q == MaxSeq(jobs, req.chain) + 1;
      GapFree(jobs, req.chain, q - 1);
    }
    forall i | i in after && after[i].sequence > 1 ensures HasJobAt(after, after[i].chain, after[i].sequence - 1) {
      var p := At(jobs, after[i].chain, after[i].sequence - 1);
      assert p in after && after[p] == jobs[p];
    }
  }

  // ---------------------------------------------------------------- batches

  /** An enqueue never touches an existing job and adds no id but its own. */
  lemma EnqueueAddsAtMost(jobs: Table, req: EnqueueRequest, id: JobId, now: Time)
    requires WellFormed(jobs) && id !in jobs
    ensures Enqueued(jobs, req, id, now).Keys <= jobs.Keys + {id}
    ensures forall i :: i in jobs ==> i in Enqueued(jobs, req, id, now) && Enqueued(jobs, req, id, now)[i] == jobs[i]
  {
  }

  lemma ExtendRun(tables: seq<Table>, out: seq<Job>, calls: seq<Call>, js: Table, j: Job)
    requires Runs(tables, out, calls) && |out| < |calls|
    requires EnqueueResult(tables[|out|], calls[|out|].req, calls[|out|].id, calls[|out|].now) == Success(j)
    requires js == Enqueued(tables[|out|], calls[|out|].req, calls[|out|].id, calls[|out|].now)
    ensures Runs(tables + [js], out + [j], calls)
  {
    forall k | 0 <= k < |out| + 1 ensures CallAt(tables + [js], out + [j], calls, k) {
      if k < |out| { assert CallAt(tables, out, calls, k); }
    }
  }

  /** The fold of single enqueues over the first `n` calls: their answers and the table they
      leave, or the first error. */
  ghost function Folded(jobs: Table, calls: seq<Call>, n: nat): Result<(seq<Job>, Table), Error>
    requires n <= |calls|
  {
    if n == 0 then Success(([], jobs))
    else
      match Folded(jobs, calls, n - 1)
      case Failure(e) => Failure(e)
      case Success((out, js)) =>
        var c := calls[n - 1];
        match EnqueueResult(js, c.req, c.id, c.now)
        case Failure(e) => Failure(e)
        case Success(j) => Success((out + [j], Enqueued(js, c.req, c.id, c.now)))
  }

  /** A run of a batch computes the fold. */
  lemma {:induction false} RunFolds(tables: seq<Table>, out: seq<Job>, calls: seq<Call>, n: nat)
    requires Runs(tables, out, calls) && n <= |out|
    ensures Folded(tables[0], calls, n) == Success((out[..n], tables[n]))
  {
    if n > 0 {
      RunFolds(tables, out, calls, n - 1);
      assert CallAt(tables, out, calls, n - 1);
      assert out[..n] == out[..n - 1] + [out[n - 1]];
    }
  }

  /** A run that breaks fails the fold, whatever calls come after. */
  lemma {:induction false} BreakFolds(tables: seq<Table>, out: seq<Job>, calls: seq<Call>, e: Error, n: nat)
    requires Runs(tables, out, calls) && Breaks(tables[|out|], calls, |out|, e) && |out| < n <= |calls|
    ensures Folded(tables[0], calls, n) == Failure(e)
  {
    if n == |out| + 1 {
      RunFolds(tables, out, calls, |out|);
      assert out[..|out|] == out;
    } else {
      BreakFolds(tables, out, calls, e, n - 1);
    }
  }

  lemma FreshAfter(before: Table, after: Table, calls: seq<Call>, n: nat)
    requires FreshFrom(before, calls, n) && n < |calls| && after.Keys <= before.Keys + {calls[n].id}
    ensures FreshFrom(after, calls, n + 1)
  {
    assert DrawsFresh(before, calls, n);
    forall k | n + 1 <= k < |calls| ensures DrawsFresh(after, calls, k) {
      assert DrawsFresh(before, calls, k);
    }
  }
}
