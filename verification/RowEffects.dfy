/** What the SQL statements mean for a caller, in the columns of a row and in what the next
    claim, recovery or bulk edit will find: reference definitions beside those of `Rows`. */
module RowEffects {
  import opened Wrappers
  import opened Lifecycle
  import opened Jobs
  import opened Rows
  import Lease

  // ---------------------------------------------------------------- who is claimed next

  /** `p` stands directly before `k` and no longer holds it back. */
  ghost predicate LetsGo(rows: RowTable, p: RowId, k: RowId)
    requires k in rows
  {
    && p in rows && rows[p].chain == rows[k].chain && rows[p].sequence + 1 == rows[k].sequence
    && (|| rows[p].status == Completed
        || ((rows[p].status == Failed || rows[p].status == DeadLettered)
            && (rows[p].mode == SkipOnFailure || rows[p].mode == DeadLetterAndContinue)))
  }

  /** It is the turn of `k`: it is first, or its predecessor lets it go. */
  ghost predicate HasTurn(rows: RowTable, k: RowId)
    requires k in rows
  {
    rows[k].sequence == 1 || exists p {:trigger LetsGo(rows, p, k)} :: LetsGo(rows, p, k)
  }

  /** What a claim at `now` may return. */
  ghost predicate Ready(rows: RowTable, k: RowId, now: Time) {
    && k in rows && (rows[k].status == Pending || rows[k].status == Retrying)
    && now >= rows[k].availableAt && HasTurn(rows, k)
  }

  lemma TurnMeans(rows: RowTable, k: RowId)
    requires k in rows
    ensures HasTurn(rows, k) <==> rows[k].sequence == 1 || HasFinishedAt(rows, rows[k].chain, rows[k].sequence - 1)
  {
    if HasFinishedAt(rows, rows[k].chain, rows[k].sequence - 1) {
      var p :| p in rows && rows[p].chain == rows[k].chain && rows[p].sequence == rows[k].sequence - 1
               && Finished(rows[p].status, rows[p].mode);
      assert LetsGo(rows, p, k);
    }
    forall p | LetsGo(rows, p, k) ensures HasFinishedAt(rows, rows[k].chain, rows[k].sequence - 1) {}
  }

  /** Row `i` is ready, and every row that is ready is available no earlier, nor created
      earlier if it is available at the same time. */
  ghost predicate FirstReady(rows: RowTable, i: RowId, now: Time) {
    && Ready(rows, i, now)
    && forall k {:trigger Ready(rows, k, now)} :: Ready(rows, k, now) ==>
         && rows[i].availableAt <= rows[k].availableAt
         && (rows[i].availableAt == rows[k].availableAt ==> rows[i].createdAt <= rows[k].createdAt)
  }

  // ---------------------------------------------------------------- who is found

  /** The lease of a row in processing has run out. */
  predicate RanOut(r: Row, now: Time) {
    r.status == Processing && r.leaseUntil != None && now > r.leaseUntil.value
  }

  ghost function AllRanOut(rows: RowTable, now: Time): set<RowId> {
    set i | i in rows && RanOut(rows[i], now)
  }

  lemma StaleMeans(rows: RowTable, now: Time)
    ensures StaleRows(rows, now) == AllRanOut(rows, now)
  {
  }

  /** A fenced statement finds a row in processing under the presented worker and generation. */
  lemma HitsMeans(rows: RowTable, i: RowId, w: string, g: int)
    ensures Hits(rows, i, w, g) <==>
            i in rows && rows[i].status == Processing && rows[i].worker != None && rows[i].worker.value == w && rows[i].generation == g
  {
  }

  /** A dead letter that differs from no column the filter gives. */
  predicate Selected(f: Filter, r: Row) {
    && (r.status == Failed || r.status == DeadLettered)
    && (f.chain != "" ==> f.chain == r.chain)
    && (f.jobType != "" ==> f.jobType == r.jobType)
    && (f.tenant != "" ==> f.tenant == r.tenant)
    && (f.trace != "" ==> f.trace == r.trace)
    && (f.search == None || f.search.value(r))
  }

  ghost function AllSelected(rows: RowTable, f: Filter): set<RowId> {
    set i | i in rows && Selected(f, rows[i])
  }

  lemma MatchingMeans(rows: RowTable, f: Filter)
    ensures Matching(rows, f) == AllSelected(rows, f)
  {
  }

  // ---------------------------------------------------------------- columns

  /** The row as it was, but for its status and the time of the change. */
  predicate OnlyStatus(r: Row, r2: Row) {
    && SameJob(r, r2) && SameToken(r, r2) && r2.payload == r.payload && r2.attempt == r.attempt
    && r2.availableAt == r.availableAt && r2.leaseUntil == r.leaseUntil && r2.lastError == r.lastError
    && r2.startedAt == r.startedAt && r2.completedAt == r.completedAt && r2.failedAt == r.failedAt
  }

  /** `r2` is `r` in processing, claimed at `now` by worker `w` for a lease in whole seconds. */
  predicate ClaimOf(r: Row, r2: Row, w: string, lease: Duration, now: Time) {
    && r2.status == Processing && r2.worker == Some(w)
    && r2.generation - r.generation == 1 && r2.attempt - r.attempt == 1
    && r2.leaseUntil == Some(now + Lease.InSeconds(lease)) && r2.updatedAt == now
    && (r2.startedAt == if r.startedAt == None then Some(now) else r.startedAt)
    && OnlyStatus(r, r2.(worker := r.worker, generation := r.generation, attempt := r.attempt,
                         leaseUntil := r.leaseUntil, startedAt := r.startedAt))
  }

  lemma ClaimedMeans(r: Row, w: string, lease: Duration, now: Time)
    ensures ClaimOf(r, ClaimedRow(r, w, lease, now), w, lease, now)
  {
  }

  predicate DoneOf(r: Row, r2: Row, now: Time) {
    && r2.status == Completed && r2.completedAt == Some(now) && r2.updatedAt == now && r2.leaseUntil == None
    && OnlyStatus(r, r2.(leaseUntil := r.leaseUntil, completedAt := r.completedAt))
  }

  lemma CompletedMeans(r: Row, now: Time)
    ensures DoneOf(r, CompletedRow(r, now), now)
  {
  }

  predicate FailureOf(r: Row, r2: Row, msg: string, terminal: bool, now: Time) {
    && (r2.status == DeadLettered <==> terminal && r.mode == DeadLetterAndContinue)
    && (r2.status == Failed <==> !terminal || r.mode != DeadLetterAndContinue)
    && r2.lastError == Some(msg) && r2.failedAt == Some(now) && r2.updatedAt == now
    && OnlyStatus(r, r2.(leaseUntil := r.leaseUntil, lastError := r.lastError, failedAt := r.failedAt))
  }

  /** Put back for another attempt from `next` on. */
  predicate RetryOf(r: Row, r2: Row, msg: string, next: Time, now: Time) {
    && r2.status == Retrying && r2.lastError == Some(msg) && r2.availableAt == next && r2.updatedAt == now
    && OnlyStatus(r, r2.(leaseUntil := r.leaseUntil, lastError := r.lastError, availableAt := r.availableAt))
  }

  /** Reopened, all attempts back, at once available, with a new payload if one is given. */
  predicate ReplayOf(r: Row, r2: Row, payload: string, now: Time) {
    && r2.status == Pending && r2.attempt == 0 && r2.availableAt == now && r2.updatedAt == now
    && (r2.payload == if payload == "" then r.payload else payload)
    && OnlyStatus(r, r2.(attempt := r.attempt, availableAt := r.availableAt, payload := r.payload,
                         lastError := r.lastError, leaseUntil := r.leaseUntil))
  }

  /** Row `i` after a promotion behind position `q` of chain `c`. */
  predicate PromotedAt(rows: RowTable, after: RowTable, c: string, q: int, now: Time, i: RowId)
    requires i in rows && i in after
  {
    if rows[i].chain == c && rows[i].sequence - 1 == q && rows[i].status == Blocked
    then after[i].status == Pending && after[i].updatedAt == now && OnlyStatus(rows[i], after[i])
    else after[i] == rows[i]
  }

  lemma PromotedMeans(rows: RowTable, c: string, q: int, now: Time)
    ensures Promoted(rows, c, q, now).Keys == rows.Keys
    ensures forall i :: i in rows ==> PromotedAt(rows, Promoted(rows, c, q, now), c, q, now, i)
  {
  }

  /** Row `i` is done, what was blocked directly behind it is open, and all else is as it was. */
  ghost predicate CompletionOf(rows: RowTable, after: RowTable, i: RowId, now: Time) {
    && i in rows && after.Keys == rows.Keys && after[i].status == Completed && after[i].updatedAt == now
    && forall k :: k in rows && k != i ==> PromotedAt(rows, after, rows[i].chain, rows[i].sequence, now, k)
  }

  lemma CompletionMeans(rows: RowTable, r: Row, i: RowId, now: Time)
    requires i in rows && SameJob(rows[i], r) && r.status == Completed && r.updatedAt == now
    ensures CompletionOf(rows, Promoted(rows[i := r], r.chain, r.sequence, now), i, now)
    ensures Promoted(rows[i := r], r.chain, r.sequence, now)[i] == r
  {
    PromotedMeans(rows[i := r], r.chain, r.sequence, now);
  }

  /** A selected row stands directly before `i`. */
  ghost predicate SelectedBefore(rows: RowTable, f: Filter, p: RowId, i: RowId)
    requires i in rows
  {
    p in rows && Selected(f, rows[p]) && rows[p].chain == rows[i].chain && rows[p].sequence + 1 == rows[i].sequence
  }

  /** Row `i` after a bulk skip: done if it was selected, open if it was blocked directly
      behind a selected row, else as it was. */
  ghost predicate SkippedAt(rows: RowTable, after: RowTable, f: Filter, now: Time, i: RowId)
    requires i in rows && i in after
  {
    if Selected(f, rows[i]) then DoneOf(rows[i], after[i], now)
    else if rows[i].status == Blocked && exists p {:trigger SelectedBefore(rows, f, p, i)} :: SelectedBefore(rows, f, p, i)
    then after[i].status == Pending && after[i].updatedAt == now && OnlyStatus(rows[i], after[i])
    else after[i] == rows[i]
  }

  lemma SkippedMeans(rows: RowTable, f: Filter, now: Time)
    ensures var after := Skipped(rows, Matching(rows, f), Matching(rows, f), now);
            && after.Keys == rows.Keys
            && forall i {:trigger SkippedAt(rows, after, f, now, i)} :: i in rows ==> SkippedAt(rows, after, f, now, i)
  {
    var hit := Matching(rows, f);
    MatchingMeans(rows, f);
    forall i | i in rows
      ensures BehindOneOf(rows, hit, rows[i]) <==> exists p {:trigger SelectedBefore(rows, f, p, i)} :: SelectedBefore(rows, f, p, i)
    {
      forall p | SelectedBefore(rows, f, p, i) ensures BehindOneOf(rows, hit, rows[i]) {
        assert p in hit;
      }
      if BehindOneOf(rows, hit, rows[i]) {
        var p :| p in hit && p in rows && rows[p].chain == rows[i].chain && rows[p].sequence + 1 == rows[i].sequence;
        assert SelectedBefore(rows, f, p, i);
      }
    }
  }
}
