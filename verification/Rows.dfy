/** The rows of the ordered_jobs table (repository/postgres/001_initial.sql), as the SQL
    repositories read and write them. */
module Rows {
  import opened Wrappers
  import opened Lifecycle
  import opened Jobs
  import opened Collections
  import Lease

  type RowId = nat

  /** `None` is NULL. The ordering mode `Unset` stands for NULL as well. */
  datatype Row = Row(
    chain: string,
    sequence: int,
    jobType: string,
    tenant: string,
    trace: string,
    payload: string,
    mode: OrderingMode,
    status: Status,
    attempt: int,
    maxAttempts: int,
    availableAt: Time,
    worker: Option<string>,
    leaseUntil: Option<Time>,
    generation: int,
    lastError: Option<string>,
    createdAt: Time,
    updatedAt: Time,
    startedAt: Option<Time>,
    completedAt: Option<Time>,
    failedAt: Option<Time>)

  type RowTable = map<RowId, Row>

  /** The guard `worker_id = w AND lease_generation = g AND status = 'PROCESSING'`.
      A comparison with NULL never holds. */
  predicate Held(r: Row, w: string, g: int) {
    r.status.Processing? && r.worker == Some(w) && r.generation == g
  }

  /** The guard `status = 'PROCESSING' AND lease_until < NOW()`. */
  predicate IsStale(r: Row, now: Time) {
    r.status.Processing? && r.leaseUntil.Some? && r.leaseUntil.value < now
  }

  function StaleRows(rows: RowTable, now: Time): set<RowId> {
    set i | i in rows && IsStale(rows[i], now)
  }

  /** The guard of a fenced statement, at row `i`. */
  predicate Hits(rows: RowTable, i: RowId, w: string, g: int) {
    i in rows && Held(rows[i], w, g)
  }

  /** A predecessor whose successor is eligible. */
  predicate HasFinishedAt(rows: RowTable, c: string, q: int) {
    exists p :: p in rows && rows[p].chain == c && rows[p].sequence == q && Finished(rows[p].status, rows[p].mode)
  }

  /** The retry policy handed to recovery, its random draws made row by row. */
  type Policy = Option<(int, RowId) -> Duration>

  function ClaimedRow(r: Row, w: string, lease: Duration, now: Time): Row {
    r.(status := Processing, worker := Some(w), leaseUntil := Some(now + Lease.InSeconds(lease)),
       generation := r.generation + 1, attempt := r.attempt + 1,
       startedAt := if r.startedAt.None? then Some(now) else r.startedAt, updatedAt := now)
  }

  /** `UPDATE ... SET status='PENDING' WHERE chain_id=c AND sequence=q+1 AND status='BLOCKED'`. */
  function Promoted(rows: RowTable, c: string, q: int, now: Time): RowTable {
    map i | i in rows ::
      if rows[i].chain == c && rows[i].sequence == q + 1 && rows[i].status.Blocked?
      then rows[i].(status := Pending, updatedAt := now)
      else rows[i]
  }

  function CompletedRow(r: Row, now: Time): Row {
    r.(status := Completed, completedAt := Some(now), updatedAt := now, leaseUntil := None)
  }

  datatype Filter = Filter(chain: string, jobType: string, tenant: string, trace: string, search: Option<Row -> bool>)

  predicate MatchesFilter(f: Filter, r: Row) {
    && InDeadLetterQueue(r.status)
    && (f.chain == "" || r.chain == f.chain)
    && (f.jobType == "" || r.jobType == f.jobType)
    && (f.tenant == "" || r.tenant == f.tenant)
    && (f.trace == "" || r.trace == f.trace)
    && (f.search.Some? ==> f.search.value(r))
  }

  function Matching(rows: RowTable, f: Filter): set<RowId> {
    set i | i in rows && MatchesFilter(f, rows[i])
  }

  predicate BehindOneOf(rows: RowTable, hit: set<RowId>, r: Row) {
    exists p :: p in hit && p in rows && rows[p].chain == r.chain && rows[p].sequence + 1 == r.sequence
  }

  /** The rows of `hit` completed, and what is blocked directly behind those of `seen` unblocked. */
  function Skipped(rows: RowTable, hit: set<RowId>, seen: set<RowId>, now: Time): RowTable {
    map i | i in rows ::
      if i in hit then CompletedRow(rows[i], now)
      else if rows[i].status.Blocked? && BehindOneOf(rows, seen, rows[i])
      then rows[i].(status := Pending, updatedAt := now)
      else rows[i]
  }

  lemma BehindOneMore(rows: RowTable, hit: set<RowId>, id: RowId, r: Row)
    requires id in rows
    ensures BehindOneOf(rows, hit + {id}, r) <==>
            BehindOneOf(rows, hit, r) || (rows[id].chain == r.chain && rows[id].sequence + 1 == r.sequence)
  {
    if BehindOneOf(rows, hit, r) {
      var p :| p in hit && p in rows && rows[p].chain == r.chain && rows[p].sequence + 1 == r.sequence;
      assert p in hit + {id};
    }
    assert id in hit + {id};
  }

  lemma SkippedOneMore(rows: RowTable, hit: set<RowId>, seen: set<RowId>, now: Time, id: RowId)
    requires id in rows
    ensures Promoted(Skipped(rows, hit, seen, now), rows[id].chain, rows[id].sequence, now) == Skipped(rows, hit, seen + {id}, now)
  {
    var a := Promoted(Skipped(rows, hit, seen, now), rows[id].chain, rows[id].sequence, now);
    forall i | i in rows ensures a[i] == Skipped(rows, hit, seen + {id}, now)[i] {
      BehindOneMore(rows, seen, id, rows[i]);
    }
  }

  /** The statements of a bulk skip that unblock, one by one and in any order, what is
      behind the rows it has completed. */
  method PromoteEach(ghost start: RowTable, done: RowTable, items: set<RowId>, now: Time) returns (rows: RowTable)
    requires items <= start.Keys && done == Skipped(start, items, {}, now)
    ensures rows == Skipped(start, items, items, now)
  {
    rows := done;
    var todo := items;
    assert items - todo == {};
    while todo != {}
      invariant todo <= items && rows == Skipped(start, items, items - todo, now)
      decreases |todo|
    {
      ghost var some := Inhabited(todo);
      var i :| i in todo;
      assert items - (todo - {i}) == items - todo + {i};
      assert rows[i].chain == start[i].chain && rows[i].sequence == start[i].sequence;
      SkippedOneMore(start, items, items - todo, now, i);
      rows := Promoted(rows, rows[i].chain, rows[i].sequence, now);
      todo := todo - {i};
    }
    assert items - todo == items;
  }

  // ---------------------------------------------------------------- what a caller may rely on

  /** No other row stands at the position of `i`. */
  ghost predicate AloneAt(rows: RowTable, i: RowId)
    requires i in rows
  {
    forall k :: k in rows && rows[k].chain == rows[i].chain && rows[k].sequence == rows[i].sequence ==> k == i
  }

  /** The unique constraint on (chain_id, sequence). */
  ghost predicate UniquePositions(rows: RowTable) {
    forall i {:trigger AloneAt(rows, i)} :: i in rows ==> AloneAt(rows, i)
  }

  /** Every row but `i` is as it was. */
  ghost predicate OnlyRow(before: RowTable, after: RowTable, i: RowId) {
    after.Keys == before.Keys && forall k :: k in before && k != i ==> after[k] == before[k]
  }

  /** The columns that no statement but INSERT writes. */
  predicate SameJob(r: Row, r2: Row) {
    && r2.chain == r.chain && r2.sequence == r.sequence && r2.jobType == r.jobType && r2.tenant == r.tenant
    && r2.trace == r.trace && r2.mode == r.mode && r2.maxAttempts == r.maxAttempts && r2.createdAt == r.createdAt
  }

  /** The token of the last claim stands. */
  predicate SameToken(r: Row, r2: Row) {
    r2.worker == r.worker && r2.generation == r.generation
  }

  /** Nothing has changed but that a row blocked at position `q` of chain `c` may have been opened. */
  ghost predicate Opens(before: RowTable, after: RowTable, c: string, q: int) {
    && after.Keys == before.Keys
    && forall k :: k in before ==>
         if before[k].chain == c && before[k].sequence == q && before[k].status.Blocked?
         then after[k].status.Pending? && after[k] == before[k].(status := Pending, updatedAt := after[k].updatedAt)
         else after[k] == before[k]
  }

  /** A promotion opens one row at most. */
  lemma OpensOne(before: RowTable, after: RowTable, c: string, q: int, i: RowId, k: RowId)
    requires UniquePositions(before) && Opens(before, after, c, q) && i in before && k in before
    requires after[i] != before[i] && after[k] != before[k]
    ensures i == k
  {
    assert AloneAt(before, i);
  }
}
