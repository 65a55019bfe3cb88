/** The SQL Server repository (repository/sqlserver/repository.go): its statements as
    guarded updates of rows. Only the claim and the recovery write worker_id and
    lease_generation; the recovery raises the generation, which by itself shuts the
    old worker out. */
module SqlServer {
  import opened Wrappers
  import opened Lifecycle
  import opened Jobs
  import opened Rows
  import opened Collections
  import opened RowEffects
  import Lease

  /** Back to RETRYING with a delay if a policy is given and attempts are left, else to PENDING. */
  function RecoveredRow(i: RowId, r: Row, p: Policy, now: Time): Row {
    var again := p.Some? && r.attempt < r.maxAttempts;
    r.(status := if again then Retrying else Pending,
       availableAt := if again then now + p.value(r.attempt, i) else now,
       worker := None, leaseUntil := None, generation := r.generation + 1, updatedAt := now)
  }

  function Recovered(rows: RowTable, picked: set<RowId>, p: Policy, now: Time): RowTable {
    map i | i in rows :: if i in picked then RecoveredRow(i, rows[i], p, now) else rows[i]
  }

  lemma RecoveredOneMore(rows: RowTable, picked: set<RowId>, p: Policy, now: Time, i: RowId)
    requires i in rows && i !in picked
    ensures Recovered(rows, picked, p, now)[i] == rows[i]
    ensures Recovered(rows, picked + {i}, p, now) == Recovered(rows, picked, p, now)[i := RecoveredRow(i, rows[i], p, now)]
  {
  }

  /** A fenced call; the first four also demand PROCESSING, the last CANCEL_REQUESTED. */
  datatype Fenced =
    | Complete
    | Fail(msg: string, terminal: bool)
    | Retry(msg: string, next: Time)
    | Heartbeat(lease: Duration)
    | ConfirmCancel

  predicate Accepts(rows: RowTable, i: RowId, w: string, g: int, f: Fenced) {
    && i in rows && rows[i].worker == Some(w) && rows[i].generation == g
    && if f.ConfirmCancel? then rows[i].status.CancelRequested? else rows[i].status.Processing?
  }

  function Written(r: Row, f: Fenced, now: Time): Row {
    match f
    case Complete => r.(status := Completed, completedAt := Some(now), updatedAt := now)
    case Fail(msg, terminal) =>
      r.(status := if terminal && r.mode.DeadLetterAndContinue? then DeadLettered else Failed,
         failedAt := Some(now), lastError := Some(msg), updatedAt := now)
    case Retry(msg, next) => r.(status := Retrying, availableAt := next, lastError := Some(msg), updatedAt := now)
    case Heartbeat(lease) => r.(leaseUntil := Some(now + Lease.InSeconds(lease)), updatedAt := now)
    case ConfirmCancel => r.(status := Cancelled, updatedAt := now)
  }

  function AfterFenced(rows: RowTable, i: RowId, w: string, g: int, f: Fenced, now: Time): RowTable {
    if !Accepts(rows, i, w, g, f) then rows
    else
      var done := rows[i := Written(rows[i], f, now)];
      if f.Complete? then Promoted(done, rows[i].chain, rows[i].sequence, now) else done
  }

  /** The guard of RequestCancel. */
  predicate Cancellable(rows: RowTable, i: RowId) {
    i in rows && (CanBeClaimed(rows[i].status) || rows[i].status.Blocked? || rows[i].status.Processing?)
  }

  /** The guard of ReplayJob. */
  predicate StoppedAt(rows: RowTable, i: RowId) {
    i in rows && Stopped(rows[i].status)
  }

  /** The guard of SkipJob, which takes a blocked row as well. */
  predicate Skippable(rows: RowTable, i: RowId) {
    i in rows && (Stopped(rows[i].status) || rows[i].status.Blocked?)
  }

  function ReplayedRow(r: Row, payload: string, now: Time): Row {
    r.(payload := if payload == "" then r.payload else payload,
       status := Pending, attempt := 0, availableAt := now, updatedAt := now)
  }

  function BulkReplayed(rows: RowTable, f: Filter, now: Time): RowTable {
    map i | i in rows ::
      if MatchesFilter(f, rows[i]) then ReplayedRow(rows[i], "", now).(lastError := Some(""), leaseUntil := None) else rows[i]
  }

  /** Row `i` after a bulk replay: reopened without an error on record if it was selected, else as it was. */
  predicate ReplayedAt(rows: RowTable, after: RowTable, f: Filter, now: Time, i: RowId)
    requires i in rows && i in after
  {
    if Selected(f, rows[i])
    then ReplayOf(rows[i], after[i], "", now) && after[i].lastError == Some("") && after[i].leaseUntil == None
    else after[i] == rows[i]
  }

  lemma BulkReplayMeans(rows: RowTable, f: Filter, now: Time)
    ensures BulkReplayed(rows, f, now).Keys == rows.Keys
    ensures forall i {:trigger ReplayedAt(rows, BulkReplayed(rows, f, now), f, now, i)} ::
              i in rows ==> ReplayedAt(rows, BulkReplayed(rows, f, now), f, now, i)
  {
  }

  datatype Statement =
    | Insert(id: RowId, row: Row)
    | Claim(worker: string, lease: Duration, pick: RowId)
    | Finish(id: RowId, worker: string, generation: int, f: Fenced)
    | RequestCancel(id: RowId)
    | RecoverStale(picked: set<RowId>, policy: Policy)
    | ReplayJob(id: RowId, payload: string)
    | SkipJob(id: RowId)
    | RescheduleJob(id: RowId, at: Time)
    | PromoteNext(chain: string, sequence: int)
    | BulkReplay(filter: Filter)
    | BulkSkip(filter: Filter)
    | BulkPurge(filter: Filter)

  /** The rows after a statement. */
  function After(rows: RowTable, st: Statement, now: Time): RowTable {
    match st
    case Insert(i, r) => rows[i := r]
    case Claim(w, lease, i) => if i in rows then rows[i := ClaimedRow(rows[i], w, lease, now)] else rows
    case Finish(i, w, g, f) => AfterFenced(rows, i, w, g, f, now)
    case RequestCancel(i) =>
      if Cancellable(rows, i) then rows[i := rows[i].(status := CancelRequested, updatedAt := now)] else rows
    case RecoverStale(picked, p) => Recovered(rows, picked, p, now)
    case ReplayJob(i, payload) => if StoppedAt(rows, i) then rows[i := ReplayedRow(rows[i], payload, now)] else rows
    case SkipJob(i) =>
      if Skippable(rows, i)
      then Promoted(rows[i := rows[i].(status := Completed, updatedAt := now)], rows[i].chain, rows[i].sequence, now)
      else rows
    case RescheduleJob(i, at) =>
      if i in rows && CanBeClaimed(rows[i].status) then rows[i := rows[i].(availableAt := at, updatedAt := now)] else rows
    case PromoteNext(c, q) => Promoted(rows, c, q, now)
    case BulkReplay(f) => BulkReplayed(rows, f, now)
    case BulkSkip(f) => Skipped(rows, Matching(rows, f), Matching(rows, f), now)
    case BulkPurge(f) => rows - Matching(rows, f)
  }

  /** A fenced call finds a row of the presented worker and generation in the status it demands. */
  lemma AcceptsMeans(rows: RowTable, i: RowId, w: string, g: int, f: Fenced)
    ensures Accepts(rows, i, w, g, f) <==>
            && i in rows && rows[i].worker != None && rows[i].worker.value == w && rows[i].generation == g
            && (if f == ConfirmCancel then rows[i].status == CancelRequested else rows[i].status == Processing)
  {
  }

  /** Row `r2` is row `r` after an accepted call. */
  ghost predicate WrittenBy(r: Row, r2: Row, f: Fenced, now: Time) {
    && r2.updatedAt == now
    && match f
       case Complete =>
         r2.status == Completed && r2.completedAt == Some(now) && OnlyStatus(r, r2.(completedAt := r.completedAt))
       case Fail(msg, terminal) => FailureOf(r, r2, msg, terminal, now) && r2.leaseUntil == r.leaseUntil
       case Retry(msg, next) => RetryOf(r, r2, msg, next, now) && r2.leaseUntil == r.leaseUntil
       case Heartbeat(lease) =>
         && r2.status == r.status && OnlyStatus(r, r2.(leaseUntil := r.leaseUntil))
         && forall at :: RanOut(r2, at) <==> r.status == Processing && at > now + Lease.InSeconds(lease)
       case ConfirmCancel => r2.status == Cancelled && OnlyStatus(r, r2)
  }

  lemma WrittenMeans(r: Row, f: Fenced, now: Time)
    ensures WrittenBy(r, Written(r, f, now), f, now)
  {
  }

  /** The call writes row `i` as it says and, if it completes it, opens a row blocked at the
      next position; every other row stays. */
  ghost predicate WritesOnly(rows: RowTable, after: RowTable, i: RowId, f: Fenced, now: Time) {
    && i in rows && i in after && SameJob(rows[i], after[i]) && SameToken(rows[i], after[i]) && WrittenBy(rows[i], after[i], f, now)
    && if f.Complete?
       then CompletionOf(rows, after, i, now) && Opens(rows[i := after[i]], after, after[i].chain, after[i].sequence + 1)
       else OnlyRow(rows, after, i)
  }

  /** A heartbeat leaves the token valid and the row stale exactly after its lease; any other
      call leaves no call that the row would accept. */
  ghost predicate Leaves(rows: RowTable, after: RowTable, i: RowId, w: string, g: int, f: Fenced, now: Time) {
    if f.Heartbeat?
    then Accepts(after, i, w, g, Complete) && forall at :: i in StaleRows(after, at) <==> at > now + Lease.InSeconds(f.lease)
    else forall w2, g2, f2 :: !Accepts(after, i, w2, g2, f2)
  }

  lemma FinishWrites(rows: RowTable, i: RowId, w: string, g: int, f: Fenced, now: Time)
    requires Accepts(rows, i, w, g, f)
    ensures WritesOnly(rows, AfterFenced(rows, i, w, g, f, now), i, f, now)
  {
    WrittenMeans(rows[i], f, now);
    if f.Complete? { CompletionMeans(rows, Written(rows[i], f, now), i, now); }
  }

  lemma FinishLeaves(rows: RowTable, i: RowId, w: string, g: int, f: Fenced, now: Time)
    requires Accepts(rows, i, w, g, f)
    ensures Leaves(rows, AfterFenced(rows, i, w, g, f, now), i, w, g, f, now)
  {
  }

  /** A recovered row: the token is void, and the row waits for the policy's answer if a
      policy is given and it has attempts left, and is pending at once if not. */
  predicate PutBack(i: RowId, r: Row, r2: Row, p: Policy, now: Time) {
    && r2.worker == None && r2.generation - r.generation == 1 && r2.leaseUntil == None && r2.updatedAt == now
    && (if p != None && r.maxAttempts > r.attempt
        then r2.status == Retrying && r2.availableAt == now + p.value(r.attempt, i)
        else r2.status == Pending && r2.availableAt == now)
    && OnlyStatus(r, r2.(worker := r.worker, generation := r.generation, leaseUntil := r.leaseUntil, availableAt := r.availableAt))
  }

  /** Row `i` after a recovery of the picked rows. */
  predicate RecoveredAt(rows: RowTable, after: RowTable, picked: set<RowId>, p: Policy, now: Time, i: RowId)
    requires i in rows && i in after
  {
    if i in picked then PutBack(i, rows[i], after[i], p, now) else after[i] == rows[i]
  }

  lemma RecoveryMeans(rows: RowTable, picked: set<RowId>, p: Policy, now: Time)
    ensures var after := Recovered(rows, picked, p, now);
            && after.Keys == rows.Keys
            && forall i {:trigger RecoveredAt(rows, after, picked, p, now, i)} :: i in rows ==> RecoveredAt(rows, after, picked, p, now, i)
  {
  }

  class Repository {
    var rows: RowTable

    constructor ()
      ensures rows == map[]
    {
      rows := map[];
    }

    /** The fenced calls: `UPDATE ... WHERE id AND worker_id AND lease_generation AND status`.
        One that is accepted and is no heartbeat uses the token up. */
    method Finish(i: RowId, worker: string, generation: int, f: Fenced, now: Time) returns (err: Option<Error>)
      modifies this
      ensures err == if Accepts(old(rows), i, worker, generation, f) then None else Some(ErrLeaseConflict)
      ensures err.Some? ==> rows == old(rows)
      ensures err.None? ==> WritesOnly(old(rows), rows, i, f, now) && Leaves(old(rows), rows, i, worker, generation, f, now)
      ensures rows == After(old(rows), Statement.Finish(i, worker, generation, f), now)
    {
      if !Accepts(rows, i, worker, generation, f) { return Some(ErrLeaseConflict); }
      FinishWrites(rows, i, worker, generation, f, now);
      FinishLeaves(rows, i, worker, generation, f, now);
      rows := rows[i := Written(rows[i], f, now)];
      if f.Complete? {
        rows := Promoted(rows, rows[i].chain, rows[i].sequence, now);
      }
      return None;
    }

    method RequestCancel(i: RowId, now: Time) returns (err: Option<Error>)
      modifies this
      ensures err == if Cancellable(old(rows), i) then None else Some(ErrNotFound)
      ensures err.Some? ==> rows == old(rows)
      ensures err.None? ==> OnlyRow(old(rows), rows, i) && SameJob(old(rows)[i], rows[i]) && SameToken(old(rows)[i], rows[i])
      ensures err.None? ==> forall w, g, f :: Accepts(rows, i, w, g, f) ==> f.ConfirmCancel?
      ensures err.None? <==> i in old(rows) && old(rows)[i].status in {Pending, Retrying, Blocked, Processing}
      ensures err.None? ==> rows[i].status.CancelRequested? && OnlyStatus(old(rows)[i], rows[i]) && rows[i].updatedAt == now
      ensures rows == After(old(rows), Statement.RequestCancel(i), now)
    {
      if !Cancellable(rows, i) { return Some(ErrNotFound); }
      rows := rows[i := rows[i].(status := CancelRequested, updatedAt := now)];
      return None;
    }

    /** `SELECT TOP (n)` without an order: any stale rows, as many as there are up to n. */
    method SelectStale(limit: nat, now: Time) returns (list: seq<RowId>)
      ensures forall a, b :: 0 <= a < b < |list| ==> list[a] != list[b]
      ensures forall a :: 0 <= a < |list| ==> list[a] in StaleRows(rows, now)
      ensures |list| == if limit < |StaleRows(rows, now)| then limit else |StaleRows(rows, now)|
    {
      list := [];
      ghost var all := StaleRows(rows, now);
      var left := StaleRows(rows, now);
      while left != {} && |list| < limit
        invariant left <= all && |left| + |list| == |all| && |list| <= limit
        invariant forall a, b :: 0 <= a < b < |list| ==> list[a] != list[b]
        invariant forall a :: 0 <= a < |list| ==> list[a] in all && list[a] !in left
        decreases |left|
      {
        ghost var some := Inhabited(left);
        var i :| i in left;
        list, left := list + [i], left - {i};
      }
    }

    method RecoverStale(limit: int, policy: Policy, now: Time) returns (recovered: nat, ghost picked: set<RowId>)
      modifies this
      ensures picked <= StaleRows(old(rows), now)
      ensures var most := if limit <= 0 then 100 else limit;
              recovered == |picked| == if most < |StaleRows(old(rows), now)| then most else |StaleRows(old(rows), now)|
      ensures var most := if limit <= 0 then 100 else limit;
              recovered == if most < |AllRanOut(old(rows), now)| then most else |AllRanOut(old(rows), now)|
      ensures picked <= AllRanOut(old(rows), now) && rows.Keys == old(rows).Keys
      ensures forall i {:trigger RecoveredAt(old(rows), rows, picked, policy, now, i)} ::
                i in old(rows) ==> RecoveredAt(old(rows), rows, picked, policy, now, i)
      ensures rows == After(old(rows), Statement.RecoverStale(picked, policy), now)
    {
      ghost var start := rows;
      StaleMeans(rows, now);
      var list := SelectStale(if limit <= 0 then 100 else limit, now);
      recovered, picked := RecoverEach(list, policy, now);
      RecoveryMeans(start, picked, policy, now);
    }

    /** The loop over the rows that the query returned; it counts the updates that took effect. */
    method RecoverEach(list: seq<RowId>, policy: Policy, now: Time) returns (recovered: nat, ghost picked: set<RowId>)
      requires forall a, b :: 0 <= a < b < |list| ==> list[a] != list[b]
      requires forall a :: 0 <= a < |list| ==> list[a] in StaleRows(rows, now)
      modifies this
      ensures recovered == |list| == |picked| && forall i :: i in picked <==> i in list
      ensures rows == Recovered(old(rows), picked, policy, now)
    {
      picked := {};
      ghost var start := rows;
      recovered := 0;
      for n := 0 to |list|
        invariant recovered == n == |picked| && forall i :: i in picked <==> i in list[..n]
        invariant rows == Recovered(start, picked, policy, now)
      {
        var i := list[n];
        assert i in StaleRows(start, now);
        RecoveredOneMore(start, picked, policy, now, i);
        if i in rows && IsStale(rows[i], now) {
          rows := rows[i := RecoveredRow(i, rows[i], policy, now)];
          recovered := recovered + 1;
        }
        picked := picked + {i};
      }
    }

    /** ReplayJob, and ReplayJobWithPayload when `payload` is not empty. */
    method ReplayJob(i: RowId, payload: string, now: Time) returns (err: Option<Error>)
      modifies this
      ensures err == if StoppedAt(old(rows), i) then None else Some(ErrNotFound)
      ensures err.Some? ==> rows == old(rows)
      ensures err.None? ==> OnlyRow(old(rows), rows, i) && SameJob(old(rows)[i], rows[i]) && SameToken(old(rows)[i], rows[i])
      ensures err.None? ==> forall w, g, f :: !Accepts(rows, i, w, g, f)
      ensures err.None? <==> i in old(rows) && old(rows)[i].status in {Failed, Cancelled, DeadLettered}
      ensures err.None? ==> ReplayOf(old(rows)[i], rows[i], payload, now)
      ensures err.None? ==> rows[i].lastError == old(rows)[i].lastError && rows[i].leaseUntil == old(rows)[i].leaseUntil
      ensures rows == After(old(rows), Statement.ReplayJob(i, payload), now)
    {
      if !StoppedAt(rows, i) { return Some(ErrNotFound); }
      rows := rows[i := ReplayedRow(rows[i], payload, now)];
      return None;
    }

    method SkipJob(i: RowId, now: Time) returns (err: Option<Error>)
      modifies this
      ensures err == if Skippable(old(rows), i) then None else Some(ErrNotFound)
      ensures err.Some? ==> rows == old(rows)
      ensures err.None? ==> i in rows && rows[i].status.Completed? && SameJob(old(rows)[i], rows[i]) && SameToken(old(rows)[i], rows[i])
      ensures err.None? ==> Opens(old(rows)[i := rows[i]], rows, rows[i].chain, rows[i].sequence + 1)
      ensures err.None? <==> i in old(rows) && old(rows)[i].status in {Failed, Cancelled, DeadLettered, Blocked}
      ensures err.None? ==> CompletionOf(old(rows), rows, i, now) && OnlyStatus(old(rows)[i], rows[i])
      ensures rows == After(old(rows), Statement.SkipJob(i), now)
    {
      if !Skippable(rows, i) { return Some(ErrNotFound); }
      CompletionMeans(rows, rows[i].(status := Completed, updatedAt := now), i, now);
      rows := rows[i := rows[i].(status := Completed, updatedAt := now)];
      rows := Promoted(rows, rows[i].chain, rows[i].sequence, now);
      return None;
    }

    method RescheduleJob(i: RowId, at: Time, now: Time) returns (err: Option<Error>)
      modifies this
      ensures err == if i !in old(rows) then Some(ErrNotFound)
                     else if old(rows)[i].status in {Pending, Retrying} then None else Some(ErrJobNotEligible)
      ensures err.Some? ==> rows == old(rows)
      ensures err.None? ==> OnlyRow(old(rows), rows, i) && rows[i].status == old(rows)[i].status && rows[i].updatedAt == now
      ensures err.None? ==> OnlyStatus(old(rows)[i].(availableAt := at), rows[i])
      ensures rows == After(old(rows), Statement.RescheduleJob(i, at), now)
    {
      if i in rows && CanBeClaimed(rows[i].status) {
        rows := rows[i := rows[i].(availableAt := at, updatedAt := now)];
        return None;
      }
      return Some(if i in rows then ErrJobNotEligible else ErrNotFound);
    }

    method PromoteNext(c: string, q: int, now: Time)
      modifies this
      ensures Opens(old(rows), rows, c, q + 1)
      ensures forall i :: i in rows ==> PromotedAt(old(rows), rows, c, q, now, i)
      ensures rows == After(old(rows), Statement.PromoteNext(c, q), now)
    {
      rows := Promoted(rows, c, q, now);
    }

    method BulkReplayDLQ(f: Filter, now: Time) returns (count: int)
      modifies this
      ensures count == |AllSelected(old(rows), f)| && rows.Keys == old(rows).Keys
      ensures forall i {:trigger ReplayedAt(old(rows), rows, f, now, i)} :: i in old(rows) ==> ReplayedAt(old(rows), rows, f, now, i)
      ensures rows == After(old(rows), Statement.BulkReplay(f), now)
    {
      MatchingMeans(rows, f);
      BulkReplayMeans(rows, f, now);
      count := |Matching(rows, f)|;
      rows := map i | i in rows ::
        if MatchesFilter(f, rows[i]) then ReplayedRow(rows[i], "", now).(lastError := Some(""), leaseUntil := None) else rows[i];
      assert rows == BulkReplayed(old(rows), f, now);
    }

    /** As on PostgreSQL, but this one returns how many rows it has completed. */
    method BulkSkipDLQ(f: Filter, now: Time) returns (count: int)
      modifies this
      ensures count == |AllSelected(old(rows), f)| && rows.Keys == old(rows).Keys
      ensures forall i {:trigger SkippedAt(old(rows), rows, f, now, i)} :: i in old(rows) ==> SkippedAt(old(rows), rows, f, now, i)
      ensures rows == After(old(rows), Statement.BulkSkip(f), now)
    {
      var items := Matching(rows, f);
      ghost var start := rows;
      MatchingMeans(rows, f);
      SkippedMeans(rows, f, now);
      rows := Skipped(rows, items, {}, now);
      rows := PromoteEach(start, rows, items, now);
      return |items|;
    }

    method BulkPurgeDLQ(f: Filter, now: Time) returns (count: int)
      modifies this
      ensures count == |old(rows)| - |rows| == |AllSelected(old(rows), f)| && AllSelected(rows, f) == {}
      ensures forall k :: k in old(rows) ==> (k !in rows <==> Selected(f, old(rows)[k]))
      ensures forall k :: k in rows ==> k in old(rows) && rows[k] == old(rows)[k]
      ensures rows == After(old(rows), Statement.BulkPurge(f), now)
    {
      var hit := Matching(rows, f);
      ghost var before := rows;
      MatchingMeans(rows, f);
      rows := rows - hit;
      assert before.Keys == rows.Keys + hit;
      return |hit|;
    }
  }
}

/** Runs of the SQL Server statements, sent by anyone with any token. */
module SqlServerRuns {
  import opened Wrappers
  import opened Lifecycle
  import opened Jobs
  import opened Rows
  import opened SqlServer
  import opened Lease

  /** The table, and every id ever inserted. */
  datatype State = State(rows: RowTable, used: set<RowId>)

  /** A statement and the time it reads. */
  datatype Call = Call(st: Statement, now: Time)

  /** A claim may pick any waiting row: what it reads of the predecessor is uncommitted. */
  ghost predicate Enabled(s: State, c: Call) {
    match c.st
    case Insert(i, r) => i !in s.used && (r.status.Pending? || r.status.Blocked?) && r.generation == 0 && r.worker.None?
    case Claim(_, _, i) => i in s.rows && CanBeClaimed(s.rows[i].status)
    case RecoverStale(picked, _) => picked <= StaleRows(s.rows, c.now)
    case _ => true
  }

  function Next(s: State, c: Call): State {
    State(After(s.rows, c.st, c.now), if c.st.Insert? then s.used + {c.st.id} else s.used)
  }

  ghost predicate StepAt(states: seq<State>, calls: seq<Call>, k: nat)
    requires k < |calls| && k + 1 < |states|
  {
    Enabled(states[k], calls[k]) && states[k + 1] == Next(states[k], calls[k])
  }

  ghost predicate IsRun(states: seq<State>, calls: seq<Call>) {
    && |states| == |calls| + 1
    && states[0] == State(map[], {})
    && forall k {:trigger StepAt(states, calls, k)} :: 0 <= k < |calls| ==> StepAt(states, calls, k)
  }

  lemma {:induction false} IdsAreUsed(states: seq<State>, calls: seq<Call>, k: nat)
    requires IsRun(states, calls) && k < |states|
    ensures states[k].rows.Keys <= states[k].used
  {
    if k > 0 {
      IdsAreUsed(states, calls, k - 1);
      assert StepAt(states, calls, k - 1);
    }
  }

  // ---------------------------------------------------------------- fencing

  /** A claim and a recovery raise the generation by one; no other statement touches
      worker and generation of a row it keeps. */
  lemma TokensMove(s: State, c: Call, i: RowId)
    requires Enabled(s, c) && s.rows.Keys <= s.used && i in s.rows && i in Next(s, c).rows
    ensures var r, r2 := s.rows[i], Next(s, c).rows[i];
            if (c.st.Claim? && c.st.pick == i) || (c.st.RecoverStale? && i in c.st.picked)
            then r2.generation == r.generation + 1
            else SameToken(r, r2)
  {
  }

  /** Generation `g` of row `i` is in the past: the row has a later one, or is gone. */
  ghost predicate Outdated(s: State, i: RowId, g: int) {
    i in s.used && (i in s.rows ==> s.rows[i].generation > g)
  }

  lemma {:induction false} OutdatedForever(states: seq<State>, calls: seq<Call>, a: nat, b: nat, i: RowId, g: int)
    requires IsRun(states, calls) && a <= b < |states| && Outdated(states[a], i, g)
    ensures Outdated(states[b], i, g)
    decreases b
  {
    if a < b {
      OutdatedForever(states, calls, a, b - 1, i, g);
      IdsAreUsed(states, calls, b - 1);
      assert StepAt(states, calls, b - 1);
      if i in states[b - 1].rows && i in states[b].rows { TokensMove(states[b - 1], calls[b - 1], i); }
    }
  }

  /** Recovery fences: once a stale row has been recovered, every call with the token of
      its old worker is refused without effect, at once and for ever, whatever the
      statuses are and whether or not the row is claimed again. */
  lemma RecoveredTokenRefused(states: seq<State>, calls: seq<Call>, a: nat, b: nat, i: RowId, w: string, g: int, f: Fenced, now: Time)
    requires IsRun(states, calls) && a < b < |states|
    requires calls[a].st.RecoverStale? && i in calls[a].st.picked && i in states[a].rows
    requires states[a].rows[i].generation >= g
    ensures !Accepts(states[b].rows, i, w, g, f)
    ensures Next(states[b], Call(Finish(i, w, g, f), now)) == states[b]
  {
    IdsAreUsed(states, calls, a);
    assert StepAt(states, calls, a);
    TokensMove(states[a], calls[a], i);
    assert Outdated(states[a + 1], i, g);
    OutdatedForever(states, calls, a + 1, b, i, g);
  }

  // ---------------------------------------------------------------- live workers

  /** A claim of row `i`, or a heartbeat that its worker's token carries through. */
  predicate Beats(s: State, c: Call, i: RowId) {
    || (c.st.Claim? && c.st.pick == i)
    || (c.st.Finish? && c.st.id == i && c.st.f.Heartbeat? && Accepts(s.rows, i, c.st.worker, c.st.generation, c.st.f))
  }

  function LeaseOf(c: Call): Duration {
    match c.st
    case Claim(_, lease, _) => lease
    case Finish(_, _, _, Heartbeat(lease)) => lease
    case _ => 0
  }

  /** The calls that end the work on row `i`: its own worker's, and a cancel request. */
  predicate Ends(s: State, c: Call, i: RowId) {
    || (c.st.Finish? && c.st.id == i && !c.st.f.Heartbeat? && Accepts(s.rows, i, c.st.worker, c.st.generation, c.st.f))
    || (c.st.RequestCancel? && c.st.id == i)
  }

  /** The last beat of row `i` before call `m`, in a stretch that starts with one at `a`. */
  ghost function LastBeat(states: seq<State>, calls: seq<Call>, i: RowId, a: nat, m: nat): (l: nat)
    requires a < m <= |calls| < |states|
    ensures a <= l < m
    decreases m
  {
    if m == a + 1 then a
    else if Beats(states[m - 1], calls[m - 1], i) then m - 1
    else LastBeat(states, calls, i, a, m - 1)
  }

  /** Call `m` comes at most one heartbeat interval after the last beat of row `i`. */
  ghost predicate Punctual(states: seq<State>, calls: seq<Call>, i: RowId, a: nat, m: nat, lease: Duration)
    requires a < m < |calls| < |states|
  {
    calls[m].now <= calls[LastBeat(states, calls, i, a, m)].now + New(lease).heartbeat
  }

  /** Before call `m` row `i` has a punctual worker; the call does not end its work, and
      asks for the lease if it is a beat. */
  ghost predicate Attended(states: seq<State>, calls: seq<Call>, i: RowId, a: nat, m: nat, lease: Duration)
    requires a < m < |calls| < |states|
  {
    && Punctual(states, calls, i, a, m, lease) && !Ends(states[m], calls[m], i)
    && (Beats(states[m], calls[m], i) ==> LeaseOf(calls[m]) == New(lease).leaseDuration)
  }

  /** While its lease lasts, a row in processing leaves it exactly by a call that ends the work. */
  lemma LiveStep(s: State, c: Call, i: RowId)
    requires Enabled(s, c) && s.rows.Keys <= s.used && i in s.rows && s.rows[i].status.Processing?
    requires s.rows[i].leaseUntil.Some? && c.now <= s.rows[i].leaseUntil.value
    ensures i in Next(s, c).rows
    ensures Next(s, c).rows[i].status.Processing? <==> !Ends(s, c, i)
    ensures SameToken(s.rows[i], Next(s, c).rows[i])
    ensures !Ends(s, c, i) ==> Next(s, c).rows[i].leaseUntil ==
                               if Beats(s, c, i) then Some(c.now + InSeconds(LeaseOf(c))) else s.rows[i].leaseUntil
  {
  }

  /** Row `i` is in processing under the token of `t`, leased until `until`. */
  ghost predicate Works(s: State, i: RowId, t: Row, until: Time) {
    i in s.rows && s.rows[i].status.Processing? && SameToken(t, s.rows[i]) && s.rows[i].leaseUntil == Some(until)
  }

  /** A beat leaves the row in processing, under the lease it asked for. */
  lemma BeatHolds(s: State, c: Call, s2: State, i: RowId)
    requires Enabled(s, c) && s2 == Next(s, c) && Beats(s, c, i)
    ensures i in s2.rows && Works(s2, i, s2.rows[i], c.now + InSeconds(LeaseOf(c)))
  {
  }

  lemma LiveOn(s: State, c: Call, s2: State, i: RowId, t: Row, until: Time)
    requires s.rows.Keys <= s.used && Enabled(s, c) && s2 == Next(s, c)
    requires Works(s, i, t, until) && c.now <= until && !Ends(s, c, i)
    ensures Works(s2, i, t, if Beats(s, c, i) then c.now + InSeconds(LeaseOf(c)) else until)
  {
    LiveStep(s, c, i);
  }

  /** A live worker is never recovered on SQL Server either: see `PostgresLeases.LiveRowKept`. */
  lemma {:induction false} LiveRowKept(states: seq<State>, calls: seq<Call>, a: nat, b: nat, i: RowId, lease: Duration)
    requires IsRun(states, calls) && a < b < |states| && Beats(states[a], calls[a], i)
    requires LeaseOf(calls[a]) == New(lease).leaseDuration
    requires forall m {:trigger Attended(states, calls, i, a, m, lease)} :: a < m < b ==> Attended(states, calls, i, a, m, lease)
    ensures i in states[a + 1].rows
    ensures Works(states[b], i, states[a + 1].rows[i],
                  calls[LastBeat(states, calls, i, a, b)].now + InSeconds(New(lease).leaseDuration))
    ensures b < |calls| && Punctual(states, calls, i, a, b, lease) ==> i !in StaleRows(states[b].rows, calls[b].now)
    decreases b
  {
    HeartbeatFits(lease);
    assert StepAt(states, calls, b - 1);
    if b == a + 1 {
      BeatHolds(states[a], calls[a], states[b], i);
    } else {
      LiveRowKept(states, calls, a, b - 1, i, lease);
      IdsAreUsed(states, calls, b - 1);
      assert Attended(states, calls, i, a, b - 1, lease);
      LiveOn(states[b - 1], calls[b - 1], states[b], i, states[a + 1].rows[i],
             calls[LastBeat(states, calls, i, a, b - 1)].now + InSeconds(New(lease).leaseDuration));
    }
  }
}
