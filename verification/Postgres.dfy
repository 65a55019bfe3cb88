/** The PostgreSQL repository (repository/postgres/repository.go): its statements as
    guarded updates of rows. Each method is one transaction in the source, so it is
    one atomic step here. `now` is the NOW() of that transaction. */
module Postgres {
  import opened Wrappers
  import opened Lifecycle
  import opened Jobs
  import opened Rows
  import opened Collections
  import opened RowEffects
  import Lease

  // ---------------------------------------------------------------- what the statements mean

  /** First of its chain, or behind a finished row. */
  predicate Front(rows: RowTable, i: RowId)
    requires i in rows
  {
    rows[i].sequence == 1 || HasFinishedAt(rows, rows[i].chain, rows[i].sequence - 1)
  }

  /** The WHERE clause of the claim. It does not ask whether the chain is busy. */
  predicate Eligible(rows: RowTable, i: RowId, now: Time)
    requires i in rows
  {
    CanBeClaimed(rows[i].status) && rows[i].availableAt <= now && Front(rows, i)
  }

  function Candidates(rows: RowTable, now: Time): set<RowId> {
    set i | i in rows && Eligible(rows, i, now)
  }

  predicate NoLater(a: Row, b: Row) {
    a.availableAt < b.availableAt || (a.availableAt == b.availableAt && a.createdAt <= b.createdAt)
  }

  predicate FirstOf(rows: RowTable, s: set<RowId>, i: RowId)
    requires s <= rows.Keys
  {
    i in s && forall k :: k in s ==> NoLater(rows[i], rows[k])
  }

  function FailedRow(r: Row, msg: string, terminal: bool, now: Time): Row {
    r.(status := if terminal && r.mode.DeadLetterAndContinue? then DeadLettered else Failed,
       failedAt := Some(now), updatedAt := now, lastError := Some(msg), leaseUntil := None)
  }

  function RetriedRow(r: Row, msg: string, next: Time, now: Time): Row {
    r.(status := Retrying, availableAt := next, updatedAt := now, lastError := Some(msg), leaseUntil := None)
  }

  function RecoveredRow(i: RowId, r: Row, p: Policy, now: Time): Row {
    var delay := if p.None? then SECOND else p.value(r.attempt, i);
    RetriedRow(r, "stale lease recovered", now + delay, now)
  }

  function ReplayedRow(r: Row, payload: string, error: Option<string>, now: Time): Row {
    r.(payload := if payload == "" then r.payload else payload,
       status := Pending, attempt := 0, lastError := error, availableAt := now, updatedAt := now, leaseUntil := None)
  }

  function CompletedAndPromoted(rows: RowTable, i: RowId, now: Time): RowTable
    requires i in rows
  {
    Promoted(rows[i := CompletedRow(rows[i], now)], rows[i].chain, rows[i].sequence, now)
  }

  /** What an UPDATE of many rows does to each. */
  datatype Edit = Completion(now: Time) | Replaying(now: Time) | Recovery(policy: Policy, now: Time) {
    function Of(i: RowId, r: Row): Row {
      match this
      case Completion(_) => CompletedRow(r, now)
      case Replaying(_) => ReplayedRow(r, "", Some(""), now)
      case Recovery(_, _) => RecoveredRow(i, r, policy, now)
    }
  }

  function Updated(rows: RowTable, hit: set<RowId>, e: Edit): RowTable {
    map i | i in rows :: if i in hit then e.Of(i, rows[i]) else rows[i]
  }

  lemma UpdatedOneMore(rows: RowTable, hit: set<RowId>, e: Edit, i: RowId)
    requires i in rows && i !in hit
    ensures Updated(rows, hit, e)[i] == rows[i]
    ensures Updated(rows, hit + {i}, e) == Updated(rows, hit, e)[i := e.Of(i, rows[i])]
  {
  }

  /** The statements after which something may have changed, and who may have sent
      them: any worker, with any generation, at any time. */
  datatype Statement =
    | Insert(id: RowId, row: Row)
    | Claim(worker: string, lease: Duration, pick: Option<RowId>)
    | Complete(id: RowId, worker: string, generation: int)
    | Fail(id: RowId, worker: string, generation: int, msg: string, terminal: bool)
    | Retry(id: RowId, worker: string, generation: int, msg: string, next: Time)
    | Heartbeat(id: RowId, worker: string, generation: int, lease: Duration)
    | RequestCancel(id: RowId)
    | ConfirmCancel(id: RowId, worker: string, generation: int)
    | RecoverStale(picked: set<RowId>, policy: Policy)
    | PromoteNext(chain: string, sequence: int)
    | ReplayJob(id: RowId, payload: string)
    | SkipJob(id: RowId)
    | RescheduleJob(id: RowId, at: Time)
    | BulkReplay(f: Filter)
    | BulkSkip(f: Filter)
    | BulkPurge(f: Filter)

  /** ConfirmCancel alone does not look at the status. */
  predicate CancelHits(rows: RowTable, i: RowId, w: string, g: int) {
    i in rows && rows[i].worker == Some(w) && rows[i].generation == g
  }

  /** The guard of RequestCancel. */
  predicate Cancellable(rows: RowTable, i: RowId) {
    i in rows && (CanBeClaimed(rows[i].status) || rows[i].status.Blocked? || rows[i].status.Processing?)
  }

  predicate StoppedAt(rows: RowTable, i: RowId) {
    i in rows && Stopped(rows[i].status)
  }

  lemma NothingSkipped(rows: RowTable, hit: set<RowId>, now: Time)
    ensures Updated(rows, hit, Completion(now)) == Skipped(rows, hit, {}, now)
  {
  }

  /** The rows after a statement. */
  function After(rows: RowTable, st: Statement, now: Time): RowTable {
    match st
    case Insert(i, r) => rows[i := r]
    case Claim(w, lease, pick) =>
      if pick.Some? && pick.value in rows then rows[pick.value := ClaimedRow(rows[pick.value], w, lease, now)] else rows
    case Complete(i, w, g) => if Hits(rows, i, w, g) then CompletedAndPromoted(rows, i, now) else rows
    case Fail(i, w, g, msg, terminal) => if Hits(rows, i, w, g) then rows[i := FailedRow(rows[i], msg, terminal, now)] else rows
    case Retry(i, w, g, msg, next) => if Hits(rows, i, w, g) then rows[i := RetriedRow(rows[i], msg, next, now)] else rows
    case Heartbeat(i, w, g, lease) =>
      if Hits(rows, i, w, g) then rows[i := rows[i].(leaseUntil := Some(now + Lease.InSeconds(lease)), updatedAt := now)] else rows
    case RequestCancel(i) =>
      if Cancellable(rows, i) then rows[i := rows[i].(status := CancelRequested, updatedAt := now)] else rows
    case ConfirmCancel(i, w, g) =>
      if CancelHits(rows, i, w, g) then rows[i := rows[i].(status := Cancelled, updatedAt := now, leaseUntil := None)] else rows
    case RecoverStale(picked, p) => Updated(rows, picked, Recovery(p, now))
    case PromoteNext(c, q) => Promoted(rows, c, q, now)
    case ReplayJob(i, payload) => if StoppedAt(rows, i) then rows[i := ReplayedRow(rows[i], payload, None, now)] else rows
    case SkipJob(i) => if StoppedAt(rows, i) then CompletedAndPromoted(rows, i, now) else rows
    case RescheduleJob(i, at) =>
      if i in rows && CanBeClaimed(rows[i].status) then rows[i := rows[i].(availableAt := at, updatedAt := now)] else rows
    case BulkReplay(f) => Updated(rows, Matching(rows, f), Replaying(now))
    case BulkSkip(f) => Skipped(rows, Matching(rows, f), Matching(rows, f), now)
    case BulkPurge(f) => rows - Matching(rows, f)
  }

  // ---------------------------------------------------------------- the methods

  /** Rewriting a row does not change whether it is in front. */
  lemma FrontStays(before: RowTable, after: RowTable, i: RowId)
    requires i in before && OnlyRow(before, after, i) && SameJob(before[i], after[i])
    ensures Front(after, i) <==> Front(before, i)
  {
    var c, q := before[i].chain, before[i].sequence - 1;
    forall p | p in before && before[p].chain == c && before[p].sequence == q ensures after[p] == before[p] {}
    forall p | p in after && after[p].chain == c && after[p].sequence == q ensures after[p] == before[p] {}
  }

  /** Row `i` alone was written, it is the same job under the same token, and no worker holds it any more. */
  ghost predicate Released(before: RowTable, after: RowTable, i: RowId) {
    && i in before && OnlyRow(before, after, i) && SameJob(before[i], after[i]) && SameToken(before[i], after[i])
    && forall w, g :: !Hits(after, i, w, g)
  }

  /** Row `i` waits for the time `next`, and for its turn. */
  ghost predicate WaitsFor(before: RowTable, after: RowTable, i: RowId, next: Time)
    requires i in before
  {
    forall at {:trigger Candidates(after, at)} :: i in Candidates(after, at) <==> at >= next && Front(before, i)
  }

  lemma WaitsForIs(before: RowTable, after: RowTable, i: RowId, next: Time)
    requires i in before && OnlyRow(before, after, i) && SameJob(before[i], after[i])
    requires CanBeClaimed(after[i].status) && after[i].availableAt == next
    ensures WaitsFor(before, after, i, next)
  {
    FrontStays(before, after, i);
  }

  /** An opened row adds itself to the candidates and takes nobody's place. */
  lemma OpeningAddsCandidates(before: RowTable, after: RowTable, c: string, q: int, at: Time)
    requires Opens(before, after, c, q)
    ensures Candidates(before, at) <= Candidates(after, at)
  {
    forall i | i in Candidates(before, at) ensures i in Candidates(after, at) {
      if before[i].sequence != 1 {
        var p :| p in before && before[p].chain == before[i].chain && before[p].sequence == before[i].sequence - 1
                 && Finished(before[p].status, before[p].mode);
        assert after[p] == before[p];
      }
    }
  }

  lemma {:induction false} FirstExists(rows: RowTable, s: set<RowId>) returns (i: RowId)
    requires s != {} && s <= rows.Keys
    ensures FirstOf(rows, s, i)
    decreases |s|
  {
    i :| i in s;
    var j, rest := i, s - {i};
    if rest != {} {
      var k: RowId := FirstExists(rows, rest);
      if NoLater(rows[k], rows[i]) { i := k; }
    }
    forall l | l in s ensures NoLater(rows[i], rows[l]) {
      assert l != j ==> l in rest;
    }
  }

  predicate OldestOf(rows: RowTable, s: set<RowId>, i: RowId)
    requires forall k :: k in s ==> k in rows && rows[k].leaseUntil.Some?
  {
    i in s && forall k :: k in s ==> rows[i].leaseUntil.value <= rows[k].leaseUntil.value
  }

  lemma {:induction false} OldestExists(rows: RowTable, s: set<RowId>) returns (i: RowId)
    requires s != {} && forall k :: k in s ==> k in rows && rows[k].leaseUntil.Some?
    ensures OldestOf(rows, s, i)
    decreases |s|
  {
    i :| i in s;
    var j, rest := i, s - {i};
    if rest != {} {
      var k: RowId := OldestExists(rows, rest);
      if rows[k].leaseUntil.value <= rows[i].leaseUntil.value { i := k; }
    }
    forall l | l in s ensures rows[i].leaseUntil.value <= rows[l].leaseUntil.value {
      assert l != j ==> l in rest;
    }
  }

  lemma CandidatesMean(rows: RowTable, now: Time)
    ensures forall k {:trigger Ready(rows, k, now)} :: k in Candidates(rows, now) <==> Ready(rows, k, now)
  {
    forall k ensures k in Candidates(rows, now) <==> Ready(rows, k, now) {
      if k in rows { TurnMeans(rows, k); }
    }
  }

  lemma FirstMeans(rows: RowTable, i: RowId, now: Time)
    requires FirstOf(rows, Candidates(rows, now), i)
    ensures FirstReady(rows, i, now)
  {
    CandidatesMean(rows, now);
    forall k | Ready(rows, k, now)
      ensures rows[i].availableAt <= rows[k].availableAt
      ensures rows[i].availableAt == rows[k].availableAt ==> rows[i].createdAt <= rows[k].createdAt
    {
      assert k in Candidates(rows, now);
    }
    assert Ready(rows, i, now);
  }

  /** How long a recovered row waits: one second without a policy, else the policy's answer
      for the attempts it has had. */
  function Wait(p: Policy, i: RowId, r: Row): Duration {
    match p
    case None => 1_000_000_000
    case Some(answer) => answer(r.attempt, i)
  }

  /** Row `i` after a recovery of the picked rows. */
  predicate RecoveredAt(rows: RowTable, after: RowTable, picked: set<RowId>, p: Policy, now: Time, i: RowId)
    requires i in rows && i in after
  {
    if i in picked
    then RetryOf(rows[i], after[i], "stale lease recovered", now + Wait(p, i, rows[i]), now) && after[i].leaseUntil == None
    else after[i] == rows[i]
  }

  lemma RecoveryMeans(rows: RowTable, picked: set<RowId>, p: Policy, now: Time)
    ensures var after := Updated(rows, picked, Recovery(p, now));
            && after.Keys == rows.Keys
            && forall i {:trigger RecoveredAt(rows, after, picked, p, now, i)} :: i in rows ==> RecoveredAt(rows, after, picked, p, now, i)
  {
  }

  /** A recovered row is a candidate exactly from the end of its wait on, in its turn. */
  lemma RecoveredWaits(rows: RowTable, picked: set<RowId>, p: Policy, now: Time, i: RowId, at: Time)
    requires picked <= StaleRows(rows, now) && i in picked
    ensures var after := Updated(rows, picked, Recovery(p, now));
            Ready(after, i, at) <==> at >= now + Wait(p, i, rows[i]) && HasTurn(rows, i)
  {
    var after := Updated(rows, picked, Recovery(p, now));
    assert i in StaleRows(rows, now);
    forall q | q in rows ensures LetsGo(after, q, i) <==> LetsGo(rows, q, i) {
      if q in picked { assert q in StaleRows(rows, now); }
    }
  }

  class Repository {
    var rows: RowTable

    constructor ()
      ensures rows == map[]
    {
      rows := map[];
    }

    method Claim(worker: string, lease: Duration, now: Time) returns (r: Result<RowId, Error>)
      modifies this
      ensures r.Failure? <==> Candidates(old(rows), now) == {}
      ensures r.Failure? ==> r.error == ErrNotFound
      ensures r.Success? ==> FirstOf(old(rows), Candidates(old(rows), now), r.value)
      ensures r.Failure? <==> forall k {:trigger Ready(old(rows), k, now)} :: !Ready(old(rows), k, now)
      ensures r.Success? ==> FirstReady(old(rows), r.value, now) && OnlyRow(old(rows), rows, r.value)
      ensures r.Success? ==> ClaimOf(old(rows)[r.value], rows[r.value], worker, lease, now)
      ensures rows == After(old(rows), Statement.Claim(worker, lease, if r.Success? then Some(r.value) else None), now)
    {
      var candidates := Candidates(rows, now);
      CandidatesMean(rows, now);
      if candidates == {} { return Failure(ErrNotFound); }
      ghost var first := FirstExists(rows, candidates);
      var i :| i in candidates && FirstOf(rows, candidates, i);
      FirstMeans(rows, i, now);
      ClaimedMeans(rows[i], worker, lease, now);
      rows := rows[i := ClaimedRow(rows[i], worker, lease, now)];
      return Success(i);
    }

    method Complete(i: RowId, worker: string, generation: int, now: Time) returns (err: Option<Error>)
      modifies this
      ensures err == if Hits(old(rows), i, worker, generation) then None else Some(ErrLeaseConflict)
      ensures err.Some? ==> rows == old(rows)
      ensures err.None? ==> CompletionOf(old(rows), rows, i, now) && DoneOf(old(rows)[i], rows[i], now)
      ensures rows == After(old(rows), Statement.Complete(i, worker, generation), now)
    {
      if !(i in rows && Held(rows[i], worker, generation)) { return Some(ErrLeaseConflict); }
      CompletedMeans(rows[i], now);
      CompletionMeans(rows, CompletedRow(rows[i], now), i, now);
      rows := rows[i := CompletedRow(rows[i], now)];
      var c, q := rows[i].chain, rows[i].sequence;
      rows := Promoted(rows, c, q, now);
      return None;
    }

    method Fail(i: RowId, worker: string, generation: int, msg: string, terminal: bool, now: Time) returns (err: Option<Error>)
      modifies this
      ensures err == if Hits(old(rows), i, worker, generation) then None else Some(ErrLeaseConflict)
      ensures err.Some? ==> rows == old(rows)
      ensures err.None? ==> Released(old(rows), rows, i) && FailureOf(old(rows)[i], rows[i], msg, terminal, now) && rows[i].leaseUntil == None
      ensures rows == After(old(rows), Statement.Fail(i, worker, generation, msg, terminal), now)
    {
      var status := Failed;
      if terminal {
        var mode := if i in rows then rows[i].mode else Unset;
        if mode.DeadLetterAndContinue? { status := DeadLettered; }
      }
      if !(i in rows && Held(rows[i], worker, generation)) { return Some(ErrLeaseConflict); }
      rows := rows[i := rows[i].(status := status, failedAt := Some(now), updatedAt := now, lastError := Some(msg), leaseUntil := None)];
      return None;
    }

    method Retry(i: RowId, worker: string, generation: int, msg: string, next: Time, now: Time) returns (err: Option<Error>)
      modifies this
      ensures err == if Hits(old(rows), i, worker, generation) then None else Some(ErrLeaseConflict)
      ensures err.Some? ==> rows == old(rows)
      ensures err.None? ==> Released(old(rows), rows, i) && WaitsFor(old(rows), rows, i, next)
      ensures err.None? ==> RetryOf(old(rows)[i], rows[i], msg, next, now) && rows[i].leaseUntil == None
      ensures rows == After(old(rows), Statement.Retry(i, worker, generation, msg, next), now)
    {
      if !(i in rows && Held(rows[i], worker, generation)) { return Some(ErrLeaseConflict); }
      ghost var before := rows;
      rows := rows[i := RetriedRow(rows[i], msg, next, now)];
      WaitsForIs(before, rows, i, next);
      return None;
    }

    method Heartbeat(i: RowId, worker: string, generation: int, lease: Duration, now: Time) returns (err: Option<Error>)
      modifies this
      ensures err == if Hits(old(rows), i, worker, generation) then None else Some(ErrLeaseConflict)
      ensures err.Some? ==> rows == old(rows)
      ensures err.None? ==> OnlyRow(old(rows), rows, i) && SameJob(old(rows)[i], rows[i]) && Hits(rows, i, worker, generation)
      ensures err.None? ==> OnlyStatus(old(rows)[i].(leaseUntil := rows[i].leaseUntil), rows[i]) && rows[i].updatedAt == now
      ensures err.None? ==> forall at :: RanOut(rows[i], at) <==> at > now + Lease.InSeconds(lease)
      ensures err.None? ==> forall at :: i in StaleRows(rows, at) <==> at > now + Lease.InSeconds(lease)
      ensures rows == After(old(rows), Statement.Heartbeat(i, worker, generation, lease), now)
    {
      if !(i in rows && Held(rows[i], worker, generation)) { return Some(ErrLeaseConflict); }
      rows := rows[i := rows[i].(leaseUntil := Some(now + Lease.InSeconds(lease)), updatedAt := now)];
      return None;
    }

    /** Unlike the in-memory repository, this one takes a job in processing from its worker. */
    method RequestCancel(i: RowId, now: Time)
      modifies this
      ensures i in old(rows) && old(rows)[i].status in {Pending, Retrying, Blocked, Processing} <==> Cancellable(old(rows), i)
      ensures !Cancellable(old(rows), i) ==> rows == old(rows)
      ensures Cancellable(old(rows), i) ==> Released(old(rows), rows, i) && !StoppedAt(rows, i)
      ensures Cancellable(old(rows), i) ==> rows[i].status.CancelRequested? && OnlyStatus(old(rows)[i], rows[i]) && rows[i].updatedAt == now
      ensures Cancellable(old(rows), i) ==> forall at :: i !in Candidates(rows, at) && i !in StaleRows(rows, at)
      ensures rows == After(old(rows), Statement.RequestCancel(i), now)
    {
      if i in rows && (CanBeClaimed(rows[i].status) || rows[i].status.Blocked? || rows[i].status.Processing?) {
        rows := rows[i := rows[i].(status := CancelRequested, updatedAt := now)];
      }
    }

    method ConfirmCancel(i: RowId, worker: string, generation: int, now: Time) returns (err: Option<Error>)
      modifies this
      ensures err == if CancelHits(old(rows), i, worker, generation) then None else Some(ErrLeaseConflict)
      ensures err.Some? ==> rows == old(rows)
      ensures err.None? ==> Released(old(rows), rows, i) && StoppedAt(rows, i) && !Finished(rows[i].status, rows[i].mode)
      ensures err.None? ==> rows[i].status.Cancelled? && rows[i].leaseUntil == None && rows[i].updatedAt == now
      ensures err.None? ==> OnlyStatus(old(rows)[i].(leaseUntil := None), rows[i])
      ensures err.None? <==> i in old(rows) && old(rows)[i].worker == Some(worker) && old(rows)[i].generation == generation
      ensures rows == After(old(rows), Statement.ConfirmCancel(i, worker, generation), now)
    {
      if !(i in rows && rows[i].worker == Some(worker) && rows[i].generation == generation) { return Some(ErrLeaseConflict); }
      rows := rows[i := rows[i].(status := Cancelled, updatedAt := now, leaseUntil := None)];
      return None;
    }

    /** `SELECT ... ORDER BY lease_until LIMIT n` over the stale rows. */
    method SelectStale(limit: nat, now: Time) returns (list: seq<RowId>)
      ensures forall a, b :: 0 <= a < b < |list| ==> list[a] != list[b]
      ensures forall a :: 0 <= a < |list| ==> list[a] in StaleRows(rows, now)
      ensures |list| == if limit < |StaleRows(rows, now)| then limit else |StaleRows(rows, now)|
      ensures forall a, k :: 0 <= a < |list| && k in StaleRows(rows, now) && k !in list ==>
                rows[list[a]].leaseUntil.value <= rows[k].leaseUntil.value
    {
      list := [];
      ghost var all := StaleRows(rows, now);
      var left := StaleRows(rows, now);
      while left != {} && |list| < limit
        invariant left <= all && |left| + |list| == |all| && |list| <= limit
        invariant forall a, b :: 0 <= a < b < |list| ==> list[a] != list[b]
        invariant forall k :: k in all ==> (k in left <==> k !in list)
        invariant forall a :: 0 <= a < |list| ==> list[a] in all
        invariant forall a, k :: 0 <= a < |list| && k in left ==> rows[list[a]].leaseUntil.value <= rows[k].leaseUntil.value
        decreases |left|
      {
        ghost var oldest := OldestExists(rows, left);
        var i :| i in left && OldestOf(rows, left, i);
        assert OldestOf(rows, left, i);
        list, left := list + [i], left - {i};
      }
    }

    method RecoverStale(limit: int, policy: Policy, now: Time) returns (r: Option<nat>, ghost picked: set<RowId>)
      modifies this
      ensures r.None? <==> limit < 0
      ensures r.Some? ==> r.value == |picked| == if limit < |StaleRows(old(rows), now)| then limit else |StaleRows(old(rows), now)|
      ensures picked <= StaleRows(old(rows), now)
      ensures forall i, k :: i in picked && k in StaleRows(old(rows), now) - picked ==>
                old(rows)[i].leaseUntil.value <= old(rows)[k].leaseUntil.value
      ensures r.Some? ==> r.value == if limit < |AllRanOut(old(rows), now)| then limit else |AllRanOut(old(rows), now)|
      ensures picked <= AllRanOut(old(rows), now) && rows.Keys == old(rows).Keys
      ensures forall i {:trigger RecoveredAt(old(rows), rows, picked, policy, now, i)} ::
                i in old(rows) ==> RecoveredAt(old(rows), rows, picked, policy, now, i)
      ensures forall i, at {:trigger Ready(rows, i, at)} ::
                i in picked ==> (Ready(rows, i, at) <==> at >= now + Wait(policy, i, old(rows)[i]) && HasTurn(old(rows), i))
      ensures rows == After(old(rows), Statement.RecoverStale(picked, policy), now)
    {
      ghost var start := rows;
      StaleMeans(start, now);
      picked := {};
      RecoveryMeans(start, picked, policy, now);
      if limit < 0 { return None, picked; }  // the server refuses a negative LIMIT
      var list := SelectStale(limit, now);
      var recovered;
      recovered, picked := RecoverEach(list, policy, now);
      RecoveryMeans(start, picked, policy, now);
      forall i, at | i in picked
        ensures Ready(rows, i, at) <==> at >= now + Wait(policy, i, start[i]) && HasTurn(start, i)
      {
        RecoveredWaits(start, picked, policy, now, i, at);
      }
      r := Some(recovered);
    }

    /** The loop over the rows that the query returned. */
    method RecoverEach(list: seq<RowId>, policy: Policy, now: Time) returns (recovered: nat, ghost picked: set<RowId>)
      requires forall a, b :: 0 <= a < b < |list| ==> list[a] != list[b]
      requires forall a :: 0 <= a < |list| ==> list[a] in StaleRows(rows, now)
      modifies this
      ensures recovered == |list| == |picked| && forall i :: i in picked <==> i in list
      ensures rows == Updated(old(rows), picked, Recovery(policy, now))
    {
      picked := {};
      ghost var start, e := rows, Recovery(policy, now);
      recovered := 0;
      for n := 0 to |list|
        invariant recovered == n == |picked| && forall i :: i in picked <==> i in list[..n]
        invariant rows == Updated(start, picked, e)
      {
        var i := list[n];
        assert i in StaleRows(start, now);
        UpdatedOneMore(start, picked, e, i);
        if i in rows && IsStale(rows[i], now) {
          rows := rows[i := RecoveredRow(i, rows[i], policy, now)];
        }
        recovered := recovered + 1;
        picked := picked + {i};
      }
    }

    method PromoteNext(c: string, q: int, now: Time)
      modifies this
      ensures Opens(old(rows), rows, c, q + 1)
      ensures forall i :: i in rows ==> PromotedAt(old(rows), rows, c, q, now, i)
      ensures forall at :: Candidates(old(rows), at) <= Candidates(rows, at)
      ensures rows == After(old(rows), Statement.PromoteNext(c, q), now)
    {
      ghost var before := rows;
      rows := Promoted(rows, c, q, now);
      forall at ensures Candidates(before, at) <= Candidates(rows, at) { OpeningAddsCandidates(before, rows, c, q + 1, at); }
    }

    /** ReplayJob, and ReplayJobWithPayload when `payload` is not empty. */
    method ReplayJob(i: RowId, payload: string, now: Time) returns (err: Option<Error>)
      modifies this
      ensures err == if StoppedAt(old(rows), i) then None else Some(ErrNotFound)
      ensures err.Some? ==> rows == old(rows)
      ensures err.None? ==> Released(old(rows), rows, i) && WaitsFor(old(rows), rows, i, now) && !StoppedAt(rows, i)
      ensures err.None? ==> ReplayOf(old(rows)[i], rows[i], payload, now) && rows[i].lastError == None && rows[i].leaseUntil == None
      ensures err.None? <==> i in old(rows) && old(rows)[i].status in {Failed, Cancelled, DeadLettered}
      ensures rows == After(old(rows), Statement.ReplayJob(i, payload), now)
    {
      if !(i in rows && Stopped(rows[i].status)) { return Some(ErrNotFound); }
      ghost var before := rows;
      rows := rows[i := ReplayedRow(rows[i], payload, None, now)];
      WaitsForIs(before, rows, i, now);
      return None;
    }

    method SkipJob(i: RowId, now: Time) returns (err: Option<Error>)
      modifies this
      ensures err == if StoppedAt(old(rows), i) then None else Some(ErrNotFound)
      ensures err.None? ==> i in rows && rows[i].status.Completed? && SameJob(old(rows)[i], rows[i]) && SameToken(old(rows)[i], rows[i])
      ensures err.None? ==> Opens(old(rows)[i := rows[i]], rows, rows[i].chain, rows[i].sequence + 1)
      ensures err.None? <==> i in old(rows) && old(rows)[i].status in {Failed, Cancelled, DeadLettered}
      ensures err.None? ==> CompletionOf(old(rows), rows, i, now) && DoneOf(old(rows)[i], rows[i], now)
      ensures rows == After(old(rows), Statement.SkipJob(i), now)
    {
      if !(i in rows && Stopped(rows[i].status)) { return Some(ErrNotFound); }
      CompletedMeans(rows[i], now);
      CompletionMeans(rows, CompletedRow(rows[i], now), i, now);
      rows := rows[i := CompletedRow(rows[i], now)];
      rows := Promoted(rows, rows[i].chain, rows[i].sequence, now);
      return None;
    }

    method RescheduleJob(i: RowId, at: Time, now: Time) returns (err: Option<Error>)
      modifies this
      ensures err == if i !in old(rows) then Some(ErrNotFound)
                     else if CanBeClaimed(old(rows)[i].status) then None else Some(ErrJobNotEligible)
      ensures err.Some? ==> rows == old(rows)
      ensures err.None? ==> Released(old(rows), rows, i) && WaitsFor(old(rows), rows, i, at)
      ensures err.None? ==> rows[i].status == old(rows)[i].status && rows[i].updatedAt == now
      ensures err.None? ==> OnlyStatus(old(rows)[i].(availableAt := at), rows[i])
      ensures err.None? <==> i in old(rows) && old(rows)[i].status in {Pending, Retrying}
      ensures rows == After(old(rows), Statement.RescheduleJob(i, at), now)
    {
      if i in rows && CanBeClaimed(rows[i].status) {
        ghost var before := rows;
        rows := rows[i := rows[i].(availableAt := at, updatedAt := now)];
        WaitsForIs(before, rows, i, at);
        return None;
      }
      return Some(if i in rows then ErrJobNotEligible else ErrNotFound);
    }

    method BulkReplayDLQ(f: Filter, now: Time) returns (count: int)
      modifies this
      ensures count == |AllSelected(old(rows), f)| && AllSelected(rows, f) == {}
      ensures rows.Keys == old(rows).Keys && forall k :: k in rows ==>
                if Selected(f, old(rows)[k])
                then ReplayOf(old(rows)[k], rows[k], "", now) && rows[k].lastError == Some("") && rows[k].leaseUntil == None
                else rows[k] == old(rows)[k]
      ensures rows == After(old(rows), Statement.BulkReplay(f), now)
    {
      var hit := Matching(rows, f);
      MatchingMeans(rows, f);
      rows := Updated(rows, hit, Replaying(now));
      return |hit|;
    }

    /** Completes the matching rows with one statement and then unblocks what is behind
        them, one statement each. The count it returns is 0, whatever it has done. */
    method BulkSkipDLQ(f: Filter, now: Time) returns (count: int)
      modifies this
      ensures count == 0
      ensures rows.Keys == old(rows).Keys
      ensures forall i {:trigger SkippedAt(old(rows), rows, f, now, i)} :: i in old(rows) ==> SkippedAt(old(rows), rows, f, now, i)
      ensures rows == After(old(rows), Statement.BulkSkip(f), now)
    {
      var items := Matching(rows, f);
      ghost var start := rows;
      rows := Updated(rows, items, Completion(now));
      NothingSkipped(start, items, now);
      SkippedMeans(start, f, now);
      rows := PromoteEach(start, rows, items, now);
      return 0;
    }

    method BulkPurgeDLQ(f: Filter) returns (count: int)
      modifies this
      ensures count == |old(rows)| - |rows| == |AllSelected(old(rows), f)| && AllSelected(rows, f) == {}
      ensures forall k :: k in old(rows) ==> (k !in rows <==> Selected(f, old(rows)[k]))
      ensures forall k :: k in rows ==> k in old(rows) && rows[k] == old(rows)[k]
      ensures forall now :: rows == After(old(rows), Statement.BulkPurge(f), now)
    {
      var hit := Matching(rows, f);
      ghost var before := rows;
      MatchingMeans(rows, f);
      rows := rows - hit;
      assert before.Keys == rows.Keys + hit;
      return |hit|;
    }
  }
}
