/** Runs of the PostgreSQL statements, from any number of workers that keep no
    discipline at all: the guards alone carry the proofs. */
module PostgresOrder {
  import opened Wrappers
  import opened Lifecycle
  import opened Jobs
  import opened Rows
  import opened Postgres

  /** The table, every id ever inserted, and the chains that ever received a row whose
      failure lets the chain go on. The last two are history that only the proofs see. */
  datatype State = State(rows: RowTable, used: set<RowId>, lenient: set<string>)

  /** A statement and the time it reads. */
  datatype Call = Call(st: Statement, now: Time)

  /** The unique constraint on (chain_id, sequence). */
  ghost predicate FreeSpot(rows: RowTable, c: string, q: int) {
    forall k :: k in rows ==> !(rows[k].chain == c && rows[k].sequence == q)
  }

  /** New rows have fresh ids, a free position, and have never been claimed. A claim
      picks the first candidate; recovery picks stale rows. Nothing else is demanded. */
  ghost predicate Enabled(s: State, c: Call) {
    match c.st
    case Insert(i, r) =>
      && i !in s.used && FreeSpot(s.rows, r.chain, r.sequence)
      && (r.status.Pending? || r.status.Blocked?) && r.generation == 0 && r.worker.None?
    case Claim(_, _, pick) =>
      if pick.Some? then FirstOf(s.rows, Candidates(s.rows, c.now), pick.value) else Candidates(s.rows, c.now) == {}
    case RecoverStale(picked, _) => picked <= StaleRows(s.rows, c.now)
    case _ => true
  }

  function Next(s: State, c: Call): State {
    var s2 := s.(rows := After(s.rows, c.st, c.now));
    match c.st
    case Insert(i, r) => s2.(used := s.used + {i}, lenient := if Continues(r.mode) then s.lenient + {r.chain} else s.lenient)
    case _ => s2
  }

  ghost predicate StepAt(states: seq<State>, calls: seq<Call>, k: nat)
    requires k < |calls| && k + 1 < |states|
  {
    Enabled(states[k], calls[k]) && states[k + 1] == Next(states[k], calls[k])
  }

  ghost predicate IsRun(states: seq<State>, calls: seq<Call>) {
    && |states| == |calls| + 1
    && states[0] == State(map[], {}, {})
    && forall k {:trigger StepAt(states, calls, k)} :: 0 <= k < |calls| ==> StepAt(states, calls, k)
  }

  // ---------------------------------------------------------------- what a statement does to one row

  /** The edges a status can take while worker and generation stay. */
  ghost predicate Edge(c: Call, rows: RowTable, i: RowId, after: Status)
    requires i in rows
  {
    var before := rows[i].status;
    || after == before
    || (before.Processing? && (after.Completed? || InDeadLetterQueue(after) || after.Retrying?))
    || (before.Blocked? && after.Pending?)
    || ((CanBeClaimed(before) || before.Blocked? || before.Processing?) && after.CancelRequested?)
    || (Stopped(before) && (after.Pending? || after.Completed?))
    || (c.st.ConfirmCancel? && c.st.id == i && CancelHits(rows, i, c.st.worker, c.st.generation) && after.Cancelled?)
  }

  ghost predicate WasClaimed(c: Call, rows: RowTable, rows2: RowTable, i: RowId)
    requires i in rows && i in rows2
  {
    var r, r2 := rows[i], rows2[i];
    && c.st.Claim? && CanBeClaimed(r.status) && (r.sequence == 1 || HasFinishedAt(rows, r.chain, r.sequence - 1))
    && r2.status.Processing? && r2.generation == r.generation + 1 && r2.worker.Some?
  }

  ghost predicate ChangedAt(c: Call, rows: RowTable, rows2: RowTable, i: RowId)
    requires i in rows && i in rows2
  {
    var r, r2 := rows[i], rows2[i];
    && r2.chain == r.chain && r2.sequence == r.sequence && r2.mode == r.mode
    && (|| (r2.worker == r.worker && r2.generation == r.generation && Edge(c, rows, i, r2.status))
        || WasClaimed(c, rows, rows2, i))
  }

  ghost predicate Updates(c: Call, rows: RowTable, rows2: RowTable) {
    && rows2.Keys == rows.Keys
    && forall i {:trigger ChangedAt(c, rows, rows2, i)} :: i in rows ==> ChangedAt(c, rows, rows2, i)
  }

  /** Every statement but INSERT and DELETE changes rows along those edges only. */
  lemma StatementUpdates(s: State, c: Call)
    requires Enabled(s, c) && !c.st.Insert? && !c.st.BulkPurge?
    ensures Updates(c, s.rows, After(s.rows, c.st, c.now))
  {
    var rows2 := After(s.rows, c.st, c.now);
    forall i | i in s.rows ensures ChangedAt(c, s.rows, rows2, i) {
      if c.st.Claim? && rows2[i] != s.rows[i] {
        assert i in Candidates(s.rows, c.now) && WasClaimed(c, s.rows, rows2, i);
      } else {
        assert Edge(c, s.rows, i, rows2[i].status);
      }
    }
  }

  // ---------------------------------------------------------------- the invariant

  ghost predicate CompletedAt(rows: RowTable, p: RowId, c: string, q: int) {
    p in rows && rows[p].chain == c && rows[p].sequence == q && rows[p].status.Completed?
  }

  ghost predicate HasCompletedAt(rows: RowTable, c: string, q: int) {
    exists p {:trigger CompletedAt(rows, p, c, q)} :: CompletedAt(rows, p, c, q)
  }

  /** Only a row that has been claimed has a worker or a status that a worker gives. */
  ghost predicate RowOk(s: State, i: RowId)
    requires i in s.rows
  {
    var r := s.rows[i];
    && i in s.used && r.generation >= 0
    && (Touched(r.status) || r.worker.Some? ==> r.generation > 0)
    && (r.generation > 0 ==> r.sequence >= 1)
    && (r.chain !in s.lenient ==> !Continues(r.mode))
  }

  /** In a strict chain a row that has ever been claimed stands behind a completed one. */
  ghost predicate InOrder(s: State, i: RowId)
    requires i in s.rows
  {
    var r := s.rows[i];
    r.generation > 0 && r.sequence != 1 && r.chain !in s.lenient ==> HasCompletedAt(s.rows, r.chain, r.sequence - 1)
  }

  ghost predicate Sound(s: State) {
    && UniquePositions(s.rows)
    && (forall i {:trigger RowOk(s, i)} :: i in s.rows ==> RowOk(s, i))
  }

  ghost predicate Ordered(s: State) {
    forall i {:trigger InOrder(s, i)} :: i in s.rows ==> InOrder(s, i)
  }

  /** `k` stands directly behind `i` in a strict chain, past position 1, and has been claimed. */
  ghost predicate ClaimedBehind(s: State, i: RowId, k: RowId)
    requires i in s.rows
  {
    && k in s.rows && s.rows[k].chain == s.rows[i].chain && s.rows[k].chain !in s.lenient
    && s.rows[k].sequence == s.rows[i].sequence + 1 != 1 && s.rows[k].generation > 0
  }

  ghost predicate HasClaimedBehind(s: State, i: RowId)
    requires i in s.rows
  {
    exists k {:trigger ClaimedBehind(s, i, k)} :: ClaimedBehind(s, i, k)
  }

  /** No confirmed cancel that takes a completed row from in front of a claimed one. */
  ghost predicate Harmless(s: State, c: Call) {
    match c.st
    case ConfirmCancel(i, w, g) => !(CancelHits(s.rows, i, w, g) && s.rows[i].status.Completed? && HasClaimedBehind(s, i))
    case _ => true
  }

  lemma UpdateKeepsSound(s: State, c: Call, s2: State)
    requires Sound(s) && Updates(c, s.rows, s2.rows) && s2 == s.(rows := s2.rows)
    ensures Sound(s2)
  {
    forall i | i in s2.rows ensures AloneAt(s2.rows, i) && RowOk(s2, i) {
      forall k | k in s2.rows ensures s2.rows[k].chain == s.rows[k].chain && s2.rows[k].sequence == s.rows[k].sequence {
        assert ChangedAt(c, s.rows, s2.rows, k);
      }
      assert AloneAt(s.rows, i) && RowOk(s, i) && ChangedAt(c, s.rows, s2.rows, i);
      if WasClaimed(c, s.rows, s2.rows, i) && s.rows[i].sequence != 1 {
        var p :| p in s.rows && s.rows[p].chain == s.rows[i].chain
           && s.rows[p].sequence == s.rows[i].sequence - 1 && Finished(s.rows[p].status, s.rows[p].mode);
        assert RowOk(s, p);
      }
    }
  }

  /** The predecessor that puts a row in order before or by the statement. */
  lemma Foundation(s: State, c: Call, s2: State, i: RowId) returns (p: RowId)
    requires Sound(s) && Ordered(s) && Updates(c, s.rows, s2.rows) && s2 == s.(rows := s2.rows)
    requires i in s2.rows && s2.rows[i].generation > 0 && s2.rows[i].sequence != 1 && s2.rows[i].chain !in s2.lenient
    ensures CompletedAt(s.rows, p, s.rows[i].chain, s.rows[i].sequence - 1)
    ensures s2.rows[i].chain == s.rows[i].chain && s2.rows[i].sequence == s.rows[i].sequence
    ensures s.rows[i].generation > 0 || c.st.Claim?
  {
    assert ChangedAt(c, s.rows, s2.rows, i);
    if s.rows[i].generation > 0 {
      assert InOrder(s, i);
      p :| CompletedAt(s.rows, p, s.rows[i].chain, s.rows[i].sequence - 1);
    } else {
      assert RowOk(s, i);
      p :| p in s.rows && s.rows[p].chain == s.rows[i].chain
         && s.rows[p].sequence == s.rows[i].sequence - 1 && Finished(s.rows[p].status, s.rows[p].mode);
      assert RowOk(s, p);
    }
  }

  lemma UpdateKeepsOrdered(s: State, c: Call, s2: State)
    requires Sound(s) && Ordered(s) && Updates(c, s.rows, s2.rows) && s2 == s.(rows := s2.rows) && Harmless(s, c)
    ensures Ordered(s2)
  {
    forall i | i in s2.rows ensures InOrder(s2, i) {
      if s2.rows[i].generation > 0 && s2.rows[i].sequence != 1 && s2.rows[i].chain !in s2.lenient {
        var p := Foundation(s, c, s2, i);
        assert ChangedAt(c, s.rows, s2.rows, p);
        if s.rows[i].generation > 0 { assert ClaimedBehind(s, p, i); }
        assert CompletedAt(s2.rows, p, s2.rows[i].chain, s2.rows[i].sequence - 1);
      }
    }
  }

  lemma InsertKeeps(s: State, c: Call)
    requires Sound(s) && Enabled(s, c) && c.st.Insert?
    ensures Sound(Next(s, c)) && (Ordered(s) ==> Ordered(Next(s, c)))
  {
    var s2 := Next(s, c);
    forall i | i in s.rows ensures i in s.used { assert RowOk(s, i); }
    forall i | i in s2.rows ensures AloneAt(s2.rows, i) && RowOk(s2, i) && (Ordered(s) ==> InOrder(s2, i)) {
      if i in s.rows {
        assert AloneAt(s.rows, i) && RowOk(s, i) && s2.rows[i] == s.rows[i];
        if Ordered(s) && HasCompletedAt(s.rows, s.rows[i].chain, s.rows[i].sequence - 1) {
          var p :| CompletedAt(s.rows, p, s.rows[i].chain, s.rows[i].sequence - 1);
          assert CompletedAt(s2.rows, p, s.rows[i].chain, s.rows[i].sequence - 1);
        }
        assert Ordered(s) ==> InOrder(s, i);
      }
    }
  }

  /** A purge takes no completed row away. */
  lemma PurgeKeeps(s: State, c: Call)
    requires Sound(s) && c.st.BulkPurge?
    ensures Sound(Next(s, c)) && (Ordered(s) ==> Ordered(Next(s, c)))
  {
    var s2 := Next(s, c);
    forall i | i in s2.rows ensures AloneAt(s2.rows, i) && RowOk(s2, i) && (Ordered(s) ==> InOrder(s2, i)) {
      assert AloneAt(s.rows, i) && RowOk(s, i);
      if Ordered(s) && HasCompletedAt(s.rows, s.rows[i].chain, s.rows[i].sequence - 1) {
        var p :| CompletedAt(s.rows, p, s.rows[i].chain, s.rows[i].sequence - 1);
        assert CompletedAt(s2.rows, p, s.rows[i].chain, s.rows[i].sequence - 1);
      }
      assert Ordered(s) ==> InOrder(s, i);
    }
  }

  lemma StepKeepsSound(s: State, c: Call)
    requires Sound(s) && Enabled(s, c)
    ensures Sound(Next(s, c))
    ensures Ordered(s) && Harmless(s, c) ==> Ordered(Next(s, c))
  {
    if c.st.Insert? {
      InsertKeeps(s, c);
    } else if c.st.BulkPurge? {
      PurgeKeeps(s, c);
    } else {
      StatementUpdates(s, c);
      UpdateKeepsSound(s, c, Next(s, c));
      if Ordered(s) && Harmless(s, c) { UpdateKeepsOrdered(s, c, Next(s, c)); }
    }
  }

  lemma {:induction false} Reachable(states: seq<State>, calls: seq<Call>, k: nat)
    requires IsRun(states, calls) && k < |states|
    ensures Sound(states[k])
    ensures (forall m :: 0 <= m < k ==> Harmless(states[m], calls[m])) ==> Ordered(states[k])
  {
    if k > 0 {
      Reachable(states, calls, k - 1);
      assert StepAt(states, calls, k - 1);
      StepKeepsSound(states[k - 1], calls[k - 1]);
    }
  }

  // ---------------------------------------------------------------- strict order and mutual exclusion

  lemma {:induction false} AllBefore(s: State, i: RowId, q: int)
    requires Sound(s) && Ordered(s) && i in s.rows && s.rows[i].generation > 0 && s.rows[i].chain !in s.lenient
    requires 1 <= q < s.rows[i].sequence
    ensures HasCompletedAt(s.rows, s.rows[i].chain, q)
    decreases s.rows[i].sequence
  {
    assert InOrder(s, i);
    var p :| CompletedAt(s.rows, p, s.rows[i].chain, s.rows[i].sequence - 1);
    if q < s.rows[p].sequence {
      assert RowOk(s, p);
      AllBefore(s, p, q);
    }
  }

  /** The row was inserted into a chain that no continuing row has joined. */
  ghost predicate StrictUntil(calls: seq<Call>, k: nat, c: string)
    requires k <= |calls|
  {
    forall m :: 0 <= m < k && calls[m].st.Insert? && calls[m].st.row.chain == c ==> !Continues(calls[m].st.row.mode)
  }

  lemma {:induction false} StaysStrict(states: seq<State>, calls: seq<Call>, k: nat, c: string)
    requires IsRun(states, calls) && k < |states| && StrictUntil(calls, k, c)
    ensures c !in states[k].lenient
  {
    if k > 0 {
      StaysStrict(states, calls, k - 1, c);
      assert StepAt(states, calls, k - 1);
    }
  }

  /** Strict FIFO on PostgreSQL: in a strict chain, behind every row that has ever been
      claimed all earlier positions exist and are completed. */
  lemma StrictFifo(states: seq<State>, calls: seq<Call>, k: nat, i: RowId, q: int)
    requires IsRun(states, calls) && k < |states|
    requires forall m :: 0 <= m < k ==> Harmless(states[m], calls[m])
    requires i in states[k].rows && states[k].rows[i].generation > 0
    requires StrictUntil(calls, k, states[k].rows[i].chain)
    requires 1 <= q < states[k].rows[i].sequence
    ensures HasCompletedAt(states[k].rows, states[k].rows[i].chain, q)
  {
    Reachable(states, calls, k);
    StaysStrict(states, calls, k, states[k].rows[i].chain);
    AllBefore(states[k], i, q);
  }

  lemma OneAtATime(s: State, i: RowId, l: RowId)
    requires Sound(s) && Ordered(s) && i in s.rows && l in s.rows
    requires s.rows[i].chain == s.rows[l].chain && s.rows[l].chain !in s.lenient
    requires s.rows[i].status.Processing? && s.rows[l].status.Processing?
    requires s.rows[i].sequence <= s.rows[l].sequence
    ensures i == l
  {
    assert RowOk(s, i) && RowOk(s, l) && AloneAt(s.rows, i);
    if s.rows[i].sequence < s.rows[l].sequence {
      AllBefore(s, l, s.rows[i].sequence);
    }
  }

  /** Eligibility alone gives mutual exclusion: a strict chain never has two rows in
      processing, although the claim looks for none. Any worker may send any statement
      at any time, with any token, as long as no confirmed cancel does harm. */
  lemma MutualExclusion(states: seq<State>, calls: seq<Call>, k: nat, i: RowId, l: RowId)
    requires IsRun(states, calls) && k < |states|
    requires forall m :: 0 <= m < k ==> Harmless(states[m], calls[m])
    requires i in states[k].rows && l in states[k].rows && states[k].rows[i].chain == states[k].rows[l].chain
    requires StrictUntil(calls, k, states[k].rows[i].chain)
    requires states[k].rows[i].status.Processing? && states[k].rows[l].status.Processing?
    ensures i == l
  {
    Reachable(states, calls, k);
    StaysStrict(states, calls, k, states[k].rows[i].chain);
    if states[k].rows[i].sequence <= states[k].rows[l].sequence {
      OneAtATime(states[k], i, l);
    } else {
      OneAtATime(states[k], l, i);
    }
  }

  /** ConfirmCancel does not look at the status. It keeps the order of strict chains
      exactly when it is harmless: when it does not hit a completed row whose successor
      has been claimed. The guard `status='CANCEL_REQUESTED'` would make it always so. */
  lemma ConfirmCancelKeepsOrder(s: State, c: Call)
    requires Sound(s) && Ordered(s) && c.st.ConfirmCancel?
    ensures Ordered(Next(s, c)) <==> Harmless(s, c)
  {
    var s2, i := Next(s, c), c.st.id;
    StepKeepsSound(s, c);
    if !Harmless(s, c) {
      var k :| ClaimedBehind(s, i, k);
      assert AloneAt(s.rows, i);
      assert !InOrder(s2, k);
    }
  }

  // ---------------------------------------------------------------- completion and fencing

  predicate CancelsRow(s: State, c: Call, i: RowId) {
    c.st.ConfirmCancel? && c.st.id == i && CancelHits(s.rows, i, c.st.worker, c.st.generation)
  }

  lemma StepKeepsCompleted(s: State, c: Call, i: RowId)
    requires Sound(s) && Enabled(s, c) && i in s.rows && s.rows[i].status.Completed? && !CancelsRow(s, c, i)
    ensures i in Next(s, c).rows && Next(s, c).rows[i].status.Completed?
  {
    if c.st.Insert? {
      assert RowOk(s, i);
    } else if !c.st.BulkPurge? {
      StatementUpdates(s, c);
      assert ChangedAt(c, s.rows, Next(s, c).rows, i);
    }
  }

  /** Completed is absorbing, but for a ConfirmCancel that hits the row. No token
      discipline is needed: the status guards do it. */
  lemma {:induction false} CompletedForever(states: seq<State>, calls: seq<Call>, a: nat, b: nat, i: RowId)
    requires IsRun(states, calls) && a <= b < |states|
    requires i in states[a].rows && states[a].rows[i].status.Completed?
    requires forall m :: a <= m < b ==> !CancelsRow(states[m], calls[m], i)
    ensures i in states[b].rows && states[b].rows[i].status.Completed?
    decreases b
  {
    if a < b {
      CompletedForever(states, calls, a, b - 1, i);
      Reachable(states, calls, b - 1);
      assert StepAt(states, calls, b - 1);
      StepKeepsCompleted(states[b - 1], calls[b - 1], i);
    }
  }

  predicate Completes(s: State, c: Call, i: RowId) {
    c.st.Complete? && c.st.id == i && Hits(s.rows, i, c.st.worker, c.st.generation)
  }

  /** At most one Complete per row takes effect between confirmed cancels of it. */
  lemma CompletesOnce(states: seq<State>, calls: seq<Call>, a: nat, b: nat, i: RowId)
    requires IsRun(states, calls) && a <= b < |calls|
    requires Completes(states[a], calls[a], i) && Completes(states[b], calls[b], i)
    requires forall m :: a <= m < b ==> !CancelsRow(states[m], calls[m], i)
    ensures a == b
  {
    assert StepAt(states, calls, a);
    if a < b {
      assert states[a + 1].rows[i].status.Completed?;
      CompletedForever(states, calls, a + 1, b, i);
    }
  }

  /** Generation `g` of row `i` is spent: the row is gone, claimed again since, or out of processing. */
  ghost predicate Spent(s: State, i: RowId, g: int) {
    i in s.used && (i in s.rows ==> s.rows[i].generation > g || (s.rows[i].generation == g && !s.rows[i].status.Processing?))
  }

  lemma StepKeepsSpent(s: State, c: Call, i: RowId, g: int)
    requires Sound(s) && Enabled(s, c) && Spent(s, i, g)
    ensures Spent(Next(s, c), i, g)
  {
    if !c.st.Insert? && !c.st.BulkPurge? {
      StatementUpdates(s, c);
      if i in s.rows { assert ChangedAt(c, s.rows, Next(s, c).rows, i); }
    }
  }

  /** A completion, failure, retry or heartbeat that presents generation `g` of row `i`. */
  predicate Presents(c: Call, i: RowId, g: int) {
    && (c.st.Complete? || c.st.Fail? || c.st.Retry? || c.st.Heartbeat?)
    && c.st.id == i && c.st.generation == g
  }

  /** Fencing on PostgreSQL: once a row has left processing in a generation - finished,
      put back for a retry, cancelled, or recovered - that generation never touches the
      row again. Recovery does not raise the generation here, and need not: the
      status guard shuts the old worker out, and the next claim raises it. */
  lemma {:induction false} SpentForever(states: seq<State>, calls: seq<Call>, a: nat, b: nat, i: RowId, g: int, c: Call)
    requires IsRun(states, calls) && a <= b < |states| && Spent(states[a], i, g)
    ensures Spent(states[b], i, g)
    ensures Presents(c, i, g) ==> Next(states[b], c) == states[b]
    decreases b
  {
    if a < b {
      SpentForever(states, calls, a, b - 1, i, g, c);
      Reachable(states, calls, b - 1);
      assert StepAt(states, calls, b - 1);
      StepKeepsSpent(states[b - 1], calls[b - 1], i, g);
    }
  }

  /** In particular, recovery spends the generation of every row it picks. */
  lemma RecoverySpends(s: State, c: Call, i: RowId)
    requires Sound(s) && Enabled(s, c) && c.st.RecoverStale? && i in c.st.picked
    ensures Spent(Next(s, c), i, s.rows[i].generation)
    ensures Next(s, c).rows[i].generation == s.rows[i].generation && Next(s, c).rows[i].status.Retrying?
  {
    assert i in StaleRows(s.rows, c.now) && RowOk(s, i);
  }
}
