/** What a cancel request does on PostgreSQL: it takes the row from its worker, and only
    a ConfirmCancel of that worker's token ever moves the row again. */
module PostgresCancels {
  import opened Wrappers
  import opened Lifecycle
  import opened Jobs
  import opened Rows
  import opened Postgres
  import opened PostgresOrder

  /** The request spends the generation of a row in processing, so by `SpentForever` its
      worker can no longer complete, fail or retry it. */
  lemma CancelSpends(s: State, i: RowId, now: Time)
    requires Sound(s) && i in s.rows && s.rows[i].status.Processing?
    ensures var s2 := Next(s, Call(RequestCancel(i), now));
            s2.rows[i].status.CancelRequested? && Spent(s2, i, s.rows[i].generation)
  {
    assert RowOk(s, i);
  }

  /** A row asked to cancel leaves that status exactly by a ConfirmCancel that hits it. */
  lemma AskedLeaves(s: State, c: Call, i: RowId)
    requires Sound(s) && Enabled(s, c) && i in s.rows && s.rows[i].status.CancelRequested?
    ensures var s2 := Next(s, c);
            && i in s2.rows && s2.rows[i].chain == s.rows[i].chain && s2.rows[i].sequence == s.rows[i].sequence
            && SameToken(s.rows[i], s2.rows[i])
            && (s2.rows[i].status.CancelRequested? <==> !CancelsRow(s, c, i))
  {
    if c.st.Insert? {
      assert RowOk(s, i);
    } else if !c.st.BulkPurge? {
      StatementUpdates(s, c);
      assert ChangedAt(c, s.rows, Next(s, c).rows, i);
    }
  }

  lemma {:induction false} AskedForever(states: seq<State>, calls: seq<Call>, a: nat, b: nat, i: RowId)
    requires IsRun(states, calls) && a <= b < |states|
    requires i in states[a].rows && states[a].rows[i].status.CancelRequested?
    requires forall m :: a <= m < b ==> !CancelsRow(states[m], calls[m], i)
    ensures i in states[b].rows && states[b].rows[i].status.CancelRequested? && SameToken(states[a].rows[i], states[b].rows[i])
    ensures states[b].rows[i].chain == states[a].rows[i].chain && states[b].rows[i].sequence == states[a].rows[i].sequence
    decreases b
  {
    if a < b {
      AskedForever(states, calls, a, b - 1, i);
      Reachable(states, calls, b - 1);
      assert StepAt(states, calls, b - 1);
      AskedLeaves(states[b - 1], calls[b - 1], i);
    }
  }

  /** A row that was asked before any worker claimed it has no token, so nothing ever moves it. */
  lemma {:induction false} UnclaimedAskedForever(states: seq<State>, calls: seq<Call>, a: nat, b: nat, i: RowId)
    requires IsRun(states, calls) && a <= b < |states|
    requires i in states[a].rows && states[a].rows[i].status.CancelRequested? && states[a].rows[i].worker.None?
    ensures i in states[b].rows && states[b].rows[i].status.CancelRequested? && states[b].rows[i].worker.None?
    decreases b
  {
    if a < b {
      UnclaimedAskedForever(states, calls, a, b - 1, i);
      Reachable(states, calls, b - 1);
      assert StepAt(states, calls, b - 1);
      AskedLeaves(states[b - 1], calls[b - 1], i);
    }
  }

  /** The engine asks for a cancel when a handler's context was cancelled or timed out, and
      never confirms one. From then on, until a ConfirmCancel hits the row, nothing behind
      it in a strict chain is ever claimed. */
  lemma CancelWedgesChain(states: seq<State>, calls: seq<Call>, a: nat, b: nat, i: RowId, l: RowId)
    requires IsRun(states, calls) && a <= b < |states|
    requires forall m :: 0 <= m < b ==> Harmless(states[m], calls[m])
    requires forall m :: a <= m < b ==> !CancelsRow(states[m], calls[m], i)
    requires i in states[a].rows && states[a].rows[i].status.CancelRequested? && states[a].rows[i].sequence >= 1
    requires l in states[b].rows && states[b].rows[l].chain == states[a].rows[i].chain
    requires states[b].rows[l].sequence > states[a].rows[i].sequence
    requires StrictUntil(calls, b, states[a].rows[i].chain)
    ensures states[b].rows[l].generation == 0 && !states[b].rows[l].status.Processing?
  {
    AskedForever(states, calls, a, b, i);
    Reachable(states, calls, b);
    assert RowOk(states[b], l) && AloneAt(states[b].rows, i);
    if states[b].rows[l].generation > 0 {
      StrictFifo(states, calls, b, l, states[a].rows[i].sequence);
    }
  }

  /** The way out: the worker's token confirms the cancel, and a skip then completes the
      row and opens what is blocked behind it. */
  lemma CancelWayOut(s: State, i: RowId, w: string, k: RowId, t1: Time, t2: Time)
    requires Sound(s) && i in s.rows && s.rows[i].status.CancelRequested? && s.rows[i].worker == Some(w)
    requires k in s.rows && s.rows[k].chain == s.rows[i].chain && s.rows[k].sequence == s.rows[i].sequence + 1
    ensures var confirmed := Next(s, Call(ConfirmCancel(i, w, s.rows[i].generation), t1));
            var s2 := Next(confirmed, Call(SkipJob(i), t2));
            && s2.rows[i].status.Completed? && Front(s2.rows, k)
            && (s.rows[k].status.Blocked? ==> s2.rows[k].status.Pending?)
  {
    var confirmed := Next(s, Call(ConfirmCancel(i, w, s.rows[i].generation), t1));
    assert StoppedAt(confirmed.rows, i);
    var s2 := Next(confirmed, Call(SkipJob(i), t2));
    assert i in s2.rows && Finished(s2.rows[i].status, s2.rows[i].mode);
  }
}
