/** Order and mutual exclusion on PostgreSQL in every ordering mode, and exactly which
    statements put them at risk. */
module PostgresModes {
  import opened Wrappers
  import opened Lifecycle
  import opened Jobs
  import opened Rows
  import opened Postgres
  import opened PostgresOrder

  ghost predicate FinishedAt(rows: RowTable, p: RowId, c: string, q: int) {
    p in rows && rows[p].chain == c && rows[p].sequence == q && Finished(rows[p].status, rows[p].mode)
  }

  ghost predicate IsFinishedAt(rows: RowTable, c: string, q: int) {
    exists p {:trigger FinishedAt(rows, p, c, q)} :: FinishedAt(rows, p, c, q)
  }

  /** A row past position 1 that has ever been claimed stands behind a finished one. */
  ghost predicate Follows(s: State, k: RowId)
    requires k in s.rows
  {
    var r := s.rows[k];
    r.generation > 0 && r.sequence != 1 ==> IsFinishedAt(s.rows, r.chain, r.sequence - 1)
  }

  ghost predicate AllFollow(s: State) {
    forall k {:trigger Follows(s, k)} :: k in s.rows ==> Follows(s, k)
  }

  /** The call reopens, cancels or deletes the finished row `p`. */
  predicate Undoes(s: State, c: Call, p: RowId)
    requires p in s.rows
  {
    match c.st
    case ReplayJob(i, _) => i == p && Stopped(s.rows[p].status)
    case ConfirmCancel(i, w, g) => i == p && CancelHits(s.rows, p, w, g)
    case BulkReplay(f) => MatchesFilter(f, s.rows[p])
    case BulkPurge(f) => MatchesFilter(f, s.rows[p])
    case _ => false
  }

  /** The call undoes the finished row `p` and keeps the claimed row `k` directly behind it. */
  ghost predicate DisturbsAt(s: State, c: Call, p: RowId, k: RowId) {
    && p in s.rows && k in s.rows && Undoes(s, c, p) && Finished(s.rows[p].status, s.rows[p].mode)
    && s.rows[k].chain == s.rows[p].chain && s.rows[k].sequence == s.rows[p].sequence + 1 != 1
    && s.rows[k].generation > 0
    && !(c.st.BulkPurge? && MatchesFilter(c.st.f, s.rows[k]))
  }

  ghost predicate Disturbs(s: State, c: Call) {
    exists p, k {:trigger DisturbsAt(s, c, p, k)} :: DisturbsAt(s, c, p, k)
  }

  // ---------------------------------------------------------------- one step

  /** A finished row stays finished exactly when the call does not undo it. */
  lemma FinishedStays(s: State, c: Call, s2: State, p: RowId)
    requires Enabled(s, c) && s2 == Next(s, c) && p in s.rows && Finished(s.rows[p].status, s.rows[p].mode)
    requires s.rows.Keys <= s.used
    ensures p in s2.rows && Finished(s2.rows[p].status, s2.rows[p].mode) <==> !Undoes(s, c, p)
    ensures p in s2.rows ==> s2.rows[p].chain == s.rows[p].chain && s2.rows[p].sequence == s.rows[p].sequence
  {
  }

  /** A row that counts after the call was claimed before it, or is claimed by it behind a finished row. */
  lemma CameFrom(s: State, c: Call, s2: State, k: RowId) returns (p: RowId)
    requires Sound(s) && AllFollow(s) && Enabled(s, c) && s2 == Next(s, c)
    requires k in s2.rows && s2.rows[k].generation > 0 && s2.rows[k].sequence != 1
    ensures k in s.rows && s2.rows[k].chain == s.rows[k].chain && s2.rows[k].sequence == s.rows[k].sequence
    ensures FinishedAt(s.rows, p, s.rows[k].chain, s.rows[k].sequence - 1)
    ensures s.rows[k].generation > 0 || c.st.Claim?
    ensures c.st.BulkPurge? ==> !MatchesFilter(c.st.f, s.rows[k])
  {
    if !c.st.Insert? && !c.st.BulkPurge? {
      StatementUpdates(s, c);
      assert ChangedAt(c, s.rows, s2.rows, k);
    }
    if s.rows[k].generation > 0 {
      assert Follows(s, k);
      p :| FinishedAt(s.rows, p, s.rows[k].chain, s.rows[k].sequence - 1);
    } else {
      assert RowOk(s, k);
      p :| p in s.rows && s.rows[p].chain == s.rows[k].chain
           && s.rows[p].sequence == s.rows[k].sequence - 1 && Finished(s.rows[p].status, s.rows[p].mode);
    }
  }

  lemma UndisturbedFollows(s: State, c: Call, s2: State, k: RowId)
    requires Sound(s) && AllFollow(s) && Enabled(s, c) && s2 == Next(s, c) && !Disturbs(s, c)
    requires k in s2.rows
    ensures Follows(s2, k)
  {
    if s2.rows[k].generation > 0 && s2.rows[k].sequence != 1 {
      var p := CameFrom(s, c, s2, k);
      RowsAreUsed(s);
      FinishedStays(s, c, s2, p);
      assert s.rows[k].generation > 0 ==> !DisturbsAt(s, c, p, k);
      assert FinishedAt(s2.rows, p, s2.rows[k].chain, s2.rows[k].sequence - 1);
    }
  }

  lemma RowsAreUsed(s: State)
    requires Sound(s)
    ensures s.rows.Keys <= s.used
  {
    forall i | i in s.rows ensures i in s.used { assert RowOk(s, i); }
  }

  lemma DisturbedFallsOut(s: State, c: Call, s2: State, p: RowId, k: RowId)
    requires Sound(s) && Enabled(s, c) && s2 == Next(s, c) && DisturbsAt(s, c, p, k)
    ensures k in s2.rows && !Follows(s2, k)
  {
    RowsAreUsed(s);
    FinishedStays(s, c, s2, p);
    DisturbedStays(s, c, s2, p, k);
    assert AloneAt(s.rows, p);
    forall x | x in s2.rows && x in s.rows ensures s2.rows[x].chain == s.rows[x].chain && s2.rows[x].sequence == s.rows[x].sequence {
      DisturbedStays(s, c, s2, p, x);
    }
  }

  lemma DisturbedStays(s: State, c: Call, s2: State, p: RowId, x: RowId)
    requires s2 == Next(s, c) && p in s.rows && Undoes(s, c, p) && x in s.rows
    ensures s2.rows.Keys <= s.rows.Keys
    ensures x in s2.rows <==> !(c.st.BulkPurge? && MatchesFilter(c.st.f, s.rows[x]))
    ensures x in s2.rows ==> s2.rows[x].chain == s.rows[x].chain && s2.rows[x].sequence == s.rows[x].sequence
                             && s2.rows[x].generation == s.rows[x].generation
  {
  }

  /** Every claimed row past position 1 stands behind a finished one before a step; it does so
      after the step if and only if the step undoes no finished row in front of a claimed one. */
  lemma StepKeepsFollowing(s: State, c: Call)
    requires Sound(s) && AllFollow(s) && Enabled(s, c)
    ensures AllFollow(Next(s, c)) <==> !Disturbs(s, c)
  {
    var s2 := Next(s, c);
    if Disturbs(s, c) {
      var p, k :| DisturbsAt(s, c, p, k);
      DisturbedFallsOut(s, c, s2, p, k);
    } else {
      forall k | k in s2.rows ensures Follows(s2, k) { UndisturbedFollows(s, c, s2, k); }
    }
  }

  // ---------------------------------------------------------------- runs

  ghost predicate Undisturbed(states: seq<State>, calls: seq<Call>, k: nat)
    requires k <= |calls| < |states|
  {
    forall m :: 0 <= m < k ==> !Disturbs(states[m], calls[m])
  }

  lemma {:induction false} ReachableFollows(states: seq<State>, calls: seq<Call>, k: nat)
    requires IsRun(states, calls) && k < |states| && Undisturbed(states, calls, k)
    ensures Sound(states[k]) && AllFollow(states[k])
  {
    Reachable(states, calls, k);
    if k > 0 {
      ReachableFollows(states, calls, k - 1);
      assert StepAt(states, calls, k - 1);
      StepKeepsFollowing(states[k - 1], calls[k - 1]);
    }
  }

  lemma {:induction false} AllFinishedBefore(s: State, i: RowId, q: int)
    requires Sound(s) && AllFollow(s) && i in s.rows && s.rows[i].generation > 0
    requires 1 <= q < s.rows[i].sequence
    ensures IsFinishedAt(s.rows, s.rows[i].chain, q)
    decreases s.rows[i].sequence
  {
    assert Follows(s, i);
    var p :| FinishedAt(s.rows, p, s.rows[i].chain, s.rows[i].sequence - 1);
    if q < s.rows[p].sequence {
      assert RowOk(s, p);
      AllFinishedBefore(s, p, q);
    }
  }

  /** Order in every mode: behind a row that has ever been claimed all earlier positions
      exist and are finished, as long as no call undoes a finished row in front of a claimed one. */
  lemma Fifo(states: seq<State>, calls: seq<Call>, k: nat, i: RowId, q: int)
    requires IsRun(states, calls) && k < |states| && Undisturbed(states, calls, k)
    requires i in states[k].rows && states[k].rows[i].generation > 0 && 1 <= q < states[k].rows[i].sequence
    ensures IsFinishedAt(states[k].rows, states[k].rows[i].chain, q)
  {
    ReachableFollows(states, calls, k);
    AllFinishedBefore(states[k], i, q);
  }

  lemma OneRunning(s: State, i: RowId, l: RowId)
    requires Sound(s) && AllFollow(s) && i in s.rows && l in s.rows && s.rows[i].chain == s.rows[l].chain
    requires s.rows[i].status.Processing? && s.rows[l].status.Processing? && s.rows[i].sequence <= s.rows[l].sequence
    ensures i == l
  {
    assert RowOk(s, i) && RowOk(s, l) && AloneAt(s.rows, i);
    if s.rows[i].sequence < s.rows[l].sequence { AllFinishedBefore(s, l, s.rows[i].sequence); }
  }

  /** Mutual exclusion in every mode, under the same condition. */
  lemma MutualExclusionInAllModes(states: seq<State>, calls: seq<Call>, k: nat, i: RowId, l: RowId)
    requires IsRun(states, calls) && k < |states| && Undisturbed(states, calls, k)
    requires i in states[k].rows && l in states[k].rows && states[k].rows[i].chain == states[k].rows[l].chain
    requires states[k].rows[i].status.Processing? && states[k].rows[l].status.Processing?
    ensures i == l
  {
    ReachableFollows(states, calls, k);
    if states[k].rows[i].sequence <= states[k].rows[l].sequence {
      OneRunning(states[k], i, l);
    } else {
      OneRunning(states[k], l, i);
    }
  }

  /** The condition is needed: replaying a failed first row while a later row of its chain
      runs lets the next claim start it beside the other. (The in-memory repository scans
      for a busy chain, and `Safety.OneProcessingPerChain` holds there in every mode.) */
  lemma ReplayOverlaps(s: State, p: RowId, i: RowId, w: string, lease: Duration, now: Time)
    requires p in s.rows && Stopped(s.rows[p].status) && s.rows[p].sequence == 1
    requires i in s.rows && s.rows[i].status.Processing? && s.rows[i].chain == s.rows[p].chain
    requires Candidates(s.rows, now) == {}
    ensures var open := Next(s, Call(ReplayJob(p, ""), now));
            var c := Call(Claim(w, lease, Some(p)), now);
            var s2 := Next(open, c);
            && Enabled(open, c)
            && s2.rows[p].status.Processing? && s2.rows[i].status.Processing? && s2.rows[p].chain == s2.rows[i].chain && p != i
  {
    ReplayAddsOne(s, p, now);
    assert p in Candidates(Next(s, Call(ReplayJob(p, ""), now)).rows, now);
  }

  lemma ReplayAddsOne(s: State, p: RowId, now: Time)
    requires p in s.rows && Stopped(s.rows[p].status)
    ensures Candidates(Next(s, Call(ReplayJob(p, ""), now)).rows, now) <= Candidates(s.rows, now) + {p}
  {
    var open := Next(s, Call(ReplayJob(p, ""), now));
    forall k | k in Candidates(open.rows, now) && k != p ensures k in Candidates(s.rows, now) {
      if open.rows[k].sequence != 1 {
        var x :| x in open.rows && open.rows[x].chain == open.rows[k].chain && open.rows[x].sequence == open.rows[k].sequence - 1
                 && Finished(open.rows[x].status, open.rows[x].mode);
        assert x in s.rows && s.rows[x] == open.rows[x];
      }
    }
  }
}
