/** Three short runs on PostgreSQL in which a guarantee fails, each with the one call
    that the theorems single out. */
module PostgresWitnesses {
  import opened Wrappers
  import opened Lifecycle
  import opened Jobs
  import opened Rows
  import opened Postgres
  import opened PostgresOrder
  import opened PostgresModes

  function NewRow(q: int, status: Status, mode: OrderingMode): Row {
    Row("c", q, "t", "", "", "{}", mode, status, 0, 5, 0, None, None, 0, None, 0, 0, None, None, None)
  }

  /** A chain of two rows, all of whose inserts had the mode `m`. */
  function Two(first: Row, second: Row, m: OrderingMode): State {
    State(map[1 := first, 2 := second], {1, 2}, if Continues(m) then {"c"} else {})
  }

  /** A claim of the only candidate of some rows. */
  lemma OnlyCandidate(s: State, i: RowId, w: string)
    requires i in s.rows && Eligible(s.rows, i, 0)
    requires forall k :: k in s.rows && k != i ==> !CanBeClaimed(s.rows[k].status)
    ensures Enabled(s, Call(Claim(w, SECOND, Some(i)), 0))
  {
    assert Candidates(s.rows, 0) == {i};
  }

  /** No purge, and nothing that reopens or cancels a row. */
  predicate Plain(c: Call) {
    !c.st.ReplayJob? && !c.st.BulkReplay? && !c.st.ConfirmCancel? && !c.st.BulkPurge?
  }

  lemma PlainDisturbsNothing(s: State, c: Call)
    requires Plain(c)
    ensures !Disturbs(s, c) && Harmless(s, c)
  {
  }

  /** A run of plain calls whose inserts all have the mode `m`. */
  ghost predicate PlainRun(states: seq<State>, calls: seq<Call>, m: OrderingMode) {
    && IsRun(states, calls)
    && forall k :: 0 <= k < |calls| ==> Plain(calls[k]) && (calls[k].st.Insert? ==> calls[k].st.row.mode == m)
  }

  lemma Then(states: seq<State>, calls: seq<Call>, c: Call, s2: State) returns (states2: seq<State>, calls2: seq<Call>)
    requires IsRun(states, calls) && Enabled(states[|calls|], c) && s2 == Next(states[|calls|], c)
    ensures IsRun(states2, calls2) && states2 == states + [s2] && calls2 == calls + [c]
  {
    states2, calls2 := states + [s2], calls + [c];
    forall k | 0 <= k < |calls2| ensures StepAt(states2, calls2, k) {
      if k < |calls| { assert StepAt(states, calls, k); }
    }
  }

  lemma ThenPlain(states: seq<State>, calls: seq<Call>, m: OrderingMode, c: Call, s2: State) returns (states2: seq<State>, calls2: seq<Call>)
    requires PlainRun(states, calls, m) && Enabled(states[|calls|], c) && s2 == Next(states[|calls|], c)
    requires Plain(c) && (c.st.Insert? ==> c.st.row.mode == m)
    ensures PlainRun(states2, calls2, m) && |calls2| == |calls| + 1 && states2[|calls2|] == s2 && calls2[|calls|] == c
    ensures states <= states2 && calls <= calls2
  {
    states2, calls2 := Then(states, calls, c, s2);
  }

  lemma TwoInserts(m: OrderingMode) returns (states: seq<State>, calls: seq<Call>)
    ensures PlainRun(states, calls, m) && |calls| == 2 && states[2] == Two(NewRow(1, Pending, m), NewRow(2, Blocked, m), m)
  {
    var first, second := NewRow(1, Pending, m), NewRow(2, Blocked, m);
    var one := State(map[1 := first], {1}, if Continues(m) then {"c"} else {});
    states, calls := [State(map[], {}, {})], [];
    states, calls := ThenPlain(states, calls, m, Call(Insert(1, first), 0), one);
    assert {1} + {2} == {1, 2} && {"c"} + {"c"} == {"c"};
    states, calls := ThenPlain(states, calls, m, Call(Insert(2, second), 0), Two(first, second, m));
  }

  /** The common beginning: two rows are inserted and worker a claims the first. */
  lemma FirstClaimed(m: OrderingMode) returns (states: seq<State>, calls: seq<Call>)
    ensures PlainRun(states, calls, m) && |calls| == 3
    ensures states[3] == Two(ClaimedRow(NewRow(1, Pending, m), "a", SECOND, 0), NewRow(2, Blocked, m), m)
  {
    states, calls := TwoInserts(m);
    var first, second := NewRow(1, Pending, m), NewRow(2, Blocked, m);
    OnlyCandidate(Two(first, second, m), 1, "a");
    states, calls := ThenPlain(states, calls, m, Call(Claim("a", SECOND, Some(1)), 0), Two(ClaimedRow(first, "a", SECOND, 0), second, m));
  }

  /** Worker b claims the second row behind a finished first one. */
  lemma SecondClaimed(states0: seq<State>, calls0: seq<Call>, first: Row, m: OrderingMode)
    returns (states: seq<State>, calls: seq<Call>)
    requires PlainRun(states0, calls0, m) && states0[|calls0|] == Two(first, NewRow(2, Pending, m), m)
    requires Finished(first.status, first.mode) && first.chain == "c" && first.sequence == 1
    ensures PlainRun(states, calls, m) && |calls| == |calls0| + 1
    ensures states[|calls|] == Two(first, ClaimedRow(NewRow(2, Pending, m), "b", SECOND, 0), m)
  {
    var s := states0[|calls0|];
    assert 1 in s.rows && HasFinishedAt(s.rows, "c", 1);
    OnlyCandidate(s, 2, "b");
    states, calls := ThenPlain(states0, calls0, m, Call(Claim("b", SECOND, Some(2)), 0),
                               Two(first, ClaimedRow(NewRow(2, Pending, m), "b", SECOND, 0), m));
  }

  ghost predicate BothRunning(s: State) {
    && 1 in s.rows && s.rows[1].status.Processing? && s.rows[1].chain == "c"
    && 2 in s.rows && s.rows[2].status.Processing? && s.rows[2].chain == "c"
  }

  /** The common end: the stopped first row is replayed and claimed again. */
  lemma Reclaimed(states0: seq<State>, calls0: seq<Call>, stopped: Row, b: Row, m: OrderingMode)
    returns (states: seq<State>, calls: seq<Call>)
    requires IsRun(states0, calls0) && states0[|calls0|] == Two(stopped, b, m)
    requires Stopped(stopped.status) && stopped.sequence == 1 && stopped.chain == "c"
    requires b.status.Processing? && b.chain == "c"
    ensures IsRun(states, calls) && calls == calls0 + [Call(ReplayJob(1, ""), 0), Call(Claim("a", SECOND, Some(1)), 0)]
    ensures states0 <= states && BothRunning(states[|calls|])
  {
    var open := ReplayedRow(stopped, "", None, 0);
    states, calls := Then(states0, calls0, Call(ReplayJob(1, ""), 0), Two(open, b, m));
    OnlyCandidate(Two(open, b, m), 1, "a");
    states, calls := Then(states, calls, Call(Claim("a", SECOND, Some(1)), 0), Two(ClaimedRow(open, "a", SECOND, 0), b, m));
  }

  /** A strict chain, its first row completed and its second in processing. */
  lemma CompletedAndRunning() returns (states: seq<State>, calls: seq<Call>)
    ensures PlainRun(states, calls, Strict) && |calls| == 5
    ensures states[5] == Two(CompletedRow(ClaimedRow(NewRow(1, Pending, Strict), "a", SECOND, 0), 0),
                             ClaimedRow(NewRow(2, Pending, Strict), "b", SECOND, 0), Strict)
  {
    var done := CompletedRow(ClaimedRow(NewRow(1, Pending, Strict), "a", SECOND, 0), 0);
    states, calls := FirstClaimed(Strict);
    states, calls := ThenPlain(states, calls, Strict, Call(Complete(1, "a", 1), 0), Two(done, NewRow(2, Pending, Strict), Strict));
    states, calls := SecondClaimed(states, calls, done, Strict);
  }

  /** One confirmed cancel is enough: two strict rows, the first completed, the second in
      processing; the first is confirmed as cancelled by its old worker, replayed and
      claimed again, and two rows of the chain are in processing. */
  lemma ExclusionLost() returns (states: seq<State>, calls: seq<Call>)
    ensures IsRun(states, calls) && |calls| == 8 && StrictUntil(calls, 8, "c")
    ensures calls[5].st == ConfirmCancel(1, "a", 1) && forall k :: 0 <= k < 8 && k != 5 ==> !calls[k].st.ConfirmCancel?
    ensures BothRunning(states[8])
  {
    states, calls := CompletedAndRunning();
    var done, b := states[5].rows[1], states[5].rows[2];
    var cancelled := done.(status := Cancelled);
    states, calls := Then(states, calls, Call(ConfirmCancel(1, "a", 1), 0), Two(cancelled, b, Strict));
    states, calls := Reclaimed(states, calls, cancelled, b, Strict);
  }

  /** A skip-on-failure chain, its first row failed and its second in processing. */
  lemma FailedAndRunning() returns (states: seq<State>, calls: seq<Call>)
    ensures PlainRun(states, calls, SkipOnFailure) && |calls| == 6
    ensures states[6] == Two(FailedRow(ClaimedRow(NewRow(1, Pending, SkipOnFailure), "a", SECOND, 0), "e", true, 0),
                             ClaimedRow(NewRow(2, Pending, SkipOnFailure), "b", SECOND, 0), SkipOnFailure)
  {
    var m := SkipOnFailure;
    var failed := FailedRow(ClaimedRow(NewRow(1, Pending, m), "a", SECOND, 0), "e", true, 0);
    states, calls := FirstClaimed(m);
    states, calls := ThenPlain(states, calls, m, Call(Fail(1, "a", 1, "e", true), 0), Two(failed, NewRow(2, Blocked, m), m));
    states, calls := ThenPlain(states, calls, m, Call(PromoteNext("c", 1), 0), Two(failed, NewRow(2, Pending, m), m));
    states, calls := SecondClaimed(states, calls, failed, m);
  }

  /** Outside strict chains a replay alone does it: the first of two skip-on-failure rows has
      failed, the second is in processing, and the first is replayed and claimed. */
  lemma OverlapInLenientChain() returns (states: seq<State>, calls: seq<Call>)
    ensures IsRun(states, calls) && |calls| == 8 && calls[6].st == ReplayJob(1, "") && Disturbs(states[6], calls[6])
    ensures forall k :: 0 <= k < 8 && k != 6 ==> !Disturbs(states[k], calls[k])
    ensures BothRunning(states[8])
  {
    states, calls := FailedAndRunning();
    var six := states[6];
    states, calls := Reclaimed(states, calls, six.rows[1], six.rows[2], SkipOnFailure);
    assert states[6] == six && DisturbsAt(states[6], calls[6], 1, 2);
    forall k | 0 <= k < 8 && k != 6 ensures !Disturbs(states[k], calls[k]) {
      PlainDisturbsNothing(states[k], calls[k]);
    }
  }

  /** The engine's own calls wedge a chain: the first row is claimed, its handler's context
      ends, the engine asks for a cancel, and the Fail that follows changes nothing. */
  lemma EngineWedgesChain() returns (states: seq<State>, calls: seq<Call>)
    ensures PlainRun(states, calls, Strict) && |calls| == 5
    ensures calls[3].st == RequestCancel(1) && calls[4].st == Fail(1, "a", 1, "context canceled", true)
    ensures states[5] == states[4]
    ensures 1 in states[5].rows && states[5].rows[1].status.CancelRequested?
    ensures 2 in states[5].rows && states[5].rows[2].status.Blocked?
    ensures forall at :: Candidates(states[5].rows, at) == {}
  {
    var asked := ClaimedRow(NewRow(1, Pending, Strict), "a", SECOND, 0).(status := CancelRequested);
    var s := Two(asked, NewRow(2, Blocked, Strict), Strict);
    states, calls := FirstClaimed(Strict);
    states, calls := ThenPlain(states, calls, Strict, Call(RequestCancel(1), 0), s);
    var four := states[4];
    states, calls := ThenPlain(states, calls, Strict, Call(Fail(1, "a", 1, "context canceled", true), 0), s);
    assert states[4] == four;
  }
}
