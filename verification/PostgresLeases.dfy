/** A live worker is never recovered on PostgreSQL, with leases rounded to seconds. */
module PostgresLeases {
  import opened Wrappers
  import opened Lifecycle
  import opened Jobs
  import opened Rows
  import opened Postgres
  import opened PostgresOrder
  import opened Lease

  /** A claim of row `i`, or a heartbeat that its worker's token carries through. */
  predicate Beats(s: State, c: Call, i: RowId) {
    || (c.st.Claim? && c.st.pick == Some(i))
    || (c.st.Heartbeat? && c.st.id == i && Hits(s.rows, i, c.st.worker, c.st.generation))
  }

  function LeaseOf(c: Call): Duration {
    if c.st.Claim? || c.st.Heartbeat? then c.st.lease else 0
  }

  /** The calls that end the work on row `i`: its own worker's, and a cancel. */
  predicate Ends(s: State, c: Call, i: RowId) {
    || ((c.st.Complete? || c.st.Fail? || c.st.Retry?) && c.st.id == i && Hits(s.rows, i, c.st.worker, c.st.generation))
    || (c.st.RequestCancel? && c.st.id == i)
    || CancelsRow(s, c, i)
  }

  /** The last beat of row `i` before call `m`, in a stretch that starts with one at `a`. */
  ghost function LastBeat(states: seq<State>, calls: seq<Call>, i: RowId, a: nat, m: nat): (l: nat)
    requires a < m <= |calls| < |states|
    ensures a <= l < m
    decreases m
  {
    if m == a + 1 then a
    else if Beats(states[m - 1], calls[m - 1], i) then m - 1
    else LastBeat(states, calls, i, a, m - 1)
  }

  /** Call `m` comes at most one heartbeat interval after the last beat of row `i`. */
  ghost predicate Punctual(states: seq<State>, calls: seq<Call>, i: RowId, a: nat, m: nat, lease: Duration)
    requires a < m < |calls| < |states|
  {
    calls[m].now <= calls[LastBeat(states, calls, i, a, m)].now + New(lease).heartbeat
  }

  /** Before call `m` row `i` has a punctual worker; the call does not end its work, and
      asks for the lease if it is a beat. */
  ghost predicate Attended(states: seq<State>, calls: seq<Call>, i: RowId, a: nat, m: nat, lease: Duration)
    requires a < m < |calls| < |states|
  {
    && Punctual(states, calls, i, a, m, lease) && !Ends(states[m], calls[m], i)
    && (Beats(states[m], calls[m], i) ==> LeaseOf(calls[m]) == New(lease).leaseDuration)
  }

  /** While its lease lasts, a row in processing leaves it exactly by a call that ends the work. */
  lemma LiveStep(s: State, c: Call, i: RowId)
    requires Sound(s) && Enabled(s, c) && i in s.rows && s.rows[i].status.Processing?
    requires s.rows[i].leaseUntil.Some? && c.now <= s.rows[i].leaseUntil.value
    ensures i in Next(s, c).rows
    ensures Next(s, c).rows[i].status.Processing? <==> !Ends(s, c, i)
    ensures SameToken(s.rows[i], Next(s, c).rows[i])
    ensures !Ends(s, c, i) ==> Next(s, c).rows[i].leaseUntil ==
                               if Beats(s, c, i) then Some(c.now + InSeconds(LeaseOf(c))) else s.rows[i].leaseUntil
  {
    assert RowOk(s, i);
    assert i !in Candidates(s.rows, c.now) && i !in StaleRows(s.rows, c.now);
  }

  /** Row `i` is in processing under the token of `t`, leased until `until`. */
  ghost predicate Works(s: State, i: RowId, t: Row, until: Time) {
    i in s.rows && s.rows[i].status.Processing? && SameToken(t, s.rows[i]) && s.rows[i].leaseUntil == Some(until)
  }

  /** A beat leaves the row in processing, under the lease it asked for. */
  lemma BeatHolds(s: State, c: Call, s2: State, i: RowId)
    requires Enabled(s, c) && s2 == Next(s, c) && Beats(s, c, i)
    ensures i in s2.rows && Works(s2, i, s2.rows[i], c.now + InSeconds(LeaseOf(c)))
  {
  }

  lemma LiveOn(s: State, c: Call, s2: State, i: RowId, t: Row, until: Time)
    requires Sound(s) && Enabled(s, c) && s2 == Next(s, c)
    requires Works(s, i, t, until) && c.now <= until && !Ends(s, c, i)
    ensures Works(s2, i, t, if Beats(s, c, i) then c.now + InSeconds(LeaseOf(c)) else until)
  {
    LiveStep(s, c, i);
  }

  /** A live worker is never recovered: from a claim or heartbeat of row `i` on, as long as
      every call comes at most one heartbeat interval after the last one, and all of them
      ask for the engine's lease, the row stays in processing under its token and no
      recovery picks it, until its own worker or a cancel ends the work. The clock need
      not even be monotone. */
  lemma {:induction false} LiveRowKept(states: seq<State>, calls: seq<Call>, a: nat, b: nat, i: RowId, lease: Duration)
    requires IsRun(states, calls) && a < b < |states| && Beats(states[a], calls[a], i)
    requires LeaseOf(calls[a]) == New(lease).leaseDuration
    requires forall m {:trigger Attended(states, calls, i, a, m, lease)} :: a < m < b ==> Attended(states, calls, i, a, m, lease)
    ensures i in states[a + 1].rows
    ensures Works(states[b], i, states[a + 1].rows[i],
                  calls[LastBeat(states, calls, i, a, b)].now + InSeconds(New(lease).leaseDuration))
    ensures b < |calls| && Punctual(states, calls, i, a, b, lease) ==> i !in StaleRows(states[b].rows, calls[b].now)
    decreases b
  {
    HeartbeatFits(lease);
    assert StepAt(states, calls, b - 1);
    if b == a + 1 {
      BeatHolds(states[a], calls[a], states[b], i);
    } else {
      LiveRowKept(states, calls, a, b - 1, i, lease);
      Reachable(states, calls, b - 1);
      assert Attended(states, calls, i, a, b - 1, lease);
      LiveOn(states[b - 1], calls[b - 1], states[b], i, states[a + 1].rows[i],
             calls[LastBeat(states, calls, i, a, b - 1)].now + InSeconds(New(lease).leaseDuration));
    }
  }
}
