/** No lost promotions, and no chain that wedges silently. */
module Liveness {
  import opened Wrappers
  import opened Lifecycle
  import opened Jobs
  import opened Queue
  import opened Protocol
  import opened Invariants

  // ---------------------------------------------------------------- gap-freedom

  lemma IdentityKeepsClosed(before: Table, after: Table)
    requires PredecessorClosed(before) && KeepsIdentity(before, after)
    ensures PredecessorClosed(after)
  {
    forall i | i in after && after[i].sequence > 1 ensures HasJobAt(after, after[i].chain, after[i].sequence - 1) {
      assert SameIdentity(before[i], after[i]);
      var p := At(before, before[i].chain, before[i].sequence - 1);
      assert SameIdentity(before[p], after[p]);
    }
  }

  /** In a purge-free run every job past position 1 has a predecessor. */
  lemma {:induction false} NoGaps(cfg: Config, states: seq<System>, events: seq<Event>, k: nat)
    requires IsRun(cfg, states, events) && k < |states|
    requires forall m :: 0 <= m < k ==> !events[m].BulkPurge?
    ensures PredecessorClosed(states[k].jobs)
  {
    if k > 0 {
      NoGaps(cfg, states, events, k - 1);
      Reachable(cfg, states, events, k - 1);
      assert StepAt(cfg, states, events, k - 1);
      var s, e := states[k - 1], events[k - 1];
      if e.Enqueue? {
        forall l | l in s.jobs ensures l in s.used { assert JobOk(cfg, s, l); }
        EnqueueAdds(s.jobs, e.req, e.id, s.now);
      } else {
        StepUpdates(cfg, s, e);
        IdentityFollows(cfg, s, e, states[k]);
        IdentityKeepsClosed(s.jobs, states[k].jobs);
      }
    }
  }

  /** Gap-freedom over purge-free runs: the positive positions of each chain are exactly
      1..max, and the next enqueue gets max + 1 or, if it insists on another positive
      position, is refused. */
  lemma GapFreeRuns(cfg: Config, states: seq<System>, events: seq<Event>, k: nat, c: string, q: int)
    requires IsRun(cfg, states, events) && k < |states| && q >= 1
    requires forall m :: 0 <= m < k ==> !events[m].BulkPurge?
    ensures var jobs := states[k].jobs;
            var next := MaxSeq(jobs, c) + 1;
            && (HasJobAt(jobs, c, q) <==> q < next)
            && ResolveSequence(jobs, c, 0) == Success(next)
            && (if q == next then ResolveSequence(jobs, c, q) == Success(next) else ResolveSequence(jobs, c, q).Failure?)
  {
    NoGaps(cfg, states, events, k);
    GapFree(states[k].jobs, c, q);
    AcceptedPositions(states[k].jobs, c, q);
  }

  /** The job `i` stays while the purge takes the job directly before it. */
  ghost predicate Orphaned(jobs: Table, f: JobFilter, i: JobId) {
    i in jobs && jobs[i].sequence > 1 && i !in Matching(jobs, f) && BehindOneOf(jobs, Matching(jobs, f), jobs[i])
  }

  lemma OrphanHasNone(jobs: Table, f: JobFilter, i: JobId)
    requires WellFormed(jobs) && PredecessorClosed(jobs)
    requires i in BulkPurged(jobs, f) && jobs[i].sequence > 1
    ensures HasJobAt(BulkPurged(jobs, f), jobs[i].chain, jobs[i].sequence - 1) <==> !Orphaned(jobs, f, i)
  {
    var after, hit := BulkPurged(jobs, f), Matching(jobs, f);
    var p := At(jobs, jobs[i].chain, jobs[i].sequence - 1);
    assert AloneAt(jobs, p);
    if p in hit {
      assert Before(jobs[p], jobs[i]);
    } else {
      assert p in after && after[p] == jobs[p];
    }
  }

  /** A purge leaves a gap exactly when it takes a job and keeps the one behind it. */
  lemma PurgeGaps(jobs: Table, f: JobFilter)
    requires WellFormed(jobs) && PredecessorClosed(jobs)
    ensures PredecessorClosed(BulkPurged(jobs, f)) <==> forall i :: !Orphaned(jobs, f, i)
  {
    forall i | i in BulkPurged(jobs, f) && jobs[i].sequence > 1
      ensures HasJobAt(BulkPurged(jobs, f), jobs[i].chain, jobs[i].sequence - 1) <==> !Orphaned(jobs, f, i)
    {
      OrphanHasNone(jobs, f, i);
    }
    forall i | Orphaned(jobs, f, i) ensures i in BulkPurged(jobs, f) {}
  }

  // ---------------------------------------------------------------- promotions

  /** A job with no handler was failed although its mode lets the chain go on. */
  predicate Abandons(e: Event) {
    e.HandlerMissing? && Continues(e.job.mode)
  }

  lemma {:induction false} NothingAbandoned(cfg: Config, states: seq<System>, events: seq<Event>, k: nat)
    requires IsRun(cfg, states, events) && k < |states|
    requires forall m :: 0 <= m < k ==> !Abandons(events[m])
    ensures states[k].abandoned == {}
  {
    if k > 0 {
      NothingAbandoned(cfg, states, events, k - 1);
      assert StepAt(cfg, states, events, k - 1);
    }
  }

  /** Behind a finished predecessor a job is blocked only while a worker still owes the PromoteNext. */
  ghost predicate NotLost(s: System, i: JobId)
    requires i in s.jobs
  {
    var j := s.jobs[i];
    j.status.Blocked? && HasFinishedAt(s.jobs, j.chain, j.sequence - 1) ==> (j.chain, j.sequence - 1) in s.owed
  }

  /** No lost promotion: a blocked job stands past position 1, has never been claimed,
      and its predecessor is missing, unfinished, or about to be followed by a PromoteNext. */
  lemma NoLostPromotion(cfg: Config, states: seq<System>, events: seq<Event>, k: nat, i: JobId)
    requires IsRun(cfg, states, events) && k < |states|
    requires forall m :: 0 <= m < k ==> !Abandons(events[m])
    requires i in states[k].jobs && states[k].jobs[i].status.Blocked?
    ensures states[k].jobs[i].sequence > 1 && states[k].jobs[i].generation == 0
    ensures NotLost(states[k], i)
  {
    Reachable(cfg, states, events, k);
    NothingAbandoned(cfg, states, events, k);
    assert JobOk(cfg, states[k], i) && Promised(states[k], i);
  }

  /** The handler-not-found path fails the job without promoting its successor. It
      loses a promotion exactly when the call takes effect, the mode lets the chain go
      on, the successor is blocked, and no other worker owes the same promotion. */
  lemma HandlerMissingLoses(cfg: Config, s: System, t: Job, msg: string)
    requires Inv(cfg, s) && s.abandoned == {} && t in s.held
    ensures var s2 := Apply(cfg, s, HandlerMissing(t, msg));
            (forall i :: i in s2.jobs ==> NotLost(s2, i)) <==>
            !(Accepts(s, t) && Continues(t.mode) && !OpenAt(s.jobs, t.chain, t.sequence + 1) && Where(t) !in s.owed)
  {
    var e := HandlerMissing(t, msg);
    var s2 := Apply(cfg, s, e);
    StepKeepsInv(cfg, s, e);
    forall i | i in s2.jobs ensures Promised(s2, i) {}
    assert TokenOk(s, t);
    if Accepts(s, t) && Continues(t.mode) && Where(t) !in s.owed {
      if OpenAt(s.jobs, t.chain, t.sequence + 1) {
        forall i | i in s2.jobs ensures NotLost(s2, i) {
          assert Promised(s2, i) && NotBlockedAt(s.jobs, i, t.chain, t.sequence + 1);
        }
      } else {
        var i :| i in s.jobs && !NotBlockedAt(s.jobs, i, t.chain, t.sequence + 1);
        assert FinishedAt(s2.jobs, t.id, t.chain, t.sequence);
        assert !NotLost(s2, i);
      }
    }
  }

  // ---------------------------------------------------------------- a lost promotion

  const LAX := Config(5, Strict, 60)

  function Request(q: int): EnqueueRequest {
    EnqueueRequest("c", q, "t", "", "", "", "", SkipOnFailure, 0, None, None)
  }

  function Waiting(q: nat, status: Status): Job {
    NewJob(Request(q), q, q, status, 0)
  }

  const ONE: Table := map[1 := Waiting(1, Pending)]
  const TWO: Table := map[1 := Waiting(1, Pending), 2 := Waiting(2, Blocked)]

  function Queued(jobs: Table, used: set<JobId>): System {
    Init(0).(jobs := jobs, used := used, lenient := {"c"})
  }

  lemma TwoEnqueues()
    ensures Apply(LAX, Init(0), Enqueue(Request(1), 1)) == Queued(ONE, {1})
    ensures Apply(LAX, Queued(ONE, {1}), Enqueue(Request(2), 2)) == Queued(TWO, {1, 2})
  {
    assert !HasJobAt(map[], "c", 1);
    assert 1 in ONE && ONE[1].chain == "c" && ONE[1].sequence == 1;
    assert HasJobAt(ONE, "c", 1) && !HasJobAt(ONE, "c", 2) && !HasFinishedAt(ONE, "c", 1);
    assert ResolveSequence(map[], "c", 1) == Success(1) && ResolveSequence(ONE, "c", 2) == Success(2);
    assert {1} + {2} == {1, 2};
  }

  lemma ClaimThenFail(t: Job)
    requires t == Claimed(Waiting(1, Pending), "w", 60, 0)
    ensures var s3 := Apply(LAX, Queued(TWO, {1, 2}), Claim("w", Some(1)));
            var s4 := Apply(LAX, s3, HandlerMissing(t, "no handler"));
            && Earliest(TWO, 1, 0) && t in s3.held && s4.owed == {}
            && 2 in s4.jobs && s4.jobs[2].status.Blocked? && HasFinishedAt(s4.jobs, "c", 1) && !NotLost(s4, 2)
            && forall at, k :: !Claimable(s4.jobs, k, at)
  {
    assert Claimable(TWO, 1, 0) && !Claimable(TWO, 2, 0);
    var s3 := Apply(LAX, Queued(TWO, {1, 2}), Claim("w", Some(1)));
    assert FinishedAt(Apply(LAX, s3, HandlerMissing(t, "no handler")).jobs, 1, "c", 1);
  }

  /** Two skip-on-failure jobs, the first of an unregistered type: after its failure the
      second stays blocked behind a finished job, owed nothing, and no claim ever finds it. */
  lemma LostPromotion() returns (states: seq<System>, events: seq<Event>)
    ensures IsRun(LAX, states, events) && |events| == 4
    ensures var s := states[4];
            && 2 in s.jobs && s.jobs[2].status.Blocked? && HasFinishedAt(s.jobs, "c", 1)
            && s.owed == {} && !NotLost(s, 2)
            && forall at, k :: !Claimable(s.jobs, k, at)
  {
    var t := Claimed(Waiting(1, Pending), "w", 60, 0);
    TwoEnqueues();
    ClaimThenFail(t);
    states, events := [Init(0)], [];
    states, events := Extend(LAX, states, events, Enqueue(Request(1), 1));
    states, events := Extend(LAX, states, events, Enqueue(Request(2), 2));
    states, events := Extend(LAX, states, events, Claim("w", Some(1)));
    states, events := Extend(LAX, states, events, HandlerMissing(t, "no handler"));
  }

  // ---------------------------------------------------------------- no silent wedge

  /** `i` is the lowest unfinished job of the positive positions of its chain. */
  ghost predicate LowestUnfinished(jobs: Table, i: JobId) {
    && i in jobs && jobs[i].sequence >= 1 && !IsFinished(jobs[i])
    && forall p :: p in jobs && jobs[p].chain == jobs[i].chain && 1 <= jobs[p].sequence < jobs[i].sequence ==> IsFinished(jobs[p])
  }

  /** The front job of an idle chain, if it waits at all, waits for the clock alone. */
  lemma FrontIsClaimable(cfg: Config, s: System, i: JobId, at: Time)
    requires Inv(cfg, s) && PredecessorClosed(s.jobs) && LowestUnfinished(s.jobs, i)
    requires !Busy(s.jobs, s.jobs[i].chain)
    requires s.jobs[i].status.Blocked? || CanBeClaimed(s.jobs[i].status)
    requires (s.jobs[i].chain, s.jobs[i].sequence - 1) !in s.owed + s.abandoned
    requires at >= s.jobs[i].availableAt
    ensures !s.jobs[i].status.Blocked? && Claimable(s.jobs, i, at)
  {
    var j := s.jobs[i];
    assert JobOk(cfg, s, i) && Promised(s, i);
    if j.sequence > 1 {
      var p := At(s.jobs, j.chain, j.sequence - 1);
      assert FinishedAt(s.jobs, p, j.chain, j.sequence - 1);
    }
  }

  /** No chain wedges silently: in a purge-free run in which no promotion is owed or was
      abandoned, the lowest unfinished job of an idle chain, if it is blocked, pending
      or retrying, is in fact not blocked, and a claim at or after its time finds work.
      (`Repository.Claim` succeeds exactly when some job is claimable.) */
  lemma NoSilentWedge(cfg: Config, states: seq<System>, events: seq<Event>, k: nat, i: JobId, at: Time)
    requires IsRun(cfg, states, events) && k < |states|
    requires forall m :: 0 <= m < k ==> !events[m].BulkPurge? && !Abandons(events[m])
    requires LowestUnfinished(states[k].jobs, i) && !Busy(states[k].jobs, states[k].jobs[i].chain)
    requires states[k].jobs[i].status.Blocked? || CanBeClaimed(states[k].jobs[i].status)
    requires states[k].owed == {} && at >= states[k].jobs[i].availableAt
    ensures !states[k].jobs[i].status.Blocked?
    ensures Claimable(states[k].jobs, i, at)
  {
    Reachable(cfg, states, events, k);
    NoGaps(cfg, states, events, k);
    NothingAbandoned(cfg, states, events, k);
    FrontIsClaimable(cfg, states[k], i, at);
  }

  /** The same in every run, purges and missing handlers included: the front job of an idle
      chain is claimable from its time on exactly when it stands at position 1 or behind
      a job that still exists, and is not blocked; and it is blocked behind an existing
      job only if the promotion is owed or was abandoned. */
  lemma FrontWaitsExactly(cfg: Config, states: seq<System>, events: seq<Event>, k: nat, i: JobId, at: Time)
    requires IsRun(cfg, states, events) && k < |states|
    requires LowestUnfinished(states[k].jobs, i) && !Busy(states[k].jobs, states[k].jobs[i].chain)
    requires states[k].jobs[i].status.Blocked? || CanBeClaimed(states[k].jobs[i].status)
    requires at >= states[k].jobs[i].availableAt
    ensures var j := states[k].jobs[i];
            var follows := HasJobAt(states[k].jobs, j.chain, j.sequence - 1);
            && (Claimable(states[k].jobs, i, at) <==> !j.status.Blocked? && (j.sequence == 1 || follows))
            && (j.status.Blocked? && follows ==> (j.chain, j.sequence - 1) in states[k].owed + states[k].abandoned)
  {
    Reachable(cfg, states, events, k);
    var jobs := states[k].jobs;
    var j := jobs[i];
    assert JobOk(cfg, states[k], i) && Promised(states[k], i);
    if j.sequence > 1 && HasJobAt(jobs, j.chain, j.sequence - 1) {
      assert FinishedAt(jobs, At(jobs, j.chain, j.sequence - 1), j.chain, j.sequence - 1);
    }
    if HasFinishedAt(jobs, j.chain, j.sequence - 1) {
      var p :| FinishedAt(jobs, p, j.chain, j.sequence - 1);
    }
  }
}
