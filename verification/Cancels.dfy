/** What a cancel request does in memory: a waiting job that no worker holds stays
    CANCEL_REQUESTED for ever, and what is behind it waits with it. */
module Cancels {
  import opened Wrappers
  import opened Lifecycle
  import opened Jobs
  import opened Queue
  import opened Protocol
  import opened Invariants
  import Safety

  /** Job `i` is asked to cancel. */
  ghost predicate Asked(s: System, i: JobId) {
    i in s.jobs && s.jobs[i].status.CancelRequested?
  }

  /** No worker holds a token of the generation that job `i` is in. */
  ghost predicate NoToken(s: System, i: JobId)
    requires i in s.jobs
  {
    forall t :: t in s.held && t.id == i ==> t.generation != s.jobs[i].generation
  }

  /** The call presents a token that the fence accepts for job `i`. */
  predicate Decides(s: System, e: Event, i: JobId)
    requires i in s.jobs
  {
    FinishesWith(e, i, s.jobs[i].generation) && Accepts(s, e.job)
  }

  lemma UpdateKeepsAsked(cfg: Config, s: System, e: Event, s2: System, i: JobId)
    requires Inv(cfg, s) && Updates(cfg, s, e, s2) && Asked(s, i)
    ensures SameIdentity(s.jobs[i], s2.jobs[i]) && SameCounters(s.jobs[i], s2.jobs[i])
    ensures Asked(s2, i) || FinishesWith(e, i, s.jobs[i].generation)
  {
    assert ChangedAt(cfg, s, e, s2, i);
    if WasDecided(cfg, s, s2, i) { var t := DecidedByCurrent(cfg, s, s2, i); }
  }

  lemma DecisionMoves(cfg: Config, s: System, e: Event, i: JobId)
    requires KeysMatch(s.jobs) && Enabled(s, e) && Asked(s, i) && FinishesWith(e, i, s.jobs[i].generation)
    ensures i in Apply(cfg, s, e).jobs
    ensures Apply(cfg, s, e).jobs[i].status.CancelRequested? <==> !Accepts(s, e.job)
  {
  }

  /** A job asked to cancel is never deleted, and leaves that status exactly when a worker
      presents the token of its last claim: replay, skip and recovery refuse it. */
  lemma AskedLeaves(cfg: Config, s: System, e: Event, i: JobId)
    requires Inv(cfg, s) && Enabled(s, e) && Asked(s, i)
    ensures var s2 := Apply(cfg, s, e);
            && i in s2.jobs && SameIdentity(s.jobs[i], s2.jobs[i]) && SameCounters(s.jobs[i], s2.jobs[i])
            && (Asked(s2, i) <==> !Decides(s, e, i))
  {
    var s2 := Apply(cfg, s, e);
    if e.Enqueue? {
      forall l | l in s.jobs ensures l in s.used { assert JobOk(cfg, s, l); }
      EnqueueAddsAtMost(s.jobs, e.req, e.id, s.now);
    } else if !e.BulkPurge? {
      StepUpdates(cfg, s, e);
      UpdateKeepsAsked(cfg, s, e, s2, i);
      if FinishesWith(e, i, s.jobs[i].generation) { DecisionMoves(cfg, s, e, i); }
    }
  }

  /** Nothing but a claim hands out a token, and a job asked to cancel is not claimed. */
  lemma StaysTokenless(cfg: Config, s: System, e: Event, i: JobId)
    requires Inv(cfg, s) && Enabled(s, e) && Asked(s, i) && NoToken(s, i)
    ensures Asked(Apply(cfg, s, e), i) && NoToken(Apply(cfg, s, e), i)
    ensures SameIdentity(s.jobs[i], Apply(cfg, s, e).jobs[i]) && SameCounters(s.jobs[i], Apply(cfg, s, e).jobs[i])
  {
    var s2 := Apply(cfg, s, e);
    AskedLeaves(cfg, s, e, i);
    if !e.Enqueue? && !e.BulkPurge? {
      StepUpdates(cfg, s, e);
      assert forall t :: t in s2.held && t !in s.held && t.id == i ==> t.generation == s.jobs[i].generation + 1;
    }
  }

  lemma {:induction false} AskedForever(cfg: Config, states: seq<System>, events: seq<Event>, a: nat, b: nat, i: JobId)
    requires IsRun(cfg, states, events) && a <= b < |states| && Asked(states[a], i) && NoToken(states[a], i)
    ensures Asked(states[b], i) && NoToken(states[b], i) && SameIdentity(states[a].jobs[i], states[b].jobs[i])
    decreases b
  {
    if a < b {
      AskedForever(cfg, states, events, a, b - 1, i);
      Reachable(cfg, states, events, b - 1);
      assert StepAt(cfg, states, events, b - 1);
      StaysTokenless(cfg, states[b - 1], events[b - 1], i);
    }
  }

  /** A job that has never been claimed has no token. */
  lemma UnclaimedHasNoToken(cfg: Config, s: System, i: JobId)
    requires Inv(cfg, s) && i in s.jobs && s.jobs[i].generation == 0
    ensures NoToken(s, i)
  {
    forall t | t in s.held ensures t.generation > 0 { assert TokenOk(s, t); }
  }

  lemma NotCompleted(cfg: Config, s: System, i: JobId)
    requires Inv(cfg, s) && Asked(s, i)
    ensures !HasCompletedAt(s.jobs, s.jobs[i].chain, s.jobs[i].sequence)
  {
    assert AloneAt(s.jobs, i);
  }

  /** So a cancel request on a job that was never claimed wedges its chain for good, if the
      chain is strict: nothing behind the job is ever claimed. */
  lemma CancelWedgesChain(cfg: Config, states: seq<System>, events: seq<Event>, a: nat, b: nat, i: JobId, l: JobId)
    requires IsRun(cfg, states, events) && a <= b < |states|
    requires Asked(states[a], i) && states[a].jobs[i].generation == 0 && states[a].jobs[i].sequence >= 1
    requires l in states[b].jobs && states[b].jobs[l].chain == states[a].jobs[i].chain
    requires states[b].jobs[l].sequence > states[a].jobs[i].sequence
    requires forall m :: 0 <= m < b && events[m].Enqueue? && events[m].req.chain == states[a].jobs[i].chain
                         ==> !Continues(events[m].req.mode)
    ensures Asked(states[b], i) && states[b].jobs[l].generation == 0
  {
    Reachable(cfg, states, events, a);
    UnclaimedHasNoToken(cfg, states[a], i);
    AskedForever(cfg, states, events, a, b, i);
    Reachable(cfg, states, events, b);
    assert JobOk(cfg, states[b], l);
    NotCompleted(cfg, states[b], i);
    if states[b].jobs[l].generation > 0 {
      Safety.StrictFifo(cfg, states, events, b, l, states[a].jobs[i].sequence);
    }
  }

  // ---------------------------------------------------------------- a chain that stands still

  const ANY := Config(5, Strict, 60)

  function Request(q: int): EnqueueRequest {
    EnqueueRequest("c", q, "t", "", "", "", "", Strict, 0, None, None)
  }

  function Queued(q: nat, status: Status): Job {
    NewJob(Request(q), q, q, status, 0)
  }

  function Holding(jobs: Table): System {
    Init(0).(jobs := jobs, used := jobs.Keys)
  }

  lemma TwoEnqueues()
    ensures Apply(ANY, Init(0), Enqueue(Request(1), 1)) == Holding(map[1 := Queued(1, Pending)])
    ensures Apply(ANY, Holding(map[1 := Queued(1, Pending)]), Enqueue(Request(2), 2))
            == Holding(map[1 := Queued(1, Pending), 2 := Queued(2, Blocked)])
  {
    var one := map[1 := Queued(1, Pending)];
    assert !HasJobAt(map[], "c", 1);
    assert 1 in one && one[1].chain == "c" && one[1].sequence == 1;
    assert HasJobAt(one, "c", 1) && !HasJobAt(one, "c", 2) && !HasFinishedAt(one, "c", 1);
    assert ResolveSequence(map[], "c", 1) == Success(1) && ResolveSequence(one, "c", 2) == Success(2);
  }

  /** Two enqueues and one cancel request, and no claim ever finds anything. */
  lemma CancelStopsChain() returns (states: seq<System>, events: seq<Event>)
    ensures IsRun(ANY, states, events) && |events| == 3 && events[2] == RequestCancel(1)
    ensures Asked(states[3], 1) && states[3].jobs[1].generation == 0
    ensures 2 in states[3].jobs && states[3].jobs[2].status.Blocked?
    ensures forall at, k :: !Claimable(states[3].jobs, k, at)
  {
    TwoEnqueues();
    states, events := [Init(0)], [];
    states, events := Extend(ANY, states, events, Enqueue(Request(1), 1));
    states, events := Extend(ANY, states, events, Enqueue(Request(2), 2));
    states, events := Extend(ANY, states, events, RequestCancel(1));
  }
}
