/** Safety over whole runs of the protocol on the in-memory repository. */
module Safety {
  import opened Wrappers
  import opened Lifecycle
  import opened Jobs
  import opened Queue
  import opened Protocol
  import opened Invariants
  import Collections

  // ---------------------------------------------------------------- mutual exclusion

  /** At most one job of a chain is in processing, whatever the modes, and also
      after a replay has reopened a predecessor. */
  lemma OneProcessingPerChain(cfg: Config, states: seq<System>, events: seq<Event>, k: nat, i: JobId, l: JobId)
    requires IsRun(cfg, states, events) && k < |states|
    requires i in states[k].jobs && l in states[k].jobs && states[k].jobs[i].chain == states[k].jobs[l].chain
    requires states[k].jobs[i].status.Processing? && states[k].jobs[l].status.Processing?
    ensures i == l
  {
    Reachable(cfg, states, events, k);
    assert RunsAlone(states[k], i);
  }

  // ---------------------------------------------------------------- strict order

  lemma {:induction false} AllBefore(cfg: Config, s: System, i: JobId, q: int)
    requires Inv(cfg, s) && i in s.jobs && s.jobs[i].generation > 0 && s.jobs[i].chain !in s.lenient
    requires 1 <= q < s.jobs[i].sequence
    ensures HasCompletedAt(s.jobs, s.jobs[i].chain, q)
    decreases s.jobs[i].sequence
  {
    assert InOrder(s, i);
    var p :| CompletedAt(s.jobs, p, s.jobs[i].chain, s.jobs[i].sequence - 1);
    if q < s.jobs[p].sequence {
      assert JobOk(cfg, s, p);
      AllBefore(cfg, s, p, q);
    }
  }

  /** A chain turns lenient only when a job whose mode continues is enqueued to it. */
  lemma {:induction false} StaysStrict(cfg: Config, states: seq<System>, events: seq<Event>, k: nat, c: string)
    requires IsRun(cfg, states, events) && k < |states|
    requires forall m :: 0 <= m < k && events[m].Enqueue? && events[m].req.chain == c ==> !Continues(events[m].req.mode)
    ensures c !in states[k].lenient
  {
    if k > 0 {
      StaysStrict(cfg, states, events, k - 1, c);
      assert StepAt(cfg, states, events, k - 1);
    }
  }

  /** Strict FIFO: in a chain whose enqueues were all strict, when a job has ever
      been claimed, every earlier position exists and is completed. Recoveries,
      cancels, replays, skips, purges and spurious promotions may come anywhere. */
  lemma StrictFifo(cfg: Config, states: seq<System>, events: seq<Event>, k: nat, i: JobId, q: int)
    requires IsRun(cfg, states, events) && k < |states|
    requires i in states[k].jobs && states[k].jobs[i].generation > 0
    requires forall m :: 0 <= m < k && events[m].Enqueue? && events[m].req.chain == states[k].jobs[i].chain
                         ==> !Continues(events[m].req.mode)
    requires 1 <= q < states[k].jobs[i].sequence
    ensures HasCompletedAt(states[k].jobs, states[k].jobs[i].chain, q)
  {
    Reachable(cfg, states, events, k);
    StaysStrict(cfg, states, events, k, states[k].jobs[i].chain);
    AllBefore(cfg, states[k], i, q);
  }

  /** The repository accepts negative positions, but a job there is never claimed,
      nor completed, failed, retried or cancelled by a worker. */
  lemma NonPositiveNeverRuns(cfg: Config, states: seq<System>, events: seq<Event>, k: nat, i: JobId)
    requires IsRun(cfg, states, events) && k < |states|
    requires i in states[k].jobs && states[k].jobs[i].sequence < 1
    ensures states[k].jobs[i].generation == 0
    ensures states[k].jobs[i].status.Pending? || states[k].jobs[i].status.CancelRequested?
  {
    Reachable(cfg, states, events, k);
    assert JobOk(cfg, states[k], i);
  }

  // ---------------------------------------------------------------- order in every mode

  ghost predicate ClaimedAt(jobs: Table, i: JobId, c: string, q: int) {
    && i in jobs && jobs[i].chain == c && jobs[i].sequence == q && jobs[i].generation > 0
    && (jobs[i].status.Completed? || Continues(jobs[i].mode))
  }

  /** The predecessor of a claimed job exists, was claimed itself, and is completed
      unless its mode lets the chain go on after a failure. */
  ghost predicate BehindClaimed(s: System, i: JobId)
    requires i in s.jobs
  {
    var j := s.jobs[i];
    j.generation > 0 && j.sequence != 1 ==>
      exists p {:trigger ClaimedAt(s.jobs, p, j.chain, j.sequence - 1)} :: ClaimedAt(s.jobs, p, j.chain, j.sequence - 1)
  }

  lemma StepKeepsBehind(cfg: Config, s: System, e: Event, i: JobId)
    requires Inv(cfg, s) && Enabled(s, e) && !e.BulkPurge?
    requires i in Apply(cfg, s, e).jobs
    requires i in s.jobs ==> BehindClaimed(s, i)
    ensures BehindClaimed(Apply(cfg, s, e), i)
  {
    var s2 := Apply(cfg, s, e);
    if e.Enqueue? {
      forall l | l in s.jobs ensures l in s.used { assert JobOk(cfg, s, l); }
      EnqueueAddsAtMost(s.jobs, e.req, e.id, s.now);
      if i in s.jobs && s.jobs[i].generation > 0 && s.jobs[i].sequence != 1 {
        var p :| ClaimedAt(s.jobs, p, s.jobs[i].chain, s.jobs[i].sequence - 1);
        assert ClaimedAt(s2.jobs, p, s.jobs[i].chain, s.jobs[i].sequence - 1);
      }
    } else {
      StepUpdates(cfg, s, e);
      UpdateKeepsBehind(cfg, s, e, s2, i);
    }
  }

  lemma UpdateKeepsBehind(cfg: Config, s: System, e: Event, s2: System, i: JobId)
    requires Inv(cfg, s) && Updates(cfg, s, e, s2) && i in s.jobs && BehindClaimed(s, i)
    ensures BehindClaimed(s2, i)
  {
    var j := s.jobs[i];
    var c, q := j.chain, j.sequence - 1;
    Moves(cfg, s, e, s2, i);
    if s2.jobs[i].generation > 0 && j.sequence != 1 {
      var p: JobId;
      if j.generation > 0 {
        p :| ClaimedAt(s.jobs, p, c, q);
      } else {
        p :| FinishedAt(s.jobs, p, c, q);
        assert JobOk(cfg, s, p) && ClaimedAt(s.jobs, p, c, q);
      }
      NeverForgets(cfg, s, e, s2, p);
      assert ClaimedAt(s2.jobs, p, c, q);
      assert s2.jobs[i].chain == c && s2.jobs[i].sequence - 1 == q;
      assert ClaimedAt(s2.jobs, p, s2.jobs[i].chain, s2.jobs[i].sequence - 1);
    }
  }

  lemma NeverForgets(cfg: Config, s: System, e: Event, s2: System, p: JobId)
    requires Inv(cfg, s) && Updates(cfg, s, e, s2) && p in s.jobs
    ensures SameIdentity(s.jobs[p], s2.jobs[p])
    ensures s2.jobs[p].generation >= s.jobs[p].generation
    ensures s.jobs[p].status.Completed? ==> s2.jobs[p].status.Completed? && SameCounters(s.jobs[p], s2.jobs[p])
  {
    Moves(cfg, s, e, s2, p);
    if s.jobs[p].status.Completed? { UpdateKeepsCompleted(cfg, s, e, s2, p); }
  }

  /** In every mode and every purge-free run, jobs are first claimed in order. */
  lemma {:induction false} ClaimOrder(cfg: Config, states: seq<System>, events: seq<Event>, k: nat, i: JobId)
    requires IsRun(cfg, states, events) && k < |states|
    requires forall m :: 0 <= m < k ==> !events[m].BulkPurge?
    requires i in states[k].jobs
    ensures BehindClaimed(states[k], i)
  {
    if k > 0 {
      Reachable(cfg, states, events, k - 1);
      assert StepAt(cfg, states, events, k - 1);
      if i in states[k - 1].jobs { ClaimOrder(cfg, states, events, k - 1, i); }
      StepKeepsBehind(cfg, states[k - 1], events[k - 1], i);
    }
  }

  // ---------------------------------------------------------------- fencing

  lemma StepKeepsCompleted(cfg: Config, s: System, e: Event, i: JobId)
    requires Inv(cfg, s) && Enabled(s, e) && i in s.jobs && s.jobs[i].status.Completed?
    ensures i in Apply(cfg, s, e).jobs && Apply(cfg, s, e).jobs[i].status.Completed?
    ensures SameCounters(s.jobs[i], Apply(cfg, s, e).jobs[i])
  {
    if e.Enqueue? {
      assert JobOk(cfg, s, i);
      forall l | l in s.jobs ensures l in s.used { assert JobOk(cfg, s, l); }
      EnqueueAddsAtMost(s.jobs, e.req, e.id, s.now);
    } else if !e.BulkPurge? {
      StepUpdates(cfg, s, e);
      UpdateKeepsCompleted(cfg, s, e, Apply(cfg, s, e), i);
    }
  }

  /** Completed is absorbing. */
  lemma {:induction false} CompletedForever(cfg: Config, states: seq<System>, events: seq<Event>, a: nat, b: nat, i: JobId)
    requires IsRun(cfg, states, events) && a <= b < |states|
    requires i in states[a].jobs && states[a].jobs[i].status.Completed?
    ensures i in states[b].jobs && states[b].jobs[i].status.Completed?
    ensures SameCounters(states[a].jobs[i], states[b].jobs[i])
    decreases b
  {
    if a < b {
      CompletedForever(cfg, states, events, a, b - 1, i);
      Reachable(cfg, states, events, b - 1);
      assert StepAt(cfg, states, events, b - 1);
      StepKeepsCompleted(cfg, states[b - 1], events[b - 1], i);
    }
  }

  /** The event is a Complete call that takes effect on job `i`. */
  predicate Completes(s: System, e: Event, i: JobId) {
    e.Succeed? && e.job.id == i && Accepts(s, e.job)
  }

  /** At most one Complete call per job ever takes effect. */
  lemma CompletesOnce(cfg: Config, states: seq<System>, events: seq<Event>, a: nat, b: nat, i: JobId)
    requires IsRun(cfg, states, events) && a <= b < |events|
    requires Completes(states[a], events[a], i) && Completes(states[b], events[b], i)
    ensures a == b
  {
    Reachable(cfg, states, events, a);
    Reachable(cfg, states, events, b);
    assert StepAt(cfg, states, events, a) && StepAt(cfg, states, events, b);
    if a < b {
      assert states[a + 1].jobs[i].status.Completed?;
      CompletedForever(cfg, states, events, a + 1, b, i);
    }
    assert TokenOk(states[b], events[b].job);
  }

  /** Generation `g` of job `i` is in the past: a later claim took the job, or it was purged. */
  ghost predicate Outdated(s: System, i: JobId, g: int) {
    i in s.used && (i in s.jobs ==> s.jobs[i].generation > g)
  }

  lemma StepKeepsOutdated(cfg: Config, s: System, e: Event, i: JobId, g: int)
    requires Inv(cfg, s) && Enabled(s, e) && Outdated(s, i, g)
    ensures Outdated(Apply(cfg, s, e), i, g)
  {
    var s2 := Apply(cfg, s, e);
    if e.Enqueue? {
      forall l | l in s.jobs ensures l in s.used { assert JobOk(cfg, s, l); }
      EnqueueAddsAtMost(s.jobs, e.req, e.id, s.now);
    } else if !e.BulkPurge? {
      StepUpdates(cfg, s, e);
      if i in s.jobs { NeverForgets(cfg, s, e, s2, i); }
    }
  }

  /** A finishing call or a heartbeat that presents generation `g` of job `i`. */
  predicate Presents(e: Event, i: JobId, g: int) {
    || FinishesWith(e, i, g)
    || (e.Heartbeat? && e.id == i && e.generation == g)
  }

  lemma OutdatedHasNoEffect(cfg: Config, s: System, i: JobId, g: int, e: Event)
    requires Outdated(s, i, g) && Presents(e, i, g)
    ensures JobsAfter(cfg, s, e) == s.jobs
  {
  }

  /** Fencing: once a generation is outdated, every finishing call and every
      heartbeat that presents it is refused, for ever and with no effect on the jobs. */
  lemma {:induction false} OldTokenRefused(cfg: Config, states: seq<System>, events: seq<Event>, a: nat, b: nat, i: JobId,
        w: string, g: int, e: Event)
    requires IsRun(cfg, states, events) && a <= b < |states| && Outdated(states[a], i, g)
    ensures Outdated(states[b], i, g)
    ensures Fence(states[b].jobs, i, w, g).Some?
    ensures Presents(e, i, g) ==> JobsAfter(cfg, states[b], e) == states[b].jobs
    decreases b
  {
    if a < b {
      OldTokenRefused(cfg, states, events, a, b - 1, i, w, g, e);
      Reachable(cfg, states, events, b - 1);
      assert StepAt(cfg, states, events, b - 1);
      StepKeepsOutdated(cfg, states[b - 1], events[b - 1], i, g);
    }
    if Presents(e, i, g) { OutdatedHasNoEffect(cfg, states[b], i, g, e); }
  }

  /** What recovery in memory does not do: it leaves the generation alone, so until
      the job is claimed again its first worker can still complete it. */
  lemma RecoveredTokenStillCompletes(cfg: Config, s: System, t: Job, b: Backoffs)
    requires Inv(cfg, s) && t in s.held && Accepts(s, t) && IsStale(s.jobs[t.id], s.now)
    ensures var r := Apply(cfg, s, Recover({t.id}, 1, b));
            && Enabled(s, Recover({t.id}, 1, b))
            && r.jobs[t.id].status.Retrying?
            && Enabled(r, Succeed(t)) && Apply(cfg, r, Succeed(t)).jobs[t.id].status.Completed?
  {
    assert {t.id} <= Stale(s.jobs, s.now);
    Collections.SubsetSize({t.id}, Stale(s.jobs, s.now));
    assert |{t.id}| == 1;
    assert KeysMatch(s.jobs);
  }

  // ---------------------------------------------------------------- attempts and leases

  /** Between replays a job is attempted at most its budget plus once per stale recovery. */
  lemma AttemptBudget(cfg: Config, states: seq<System>, events: seq<Event>, k: nat, i: JobId)
    requires IsRun(cfg, states, events) && k < |states| && i in states[k].jobs
    ensures states[k].jobs[i].attempt <= Budget(cfg, states[k].jobs[i]) + Recoveries(states[k], i)
  {
    Reachable(cfg, states, events, k);
    assert JobOk(cfg, states[k], i);
  }

  /** The retry decision is taken on fresh data: a token that the fence accepts
      carries the stored attempt count, limit and mode. */
  lemma SnapshotAgrees(cfg: Config, states: seq<System>, events: seq<Event>, k: nat, t: Job)
    requires IsRun(cfg, states, events) && k < |states| && t in states[k].held && Accepts(states[k], t)
    ensures var j := states[k].jobs[t.id];
            t.attempt == j.attempt && t.maxAttempts == j.maxAttempts && t.mode == j.mode && Where(t) == Where(j) && InFlight(j.status)
  {
    Reachable(cfg, states, events, k);
    assert TokenOk(states[k], t);
  }
}
