/** What leases and heartbeats guarantee to a live worker. */
module LiveWorkers {
  import opened Wrappers
  import opened Lifecycle
  import opened Jobs
  import opened Queue
  import opened Protocol
  import opened Invariants
  import opened Lease
  import Collections
  import Effects

  /** The worker of job `i` has claimed it or beaten at most `h` ago. */
  predicate Punctual(s: System, i: JobId, h: Duration) {
    i in s.beat && s.now <= s.beat[i] + h
  }

  lemma PunctualIsNotStale(cfg: Config, s: System, i: JobId, h: Duration)
    requires Inv(cfg, s) && i in s.jobs && Punctual(s, i, h) && h <= cfg.lease
    ensures !IsStale(s.jobs[i], s.now)
  {
    assert JobOk(cfg, s, i);
  }

  lemma StepKeepsLive(cfg: Config, s: System, e: Event, i: JobId, h: Duration)
    requires Inv(cfg, s) && Enabled(s, e) && i in s.jobs && s.jobs[i].status.Processing?
    requires Punctual(s, i, h) && h <= cfg.lease && !FinishesWith(e, i, s.jobs[i].generation)
    ensures i in Apply(cfg, s, e).jobs
    ensures Apply(cfg, s, e).jobs[i].status.Processing? && Apply(cfg, s, e).jobs[i].generation == s.jobs[i].generation
  {
    PunctualIsNotStale(cfg, s, i, h);
    if e.Enqueue? {
      forall l | l in s.jobs ensures l in s.used { assert JobOk(cfg, s, l); }
      EnqueueAddsAtMost(s.jobs, e.req, e.id, s.now);
    } else if !e.BulkPurge? {
      StepUpdates(cfg, s, e);
      OnlyItsWorkerEnds(cfg, s, e, Apply(cfg, s, e), i);
    }
  }

  lemma OnlyItsWorkerEnds(cfg: Config, s: System, e: Event, s2: System, i: JobId)
    requires Updates(cfg, s, e, s2) && i in s.jobs && s.jobs[i].status.Processing?
    requires !IsStale(s.jobs[i], s.now) && !FinishesWith(e, i, s.jobs[i].generation)
    ensures s2.jobs[i].status.Processing? && s2.jobs[i].generation == s.jobs[i].generation
  {
    assert ChangedAt(cfg, s, e, s2, i);
  }

  /** A live worker is never recovered: from a claim on, while claims and heartbeats are
      at most one heartbeat interval old and the worker has not presented its token to
      finish, the job stays in processing under its generation, whatever else runs. (With
      leases rounded to seconds: `PostgresLeases.LiveRowKept`, `SqlServerRuns.LiveRowKept`.) */
  lemma {:induction false} LiveWorkerKept(cfg: Config, states: seq<System>, events: seq<Event>, a: nat, b: nat, i: JobId, lease: Duration)
    requires IsRun(cfg, states, events) && a <= b < |states|
    requires cfg.lease == New(lease).leaseDuration
    requires i in states[a].jobs && states[a].jobs[i].status.Processing?
    requires forall m :: a <= m < b ==> Punctual(states[m], i, New(lease).heartbeat)
    requires forall m :: a <= m < b ==> !FinishesWith(events[m], i, states[a].jobs[i].generation)
    ensures i in states[b].jobs && states[b].jobs[i].status.Processing?
    ensures states[b].jobs[i].generation == states[a].jobs[i].generation
    decreases b
  {
    if a < b {
      LiveWorkerKept(cfg, states, events, a, b - 1, i, lease);
      Reachable(cfg, states, events, b - 1);
      assert StepAt(cfg, states, events, b - 1);
      HeartbeatFits(lease);
      StepKeepsLive(cfg, states[b - 1], events[b - 1], i, New(lease).heartbeat);
    }
  }

  /** The lease of a job in processing has run out exactly when its last claim or heartbeat
      lies further back than the lease. */
  lemma RunsOutExactly(cfg: Config, states: seq<System>, events: seq<Event>, k: nat, i: JobId)
    requires IsRun(cfg, states, events) && k < |states|
    requires i in states[k].jobs && states[k].jobs[i].status.Processing?
    ensures i in states[k].beat
    ensures Effects.RanOut(states[k].jobs[i], states[k].now) <==> states[k].now > states[k].beat[i] + cfg.lease
  {
    Reachable(cfg, states, events, k);
    assert JobOk(cfg, states[k], i);
  }

  /** A silent worker is recovered: when its last beat lies further back than the lease, a
      recovery whose limit covers the jobs whose lease has run out puts its job back. */
  lemma SilentWorkerRecovered(cfg: Config, states: seq<System>, events: seq<Event>, k: nat, i: JobId)
    requires IsRun(cfg, states, events) && k < |events| && events[k].Recover?
    requires i in states[k].jobs && states[k].jobs[i].status.Processing?
    requires i in states[k].beat && states[k].now > states[k].beat[i] + cfg.lease
    requires events[k].limit >= |Effects.AllRanOut(states[k].jobs, states[k].now)|
    ensures i in events[k].chosen && i in states[k + 1].jobs
    ensures Effects.PutBack(states[k].jobs[i], states[k + 1].jobs[i], events[k].b, states[k].now)
  {
    var s, e := states[k], events[k];
    RunsOutExactly(cfg, states, events, k, i);
    assert StepAt(cfg, states, events, k);
    Effects.StaleMeans(s.jobs, s.now);
    assert i in Stale(s.jobs, s.now);
    Collections.SubsetSize(e.chosen, Stale(s.jobs, s.now));
    Effects.RecoveredMeans(s.jobs[i], e.b, s.now);
  }
}
