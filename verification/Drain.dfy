/** Draining terminates: without new work, replays and recoveries, the claims that
    can still happen are bounded by the attempts the waiting jobs have left. */
module Drain {
  import opened Wrappers
  import opened Lifecycle
  import opened Jobs
  import opened Queue
  import opened Protocol
  import opened Invariants

  /** Twice the claims a job can still see, plus one while it is being worked on. */
  function Weight(cfg: Config, j: Job): nat {
    var left := Budget(cfg, j) - j.attempt;
    if j.status.Processing? then 2 * (if left < 0 then 0 else left) + 1
    else if j.status.Blocked? || CanBeClaimed(j.status) || j.status.CancelRequested? then 2 * (if left < 1 then 1 else left)
    else 0
  }

  /** The weight of all jobs. */
  ghost function Total(cfg: Config, jobs: Table): nat
    decreases |jobs|
  {
    if jobs == map[] then 0
    else
      var i: JobId :| i in jobs.Keys;
      assert i !in (jobs - {i}).Keys && jobs.Keys == (jobs - {i}).Keys + {i};
      Weight(cfg, jobs[i]) + Total(cfg, jobs - {i})
  }

  /** The total does not depend on the order of summation. */
  lemma {:induction false} TotalWithout(cfg: Config, jobs: Table, i: JobId)
    requires i in jobs
    ensures Total(cfg, jobs) == Weight(cfg, jobs[i]) + Total(cfg, jobs - {i})
    decreases |jobs|
  {
    var k: JobId :| k in jobs.Keys && Total(cfg, jobs) == Weight(cfg, jobs[k]) + Total(cfg, jobs - {k});
    if k != i {
      assert jobs.Keys == (jobs - {k}).Keys + {k};
      TotalWithout(cfg, jobs - {k}, i);
      assert jobs - {k} - {i} == jobs - {i} - {k};
      assert jobs.Keys == (jobs - {i}).Keys + {i};
      TotalWithout(cfg, jobs - {i}, k);
    }
  }

  lemma {:induction false} TotalFalls(cfg: Config, a: Table, b: Table)
    requires b.Keys <= a.Keys
    requires forall i :: i in b ==> Weight(cfg, b[i]) <= Weight(cfg, a[i])
    ensures Total(cfg, b) <= Total(cfg, a)
    decreases |a|
  {
    if a != map[] {
      var i: JobId :| i in a.Keys;
      TotalWithout(cfg, a, i);
      assert a.Keys == (a - {i}).Keys + {i};
      if i in b { TotalWithout(cfg, b, i); } else { assert b - {i} == b; }
      TotalFalls(cfg, a - {i}, b - {i});
    }
  }

  lemma TotalFallsAt(cfg: Config, a: Table, b: Table, i: JobId)
    requires b.Keys <= a.Keys && i in b
    requires forall k :: k in b ==> Weight(cfg, b[k]) <= Weight(cfg, a[k])
    requires Weight(cfg, b[i]) < Weight(cfg, a[i])
    ensures Total(cfg, b) < Total(cfg, a)
  {
    TotalWithout(cfg, a, i);
    TotalWithout(cfg, b, i);
    TotalFalls(cfg, a - {i}, b - {i});
  }

  /** No new job, no fresh budget, no recovery. */
  predicate Draining(e: Event) {
    !e.Enqueue? && !e.ReplayJob? && !e.BulkReplay? && !e.Recover?
  }

  /** A claim that finds a job, or a finishing call that takes effect on a job in processing. */
  predicate Advances(s: System, e: Event) {
    || (e.Claim? && e.pick.Some?)
    || ((e.Succeed? || e.HandlerError? || e.HandlerMissing? || e.ConfirmCancel?)
        && Accepts(s, e.job) && s.jobs[e.job.id].status.Processing?)
  }

  lemma ClaimCosts(cfg: Config, s: System, s2: System, i: JobId)
    requires i in s.jobs && i in s2.jobs && SameIdentity(s.jobs[i], s2.jobs[i]) && WasClaimed(cfg, s, s2, i)
    ensures Weight(cfg, s2.jobs[i]) == Weight(cfg, s.jobs[i]) - 1
  {
  }

  lemma DecisionCosts(cfg: Config, s: System, s2: System, i: JobId)
    requires Tokens(s) && i in s.jobs && i in s2.jobs && SameIdentity(s.jobs[i], s2.jobs[i]) && WasDecided(cfg, s, s2, i)
    ensures Weight(cfg, s2.jobs[i]) <= Weight(cfg, s.jobs[i])
    ensures s.jobs[i].status.Processing? ==> Weight(cfg, s2.jobs[i]) < Weight(cfg, s.jobs[i])
  {
    var t := DecidedByCurrent(cfg, s, s2, i);
  }

  lemma WeightFalls(cfg: Config, s: System, e: Event, s2: System, i: JobId)
    requires Inv(cfg, s) && Updates(cfg, s, e, s2) && Draining(e) && i in s.jobs
    ensures Weight(cfg, s2.jobs[i]) <= Weight(cfg, s.jobs[i])
    ensures s2.jobs[i].status != s.jobs[i].status && (s.jobs[i].status.Processing? || s2.jobs[i].status.Processing?)
            ==> Weight(cfg, s2.jobs[i]) < Weight(cfg, s.jobs[i])
  {
    assert ChangedAt(cfg, s, e, s2, i);
    if WasDecided(cfg, s, s2, i) {
      DecisionCosts(cfg, s, s2, i);
    } else if WasClaimed(cfg, s, s2, i) {
      ClaimCosts(cfg, s, s2, i);
    }
  }

  lemma UpdateFalls(cfg: Config, s: System, e: Event, s2: System)
    requires Inv(cfg, s) && Updates(cfg, s, e, s2) && Draining(e)
    ensures forall i :: i in s2.jobs ==> Weight(cfg, s2.jobs[i]) <= Weight(cfg, s.jobs[i])
    ensures Total(cfg, s2.jobs) <= Total(cfg, s.jobs)
  {
    forall i | i in s.jobs ensures Weight(cfg, s2.jobs[i]) <= Weight(cfg, s.jobs[i]) {
      WeightFalls(cfg, s, e, s2, i);
    }
    TotalFalls(cfg, s.jobs, s2.jobs);
  }

  /** A job that enters or leaves processing makes the total fall. */
  lemma AdvanceFalls(cfg: Config, s: System, e: Event, s2: System, i: JobId)
    requires Inv(cfg, s) && Updates(cfg, s, e, s2) && Draining(e) && i in s.jobs
    requires s2.jobs[i].status != s.jobs[i].status && (s.jobs[i].status.Processing? || s2.jobs[i].status.Processing?)
    ensures Total(cfg, s2.jobs) < Total(cfg, s.jobs)
  {
    WeightFalls(cfg, s, e, s2, i);
    UpdateFalls(cfg, s, e, s2);
    TotalFallsAt(cfg, s.jobs, s2.jobs, i);
  }

  /** Every draining step lets the total fall, and every claim and effective finish
      lets it fall strictly. */
  lemma StepFalls(cfg: Config, s: System, e: Event)
    requires Inv(cfg, s) && Enabled(s, e) && Draining(e)
    ensures Total(cfg, Apply(cfg, s, e).jobs) + (if Advances(s, e) then 1 else 0) <= Total(cfg, s.jobs)
  {
    var s2 := Apply(cfg, s, e);
    if e.BulkPurge? {
      TotalFalls(cfg, s.jobs, s2.jobs);
    } else {
      StepUpdates(cfg, s, e);
      UpdateFalls(cfg, s, e, s2);
      if Advances(s, e) {
        var i := if e.Claim? then e.pick.value else e.job.id;
        AdvanceChangesStatus(cfg, s, e, i);
        AdvanceFalls(cfg, s, e, s2, i);
      }
    }
  }

  lemma AdvanceChangesStatus(cfg: Config, s: System, e: Event, i: JobId)
    requires Enabled(s, e) && Advances(s, e) && i == if e.Claim? then e.pick.value else e.job.id
    ensures i in s.jobs && Apply(cfg, s, e).jobs.Keys == s.jobs.Keys
    ensures Apply(cfg, s, e).jobs[i].status != s.jobs[i].status
    ensures s.jobs[i].status.Processing? || Apply(cfg, s, e).jobs[i].status.Processing?
  {
  }

  /** The claims and effective finishes of a segment. */
  ghost function Work(states: seq<System>, events: seq<Event>, a: nat, b: nat): nat
    requires a <= b <= |events| && |states| == |events| + 1
    decreases b
  {
    if a == b then 0 else Work(states, events, a, b - 1) + (if Advances(states[b - 1], events[b - 1]) then 1 else 0)
  }

  /** Drain terminates: between enqueues, replays and recoveries the number of claims
      and effective finishes is at most the total weight at the start, however the
      other steps are interleaved and however long the segment is. */
  lemma {:induction false} DrainBound(cfg: Config, states: seq<System>, events: seq<Event>, a: nat, b: nat)
    requires IsRun(cfg, states, events) && a <= b < |states|
    requires forall m :: a <= m < b ==> Draining(events[m])
    ensures Work(states, events, a, b) + Total(cfg, states[b].jobs) <= Total(cfg, states[a].jobs)
    decreases b
  {
    if a < b {
      DrainBound(cfg, states, events, a, b - 1);
      Reachable(cfg, states, events, b - 1);
      assert StepAt(cfg, states, events, b - 1);
      StepFalls(cfg, states[b - 1], events[b - 1]);
    }
  }
}
