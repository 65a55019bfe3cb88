/** What every step of the protocol keeps. */
module Invariants {
  import opened Wrappers
  import opened Lifecycle
  import opened Jobs
  import opened Queue
  import opened Protocol

  /** Attempts a job has without stale recoveries. */
  function Budget(cfg: Config, j: Job): int {
    var least := if j.maxAttempts < cfg.maxAttempts then j.maxAttempts else cfg.maxAttempts;
    if least < 1 then 1 else least
  }

  ghost predicate CompletedAt(jobs: Table, i: JobId, c: string, q: int) {
    i in jobs && jobs[i].chain == c && jobs[i].sequence == q && jobs[i].status.Completed?
  }

  ghost predicate HasCompletedAt(jobs: Table, c: string, q: int) {
    exists i {:trigger CompletedAt(jobs, i, c, q)} :: CompletedAt(jobs, i, c, q)
  }

  /** Attempts stay within the budget plus the recoveries since the last replay;
      a job that waits for a claim still has one to spend. */
  predicate WithinBudget(cfg: Config, j: Job, recoveries: nat) {
    && 0 <= j.attempt <= Budget(cfg, j) + recoveries
    && (j.status.Blocked? || j.status.Pending? ==> j.attempt == 0)
    && (j.status.Retrying? || j.status.CancelRequested? ==> j.attempt < Budget(cfg, j) + recoveries)
  }

  ghost predicate JobOk(cfg: Config, s: System, i: JobId)
    requires i in s.jobs
  {
    var j := s.jobs[i];
    && i in s.used
    && !j.mode.Unset? && !j.status.TimedOut? && !j.status.Expired?
    && (j.chain !in s.lenient ==> !Continues(j.mode))
    && j.generation >= 0
    && (Touched(j.status) ==> j.generation > 0)
    && (j.generation > 0 ==> j.sequence >= 1)
    && (j.status.Blocked? ==> j.sequence > 1 && j.generation == 0)
    && WithinBudget(cfg, j, Recoveries(s, i))
    && (j.status.Processing? ==> i in s.beat && j.leaseUntil == Some(s.beat[i] + cfg.lease))
  }

  /** No second job of the chain is in processing. */
  ghost predicate RunsAlone(s: System, i: JobId)
    requires i in s.jobs
  {
    s.jobs[i].status.Processing? ==>
      forall k :: k in s.jobs && s.jobs[k].chain == s.jobs[i].chain && s.jobs[k].status.Processing? ==> k == i
  }

  /** In a strict chain a job that has ever been claimed stands behind a completed one. */
  ghost predicate InOrder(s: System, i: JobId)
    requires i in s.jobs
  {
    var j := s.jobs[i];
    j.generation > 0 && j.sequence != 1 && j.chain !in s.lenient ==> HasCompletedAt(s.jobs, j.chain, j.sequence - 1)
  }

  /** A blocked job is behind a missing or unfinished one, or its promotion is on record. */
  ghost predicate Promised(s: System, i: JobId)
    requires i in s.jobs
  {
    var j := s.jobs[i];
    j.status.Blocked? && HasFinishedAt(s.jobs, j.chain, j.sequence - 1) ==>
      (j.chain, j.sequence - 1) in s.owed + s.abandoned
  }

  /** A held token is of a past claim, or agrees with the stored job, which is still in flight. */
  ghost predicate TokenOk(s: System, t: Job) {
    && t.generation > 0 && t.id in s.used
    && (t.id in s.jobs ==>
          var j := s.jobs[t.id];
          && t.generation <= j.generation
          && (t.generation == j.generation ==> SameIdentity(t, j) && SameCounters(t, j) && InFlight(j.status)))
  }

  ghost predicate OnlyToken(s: System, t: Job) {
    forall u :: u in s.held && u.id == t.id && u.generation == t.generation ==> u == t
  }

  ghost predicate Tokens(s: System) {
    && (forall t {:trigger TokenOk(s, t)} :: t in s.held ==> TokenOk(s, t))
    && (forall t {:trigger OnlyToken(s, t)} :: t in s.held ==> OnlyToken(s, t))
  }

  ghost predicate Inv(cfg: Config, s: System) {
    && WellFormed(s.jobs)
    && Tokens(s)
    && (forall i {:trigger JobOk(cfg, s, i)} :: i in s.jobs ==> JobOk(cfg, s, i))
    && (forall i {:trigger RunsAlone(s, i)} :: i in s.jobs ==> RunsAlone(s, i))
    && (forall i {:trigger InOrder(s, i)} :: i in s.jobs ==> InOrder(s, i))
    && (forall i {:trigger Promised(s, i)} :: i in s.jobs ==> Promised(s, i))
  }

  // ---------------------------------------------------------------- steps that keep the set of jobs

  lemma DecidedByCurrent(cfg: Config, s: System, s2: System, i: JobId) returns (t: Job)
    requires Tokens(s) && i in s.jobs && i in s2.jobs && WasDecided(cfg, s, s2, i)
    ensures t in s.held && s2.held == s.held - {t} && Decides(cfg, s, s2, i, t)
    ensures SameIdentity(t, s.jobs[i]) && SameCounters(t, s.jobs[i]) && InFlight(s.jobs[i].status)
    ensures s.jobs[i].generation > 0
  {
    t :| t in s.held && s2.held == s.held - {t} && Decides(cfg, s, s2, i, t);
    assert TokenOk(s, t);
  }

  lemma ClaimKeepsJob(cfg: Config, s: System, e: Event, s2: System, i: JobId)
    requires Inv(cfg, s) && s2.used == s.used && s2.lenient == s.lenient
    requires i in s.jobs && i in s2.jobs && SameIdentity(s.jobs[i], s2.jobs[i]) && WasClaimed(cfg, s, s2, i)
    ensures JobOk(cfg, s2, i)
  {
    assert JobOk(cfg, s, i);
    if s.jobs[i].sequence != 1 {
      var p :| FinishedAt(s.jobs, p, s.jobs[i].chain, s.jobs[i].sequence - 1);
      assert JobOk(cfg, s, p);
    }
  }

  lemma DecisionKeepsJob(cfg: Config, s: System, e: Event, s2: System, i: JobId)
    requires Inv(cfg, s) && s2.used == s.used && s2.lenient == s.lenient
    requires i in s.jobs && i in s2.jobs && SameIdentity(s.jobs[i], s2.jobs[i]) && WasDecided(cfg, s, s2, i)
    ensures JobOk(cfg, s2, i)
  {
    assert JobOk(cfg, s, i);
    var t := DecidedByCurrent(cfg, s, s2, i);
  }

  lemma OtherwiseKeepsJob(cfg: Config, s: System, e: Event, s2: System, i: JobId)
    requires Inv(cfg, s) && s2.used == s.used && s2.lenient == s.lenient
    requires i in s.jobs && i in s2.jobs && SameIdentity(s.jobs[i], s2.jobs[i])
    requires Stayed(cfg, s, s2, i) || WasUnblocked(s, s2, i) || WasAsked(s, s2, i)
             || WasRecovered(s, s2, i) || WasReopened(s, s2, i) || WasSkipped(s, s2, i)
    ensures JobOk(cfg, s2, i)
  {
    assert JobOk(cfg, s, i);
    assert Budget(cfg, s2.jobs[i]) == Budget(cfg, s.jobs[i]) >= 1;
  }

  lemma UpdateKeepsJob(cfg: Config, s: System, e: Event, s2: System, i: JobId)
    requires Inv(cfg, s) && Updates(cfg, s, e, s2) && i in s.jobs
    ensures JobOk(cfg, s2, i)
  {
    assert ChangedAt(cfg, s, e, s2, i);
    if WasDecided(cfg, s, s2, i) {
      DecisionKeepsJob(cfg, s, e, s2, i);
    } else if WasClaimed(cfg, s, s2, i) {
      ClaimKeepsJob(cfg, s, e, s2, i);
    } else {
      OtherwiseKeepsJob(cfg, s, e, s2, i);
    }
  }

  lemma ClaimedIsNew(cfg: Config, s: System, s2: System, i: JobId)
    requires Tokens(s) && KeysMatch(s2.jobs)
    requires i in s.jobs && i in s2.jobs && WasClaimed(cfg, s, s2, i)
    ensures s2.jobs[i] !in s.held
  {
    forall t | t in s.held ensures t != s2.jobs[i] { assert TokenOk(s, t); }
  }

  /** Only a claim puts a job into processing, nothing blocks a job again, and
      generations do not fall. */
  lemma Moves(cfg: Config, s: System, e: Event, s2: System, i: JobId)
    requires Updates(cfg, s, e, s2) && i in s.jobs
    ensures SameIdentity(s.jobs[i], s2.jobs[i])
    ensures s2.jobs[i].status.Processing? && !s.jobs[i].status.Processing? ==> WasClaimed(cfg, s, s2, i)
    ensures s2.jobs[i].status.Blocked? ==> s.jobs[i].status.Blocked?
    ensures s2.jobs[i].generation >= s.jobs[i].generation
    ensures s2.jobs[i].generation > s.jobs[i].generation ==> WasClaimed(cfg, s, s2, i)
  {
    assert ChangedAt(cfg, s, e, s2, i);
  }

  /** A step claims at most one job. */
  lemma OneClaim(cfg: Config, s: System, s2: System, i: JobId, k: JobId)
    requires Tokens(s) && KeysMatch(s2.jobs)
    requires i in s.jobs && i in s2.jobs && WasClaimed(cfg, s, s2, i)
    requires k in s.jobs && k in s2.jobs && WasClaimed(cfg, s, s2, k)
    ensures i == k
  {
    ClaimedIsNew(cfg, s, s2, i);
    assert s2.jobs[i] in s.held + {s2.jobs[k]};
  }

  lemma UpdateKeepsAlone(cfg: Config, s: System, e: Event, s2: System, i: JobId)
    requires Inv(cfg, s) && Updates(cfg, s, e, s2) && i in s.jobs
    ensures RunsAlone(s2, i)
  {
    IdentityFollows(cfg, s, e, s2);
    forall k | s2.jobs[i].status.Processing? && k in s2.jobs && s2.jobs[k].chain == s2.jobs[i].chain && s2.jobs[k].status.Processing?
      ensures k == i
    {
      Moves(cfg, s, e, s2, i);
      Moves(cfg, s, e, s2, k);
      assert RunsAlone(s, i);
      assert RunsIn(s.jobs, i, s.jobs[k].chain) <==> s.jobs[i].status.Processing?;
      assert RunsIn(s.jobs, k, s.jobs[i].chain) <==> s.jobs[k].status.Processing?;
      if !s.jobs[i].status.Processing? && !s.jobs[k].status.Processing? {
        OneClaim(cfg, s, s2, i, k);
      }
    }
  }

  lemma IdentityFollows(cfg: Config, s: System, e: Event, s2: System)
    requires WellFormed(s.jobs) && Updates(cfg, s, e, s2)
    ensures KeepsIdentity(s.jobs, s2.jobs) && WellFormed(s2.jobs)
  {
    forall i | i in s.jobs ensures SameIdentity(s.jobs[i], s2.jobs[i]) {
      assert ChangedAt(cfg, s, e, s2, i);
    }
    IdentityKeepsWellFormed(s.jobs, s2.jobs);
  }

  lemma UndecidedStaysCompleted(cfg: Config, s: System, e: Event, s2: System, i: JobId)
    requires Updates(cfg, s, e, s2) && i in s.jobs && s.jobs[i].status.Completed? && !WasDecided(cfg, s, s2, i)
    ensures s2.jobs[i].status.Completed? && SameCounters(s.jobs[i], s2.jobs[i])
  {
    assert ChangedAt(cfg, s, e, s2, i);
  }

  /** Under token discipline a completed job stays completed, counters and all. */
  lemma UpdateKeepsCompleted(cfg: Config, s: System, e: Event, s2: System, i: JobId)
    requires Tokens(s) && Updates(cfg, s, e, s2) && i in s.jobs && s.jobs[i].status.Completed?
    ensures s2.jobs[i].status.Completed? && SameCounters(s.jobs[i], s2.jobs[i])
  {
    if WasDecided(cfg, s, s2, i) {
      var t := DecidedByCurrent(cfg, s, s2, i);
    } else {
      UndecidedStaysCompleted(cfg, s, e, s2, i);
    }
  }

  lemma UpdateKeepsOrder(cfg: Config, s: System, e: Event, s2: System, i: JobId)
    requires Inv(cfg, s) && Updates(cfg, s, e, s2) && i in s.jobs
    ensures InOrder(s2, i)
  {
    var j, k := s.jobs[i], s2.jobs[i];
    Moves(cfg, s, e, s2, i);
    assert InOrder(s, i);
    if k.generation > 0 && k.sequence != 1 && k.chain !in s2.lenient {
      var p: JobId;
      if j.generation > 0 {
        p :| CompletedAt(s.jobs, p, j.chain, j.sequence - 1);
      } else {
        p :| FinishedAt(s.jobs, p, j.chain, j.sequence - 1);
        assert JobOk(cfg, s, p);
      }
      UpdateKeepsCompleted(cfg, s, e, s2, p);
      IdentityFollows(cfg, s, e, s2);
      assert CompletedAt(s2.jobs, p, k.chain, k.sequence - 1);
    }
  }

  lemma OnlyDecisionsFinish(cfg: Config, s: System, e: Event, s2: System, p: JobId)
    requires Updates(cfg, s, e, s2) && p in s.jobs && !IsFinished(s.jobs[p]) && IsFinished(s2.jobs[p])
    ensures SameIdentity(s.jobs[p], s2.jobs[p]) && (WasDecided(cfg, s, s2, p) || WasSkipped(s, s2, p))
  {
    assert ChangedAt(cfg, s, e, s2, p);
  }

  /** A step that finishes a job opens the position behind it, or puts the opening on record. */
  lemma FinishingOpens(cfg: Config, s: System, e: Event, s2: System, p: JobId)
    requires Tokens(s) && Updates(cfg, s, e, s2) && p in s.jobs
    requires !IsFinished(s.jobs[p]) && IsFinished(s2.jobs[p])
    ensures OpenAt(s2.jobs, s.jobs[p].chain, s.jobs[p].sequence + 1) || Where(s.jobs[p]) in s2.owed + s2.abandoned
  {
    OnlyDecisionsFinish(cfg, s, e, s2, p);
    if WasDecided(cfg, s, s2, p) { var t := DecidedByCurrent(cfg, s, s2, p); }
  }

  lemma UpdateKeepsPromise(cfg: Config, s: System, e: Event, s2: System, i: JobId)
    requires Inv(cfg, s) && Updates(cfg, s, e, s2) && i in s.jobs
    ensures Promised(s2, i)
  {
    var j, k := s.jobs[i], s2.jobs[i];
    Moves(cfg, s, e, s2, i);
    assert Promised(s, i);
    if k.status.Blocked? && HasFinishedAt(s2.jobs, k.chain, k.sequence - 1) {
      var p :| FinishedAt(s2.jobs, p, k.chain, k.sequence - 1);
      IdentityFollows(cfg, s, e, s2);
      if IsFinished(s.jobs[p]) {
        assert FinishedAt(s.jobs, p, j.chain, j.sequence - 1);
        var x: Position := (j.chain, j.sequence - 1);
        assert x in s.owed + s.abandoned;
        assert NotBlockedAt(s2.jobs, i, x.0, x.1 + 1) || x in s2.owed + s2.abandoned;
      } else {
        FinishingOpens(cfg, s, e, s2, p);
        assert NotBlockedAt(s2.jobs, i, j.chain, j.sequence) || Where(s.jobs[p]) in s2.owed + s2.abandoned;
      }
    }
  }

  lemma UpdateKeepsToken(cfg: Config, s: System, e: Event, s2: System, t: Job)
    requires Inv(cfg, s) && Updates(cfg, s, e, s2) && t in s2.held
    ensures TokenOk(s2, t)
  {
    if t in s.held {
      assert TokenOk(s, t);
      if t.id in s.jobs {
        assert ChangedAt(cfg, s, e, s2, t.id) && JobOk(cfg, s, t.id);
        if WasDecided(cfg, s, s2, t.id) {
          var u := DecidedByCurrent(cfg, s, s2, t.id);
          assert OnlyToken(s, u);
        }
      }
    } else {
      assert ChangedAt(cfg, s, e, s2, t.id) && JobOk(cfg, s, t.id);
    }
  }

  lemma UpdateKeepsOnly(cfg: Config, s: System, e: Event, s2: System, t: Job)
    requires Inv(cfg, s) && Updates(cfg, s, e, s2) && t in s2.held
    ensures OnlyToken(s2, t)
  {
    forall u | u in s2.held && u.id == t.id && u.generation == t.generation ensures u == t {
      if t in s.held { assert TokenOk(s, t) && OnlyToken(s, t); }
      if u in s.held { assert TokenOk(s, u); }
    }
  }

  lemma UpdateKeepsInv(cfg: Config, s: System, e: Event, s2: System)
    requires Inv(cfg, s) && Updates(cfg, s, e, s2)
    ensures Inv(cfg, s2)
  {
    IdentityFollows(cfg, s, e, s2);
    forall i | i in s2.jobs ensures JobOk(cfg, s2, i) && RunsAlone(s2, i) && InOrder(s2, i) && Promised(s2, i) {
      UpdateKeepsJob(cfg, s, e, s2, i);
      UpdateKeepsAlone(cfg, s, e, s2, i);
      UpdateKeepsOrder(cfg, s, e, s2, i);
      UpdateKeepsPromise(cfg, s, e, s2, i);
    }
    forall t | t in s2.held ensures TokenOk(s2, t) && OnlyToken(s2, t) {
      UpdateKeepsToken(cfg, s, e, s2, t);
      UpdateKeepsOnly(cfg, s, e, s2, t);
    }
  }

  // ---------------------------------------------------------------- enqueue

  lemma GrowKeepsTokens(s: System, s2: System)
    requires Tokens(s) && s2.held == s.held && s.used <= s2.used
    requires forall i :: i in s2.jobs && i in s.used ==> i in s.jobs && s2.jobs[i] == s.jobs[i]
    ensures Tokens(s2)
  {
    forall t | t in s2.held ensures TokenOk(s2, t) && OnlyToken(s2, t) {
      assert TokenOk(s, t) && OnlyToken(s, t);
    }
  }

  /** An old job beside a new one, which is neither running nor finished. */
  lemma OldJobStaysOk(cfg: Config, s: System, s2: System, n: Job, i: JobId)
    requires Inv(cfg, s) && n.id !in s.jobs && i in s.jobs
    requires s2.jobs == s.jobs[n.id := n] && (n.status.Pending? || n.status.Blocked?)
    requires s.used <= s2.used && s.lenient <= s2.lenient
    requires s2.owed == s.owed && s2.abandoned == s.abandoned && s2.recoveries == s.recoveries && s2.beat == s.beat
    ensures JobOk(cfg, s2, i) && RunsAlone(s2, i) && InOrder(s2, i) && Promised(s2, i)
  {
    assert JobOk(cfg, s, i) && RunsAlone(s, i) && InOrder(s, i) && Promised(s, i);
    var c, q := s.jobs[i].chain, s.jobs[i].sequence - 1;
    if HasCompletedAt(s.jobs, c, q) {
      var p :| CompletedAt(s.jobs, p, c, q);
      assert CompletedAt(s2.jobs, p, c, q);
    }
    if HasFinishedAt(s2.jobs, c, q) {
      var p :| FinishedAt(s2.jobs, p, c, q);
      assert FinishedAt(s.jobs, p, c, q);
    }
  }

  lemma NewJobIsOk(cfg: Config, s: System, s2: System, n: Job)
    requires n.id !in s.jobs && s2.jobs == s.jobs[n.id := n]
    requires n.id in s2.used && n.generation == 0 && n.attempt == 0 && !n.mode.Unset?
    requires n.status == InitialStatus(s.jobs, n.chain, n.sequence)
    requires n.chain !in s2.lenient ==> !Continues(n.mode)
    ensures JobOk(cfg, s2, n.id) && RunsAlone(s2, n.id) && InOrder(s2, n.id) && Promised(s2, n.id)
  {
    if HasFinishedAt(s2.jobs, n.chain, n.sequence - 1) {
      var p :| FinishedAt(s2.jobs, p, n.chain, n.sequence - 1);
      assert FinishedAt(s.jobs, p, n.chain, n.sequence - 1);
    }
  }

  lemma NothingNewIsOk(cfg: Config, s: System, s2: System)
    requires Inv(cfg, s) && s2 == s.(used := s2.used, lenient := s2.lenient)
    requires s.used <= s2.used && s.lenient <= s2.lenient
    ensures Inv(cfg, s2)
  {
    forall i | i in s.jobs ensures i in s.used { assert JobOk(cfg, s, i); }
    GrowKeepsTokens(s, s2);
    forall i | i in s2.jobs ensures JobOk(cfg, s2, i) && RunsAlone(s2, i) && InOrder(s2, i) && Promised(s2, i) {
      assert JobOk(cfg, s, i) && RunsAlone(s, i) && InOrder(s, i) && Promised(s, i);
    }
  }

  lemma OneNewIsOk(cfg: Config, s: System, s2: System, n: Job)
    requires Inv(cfg, s) && WellFormed(s2.jobs) && n.id !in s.used
    requires s2 == s.(jobs := s.jobs[n.id := n], used := s.used + {n.id}, lenient := s2.lenient) && s.lenient <= s2.lenient
    requires n.generation == 0 && n.attempt == 0 && !n.mode.Unset? && n.status == InitialStatus(s.jobs, n.chain, n.sequence)
    requires n.chain !in s2.lenient ==> !Continues(n.mode)
    ensures Inv(cfg, s2)
  {
    forall i | i in s.jobs ensures i in s.used { assert JobOk(cfg, s, i); }
    GrowKeepsTokens(s, s2);
    forall i | i in s2.jobs ensures JobOk(cfg, s2, i) && RunsAlone(s2, i) && InOrder(s2, i) && Promised(s2, i) {
      if i == n.id { NewJobIsOk(cfg, s, s2, n); } else { OldJobStaysOk(cfg, s, s2, n, i); }
    }
  }

  lemma EnqueueKeepsInv(cfg: Config, s: System, e: Event)
    requires Inv(cfg, s) && e.Enqueue? && Enabled(s, e)
    ensures Inv(cfg, Apply(cfg, s, e))
  {
    var s2 := Apply(cfg, s, e);
    forall i | i in s.jobs ensures i in s.used { assert JobOk(cfg, s, i); }
    EnqueueAdds(s.jobs, e.req, e.id, s.now);
    if s2.jobs == s.jobs {
      NothingNewIsOk(cfg, s, s2);
    } else {
      var q :| ResolveSequence(s.jobs, e.req.chain, e.req.sequence) == Success(q)
               && s2.jobs == s.jobs[e.id := NewJob(e.req, e.id, q, InitialStatus(s.jobs, e.req.chain, q), s.now)];
      OneNewIsOk(cfg, s, s2, NewJob(e.req, e.id, q, InitialStatus(s.jobs, e.req.chain, q), s.now));
    }
  }

  // ---------------------------------------------------------------- purge

  lemma PurgeKeepsInv(cfg: Config, s: System, e: Event)
    requires Inv(cfg, s) && e.BulkPurge?
    ensures Inv(cfg, Apply(cfg, s, e))
  {
    var s2 := Apply(cfg, s, e);
    forall i | i in s2.jobs ensures AloneAt(s2.jobs, i) && AloneWithKey(s2.jobs, i) {
      assert AloneAt(s.jobs, i) && AloneWithKey(s.jobs, i);
    }
    GrowKeepsTokens(s, s2);
    forall i | i in s2.jobs ensures JobOk(cfg, s2, i) && RunsAlone(s2, i) && InOrder(s2, i) && Promised(s2, i) {
      PurgeKeepsOne(cfg, s, e, s2, i);
    }
  }

  /** A completed predecessor is never purged, so a purge breaks no order. */
  lemma PurgeKeepsOne(cfg: Config, s: System, e: Event, s2: System, i: JobId)
    requires Inv(cfg, s) && e.BulkPurge? && s2 == Apply(cfg, s, e) && i in s2.jobs
    ensures JobOk(cfg, s2, i) && RunsAlone(s2, i) && InOrder(s2, i) && Promised(s2, i)
  {
    assert JobOk(cfg, s, i) && RunsAlone(s, i) && InOrder(s, i) && Promised(s, i);
    var c, q := s.jobs[i].chain, s.jobs[i].sequence - 1;
    if HasCompletedAt(s.jobs, c, q) {
      var p :| CompletedAt(s.jobs, p, c, q);
      assert CompletedAt(s2.jobs, p, c, q);
    }
    if HasFinishedAt(s2.jobs, c, q) {
      var p :| FinishedAt(s2.jobs, p, c, q);
      assert FinishedAt(s.jobs, p, c, q);
    }
  }

  // ---------------------------------------------------------------- every reachable state

  lemma StepKeepsInv(cfg: Config, s: System, e: Event)
    requires Inv(cfg, s) && Enabled(s, e)
    ensures Inv(cfg, Apply(cfg, s, e))
  {
    if e.Enqueue? { EnqueueKeepsInv(cfg, s, e); }
    else if e.BulkPurge? { PurgeKeepsInv(cfg, s, e); }
    else {
      StepUpdates(cfg, s, e);
      UpdateKeepsInv(cfg, s, e, Apply(cfg, s, e));
    }
  }

  /** The invariant holds in every state of every run. */
  lemma {:induction false} Reachable(cfg: Config, states: seq<System>, events: seq<Event>, k: nat)
    requires IsRun(cfg, states, events) && k < |states|
    ensures Inv(cfg, states[k])
  {
    if k > 0 {
      Reachable(cfg, states, events, k - 1);
      assert StepAt(cfg, states, events, k - 1);
      StepKeepsInv(cfg, states[k - 1], events[k - 1]);
    }
  }
}
