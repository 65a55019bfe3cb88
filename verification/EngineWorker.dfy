/** The engine (engine.go) driving the in-memory repository: each of its repository
    calls is a step of the protocol, wherever other workers have taken the state,
    and a whole claim-and-execute round uses up its token and pays its promotion. */
module EngineWorker {
  import opened Wrappers
  import opened Lifecycle
  import opened Jobs
  import opened Queue
  import opened Protocol
  import opened Invariants
  import opened MemoryRepository
  import Lease
  import Retry

  /** What executing a handler comes to. A panic is one of the two errors; `cancelled`
      holds if the error or one it wraps reads as a cancelled or expired context. */
  datatype Outcome =
    | Done
    | Raised(msg: string, nonRetryable: bool, cancelled: bool)

  /** The status a round leaves the job in when nobody interferes. */
  function Verdict(cfg: Config, j: Job, known: bool, o: Outcome): Status {
    if known && o.Done? then Completed
    else if known && !GivesUp(cfg, j, o.nonRetryable) then Retrying
    else if j.mode.DeadLetterAndContinue? then DeadLettered
    else Failed
  }

  /** A run so far, and then time passes. */
  lemma Wait(cfg: Config, states: seq<System>, events: seq<Event>, d: nat) returns (states2: seq<System>, events2: seq<Event>)
    requires Segment(cfg, states, events)
    ensures Segment(cfg, states2, events2) && states2[0] == states[0]
    ensures states2[|events2|] == states[|events|].(now := states[|events|].now + d)
  {
    states2, events2 := Extend(cfg, states, events, Tick(d));
  }

  /** Tokens and debts wait for their worker: whatever other workers and operators do
      in between, a token stays held until it is presented, so the call that presents
      it is a step of the protocol, and a debt stays owed until its PromoteNext. */
  lemma {:induction false} TokenAndDebtWait(cfg: Config, states: seq<System>, events: seq<Event>, n: nat, t: Job, x: Position)
    requires Segment(cfg, states, events) && n <= |events|
    requires forall m :: 0 <= m < n ==> !FinishesWith(events[m], t.id, t.generation) && events[m] != Event.PromoteNext(x.0, x.1)
    ensures t in states[0].held ==> t in states[n].held
    ensures x in states[0].owed ==> x in states[n].owed
  {
    if n > 0 {
      TokenAndDebtWait(cfg, states, events, n - 1, t, x);
      assert StepAt(cfg, states, events, n - 1);
    }
  }

  /** A claim hands out a token that no one holds yet. */
  lemma FreshToken(cfg: Config, s: System, e: Event)
    requires Inv(cfg, s) && Enabled(s, e) && e.Claim? && e.pick.Some?
    ensures var s2 := Apply(cfg, s, e);
            var t := s2.jobs[e.pick.value];
            t !in s.held && s2.held == s.held + {t} && s2.owed == s.owed && s2.abandoned == s.abandoned
  {
    var t := Apply(cfg, s, e).jobs[e.pick.value];
    forall u | u in s.held ensures u != t { assert TokenOk(s, u); }
  }

  class Engine {
    const repo: Repository
    const handlers: set<string>
    const policy: Retry.Policy
    const lease: Lease.Manager
    const mode: OrderingMode
    const dlqThreshold: int
    var activeLeases: int

    constructor (repo: Repository, handlers: set<string>, policy: Retry.Policy, lease: Duration, mode: OrderingMode, dlqThreshold: int)
      ensures this.repo == repo && this.handlers == handlers && this.mode == mode
      ensures this.policy == if policy.maxAttempts == 0 then Retry.DefaultPolicy() else policy
      ensures this.lease == Lease.New(lease) && this.dlqThreshold == dlqThreshold && activeLeases == 0
    {
      this.repo, this.handlers, this.mode := repo, handlers, mode;
      this.policy := if policy.maxAttempts == 0 then Retry.DefaultPolicy() else policy;
      this.lease, this.dlqThreshold, activeLeases := Lease.New(lease), dlqThreshold, 0;
    }

    function Cfg(): Config {
      Config(policy.maxAttempts, mode, lease.leaseDuration)
    }

    /** The repository is where the protocol says it is. */
    ghost predicate At(s: System, now: Time)
      reads repo, repo.chain.Values
    {
      repo.Valid() && repo.jobs == s.jobs && now == s.now
    }

    // -------------------------------------------------------------- single calls

    method TryClaim(worker: string, now: Time, ghost s: System) returns (job: Option<Job>, ghost e: Event)
      requires At(s, now)
      modifies repo`jobs
      ensures e == Event.Claim(worker, if job.Some? then Some(job.value.id) else None)
      ensures Enabled(s, e) && At(Apply(Cfg(), s, e), now)
      ensures job.Some? ==> job.value.id in repo.jobs && job.value == repo.jobs[job.value.id] && job.value.worker == worker
    {
      var r := repo.Claim(worker, lease.leaseDuration, now);
      job := if r.Success? then Some(r.value) else None;
      e := Event.Claim(worker, if job.Some? then Some(job.value.id) else None);
    }

    /** No handler: the job fails, and nobody promotes what is behind it. */
    method FailUnknown(job: Job, worker: string, now: Time, ghost s: System) returns (ghost e: Event)
      requires At(s, now) && job in s.held && job.worker == worker
      modifies repo`jobs
      ensures e.HandlerMissing? && e.job == job
      ensures Enabled(s, e) && At(Apply(Cfg(), s, e), now)
    {
      var msg := "handler not found: " + job.jobType;
      e := HandlerMissing(job, msg);
      var _ := repo.Fail(job.id, worker, job.generation, msg, true, now);
    }

    method Complete(job: Job, worker: string, now: Time, ghost s: System) returns (conflict: bool, ghost e: Event)
      requires At(s, now) && job in s.held && job.worker == worker
      modifies repo`jobs
      ensures e == Succeed(job) && conflict == !Accepts(s, job)
      ensures Enabled(s, e) && At(Apply(Cfg(), s, e), now)
    {
      var err := repo.Complete(job.id, worker, job.generation, now);
      conflict := err.Some?;
      e := Succeed(job);
    }

    method AskCancel(job: Job, now: Time, ghost s: System) returns (ghost e: Event)
      requires At(s, now)
      modifies repo`jobs
      ensures e == Event.RequestCancel(job.id)
      ensures Enabled(s, e) && At(Apply(Cfg(), s, e), now)
    {
      var _ := repo.RequestCancel(job.id, now);
      e := Event.RequestCancel(job.id);
    }

    /** After an error: give the job up or put it back, and say whether the engine
        will promote what is behind it. A conflict is ignored, here as there. */
    method FailOrRetry(job: Job, worker: string, o: Outcome, draw: real, now: Time, ghost s: System) returns (promote: bool, ghost e: Event)
      requires At(s, now) && job in s.held && job.worker == worker && o.Raised?
      modifies repo`jobs
      ensures e == HandlerError(job, o.nonRetryable, o.msg, Retry.Backoff(policy, job.attempt, draw))
      ensures Enabled(s, e) && At(Apply(Cfg(), s, e), now)
      ensures promote <==> GivesUp(Cfg(), job, o.nonRetryable) && Continues(EngineMode(Cfg(), job))
    {
      e := HandlerError(job, o.nonRetryable, o.msg, Retry.Backoff(policy, job.attempt, draw));
      promote := false;
      if o.nonRetryable || job.attempt >= job.maxAttempts || !Retry.ShouldRetry(policy, job.attempt) {
        var m := job.mode;
        if m.Unset? { m := mode; }
        if m.Unset? { m := Strict; }
        var _ := repo.Fail(job.id, worker, job.generation, o.msg, true, now);
        promote := m.SkipOnFailure? || m.DeadLetterAndContinue?;
      } else {
        var next := now + Retry.Backoff(policy, job.attempt, draw);
        var _ := repo.Retry(job.id, worker, job.generation, o.msg, next, now);
      }
    }

    method Promote(job: Job, now: Time, ghost s: System) returns (ghost e: Event)
      requires At(s, now)
      modifies repo`jobs
      ensures e == Event.PromoteNext(job.chain, job.sequence)
      ensures Enabled(s, e) && At(Apply(Cfg(), s, e), now)
    {
      repo.PromoteNext(job.chain, job.sequence, now);
      e := Event.PromoteNext(job.chain, job.sequence);
    }

    /** One turn of the heartbeat loop, which goes on until a heartbeat is refused. */
    method Beat(job: Job, now: Time, ghost s: System) returns (more: bool, ghost e: Event)
      requires At(s, now)
      modifies repo`jobs
      ensures e == Event.Heartbeat(job.id, job.worker, job.generation) && more == Accepts(s, job)
      ensures Enabled(s, e) && At(Apply(Cfg(), s, e), now)
    {
      var err := repo.Heartbeat(job.id, job.worker, job.generation, lease.leaseDuration, now);
      more := err.None?;
      e := Event.Heartbeat(job.id, job.worker, job.generation);
    }

    /** One turn of the recovery loop: at most 100 stale jobs, backed off by the engine's policy. */
    method RecoverOnce(draw: JobId -> real, now: Time, ghost s: System) returns (recovered: int, alarm: bool, ghost e: Event)
      requires At(s, now)
      modifies repo`jobs
      ensures e.Recover? && Enabled(s, e) && At(Apply(Cfg(), s, e), now)
      ensures recovered == |e.chosen| == if |Stale(s.jobs, now)| < 100 then |Stale(s.jobs, now)| else 100
      ensures forall i :: i in e.chosen ==> repo.jobs[i].availableAt == now + Retry.Backoff(policy, s.jobs[i].attempt, draw(i))
      ensures alarm <==> dlqThreshold > 0 && |DeadLetters(s.jobs)| >= dlqThreshold
    {
      alarm := false;
      if dlqThreshold > 0 {
        var count := repo.CountDLQ();
        alarm := count >= dlqThreshold;
      }
      var p := policy;
      var b := Backoffs(Some((attempt, d) => Retry.Backoff(p, attempt, d)), draw);
      ghost var chosen;
      recovered, chosen := repo.RecoverStale(100, b, now);
      e := Recover(chosen, 100, b);
    }

    // -------------------------------------------------------------- a whole round

    /** One round of a worker, with time passing before each call and the handler's
        outcome arbitrary. It is a stretch of the protocol that ends without the token
        it drew and, unless the handler was missing, without a promotion undone. */
    method TryClaimAndExecute(worker: string, handle: Job -> Outcome, pause: nat -> nat, draw: real, start: Time, ghost s: System)
      returns (claimed: Option<Job>, ghost states: seq<System>, ghost events: seq<Event>)
      requires At(s, start) && Inv(Cfg(), s)
      modifies this`activeLeases, repo`jobs
      ensures activeLeases == old(activeLeases)
      ensures Segment(Cfg(), states, events) && states[0] == s && At(states[|events|], states[|events|].now)
      ensures states[|events|].held == s.held && states[|events|].owed <= s.owed
      ensures claimed.None? ==> repo.jobs == old(repo.jobs) && forall k :: !Claimable(s.jobs, k, start)
      ensures claimed.Some? ==> Earliest(s.jobs, claimed.value.id, start)
      ensures claimed.Some? && claimed.value.jobType in handlers ==> states[|events|].abandoned <= s.abandoned
      ensures claimed.Some? ==>
                claimed.value.id in repo.jobs
                && repo.jobs[claimed.value.id].status == Verdict(Cfg(), claimed.value, claimed.value.jobType in handlers, handle(claimed.value))
                && (repo.jobs[claimed.value.id].status.Retrying? ==>
                      repo.jobs[claimed.value.id].availableAt == states[|events|].now + Retry.Backoff(policy, claimed.value.attempt, draw))
    {
      ghost var e;
      states, events := [s], [];
      claimed, e := TryClaim(worker, start, s);
      states, events := Extend(Cfg(), states, events, e);
      if claimed.None? { return; }
      var job := claimed.value;
      activeLeases := activeLeases + 1;
      FreshToken(Cfg(), s, e);
      var now := start + pause(0);
      states, events := Wait(Cfg(), states, events, pause(0));
      states, events := Dispatch(job, worker, handle(job), pause, draw, now, s, states, events);
      activeLeases := activeLeases - 1;
    }

    /** The worker's own job, just as it was claimed, its token the only new one. */
    ghost predicate Executing(s: System, now: Time, job: Job, held: set<Job>)
      reads repo, repo.chain.Values
    {
      && At(s, now) && job !in held && s.held == held + {job}
      && job.id in s.jobs && s.jobs[job.id] == job && job.status.Processing?
    }

    /** The round from the handler lookup on. */
    method Dispatch(job: Job, worker: string, o: Outcome, pause: nat -> nat, draw: real, start: Time,
          ghost s: System, ghost states0: seq<System>, ghost events0: seq<Event>)
      returns (ghost states: seq<System>, ghost events: seq<Event>)
      requires Segment(Cfg(), states0, events0) && Executing(states0[|events0|], start, job, s.held) && job.worker == worker
      requires states0[|events0|].owed == s.owed && states0[|events0|].abandoned == s.abandoned
      modifies repo`jobs
      ensures Segment(Cfg(), states, events) && states[0] == states0[0] && At(states[|events|], states[|events|].now)
      ensures states[|events|].held == s.held && states[|events|].owed <= s.owed
      ensures job.jobType in handlers ==> states[|events|].abandoned <= s.abandoned
      ensures job.id in repo.jobs && repo.jobs[job.id].status == Verdict(Cfg(), job, job.jobType in handlers, o)
      ensures repo.jobs[job.id].status.Retrying? ==> repo.jobs[job.id].availableAt == states[|events|].now + Retry.Backoff(policy, job.attempt, draw)
    {
      if job.jobType !in handlers {
        ghost var e := FailUnknown(job, worker, start, states0[|events0|]);
        states, events := Extend(Cfg(), states0, events0, e);
      } else {
        states, events := Execute(job, worker, o, pause, draw, start, s, states0, events0);
      }
    }

    /** The round from the handler's return on. */
    method Execute(job: Job, worker: string, o: Outcome, pause: nat -> nat, draw: real, start: Time,
          ghost s: System, ghost states0: seq<System>, ghost events0: seq<Event>)
      returns (ghost states: seq<System>, ghost events: seq<Event>)
      requires Segment(Cfg(), states0, events0) && Executing(states0[|events0|], start, job, s.held) && job.worker == worker
      requires states0[|events0|].owed == s.owed && states0[|events0|].abandoned == s.abandoned
      modifies repo`jobs
      ensures Segment(Cfg(), states, events) && states[0] == states0[0] && At(states[|events|], states[|events|].now)
      ensures states[|events|].held == s.held && states[|events|].owed <= s.owed && states[|events|].abandoned <= s.abandoned
      ensures job.id in repo.jobs && repo.jobs[job.id].status == Verdict(Cfg(), job, true, o)
      ensures repo.jobs[job.id].status.Retrying? ==> repo.jobs[job.id].availableAt == states[|events|].now + Retry.Backoff(policy, job.attempt, draw)
    {
      ghost var e;
      states, events := states0, events0;
      if o.Done? {
        var conflict;
        conflict, e := Complete(job, worker, start, states[|events|]);
        states, events := Extend(Cfg(), states, events, e);
        return;
      }
      var now := start;
      if o.cancelled {
        e := AskCancel(job, now, states[|events|]);
        states, events := Extend(Cfg(), states, events, e);
        now := now + pause(1);
        states, events := Wait(Cfg(), states, events, pause(1));
      }
      states, events := Conclude(job, worker, o, pause(2), draw, now, s, states, events);
    }

    /** Fail or retry, and promote what is behind the job if the mode says so. */
    method Conclude(job: Job, worker: string, o: Outcome, pause: nat, draw: real, start: Time,
          ghost s: System, ghost states0: seq<System>, ghost events0: seq<Event>)
      returns (ghost states: seq<System>, ghost events: seq<Event>)
      requires Segment(Cfg(), states0, events0) && Executing(states0[|events0|], start, job, s.held) && job.worker == worker && o.Raised?
      requires states0[|events0|].owed == s.owed && states0[|events0|].abandoned == s.abandoned
      modifies repo`jobs
      ensures Segment(Cfg(), states, events) && states[0] == states0[0] && At(states[|events|], states[|events|].now)
      ensures states[|events|].held == s.held && states[|events|].owed <= s.owed && states[|events|].abandoned <= s.abandoned
      ensures job.id in repo.jobs && repo.jobs[job.id].status == Verdict(Cfg(), job, true, o)
      ensures repo.jobs[job.id].status.Retrying? ==> repo.jobs[job.id].availableAt == states[|events|].now + Retry.Backoff(policy, job.attempt, draw)
    {
      ghost var e;
      var promote;
      promote, e := FailOrRetry(job, worker, o, draw, start, states0[|events0|]);
      states, events := Extend(Cfg(), states0, events0, e);
      if promote {
        states, events := Wait(Cfg(), states, events, pause);
        e := Promote(job, start + pause, states[|events|]);
        states, events := Extend(Cfg(), states, events, e);
      }
    }
  }
}
