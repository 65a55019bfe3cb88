/** The engine's claim, execute, finish and promote protocol (engine.go) as a
    machine whose steps are single repository calls, interleaved arbitrarily:
    workers of any number of equally configured engines, the recovery loop and
    operators. */
module Protocol {
  import opened Wrappers
  import opened Lifecycle
  import opened Jobs
  import opened Queue

  /** What a step needs to know of an engine: its retry limit, default mode and lease. */
  datatype Config = Config(maxAttempts: int, mode: OrderingMode, lease: Duration)

  type Position = (string, int)

  /** The repository's jobs, the clock, and history that only the proofs see:
      `held`       job snapshots returned by Claim and not yet used to finish,
      `owed`       positions whose failure still has a PromoteNext to come,
      `abandoned`  positions failed without one, because no handler was registered,
      `used`       every id ever drawn,
      `lenient`    chains that ever received a job whose failure lets the chain go on,
      `recoveries` stale recoveries of a job since its last replay,
      `beat`       time of the last claim or accepted heartbeat of a job. */
  datatype System = System(
    jobs: Table,
    now: Time,
    held: set<Job>,
    owed: set<Position>,
    abandoned: set<Position>,
    used: set<JobId>,
    lenient: set<string>,
    recoveries: map<JobId, nat>,
    beat: map<JobId, Time>)

  datatype Event =
    | Enqueue(req: EnqueueRequest, id: JobId)
    | Claim(worker: string, pick: Option<JobId>)
    | Succeed(job: Job)
    | HandlerError(job: Job, nonRetryable: bool, msg: string, delay: Duration)
    | HandlerMissing(job: Job, msg: string)
    | ConfirmCancel(job: Job)
    | Heartbeat(id: JobId, worker: string, generation: int)
    | PromoteNext(chain: string, sequence: int)
    | RequestCancel(id: JobId)
    | Recover(chosen: set<JobId>, limit: int, b: Backoffs)
    | ReplayJob(id: JobId, payload: string)
    | SkipJob(id: JobId)
    | Reschedule(id: JobId, at: Time)
    | BulkReplay(f: JobFilter)
    | BulkSkip(f: JobFilter)
    | BulkPurge(f: JobFilter)
    | Tick(d: nat)

  function Init(now: Time): System {
    System(map[], now, {}, {}, {}, {}, {}, map[], map[])
  }

  /** Token discipline: a finishing call presents a snapshot that Claim returned
      and that has not been used before. Everything else may happen at any time. */
  ghost predicate Enabled(s: System, e: Event) {
    match e
    case Enqueue(_, id) => id !in s.used
    case Claim(_, pick) => if pick.Some? then Earliest(s.jobs, pick.value, s.now) else forall k :: !Claimable(s.jobs, k, s.now)
    case Succeed(t) => t in s.held
    case HandlerError(t, _, _, _) => t in s.held
    case HandlerMissing(t, _) => t in s.held
    case ConfirmCancel(t) => t in s.held
    case Recover(chosen, limit, _) => RecoveryPicks(s.jobs, chosen, limit, s.now)
    case _ => true
  }

  function Recoveries(s: System, i: JobId): nat {
    if i in s.recoveries then s.recoveries[i] else 0
  }

  /** No attempt is left, or the handler said not to retry. */
  predicate GivesUp(cfg: Config, t: Job, nonRetryable: bool) {
    nonRetryable || t.attempt >= t.maxAttempts || t.attempt >= cfg.maxAttempts
  }

  /** The mode the engine acts on when a job it holds has failed for good. */
  function EngineMode(cfg: Config, t: Job): OrderingMode {
    if !t.mode.Unset? then t.mode else ResolvedMode(cfg.mode)
  }

  predicate Accepts(s: System, t: Job) {
    Fence(s.jobs, t.id, t.worker, t.generation).None?
  }

  function Where(t: Job): Position {
    (t.chain, t.sequence)
  }

  /** A finishing call that presents generation `g` of job `i`. */
  predicate FinishesWith(e: Event, i: JobId, g: int) {
    (e.Succeed? || e.HandlerError? || e.HandlerMissing? || e.ConfirmCancel?) && e.job.id == i && e.job.generation == g
  }

  /** The jobs after a step. */
  ghost function JobsAfter(cfg: Config, s: System, e: Event): Table {
    match e
    case Enqueue(req, id) => Enqueued(s.jobs, req, id, s.now)
    case Claim(w, pick) =>
      if pick.Some? && pick.value in s.jobs
      then s.jobs[pick.value := Claimed(s.jobs[pick.value], w, cfg.lease, s.now)] else s.jobs
    case Succeed(t) =>
      if Accepts(s, t) then CompletedAndPromoted(s.jobs, t.id, s.now) else s.jobs
    case HandlerError(t, nonRetryable, msg, delay) =>
      if !Accepts(s, t) then s.jobs
      else if GivesUp(cfg, t, nonRetryable) then s.jobs[t.id := FailedJob(s.jobs[t.id], msg, true, s.now)]
      else s.jobs[t.id := RetriedJob(s.jobs[t.id], msg, s.now + delay, s.now)]
    case HandlerMissing(t, msg) =>
      if Accepts(s, t) then s.jobs[t.id := FailedJob(s.jobs[t.id], msg, true, s.now)] else s.jobs
    case ConfirmCancel(t) =>
      if Accepts(s, t) then s.jobs[t.id := CancelledJob(s.jobs[t.id], s.now)] else s.jobs
    case Heartbeat(id, w, g) =>
      if Fence(s.jobs, id, w, g).None? then s.jobs[id := Beaten(s.jobs[id], cfg.lease, s.now)] else s.jobs
    case PromoteNext(c, q) => Promoted(s.jobs, c, q, s.now)
    case RequestCancel(id) =>
      if id in s.jobs then s.jobs[id := CancelRequestedJob(s.jobs[id], s.now)] else s.jobs
    case Recover(chosen, _, b) => Recovered(s.jobs, chosen, b, s.now)
    case ReplayJob(id, payload) => if id in s.jobs then Replayed(s.jobs, id, payload, s.now) else s.jobs
    case SkipJob(id) => if id in s.jobs then Skipped(s.jobs, id, s.now) else s.jobs
    case Reschedule(id, at) =>
      if id in s.jobs && CanBeClaimed(s.jobs[id].status)
      then s.jobs[id := RescheduledJob(s.jobs[id], at, s.now)] else s.jobs
    case BulkReplay(f) => BulkReplayed(s.jobs, f, s.now)
    case BulkSkip(f) => BulkSkipped(s.jobs, f, s.now)
    case BulkPurge(f) => BulkPurged(s.jobs, f)
    case Tick(_) => s.jobs
  }

  /** The whole state after a step. */
  ghost function Apply(cfg: Config, s: System, e: Event): System {
    var s2 := s.(jobs := JobsAfter(cfg, s, e));
    match e
    case Enqueue(req, id) =>
      s2.(used := s.used + {id},
          lenient := if Continues(ResolvedMode(req.mode)) then s.lenient + {req.chain} else s.lenient)
    case Claim(_, pick) =>
      if pick.Some? && pick.value in s.jobs
      then s2.(held := s.held + {s2.jobs[pick.value]}, beat := s.beat[pick.value := s.now]) else s2
    case Succeed(t) => s2.(held := s.held - {t})
    case HandlerError(t, nonRetryable, _, _) =>
      s2.(held := s.held - {t},
          owed := if GivesUp(cfg, t, nonRetryable) && Continues(EngineMode(cfg, t)) then s.owed + {Where(t)} else s.owed)
    case HandlerMissing(t, _) =>
      s2.(held := s.held - {t},
          abandoned := if Accepts(s, t) && Continues(t.mode) then s.abandoned + {Where(t)} else s.abandoned)
    case ConfirmCancel(t) => s2.(held := s.held - {t})
    case Heartbeat(id, w, g) =>
      if Fence(s.jobs, id, w, g).None? then s2.(beat := s.beat[id := s.now]) else s2
    case PromoteNext(c, q) => s2.(owed := s.owed - {(c, q)}, abandoned := s.abandoned - {(c, q)})
    case Recover(chosen, _, _) =>
      s2.(recoveries := map i | i in s.jobs :: if i in chosen then Recoveries(s, i) + 1 else Recoveries(s, i))
    case ReplayJob(id, _) =>
      if id in s.jobs && Stopped(s.jobs[id].status) then s2.(recoveries := s.recoveries[id := 0]) else s2
    case BulkReplay(f) =>
      s2.(recoveries := map i | i in s.jobs :: if i in Matching(s.jobs, f) then 0 else Recoveries(s, i))
    case Tick(d) => s2.(now := s.now + d)
    case _ => s2
  }

  // ---------------------------------------------------------------- runs

  ghost predicate StepAt(cfg: Config, states: seq<System>, events: seq<Event>, k: nat)
    requires k < |events| && k + 1 < |states|
  {
    Enabled(states[k], events[k]) && states[k + 1] == Apply(cfg, states[k], events[k])
  }

  /** Consecutive states of the machine, from any first state. */
  ghost predicate Segment(cfg: Config, states: seq<System>, events: seq<Event>) {
    && |states| == |events| + 1
    && forall k {:trigger StepAt(cfg, states, events, k)} :: 0 <= k < |events| ==> StepAt(cfg, states, events, k)
  }

  /** A run starts with an empty repository. */
  ghost predicate IsRun(cfg: Config, states: seq<System>, events: seq<Event>) {
    Segment(cfg, states, events) && states[0] == Init(states[0].now)
  }

  /** A run so far, one step longer. */
  lemma Extend(cfg: Config, states: seq<System>, events: seq<Event>, e: Event) returns (states2: seq<System>, events2: seq<Event>)
    requires Segment(cfg, states, events) && Enabled(states[|events|], e)
    ensures states2 == states + [Apply(cfg, states[|events|], e)] && events2 == events + [e]
    ensures Segment(cfg, states2, events2)
  {
    states2, events2 := states + [Apply(cfg, states[|events|], e)], events + [e];
    forall k | 0 <= k < |events2| ensures StepAt(cfg, states2, events2, k) {
      if k < |events| { assert StepAt(cfg, states, events, k); }
    }
  }

  // ---------------------------------------------------------------- what a step does to one job

  predicate NotBlockedAt(jobs: Table, i: JobId, c: string, q: int)
    requires i in jobs
  {
    jobs[i].chain == c && jobs[i].sequence == q ==> !jobs[i].status.Blocked?
  }

  /** No blocked job stands at position `q` of chain `c`. */
  ghost predicate OpenAt(jobs: Table, c: string, q: int) {
    forall i {:trigger NotBlockedAt(jobs, i, c, q)} :: i in jobs ==> NotBlockedAt(jobs, i, c, q)
  }

  predicate SameCounters(j: Job, k: Job) {
    j.generation == k.generation && j.attempt == k.attempt && j.worker == k.worker
  }

  /** Status and counters stay; a job in processing keeps its lease or has it renewed. */
  ghost predicate Stayed(cfg: Config, s: System, s2: System, i: JobId)
    requires i in s.jobs && i in s2.jobs
  {
    var j, k := s.jobs[i], s2.jobs[i];
    && k.status == j.status && SameCounters(j, k) && Recoveries(s2, i) == Recoveries(s, i)
    && (j.status.Processing? ==>
          || (k.leaseUntil == j.leaseUntil && (i in s.beat ==> i in s2.beat && s2.beat[i] == s.beat[i]))
          || (k.leaseUntil == Some(s.now + cfg.lease) && i in s2.beat && s2.beat[i] == s.now))
  }

  ghost predicate WasClaimed(cfg: Config, s: System, s2: System, i: JobId)
    requires i in s.jobs && i in s2.jobs
  {
    var j, k := s.jobs[i], s2.jobs[i];
    && CanBeClaimed(j.status) && (j.sequence == 1 || HasFinishedAt(s.jobs, j.chain, j.sequence - 1))
    && !Busy(s.jobs, j.chain)
    && k.status.Processing? && k.generation == j.generation + 1 && k.attempt == j.attempt + 1
    && k.leaseUntil == Some(s.now + cfg.lease) && i in s2.beat && s2.beat[i] == s.now
    && Recoveries(s2, i) == Recoveries(s, i)
    && s2.held == s.held + {k}
  }

  /** Token `t` decides the job: completed with its successor opened, failed with
      a promotion owed if the mode lets the chain go on, put back for a retry that
      its budget allows, or cancelled. */
  ghost predicate Decides(cfg: Config, s: System, s2: System, i: JobId, t: Job)
    requires i in s.jobs && i in s2.jobs
  {
    var j, k := s.jobs[i], s2.jobs[i];
    && t.id == i && t.generation == j.generation
    && (|| (k.status.Completed? && OpenAt(s2.jobs, j.chain, j.sequence + 1))
        || (InDeadLetterQueue(k.status) && (SameIdentity(t, j) && Continues(j.mode) ==> Where(j) in s2.owed + s2.abandoned))
        || (k.status.Retrying? && t.attempt < t.maxAttempts && t.attempt < cfg.maxAttempts)
        || k.status.Cancelled?)
  }

  /** A held token that the fence accepts decides the job, and is used up. */
  ghost predicate WasDecided(cfg: Config, s: System, s2: System, i: JobId)
    requires i in s.jobs && i in s2.jobs
  {
    && SameCounters(s.jobs[i], s2.jobs[i]) && Recoveries(s2, i) == Recoveries(s, i)
    && exists t :: t in s.held && s2.held == s.held - {t} && Decides(cfg, s, s2, i, t)
  }

  ghost predicate WasUnblocked(s: System, s2: System, i: JobId)
    requires i in s.jobs && i in s2.jobs
  {
    var j, k := s.jobs[i], s2.jobs[i];
    j.status.Blocked? && k.status.Pending? && SameCounters(j, k) && Recoveries(s2, i) == Recoveries(s, i)
  }

  ghost predicate WasAsked(s: System, s2: System, i: JobId)
    requires i in s.jobs && i in s2.jobs
  {
    var j, k := s.jobs[i], s2.jobs[i];
    && (CanBeClaimed(j.status) || j.status.Blocked?) && k.status.CancelRequested?
    && SameCounters(j, k) && Recoveries(s2, i) == Recoveries(s, i)
  }

  ghost predicate WasRecovered(s: System, s2: System, i: JobId)
    requires i in s.jobs && i in s2.jobs
  {
    var j, k := s.jobs[i], s2.jobs[i];
    && IsStale(j, s.now) && k.status.Retrying?
    && SameCounters(j, k) && Recoveries(s2, i) == Recoveries(s, i) + 1
  }

  ghost predicate WasReopened(s: System, s2: System, i: JobId)
    requires i in s.jobs && i in s2.jobs
  {
    var j, k := s.jobs[i], s2.jobs[i];
    && Stopped(j.status) && k.status.Pending?
    && k.generation == j.generation && k.worker == j.worker && k.attempt == 0 && Recoveries(s2, i) == 0
  }

  ghost predicate WasSkipped(s: System, s2: System, i: JobId)
    requires i in s.jobs && i in s2.jobs
  {
    var j, k := s.jobs[i], s2.jobs[i];
    && Stopped(j.status) && k.status.Completed? && OpenAt(s2.jobs, j.chain, j.sequence + 1)
    && SameCounters(j, k) && Recoveries(s2, i) == Recoveries(s, i)
  }

  /** The only ways a step changes a job that it neither creates nor purges. */
  ghost predicate ChangedAt(cfg: Config, s: System, e: Event, s2: System, i: JobId)
    requires i in s.jobs && i in s2.jobs
  {
    && SameIdentity(s.jobs[i], s2.jobs[i])
    && (|| Stayed(cfg, s, s2, i)
        || (e.Claim? && WasClaimed(cfg, s, s2, i))
        || (FinishesWith(e, i, s.jobs[i].generation) && WasDecided(cfg, s, s2, i))
        || WasUnblocked(s, s2, i)
        || WasAsked(s, s2, i)
        || (e.Recover? && WasRecovered(s, s2, i))
        || ((e.ReplayJob? || e.BulkReplay?) && WasReopened(s, s2, i))
        || WasSkipped(s, s2, i))
  }

  /** Tokens come from claims only; a debt disappears only when it is paid. */
  ghost predicate HistoryKept(s: System, s2: System) {
    && s.used <= s2.used && s.lenient <= s2.lenient
    && (forall t :: t in s2.held && t !in s.held ==>
          t.id in s.jobs && t.id in s2.jobs && t == s2.jobs[t.id] && t.generation == s.jobs[t.id].generation + 1)
    && (forall x: Position :: x in s.owed + s.abandoned ==> x in s2.owed + s2.abandoned || OpenAt(s2.jobs, x.0, x.1 + 1))
  }

  /** A step that keeps the set of jobs. */
  ghost predicate Updates(cfg: Config, s: System, e: Event, s2: System) {
    && s2.jobs.Keys == s.jobs.Keys
    && s2.used == s.used && s2.lenient == s.lenient
    && HistoryKept(s, s2)
    && forall i {:trigger ChangedAt(cfg, s, e, s2, i)} :: i in s.jobs ==> ChangedAt(cfg, s, e, s2, i)
  }

  // ---------------------------------------------------------------- every step has that shape

  /** Steps that write at most the one job `id`. */
  lemma OneJobUpdates(cfg: Config, s: System, e: Event, s2: System, id: JobId)
    requires s2.used == s.used && s2.lenient == s.lenient && HistoryKept(s, s2)
    requires s2.jobs.Keys == s.jobs.Keys
    requires forall i :: i in s.jobs && i != id ==>
               s2.jobs[i] == s.jobs[i] && Recoveries(s2, i) == Recoveries(s, i) && (i in s.beat ==> i in s2.beat && s2.beat[i] == s.beat[i])
    requires id in s.jobs ==> ChangedAt(cfg, s, e, s2, id)
    ensures Updates(cfg, s, e, s2)
  {
    forall i | i in s.jobs ensures ChangedAt(cfg, s, e, s2, i) {
      if i != id { assert Stayed(cfg, s, s2, i); }
    }
  }

  lemma SameHistory(s: System, s2: System)
    requires s2.used == s.used && s2.lenient == s.lenient && s2.held == s.held && s2.owed == s.owed && s2.abandoned == s.abandoned
    ensures HistoryKept(s, s2)
  {
  }

  lemma ClaimChanges(cfg: Config, s: System, e: Event, s2: System)
    requires e.Claim? && e.pick.Some? && Enabled(s, e) && s2 == Apply(cfg, s, e)
    ensures ChangedAt(cfg, s, e, s2, e.pick.value)
  {
    assert WasClaimed(cfg, s, s2, e.pick.value);
  }

  lemma ClaimUpdates(cfg: Config, s: System, e: Event)
    requires e.Claim? && KeysMatch(s.jobs) && Enabled(s, e)
    ensures Updates(cfg, s, e, Apply(cfg, s, e))
  {
    var s2 := Apply(cfg, s, e);
    if e.pick.Some? {
      ClaimChanges(cfg, s, e, s2);
      OneJobUpdates(cfg, s, e, s2, e.pick.value);
    } else {
      forall i | i in s.jobs ensures ChangedAt(cfg, s, e, s2, i) { assert Stayed(cfg, s, s2, i); }
    }
  }

  /** A finishing call that does not complete: it decides the job or conflicts. */
  lemma TokenChanges(cfg: Config, s: System, e: Event, s2: System)
    requires e.HandlerError? || e.HandlerMissing? || e.ConfirmCancel?
    requires KeysMatch(s.jobs) && Enabled(s, e) && s2 == Apply(cfg, s, e) && e.job.id in s.jobs
    ensures ChangedAt(cfg, s, e, s2, e.job.id)
  {
    if Accepts(s, e.job) {
      assert Decides(cfg, s, s2, e.job.id, e.job);
      assert WasDecided(cfg, s, s2, e.job.id);
    } else {
      assert Stayed(cfg, s, s2, e.job.id);
    }
  }

  lemma HandlerErrorUpdates(cfg: Config, s: System, e: Event)
    requires e.HandlerError? && KeysMatch(s.jobs) && Enabled(s, e)
    ensures Updates(cfg, s, e, Apply(cfg, s, e))
  {
    var s2, id := Apply(cfg, s, e), e.job.id;
    if id in s.jobs {
      TokenChanges(cfg, s, e, s2);
    }
    OneJobUpdates(cfg, s, e, s2, id);
  }

  lemma HandlerMissingUpdates(cfg: Config, s: System, e: Event)
    requires e.HandlerMissing? && KeysMatch(s.jobs) && Enabled(s, e)
    ensures Updates(cfg, s, e, Apply(cfg, s, e))
  {
    var s2, id := Apply(cfg, s, e), e.job.id;
    if id in s.jobs {
      TokenChanges(cfg, s, e, s2);
    }
    OneJobUpdates(cfg, s, e, s2, id);
  }

  lemma ConfirmCancelUpdates(cfg: Config, s: System, e: Event)
    requires e.ConfirmCancel? && KeysMatch(s.jobs) && Enabled(s, e)
    ensures Updates(cfg, s, e, Apply(cfg, s, e))
  {
    var s2, id := Apply(cfg, s, e), e.job.id;
    if id in s.jobs {
      TokenChanges(cfg, s, e, s2);
    }
    OneJobUpdates(cfg, s, e, s2, id);
  }

  lemma HeartbeatUpdates(cfg: Config, s: System, e: Event)
    requires e.Heartbeat?
    ensures Updates(cfg, s, e, Apply(cfg, s, e))
  {
    var s2 := Apply(cfg, s, e);
    SameHistory(s, s2);
    if e.id in s.jobs { assert Stayed(cfg, s, s2, e.id); }
    OneJobUpdates(cfg, s, e, s2, e.id);
  }

  lemma RequestCancelUpdates(cfg: Config, s: System, e: Event)
    requires e.RequestCancel?
    ensures Updates(cfg, s, e, Apply(cfg, s, e))
  {
    var s2 := Apply(cfg, s, e);
    SameHistory(s, s2);
    if e.id in s.jobs { assert Stayed(cfg, s, s2, e.id) || WasAsked(s, s2, e.id); }
    OneJobUpdates(cfg, s, e, s2, e.id);
  }

  lemma RescheduleUpdates(cfg: Config, s: System, e: Event)
    requires e.Reschedule?
    ensures Updates(cfg, s, e, Apply(cfg, s, e))
  {
    var s2 := Apply(cfg, s, e);
    SameHistory(s, s2);
    if e.id in s.jobs { assert Stayed(cfg, s, s2, e.id); }
    OneJobUpdates(cfg, s, e, s2, e.id);
  }

  lemma ReplayUpdates(cfg: Config, s: System, e: Event)
    requires e.ReplayJob?
    ensures Updates(cfg, s, e, Apply(cfg, s, e))
  {
    var s2 := Apply(cfg, s, e);
    SameHistory(s, s2);
    if e.id in s.jobs { assert Stayed(cfg, s, s2, e.id) || WasReopened(s, s2, e.id); }
    OneJobUpdates(cfg, s, e, s2, e.id);
  }

  /** Completing `id` and promoting its successor, by Succeed or by SkipJob. */
  lemma CompletionUpdates(cfg: Config, s: System, e: Event, s2: System, id: JobId, token: Option<Job>)
    requires KeysMatch(s.jobs) && id in s.jobs
    requires s2.jobs == CompletedAndPromoted(s.jobs, id, s.now)
    requires s2 == s.(jobs := s2.jobs, held := s2.held) && s2.held <= s.held
    requires if token.Some?
             then e == Succeed(token.value) && token.value in s.held && s2.held == s.held - {token.value}
                  && token.value.id == id && token.value.generation == s.jobs[id].generation
             else Stopped(s.jobs[id].status)
    ensures Updates(cfg, s, e, s2)
  {
    var c, q := s.jobs[id].chain, s.jobs[id].sequence;
    assert OpenAt(s2.jobs, c, q + 1);
    forall i | i in s.jobs ensures ChangedAt(cfg, s, e, s2, i) {
      if i == id {
        if token.Some? {
          assert Decides(cfg, s, s2, id, token.value);
          assert WasDecided(cfg, s, s2, id);
        } else {
          assert WasSkipped(s, s2, id);
        }
      } else if s2.jobs[i] == s.jobs[i] {
        assert Stayed(cfg, s, s2, i);
      } else {
        assert WasUnblocked(s, s2, i);
      }
    }
  }

  lemma SucceedUpdates(cfg: Config, s: System, e: Event)
    requires e.Succeed? && KeysMatch(s.jobs) && Enabled(s, e)
    ensures Updates(cfg, s, e, Apply(cfg, s, e))
  {
    var s2 := Apply(cfg, s, e);
    if Accepts(s, e.job) {
      CompletionUpdates(cfg, s, e, s2, e.job.id, Some(e.job));
    } else {
      forall i | i in s.jobs ensures ChangedAt(cfg, s, e, s2, i) { assert Stayed(cfg, s, s2, i); }
    }
  }

  lemma SkipUpdates(cfg: Config, s: System, e: Event)
    requires e.SkipJob? && KeysMatch(s.jobs)
    ensures Updates(cfg, s, e, Apply(cfg, s, e))
  {
    var s2 := Apply(cfg, s, e);
    if e.id in s.jobs && Stopped(s.jobs[e.id].status) {
      CompletionUpdates(cfg, s, e, s2, e.id, None);
    } else {
      forall i | i in s.jobs ensures ChangedAt(cfg, s, e, s2, i) { assert Stayed(cfg, s, s2, i); }
    }
  }

  /** A PromoteNext pays its debt by opening the position behind it. */
  lemma PromotePays(s: System, s2: System, c: string, q: int)
    requires s2.used == s.used && s2.lenient == s.lenient && s2.held == s.held
    requires s2.jobs == Promoted(s.jobs, c, q, s.now)
    requires s2.owed == s.owed - {(c, q)} && s2.abandoned == s.abandoned - {(c, q)}
    ensures HistoryKept(s, s2)
  {
    assert OpenAt(s2.jobs, c, q + 1);
    forall x: Position | x in s.owed + s.abandoned ensures x in s2.owed + s2.abandoned || OpenAt(s2.jobs, x.0, x.1 + 1) {
      if x == (c, q) { assert OpenAt(s2.jobs, x.0, x.1 + 1); }
    }
  }

  lemma PromoteUpdates(cfg: Config, s: System, e: Event)
    requires e.PromoteNext?
    ensures Updates(cfg, s, e, Apply(cfg, s, e))
  {
    var s2 := Apply(cfg, s, e);
    PromotePays(s, s2, e.chain, e.sequence);
    forall i | i in s.jobs ensures ChangedAt(cfg, s, e, s2, i) {
      if s2.jobs[i] == s.jobs[i] { assert Stayed(cfg, s, s2, i); } else { assert WasUnblocked(s, s2, i); }
    }
  }

  lemma RecoverUpdates(cfg: Config, s: System, e: Event)
    requires e.Recover? && Enabled(s, e)
    ensures Updates(cfg, s, e, Apply(cfg, s, e))
  {
    var s2 := Apply(cfg, s, e);
    forall i | i in s.jobs ensures ChangedAt(cfg, s, e, s2, i) {
      if i in e.chosen { assert i in Stale(s.jobs, s.now) && WasRecovered(s, s2, i); } else { assert Stayed(cfg, s, s2, i); }
    }
  }

  lemma BulkReplayUpdates(cfg: Config, s: System, e: Event)
    requires e.BulkReplay?
    ensures Updates(cfg, s, e, Apply(cfg, s, e))
  {
    var s2 := Apply(cfg, s, e);
    forall i | i in s.jobs ensures ChangedAt(cfg, s, e, s2, i) {
      if i in Matching(s.jobs, e.f) { assert WasReopened(s, s2, i); } else { assert Stayed(cfg, s, s2, i); }
    }
  }

  lemma BulkSkipUpdates(cfg: Config, s: System, e: Event)
    requires e.BulkSkip?
    ensures Updates(cfg, s, e, Apply(cfg, s, e))
  {
    var s2, hit := Apply(cfg, s, e), Matching(s.jobs, e.f);
    forall i | i in s.jobs ensures ChangedAt(cfg, s, e, s2, i) {
      if i in hit {
        forall x | x in s2.jobs ensures NotBlockedAt(s2.jobs, x, s.jobs[i].chain, s.jobs[i].sequence + 1) {
          if Before(s.jobs[i], s.jobs[x]) { assert BehindOneOf(s.jobs, hit, s.jobs[x]); }
        }
        assert WasSkipped(s, s2, i);
      } else if s2.jobs[i] == s.jobs[i] {
        assert Stayed(cfg, s, s2, i);
      } else {
        assert WasUnblocked(s, s2, i);
      }
    }
  }

  lemma TickUpdates(cfg: Config, s: System, e: Event)
    requires e.Tick?
    ensures Updates(cfg, s, e, Apply(cfg, s, e))
  {
    var s2 := Apply(cfg, s, e);
    forall i | i in s.jobs ensures ChangedAt(cfg, s, e, s2, i) { assert Stayed(cfg, s, s2, i); }
  }

  /** Every step but an enqueue and a purge changes each job in one of the listed ways. */
  lemma StepUpdates(cfg: Config, s: System, e: Event)
    requires KeysMatch(s.jobs) && Enabled(s, e) && !e.Enqueue? && !e.BulkPurge?
    ensures Updates(cfg, s, e, Apply(cfg, s, e))
  {
    match e
    case Claim(_, _) => ClaimUpdates(cfg, s, e);
    case Succeed(_) => SucceedUpdates(cfg, s, e);
    case HandlerError(_, _, _, _) => HandlerErrorUpdates(cfg, s, e);
    case HandlerMissing(_, _) => HandlerMissingUpdates(cfg, s, e);
    case ConfirmCancel(_) => ConfirmCancelUpdates(cfg, s, e);
    case PromoteNext(_, _) => PromoteUpdates(cfg, s, e);
    case Recover(_, _, _) => RecoverUpdates(cfg, s, e);
    case SkipJob(_) => SkipUpdates(cfg, s, e);
    case BulkReplay(_) => BulkReplayUpdates(cfg, s, e);
    case BulkSkip(_) => BulkSkipUpdates(cfg, s, e);
    case Tick(_) => TickUpdates(cfg, s, e);
    case Heartbeat(_, _, _) => HeartbeatUpdates(cfg, s, e);
    case RequestCancel(_) => RequestCancelUpdates(cfg, s, e);
    case Reschedule(_, _) => RescheduleUpdates(cfg, s, e);
    case ReplayJob(_, _) => ReplayUpdates(cfg, s, e);
  }
}
