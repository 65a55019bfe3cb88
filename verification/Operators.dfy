/** Everything else that reaches the in-memory repository - enqueues, operators, and a
    confirmed cancel - is a step of the protocol as well. */
module Operators {
  import opened Wrappers
  import opened Jobs
  import opened Queue
  import opened Protocol
  import opened MemoryRepository

  /** The repository is where the protocol says it is. */
  ghost predicate At(repo: Repository, s: System, now: Time)
    reads repo, repo.chain.Values
  {
    repo.Valid() && repo.jobs == s.jobs && now == s.now
  }

  method Enqueue(repo: Repository, req: EnqueueRequest, id: JobId, now: Time, ghost cfg: Config, ghost s: System)
      returns (r: Result<Job, Error>)
    requires At(repo, s, now) && id !in s.used && s.jobs.Keys <= s.used
    modifies repo, repo.chain.Values
    ensures r == EnqueueResult(s.jobs, req, id, now)
    ensures Enabled(s, Event.Enqueue(req, id)) && At(repo, Apply(cfg, s, Event.Enqueue(req, id)), now)
  {
    r := repo.Enqueue(req, id, now);
  }

  method RequestCancel(repo: Repository, id: JobId, now: Time, ghost cfg: Config, ghost s: System) returns (err: Option<Error>)
    requires At(repo, s, now)
    modifies repo`jobs
    ensures err.Some? <==> id !in s.jobs
    ensures At(repo, Apply(cfg, s, Event.RequestCancel(id)), now)
  {
    err := repo.RequestCancel(id, now);
  }

  /** A worker that confirms a cancel presents its token, like one that finishes. */
  method ConfirmCancel(repo: Repository, job: Job, now: Time, ghost cfg: Config, ghost s: System) returns (err: Option<Error>)
    requires At(repo, s, now) && job in s.held
    modifies repo`jobs
    ensures err.None? <==> Accepts(s, job)
    ensures Enabled(s, Event.ConfirmCancel(job)) && At(repo, Apply(cfg, s, Event.ConfirmCancel(job)), now)
  {
    err := repo.ConfirmCancel(job.id, job.worker, job.generation, now);
  }

  method ReplayJob(repo: Repository, id: JobId, payload: string, now: Time, ghost cfg: Config, ghost s: System) returns (err: Option<Error>)
    requires At(repo, s, now)
    modifies repo`jobs
    ensures err.Some? <==> id !in s.jobs
    ensures At(repo, Apply(cfg, s, Event.ReplayJob(id, payload)), now)
  {
    err := repo.ReplayJob(id, payload, now);
  }

  method SkipJob(repo: Repository, id: JobId, now: Time, ghost cfg: Config, ghost s: System) returns (err: Option<Error>)
    requires At(repo, s, now)
    modifies repo`jobs
    ensures err.Some? <==> id !in s.jobs
    ensures At(repo, Apply(cfg, s, Event.SkipJob(id)), now)
  {
    err := repo.SkipJob(id, now);
  }

  method Reschedule(repo: Repository, id: JobId, at: Time, now: Time, ghost cfg: Config, ghost s: System) returns (r: Result<Job, Error>)
    requires At(repo, s, now)
    modifies repo`jobs
    ensures At(repo, Apply(cfg, s, Event.Reschedule(id, at)), now)
  {
    r := repo.RescheduleJob(id, at, now);
  }

  method BulkReplay(repo: Repository, f: JobFilter, now: Time, ghost cfg: Config, ghost s: System) returns (count: int)
    requires At(repo, s, now)
    modifies repo`jobs
    ensures At(repo, Apply(cfg, s, Event.BulkReplay(f)), now)
  {
    count := repo.BulkReplayDLQ(f, now);
  }

  method BulkSkip(repo: Repository, f: JobFilter, now: Time, ghost cfg: Config, ghost s: System) returns (count: int)
    requires At(repo, s, now)
    modifies repo`jobs
    ensures At(repo, Apply(cfg, s, Event.BulkSkip(f)), now)
  {
    count := repo.BulkSkipDLQ(f, now);
  }

  method BulkPurge(repo: Repository, f: JobFilter, now: Time, ghost cfg: Config, ghost s: System) returns (count: int)
    requires At(repo, s, now)
    modifies repo, repo.chain.Values
    ensures At(repo, Apply(cfg, s, Event.BulkPurge(f)), now)
  {
    count := repo.BulkPurgeDLQ(f);
  }
}
