/** The in-memory repository (repository/memory/repository.go). Each call holds
    one mutex in the source, so each method is one atomic step. The clock, fresh
    ids and random backoff draws are parameters; a loop over a Go map visits the
    entries in an arbitrary order. */
module MemoryRepository {
  import opened Wrappers
  import opened Lifecycle
  import opened Jobs
  import opened Queue
  import opened Collections
  import Effects

  type Index = map<string, map<int, JobId>>

  /** The job is indexed at its own position. */
  ghost predicate Filed(ix: Index, j: Job) {
    j.chain in ix && j.sequence in ix[j.chain] && ix[j.chain][j.sequence] == j.id
  }

  /** An index entry leads to a job at that position. */
  ghost predicate Entry(ix: Index, jobs: Table, c: string, q: int) {
    c in ix && q in ix[c] ==> ix[c][q] in jobs && jobs[ix[c][q]].chain == c && jobs[ix[c][q]].sequence == q
  }

  /** The chain index and the job map are inverses of each other, and no inner map is empty. */
  ghost predicate Indexes(ix: Index, jobs: Table) {
    && (forall c :: c in ix ==> ix[c] != map[])
    && (forall i {:trigger Filed(ix, jobs[i])} :: i in jobs ==> Filed(ix, jobs[i]))
    && (forall c, q {:trigger Entry(ix, jobs, c, q)} :: Entry(ix, jobs, c, q))
  }

  /** The jobs determine the index, so two agreeing indexes are equal. */
  lemma IndexIsDetermined(a: Index, b: Index, jobs: Table)
    requires KeysMatch(jobs) && Indexes(a, jobs) && Indexes(b, jobs)
    ensures a == b
  {
    forall c | c in a ensures c in b && a[c] == b[c] {
      SameChain(a, b, jobs, c);
    }
    forall c | c in b ensures c in a {
      SameChain(b, a, jobs, c);
    }
  }

  lemma SameChain(a: Index, b: Index, jobs: Table, c: string)
    requires KeysMatch(jobs) && Indexes(a, jobs) && Indexes(b, jobs) && c in a
    ensures c in b && a[c] == b[c]
  {
    var q := Inhabited(a[c].Keys);
    assert Entry(a, jobs, c, q) && Filed(b, jobs[a[c][q]]);
    forall p | p in a[c] ensures p in b[c] && a[c][p] == b[c][p] {
      assert Entry(a, jobs, c, p) && Filed(b, jobs[a[c][p]]);
    }
    forall p | p in b[c] ensures p in a[c] {
      assert Entry(b, jobs, c, p) && Filed(a, jobs[b[c][p]]);
    }
  }

  lemma IndexFollowsIdentity(ix: Index, before: Table, after: Table)
    requires Indexes(ix, before) && KeepsIdentity(before, after)
    ensures Indexes(ix, after)
  {
    forall i | i in after ensures Filed(ix, after[i]) {
      assert Filed(ix, before[i]);
    }
    forall c, q ensures Entry(ix, after, c, q) {
      assert Entry(ix, before, c, q);
    }
  }

  function Inserted(ix: Index, j: Job): Index {
    ix[j.chain := (if j.chain in ix then ix[j.chain] else map[])[j.sequence := j.id]]
  }

  lemma InsertKeepsIndex(ix: Index, jobs: Table, j: Job)
    requires Indexes(ix, jobs) && KeysMatch(jobs) && j.id !in jobs && !HasJobAt(jobs, j.chain, j.sequence)
    ensures Indexes(Inserted(ix, j), jobs[j.id := j])
  {
    var after, js := Inserted(ix, j), jobs[j.id := j];
    assert j.sequence in after[j.chain];
    forall i | i in js ensures Filed(after, js[i]) {
      if i in jobs { assert Filed(ix, jobs[i]); }
    }
    forall c, q ensures Entry(after, js, c, q) {
      assert Entry(ix, jobs, c, q);
    }
  }

  function Removed(ix: Index, c: string, q: int): Index {
    if c !in ix then ix
    else if ix[c] - {q} == map[] then ix - {c}
    else ix[c := ix[c] - {q}]
  }

  lemma RemoveKeepsIndex(ix: Index, jobs: Table, id: JobId)
    requires Indexes(ix, jobs) && WellFormed(jobs) && id in jobs
    ensures Indexes(Removed(ix, jobs[id].chain, jobs[id].sequence), jobs - {id})
    ensures WellFormed(jobs - {id})
  {
    var c, q, js := jobs[id].chain, jobs[id].sequence, jobs - {id};
    var after := Removed(ix, c, q);
    assert Filed(ix, jobs[id]) && AloneAt(jobs, id);
    forall i | i in js ensures Filed(after, js[i]) && AloneAt(js, i) && AloneWithKey(js, i) {
      assert Filed(ix, jobs[i]) && AloneAt(jobs, i) && AloneWithKey(jobs, i);
      if jobs[i].chain == c { assert jobs[i].sequence in (ix[c] - {q}).Keys; }
    }
    forall d, p ensures Entry(after, js, d, p) {
      assert Entry(ix, jobs, d, p);
    }
  }

  /** A Go inner map: a reference that several holders can share. */
  class ChainIndex {
    var ids: map<int, JobId>

    constructor ()
      ensures ids == map[]
    {
      ids := map[];
    }
  }

  ghost predicate Sorted(s: seq<Job>) {
    forall a, b :: 0 <= a < b < |s| ==> NoLater(s[a], s[b])
  }

  /** `sort.Slice` promises a sorted permutation and no stability. */
  method SortByAvailability(cands: seq<Job>) returns (sorted: seq<Job>)
    ensures multiset(sorted) == multiset(cands)
    ensures Sorted(sorted)
    ensures forall a, b :: 0 <= a < b < |sorted| ==> Effects.NotAfter(sorted[a], sorted[b])
  {
    sorted := [];
    for n := 0 to |cands|
      invariant multiset(sorted) == multiset(cands[..n])
      invariant Sorted(sorted)
    {
      var k := 0;
      while k < |sorted| && NoLater(sorted[k], cands[n])
        invariant k <= |sorted|
        invariant k > 0 ==> NoLater(sorted[k - 1], cands[n])
      {
        k := k + 1;
      }
      InsertOne(sorted, k, cands[n]);
      InsertSorted(sorted, k, cands[n]);
      assert cands[..n + 1] == cands[..n] + [cands[n]];
      sorted := sorted[..k] + [cands[n]] + sorted[k..];
    }
    assert cands[..|cands|] == cands;
    forall a, b | 0 <= a < b < |sorted| ensures Effects.NotAfter(sorted[a], sorted[b]) {
      Effects.NoLaterMeans(sorted[a], sorted[b]);
    }
  }

  lemma SameMembers(s: seq<Job>, t: seq<Job>)
    requires multiset(s) == multiset(t)
    ensures forall j :: j in s <==> j in t
  {
    forall j ensures j in s <==> j in t {
      assert j in s <==> j in multiset(s);
      assert j in t <==> j in multiset(t);
    }
  }

  lemma InsertSorted(s: seq<Job>, k: nat, j: Job)
    requires k <= |s| && Sorted(s)
    requires k > 0 ==> NoLater(s[k - 1], j)
    requires k < |s| ==> !NoLater(s[k], j)
    ensures Sorted(s[..k] + [j] + s[k..])
  {
    var t := s[..k] + [j] + s[k..];
    forall a, b | 0 <= a < b < |t| ensures NoLater(t[a], t[b]) {
      assert a < k - 1 ==> NoLater(s[a], s[k - 1]);
      assert b > k + 1 ==> NoLater(s[k], s[b - 1]);
      if a < b < k { assert NoLater(s[a], s[b]); }
      else if a < k < b { assert NoLater(s[a], s[b - 1]); }
      else if k < a { assert NoLater(s[a - 1], s[b - 1]); }
    }
  }

  /** `j` is ready, and every job that is ready is available no earlier, nor created
      earlier if it is available at the same time. */
  ghost predicate FirstReady(jobs: Table, j: Job, now: Time) {
    && Effects.Ready(jobs, j.id, now)
    && forall k {:trigger Effects.Ready(jobs, k, now)} :: Effects.Ready(jobs, k, now) ==>
         && j.availableAt <= jobs[k].availableAt
         && (j.availableAt == jobs[k].availableAt ==> j.createdAt <= jobs[k].createdAt)
  }

  /** `k` is `j` in processing, claimed at `now` by worker `w`. */
  ghost predicate ClaimOf(j: Job, k: Job, w: string, lease: Duration, now: Time) {
    && Effects.SameOrder(j, k) && k.status.Processing? && k.worker == w
    && k.generation == j.generation + 1 && k.attempt == j.attempt + 1 && k.availableAt == j.availableAt
    && (k.startedAt == if j.startedAt.Some? then j.startedAt else Some(now))
    && forall at :: Effects.RanOut(k, at) <==> at > now + lease
  }

  class Repository {
    var jobs: map<JobId, Job>
    var chain: map<string, ChainIndex>

    ghost function Index(): Index
      reads this, chain.Values
    {
      map c | c in chain :: chain[c].ids
    }

    ghost predicate Valid()
      reads this, chain.Values
    {
      && WellFormed(jobs)
      && Indexes(Index(), jobs)
      && Separate()
    }

    /** No two chains share an inner map. */
    ghost predicate Separate()
      reads this
    {
      forall c, d :: c in chain && d in chain && c != d ==> chain[c] != chain[d]
    }

    constructor ()
      ensures Valid() && jobs == map[] && chain == map[]
    {
      jobs := map[];
      chain := map[];
    }

    // -------------------------------------------------------------- enqueue

    method FindJobByIdempotencyKey(key: string) returns (r: Option<Job>)
      requires Valid()
      ensures r.Some? <==> HasKey(jobs, key)
      ensures r.Some? ==> r.value.id in jobs && jobs[r.value.id] == r.value && r.value.idempotencyKey == key
    {
      var todo := jobs.Keys;
      while todo != {}
        invariant todo <= jobs.Keys
        invariant forall i :: i in jobs && jobs[i].idempotencyKey == key ==> i in todo
        decreases |todo|
      {
        var id :| id in todo;
        if jobs[id].idempotencyKey == key {
          assert CarriesKey(jobs, id, key);
          return Some(jobs[id]);
        }
        todo := todo - {id};
      }
      return None;
    }

    /** Every index lookup means a job at that position. */
    lemma LookupIs(c: string, q: int)
      requires Valid()
      ensures HasChain(jobs, c) <==> c in chain
      ensures HasJobAt(jobs, c, q) <==> c in chain && q in chain[c].ids
      ensures HasJobAt(jobs, c, q) ==>
                && chain[c].ids[q] in jobs
                && (forall i :: i in jobs && jobs[i].chain == c && jobs[i].sequence == q ==> i == chain[c].ids[q])
                && (HasFinishedAt(jobs, c, q) <==> IsFinished(jobs[chain[c].ids[q]]))
      ensures !HasJobAt(jobs, c, q) ==> !HasFinishedAt(jobs, c, q)
    {
      forall i | i in jobs ensures Filed(Index(), jobs[i]) {}
      assert Entry(Index(), jobs, c, q);
      if HasJobAt(jobs, c, q) { assert FinishedAt(jobs, chain[c].ids[q], c, q) <==> IsFinished(jobs[chain[c].ids[q]]); }
      if c in chain {
        var p := Inhabited(chain[c].ids.Keys);
        assert Entry(Index(), jobs, c, p) && InChain(jobs, chain[c].ids[p], c);
      }
    }

    method GetMaxSequence(c: string) returns (max: int)
      requires Valid()
      ensures max == MaxSeq(jobs, c)
    {
      max := 0;
      if c in chain {
        var m := chain[c].ids;
        var todo := m.Keys;
        while todo != {}
          invariant todo <= m.Keys
          invariant max >= 0 && (max == 0 || max in m)
          invariant forall s :: s in m && s !in todo ==> s <= max
          decreases |todo|
        {
          ghost var w := Inhabited(todo);
          var s :| s in todo;
          if s > max { max := s; }
          todo := todo - {s};
        }
      }
      LookupIs(c, max);
      forall i | i in jobs && jobs[i].chain == c ensures jobs[i].sequence <= max {
        assert Filed(Index(), jobs[i]);
      }
      MaxSeqIs(jobs, c, max);
    }

    method ValidateAndResolveSequence(c: string, q: int) returns (r: Result<int, Error>)
      requires Valid()
      ensures r == ResolveSequence(jobs, c, q)
    {
      LookupIs(c, q - 1);
      LookupIs(c, q);
      if q == 0 {
        var max := GetMaxSequence(c);
        return Success(max + 1);
      }
      if q > 1 {
        if c in chain {
          var max := GetMaxSequence(c);
          if q - 1 !in chain[c].ids && q > max + 1 {
            return Failure(ErrSequenceGap);
          }
        } else {
          return Failure(ErrSequenceGap);
        }
      }
      if c in chain && q in chain[c].ids {
        return Failure(ErrDuplicateChainSeq);
      }
      return Success(q);
    }

    method DetermineInitialStatus(c: string, q: int) returns (s: Status)
      requires Valid()
      ensures s == InitialStatus(jobs, c, q)
    {
      LookupIs(c, q - 1);
      if q <= 1 {
        return Pending;
      }
      if c !in chain || q - 1 !in chain[c].ids {
        return Blocked;
      }
      var pred := jobs[chain[c].ids[q - 1]];
      return if IsFinished(pred) then Pending else Blocked;
    }

    /** Files an id under a position, creating the inner map on first use. */
    method Link(c: string, q: int, id: JobId)
      requires Separate()
      modifies this`chain, chain.Values
      ensures Separate() && fresh(chain.Values - old(chain.Values))
      ensures Index() == old(Index())[c := (if c in old(Index()) then old(Index())[c] else map[])[q := id]]
    {
      if c !in chain {
        var m := new ChainIndex();
        chain := chain[c := m];
      }
      var m := chain[c];
      m.ids := m.ids[q := id];
    }

    /** Puts a new job into both structures. */
    method Store(job: Job)
      requires Valid() && job.id !in jobs && !HasJobAt(jobs, job.chain, job.sequence)
      requires job.idempotencyKey != "" ==> !HasKey(jobs, job.idempotencyKey)
      modifies this, chain.Values
      ensures Valid() && fresh(chain.Values - old(chain.Values))
      ensures jobs == old(jobs)[job.id := job]
    {
      ghost var before, ix := jobs, Index();
      InsertKeepsIndex(ix, before, job);
      InsertKeepsWellFormed(before, job);
      Link(job.chain, job.sequence, job.id);
      jobs := jobs[job.id := job];
      assert Index() == Inserted(ix, job);
    }

    method EnqueueSingleInMemory(req: EnqueueRequest, id: JobId, now: Time) returns (r: Result<Job, Error>)
      requires Valid() && id !in jobs
      modifies this, chain.Values
      ensures Valid() && fresh(chain.Values - old(chain.Values))
      ensures r == EnqueueResult(old(jobs), req, id, now)
      ensures jobs == Enqueued(old(jobs), req, id, now)
      ensures r.Success? && r.value.id !in old(jobs) ==>
                && r.value.id == id && Effects.FromRequest(req, r.value, now) && jobs == old(jobs)[id := r.value]
                && forall at {:trigger Effects.Ready(jobs, id, at)} ::
                     Effects.Ready(jobs, id, at) <==>
                     r.value.status.Pending? && at >= r.value.availableAt && Effects.HasTurn(jobs, id) && Effects.OthersIdle(jobs, id)
    {
      if req.chain == "" {
        return Failure(ErrChainRequired);
      }
      if req.idempotencyKey != "" {
        var existing := FindJobByIdempotencyKey(req.idempotencyKey);
        if existing.Some? {
          assert AloneWithKey(jobs, existing.value.id);
          return Success(existing.value);
        }
      }
      var q := ValidateAndResolveSequence(req.chain, req.sequence);
      if q.Failure? {
        return Failure(q.error);
      }
      Effects.EnqueueMeans(jobs, req, id, now);
      var status := DetermineInitialStatus(req.chain, q.value);
      var job := NewJob(req, id, q.value, status, now);
      ResolvedIsFree(jobs, req.chain, req.sequence);
      Store(job);
      return Success(job);
    }

    method Enqueue(req: EnqueueRequest, id: JobId, now: Time) returns (r: Result<Job, Error>)
      requires Valid() && id !in jobs
      modifies this, chain.Values
      ensures Valid() && fresh(chain.Values - old(chain.Values))
      ensures r == EnqueueResult(old(jobs), req, id, now)
      ensures jobs == Enqueued(old(jobs), req, id, now)
      ensures r.Success? && r.value.id !in old(jobs) ==>
                && r.value.id == id && Effects.FromRequest(req, r.value, now) && jobs == old(jobs)[id := r.value]
                && forall at {:trigger Effects.Ready(jobs, id, at)} ::
                     Effects.Ready(jobs, id, at) <==>
                     r.value.status.Pending? && at >= r.value.availableAt && Effects.HasTurn(jobs, id) && Effects.OthersIdle(jobs, id)
    {
      r := EnqueueSingleInMemory(req, id, now);
    }

    /** One turn of the batch loop. */
    method EnqueueNext(calls: seq<Call>, n: nat, ghost tables: seq<Table>, ghost out: seq<Job>) returns (r: Result<Job, Error>)
      requires Valid() && n < |calls| && FreshFrom(jobs, calls, n)
      requires Runs(tables, out, calls) && |out| == n && tables[n] == jobs
      modifies this, chain.Values
      ensures Valid() && fresh(chain.Values - old(chain.Values))
      ensures FreshFrom(jobs, calls, n + 1)
      ensures match r case Success(j) => Runs(tables + [jobs], out + [j], calls)
                      case Failure(e) => Breaks(jobs, calls, n, e) && jobs == old(jobs)
    {
      ghost var before := jobs;
      assert DrawsFresh(jobs, calls, n);
      EnqueueAddsAtMost(jobs, calls[n].req, calls[n].id, calls[n].now);
      r := EnqueueSingleInMemory(calls[n].req, calls[n].id, calls[n].now);
      FreshAfter(before, jobs, calls, n);
      if r.Success? { ExtendRun(tables, out, calls, jobs, r.value); }
    }

    /** The loop of a batch: enqueues one after another and stops at the first error. */
    method EnqueueAll(calls: seq<Call>) returns (r: Result<seq<Job>, Error>, ghost tables: seq<Table>, ghost done: seq<Job>)
      requires Valid() && FreshFrom(jobs, calls, 0)
      modifies this, chain.Values
      ensures Valid() && fresh(chain.Values - old(chain.Values))
      ensures Runs(tables, done, calls) && tables[0] == old(jobs) && tables[|done|] == jobs
      ensures match r case Success(out) => out == done && |out| == |calls|
                      case Failure(e) => Breaks(jobs, calls, |done|, e)
      ensures Folded(old(jobs), calls, |calls|) == match r case Success(out) => Success((out, jobs)) case Failure(e) => Failure(e)
    {
      var out: seq<Job> := [];
      tables, done := [jobs], [];
      for n := 0 to |calls|
        invariant Valid() && fresh(chain.Values - old(chain.Values))
        invariant FreshFrom(jobs, calls, n)
        invariant done == out && |out| == n
        invariant Runs(tables, done, calls) && tables[0] == old(jobs) && tables[n] == jobs
      {
        var job := EnqueueNext(calls, n, tables, done);
        if job.Failure? {
          BreakFolds(tables, done, calls, job.error, |calls|);
          return Failure(job.error), tables, done;
        }
        out := out + [job.value];
        tables, done := tables + [jobs], out;
      }
      RunFolds(tables, done, calls, |calls|);
      assert done[..|calls|] == done;
      r := Success(out);
    }

    /** Puts a backup of both structures back. */
    method Restore(backupJobs: map<JobId, Job>, backupChain: map<string, ChainIndex>, ghost ix: Index)
      requires WellFormed(backupJobs) && Indexes(ix, backupJobs)
      requires ix == map c | c in backupChain :: backupChain[c].ids
      requires forall c, d :: c in backupChain && d in backupChain && c != d ==> backupChain[c] != backupChain[d]
      modifies this
      ensures Valid() && jobs == backupJobs && chain == backupChain && Index() == ix
    {
      jobs := backupJobs;
      chain := backupChain;
      assert Index() == ix;
    }

    /** The batch is the fold of single enqueues. All or nothing: an error puts both structures back, from inner maps that
        were copied and not shared, so the failed run cannot have changed them. */
    method EnqueueBatch(calls: seq<Call>) returns (r: Result<seq<Job>, Error>, ghost tables: seq<Table>, ghost done: seq<Job>)
      requires Valid() && FreshFrom(jobs, calls, 0)
      modifies this, chain.Values
      ensures Valid() && fresh(chain.Values - old(chain.Values))
      ensures Runs(tables, done, calls) && tables[0] == old(jobs)
      ensures match r case Success(out) => out == done && |out| == |calls| && jobs == tables[|out|]
                      case Failure(e) => Breaks(tables[|done|], calls, |done|, e) && jobs == old(jobs) && Index() == old(Index())
      ensures Folded(old(jobs), calls, |calls|) == match r case Success(out) => Success((out, jobs)) case Failure(e) => Failure(e)
    {
      var backupJobs := jobs;
      var backupChain := CopyOfChain();
      ghost var ix := Index();
      assert ix == map c | c in backupChain :: backupChain[c].ids;
      r, tables, done := EnqueueAll(calls);
      if r.Failure? {
        Restore(backupJobs, backupChain, ix);
      }
    }

    /** The backup of the index: every inner map is a new object with equal contents. */
    method CopyOfChain() returns (copy: map<string, ChainIndex>)
      ensures copy.Keys == chain.Keys
      ensures forall c :: c in copy ==> fresh(copy[c]) && copy[c].ids == chain[c].ids
      ensures forall c, d :: c in copy && d in copy && c != d ==> copy[c] != copy[d]
    {
      copy := map[];
      var todo := chain.Keys;
      while todo != {}
        invariant todo <= chain.Keys && copy.Keys == chain.Keys - todo
        invariant forall c :: c in copy ==> fresh(copy[c]) && copy[c].ids == chain[c].ids
        invariant forall c, d :: c in copy && d in copy && c != d ==> copy[c] != copy[d]
        decreases |todo|
      {
        var c :| c in todo;
        var m := new ChainIndex();
        m.ids := chain[c].ids;
        copy := copy[c := m];
        todo := todo - {c};
      }
    }

    // -------------------------------------------------------------- claim

    method ChainBusy(c: string) returns (busy: bool)
      requires Valid()
      ensures busy <==> Busy(jobs, c)
    {
      var todo := jobs.Keys;
      while todo != {}
        invariant todo <= jobs.Keys
        invariant forall i :: i in jobs && jobs[i].chain == c && jobs[i].status.Processing? ==> i in todo
        decreases |todo|
      {
        var id :| id in todo;
        if jobs[id].chain == c && jobs[id].status.Processing? {
          assert RunsIn(jobs, id, c);
          return true;
        }
        todo := todo - {id};
      }
      return false;
    }

    /** The eligibility test of the candidate loop, done through the index. */
    method EligibleThroughIndex(j: Job, now: Time) returns (ok: bool)
      requires Valid()
      ensures ok <==> Eligible(jobs, j, now)
    {
      LookupIs(j.chain, j.sequence - 1);
      ok := false;
      if CanBeClaimed(j.status) && j.availableAt <= now {
        if j.sequence == 1 {
          ok := true;
        } else if j.chain in chain && j.sequence - 1 in chain[j.chain].ids {
          var predId := chain[j.chain].ids[j.sequence - 1];
          if predId in jobs {
            ok := IsFinished(jobs[predId]);
          }
        }
      }
    }

    method Candidates(now: Time) returns (cands: seq<Job>)
      requires Valid()
      ensures forall j :: j in cands ==> j.id in jobs && jobs[j.id] == j && Eligible(jobs, j, now)
      ensures forall i :: i in jobs && Eligible(jobs, jobs[i], now) ==> jobs[i] in cands
    {
      cands := [];
      var todo := jobs.Keys;
      while todo != {}
        invariant todo <= jobs.Keys
        invariant forall j :: j in cands ==> j.id in jobs && jobs[j.id] == j && Eligible(jobs, j, now)
        invariant forall i :: i in jobs && i !in todo && Eligible(jobs, jobs[i], now) ==> jobs[i] in cands
        decreases |todo|
      {
        var id :| id in todo;
        var ok := EligibleThroughIndex(jobs[id], now);
        if ok {
          cands := cands + [jobs[id]];
        }
        todo := todo - {id};
      }
    }

    /** The scan past busy chains. */
    method FirstIdle(sorted: seq<Job>) returns (n: nat)
      requires Valid()
      ensures n <= |sorted|
      ensures n < |sorted| ==> !Busy(jobs, sorted[n].chain)
      ensures forall a :: 0 <= a < n ==> Busy(jobs, sorted[a].chain)
    {
      if sorted == [] { return 0; }
      var busy := ChainBusy(sorted[0].chain);
      if !busy { return 0; }
      n := 1;
      while n < |sorted|
        invariant 1 <= n <= |sorted|
        invariant forall a :: 0 <= a < n ==> Busy(jobs, sorted[a].chain)
      {
        var conflict := ChainBusy(sorted[n].chain);
        if !conflict { return; }
        n := n + 1;
      }
    }

    /** Filter, sort, and scan past busy chains: the first idle candidate wins. */
    method Pick(now: Time) returns (pick: Option<Job>)
      requires Valid()
      ensures pick.None? <==> forall k :: !Claimable(jobs, k, now)
      ensures pick.Some? ==> pick.value.id in jobs && jobs[pick.value.id] == pick.value && Earliest(jobs, pick.value.id, now)
      ensures pick.None? <==> forall k {:trigger Effects.Ready(jobs, k, now)} :: !Effects.Ready(jobs, k, now)
      ensures pick.Some? ==> FirstReady(jobs, pick.value, now)
    {
      var cands := Candidates(now);
      var sorted := SortByAvailability(cands);
      SameMembers(cands, sorted);
      var n := FirstIdle(sorted);
      Effects.NoneReady(jobs, now);
      if n == |sorted| {
        return None;
      }
      FirstIdleIsEarliest(sorted, n, now);
      Effects.EarliestMeans(jobs, sorted[n].id, now);
      return Some(sorted[n]);
    }

    lemma FirstIdleIsEarliest(sorted: seq<Job>, n: nat, now: Time)
      requires Valid() && Sorted(sorted) && n < |sorted|
      requires forall j :: j in sorted ==> j.id in jobs && jobs[j.id] == j && Eligible(jobs, j, now)
      requires forall i :: i in jobs && Eligible(jobs, jobs[i], now) ==> jobs[i] in sorted
      requires !Busy(jobs, sorted[n].chain)
      requires forall a :: 0 <= a < n ==> Busy(jobs, sorted[a].chain)
      ensures Earliest(jobs, sorted[n].id, now)
    {
      assert sorted[n] in sorted;
      forall k | Claimable(jobs, k, now) ensures NoLater(sorted[n], jobs[k]) {
        var b :| 0 <= b < |sorted| && sorted[b] == jobs[k];
        assert b >= n;
      }
    }

    method Claim(worker: string, lease: Duration, now: Time) returns (r: Result<Job, Error>)
      requires Valid()
      modifies this`jobs
      ensures Valid()
      ensures r.Failure? <==> forall k :: !Claimable(old(jobs), k, now)
      ensures r.Failure? ==> r.error == ErrNotFound && jobs == old(jobs)
      ensures r.Success? ==> Earliest(old(jobs), r.value.id, now)
      ensures r.Success? ==> r.value == Claimed(old(jobs)[r.value.id], worker, lease, now)
      ensures r.Success? ==> jobs == old(jobs)[r.value.id := r.value]
      ensures r.Failure? <==> forall k {:trigger Effects.Ready(old(jobs), k, now)} :: !Effects.Ready(old(jobs), k, now)
      ensures r.Success? ==> FirstReady(old(jobs), old(jobs)[r.value.id], now) && ClaimOf(old(jobs)[r.value.id], r.value, worker, lease, now)
    {
      var pick := Pick(now);
      if pick.None? {
        return Failure(ErrNotFound);
      }
      Effects.ClaimedMeans(pick.value, worker, lease, now);
      var job := Claimed(pick.value, worker, lease, now);
      Put(job);
      return Success(job);
    }

    // -------------------------------------------------------------- fenced calls

    /** `r.jobs[id] = j` for a job that keeps its identity. */
    method Put(j: Job)
      requires Valid() && j.id in jobs && SameIdentity(jobs[j.id], j)
      modifies this`jobs
      ensures Valid() && jobs == old(jobs)[j.id := j]
    {
      ghost var before, ix := jobs, Index();
      jobs := jobs[j.id := j];
      IdentityKeepsWellFormed(before, jobs);
      assert Index() == ix;
      IndexFollowsIdentity(ix, before, jobs);
    }

    /** The edit that recovery and bulk replay make to a job they visit. */
    method Rewrite(id: JobId, e: Edit)
      requires Valid() && id in jobs
      modifies this`jobs
      ensures Valid() && jobs == old(jobs)[id := e.Of(old(jobs)[id])]
    {
      Put(e.Of(jobs[id]));
    }

    method PromoteNext(c: string, q: int, now: Time)
      requires Valid()
      modifies this`jobs
      ensures Valid() && jobs == Promoted(old(jobs), c, q, now)
    {
      LookupIs(c, q + 1);
      if c in chain && q + 1 in chain[c].ids {
        var next := jobs[chain[c].ids[q + 1]];
        if next.status.Blocked? {
          Put(next.(status := Pending, updatedAt := now));
        }
      }
      assert jobs == Promoted(old(jobs), c, q, now);
    }

    /** The two writes that Complete, SkipJob and BulkSkipDLQ have in common. */
    method CompleteAndPromote(id: JobId, now: Time)
      requires Valid() && id in jobs
      modifies this`jobs
      ensures Valid() && jobs == CompletedAndPromoted(old(jobs), id, now)
    {
      var j := jobs[id];
      Put(CompletedJob(j, now));
      PromoteNext(j.chain, j.sequence, now);
    }

    method Complete(id: JobId, worker: string, generation: int, now: Time) returns (err: Option<Error>)
      requires Valid()
      modifies this`jobs
      ensures Valid() && err == Fence(old(jobs), id, worker, generation)
      ensures jobs == if err.Some? then old(jobs) else CompletedAndPromoted(old(jobs), id, now)
    {
      if id !in jobs { return Some(ErrNotFound); }
      var j := jobs[id];
      if j.worker != worker || j.generation != generation { return Some(ErrLeaseConflict); }
      CompleteAndPromote(id, now);
      return None;
    }

    method Fail(id: JobId, worker: string, generation: int, msg: string, terminal: bool, now: Time) returns (err: Option<Error>)
      requires Valid()
      modifies this`jobs
      ensures Valid() && err == Fence(old(jobs), id, worker, generation)
      ensures jobs == if err.Some? then old(jobs) else old(jobs)[id := FailedJob(old(jobs)[id], msg, terminal, now)]
    {
      if id !in jobs { return Some(ErrNotFound); }
      var j := jobs[id];
      if j.worker != worker || j.generation != generation { return Some(ErrLeaseConflict); }
      j := j.(lastError := msg, updatedAt := now);
      if terminal {
        j := j.(status := if j.mode.DeadLetterAndContinue? then DeadLettered else Failed);
      } else {
        j := j.(status := Failed);
      }
      j := j.(failedAt := Some(now), leaseUntil := None);
      Put(j);
      return None;
    }

    method Retry(id: JobId, worker: string, generation: int, msg: string, next: Time, now: Time) returns (err: Option<Error>)
      requires Valid()
      modifies this`jobs
      ensures Valid() && err == Fence(old(jobs), id, worker, generation)
      ensures jobs == if err.Some? then old(jobs) else old(jobs)[id := RetriedJob(old(jobs)[id], msg, next, now)]
    {
      if id !in jobs { return Some(ErrNotFound); }
      var j := jobs[id];
      if j.worker != worker || j.generation != generation { return Some(ErrLeaseConflict); }
      Put(RetriedJob(j, msg, next, now));
      return None;
    }

    method Heartbeat(id: JobId, worker: string, generation: int, lease: Duration, now: Time) returns (err: Option<Error>)
      requires Valid()
      modifies this`jobs
      ensures Valid() && err == Fence(old(jobs), id, worker, generation)
      ensures jobs == if err.Some? then old(jobs) else old(jobs)[id := Beaten(old(jobs)[id], lease, now)]
    {
      if id !in jobs { return Some(ErrNotFound); }
      var j := jobs[id];
      if j.worker != worker || j.generation != generation { return Some(ErrLeaseConflict); }
      Put(Beaten(j, lease, now));
      return None;
    }

    method ConfirmCancel(id: JobId, worker: string, generation: int, now: Time) returns (err: Option<Error>)
      requires Valid()
      modifies this`jobs
      ensures Valid() && err == Fence(old(jobs), id, worker, generation)
      ensures jobs == if err.Some? then old(jobs) else old(jobs)[id := CancelledJob(old(jobs)[id], now)]
    {
      if id !in jobs { return Some(ErrNotFound); }
      var j := jobs[id];
      if j.worker != worker || j.generation != generation { return Some(ErrLeaseConflict); }
      Put(CancelledJob(j, now));
      return None;
    }

    // -------------------------------------------------------------- operator calls

    method RequestCancel(id: JobId, now: Time) returns (err: Option<Error>)
      requires Valid()
      modifies this`jobs
      ensures Valid() && (err == if id in old(jobs) then None else Some(ErrNotFound))
      ensures jobs == if err.Some? then old(jobs) else old(jobs)[id := CancelRequestedJob(old(jobs)[id], now)]
    {
      if id !in jobs { return Some(ErrNotFound); }
      Put(CancelRequestedJob(jobs[id], now));
      return None;
    }

    /** ReplayJob, and ReplayJobWithPayload when `payload` is not empty. */
    method ReplayJob(id: JobId, payload: string, now: Time) returns (err: Option<Error>)
      requires Valid()
      modifies this`jobs
      ensures Valid() && (err == if id in old(jobs) then None else Some(ErrNotFound))
      ensures jobs == if err.Some? then old(jobs) else Replayed(old(jobs), id, payload, now)
    {
      if id !in jobs { return Some(ErrNotFound); }
      var j := jobs[id];
      if Stopped(j.status) {
        if |payload| > 0 { j := j.(payload := payload); }
        Put(ReplayedJob(j, now));
      }
      return None;
    }

    method SkipJob(id: JobId, now: Time) returns (err: Option<Error>)
      requires Valid()
      modifies this`jobs
      ensures Valid() && (err == if id in old(jobs) then None else Some(ErrNotFound))
      ensures jobs == if err.Some? then old(jobs) else Skipped(old(jobs), id, now)
    {
      if id !in jobs { return Some(ErrNotFound); }
      var j := jobs[id];
      if Stopped(j.status) {
        CompleteAndPromote(id, now);
      }
      return None;
    }

    method RescheduleJob(id: JobId, at: Time, now: Time) returns (r: Result<Job, Error>)
      requires Valid()
      modifies this`jobs
      ensures Valid()
      ensures r.Failure? ==> jobs == old(jobs) && r.error == (if id in old(jobs) then ErrJobNotEligible else ErrNotFound)
      ensures r.Success? <==> id in old(jobs) && CanBeClaimed(old(jobs)[id].status)
      ensures r.Success? ==> r.value == RescheduledJob(old(jobs)[id], at, now) && jobs == old(jobs)[id := r.value]
    {
      if id !in jobs { return Failure(ErrNotFound); }
      if !CanBeClaimed(jobs[id].status) { return Failure(ErrJobNotEligible); }
      var j := RescheduledJob(jobs[id], at, now);
      Put(j);
      return Success(j);
    }

    // -------------------------------------------------------------- stale recovery

    method RecoverStale(limit: int, b: Backoffs, now: Time) returns (count: int, ghost chosen: set<JobId>)
      requires Valid()
      modifies this`jobs
      ensures Valid() && RecoveryPicks(old(jobs), chosen, limit, now)
      ensures count == |chosen|
      ensures jobs == Recovered(old(jobs), chosen, b, now)
      ensures var ranOut := Effects.AllRanOut(old(jobs), now);
              && chosen <= ranOut
              && count == if limit <= 0 then 0 else if limit < |ranOut| then limit else |ranOut|
      ensures jobs.Keys == old(jobs).Keys
      ensures forall i {:trigger Effects.RecoveredAt(old(jobs), jobs, chosen, b, now, i)} ::
                i in old(jobs) ==> Effects.RecoveredAt(old(jobs), jobs, chosen, b, now, i)
    {
      ghost var start := jobs;
      count, chosen := RecoverEach(limit, b, now);
      Effects.StaleMeans(start, now);
      Effects.RecoveryMeans(start, chosen, b, now);
    }

    /** The loop of a recovery: any order, and at most `limit` jobs. */
    method RecoverEach(limit: int, b: Backoffs, now: Time) returns (count: int, ghost chosen: set<JobId>)
      requires Valid()
      modifies this`jobs
      ensures Valid() && RecoveryPicks(old(jobs), chosen, limit, now)
      ensures count == |chosen|
      ensures jobs == Recovered(old(jobs), chosen, b, now)
    {
      count := 0;
      var e := Recovery(b, now);
      ghost var start, due := jobs, Stale(jobs, now);
      SweepStarts(start, due, e);
      var todo := jobs.Keys;
      while todo != {}
        invariant Valid() && todo <= jobs.Keys
        invariant Swept(start, jobs, due, todo, e)
        invariant count == |due - todo| && (count == 0 || count <= limit)
        decreases |todo|
      {
        if count >= limit { break; }
        var id :| id in todo;
        Visit(due, todo, id);
        SweepVisits(start, jobs, due, todo, e, id);
        if IsStale(jobs[id], now) {
          Rewrite(id, e);
          count := count + 1;
        }
        todo := todo - {id};
      }
      chosen := due - todo;
      EnoughVisited(due, todo, limit);
      SweepEnds(start, jobs, due, todo, e);
    }

    // -------------------------------------------------------------- bulk dead-letter edits

    method BulkReplayDLQ(filter: JobFilter, now: Time) returns (count: int)
      requires Valid()
      modifies this`jobs
      ensures Valid() && jobs == BulkReplayed(old(jobs), filter, now)
      ensures count == |Matching(old(jobs), filter)|
      ensures count == |set i | i in old(jobs) && Effects.Selected(filter, old(jobs)[i])|
      ensures jobs.Keys == old(jobs).Keys
      ensures forall i {:trigger Effects.ReplayedAt(old(jobs), jobs, filter, now, i)} ::
                i in old(jobs) ==> Effects.ReplayedAt(old(jobs), jobs, filter, now, i)
    {
      count := 0;
      var e := Edit.Replay(now);
      ghost var start, due := jobs, Matching(jobs, filter);
      SweepStarts(start, due, e);
      var todo := jobs.Keys;
      while todo != {}
        invariant Valid() && todo <= jobs.Keys
        invariant Swept(start, jobs, due, todo, e) && count == |due - todo|
        decreases |todo|
      {
        var id :| id in todo;
        Visit(due, todo, id);
        MatchingIs(start, filter, id);
        SweepVisits(start, jobs, due, todo, e, id);
        if MatchesDLQ(filter, jobs[id]) {
          Rewrite(id, e);
          count := count + 1;
        }
        todo := todo - {id};
      }
      AllVisited(due, todo);
      SweepEnds(start, jobs, due, todo, e);
      Effects.MatchingMeans(start, filter);
      Effects.BulkReplayMeans(start, filter, now);
    }

    /** The effect of the loop of BulkSkipDLQ on a job that matches. */
    method SkipMatching(id: JobId, now: Time, ghost start: Table, ghost hit: set<JobId>)
      requires Valid() && Skipping(start, jobs, hit, now) && id in start && id !in hit && InDeadLetterQueue(start[id].status)
      modifies this`jobs
      ensures Valid() && Skipping(start, jobs, hit + {id}, now)
    {
      SkipVisits(start, jobs, hit, now, id);
      CompleteAndPromote(id, now);
    }

    method BulkSkipDLQ(filter: JobFilter, now: Time) returns (count: int)
      requires Valid()
      modifies this`jobs
      ensures Valid() && jobs == BulkSkipped(old(jobs), filter, now)
      ensures count == |Matching(old(jobs), filter)|
      ensures count == |set i | i in old(jobs) && Effects.Selected(filter, old(jobs)[i])|
      ensures jobs.Keys == old(jobs).Keys
      ensures forall i {:trigger Effects.SkippedAt(old(jobs), jobs, filter, now, i)} ::
                i in old(jobs) ==> Effects.SkippedAt(old(jobs), jobs, filter, now, i)
    {
      count := 0;
      ghost var start, due := jobs, Matching(jobs, filter);
      var todo := jobs.Keys;
      SkipStarts(start, due - todo, now);
      while todo != {}
        invariant Valid() && todo <= jobs.Keys
        invariant Skipping(start, jobs, due - todo, now) && count == |due - todo|
        decreases |todo|
      {
        var id :| id in todo;
        Visit(due, todo, id);
        MatchingIs(start, filter, id);
        SkipFinds(start, jobs, due - todo, now, filter, id);
        var j := jobs[id];
        if MatchesDLQ(filter, j) {
          SkipMatching(id, now, start, due - todo);
          count := count + 1;
        }
        todo := todo - {id};
      }
      AllVisited(due, todo);
      SkipEnds(start, jobs, due, now);
      Effects.MatchingMeans(start, filter);
      Effects.BulkSkipMeans(start, filter, now);
    }

    method DropIfEmpty(c: string)
      requires Separate() && c in chain
      modifies this`chain
      ensures Separate() && chain.Values <= old(chain.Values)
      ensures Index() == if old(Index())[c] == map[] then old(Index()) - {c} else old(Index())
    {
      if |chain[c].ids| == 0 {
        chain := chain - {c};
      }
    }

    /** `delete(m, q)`, dropping the inner map once it is empty. */
    method Unlink(c: string, q: int)
      requires Separate()
      modifies this`chain, chain.Values
      ensures Separate() && chain.Values <= old(chain.Values)
      ensures Index() == Removed(old(Index()), c, q)
    {
      if c in chain {
        ghost var ix := Index();
        var m := chain[c];
        m.ids := m.ids - {q};
        assert Index() == ix[c := ix[c] - {q}];
        DropIfEmpty(c);
        assert ix[c := ix[c] - {q}] - {c} == ix - {c};
      }
    }

    method Delete(id: JobId)
      requires Valid() && id in jobs
      modifies this, chain.Values
      ensures Valid() && chain.Values <= old(chain.Values)
      ensures jobs == old(jobs) - {id}
    {
      ghost var ix := Index();
      RemoveKeepsIndex(ix, jobs, id);
      Unlink(jobs[id].chain, jobs[id].sequence);
      assert Index() == Removed(ix, jobs[id].chain, jobs[id].sequence);
      ghost var after := Index();
      jobs := jobs - {id};
      assert Index() == after;
    }

    method BulkPurgeDLQ(filter: JobFilter) returns (count: int)
      requires Valid()
      modifies this, chain.Values
      ensures Valid() && chain.Values <= old(chain.Values)
      ensures jobs == BulkPurged(old(jobs), filter)
      ensures count == |Matching(old(jobs), filter)|
      ensures count == |set i | i in old(jobs) && Effects.Selected(filter, old(jobs)[i])|
      ensures forall i :: i in old(jobs) ==> (i !in jobs <==> Effects.Selected(filter, old(jobs)[i]))
      ensures forall i :: i in jobs ==> i in old(jobs) && jobs[i] == old(jobs)[i]
    {
      count := 0;
      ghost var start, due := jobs, Matching(jobs, filter);
      PurgeStarts(start, due);
      var todo := jobs.Keys;
      while todo != {}
        invariant Valid() && chain.Values <= old(chain.Values)
        invariant todo <= start.Keys
        invariant Purging(start, jobs, due, todo) && count == |due - todo|
        decreases |todo|
      {
        var id :| id in todo;
        Visit(due, todo, id);
        MatchingIs(start, filter, id);
        PurgeVisits(start, jobs, due, todo, id);
        if MatchesDLQ(filter, jobs[id]) {
          Delete(id);
          count := count + 1;
        }
        todo := todo - {id};
      }
      AllVisited(due, todo);
      PurgeEnds(start, jobs, due);
      Effects.MatchingMeans(start, filter);
      Effects.BulkPurgeMeans(start, filter);
    }

    method CountDLQ() returns (count: int)
      requires Valid()
      ensures count == |DeadLetters(jobs)|
      ensures count == |set i | i in jobs && (jobs[i].status == Failed || jobs[i].status == DeadLettered)|
    {
      count := 0;
      ghost var m := DeadLetters(jobs);
      var todo := jobs.Keys;
      while todo != {}
        invariant todo <= jobs.Keys && count == |m - todo|
        decreases |todo|
      {
        var id :| id in todo;
        Visit(m, todo, id);
        todo := todo - {id};
        if InDeadLetterQueue(jobs[id].status) {
          count := count + 1;
        }
      }
      AllVisited(m, todo);
      Effects.DeadLettersMean(jobs);
    }
  }
}
