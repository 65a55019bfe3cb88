/** What a batch of enqueues amounts to (EnqueueBatch in repository/memory/repository.go). */
module Batches {
  import opened Wrappers
  import opened Lifecycle
  import opened Jobs
  import opened Queue
  import opened Protocol

  /** Requests for the next free position of chain `c`, none an idempotency hit. */
  ghost predicate Automatic(jobs: Table, calls: seq<Call>, c: string) {
    && c != ""
    && forall k :: 0 <= k < |calls| ==>
         && calls[k].req.chain == c && calls[k].req.sequence == 0
         && NoHit(jobs, calls, k)
  }

  ghost predicate NoHit(jobs: Table, calls: seq<Call>, k: nat)
    requires k < |calls|
  {
    var key := calls[k].req.idempotencyKey;
    key != "" ==> !HasKey(jobs, key) && forall l :: 0 <= l < k ==> calls[l].req.idempotencyKey != key
  }

  /** Every key in use after `k` calls was there before or came with one of them. */
  ghost predicate KeyKnown(start: Table, jobs: Table, calls: seq<Call>, k: nat, i: JobId)
    requires i in jobs && k <= |calls|
  {
    (i in start && jobs[i] == start[i]) || exists l :: 0 <= l < k && calls[l].req.idempotencyKey == jobs[i].idempotencyKey
  }

  ghost predicate KeysKnown(start: Table, jobs: Table, calls: seq<Call>, k: nat)
    requires k <= |calls|
  {
    forall i {:trigger KeyKnown(start, jobs, calls, k, i)} :: i in jobs ==> KeyKnown(start, jobs, calls, k, i)
  }

  /** The state a batch of automatic requests is in after `k` of them. */
  ghost predicate Midway(start: Table, jobs: Table, calls: seq<Call>, c: string, k: nat) {
    && k <= |calls|
    && WellFormed(jobs) && FreshFrom(jobs, calls, k) && KeysKnown(start, jobs, calls, k)
    && MaxSeq(jobs, c) == MaxSeq(start, c) + k
  }

  lemma InsertedIsMax(jobs: Table, j: Job)
    requires j.id !in jobs && j.sequence == MaxSeq(jobs, j.chain) + 1
    ensures MaxSeq(jobs[j.id := j], j.chain) == j.sequence
  {
    var after := jobs[j.id := j];
    AtMostMax(jobs, j.chain);
    assert j.id in after && after[j.id].chain == j.chain && after[j.id].sequence == j.sequence;
    assert HasJobAt(after, j.chain, j.sequence);
    MaxSeqIs(after, j.chain, j.sequence);
  }

  lemma NoHitNow(start: Table, jobs: Table, calls: seq<Call>, c: string, k: nat)
    requires Automatic(start, calls, c) && k < |calls| && Midway(start, jobs, calls, c, k)
    ensures calls[k].req.idempotencyKey != "" ==> !HasKey(jobs, calls[k].req.idempotencyKey)
  {
    var key := calls[k].req.idempotencyKey;
    assert NoHit(start, calls, k);
    if key != "" && HasKey(jobs, key) {
      var i :| CarriesKey(jobs, i, key);
      assert KeyKnown(start, jobs, calls, k, i);
      assert i in start ==> CarriesKey(start, i, start[i].idempotencyKey);
    }
  }

  /** One more automatic request: it succeeds and takes the next position. */
  lemma AutomaticStep(start: Table, jobs: Table, calls: seq<Call>, c: string, k: nat)
    requires Automatic(start, calls, c) && k < |calls| && Midway(start, jobs, calls, c, k)
    ensures var r := EnqueueResult(jobs, calls[k].req, calls[k].id, calls[k].now);
            && r.Success? && r.value.id == calls[k].id && r.value.chain == c
            && r.value.sequence == MaxSeq(start, c) + k + 1
    ensures Midway(start, Enqueued(jobs, calls[k].req, calls[k].id, calls[k].now), calls, c, k + 1)
  {
    var call := calls[k];
    assert DrawsFresh(jobs, calls, k);
    NoHitNow(start, jobs, calls, c, k);
    var n := EnqueueResult(jobs, call.req, call.id, call.now).value;
    var after := Enqueued(jobs, call.req, call.id, call.now);
    assert after == jobs[n.id := n];
    EnqueueAdds(jobs, call.req, call.id, call.now);
    InsertedIsMax(jobs, n);
    FreshAfter(jobs, after, calls, k);
    forall i | i in after ensures KeyKnown(start, after, calls, k + 1, i) {
      if i in jobs { assert KeyKnown(start, jobs, calls, k, i); }
    }
  }

  lemma {:induction false} AutomaticPrefix(tables: seq<Table>, out: seq<Job>, calls: seq<Call>, c: string, k: nat)
    requires Runs(tables, out, calls) && k <= |out|
    requires WellFormed(tables[0]) && FreshFrom(tables[0], calls, 0) && Automatic(tables[0], calls, c)
    ensures Midway(tables[0], tables[k], calls, c, k)
    ensures forall l :: 0 <= l < k ==> out[l].id == calls[l].id && out[l].chain == c && out[l].sequence == MaxSeq(tables[0], c) + l + 1
  {
    if k == 0 {
      forall i | i in tables[0] ensures KeyKnown(tables[0], tables[0], calls, 0, i) {}
    } else {
      AutomaticPrefix(tables, out, calls, c, k - 1);
      assert CallAt(tables, out, calls, k - 1);
      AutomaticStep(tables[0], tables[k - 1], calls, c, k - 1);
    }
  }

  /** A batch of k automatic requests to one chain never breaks, and its jobs get the
      positions max+1, ..., max+k in request order. */
  lemma AutomaticBatch(tables: seq<Table>, out: seq<Job>, calls: seq<Call>, c: string)
    requires Runs(tables, out, calls)
    requires WellFormed(tables[0]) && FreshFrom(tables[0], calls, 0) && Automatic(tables[0], calls, c)
    ensures forall e :: !Breaks(tables[|out|], calls, |out|, e)
    ensures forall l :: 0 <= l < |out| ==> out[l].chain == c && out[l].sequence == MaxSeq(tables[0], c) + l + 1
    ensures MaxSeq(tables[|out|], c) == MaxSeq(tables[0], c) + |out|
  {
    AutomaticPrefix(tables, out, calls, c, |out|);
    if |out| < |calls| { AutomaticStep(tables[0], tables[|out|], calls, c, |out|); }
  }

  /** An idempotent repeat changes nothing and returns the job that already exists. */
  lemma RepeatIsIdempotent(jobs: Table, req: EnqueueRequest, id: JobId, now: Time, again: EnqueueRequest, id2: JobId, now2: Time)
    requires WellFormed(jobs) && id !in jobs && EnqueueResult(jobs, req, id, now).Success?
    requires req.idempotencyKey != "" && again.idempotencyKey == req.idempotencyKey && again.chain != ""
    ensures var after := Enqueued(jobs, req, id, now);
            && Enqueued(after, again, id2, now2) == after
            && EnqueueResult(after, again, id2, now2) == EnqueueResult(jobs, req, id, now)
  {
    var j := EnqueueResult(jobs, req, id, now).value;
    var after := Enqueued(jobs, req, id, now);
    EnqueueAdds(jobs, req, id, now);
    assert CarriesKey(after, j.id, req.idempotencyKey) && AloneWithKey(after, j.id);
  }

  /** The ids of a batch are fresh, and its clock readings do not run backwards. */
  ghost predicate Drawn(s: System, calls: seq<Call>) {
    && (forall k :: 0 <= k < |calls| ==> calls[k].id !in s.used)
    && (forall k, l :: 0 <= k < l < |calls| ==> calls[k].id != calls[l].id)
    && (forall k :: 0 <= k < |calls| ==> calls[k].now >= if k == 0 then s.now else calls[k - 1].now)
  }

  /** A batch that succeeds is a stretch of the protocol, one enqueue step after another,
      so every theorem about runs covers batches as well. */
  lemma {:induction false} BatchIsSegment(cfg: Config, s: System, tables: seq<Table>, out: seq<Job>, calls: seq<Call>, n: nat)
    returns (states: seq<System>, events: seq<Event>)
    requires Runs(tables, out, calls) && tables[0] == s.jobs && Drawn(s, calls) && n <= |out|
    ensures Segment(cfg, states, events) && states[0] == s
    ensures forall m :: 0 <= m < |events| ==> events[m].Enqueue? || events[m].Tick?
    ensures states[|events|].jobs == tables[n]
    ensures states[|events|].now == if n == 0 then s.now else calls[n - 1].now
    ensures forall k :: n <= k < |calls| ==> calls[k].id !in states[|events|].used
  {
    if n == 0 {
      states, events := [s], [];
    } else {
      states, events := BatchIsSegment(cfg, s, tables, out, calls, n - 1);
      var c := calls[n - 1];
      assert CallAt(tables, out, calls, n - 1);
      assert c.now >= if n == 1 then s.now else calls[n - 2].now;
      states, events := Extend(cfg, states, events, Tick(c.now - states[|events|].now));
      states, events := Extend(cfg, states, events, Event.Enqueue(c.req, c.id));
    }
  }
}
