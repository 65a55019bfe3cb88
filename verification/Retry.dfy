/** Retry policy (retry/policy.go). Floating point is taken over reals; the random
    draw in [0, 1) is a parameter. */
module Retry {

  type Duration = int

  datatype Jitter = NoJitter | FullJitter | EqualJitter | OtherJitter(mode: int)

  datatype Policy = Policy(maxAttempts: int, baseDelay: Duration, maxDelay: Duration, jitter: Jitter)

  function DefaultPolicy(): Policy {
    Policy(5, 1_000_000_000, 300_000_000_000, EqualJitter)
  }

  function Pow2(n: nat): (p: nat)
    ensures p >= n + 1
  {
    if n == 0 then 1 else 2 * Pow2(n - 1)
  }

  /** Conversion to an integer type cuts off towards zero. */
  function Truncate(r: real): int {
    if r >= 0.0 then r.Floor else -((-r).Floor)
  }

  /** Integer division by two cuts off towards zero. */
  function Half(d: Duration): Duration {
    if d >= 0 then d / 2 else -((-d) / 2)
  }

  /** The drawn share of a delay. */
  function Share(draw: real, d: Duration): Duration {
    Truncate(draw * d as real)
  }

  function ApplyJitter(d: Duration, mode: Jitter, draw: real): Duration {
    match mode
    case FullJitter => Share(draw, d)
    case EqualJitter => Half(d) + Share(draw, Half(d))
    case _ => d
  }

  /** The delay before jitter. */
  function Delay(p: Policy, attempt: int): Duration {
    var n := if attempt <= 0 then 1 else attempt;
    var backoff := p.baseDelay * Pow2(n - 1);
    if backoff > p.maxDelay then p.maxDelay else backoff
  }

  function Backoff(p: Policy, attempt: int, draw: real): Duration {
    ApplyJitter(Delay(p, attempt), p.jitter, draw)
  }

  /** The retry decision; its second half, max_attempts of the job, is the engine's. */
  predicate ShouldRetry(p: Policy, attempt: int) {
    attempt < p.maxAttempts
  }

  /** The delay starts at the base and doubles with each attempt, up to the cap. */
  lemma DelayDoubles(p: Policy, attempt: int)
    requires p.baseDelay >= 0 && p.maxDelay >= 0
    ensures attempt <= 1 ==> Delay(p, attempt) == if p.baseDelay > p.maxDelay then p.maxDelay else p.baseDelay
    ensures attempt >= 1 ==>
              Delay(p, attempt + 1) == if 2 * Delay(p, attempt) > p.maxDelay then p.maxDelay else 2 * Delay(p, attempt)
  {
    if attempt >= 1 {
      assert Pow2(attempt) == 2 * Pow2(attempt - 1);
      assert p.baseDelay * Pow2(attempt) == 2 * (p.baseDelay * Pow2(attempt - 1));
    }
  }

  /** Later attempts never wait less, and none waits longer than the cap. */
  lemma {:induction false} DelayMonotone(p: Policy, a: int, b: int)
    requires p.baseDelay >= 0 && p.maxDelay >= 0 && a <= b
    ensures 0 <= Delay(p, a) <= Delay(p, b) <= p.maxDelay
    decreases b - a
  {
    if a == b {
      assert p.baseDelay * Pow2((if a <= 0 then 1 else a) - 1) >= 0;
    } else {
      DelayMonotone(p, a, b - 1);
      DelayDoubles(p, b - 1);
    }
  }

  lemma {:induction false} ProductAtLeast(b: int, x: nat)
    requires b >= 1
    ensures b * x >= x
    decreases b
  {
    if b > 1 {
      ProductAtLeast(b - 1, x);
      assert b * x == (b - 1) * x + x;
    }
  }

  /** With a positive base the cap is reached. */
  lemma DelaySaturates(p: Policy, attempt: int)
    requires p.baseDelay > 0 && 0 <= p.maxDelay <= attempt
    ensures Delay(p, attempt) == p.maxDelay
  {
    ProductAtLeast(p.baseDelay, Pow2(if attempt <= 0 then 0 else attempt - 1));
  }

  lemma ScaledDown(draw: real, x: real)
    requires 0.0 <= draw < 1.0 && x >= 0.0
    ensures 0.0 <= draw * x <= x
    ensures x > 0.0 ==> draw * x < x
  {
    assert x - draw * x == (1.0 - draw) * x;
  }

  lemma TruncateBetween(r: real, d: int)
    requires 0.0 <= r <= d as real
    ensures 0 <= Truncate(r) <= d
    ensures r < d as real ==> Truncate(r) < d
    ensures Truncate(r) as real <= r < (Truncate(r) + 1) as real
    ensures Truncate(-r) == -Truncate(r)
  {
  }

  lemma ShareBounds(draw: real, d: int)
    requires 0.0 <= draw < 1.0 && d >= 0
    ensures 0 <= Share(draw, d) <= d
    ensures d > 0 ==> Share(draw, d) < d
  {
    var x := d as real;
    ScaledDown(draw, x);
    TruncateBetween(draw * x, d);
  }

  lemma ShareFloors(draw: real, d: int)
    requires 0.0 <= draw < 1.0 && d >= 0
    ensures Share(draw, d) as real <= draw * d as real < (Share(draw, d) + 1) as real
  {
    var x := d as real;
    ScaledDown(draw, x);
    TruncateBetween(draw * x, d);
  }

  lemma NegativeProduct(a: real, x: real)
    ensures a * (-x) == -(a * x)
  {
  }

  lemma ShareMirrors(draw: real, d: int)
    requires 0.0 <= draw < 1.0 && d >= 0
    ensures Share(draw, -d) == -Share(draw, d)
  {
    var x := d as real;
    ScaledDown(draw, x);
    NegativeProduct(draw, x);
    assert (-d) as real == -x;
    TruncateBetween(draw * x, d);
  }

  /** Equal jitter is half of the delay and the share of the other half. */
  lemma EqualIs(d: Duration, h: Duration, draw: real)
    requires h == Half(d)
    ensures ApplyJitter(d, EqualJitter, draw) == h + Share(draw, h)
  {
  }

  lemma JitterBounds(d: Duration, mode: Jitter, draw: real)
    requires d >= 0 && 0.0 <= draw < 1.0
    ensures 0 <= ApplyJitter(d, mode, draw) <= d
    ensures mode.EqualJitter? ==> d / 2 <= ApplyJitter(d, mode, draw)
    ensures mode.FullJitter? && d > 0 ==> ApplyJitter(d, mode, draw) < d
  {
    match mode
    case FullJitter => ShareBounds(draw, d);
    case EqualJitter =>
      EqualIs(d, d / 2, draw);
      ShareBounds(draw, d / 2);
    case _ =>
  }

  /** The draw decides the delay: full jitter takes that share of it, to the whole unit. */
  lemma FullSpreads(d: Duration, draw: real)
    requires d >= 0 && 0.0 <= draw < 1.0
    ensures var delay := ApplyJitter(d, FullJitter, draw);
            delay as real <= draw * d as real < (delay + 1) as real
  {
    ShareFloors(draw, d);
  }

  /** Equal jitter takes half of it and that share of the other half. */
  lemma EqualSpreads(d: Duration, h: Duration, draw: real)
    requires d >= 0 && h == d / 2 && 0.0 <= draw < 1.0
    ensures var rest := ApplyJitter(d, EqualJitter, draw) - h;
            rest as real <= draw * h as real < (rest + 1) as real
  {
    EqualIs(d, h, draw);
    ShareFloors(draw, h);
  }

  lemma NoSpread(d: Duration, mode: Jitter, draw: real)
    requires mode != FullJitter && mode != EqualJitter
    ensures ApplyJitter(d, mode, draw) == d
  {
  }

  /** Negative delays, which a policy with a negative base has, mirror the positive ones. */
  lemma JitterMirrors(d: Duration, mode: Jitter, draw: real)
    requires d >= 0 && 0.0 <= draw < 1.0
    ensures ApplyJitter(-d, mode, draw) == -ApplyJitter(d, mode, draw)
  {
    match mode
    case FullJitter => ShareMirrors(draw, d);
    case EqualJitter =>
      EqualIs(d, d / 2, draw);
      EqualIs(-d, -(d / 2), draw);
      ShareMirrors(draw, d / 2);
    case _ =>
  }

  /** Five attempts by default: the first retry comes after half a second to one second, and
      no retry takes longer than five minutes or, from the tenth attempt on, less than half of them. */
  lemma DefaultBackoffs(attempt: int, draw: real)
    requires 0.0 <= draw < 1.0
    ensures forall n :: ShouldRetry(DefaultPolicy(), n) <==> n < 5
    ensures 500_000_000 <= Backoff(DefaultPolicy(), 1, draw) <= 1_000_000_000
    ensures 500_000_000 <= Backoff(DefaultPolicy(), attempt, draw) <= 300_000_000_000
    ensures attempt >= 10 ==> 150_000_000_000 <= Backoff(DefaultPolicy(), attempt, draw)
  {
    var p := DefaultPolicy();
    BackoffBounds(p, 1, draw);
    BackoffBounds(p, attempt, draw);
    DelayMonotone(p, if attempt < 1 then attempt else 1, if attempt < 1 then 1 else attempt);
    DelayDoubles(p, attempt);
    TenthDelay();
    if attempt >= 10 { DelayMonotone(p, 10, attempt); }
  }

  lemma TenthDelay()
    ensures Delay(DefaultPolicy(), 10) == 300_000_000_000
  {
    var p := DefaultPolicy();
    DelayDoubles(p, 1);
    DelayDoubles(p, 2);
    DelayDoubles(p, 3);
    DelayDoubles(p, 4);
    DelayDoubles(p, 5);
    DelayDoubles(p, 6);
    DelayDoubles(p, 7);
    DelayDoubles(p, 8);
    DelayDoubles(p, 9);
  }

  /** Full jitter stays in [0, d], equal jitter in [d/2, d] rounded down, for the
      un-jittered delay d; so no backoff ever exceeds the cap. */
  lemma BackoffBounds(p: Policy, attempt: int, draw: real)
    requires p.baseDelay >= 0 && p.maxDelay >= 0 && 0.0 <= draw < 1.0
    ensures 0 <= Backoff(p, attempt, draw) <= Delay(p, attempt) <= p.maxDelay
    ensures p.jitter.EqualJitter? ==> Delay(p, attempt) / 2 <= Backoff(p, attempt, draw)
    ensures p.jitter.FullJitter? && Delay(p, attempt) > 0 ==> Backoff(p, attempt, draw) < Delay(p, attempt)
  {
    DelayMonotone(p, attempt, attempt);
    JitterBounds(Delay(p, attempt), p.jitter, draw);
  }
}
