/** Bounded exponential restart delays with jitter. Floats are modelled as reals. */
module Backoff {
  const SECOND: int := 1_000_000_000

  datatype Policy = Policy(base: int, max: int, factor: real, jitter: real) {
    function Base(): (r: int) ensures r > 0 { if base <= 0 then SECOND else base }
    function Factor(): (r: real) ensures r > 1.0 { if factor <= 1.0 then 2.0 else factor }
    function Max(): (r: int) ensures r > 0 { if max <= 0 then 30 * SECOND else max }
  }

  function Pow(f: real, n: nat): real { if n == 0 then 1.0 else f * Pow(f, n - 1) }

  /** The delay before jitter: exponential growth up to the ceiling. */
  function Ideal(p: Policy, attempt: nat): real {
    var raw := p.Base() as real * Pow(p.Factor(), attempt);
    if raw > p.Max() as real then p.Max() as real else raw
  }

  predicate Unit(r: real) { 0.0 <= r < 1.0 }

  function Jittered(p: Policy, delay: real, rnd: real): real {
    if p.jitter <= 0.0 then delay
    else
      var frac := if p.jitter > 1.0 then 1.0 else p.jitter;
      var sum := delay + Spread(rnd, frac, delay);
      if sum < 0.0 then 0.0 else sum
  }

  /** Symmetric around zero, within the fraction of the delay. */
  function Spread(rnd: real, frac: real, delay: real): real { (rnd * 2.0 - 1.0) * frac * delay }

  /** The delay the counter value `attempt` produces. */
  function Delay(p: Policy, attempt: nat, rnd: real): int {
    var d := Jittered(p, Ideal(p, attempt), rnd).Floor;
    if d > p.Max() then p.Max() else d
  }

  class Counter {
    const policy: Policy
    var attempt: nat

    constructor (policy: Policy)
      ensures this.policy == policy && attempt == 0
    {
      this.policy, attempt := policy, 0;
    }

    /** `rnd` is the random source's answer, in [0, 1). */
    method Next(rnd: real) returns (d: int)
      requires Unit(rnd)
      modifies `attempt
      ensures d == Delay(policy, old(attempt), rnd) && 0 <= d <= policy.Max()
      ensures attempt == old(attempt) + 1
    {
      DelayBounded(policy, attempt, rnd);
      hide Spread, Pow;
      var exp := Pow(policy.Factor(), attempt);
      attempt := attempt + 1;
      var delay := policy.Base() as real * exp;
      if delay > policy.Max() as real {
        delay := policy.Max() as real;
      }
      assert delay == Ideal(policy, old(attempt));
      hide Ideal;
      delay := Jitter(delay, rnd);
      hide Jittered;
      d := delay.Floor;
      if d > policy.Max() {
        d := policy.Max();
      }
    }

    method Jitter(ideal: real, rnd: real) returns (delay: real)
      ensures delay == Jittered(policy, ideal, rnd)
    {
      hide Spread;
      delay := ideal;
      if policy.jitter > 0.0 {
        var frac := policy.jitter;
        if frac > 1.0 {
          frac := 1.0;
        }
        delay := delay + Spread(rnd, frac, delay);
        if delay < 0.0 {
          delay := 0.0;
        }
      }
    }

    method Reset()
      modifies `attempt
      ensures attempt == 0
    {
      attempt := 0;
    }
  }

  lemma {:induction false} PowAtLeastOne(f: real, n: nat)
    requires f > 1.0
    ensures Pow(f, n) >= 1.0
  {
    if n > 0 {
      PowAtLeastOne(f, n - 1);
      assert f * Pow(f, n - 1) >= 1.0 * Pow(f, n - 1);
    }
  }

  lemma IdealPositive(p: Policy, attempt: nat)
    ensures 0.0 < Ideal(p, attempt) <= p.Max() as real
  {
    PowAtLeastOne(p.Factor(), attempt);
    assert p.Base() as real * Pow(p.Factor(), attempt) >= p.Base() as real * 1.0;
  }

  /** Whatever the configuration and the dice, a delay lies between zero and the ceiling. */
  lemma DelayBounded(p: Policy, attempt: nat, rnd: real)
    requires Unit(rnd)
    ensures 0 <= Delay(p, attempt, rnd) <= p.Max()
  {
    IdealPositive(p, attempt);
    hide Spread, Ideal;
    var j := Jittered(p, Ideal(p, attempt), rnd);
    assert j >= 0.0;
    assert j.Floor >= 0;
  }

  /** Without jitter the first delay is the base, capped. */
  lemma DelayStarts(p: Policy, rnd: real)
    requires p.jitter <= 0.0
    ensures Delay(p, 0, rnd) == if p.Base() > p.Max() then p.Max() else p.Base()
  {
    assert Pow(p.Factor(), 0) == 1.0;
    assert p.Base() as real * 1.0 == p.Base() as real;
  }

  lemma SpreadWithin(rnd: real, frac: real, delay: real)
    requires Unit(rnd) && 0.0 <= frac && 0.0 <= delay
    ensures -(frac * delay) <= Spread(rnd, frac, delay) <= frac * delay
  {
    var k := rnd * 2.0 - 1.0;
    assert Spread(rnd, frac, delay) == k * (frac * delay);
    ScaledWithin(k, frac * delay);
  }

  lemma ScaledWithin(k: real, w: real)
    requires -1.0 <= k <= 1.0 && 0.0 <= w
    ensures -w <= k * w <= w
  {
    assert (1.0 - k) * w >= 0.0 && (1.0 + k) * w >= 0.0;
    assert (1.0 - k) * w == w - k * w && (1.0 + k) * w == w + k * w;
  }

  /** Jitter moves a delay by at most its fraction. */
  lemma JitterWithinFraction(p: Policy, delay: real, rnd: real)
    requires Unit(rnd) && 0.0 < p.jitter <= 1.0 && 0.0 <= delay
    ensures delay - p.jitter * delay <= Jittered(p, delay, rnd) <= delay + p.jitter * delay
  {
    SpreadWithin(rnd, p.jitter, delay);
    hide Spread;
    assert p.jitter * delay <= 1.0 * delay;
  }

  lemma {:induction false} PowGrows(f: real, m: nat, n: nat)
    requires f > 1.0 && m <= n
    ensures Pow(f, m) <= Pow(f, n)
    decreases n
  {
    if m < n {
      PowGrows(f, m, n - 1);
      PowAtLeastOne(f, n - 1);
      assert f * Pow(f, n - 1) >= 1.0 * Pow(f, n - 1);
    }
  }

  /** Without jitter the delays never shrink as failures pile up. */
  lemma DelayGrows(p: Policy, m: nat, n: nat, r: real, r': real)
    requires p.jitter <= 0.0 && m <= n
    ensures Delay(p, m, r) <= Delay(p, n, r')
  {
    PowGrows(p.Factor(), m, n);
    assert p.Base() as real * Pow(p.Factor(), m) <= p.Base() as real * Pow(p.Factor(), n);
    assert Ideal(p, m) <= Ideal(p, n);
    assert Ideal(p, m).Floor <= Ideal(p, n).Floor;
  }

  function Grown(base: int, factor: real, n: nat): real { base as real * Pow(factor, n) }

  /** A delay moved by a random share of its jitter fraction: none at one half, all of it at the ends. */
  function Scaled(delay: real, jitter: real, rnd: real): real { delay * (1.0 + jitter * (2.0 * rnd - 1.0)) }

  /** The delay in full, for a policy whose settings are in range: exponential, capped, spread, cut to whole units. */
  lemma DelayIs(p: Policy, attempt: nat, rnd: real)
    requires p.base > 0 && p.max > 0 && p.factor > 1.0 && 0.0 <= p.jitter <= 1.0 && 0.0 <= rnd < 1.0
    ensures var grown, cap := Grown(p.base, p.factor, attempt), p.max as real;
            var spread := Scaled(if grown > cap then cap else grown, p.jitter, rnd).Floor;
            Delay(p, attempt, rnd) == if spread > p.max then p.max else spread
  {
    IdealPositive(p, attempt);
    var ideal := Ideal(p, attempt);
    assert ideal == if Grown(p.base, p.factor, attempt) > p.max as real then p.max as real
                    else Grown(p.base, p.factor, attempt);
    hide Ideal, Grown, Scaled, Spread;
    JitteredIs(p, ideal, rnd);
    hide Jittered;
  }

  lemma JitteredIs(p: Policy, delay: real, rnd: real)
    requires 0.0 <= p.jitter <= 1.0 && 0.0 <= rnd < 1.0 && 0.0 <= delay
    ensures Jittered(p, delay, rnd) == Scaled(delay, p.jitter, rnd)
  {
    SpreadIs(rnd, p.jitter, delay);
    if p.jitter > 0.0 {
      hide Spread, Scaled;
      SpreadWithin(rnd, p.jitter, delay);
      ScaledWithin(p.jitter, delay);
    } else {
      assert 0.0 * (2.0 * rnd - 1.0) == 0.0 && delay * 1.0 == delay;
    }
  }

  lemma SpreadIs(rnd: real, frac: real, delay: real)
    ensures delay + Spread(rnd, frac, delay) == Scaled(delay, frac, rnd)
  {
    var k := 2.0 * rnd - 1.0;
    assert k * frac * delay == delay * (frac * k);
  }

  /** Settings out of range fall back: one second, doubling, half a minute, at most the whole delay of jitter. */
  lemma DefaultsApply(p: Policy, attempt: nat, rnd: real)
    ensures p.base <= 0 ==> Delay(p, attempt, rnd) == Delay(p.(base := 1_000_000_000), attempt, rnd)
    ensures p.factor <= 1.0 ==> Delay(p, attempt, rnd) == Delay(p.(factor := 2.0), attempt, rnd)
    ensures p.max <= 0 ==> Delay(p, attempt, rnd) == Delay(p.(max := 30_000_000_000), attempt, rnd)
    ensures p.jitter <= 0.0 ==> Delay(p, attempt, rnd) == Delay(p.(jitter := 0.0), attempt, rnd)
    ensures p.jitter >= 1.0 ==> Delay(p, attempt, rnd) == Delay(p.(jitter := 1.0), attempt, rnd)
  {
    SameSettings(p, p.(base := 1_000_000_000), attempt, rnd);
    SameSettings(p, p.(factor := 2.0), attempt, rnd);
    SameSettings(p, p.(max := 30_000_000_000), attempt, rnd);
    SameSettings(p, p.(jitter := 0.0), attempt, rnd);
    SameSettings(p, p.(jitter := 1.0), attempt, rnd);
    hide Delay;
  }

  lemma SameSettings(p: Policy, q: Policy, attempt: nat, rnd: real)
    ensures && p.Base() == q.Base() && p.Factor() == q.Factor() && p.Max() == q.Max()
            && (p.jitter == q.jitter || (p.jitter <= 0.0 && q.jitter <= 0.0) || (p.jitter >= 1.0 && q.jitter >= 1.0))
            ==> Delay(p, attempt, rnd) == Delay(q, attempt, rnd)
  {
    hide Pow, Spread;
    if p.Base() == q.Base() && p.Factor() == q.Factor() && p.Max() == q.Max() {
      assert Ideal(p, attempt) == Ideal(q, attempt);
      hide Ideal;
    }
  }
}
