/** The per-key token bucket limiter and its idle eviction. */
module RateLimiter {
  import opened Prelude

  const SWEEP_INTERVAL: int := 60_000_000_000
  const IDLE_TTL: int := 600_000_000_000

  datatype Policy = Policy(every: int, burst: int)

  datatype Bucket = Bucket(tokens: real, last: Time)

  function Accrued(p: Policy, dt: int): real
    requires p.every > 0
  {
    dt as real / p.every as real
  }

  lemma AccruedAdds(p: Policy, a: int, b: int)
    requires p.every > 0
    ensures Accrued(p, a + b) == Accrued(p, a) + Accrued(p, b)
  {
  }

  lemma AccruedGrows(p: Policy, a: int, b: int)
    requires p.every > 0 && a <= b
    ensures Accrued(p, a) <= Accrued(p, b)
  {
  }

  lemma AccruedZero(p: Policy)
    requires p.every > 0
    ensures Accrued(p, 0) == 0.0
  {
  }

  /** An idle bucket refills within the eviction age exactly when the policy is fast enough. */
  lemma IdleRefills(p: Policy)
    requires p.every > 0
    ensures p.burst * p.every <= IDLE_TTL <==> p.burst as real <= Accrued(p, IDLE_TTL)
  {
    var q := Accrued(p, IDLE_TTL);
    assert q * p.every as real == IDLE_TTL as real;
    assert (p.burst * p.every) as real == p.burst as real * p.every as real;
  }

  /** One call against one bucket: its next state and the answer. */
  function Draw(p: Policy, b: Option<Bucket>, now: Time): (Bucket, bool)
    requires p.every > 0
  {
    if b == None then (Bucket(p.burst as real - 1.0, now), true)
    else
      var sum := b.value.tokens + Accrued(p, now - b.value.last);
      var t := if sum > p.burst as real then p.burst as real else sum;
      if t < 1.0 then (Bucket(t, now), false) else (Bucket(t - 1.0, now), true)
  }

  type Buckets = map<string, Bucket>

  function Lookup(m: Buckets, key: string): Option<Bucket> { if key in m then Some(m[key]) else None }

  datatype Limiter = Limiter(m: Buckets, lastSweep: Time)

  function Fresh(m: Buckets, now: Time): Buckets { map k | k in m && now - m[k].last < IDLE_TTL :: m[k] }

  function Sweep(l: Limiter, now: Time): Limiter {
    if now - l.lastSweep < SWEEP_INTERVAL then l else Limiter(Fresh(l.m, now), now)
  }

  function Allow(p: Policy, l: Limiter, key: string, now: Time): (Limiter, bool)
    requires p.every > 0
  {
    var l := Sweep(l, now);
    var r := Draw(p, Lookup(l.m, key), now);
    (l.(m := l.m[key := r.0]), r.1)
  }

  class Store {
    var m: Buckets
    const every: int
    const burst: int
    var lastSweep: Time

    function Rule(): Policy { Policy(every, burst) }
    function Now(): Limiter reads this { Limiter(m, lastSweep) }

    constructor (every: int, burst: int, now: Time)
      ensures Rule() == Policy(every, burst) && Now() == Limiter(map[], now)
    {
      this.every, this.burst := every, burst;
      m, lastSweep := map[], now;
    }

    method SweepIdle(now: Time)
      modifies this
      ensures Now() == Sweep(old(Now()), now)
    {
      if now - lastSweep < SWEEP_INTERVAL {
        return;
      }
      lastSweep := now;
      var keys := m.Keys;
      while keys != {}
        invariant lastSweep == now && keys <= m.Keys <= old(m).Keys
        invariant forall k :: k in m ==> m[k] == old(m)[k]
        invariant forall k :: k in old(m) && k !in keys ==> (k in m <==> now - old(m)[k].last < IDLE_TTL)
        decreases |keys|
      {
        var k :| k in keys;
        if now - m[k].last >= IDLE_TTL {
          m := m - {k};
        }
        keys := keys - {k};
      }
    }

    method AllowCall(key: string, now: Time) returns (ok: bool)
      requires every > 0
      modifies this
      ensures (Now(), ok) == Allow(Rule(), old(Now()), key, now)
    {
      SweepIdle(now);
      if key !in m {
        m := m[key := Bucket(burst as real - 1.0, now)];
        return true;
      }
      var b := m[key];
      var elapsed := now - b.last;
      var tokens := b.tokens + elapsed as real / every as real;
      if tokens > burst as real {
        tokens := burst as real;
      }
      if tokens < 1.0 {
        m := m[key := Bucket(tokens, now)];
        return false;
      }
      m := m[key := Bucket(tokens - 1.0, now)];
      return true;
    }
  }

  // ----- call sequences -----

  datatype Call = Call(key: string, at: Time)

  /** The clock never runs back from one call to the next. */
  ghost predicate Ordered(start: Time, calls: seq<Call>) {
    && (forall i :: 0 <= i < |calls| ==> start <= calls[i].at)
    && (forall i, j :: 0 <= i < j < |calls| ==> calls[i].at <= calls[j].at)
  }

  function Answers(p: Policy, l: Limiter, calls: seq<Call>): seq<bool>
    requires p.every > 0
    decreases |calls|
  {
    if calls == [] then []
    else
      var r := Allow(p, l, calls[0].key, calls[0].at);
      [r.1] + Answers(p, r.0, calls[1..])
  }

  /** The limiter that never forgets a bucket. */
  function AnswersForever(p: Policy, m: Buckets, calls: seq<Call>): (a: seq<bool>)
    requires p.every > 0
    ensures |a| == |calls|
    decreases |calls|
  {
    if calls == [] then []
    else
      var r := Draw(p, Lookup(m, calls[0].key), calls[0].at);
      [r.1] + AnswersForever(p, m[calls[0].key := r.0], calls[1..])
  }

  predicate Hit(c: Call, ok: bool, key: string, t1: Time, t2: Time) { ok && c.key == key && t1 <= c.at <= t2 }

  /** Calls of one key let through within a window. */
  function Granted(calls: seq<Call>, answers: seq<bool>, key: string, t1: Time, t2: Time): nat
    requires |calls| == |answers|
  {
    if calls == [] then 0
    else (if Hit(calls[0], answers[0], key, t1, t2) then 1 else 0) + Granted(calls[1..], answers[1..], key, t1, t2)
  }

  lemma OrderedTail(start: Time, calls: seq<Call>)
    requires Ordered(start, calls) && calls != []
    ensures start <= calls[0].at && Ordered(calls[0].at, calls[1..])
  {
    assert forall i :: 0 <= i < |calls[1..]| ==> calls[1..][i] == calls[i + 1];
  }

  // ----- the bound, without eviction -----

  /** How many more calls a bucket can let through up to `t2`, counting from `t1`. */
  function Room(p: Policy, b: Option<Bucket>, t1: Time, t2: Time): real
    requires p.every > 0
  {
    if b == None || b.value.last < t1 then p.burst as real + Accrued(p, t2 - t1)
    else if b.value.last <= t2 then b.value.tokens + Accrued(p, t2 - b.value.last)
    else 0.0
  }

  predicate Sound(b: Option<Bucket>) { b == None || b.value.tokens >= 0.0 }

  lemma DrawUsesRoom(p: Policy, b: Option<Bucket>, c: Call, key: string, t1: Time, t2: Time)
    requires p.every > 0 && p.burst >= 1 && t1 <= t2 && c.key == key
    requires Sound(b) && (b == None || b.value.last <= c.at)
    ensures var r := Draw(p, b, c.at);
            && r.0.last == c.at && Sound(Some(r.0))
            && (if Hit(c, r.1, key, t1, t2) then 1.0 else 0.0) + Room(p, Some(r.0), t1, t2) <= Room(p, b, t1, t2)
  {
    AccruedZero(p);
    AccruedGrows(p, 0, t2 - t1);
    if b.Some? {
      AccruedGrows(p, 0, c.at - b.value.last);
    }
    if t1 <= c.at <= t2 {
      AccruedGrows(p, t2 - c.at, t2 - t1);
      if b.Some? && t1 <= b.value.last {
        AccruedAdds(p, c.at - b.value.last, t2 - c.at);
      }
    } else if b.Some? && b.value.last <= t2 {
      AccruedGrows(p, 0, t2 - b.value.last);
    }
    hide Accrued;
  }

  ghost predicate SoundMap(m: Buckets, now: Time) { forall k :: k in m ==> m[k].tokens >= 0.0 && m[k].last <= now }

  lemma {:induction false} ForeverUsesRoom(
    p: Policy, m: Buckets, start: Time, calls: seq<Call>, key: string, t1: Time, t2: Time)
    requires p.every > 0 && p.burst >= 1 && t1 <= t2 && Ordered(start, calls) && SoundMap(m, start)
    ensures Granted(calls, AnswersForever(p, m, calls), key, t1, t2) as real <= Room(p, Lookup(m, key), t1, t2)
    decreases |calls|
  {
    RoomNonNegative(p, Lookup(m, key), t1, t2);
    if calls != [] {
      var c := calls[0];
      OrderedTail(start, calls);
      var r := Draw(p, Lookup(m, c.key), c.at);
      DrawUsesRoom(p, Lookup(m, c.key), c, c.key, t1, t2);
      hide Draw, Room, Ordered;
      ForeverUsesRoom(p, m[c.key := r.0], c.at, calls[1..], key, t1, t2);
    }
  }

  lemma RoomNonNegative(p: Policy, b: Option<Bucket>, t1: Time, t2: Time)
    requires p.every > 0 && p.burst >= 1 && t1 <= t2 && Sound(b)
    ensures Room(p, b, t1, t2) >= 0.0
  {
    AccruedZero(p);
    AccruedGrows(p, 0, t2 - t1);
    if b.Some? && b.value.last <= t2 {
      AccruedGrows(p, 0, t2 - b.value.last);
    }
    hide Accrued;
  }

  // ----- eviction -----

  /** The condition both guarantees turn on. */
  predicate RefillsBeforeEviction(p: Policy) { 1 <= p.burst && p.burst * p.every <= IDLE_TTL }

  /** The evicting map has forgotten only buckets that would be full by now. */
  ghost predicate Forgot(p: Policy, few: Buckets, all: Buckets, now: Time)
    requires p.every > 0
  {
    && SoundMap(all, now)
    && (forall k :: k in few ==> k in all && few[k] == all[k])
    && (forall k :: k in all && k !in few ==> all[k].tokens + Accrued(p, now - all[k].last) >= p.burst as real)
  }

  lemma ForgotLater(p: Policy, few: Buckets, all: Buckets, now: Time, later: Time)
    requires p.every > 0 && Forgot(p, few, all, now) && now <= later
    ensures Forgot(p, few, all, later)
  {
    forall k | k in all && k !in few ensures all[k].tokens + Accrued(p, later - all[k].last) >= p.burst as real {
      AccruedGrows(p, now - all[k].last, later - all[k].last);
    }
  }

  lemma ForgotSweeps(p: Policy, few: Buckets, all: Buckets, now: Time)
    requires p.every > 0 && RefillsBeforeEviction(p) && Forgot(p, few, all, now)
    ensures Forgot(p, Fresh(few, now), all, now)
  {
    IdleRefills(p);
    forall k | k in few && k !in Fresh(few, now)
      ensures all[k].tokens + Accrued(p, now - all[k].last) >= p.burst as real
    {
      AccruedGrows(p, IDLE_TTL, now - all[k].last);
    }
    hide Accrued;
  }

  /** On a forgotten bucket both limiters answer alike and agree again afterwards. */
  lemma ForgotDraws(p: Policy, few: Buckets, all: Buckets, now: Time, key: string)
    requires p.every > 0 && p.burst >= 1 && Forgot(p, few, all, now)
    ensures var a, b := Draw(p, Lookup(few, key), now), Draw(p, Lookup(all, key), now);
            a == b && Forgot(p, few[key := a.0], all[key := b.0], now)
  {
    if key in all {
      AccruedZero(p);
      AccruedGrows(p, 0, now - all[key].last);
    }
    hide Accrued;
  }

  lemma {:induction false} EvictionUnseen(p: Policy, l: Limiter, all: Buckets, start: Time, calls: seq<Call>)
    requires p.every > 0 && RefillsBeforeEviction(p) && Ordered(start, calls) && Forgot(p, l.m, all, start)
    ensures Answers(p, l, calls) == AnswersForever(p, all, calls)
    decreases |calls|
  {
    if calls != [] {
      var c := calls[0];
      OrderedTail(start, calls);
      ForgotLater(p, l.m, all, start, c.at);
      ForgotSweeps(p, l.m, all, c.at);
      var l' := Sweep(l, c.at);
      ForgotDraws(p, l'.m, all, c.at, c.key);
      hide Draw, Forgot, Ordered, RefillsBeforeEviction;
      var r := Allow(p, l, c.key, c.at);
      EvictionUnseen(p, r.0, all[c.key := Draw(p, Lookup(all, c.key), c.at).0], c.at, calls[1..]);
    }
  }

  /** A sweep comes at most once a minute and drops exactly the buckets untouched for ten. */
  lemma SweepExactly(l: Limiter, now: Time, key: string)
    ensures var due, t := now - l.lastSweep >= 60_000_000_000, Sweep(l, now);
            && t.lastSweep == (if due then now else l.lastSweep)
            && (key in t.m <==> key in l.m && (due ==> now - l.m[key].last < 600_000_000_000))
            && (key in t.m ==> t.m[key] == l.m[key])
  {
  }
}
