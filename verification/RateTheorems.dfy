/** Exactly which policies keep the limiter's promises. */
module RateTheorems {
  import opened Prelude
  import opened RateLimiter

  /** In every window, at most the burst plus what accrues in it. */
  ghost predicate RateBounded(p: Policy)
    requires p.every > 0
  {
    forall start: Time, calls: seq<Call>, key: string, t1: Time, t2: Time ::
      Ordered(start, calls) && t1 <= t2 ==> WithinRate(p, start, calls, key, t1, t2)
  }

  predicate WithinRate(p: Policy, start: Time, calls: seq<Call>, key: string, t1: Time, t2: Time)
    requires p.every > 0
  {
    var answers := Answers(p, Limiter(map[], start), calls);
    |answers| == |calls| && Granted(calls, answers, key, t1, t2) as real <= p.burst as real + Accrued(p, t2 - t1)
  }

  /** Forgetting idle buckets is never noticed. */
  ghost predicate EvictionInvisible(p: Policy)
    requires p.every > 0
  {
    forall start: Time, calls: seq<Call> :: Ordered(start, calls) ==> AnswersAlike(p, start, calls)
  }

  predicate AnswersAlike(p: Policy, start: Time, calls: seq<Call>)
    requires p.every > 0
  {
    Answers(p, Limiter(map[], start), calls) == AnswersForever(p, map[], calls)
  }

  // ----- policies that keep them -----

  lemma GoodPolicies(p: Policy)
    requires p.every > 0 && RefillsBeforeEviction(p)
    ensures RateBounded(p) && EvictionInvisible(p)
  {
    forall start: Time, calls: seq<Call> | Ordered(start, calls) ensures AnswersAlike(p, start, calls) {
      EvictionUnseen(p, Limiter(map[], start), map[], start, calls);
    }
    forall start: Time, calls: seq<Call>, key: string, t1: Time, t2: Time | Ordered(start, calls) && t1 <= t2
      ensures WithinRate(p, start, calls, key, t1, t2)
    {
      assert AnswersAlike(p, start, calls);
      ForeverUsesRoom(p, map[], start, calls, key, t1, t2);
    }
  }

  // ----- policies that do not -----

  function Volley(t: Time, n: nat): (calls: seq<Call>)
    ensures |calls| == n && forall i :: 0 <= i < n ==> calls[i] == Call("", t)
  {
    if n == 0 then [] else [Call("", t)] + Volley(t, n - 1)
  }

  function Trues(n: nat): (a: seq<bool>)
    ensures |a| == n && forall i :: 0 <= i < n ==> a[i]
  {
    if n == 0 then [] else [true] + Trues(n - 1)
  }

  lemma {:induction false} AllGranted(calls: seq<Call>, t1: Time, t2: Time)
    requires forall i :: 0 <= i < |calls| ==> calls[i].key == "" && t1 <= calls[i].at <= t2
    ensures Granted(calls, Trues(|calls|), "", t1, t2) == |calls|
  {
    if calls != [] {
      assert Trues(|calls|)[1..] == Trues(|calls| - 1);
      AllGranted(calls[1..], t1, t2);
    }
  }

  lemma AnswersCons(p: Policy, l: Limiter, c: Call, rest: seq<Call>)
    requires p.every > 0
    ensures var r := Allow(p, l, c.key, c.at);
            Answers(p, l, [c] + rest) == [r.1] + Answers(p, r.0, rest)
  {
    hide Allow;
    assert ([c] + rest)[1..] == rest;
  }

  lemma VolleyCons(t: Time, n: nat, rest: seq<Call>, answers: seq<bool>)
    requires n >= 1
    ensures Volley(t, n) + rest == [Call("", t)] + (Volley(t, n - 1) + rest)
    ensures Trues(n) + answers == [true] + (Trues(n - 1) + answers)
  {
  }

  /** A bucket holding n tokens lets n simultaneous calls through and is then empty. */
  lemma {:induction false} VolleyDrains(p: Policy, l: Limiter, t: Time, n: nat, rest: seq<Call>)
    requires p.every > 0 && n <= p.burst && t - l.lastSweep < SWEEP_INTERVAL
    requires Lookup(l.m, "") == Some(Bucket(n as real, t))
    ensures Answers(p, l, Volley(t, n) + rest)
         == Trues(n) + Answers(p, l.(m := l.m["" := Bucket(0.0, t)]), rest)
    decreases n
  {
    var end := l.(m := l.m["" := Bucket(0.0, t)]);
    if n == 0 {
      assert Volley(t, 0) + rest == rest && end.m == l.m;
      assert Trues(0) + Answers(p, end, rest) == Answers(p, end, rest);
    } else {
      AccruedZero(p);
      var l' := l.(m := l.m["" := Bucket((n - 1) as real, t)]);
      assert Allow(p, l, "", t) == (l', true);
      hide Accrued, Allow, Answers, Trues, Volley;
      AnswersCons(p, l, Call("", t), Volley(t, n - 1) + rest);
      VolleyDrains(p, l', t, n - 1, rest);
      assert l'.m["" := Bucket(0.0, t)] == end.m;
      VolleyCons(t, n, rest, Answers(p, end, rest));
    }
  }

  /** An unknown key gets a full volley through. */
  lemma FreshVolley(p: Policy, l: Limiter, t: Time, n: nat, rest: seq<Call>)
    requires p.every > 0 && n == p.burst && n >= 1
    requires Lookup(Sweep(l, t).m, "") == None && t - Sweep(l, t).lastSweep < SWEEP_INTERVAL
    ensures Answers(p, l, Volley(t, n) + rest)
         == Trues(n) + Answers(p, Sweep(l, t).(m := Sweep(l, t).m["" := Bucket(0.0, t)]), rest)
  {
    var s := Sweep(l, t);
    var l', end := s.(m := s.m["" := Bucket((n - 1) as real, t)]), s.(m := s.m["" := Bucket(0.0, t)]);
    assert Allow(p, l, "", t) == (l', true);
    hide Accrued, Allow, Answers, Trues, Volley, Sweep;
    AnswersCons(p, l, Call("", t), Volley(t, n - 1) + rest);
    VolleyDrains(p, l', t, n - 1, rest);
    assert l'.m["" := Bucket(0.0, t)] == end.m;
    VolleyCons(t, n, rest, Answers(p, end, rest));
  }

  function TwoVolleys(n: nat): seq<Call> { Volley(0, n) + Volley(IDLE_TTL, n) }

  /** Exhaust the burst, wait for the eviction, and the whole burst is there again. */
  lemma TwoVolleysPass(p: Policy, n: nat)
    requires p.every > 0 && n == p.burst && n >= 1
    ensures Answers(p, Limiter(map[], 0), TwoVolleys(n)) == Trues(2 * n)
    ensures Ordered(0, TwoVolleys(n)) && Granted(TwoVolleys(n), Trues(2 * n), "", 0, IDLE_TTL) == 2 * n
  {
    hide Draw, Allow, Accrued;
    FreshVolley(p, Limiter(map[], 0), 0, n, Volley(IDLE_TTL, n));
    var l := Limiter(map["" := Bucket(0.0, 0)], 0);
    var none: Buckets := map[];
    assert none["" := Bucket(0.0, 0)] == l.m;
    assert Sweep(l, IDLE_TTL) == Limiter(map[], IDLE_TTL);
    assert Volley(IDLE_TTL, n) + [] == Volley(IDLE_TTL, n);
    FreshVolley(p, l, IDLE_TTL, n, []);
    assert Trues(n) + (Trues(n) + []) == Trues(2 * n);
    AllGranted(TwoVolleys(n), 0, IDLE_TTL);
  }

  lemma SlowPolicies(p: Policy)
    requires p.every > 0 && p.burst >= 1 && p.burst * p.every > IDLE_TTL
    ensures !RateBounded(p) && !EvictionInvisible(p)
  {
    var n: nat := p.burst;
    TwoVolleysPass(p, n);
    IdleRefills(p);
    assert !WithinRate(p, 0, TwoVolleys(n), "", 0, IDLE_TTL);
    ForeverUsesRoom(p, map[], 0, TwoVolleys(n), "", 0, IDLE_TTL);
    assert !AnswersAlike(p, 0, TwoVolleys(n));
  }

  /** With no burst the first call of a key still passes, and passes again once forgotten. */
  lemma EmptyPolicies(p: Policy)
    requires p.every > 0 && p.burst < 1
    ensures !RateBounded(p) && !EvictionInvisible(p)
  {
    var first, again := Call("", 0), Call("", IDLE_TTL);
    var l := Limiter(map[], 0);
    var one := Answers(p, l, [first]);
    assert [first][1..] == [] && Allow(p, l, "", 0).1 && Answers(p, Allow(p, l, "", 0).0, []) == [];
    assert one == [true];
    assert Granted([first], one, "", 0, 0) == 1;
    AccruedZero(p);
    assert Ordered(0, [first]) && !WithinRate(p, 0, [first], "", 0, 0);

    var calls := [first, again];
    var b := Bucket(p.burst as real - 1.0, 0);
    assert calls[1..] == [again] && [again][1..] == [];
    assert Allow(p, l, "", 0) == (Limiter(map["" := b], 0), true);
    assert Sweep(Limiter(map["" := b], 0), IDLE_TTL).m == map[];
    assert Answers(p, Limiter(map["" := b], 0), [again])[0];
    assert Answers(p, l, calls)[1];
    assert !AnswersForever(p, map["" := b], [again])[0];
    var none: Buckets := map[];
    assert none["" := b] == map["" := b];
    assert !AnswersForever(p, map[], calls)[1];
    assert Ordered(0, calls) && !AnswersAlike(p, 0, calls);
  }

  /** The rate bound holds of every call sequence exactly for these policies. */
  lemma RateBoundExactly(p: Policy)
    requires p.every > 0
    ensures RateBounded(p) <==> 1 <= p.burst && p.burst * p.every <= 600_000_000_000
  {
    if RefillsBeforeEviction(p) {
      GoodPolicies(p);
    } else if p.burst < 1 {
      EmptyPolicies(p);
    } else {
      SlowPolicies(p);
    }
  }

  /** And so does indistinguishability from the limiter that never evicts. */
  lemma EvictionInvisibleExactly(p: Policy)
    requires p.every > 0
    ensures EvictionInvisible(p) <==> 1 <= p.burst && p.burst * p.every <= 600_000_000_000
  {
    if RefillsBeforeEviction(p) {
      GoodPolicies(p);
    } else if p.burst < 1 {
      EmptyPolicies(p);
    } else {
      SlowPolicies(p);
    }
  }

  /** The server's defaults: one call per 100 ms, forty at once. */
  lemma DefaultsAreGood()
    ensures RateBounded(Policy(100_000_000, 40)) && EvictionInvisible(Policy(100_000_000, 40))
  {
    GoodPolicies(Policy(100_000_000, 40));
  }
}
