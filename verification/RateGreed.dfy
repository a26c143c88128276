/** The limiter refuses nothing it need not: a call passes exactly when the rate bound leaves room for it. */
module RateGreed {
  import opened Prelude
  import opened RateLimiter
  import opened RateTheorems

  // ----- answers, call by call -----

  function After(p: Policy, m: Buckets, calls: seq<Call>): Buckets
    requires p.every > 0
    decreases |calls|
  {
    if calls == [] then m
    else After(p, m[calls[0].key := Draw(p, Lookup(m, calls[0].key), calls[0].at).0], calls[1..])
  }

  lemma {:induction false} ForeverSnoc(p: Policy, m: Buckets, calls: seq<Call>, c: Call)
    requires p.every > 0
    ensures var r := Draw(p, Lookup(After(p, m, calls), c.key), c.at);
            && AnswersForever(p, m, calls + [c]) == AnswersForever(p, m, calls) + [r.1]
            && After(p, m, calls + [c]) == After(p, m, calls)[c.key := r.0]
    decreases |calls|
  {
    hide Draw;
    if calls == [] {
      assert [c][1..] == [];
    } else {
      assert (calls + [c])[1..] == calls[1..] + [c];
      ForeverSnoc(p, m[calls[0].key := Draw(p, Lookup(m, calls[0].key), calls[0].at).0], calls[1..], c);
    }
  }

  lemma {:induction false} GrantedSnoc(
    calls: seq<Call>, answers: seq<bool>, c: Call, ok: bool, key: string, t1: Time, t2: Time)
    requires |calls| == |answers|
    ensures Granted(calls + [c], answers + [ok], key, t1, t2)
         == Granted(calls, answers, key, t1, t2) + if Hit(c, ok, key, t1, t2) then 1 else 0
    decreases |calls|
  {
    hide Hit;
    if calls == [] {
      assert [c][1..] == [] && [ok][1..] == [];
    } else {
      assert (calls + [c])[1..] == calls[1..] + [c] && (answers + [ok])[1..] == answers[1..] + [ok];
      GrantedSnoc(calls[1..], answers[1..], c, ok, key, t1, t2);
    }
  }

  /** No call of the key lies after `t`. */
  predicate Until(calls: seq<Call>, key: string, t: Time) {
    forall i :: 0 <= i < |calls| && calls[i].key == key ==> calls[i].at <= t
  }

  lemma {:induction false} GrantedUntil(
    calls: seq<Call>, answers: seq<bool>, key: string, t1: Time, t: Time, t2: Time)
    requires |calls| == |answers| && Until(calls, key, t) && t <= t2
    ensures t1 <= t ==> Granted(calls, answers, key, t1, t2) == Granted(calls, answers, key, t1, t)
    ensures t < t1 ==> Granted(calls, answers, key, t1, t2) == 0
    decreases |calls|
  {
    if calls != [] {
      assert forall i :: 0 <= i < |calls[1..]| ==> calls[1..][i] == calls[i + 1];
      GrantedUntil(calls[1..], answers[1..], key, t1, t, t2);
    }
  }

  // ----- the level of a bucket -----

  function Spare(p: Policy, calls: seq<Call>, answers: seq<bool>, key: string, t1: Time, now: Time): real
    requires p.every > 0 && |calls| == |answers|
  {
    p.burst as real + Accrued(p, now - t1) - Granted(calls, answers, key, t1, now) as real
  }

  /** `level` is the least room any window up to now has left. */
  ghost predicate Levels(p: Policy, calls: seq<Call>, answers: seq<bool>, key: string, level: real, now: Time)
    requires p.every > 0 && |calls| == |answers|
  {
    && (forall t1: Time :: t1 <= now ==> level <= Spare(p, calls, answers, key, t1, now))
    && (exists t1: Time :: t1 <= now && level == Spare(p, calls, answers, key, t1, now))
  }

  function Refilled(p: Policy, tokens: real, dt: int): real
    requires p.every > 0
  {
    var sum := tokens + Accrued(p, dt);
    if sum > p.burst as real then p.burst as real else sum
  }

  lemma SpareLater(
    p: Policy, calls: seq<Call>, answers: seq<bool>, key: string, t1: Time, last: Time, now: Time)
    requires p.every > 0 && |calls| == |answers| && Until(calls, key, last) && last <= now
    ensures t1 <= last ==>
              Spare(p, calls, answers, key, t1, now) == Spare(p, calls, answers, key, t1, last) + Accrued(p, now - last)
    ensures last < t1 <= now ==> Spare(p, calls, answers, key, t1, now) == p.burst as real + Accrued(p, now - t1)
  {
    GrantedUntil(calls, answers, key, t1, last, now);
    if t1 <= last {
      AccruedAdds(p, last - t1, now - last);
    }
    hide Accrued;
  }

  /** Time raises the level, up to the burst. */
  lemma LevelRefills(
    p: Policy, calls: seq<Call>, answers: seq<bool>, key: string, tokens: real, last: Time, now: Time)
    requires p.every > 0 && |calls| == |answers| && Until(calls, key, last) && last <= now
    requires Levels(p, calls, answers, key, tokens, last)
    ensures Levels(p, calls, answers, key, Refilled(p, tokens, now - last), now)
  {
    hide Granted, Spare, Accrued;
    var level := Refilled(p, tokens, now - last);
    forall t1: Time | t1 <= now ensures level <= Spare(p, calls, answers, key, t1, now) {
      SpareLater(p, calls, answers, key, t1, last, now);
      AccruedZero(p);
      AccruedGrows(p, 0, now - t1);
    }
    if level == tokens + Accrued(p, now - last) {
      var t1: Time :| t1 <= last && tokens == Spare(p, calls, answers, key, t1, last);
      SpareLater(p, calls, answers, key, t1, last, now);
    } else {
      TopIsLater(p, calls, answers, key, tokens, last, now);
      SpareLater(p, calls, answers, key, now, last, now);
      AccruedZero(p);
    }
  }

  /** A bucket that overflows was not touched at this very moment. */
  lemma TopIsLater(
    p: Policy, calls: seq<Call>, answers: seq<bool>, key: string, tokens: real, last: Time, now: Time)
    requires p.every > 0 && |calls| == |answers| && last <= now && tokens + Accrued(p, now - last) > p.burst as real
    requires Levels(p, calls, answers, key, tokens, last)
    ensures last < now
  {
    hide Granted;
    assert tokens <= Spare(p, calls, answers, key, last, last);
    AccruedZero(p);
  }

  /** There is room for one more exactly when the level is at least one. */
  lemma LevelDecides(p: Policy, calls: seq<Call>, answers: seq<bool>, key: string, level: real, now: Time)
    requires p.every > 0 && |calls| == |answers| && Levels(p, calls, answers, key, level, now)
    ensures level >= 1.0 <==> Roomy(p, calls, answers, key, now)
  {
    hide Granted;
    var t1: Time :| t1 <= now && level == Spare(p, calls, answers, key, t1, now);
    assert Fits(p, calls, answers, key, t1, now) <==> level >= 1.0;
    forall t: Time | t <= now && level >= 1.0 ensures Fits(p, calls, answers, key, t, now) {
      assert level <= Spare(p, calls, answers, key, t, now);
    }
  }

  /** One more call now would keep the window from `t1` within the burst and what accrues. */
  predicate Fits(p: Policy, calls: seq<Call>, answers: seq<bool>, key: string, t1: Time, now: Time)
    requires p.every > 0 && |calls| == |answers|
  {
    Granted(calls, answers, key, t1, now) as real + 1.0 <= p.burst as real + (now - t1) as real / p.every as real
  }

  ghost predicate Roomy(p: Policy, calls: seq<Call>, answers: seq<bool>, key: string, now: Time)
    requires p.every > 0 && |calls| == |answers|
  {
    forall t1: Time :: t1 <= now ==> Fits(p, calls, answers, key, t1, now)
  }

  /** A call takes one from the level if it passes, and nothing if it does not. */
  lemma LevelSpends(
    p: Policy, calls: seq<Call>, answers: seq<bool>, c: Call, ok: bool, level: real)
    requires p.every > 0 && |calls| == |answers| && Levels(p, calls, answers, c.key, level, c.at)
    ensures Levels(p, calls + [c], answers + [ok], c.key, if ok then level - 1.0 else level, c.at)
  {
    hide Granted, Accrued, Levels;
    forall t1: Time | t1 <= c.at
      ensures Spare(p, calls + [c], answers + [ok], c.key, t1, c.at)
           == Spare(p, calls, answers, c.key, t1, c.at) - if ok then 1.0 else 0.0
    {
      GrantedSnoc(calls, answers, c, ok, c.key, t1, c.at);
    }
    hide Spare;
    LevelShifts(p, calls, answers, calls + [c], answers + [ok], c.key, level, if ok then 1.0 else 0.0, c.at);
  }

  lemma LevelShifts(
    p: Policy, calls: seq<Call>, answers: seq<bool>, more: seq<Call>, replies: seq<bool>,
    key: string, level: real, drop: real, now: Time)
    requires p.every > 0 && |calls| == |answers| && |more| == |replies| && Levels(p, calls, answers, key, level, now)
    requires forall t1: Time :: t1 <= now ==>
               Spare(p, more, replies, key, t1, now) == Spare(p, calls, answers, key, t1, now) - drop
    ensures Levels(p, more, replies, key, level - drop, now)
  {
    hide Spare;
    var t1: Time :| t1 <= now && level == Spare(p, calls, answers, key, t1, now);
    assert level - drop == Spare(p, more, replies, key, t1, now);
  }

  // ----- every bucket, along the calls -----

  /** A bucket holds the level of its key; a key without one has made no call. */
  ghost predicate Tracks(p: Policy, calls: seq<Call>, answers: seq<bool>, b: Option<Bucket>, key: string)
    requires p.every > 0 && |calls| == |answers|
  {
    match b
    case None => forall i :: 0 <= i < |calls| ==> calls[i].key != key
    case Some(k) => Until(calls, key, k.last) && Levels(p, calls, answers, key, k.tokens, k.last)
  }

  lemma {:induction false} NoCalls(calls: seq<Call>, answers: seq<bool>, key: string, t1: Time, t2: Time)
    requires |calls| == |answers| && forall i :: 0 <= i < |calls| ==> calls[i].key != key
    ensures Granted(calls, answers, key, t1, t2) == 0
    decreases |calls|
  {
    if calls != [] {
      NoCalls(calls[1..], answers[1..], key, t1, t2);
    }
  }

  /** What a bucket has to give at the moment of a call. */
  lemma LevelNow(p: Policy, calls: seq<Call>, answers: seq<bool>, b: Option<Bucket>, key: string, now: Time)
    requires p.every > 0 && |calls| == |answers| && Tracks(p, calls, answers, b, key)
    requires b.Some? ==> b.value.last <= now
    ensures Levels(p, calls, answers, key,
                   if b == None then p.burst as real else Refilled(p, b.value.tokens, now - b.value.last), now)
  {
    hide Granted, Accrued;
    if b == None {
      forall t1: Time | t1 <= now ensures p.burst as real <= Spare(p, calls, answers, key, t1, now) {
        NoCalls(calls, answers, key, t1, now);
        AccruedZero(p);
        AccruedGrows(p, 0, now - t1);
      }
      NoCalls(calls, answers, key, now, now);
      AccruedZero(p);
      assert p.burst as real == Spare(p, calls, answers, key, now, now);
    } else {
      LevelRefills(p, calls, answers, key, b.value.tokens, b.value.last, now);
    }
  }

  /** The bucket's answer is the bound's, and the bucket goes on tracking its key. */
  lemma DrawTracks(p: Policy, calls: seq<Call>, answers: seq<bool>, b: Option<Bucket>, c: Call)
    requires p.every > 0 && p.burst >= 1 && |calls| == |answers| && Tracks(p, calls, answers, b, c.key)
    requires (b.Some? ==> b.value.last <= c.at) && Until(calls, c.key, c.at)
    ensures var r := Draw(p, b, c.at);
            && (r.1 <==> Roomy(p, calls, answers, c.key, c.at))
            && r.0.last == c.at && Tracks(p, calls + [c], answers + [r.1], Some(r.0), c.key)
  {
    hide Levels, Roomy, Accrued;
    var level := if b == None then p.burst as real else Refilled(p, b.value.tokens, c.at - b.value.last);
    LevelNow(p, calls, answers, b, c.key, c.at);
    LevelDecides(p, calls, answers, c.key, level, c.at);
    LevelSpends(p, calls, answers, c, level >= 1.0, level);
  }

  lemma OtherTracks(p: Policy, calls: seq<Call>, answers: seq<bool>, b: Option<Bucket>, key: string, c: Call, ok: bool)
    requires p.every > 0 && |calls| == |answers| && Tracks(p, calls, answers, b, key) && c.key != key
    ensures Tracks(p, calls + [c], answers + [ok], b, key)
  {
    hide Levels, Granted, Accrued;
    if b.Some? {
      var now := b.value.last;
      forall t1: Time | t1 <= now
        ensures Spare(p, calls + [c], answers + [ok], key, t1, now) == Spare(p, calls, answers, key, t1, now) - 0.0
      {
        GrantedSnoc(calls, answers, c, ok, key, t1, now);
      }
      LevelShifts(p, calls, answers, calls + [c], answers + [ok], key, b.value.tokens, 0.0, now);
    }
  }

  ghost predicate AllTracked(p: Policy, calls: seq<Call>, now: Time)
    requires p.every > 0
  {
    var m, answers := After(p, map[], calls), AnswersForever(p, map[], calls);
    && (forall key :: Tracks(p, calls, answers, Lookup(m, key), key))
    && (forall key :: key in m ==> m[key].last <= now)
    && (forall i :: 0 <= i < |calls| ==> calls[i].at <= now)
  }

  lemma TrackedCall(p: Policy, calls: seq<Call>, now: Time, c: Call)
    requires p.every > 0 && p.burst >= 1 && AllTracked(p, calls, now) && now <= c.at
    ensures AllTracked(p, calls + [c], c.at)
    ensures var r := Draw(p, Lookup(After(p, map[], calls), c.key), c.at);
            r.1 <==> Roomy(p, calls, AnswersForever(p, map[], calls), c.key, c.at)
  {
    hide Draw, Tracks, Roomy, After, AnswersForever;
    var m, answers := After(p, map[], calls), AnswersForever(p, map[], calls);
    var r := Draw(p, Lookup(m, c.key), c.at);
    ForeverSnoc(p, map[], calls, c);
    DrawTracks(p, calls, answers, Lookup(m, c.key), c);
    var m' := m[c.key := r.0];
    forall key ensures Tracks(p, calls + [c], answers + [r.1], Lookup(m', key), key) {
      if key != c.key {
        OtherTracks(p, calls, answers, Lookup(m, key), key, c, r.1);
      }
    }
  }

  lemma {:induction false} PrefixTracked(p: Policy, start: Time, calls: seq<Call>, i: nat)
    requires p.every > 0 && p.burst >= 1 && Ordered(start, calls) && i <= |calls|
    ensures AllTracked(p, calls[..i], if i == 0 then start else calls[i - 1].at)
    decreases i
  {
    hide Tracks, Draw;
    if i == 0 {
      assert calls[..0] == [];
      assert forall key :: Tracks(p, [], [], None, key) by { NothingTracked(p); }
    } else {
      PrefixTracked(p, start, calls, i - 1);
      assert calls[..i] == calls[..i - 1] + [calls[i - 1]];
      hide AllTracked;
      TrackedCall(p, calls[..i - 1], if i == 1 then start else calls[i - 2].at, calls[i - 1]);
    }
  }

  lemma NothingTracked(p: Policy)
    requires p.every > 0
    ensures forall key :: Tracks(p, [], [], None, key)
  {
  }

  lemma {:induction false} PrefixAnswers(p: Policy, m: Buckets, calls: seq<Call>, i: nat)
    requires p.every > 0 && i <= |calls|
    ensures AnswersForever(p, m, calls)[..i] == AnswersForever(p, m, calls[..i])
    decreases |calls| - i
  {
    if i == |calls| {
      assert calls[..i] == calls;
    } else {
      PrefixAnswers(p, m, calls, i + 1);
      assert calls[..i + 1] == calls[..i] + [calls[i]];
      hide Draw;
      ForeverSnoc(p, m, calls[..i], calls[i]);
      assert AnswersForever(p, m, calls)[..i] == AnswersForever(p, m, calls)[..i + 1][..i];
    }
  }

  /**
    * The whole limiter: each call passes exactly when, for every window that ends with
    * it, the calls passed before leave room for it within the burst and what accrues.
    */
  lemma GrantsExactly(p: Policy, start: Time, calls: seq<Call>, i: nat)
    requires p.every > 0 && 1 <= p.burst && p.burst * p.every <= 600_000_000_000
    requires Ordered(start, calls) && i < |calls|
    ensures var answers := Answers(p, Limiter(map[], start), calls);
            && |answers| == |calls|
            && (answers[i] <==> Roomy(p, calls[..i], answers[..i], calls[i].key, calls[i].at))
  {
    GoodPolicies(p);
    assert AnswersAlike(p, start, calls);
    hide RateBounded, EvictionInvisible, Answers, Draw;
    var answers, c := AnswersForever(p, map[], calls), calls[i];
    PrefixTracked(p, start, calls, i);
    TrackedCall(p, calls[..i], if i == 0 then start else calls[i - 1].at, c);
    PrefixAnswers(p, map[], calls, i);
    PrefixAnswers(p, map[], calls, i + 1);
    ForeverSnoc(p, map[], calls[..i], c);
    assert calls[..i + 1] == calls[..i] + [c];
    assert answers[i] == answers[..i + 1][i];
  }

  /** Refusals cost nothing: once a full interval has passed since the last call let through, the next one passes. */
  lemma IntervalSuffices(p: Policy, start: Time, calls: seq<Call>, i: nat, g: Time)
    requires p.every > 0 && 1 <= p.burst && p.burst * p.every <= 600_000_000_000
    requires Ordered(start, calls) && i < |calls| && g + p.every <= calls[i].at
    requires |Answers(p, Limiter(map[], start), calls)| == |calls|
    requires forall j :: 0 <= j < i && calls[j].key == calls[i].key && calls[j].at > g ==>
               !Answers(p, Limiter(map[], start), calls)[j]
    ensures Answers(p, Limiter(map[], start), calls)[i]
  {
    GoodPolicies(p);
    GrantsExactly(p, start, calls, i);
    var answers, key, now := Answers(p, Limiter(map[], start), calls), calls[i].key, calls[i].at;
    hide Answers, EvictionInvisible, Roomy;
    forall t1: Time | t1 <= now ensures Fits(p, calls[..i], answers[..i], key, t1, now) {
      QuietSince(calls[..i], answers[..i], key, t1, g, now);
      if t1 <= g {
        assert WithinRate(p, start, calls, key, t1, g);
        PrefixGranted(calls, answers, key, t1, g, i);
      }
      IntervalAccrues(p, t1, g, now);
      hide Accrued, Granted;
    }
    RoomyFrom(p, calls[..i], answers[..i], key, now);
  }

  lemma RoomyFrom(p: Policy, calls: seq<Call>, answers: seq<bool>, key: string, now: Time)
    requires p.every > 0 && |calls| == |answers|
    requires forall t1: Time :: t1 <= now ==> Fits(p, calls, answers, key, t1, now)
    ensures Roomy(p, calls, answers, key, now)
  {
  }

  lemma IntervalAccrues(p: Policy, t1: Time, g: Time, now: Time)
    requires p.every > 0 && g + p.every <= now && t1 <= now
    ensures (now - t1) as real / p.every as real == Accrued(p, now - t1) >= 0.0
    ensures t1 <= g ==> Accrued(p, g - t1) + 1.0 <= Accrued(p, now - t1)
  {
    AccruedZero(p);
    AccruedGrows(p, 0, now - t1);
    AccruedAdds(p, g - t1, now - g);
    AccruedGrows(p, p.every, now - g);
    OverItself(p.every as real);
  }

  lemma OverItself(x: real)
    requires x > 0.0
    ensures x / x == 1.0
  {
    var q := x / x;
    assert q * x == x;
    assert (q - 1.0) * x == 0.0;
  }

  /** Nothing passed after `g`, so a window counts only up to it. */
  lemma {:induction false} QuietSince(
    calls: seq<Call>, answers: seq<bool>, key: string, t1: Time, g: Time, now: Time)
    requires |calls| == |answers| && g <= now
    requires forall j :: 0 <= j < |calls| && calls[j].key == key && calls[j].at > g ==> !answers[j]
    ensures Granted(calls, answers, key, t1, now) == if t1 <= g then Granted(calls, answers, key, t1, g) else 0
    decreases |calls|
  {
    if calls != [] {
      assert forall j :: 0 <= j < |calls[1..]| ==> calls[1..][j] == calls[j + 1] && answers[1..][j] == answers[j + 1];
      QuietSince(calls[1..], answers[1..], key, t1, g, now);
    }
  }

  lemma {:induction false} PrefixGranted(
    calls: seq<Call>, answers: seq<bool>, key: string, t1: Time, t2: Time, i: nat)
    requires |calls| == |answers| && i <= |calls|
    ensures Granted(calls[..i], answers[..i], key, t1, t2) <= Granted(calls, answers, key, t1, t2)
    decreases |calls|
  {
    if i > 0 {
      assert calls[..i][1..] == calls[1..][..i - 1] && answers[..i][1..] == answers[1..][..i - 1];
      PrefixGranted(calls[1..], answers[1..], key, t1, t2, i - 1);
    }
  }
}
