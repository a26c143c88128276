/** The tunnel supervisor: restart with backoff, degrade on flapping, leave no token behind. */
module Supervisor {
  import Backoff

  datatype State = Idle | Starting | Ready | Degraded | Stopped

  /** How one attempt went; `upFor` is how long it stayed ready. */
  datatype Attempt = NoToken | NoStart | Died | Ran(upFor: int) | Interrupted(ready: bool)

  /** One turn of the loop: the stop checks around the attempt, and the jitter drawn. */
  datatype Turn = Turn(stopAtHead: bool, attempt: Attempt, stopAtEnd: bool, rnd: real)

  datatype Config = Config(maxConsecutive: int, stabilityWindow: int, tokenCommand: bool)

  predicate Stops(t: Turn) { t.stopAtHead || t.attempt.Interrupted? || t.stopAtEnd }

  predicate Stable(cfg: Config, a: Attempt) { a.Ran? && a.upFor >= cfg.stabilityWindow }

  /** Exits counted in the first `n` turns since, and including, the last attempt that stayed ready long enough. */
  ghost function Streak(cfg: Config, turns: seq<Turn>, n: nat): (k: nat)
    requires n <= |turns|
    ensures n > 0 ==> k > 0
  {
    if n == 0 then 0
    else if Stable(cfg, turns[n - 1].attempt) then 1
    else Streak(cfg, turns, n - 1) + 1
  }

  predicate Plausible(cfg: Config, t: Turn) { (t.attempt == NoToken ==> cfg.tokenCommand) && Backoff.Unit(t.rnd) }

  predicate Capped(cfg: Config, n: nat) { cfg.maxConsecutive > 0 && n >= cfg.maxConsecutive }

  class Tunnel {
    const cfg: Config
    const backoff: Backoff.Counter
    var state: State
    var consecutive: nat
    var made: nat
    var tokens: set<nat>
    var delays: seq<int>

    /** What every loop head sees. */
    ghost predicate Tidy()
      reads this, backoff
    {
      && backoff.attempt == consecutive && tokens == {}
      && forall i :: 0 <= i < |delays| ==> 0 <= delays[i] <= backoff.policy.Max()
    }

    constructor (cfg: Config, policy: Backoff.Policy)
      ensures this.cfg == cfg && backoff.policy == policy && fresh(backoff)
      ensures Tidy() && state == Idle && consecutive == 0 && delays == []
    {
      this.cfg := cfg;
      backoff := new Backoff.Counter(policy);
      state, consecutive, made, tokens, delays := Idle, 0, 0, {}, [];
    }

    /** A token command leaves a temporary file; other strategies leave nothing. */
    method PrepareToken()
      modifies `made, `tokens
      ensures tokens == if cfg.tokenCommand then old(tokens) + {old(made)} else old(tokens)
      ensures made == old(made) + (if cfg.tokenCommand then 1 else 0)
    {
      if cfg.tokenCommand {
        tokens := tokens + {made};
        made := made + 1;
      }
    }

    /** Removes this attempt's file; safe to call again. */
    method Cleanup(token: nat)
      modifies `tokens
      ensures tokens == old(tokens) - {token}
    {
      tokens := tokens - {token};
    }

    /** Waits out a started attempt. Only a run that outlasts the window forgives past failures. */
    method WaitAttempt(a: Attempt, token: nat) returns (stopped: bool)
      requires a.Died? || a.Ran? || a.Interrupted?
      requires backoff.attempt == consecutive
      modifies this, backoff`attempt
      ensures stopped == a.Interrupted?
      ensures tokens == old(tokens) - {token} && made == old(made) && delays == old(delays)
      ensures consecutive == (if Stable(cfg, a) then 0 else old(consecutive)) == backoff.attempt
      ensures state == if a.Ran? || (a.Interrupted? && a.ready) then Ready else old(state)
    {
      if a.Ran? || (a.Interrupted? && a.ready) {
        Cleanup(token);
        state := Ready;
      }
      if a.Interrupted? {
        Cleanup(token);
        return true;
      }
      if a.Ran? {
        if a.upFor >= cfg.stabilityWindow {
          backoff.Reset();
          consecutive := 0;
        }
      } else {
        Cleanup(token);
      }
      return false;
    }

    /** Counts an exit; gives up at the cap, otherwise backs off. */
    method AfterFailure(stop: bool, rnd: real) returns (done: bool)
      requires Tidy() && Backoff.Unit(rnd)
      modifies this, backoff`attempt
      ensures tokens == {} && made == old(made)
      ensures done <==> stop || Capped(cfg, old(consecutive) + 1)
      ensures stop ==> state == Stopped && consecutive == old(consecutive)
      ensures !stop ==> consecutive == old(consecutive) + 1 && state == if done then Degraded else Starting
      ensures !done ==> Tidy()
      ensures delays == if done then old(delays)
                        else old(delays) + [Backoff.Delay(backoff.policy, old(consecutive), rnd)]
    {
      if stop {
        state := Stopped;
        return true;
      }
      consecutive := consecutive + 1;
      if cfg.maxConsecutive > 0 && consecutive >= cfg.maxConsecutive {
        state := Degraded;
        return true;
      }
      state := Starting;
      var d := backoff.Next(rnd);
      delays := delays + [d];
      return false;
    }

    /** One turn of the loop. */
    method TakeTurn(t: Turn) returns (done: bool)
      requires Tidy() && Plausible(cfg, t)
      modifies this, backoff`attempt
      ensures tokens == {}
      ensures var counted := (if Stable(cfg, t.attempt) then 0 else old(consecutive)) + 1;
              && (done <==> Stops(t) || Capped(cfg, counted))
              && (Stops(t) ==> state == Stopped)
              && (!Stops(t) ==> consecutive == counted && state == if done then Degraded else Starting)
              && (!done ==> Tidy())
              && delays == if done then old(delays)
                           else old(delays) + [Backoff.Delay(backoff.policy, counted - 1, t.rnd)]
    {
      if t.stopAtHead {
        state := Stopped;
        return true;
      }
      if t.attempt.NoToken? {
        done := AfterFailure(t.stopAtEnd, t.rnd);
        return;
      }
      var token := made;
      PrepareToken();
      if t.attempt.NoStart? {
        Cleanup(token);
        done := AfterFailure(t.stopAtEnd, t.rnd);
        return;
      }
      var stopped := WaitAttempt(t.attempt, token);
      if stopped || t.stopAtEnd {
        state := Stopped;
        return true;
      }
      done := AfterFailure(false, t.rnd);
    }

    /** The supervise loop over the turns it is given; `n` is how many it took. */
    method Supervise(turns: seq<Turn>) returns (n: nat)
      requires Tidy() && consecutive == 0 && delays == [] && forall i :: 0 <= i < |turns| ==> Plausible(cfg, turns[i])
      modifies this, backoff`attempt
      ensures Ends(cfg, turns, n, state) && tokens == {}
      ensures |delays| == if state in {Degraded, Stopped} then n - 1 else n
      ensures Waited(cfg, backoff.policy, turns, delays)
      ensures forall i :: 0 <= i < |delays| ==> 0 <= delays[i] <= backoff.policy.Max()
      ensures state !in {Degraded, Stopped} ==> Tidy() && consecutive == Streak(cfg, turns, |turns|)
    {
      hide Backoff.Delay;
      state := Starting;
      n := 0;
      while n < |turns|
        invariant n <= |turns| && Tidy() && state == Starting
        invariant consecutive == Streak(cfg, turns, n)
        invariant forall k :: 0 <= k < n ==> GoesOn(cfg, turns, k)
        invariant |delays| == n && Waited(cfg, backoff.policy, turns, delays)
      {
        ghost var waits := delays;
        var done := TakeTurn(turns[n]);
        n := n + 1;
        if done {
          assert Ends(cfg, turns, n, state);
          WaitsBounded(cfg, backoff.policy, turns, delays);
          return;
        }
        WaitedSnoc(cfg, backoff.policy, turns, waits, delays[n - 1]);
      }
      assert n > 0 ==> GoesOn(cfg, turns, n - 1);
      WaitsBounded(cfg, backoff.policy, turns, delays);
    }
  }

  // ----- what the loop decides -----

  /** The first `k` turns end in as many exits as the cap allows. */
  ghost predicate Trips(cfg: Config, turns: seq<Turn>, k: nat)
    requires k <= |turns|
  {
    Capped(cfg, Streak(cfg, turns, k))
  }

  /** After turn `k` the loop goes round again. */
  ghost predicate GoesOn(cfg: Config, turns: seq<Turn>, k: nat)
    requires k < |turns|
  {
    !Stops(turns[k]) && !Trips(cfg, turns, k + 1)
  }

  /** Where a loop over `turns` ends, said without the loop. */
  ghost predicate Ends(cfg: Config, turns: seq<Turn>, n: nat, s: State) {
    && n <= |turns|
    && (forall k :: 0 <= k < n - 1 ==> GoesOn(cfg, turns, k))
    && (s == Degraded <==> n > 0 && !Stops(turns[n - 1]) && Trips(cfg, turns, n))
    && (s == Stopped <==> n > 0 && Stops(turns[n - 1]))
    && (s !in {Degraded, Stopped} ==> n == |turns|)
  }

  /** The k-th wait follows from the streak of exits that the k-th turn extends, and its jitter draw. */
  ghost predicate Waited(cfg: Config, policy: Backoff.Policy, turns: seq<Turn>, delays: seq<int>) {
    && |delays| <= |turns|
    && forall k :: 0 <= k < |delays| ==>
         delays[k] == Backoff.Delay(policy, Streak(cfg, turns, k + 1) - 1, turns[k].rnd)
  }

  lemma WaitedSnoc(cfg: Config, policy: Backoff.Policy, turns: seq<Turn>, delays: seq<int>, d: int)
    requires |delays| < |turns| && Waited(cfg, policy, turns, delays)
    requires d == Backoff.Delay(policy, Streak(cfg, turns, |delays| + 1) - 1, turns[|delays|].rnd)
    ensures Waited(cfg, policy, turns, delays + [d])
  {
    hide Backoff.Delay;
  }

  lemma WaitsBounded(cfg: Config, policy: Backoff.Policy, turns: seq<Turn>, delays: seq<int>)
    requires Waited(cfg, policy, turns, delays) && forall i :: 0 <= i < |turns| ==> Backoff.Unit(turns[i].rnd)
    ensures forall i :: 0 <= i < |delays| ==> 0 <= delays[i] <= policy.Max()
  {
    hide Backoff.Delay;
    forall i | 0 <= i < |delays| ensures 0 <= delays[i] <= policy.Max() {
      Backoff.DelayBounded(policy, Streak(cfg, turns, i + 1) - 1, turns[i].rnd);
    }
  }

  ghost predicate NeverStopped(turns: seq<Turn>) { forall k :: 0 <= k < |turns| ==> !Stops(turns[k]) }

  /** Turns `from` to `to` never stayed ready for the stability window. */
  predicate Unstable(cfg: Config, turns: seq<Turn>, from: nat, to: nat)
    requires to <= |turns|
  {
    forall k :: from <= k < to && turns[k].attempt.Ran? ==> turns[k].attempt.upFor < cfg.stabilityWindow
  }

  /** A streak is at least `c` exactly when the turns after the first of the last `c` were all unstable. */
  lemma {:induction false} StreakAtLeast(cfg: Config, turns: seq<Turn>, n: nat, c: nat)
    requires 1 <= c && n <= |turns|
    ensures Streak(cfg, turns, n) >= c <==> n >= c && Unstable(cfg, turns, n - c + 1, n)
    decreases n
  {
    if n > 0 && c > 1 {
      StreakAtLeast(cfg, turns, n - 1, c - 1);
      assert n >= c ==> (Unstable(cfg, turns, n - c + 1, n) <==>
          Unstable(cfg, turns, n - c + 1, n - 1) && Unstable(cfg, turns, n - 1, n));
    }
  }

  /**
    * Unless stopped, it degrades exactly when among the exits there are as many in a
    * row as the cap, of which none but the first stayed ready for the stability window.
    */
  lemma DegradesByWindow(cfg: Config, turns: seq<Turn>, n: nat, s: State)
    requires Ends(cfg, turns, n, s) && NeverStopped(turns) && cfg.maxConsecutive > 0
    ensures s == Degraded <==> exists k :: 0 < k <= |turns| && RowOfExits(cfg, turns, k)
  {
    DegradesExactly(cfg, turns, n, s);
    forall k | 0 < k <= |turns| ensures Trips(cfg, turns, k) <==> RowOfExits(cfg, turns, k) {
      StreakAtLeast(cfg, turns, k, cfg.maxConsecutive);
    }
    hide RowOfExits, Trips;
  }

  /** The last exits before turn `k`, as many as the cap: none but the first after a stable run. */
  predicate RowOfExits(cfg: Config, turns: seq<Turn>, k: nat)
    requires k <= |turns| && cfg.maxConsecutive > 0
  {
    k >= cfg.maxConsecutive && Unstable(cfg, turns, k - cfg.maxConsecutive + 1, k)
  }

  /** Unless stopped, it degrades exactly when some streak of counted exits reaches the cap. */
  lemma DegradesExactly(cfg: Config, turns: seq<Turn>, n: nat, s: State)
    requires Ends(cfg, turns, n, s) && NeverStopped(turns)
    ensures s == Degraded <==> exists k :: 0 < k <= |turns| && Trips(cfg, turns, k)
    ensures s == Degraded ==> Streak(cfg, turns, n) == cfg.maxConsecutive
  {
    if k :| 0 < k <= |turns| && Trips(cfg, turns, k) {
      assert !GoesOn(cfg, turns, k - 1);
      assert k >= n;
      assert n > 0 ==> !Stops(turns[n - 1]);
      assert n == k ==> s == Degraded;
      assert s != Degraded ==> n == |turns|;
    }
    if s == Degraded {
      assert Trips(cfg, turns, n);
      assert n > 1 ==> GoesOn(cfg, turns, n - 2);
    }
  }

  lemma {:induction false} UnstableStreak(cfg: Config, turns: seq<Turn>, n: nat)
    requires n <= |turns| && forall k :: 0 <= k < n ==> !Stable(cfg, turns[k].attempt)
    ensures Streak(cfg, turns, n) == n
  {
    if n > 0 {
      UnstableStreak(cfg, turns, n - 1);
    }
  }

  /** Flapping terminates: attempts that never last the window degrade at the cap, ready or not. */
  lemma FlappingDegrades(cfg: Config, turns: seq<Turn>, n: nat, s: State)
    requires Ends(cfg, turns, n, s) && NeverStopped(turns) && cfg.maxConsecutive > 0
    requires forall k :: 0 <= k < |turns| && turns[k].attempt.Ran? ==>
               turns[k].attempt.upFor < cfg.stabilityWindow
    ensures s == Degraded <==> |turns| >= cfg.maxConsecutive
    ensures s == Degraded ==> n == cfg.maxConsecutive
  {
    forall k | 0 <= k <= |turns| ensures Streak(cfg, turns, k) == k {
      UnstableStreak(cfg, turns, k);
    }
    DegradesExactly(cfg, turns, n, s);
    if |turns| >= cfg.maxConsecutive {
      assert Trips(cfg, turns, cfg.maxConsecutive);
    }
  }

  /** With the cap disabled it never gives up on its own. */
  lemma UncappedNeverDegrades(cfg: Config, turns: seq<Turn>, n: nat, s: State)
    requires Ends(cfg, turns, n, s) && cfg.maxConsecutive <= 0
    ensures s != Degraded
  {
    assert n > 0 ==> !Trips(cfg, turns, n);
  }
}
