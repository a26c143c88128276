/** How late a handler may be before two of them run one request. */
module MutationPatience {
  import opened Prelude
  import opened Operations
  import opened Stores
  import opened MutationProtocol
  import opened MutationSafety
  import opened MutationSteps
  import opened MutationTheorems

  /** No two handlers satisfying `busy` share a session and request id. */
  ghost predicate Exclusive(s: State, busy: Phase -> bool) {
    var hs := s.handlers;
    forall h, k :: h in hs && k in hs && h != k && busy(hs[h].phase) && busy(hs[k].phase) ==>
      !SameKey(hs[h].req, hs[k].req)
  }

  ghost predicate ExclusiveThroughout(states: seq<State>, busy: Phase -> bool) {
    forall i :: 0 <= i < |states| ==> Exclusive(states[i], busy)
  }

  /** In every run. */
  ghost predicate AlwaysExclusive(cfg: Config, busy: Phase -> bool) {
    forall states, actions :: IsRun(cfg, states, actions) ==> ExclusiveThroughout(states, busy)
  }

  predicate InTheAir(p: Phase) { p.Flying? }

  /**
    * At most one handler per key holds a reservation, and at most one has a
    * dispatch in flight, in every run, if and only if no handler may outlive its
    * reservation.
    */
  lemma ExclusionExactly(cfg: Config)
    requires cfg.deadline > 0
    ensures AlwaysExclusive(cfg, Holds) <==> Prompt(cfg)
    ensures AlwaysExclusive(cfg, InTheAir) <==> Prompt(cfg)
  {
    if Prompt(cfg) {
      PromptMeansExclusive(cfg);
    } else {
      var states, actions := TwoFly(cfg);
      assert !Exclusive(states[|states| - 1], InTheAir);
      assert !Exclusive(states[|states| - 1], Holds);
    }
  }

  lemma PromptMeansExclusive(cfg: Config)
    requires cfg.deadline > 0 && Prompt(cfg)
    ensures AlwaysExclusive(cfg, Holds) && AlwaysExclusive(cfg, InTheAir)
  {
    hide IsRun, Prompt;
    forall states: seq<State>, actions | IsRun(cfg, states, actions)
      ensures ExclusiveThroughout(states, Holds) && ExclusiveThroughout(states, InTheAir)
    {
      forall i | 0 <= i < |states| ensures Exclusive(states[i], Holds) && Exclusive(states[i], InTheAir) {
        StateExclusive(cfg, states, actions, i);
      }
    }
  }

  lemma StateExclusive(cfg: Config, states: seq<State>, actions: seq<Action>, i: nat)
    requires cfg.deadline > 0 && Prompt(cfg) && IsRun(cfg, states, actions) && i < |states|
    ensures Exclusive(states[i], Holds) && Exclusive(states[i], InTheAir)
  {
    hide IsRun, Prompt, SameKey;
    var hs := states[i].handlers;
    forall h, k | h in hs && k in hs && h != k && Holds(hs[h].phase) && Holds(hs[k].phase)
      ensures !SameKey(hs[h].req, hs[k].req)
    {
      OneInFlight(cfg, states, actions, i, h, k);
    }
  }

  /** The store's entry for a holder's key is that holder's reservation. */
  predicate Owned(cfg: Config, s: State, h: nat)
    requires h in s.handlers && Holds(s.handlers[h].phase)
  {
    var x := s.handlers[h];
    Key(x.req) in s.idem && s.idem[Key(x.req)] == Reservation(cfg, x)
  }

  ghost predicate AllOwned(cfg: Config, s: State) {
    forall h :: h in s.handlers && Holds(s.handlers[h].phase) ==> Owned(cfg, s, h)
  }

  ghost predicate AlwaysOwned(cfg: Config) {
    forall states, actions, i :: IsRun(cfg, states, actions) && 0 <= i < |states| ==> AllOwned(cfg, states[i])
  }

  /** A handler that completes or releases replaces only its own reservation, on the same condition. */
  lemma OwnershipExactly(cfg: Config)
    requires cfg.deadline > 0
    ensures AlwaysOwned(cfg) <==> Prompt(cfg)
  {
    hide Owned;
    if Prompt(cfg) {
      hide IsRun;
      forall states: seq<State>, actions, i | IsRun(cfg, states, actions) && 0 <= i < |states|
        ensures AllOwned(cfg, states[i])
      {
        StateOwned(cfg, states, actions, i);
      }
    } else {
      var states, actions := TwoFly(cfg);
      var i := |states| - 1;
      assert IsRun(cfg, states, actions) && 0 <= i < |states| && !AllOwned(cfg, states[i]);
    }
  }

  lemma StateOwned(cfg: Config, states: seq<State>, actions: seq<Action>, i: nat)
    requires cfg.deadline > 0 && Prompt(cfg) && IsRun(cfg, states, actions) && i < |states|
    ensures AllOwned(cfg, states[i])
  {
    RunInv(cfg, states, actions, i);
    hide IsRun, Inv, Key, Fingerprint, Prompt, ReservationTtl;
    forall h | h in states[i].handlers && Holds(states[i].handlers[h].phase) ensures Owned(cfg, states[i], h) {
      HolderFacts(cfg, states[i], h);
    }
  }

  // ----- a late handler meets its successor -----

  const REQUEST := Request("", "r", "workspace.create", 0, "", 0, Params("", map[]))

  function Last(states: seq<State>): State
    requires states != []
  {
    states[|states| - 1]
  }

  lemma Extended(cfg: Config, states: seq<State>, actions: seq<Action>, a: Action) returns (longer: seq<State>)
    requires IsRun(cfg, states, actions) && Enabled(cfg, Last(states), a)
    ensures longer != [] && IsRun(cfg, longer, actions + [a]) && Last(longer) == Apply(cfg, Last(states), a)
  {
    hide Enabled, Apply;
    longer := states + [Apply(cfg, Last(states), a)];
    var more := actions + [a];
    forall i | 0 <= i < |more|
      ensures Enabled(cfg, longer[i], more[i]) && longer[i + 1] == Apply(cfg, longer[i], more[i])
    {
      assert i < |actions| ==>
          Enabled(cfg, states[i], actions[i]) && states[i + 1] == Apply(cfg, states[i], actions[i]);
    }
  }

  /** The request's key has no live entry. */
  predicate Free(s: State) { Key(REQUEST) in s.idem ==> s.now > s.idem[Key(REQUEST)].expiresAt }

  predicate At(s: State, h: nat, hs: map<nat, Handler>, p: Phase, now: Time) {
    s.now == now && s.handlers == hs[h := Handler(REQUEST, p)] && Free(s)
  }

  lemma Arrives(cfg: Config, s: State, h: nat)
    requires h !in s.handlers && Free(s)
    ensures Enabled(cfg, s, Arrive(h, REQUEST))
    ensures At(Apply(cfg, s, Arrive(h, REQUEST)), h, s.handlers, Arrived, s.now)
  {
    hide Key;
  }

  /** Whatever the guard map, the request passes every check and needs no confirmation. */
  lemma RequestAccepted(gens: map<string, nat>)
    ensures Known(REQUEST) && Acceptable(gens, REQUEST) && !NeedsConfirmation(REQUEST.operation)
  {
    assert REQUEST.operation in OPERATIONS && OPERATIONS[REQUEST.operation] == Plain("");
    hide OPERATIONS;
  }

  lemma Peeks(cfg: Config, s: State, h: nat, hs: map<nat, Handler>, now: Time)
    requires At(s, h, hs, Arrived, now)
    ensures Enabled(cfg, s, PeekKey(h)) && At(Apply(cfg, s, PeekKey(h)), h, hs, Peeked, now)
  {
    hide OPERATIONS, Known, Key, Fingerprint;
    RequestAccepted(s.gens);
    assert DoPeek(s, h).handlers == s.handlers[h := Handler(REQUEST, Peeked)] == hs[h := Handler(REQUEST, Peeked)];
  }

  lemma Checks(cfg: Config, s: State, h: nat, hs: map<nat, Handler>, now: Time)
    requires At(s, h, hs, Peeked, now) && cfg.deadline > 0
    ensures Enabled(cfg, s, Check(h)) && At(Apply(cfg, s, Check(h)), h, hs, Checked(cfg.deadline), now)
  {
    hide OPERATIONS, Acceptable, Key;
    RequestAccepted(s.gens);
    var t := Apply(cfg, s, Check(h));
    assert t.handlers == s.handlers[h := Handler(REQUEST, Checked(cfg.deadline))];
    assert t.handlers == hs[h := Handler(REQUEST, Checked(cfg.deadline))];
  }

  /** The key was free, and is now reserved from this moment. */
  predicate Reserving(cfg: Config, s: State, h: nat, hs: map<nat, Handler>, p: Phase, now: Time) {
    && s.now == now && s.handlers == hs[h := Handler(REQUEST, p)]
    && Key(REQUEST) in s.idem && s.idem[Key(REQUEST)].expiresAt == now + ReservationTtl(cfg)
  }

  lemma Reserves(cfg: Config, s: State, h: nat, hs: map<nat, Handler>, now: Time)
    requires At(s, h, hs, Checked(cfg.deadline), now)
    ensures Enabled(cfg, s, ReserveKey(h))
    ensures Reserving(cfg, Apply(cfg, s, ReserveKey(h)), h, hs, Held(now, cfg.deadline), now)
  {
    hide OPERATIONS, Key, Fingerprint, ReservationTtl;
    var t := DoReserve(cfg, s, h);
    assert t.handlers == s.handlers[h := Handler(REQUEST, Held(now, cfg.deadline))];
    assert t.handlers == hs[h := Handler(REQUEST, Held(now, cfg.deadline))];
  }

  lemma Dispatches(cfg: Config, s: State, h: nat, hs: map<nat, Handler>, now: Time)
    requires Reserving(cfg, s, h, hs, Held(now, cfg.deadline), now)
    ensures Enabled(cfg, s, Dispatch(h))
    ensures Reserving(cfg, Apply(cfg, s, Dispatch(h)), h, hs, Flying(now, cfg.deadline, now), now)
  {
    hide OPERATIONS, Key, ReservationTtl, NeedsConfirmation;
    RequestAccepted(s.gens);
    var t := Apply(cfg, s, Dispatch(h));
    assert t.handlers == s.handlers[h := Handler(REQUEST, Flying(now, cfg.deadline, now))];
    assert t.handlers == hs[h := Handler(REQUEST, Flying(now, cfg.deadline, now))];
  }

  /** One more dispatch of the request joins the run. */
  lemma Joins(cfg: Config, states: seq<State>, actions: seq<Action>, h: nat)
    returns (longer: seq<State>, more: seq<Action>)
    requires cfg.deadline > 0 && states != [] && IsRun(cfg, states, actions)
    requires h !in Last(states).handlers && Free(Last(states))
    ensures longer != [] && IsRun(cfg, longer, more)
    ensures var s := Last(states);
            Reserving(cfg, Last(longer), h, s.handlers, Flying(s.now, cfg.deadline, s.now), s.now)
  {
    hide IsRun, Enabled, Apply, Key, ReservationTtl, Free, At, Reserving;
    var hs, now := Last(states).handlers, Last(states).now;
    Arrives(cfg, Last(states), h);
    longer := Extended(cfg, states, actions, Arrive(h, REQUEST));
    more := actions + [Arrive(h, REQUEST)];
    Peeks(cfg, Last(longer), h, hs, now);
    longer := Extended(cfg, longer, more, PeekKey(h));
    more := more + [PeekKey(h)];
    Checks(cfg, Last(longer), h, hs, now);
    longer := Extended(cfg, longer, more, Check(h));
    more := more + [Check(h)];
    Reserves(cfg, Last(longer), h, hs, now);
    longer := Extended(cfg, longer, more, ReserveKey(h));
    more := more + [ReserveKey(h)];
    Dispatches(cfg, Last(longer), h, hs, now);
    longer := Extended(cfg, longer, more, Dispatch(h));
    more := more + [Dispatch(h)];
  }

  /** The failing run: a dispatch outlasts its reservation, and a retry is dispatched beside it. */
  lemma TwoFly(cfg: Config) returns (states: seq<State>, actions: seq<Action>)
    requires cfg.deadline > 0 && !Prompt(cfg)
    ensures IsRun(cfg, states, actions)
    ensures var hs := Last(states).handlers;
            0 in hs && 1 in hs && hs[0].phase.Flying? && hs[1].phase.Flying? && SameKey(hs[0].req, hs[1].req)
    ensures !Owned(cfg, Last(states), 0)
  {
    states, actions := [Start(0, map[])], [];
    states, actions := Joins(cfg, states, actions, 0);
    ReservationOutlasts(cfg);
    hide IsRun, Key, ReservationTtl;
    var late := Tick(ReservationTtl(cfg) + 1);
    states := Extended(cfg, states, actions, late);
    actions := actions + [late];
    states, actions := Joins(cfg, states, actions, 1);
  }

  // ----- what the server's own limits give -----

  /** Every holder reaches its dispatch within the cap, and its dispatch ends within its budget. */
  ghost predicate OnTime(cfg: Config, s: State) {
    forall h :: h in s.handlers && Holds(s.handlers[h].phase) ==> PhaseOnTime(cfg, s.now, s.handlers[h].phase)
  }

  predicate PhaseOnTime(cfg: Config, now: Time, p: Phase)
    requires Holds(p)
  {
    if p.Flying? then p.started <= p.since + cfg.deadline && now <= p.started + p.budget
    else now <= p.since + cfg.deadline
  }

  predicate BudgetOk(cfg: Config, p: Phase) {
    p.Checked? || p.Held? || p.Confirmed? || p.Flying? ==> p.budget <= cfg.deadline
  }

  ghost predicate Budgeted(cfg: Config, s: State) {
    forall h :: h in s.handlers ==> BudgetOk(cfg, s.handlers[h].phase)
  }

  lemma BudgetStep(cfg: Config, s: State, a: Action)
    requires Budgeted(cfg, s) && Enabled(cfg, s, a)
    ensures Budgeted(cfg, Apply(cfg, s, a))
  {
    hide Peek, Reserve, Consume, Release, Complete, Issue, Acceptable, Known, Key, Fingerprint, Wanted, ReservationTtl;
    hide Budget, NeedsConfirmation, Confirmable;
    BudgetIsTheSmaller(cfg, if a.Check? then s.handlers[a.h].req.deadline else 0, s.now);
  }

  lemma {:induction false} BudgetsHold(cfg: Config, states: seq<State>, actions: seq<Action>, i: nat)
    requires IsRun(cfg, states, actions) && i < |states|
    ensures Budgeted(cfg, states[i])
  {
    hide Enabled, Apply, BudgetOk;
    if i > 0 {
      BudgetsHold(cfg, states, actions, i - 1);
      BudgetStep(cfg, states[i - 1], actions[i - 1]);
    }
  }

  /** Handlers that keep the server's limits never outlive a reservation: such a run is a prompt one. */
  lemma OnTimeIsPrompt(cfg: Config, states: seq<State>, actions: seq<Action>)
    requires cfg.deadline > 0 && IsRun(cfg, states, actions)
    requires forall i :: 0 <= i < |states| ==> OnTime(cfg, states[i])
    ensures var strict := cfg.(patience := 2 * cfg.deadline); Prompt(strict) && IsRun(strict, states, actions)
  {
    var strict := cfg.(patience := 2 * cfg.deadline);
    ReservationOutlasts(strict);
    forall i | 0 <= i < |actions|
      ensures Enabled(strict, states[i], actions[i]) && states[i + 1] == Apply(strict, states[i], actions[i])
    {
      BudgetsHold(cfg, states, actions, i + 1);
      OnTimeStep(cfg, states[i], actions[i]);
    }
  }

  lemma OnTimeStep(cfg: Config, s: State, a: Action)
    requires cfg.deadline > 0 && Enabled(cfg, s, a)
    requires OnTime(cfg, Apply(cfg, s, a)) && Budgeted(cfg, Apply(cfg, s, a))
    ensures var strict := cfg.(patience := 2 * cfg.deadline);
            Enabled(strict, s, a) && Apply(strict, s, a) == Apply(cfg, s, a)
  {
    hide Peek, Reserve, Consume, Release, Complete, Issue, Acceptable, Known, Key, Fingerprint, Wanted;
    hide Confirmable, NeedsConfirmation;
    if a.Tick? {
      forall h | h in s.handlers && Holds(s.handlers[h].phase)
        ensures a.to <= s.handlers[h].phase.since + 2 * cfg.deadline
      {
        assert PhaseOnTime(cfg, a.to, s.handlers[h].phase) && BudgetOk(cfg, s.handlers[h].phase);
      }
    }
  }
}
