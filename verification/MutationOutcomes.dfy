/** What a client can count on: settled outcomes are remembered, unsettled ones forgotten, good tokens honoured. */
module MutationOutcomes {
  import opened Prelude
  import opened Encoding
  import opened Operations
  import opened Stores
  import opened MutationProtocol
  import opened MutationSafety
  import opened MutationSteps
  import opened MutationTheorems

  // ----- the history only grows -----

  lemma StepLog(cfg: Config, s: State, a: Action)
    requires Enabled(cfg, s, a)
    ensures s.log <= Apply(cfg, s, a).log
  {
    hide OPERATIONS, Peek, Reserve, Consume, Release, Complete, Issue, Acceptable, Known, Key, Fingerprint, Wanted;
    hide Budget, Confirmable, ReservationTtl;
  }

  lemma {:induction false} LogGrows(cfg: Config, states: seq<State>, actions: seq<Action>, i: nat, j: nat)
    requires IsRun(cfg, states, actions) && i <= j < |states|
    ensures states[i].log <= states[j].log
    decreases j
  {
    hide Enabled, Apply;
    if i < j {
      LogGrows(cfg, states, actions, i, j - 1);
      StepLog(cfg, states[j - 1], actions[j - 1]);
    }
  }

  // ----- outcomes -----

  /** What a result leaves in the history: success and final failures are kept, a retryable failure is let go. */
  function Outcome(cfg: Config, s: State, h: nat, result: MutateResult): Event
    requires h in s.handlers
  {
    match result
    case Ok(body) => Completed(h, s.handlers[h].req, 200, body, s.now + cfg.idemTtl)
    case Failed(status, body, retryable) =>
      if retryable then Released(h) else Completed(h, s.handlers[h].req, status, body, s.now + cfg.idemTtl)
  }

  lemma ResolutionIsLogged(cfg: Config, states: seq<State>, actions: seq<Action>, i: nat, h: nat, result: MutateResult)
    requires IsRun(cfg, states, actions) && i < |actions| && actions[i] == Resolve(h, result)
    ensures h in states[i].handlers
    ensures states[i + 1].log == states[i].log + [Outcome(cfg, states[i], h, result)]
  {
    hide Key, Fingerprint, Complete, Release;
    assert Enabled(cfg, states[i], actions[i]) && states[i + 1] == Apply(cfg, states[i], actions[i]);
  }

  /** A completed request is in the history from then on. */
  lemma CompletedStays(
    cfg: Config, states: seq<State>, actions: seq<Action>, i: nat, j: nat, h: nat, result: MutateResult)
    requires IsRun(cfg, states, actions) && i < j < |states| && actions[i] == Resolve(h, result)
    requires result.Ok? || !result.retryable
    ensures h in states[i].handlers
    ensures Outcome(cfg, states[i], h, result) in Completions(states[j].log)
  {
    hide Enabled, Apply;
    ResolutionIsLogged(cfg, states, actions, i, h, result);
    LogGrows(cfg, states, actions, i + 1, j);
    var log, e := states[j].log, Outcome(cfg, states[i], h, result);
    assert log[|states[i].log|] == states[i + 1].log[|states[i].log|] == e;
  }

  /**
    * A settled mutation is not repeated: until its response expires no dispatch of
    * that session and request id starts.
    */
  lemma SettledIsNotRepeated(
    cfg: Config, states: seq<State>, actions: seq<Action>, i: nat, j: nat, h: nat, result: MutateResult, k: nat)
    requires cfg.deadline > 0 && Prompt(cfg) && IsRun(cfg, states, actions) && i < j < |actions|
    requires actions[i] == Resolve(h, result) && (result.Ok? || !result.retryable) && actions[j] == Dispatch(k)
    ensures h in states[i].handlers && k in states[j].handlers
    ensures SameKey(states[i].handlers[h].req, states[j].handlers[k].req) ==>
              states[j].now > states[i].now + cfg.idemTtl
  {
    CompletedStays(cfg, states, actions, i, j, h, result);
    assert Enabled(cfg, states[j], actions[j]) && states[j + 1] == Apply(cfg, states[j], actions[j]);
    var log, e := states[j].log, Dispatched(k, states[j].handlers[k].req, states[j].now);
    assert states[j + 1].log == log + [e];
    HistoryIsLawful(cfg, states, actions, j + 1, |log|);
    assert states[j + 1].log[..|log|] == log && states[j + 1].log[|log|] == e;
    hide IsRun, Apply, Enabled, Wanted, NeedsConfirmation, Completions, Flights;
    assert Uncontested(log, e.req, e.at);
  }

  /** A request whose answer is cached ends at once, and is the one the store holds. */
  lemma CachedAnswer(cfg: Config, s: State, e: Event)
    requires Inv(cfg, s) && Prompt(cfg) && e in Completions(s.log) && s.now <= e.until
    ensures e.Completed? && Key(e.req) in s.idem && s.idem[Key(e.req)] == CachedEntry(e)
  {
    hide Key, Fingerprint, CachedEntry, Holding, Sourced, Traced, Vouched, Sifted, Screened, Unspent, Lawful, Prompt;
  }

  /**
    * A settled mutation is replayed: the same request, asked again before its response
    * expires, gets that response and ends there. Another request under its id
    * ends there too, with no answer and no effect.
    */
  lemma SettledIsReplayed(
    cfg: Config, states: seq<State>, actions: seq<Action>, i: nat, j: nat, h: nat, result: MutateResult, k: nat)
    requires cfg.deadline > 0 && Prompt(cfg) && IsRun(cfg, states, actions) && i < j < |actions|
    requires actions[i] == Resolve(h, result) && (result.Ok? || !result.retryable)
    requires actions[j] == PeekKey(k) || actions[j] == ReserveKey(k)
    requires h in states[i].handlers && k in states[j].handlers && states[j].now <= states[i].now + cfg.idemTtl
    requires SameKey(states[i].handlers[h].req, states[j].handlers[k].req)
    ensures k in states[j + 1].handlers && states[j + 1].handlers[k].phase == Finished
    ensures var r, r' := states[i].handlers[h].req, states[j].handlers[k].req;
            var status := if result.Ok? then 200 else result.status;
            states[j + 1].log == states[j].log +
              if r.operation == r'.operation && r.generation == r'.generation && r.params.text == r'.params.text
              then [Replayed(k, r', status, result.body, states[j].now)] else []
  {
    hide Inv, Apply, Prompt, Completions, Key, Fingerprint, CachedEntry, HolderOk, Known;
    CompletedStays(cfg, states, actions, i, j, h, result);
    RunInv(cfg, states, actions, i);
    RunInv(cfg, states, actions, j);
    assert Enabled(cfg, states[i], actions[i]);
    assert Enabled(cfg, states[j], actions[j]) && states[j + 1] == Apply(cfg, states[j], actions[j]);
    hide IsRun;
    var e := Outcome(cfg, states[i], h, result);
    CachedAnswer(cfg, states[j], e);
    HolderFacts(cfg, states[i], h);
    HandlerNamed(cfg, states[j], k);
    hide Enabled;
    AnswersFrom(cfg, states[j], k, e, actions[j]);
  }

  lemma HandlerNamed(cfg: Config, s: State, k: nat)
    requires Inv(cfg, s) && k in s.handlers
    ensures NUL !in s.handlers[k].req.session
    ensures s.handlers[k].phase.Checked? ==> Known(s.handlers[k].req)
  {
    hide Known, Guarded, Sourced, Traced, Vouched, Sifted, Unspent, Lawful;
  }

  /** The step itself: what the store's entry makes of a handler that looks it up. */
  lemma AnswersFrom(cfg: Config, s: State, k: nat, e: Event, a: Action)
    requires a == PeekKey(k) || a == ReserveKey(k)
    requires Enabled(cfg, s, a) && k in s.handlers && e.Completed? && s.now <= e.until
    requires Key(e.req) in s.idem && s.idem[Key(e.req)] == CachedEntry(e) && SameKey(e.req, s.handlers[k].req)
    requires Known(e.req) && NUL !in e.req.session && NUL !in s.handlers[k].req.session
    requires s.handlers[k].phase.Checked? ==> Known(s.handlers[k].req)
    ensures var t, r, r' := Apply(cfg, s, a), e.req, s.handlers[k].req;
            && k in t.handlers && t.handlers[k].phase == Finished
            && t.log == s.log +
                 if r.operation == r'.operation && r.generation == r'.generation && r.params.text == r'.params.text
                 then [Replayed(k, r', e.status, e.body, s.now)] else []
  {
    hide OPERATIONS, ReservationTtl;
    var r, r' := e.req, s.handlers[k].req;
    assert s.log + [] == s.log;
    assert Key(r) == Key(r');
    if Known(r') {
      FingerprintsTell(r, r');
      hide Fingerprint, Key;
    }
  }

  lemma FingerprintsTell(r: Request, r': Request)
    requires Known(r) && Known(r')
    ensures Fingerprint(r) == Fingerprint(r') <==>
              r.operation == r'.operation && r.generation == r'.generation && r.params.text == r'.params.text
  {
    if Fingerprint(r) == Fingerprint(r') {
      OperationNamesArePlain(r.operation);
      OperationNamesArePlain(r'.operation);
      RequestFingerprintInjective(r.operation, r.generation, r.params.text,
                                  r'.operation, r'.generation, r'.params.text);
    }
  }

  /** An unsettled one is forgotten: after a retryable failure, or giving up, the key is free. */
  lemma UnsettledIsForgotten(cfg: Config, states: seq<State>, actions: seq<Action>, i: nat, h: nat)
    requires cfg.deadline > 0 && Prompt(cfg) && IsRun(cfg, states, actions) && i < |actions|
    requires || actions[i] == GiveBack(h)
             || (actions[i].Resolve? && actions[i].h == h && actions[i].result.Failed? && actions[i].result.retryable)
    ensures h in states[i].handlers && states[i + 1].log == states[i].log + [Released(h)]
    ensures Key(states[i].handlers[h].req) !in states[i + 1].idem
  {
    hide Inv, Key, Fingerprint, Prompt, ReservationTtl, OPERATIONS, Known, Acceptable, Wanted;
    assert Enabled(cfg, states[i], actions[i]) && states[i + 1] == Apply(cfg, states[i], actions[i]);
    RunInv(cfg, states, actions, i);
    hide IsRun;
    HolderFacts(cfg, states[i], h);
    assert states[i + 1] == DoRelease(states[i], h);
  }

  // ----- a request that nothing stands against is carried out -----

  /** No entry for the key, or one that has expired. */
  predicate KeyFree(s: State, r: Request) { Key(r) in s.idem ==> s.now > s.idem[Key(r)].expiresAt }

  /** Looking a request up, and reserving its key, succeed exactly when they should. */
  lemma FreeKeyIsReserved(cfg: Config, s: State, h: nat)
    requires Enabled(cfg, s, ReserveKey(h))
    ensures var t, x := Apply(cfg, s, ReserveKey(h)), s.handlers[h];
            && h in t.handlers && (t.handlers[h].phase.Held? <==> KeyFree(s, x.req))
            && (t.handlers[h].phase.Held? ==>
                  && t.handlers[h].phase == Held(s.now, x.phase.budget) && t.log == s.log + [Took(h)]
                  && Key(x.req) in t.idem
                  && t.idem[Key(x.req)] == Entry(true, 0, "", s.now + ReservationTtl(cfg), Fingerprint(x.req)))
            && (!t.handlers[h].phase.Held? ==> t.handlers[h].phase == Finished)
  {
    hide OPERATIONS, Key, Fingerprint, ReservationTtl;
  }

  /** A request goes past its first look exactly when it is well formed and no other answer or request has its key. */
  lemma NewRequestPasses(cfg: Config, s: State, h: nat)
    requires Enabled(cfg, s, PeekKey(h))
    ensures var t, r := Apply(cfg, s, PeekKey(h)), s.handlers[h].req;
            && h in t.handlers
            && (t.handlers[h].phase == Peeked <==>
                  && r.operation in OPERATIONS && r.requestId != ""
                  && (KeyFree(s, r) || (s.idem[Key(r)].pending && s.idem[Key(r)].fingerprint == Fingerprint(r))))
            && (t.handlers[h].phase != Peeked ==> t.handlers[h].phase == Finished)
  {
    hide OPERATIONS, Key, Fingerprint;
  }

  // ----- confirmations -----

  /** A confirmation is issued exactly for a confirmable operation, a named resource and a current generation. */
  lemma ConfirmedExactly(
    cfg: Config, s: State, token: string, c: Claim, p: Params, read: Time, seen: map<string, nat>)
    requires token !in s.issued && token != "" && read <= s.now && c.params == Sha256(p.text)
    ensures Enabled(cfg, s, Confirm(token, c, p, read, seen)) <==>
              && c.operation in CONFIRMABLE && c.resource != ""
              && var spec := CONFIRMABLE[c.operation];
                 && (spec.resourceField in p.fields && p.fields[spec.resourceField] != "" ==>
                       p.fields[spec.resourceField] == c.resource)
                 && (spec.altField != "" && spec.altField in p.fields && p.fields[spec.altField] != "" ==>
                       p.fields[spec.altField] == c.resource)
                 && (spec.resourceField == "pane_id" ==> c.resource in seen && seen[c.resource] == c.generation)
  {
    if c.operation in CONFIRMABLE {
      TablesAgree(c.operation);
    }
    hide CONFIRMABLE, OPERATIONS;
  }

  /** The action puts the token before the store. */
  predicate Presents(s: State, a: Action, token: string) {
    || (a.TakeTerminal? && a.token == token)
    || (a.ConsumeToken? && a.h in s.handlers && s.handlers[a.h].req.confirmation == token)
  }

  /** A token nobody presents is what was issued, as long as it is there, and is there until it expires. */
  predicate Kept(s: State, token: string, n: Nonce) {
    && token in s.issued && (token in s.nonces ==> s.nonces[token] == n)
    && (s.now <= n.expiresAt ==> token in s.nonces)
  }

  lemma StepKeepsToken(cfg: Config, s: State, a: Action, token: string, n: Nonce)
    requires Enabled(cfg, s, a) && Kept(s, token, n) && !Presents(s, a, token)
    ensures Kept(Apply(cfg, s, a), token, n)
  {
    hide OPERATIONS, Peek, Reserve, Release, Complete, Acceptable, Known, Key, Fingerprint, Wanted, Budget;
    hide Confirmable, ReservationTtl;
  }

  lemma {:induction false} TokenStays(
    cfg: Config, states: seq<State>, actions: seq<Action>, i: nat, j: nat, token: string, n: Nonce)
    requires IsRun(cfg, states, actions) && i <= j < |states| && Kept(states[i], token, n)
    requires forall k :: i <= k < j ==> !Presents(states[k], actions[k], token)
    ensures Kept(states[j], token, n)
    decreases j
  {
    hide Enabled, Apply, Presents, Kept;
    if i < j {
      TokenStays(cfg, states, actions, i, j - 1, token, n);
      assert !Presents(states[j - 1], actions[j - 1], token);
      StepKeepsToken(cfg, states[j - 1], actions[j - 1], token, n);
    }
  }

  /** Issuing a confirmation records it for exactly its claim and lifetime. */
  lemma IssueIsLogged(
    cfg: Config, s: State, token: string, c: Claim, p: Params, read: Time, seen: map<string, nat>)
    requires Enabled(cfg, s, Confirm(token, c, p, read, seen))
    ensures var t, n := Apply(cfg, s, Confirm(token, c, p, read, seen)), Nonce(c, read + cfg.confirmTtl);
            t.log == s.log + [Issued(token, n)] && Kept(t, token, n) && c.resource != ""
  {
    ConfirmNames(seen, c, p);
    hide OPERATIONS, CONFIRMABLE;
  }

  /**
    * A confirmation is honoured: the first time it is presented, a token lets the
    * mutation go on exactly when the request is the one it was issued for and its
    * lifetime has not passed.
    */
  lemma ConfirmationIsHonoured(
    cfg: Config, states: seq<State>, actions: seq<Action>, i: nat, j: nat,
    token: string, c: Claim, p: Params, read: Time, seen: map<string, nat>, h: nat)
    requires IsRun(cfg, states, actions) && i < j < |actions| && actions[i] == Confirm(token, c, p, read, seen)
    requires actions[j] == ConsumeToken(h) && h in states[j].handlers && states[j].handlers[h].req.confirmation == token
    requires forall k :: i < k < j ==> !Presents(states[k], actions[k], token)
    ensures h in states[j + 1].handlers
    ensures var x := states[j + 1].handlers[h];
            if Describes(c, x.req) && states[j].now <= read + cfg.confirmTtl
            then x.phase.Confirmed? else x.phase.Refused?
  {
    hide OPERATIONS, CONFIRMABLE, Peek, Reserve, Release, Complete, Acceptable, Known, Key, Fingerprint, Wanted;
    hide Presents;
    assert Enabled(cfg, states[i], actions[i]) && states[i + 1] == Apply(cfg, states[i], actions[i]);
    assert Enabled(cfg, states[j], actions[j]) && states[j + 1] == Apply(cfg, states[j], actions[j]);
    IssueIsLogged(cfg, states[i], token, c, p, read, seen);
    TokenStays(cfg, states, actions, i + 1, j, token, Nonce(c, read + cfg.confirmTtl));
    hide IsRun;
    DescribesExactly(c, states[j].handlers[h].req);
  }

  lemma DescribesExactly(c: Claim, r: Request)
    requires c.resource != "" && NeedsConfirmation(r.operation)
    ensures c == Wanted(r) <==> Describes(c, r)
  {
    TablesAgree(r.operation);
    hide OPERATIONS, CONFIRMABLE;
  }

  /** So is a takeover's: the first time its token is presented it is granted exactly for what it was issued for. */
  lemma TakeoverIsHonoured(
    cfg: Config, states: seq<State>, actions: seq<Action>, i: nat, j: nat,
    token: string, c: Claim, p: Params, read: Time, seen: map<string, nat>, want: Claim)
    requires IsRun(cfg, states, actions) && i < j < |actions| && actions[i] == Confirm(token, c, p, read, seen)
    requires actions[j] == TakeTerminal(token, want)
    requires forall k :: i < k < j ==> !Presents(states[k], actions[k], token)
    ensures states[j + 1].log == states[j].log +
              if want == c && states[j].now <= read + cfg.confirmTtl
              then [Authorised(token, Takeover, want, states[j].now)] else []
  {
    hide OPERATIONS, CONFIRMABLE, Peek, Reserve, Release, Complete, Acceptable, Known, Key, Fingerprint, Wanted;
    hide Presents;
    assert Enabled(cfg, states[i], actions[i]) && states[i + 1] == Apply(cfg, states[i], actions[i]);
    assert Enabled(cfg, states[j], actions[j]) && states[j + 1] == Apply(cfg, states[j], actions[j]);
    IssueIsLogged(cfg, states[i], token, c, p, read, seen);
    TokenStays(cfg, states, actions, i + 1, j, token, Nonce(c, read + cfg.confirmTtl));
    assert states[j].log + [] == states[j].log;
  }

  // ----- nobody is stuck -----

  /** In every phase the next step is open, a holder may always give its key back, and any token may be presented. */
  lemma HandlersCanGoOn(cfg: Config, s: State, h: nat, token: string, claim: Claim)
    requires h in s.handlers
    ensures var p, op := s.handlers[h].phase, s.handlers[h].req.operation;
            var confirm := op in OPERATIONS && OPERATIONS[op].confirm;
            && (p.Arrived? ==> Enabled(cfg, s, PeekKey(h))) && (p.Peeked? ==> Enabled(cfg, s, Check(h)))
            && (p.Checked? ==> Enabled(cfg, s, ReserveKey(h)))
            && (p.Held? ==> Enabled(cfg, s, if confirm then ConsumeToken(h) else Dispatch(h)))
            && (p.Confirmed? ==> Enabled(cfg, s, Dispatch(h)))
            && (p.Flying? ==> forall result :: Enabled(cfg, s, Resolve(h, result)))
            && (p.Held? || p.Confirmed? || p.Refused? || p.Flying? ==> Enabled(cfg, s, GiveBack(h)))
    ensures (token != "" && claim.operation == "terminal.takeover" && claim.generation != 0
             && claim.params == Sha256("{}")) ==> Enabled(cfg, s, TakeTerminal(token, claim))
  {
    hide OPERATIONS;
  }
}
