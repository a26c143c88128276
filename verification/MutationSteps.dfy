/** Every action of the mutation protocol keeps its invariant. */
module MutationSteps {
  import opened Prelude
  import opened Encoding
  import opened Operations
  import opened Stores
  import opened MutationProtocol
  import opened MutationSafety

  /** The parts of the invariant that events do not reach. */
  lemma Close(cfg: Config, s: State)
    requires cfg.deadline > 0
    requires Guarded(cfg, s.now, s.idem, Holders(s.handlers), Completions(s.log))
    requires Sourced(s.idem, Completions(s.log))
    requires Traced(s.handlers, Taken(s.log), Resolved(s.log), Flights(s.log))
    requires Vouched(s.handlers, Grants(s.log))
    requires Sifted(s.handlers, Vets(s.log))
    requires Screened(cfg, s.handlers, Completions(s.log))
    requires Unspent(s.nonces, s.issued, Issues(s.log), Grants(s.log))
    requires Lawful(Prompt(cfg), s.log)
    ensures Inv(cfg, s)
  {
  }

  lemma TickStep(cfg: Config, s: State, to: Time)
    requires Inv(cfg, s) && Enabled(cfg, s, Tick(to))
    ensures Inv(cfg, s.(now := to))
  {
    var holders := Holders(s.handlers);
    assert forall h :: h in holders ==> to <= holders[h].phase.since + cfg.patience;
    hide Inv, Guarded, Sourced, Holders, Traced, Vouched, Sifted, Screened, Unspent, Lawful, Completions, Enabled;
    Open(cfg, s);
    GuardedTicks(cfg, s.now, to, s.idem, holders, Completions(s.log));
    Close(cfg, s.(now := to));
  }

  lemma ExpiryHarmless(cfg: Config, s: State, live: IdemMap)
    requires Inv(cfg, s)
    requires forall k :: k in live ==> k in s.idem && live[k] == s.idem[k]
    requires forall k :: k in s.idem && s.now <= s.idem[k].expiresAt ==> k in live && live[k] == s.idem[k]
    ensures Inv(cfg, s.(idem := live))
  {
    hide Inv, Holding, Cached, Sourced, Holders, Traced, Vouched, Sifted, Screened, Unspent, Lawful, Completions;
    Open(cfg, s);
    if Prompt(cfg) {
      HoldingExpires(cfg, s.now, s.idem, Holders(s.handlers), live);
      CachedExpires(s.now, s.idem, Holders(s.handlers), Completions(s.log), live);
    }
    SourcedShrinks(s.idem, Completions(s.log), live);
    Close(cfg, s.(idem := live));
  }

  /** A handler that holds nothing, perhaps new, goes where it holds nothing. */
  lemma QuietMove(cfg: Config, s: State, h: nat, x: Handler)
    requires Inv(cfg, s) && !Holds(x.phase) && NUL !in x.req.session
    requires h in s.handlers ==>
               !Holds(s.handlers[h].phase) && s.handlers[h].phase != Finished && x.req == s.handlers[h].req
    requires x.phase.Arrived? || x.phase.Finished? || Known(x.req)
    requires x.phase.Checked? ==> 0 < x.phase.budget <= cfg.deadline
    requires !x.phase.Confirmed?
    requires x.phase.Checked? ==> exists g :: Vetted(h, x.req, g) in Vets(s.log)
    ensures Inv(cfg, s.(handlers := s.handlers[h := x]))
  {
    hide Inv, Guarded, Sourced, Holders, Traced, Vouched, Sifted, Screened, Unspent, Lawful, Known, Wanted;
    hide Completions, Flights, Grants, Issues, Vets, Taken, Resolved;
    HoldersStay(s.handlers, h, x);
    Open(cfg, s);
    TracedQuiet(s.handlers, h, x, Taken(s.log), Resolved(s.log), Flights(s.log));
    VouchedMoves(s.handlers, h, x, Grants(s.log), Grants(s.log));
    SiftedMoves(s.handlers, h, x, Vets(s.log));
    ScreenedMoves(cfg, s.handlers, Completions(s.log), h, x);
    Close(cfg, s.(handlers := s.handlers[h := x]));
  }

  lemma QuietGoto(cfg: Config, s: State, h: nat, p: Phase)
    requires Inv(cfg, s) && h in s.handlers && !Holds(s.handlers[h].phase) && s.handlers[h].phase != Finished
    requires p == Finished || ((p.Peeked? || p.Checked?) && Known(s.handlers[h].req))
    requires p.Checked? ==>
               0 < p.budget <= cfg.deadline && exists g :: Vetted(h, s.handlers[h].req, g) in Vets(s.log)
    ensures Inv(cfg, Goto(s, h, p))
  {
    assert NUL !in s.handlers[h].req.session;
    hide Inv, Known, Vets;
    QuietMove(cfg, s, h, s.handlers[h].(phase := p));
  }

  /** Replays and vettings only add to the history. */
  lemma NoteHarmless(cfg: Config, s: State, e: Event)
    requires Inv(cfg, s) && (e.Replayed? || e.Vetted?) && Justified(Prompt(cfg), s.log, e)
    ensures Inv(cfg, Note(s, e))
  {
    hide Inv, Guarded, Sourced, Holders, Traced, Vouched, Sifted, Screened, Unspent, Lawful, Justified;
    Open(cfg, s);
    LawfulNote(Prompt(cfg), s.log, e);
    Noted(s.log, e);
    hide Completions, Flights, Grants, Issues, Vets, Taken, Resolved;
    SiftedGrows(s.handlers, Vets(s.log), Vets(s.log + [e]));
    Close(cfg, Note(s, e));
  }

  /** An answer from the store ends a handler that holds nothing. */
  lemma AnswerStep(cfg: Config, s: State, h: nat, r: IdemResult)
    requires Inv(cfg, s) && h in s.handlers && !Holds(s.handlers[h].phase) && s.handlers[h].phase != Finished
    requires r.Replay? ==> Known(s.handlers[h].req) && Answers(s, s.handlers[h].req)
    requires r.Replay? ==> r.entry == s.idem[Key(s.handlers[h].req)]
    ensures Inv(cfg, Answer(s, h, r))
  {
    hide Inv, Justified, Known, Key, Fingerprint;
    QuietGoto(cfg, s, h, Finished);
    if r.Replay? {
      ReplayJustified(cfg, s, h);
      NoteHarmless(cfg, Goto(s, h, Finished), Replayed(h, s.handlers[h].req, r.entry.status, r.entry.body, s.now));
    }
  }

  lemma PeekStep(cfg: Config, s: State, h: nat)
    requires Inv(cfg, s) && h in s.handlers && s.handlers[h].phase.Arrived?
    ensures Inv(cfg, DoPeek(s, h))
  {
    hide Inv, Known, Key, Fingerprint;
    var req := s.handlers[h].req;
    if !Known(req) {
      QuietGoto(cfg, s, h, Finished);
    } else {
      var r := Peek(s.idem, s.now, Key(req), Fingerprint(req));
      ExpiryHarmless(cfg, s, r.0);
      if r.1 == Miss {
        QuietGoto(cfg, s.(idem := r.0), h, Peeked);
      } else {
        AnswerStep(cfg, s.(idem := r.0), h, r.1);
      }
    }
  }

  lemma VetStep(cfg: Config, s: State, h: nat, b: int)
    requires Inv(cfg, s) && h in s.handlers && s.handlers[h].phase.Peeked? && 0 < b <= cfg.deadline
    requires Acceptable(s.gens, s.handlers[h].req)
    ensures Inv(cfg, Goto(Note(s, Vetted(h, s.handlers[h].req, s.gens)), h, Checked(b)))
  {
    hide Inv, Known, Passes;
    var e := Vetted(h, s.handlers[h].req, s.gens);
    NoteHarmless(cfg, s, e);
    Noted(s.log, e);
    hide Vets, Completions, Flights, Grants, Issues, Taken, Resolved;
    assert e in Vets(s.log + [e]);
    QuietGoto(cfg, Note(s, e), h, Checked(b));
  }

  lemma CheckStep(cfg: Config, s: State, h: nat)
    requires Inv(cfg, s) && h in s.handlers && s.handlers[h].phase.Peeked?
    ensures var b := Budget(cfg, s.handlers[h].req.deadline, s.now);
            if Acceptable(s.gens, s.handlers[h].req) && b > 0
            then Inv(cfg, Goto(Note(s, Vetted(h, s.handlers[h].req, s.gens)), h, Checked(b)))
            else Inv(cfg, Goto(s, h, Finished))
  {
    hide Inv, Acceptable;
    var b := Budget(cfg, s.handlers[h].req.deadline, s.now);
    if Acceptable(s.gens, s.handlers[h].req) && b > 0 {
      VetStep(cfg, s, h, b);
    } else {
      QuietGoto(cfg, s, h, Finished);
    }
  }

  // ----- reservations -----

  lemma SiftedHolds(hs: map<nat, Handler>, h: nat, x: Handler, vets: set<Event>)
    requires Sifted(hs, vets) && h in hs && (hs[h].phase.Checked? || Holds(hs[h].phase)) && x.req == hs[h].req
    ensures Sifted(hs[h := x], vets) && exists g :: Vetted(h, x.req, g) in vets
  {
  }

  /** A key with no live entry goes to the handler that asked. */
  lemma GrantStep(cfg: Config, s: State, h: nat)
    requires Inv(cfg, s) && h in s.handlers && s.handlers[h].phase.Checked? && Key(s.handlers[h].req) !in s.idem
    ensures var x := s.handlers[h].(phase := Held(s.now, s.handlers[h].phase.budget));
            var idem := s.idem[Key(x.req) := Reservation(cfg, x)];
            Inv(cfg, Note(Goto(s.(idem := idem), h, x.phase), Took(h)))
  {
    hide Inv, Guarded, Sourced, Holders, Traced, Vouched, Sifted, Screened, Unspent, Lawful;
    hide Known, Wanted, Key, Fingerprint, Reservation, Prompt;
    hide Completions, Flights, Grants, Issues, Vets, Taken, Resolved;
    var x := s.handlers[h].(phase := Held(s.now, s.handlers[h].phase.budget));
    Screening(cfg, s, h);
    Open(cfg, s);
    HolderMoves(s.handlers, h, x);
    GuardedGrants(cfg, s.now, s.idem, Holders(s.handlers), Completions(s.log), h, x);
    SourcedGrants(cfg, s.idem, Completions(s.log), x);
    TracedGrants(s.handlers, h, x, Taken(s.log), Resolved(s.log), Flights(s.log));
    VouchedMoves(s.handlers, h, x, Grants(s.log), Grants(s.log));
    SiftedHolds(s.handlers, h, x, Vets(s.log));
    ScreenedMoves(cfg, s.handlers, Completions(s.log), h, x);
    LawfulNote(Prompt(cfg), s.log, Took(h));
    hide Justified;
    Noted(s.log, Took(h));
    Close(cfg, Note(Goto(s.(idem := s.idem[Key(x.req) := Reservation(cfg, x)]), h, x.phase), Took(h)));
  }

  lemma Screening(cfg: Config, s: State, h: nat)
    requires Inv(cfg, s) && h in s.handlers && !s.handlers[h].phase.Arrived? && !s.handlers[h].phase.Finished?
    ensures Known(s.handlers[h].req) && NUL !in s.handlers[h].req.session
  {
    hide Known, Guarded, Sourced, Traced, Vouched, Sifted, Unspent, Lawful;
  }

  lemma ReserveStep(cfg: Config, s: State, h: nat)
    requires Inv(cfg, s) && h in s.handlers && s.handlers[h].phase.Checked?
    ensures Inv(cfg, DoReserve(cfg, s, h))
  {
    hide Inv, Known, Key, Fingerprint, ReservationTtl;
    var req := s.handlers[h].req;
    Screening(cfg, s, h);
    var live := LiveEntries(s.idem, s.now);
    ExpiryHarmless(cfg, s, live);
    var r := Reserve(s.idem, s.now, s.now, Key(req), Fingerprint(req), ReservationTtl(cfg));
    if Key(req) in live {
      AnswerStep(cfg, s.(idem := live), h, r.1);
    } else {
      GrantStep(cfg, s.(idem := live), h);
    }
  }

  lemma HolderFacts(cfg: Config, s: State, h: nat)
    requires Inv(cfg, s) && h in s.handlers && Holds(s.handlers[h].phase)
    ensures h in Holders(s.handlers) && Holders(s.handlers)[h] == s.handlers[h]
    ensures Prompt(cfg) ==> HolderOk(cfg, s.now, s.idem, s.handlers[h])
    ensures Known(s.handlers[h].req) && NUL !in s.handlers[h].req.session
  {
    Screening(cfg, s, h);
    hide Known, Key, Fingerprint, HolderOk, Prompt, Cached, Sourced, Screened, Traced, Vouched, Sifted, Unspent, Lawful;
    assert h in Holders(s.handlers);
  }

  /** Nothing else for the key is in force or in flight when a holder dispatches. */
  lemma DispatchClear(cfg: Config, s: State, h: nat, past: set<Event>)
    requires Holding(cfg, s.now, s.idem, Holders(s.handlers)) && h in s.handlers && Holds(s.handlers[h].phase)
    requires Traced(s.handlers, Taken(s.log), Resolved(s.log), Flights(s.log)) && past == Flights(s.log)
    ensures forall p :: p in past && SameKey(p.req, s.handlers[h].req) && p.h != h ==> p.h in Resolved(s.log)
  {
    var holders := Holders(s.handlers);
    forall p | p in past && SameKey(p.req, s.handlers[h].req) && p.h != h ensures p.h in Resolved(s.log) {
      assert p.h in Resolved(s.log) || (p.h in holders && holders[p.h].req == p.req);
      assert h in holders && Key(p.req) == Key(holders[h].req);
    }
  }

  lemma DispatchFresh(cfg: Config, s: State, h: nat)
    requires Cached(s.now, s.idem, Holders(s.handlers), Completions(s.log)) && h in Holders(s.handlers)
    requires Since(Holders(s.handlers)[h]) <= s.now
    ensures forall p :: p in Completions(s.log) && SameKey(p.req, Holders(s.handlers)[h].req) ==> s.now > p.until
  {
    hide Fingerprint, Holders, Completions;
    forall p | p in Completions(s.log) && SameKey(p.req, Holders(s.handlers)[h].req) ensures s.now > p.until {
      assert Key(p.req) == Key(Holders(s.handlers)[h].req);
    }
  }

  lemma DispatchUncontested(cfg: Config, s: State, h: nat)
    requires Inv(cfg, s) && Prompt(cfg) && h in s.handlers && Holds(s.handlers[h].phase)
    requires forall e :: e in Flights(s.log) ==> e.h != h
    ensures Uncontested(s.log, s.handlers[h].req, s.now)
  {
    hide Inv, Holding, Cached, Holders, Traced, Vouched, Sifted, Sourced, Screened, Unspent, Lawful, Known, Key;
    hide Completions, Flights, Taken, Resolved;
    Open(cfg, s);
    HolderFacts(cfg, s, h);
    DispatchClear(cfg, s, h, Flights(s.log));
    DispatchFresh(cfg, s, h);
  }

  lemma DispatchJustified(cfg: Config, s: State, h: nat)
    requires Inv(cfg, s) && h in s.handlers && (s.handlers[h].phase.Held? || s.handlers[h].phase.Confirmed?)
    requires s.handlers[h].phase.Held? ==> !NeedsConfirmation(s.handlers[h].req.operation)
    ensures Justified(Prompt(cfg), s.log, Dispatched(h, s.handlers[h].req, s.now))
  {
    hide Inv, Guarded, Sourced, Holders, Traced, Screened, Unspent, Lawful, Known, Wanted, NeedsConfirmation;
    hide Completions, Flights, Grants, Issues, Vets, Taken, Resolved, Uncontested, Prompt;
    var x := s.handlers[h].(phase := Flying(s.handlers[h].phase.since, s.handlers[h].phase.budget, s.now));
    Open(cfg, s);
    TracedFlies(s.handlers, h, x, Taken(s.log), Resolved(s.log), Flights(s.log), s.now);
    SiftedHolds(s.handlers, h, x, Vets(s.log));
    if Prompt(cfg) {
      DispatchUncontested(cfg, s, h);
    }
    assert Clear(Prompt(cfg), s.log, h, x.req, s.now);
  }

  lemma DispatchStep(cfg: Config, s: State, h: nat)
    requires Inv(cfg, s) && h in s.handlers && (s.handlers[h].phase.Held? || s.handlers[h].phase.Confirmed?)
    requires s.handlers[h].phase.Held? ==> !NeedsConfirmation(s.handlers[h].req.operation)
    ensures var p := s.handlers[h].phase;
            Inv(cfg, Note(Goto(s, h, Flying(p.since, p.budget, s.now)), Dispatched(h, s.handlers[h].req, s.now)))
  {
    hide Inv, Guarded, Sourced, Holders, Traced, Vouched, Sifted, Screened, Unspent, Lawful, Known, Wanted;
    hide Completions, Flights, Grants, Issues, Vets, Taken, Resolved, Justified, NeedsConfirmation, Prompt, HolderOk;
    var p := s.handlers[h].phase;
    var x := s.handlers[h].(phase := Flying(p.since, p.budget, s.now));
    var e := Dispatched(h, x.req, s.now);
    Open(cfg, s);
    HolderFacts(cfg, s, h);
    DispatchJustified(cfg, s, h);
    LawfulNote(Prompt(cfg), s.log, e);
    Noted(s.log, e);
    GuardedAdvances(cfg, s.now, s.idem, Holders(s.handlers), Completions(s.log), h, x);
    HolderMoves(s.handlers, h, x);
    TracedFlies(s.handlers, h, x, Taken(s.log), Resolved(s.log), Flights(s.log), s.now);
    VouchedMoves(s.handlers, h, x, Grants(s.log), Grants(s.log));
    SiftedHolds(s.handlers, h, x, Vets(s.log));
    ScreenedMoves(cfg, s.handlers, Completions(s.log), h, x);
    Close(cfg, Note(Goto(s, h, x.phase), e));
  }

  // ----- resolution -----

  lemma ResolveTraces(cfg: Config, s: State, h: nat, e: Event)
    requires Inv(cfg, s) && h in s.handlers && Holds(s.handlers[h].phase)
    requires (e.Completed? || e.Released?) && e.h == h && Justified(Prompt(cfg), s.log, e)
    requires e.Completed? ==> e.req == s.handlers[h].req
    ensures var hs, log := s.handlers[h := s.handlers[h].(phase := Finished)], s.log + [e];
            && Holders(hs) == Holders(s.handlers) - {h}
            && Traced(hs, Taken(log), Resolved(log), Flights(log))
            && Vouched(hs, Grants(log)) && Sifted(hs, Vets(log)) && Screened(cfg, hs, Completions(log))
            && Unspent(s.nonces, s.issued, Issues(log), Grants(log)) && Lawful(Prompt(cfg), log)
            && Completions(log) == (if e.Completed? then Completions(s.log) + {e} else Completions(s.log))
  {
    hide Inv, Guarded, Sourced, Holders, Traced, Vouched, Sifted, Screened, Unspent, Lawful, Known, Wanted;
    hide Completions, Flights, Grants, Issues, Vets, Taken, Resolved, Justified, Prompt, HolderOk;
    var x := s.handlers[h].(phase := Finished);
    Open(cfg, s);
    HolderFacts(cfg, s, h);
    LawfulNote(Prompt(cfg), s.log, e);
    Noted(s.log, e);
    HolderMoves(s.handlers, h, x);
    TracedResolves(s.handlers, h, Taken(s.log), Resolved(s.log), Flights(s.log));
    VouchedMoves(s.handlers, h, x, Grants(s.log), Grants(s.log));
    SiftedHolds(s.handlers, h, x, Vets(s.log));
    ScreenedMoves(cfg, s.handlers, Completions(s.log), h, x);
    if e.Completed? {
      ScreenedCompletes(cfg, s.handlers[h := x], Completions(s.log), e);
    }
  }

  lemma ReleaseJustified(cfg: Config, s: State, h: nat)
    requires Inv(cfg, s) && h in s.handlers && Holds(s.handlers[h].phase)
    ensures Justified(Prompt(cfg), s.log, Released(h))
  {
    hide Inv, Guarded, Sourced, Holders, Traced, Vouched, Sifted, Screened, Unspent, Lawful, Taken, Resolved;
    Open(cfg, s);
    TracedResolves(s.handlers, h, Taken(s.log), Resolved(s.log), Flights(s.log));
  }

  lemma ReleaseStep(cfg: Config, s: State, h: nat)
    requires Inv(cfg, s) && h in s.handlers && Holds(s.handlers[h].phase)
    ensures Inv(cfg, DoRelease(s, h))
  {
    hide Inv, Guarded, Sourced, Holders, Traced, Vouched, Sifted, Screened, Unspent, Lawful, Known, Key, Fingerprint;
    hide Completions, Flights, Grants, Issues, Vets, Taken, Resolved, Justified, Prompt, HolderOk;
    Open(cfg, s);
    HolderFacts(cfg, s, h);
    ReleaseJustified(cfg, s, h);
    ResolveTraces(cfg, s, h, Released(h));
    GuardedReleases(cfg, s.now, s.idem, Holders(s.handlers), Completions(s.log), h);
    SourcedShrinks(s.idem, Completions(s.log), Release(s.idem, Key(s.handlers[h].req)));
    Close(cfg, DoRelease(s, h));
  }

  lemma CompleteJustified(cfg: Config, s: State, h: nat, e: Event)
    requires Inv(cfg, s) && h in s.handlers && s.handlers[h].phase.Flying?
    requires e.Completed? && e.h == h && e.req == s.handlers[h].req
    ensures Justified(Prompt(cfg), s.log, e)
  {
    hide Inv, Guarded, Sourced, Holders, Vouched, Sifted, Screened, Unspent, Lawful, Known, Clear, Acceptable;
    hide Completions, Flights, Grants, Issues, Vets, Taken, Resolved, Prompt;
    Open(cfg, s);
    TracedResolves(s.handlers, h, Taken(s.log), Resolved(s.log), Flights(s.log));
  }

  lemma CompleteStep(cfg: Config, s: State, h: nat, e: Event)
    requires Inv(cfg, s) && h in s.handlers && s.handlers[h].phase.Flying?
    requires e.Completed? && e.h == h && e.req == s.handlers[h].req
    ensures Inv(cfg, Note(Goto(s.(idem := s.idem[Key(e.req) := CachedEntry(e)]), h, Finished), e))
  {
    hide Inv, Guarded, Sourced, Holders, Traced, Vouched, Sifted, Screened, Unspent, Lawful, Known, Key, Fingerprint;
    hide Completions, Flights, Grants, Issues, Vets, Taken, Resolved, CachedEntry, Justified, Prompt, HolderOk;
    Open(cfg, s);
    HolderFacts(cfg, s, h);
    CompleteJustified(cfg, s, h, e);
    ResolveTraces(cfg, s, h, e);
    GuardedCompletes(cfg, s.now, s.idem, Holders(s.handlers), Completions(s.log), h, e);
    SourcedCompletes(s.idem, Completions(s.log), e);
    Close(cfg, Note(Goto(s.(idem := s.idem[Key(e.req) := CachedEntry(e)]), h, Finished), e));
  }

  lemma ResolveStep(cfg: Config, s: State, h: nat, result: MutateResult)
    requires Inv(cfg, s) && h in s.handlers && s.handlers[h].phase.Flying?
    ensures Inv(cfg, DoResolve(cfg, s, h, result))
  {
    hide Inv, Key, Fingerprint;
    if Settled(result) {
      CompleteStep(cfg, s, h, Completed(h, s.handlers[h].req, StatusOf(result), result.body, s.now + cfg.idemTtl));
    } else {
      ReleaseStep(cfg, s, h);
    }
  }

  // ----- confirmations -----

  lemma GrantJustified(prompt: bool, s: State, token: string, actor: Actor, want: Claim)
    requires Unspent(s.nonces, s.issued, Issues(s.log), Grants(s.log)) && Consume(s.nonces, s.now, token, want).1
    ensures Justified(prompt, s.log, Authorised(token, actor, want, s.now))
    ensures Unspent(s.nonces - {token}, s.issued, Issues(s.log),
                    Grants(s.log) + {Authorised(token, actor, want, s.now)})
  {
    hide Issues, Grants;
    assert Issued(token, s.nonces[token]) in Issues(s.log);
  }

  lemma UnspentBurns(nonces: NonceMap, issued: set<string>, issues: set<Event>, grants: set<Event>, token: string)
    requires Unspent(nonces, issued, issues, grants)
    ensures Unspent(nonces - {token}, issued, issues, grants)
  {
  }

  lemma TakeTerminalStep(cfg: Config, s: State, token: string, c: Claim)
    requires Inv(cfg, s) && Enabled(cfg, s, TakeTerminal(token, c))
    ensures Inv(cfg, Apply(cfg, s, TakeTerminal(token, c)))
  {
    hide Inv, Guarded, Sourced, Holders, Traced, Vouched, Sifted, Screened, Unspent, Lawful, Justified, Wanted, Prompt;
    hide Completions, Flights, Grants, Issues, Vets, Taken, Resolved, OPERATIONS;
    Open(cfg, s);
    if Consume(s.nonces, s.now, token, c).1 {
      var e := Authorised(token, Takeover, c, s.now);
      GrantJustified(Prompt(cfg), s, token, Takeover, c);
      LawfulNote(Prompt(cfg), s.log, e);
      Noted(s.log, e);
      VouchedGrows(s.handlers, Grants(s.log), Grants(s.log) + {e});
    } else {
      UnspentBurns(s.nonces, s.issued, Issues(s.log), Grants(s.log), token);
    }
    Close(cfg, Apply(cfg, s, TakeTerminal(token, c)));
  }

  lemma VouchedGrows(hs: map<nat, Handler>, grants: set<Event>, more: set<Event>)
    requires Vouched(hs, grants) && grants <= more
    ensures Vouched(hs, more)
  {
    hide Wanted;
  }

  lemma ConsumeKeeps(cfg: Config, s: State, h: nat, x: Handler)
    requires Inv(cfg, s) && h in s.handlers && s.handlers[h].phase.Held?
    requires x.req == s.handlers[h].req && Since(x) == Since(s.handlers[h]) && (x.phase.Confirmed? || x.phase.Refused?)
    ensures Guarded(cfg, s.now, s.idem, Holders(s.handlers[h := x]), Completions(s.log))
    ensures Traced(s.handlers[h := x], Taken(s.log), Resolved(s.log), Flights(s.log))
    ensures Sifted(s.handlers[h := x], Vets(s.log)) && Screened(cfg, s.handlers[h := x], Completions(s.log))
  {
    hide Inv, Guarded, Sourced, Holders, Traced, Vouched, Sifted, Screened, Unspent, Lawful, Known, HolderOk, Prompt;
    hide Completions, Flights, Grants, Issues, Vets, Taken, Resolved, Since;
    Open(cfg, s);
    HolderFacts(cfg, s, h);
    HolderMoves(s.handlers, h, x);
    GuardedAdvances(cfg, s.now, s.idem, Holders(s.handlers), Completions(s.log), h, x);
    TracedAdvances(s.handlers, h, x, Taken(s.log), Resolved(s.log), Flights(s.log));
    SiftedHolds(s.handlers, h, x, Vets(s.log));
    ScreenedMoves(cfg, s.handlers, Completions(s.log), h, x);
  }

  lemma ConsumeStep(cfg: Config, s: State, h: nat)
    requires Inv(cfg, s) && h in s.handlers && s.handlers[h].phase.Held?
    ensures Inv(cfg, DoConsume(s, h))
  {
    hide Inv, Guarded, Sourced, Holders, Traced, Vouched, Sifted, Screened, Unspent, Lawful, Justified, Wanted, Prompt;
    hide Completions, Flights, Grants, Issues, Vets, Taken, Resolved;
    var req, p := s.handlers[h].req, s.handlers[h].phase;
    var r := Consume(s.nonces, s.now, req.confirmation, Wanted(req));
    var x := s.handlers[h].(phase := if r.1 then Confirmed(p.since, p.budget) else Refused(p.since));
    Open(cfg, s);
    ConsumeKeeps(cfg, s, h, x);
    if r.1 {
      var e := Authorised(req.confirmation, Mutation(h), Wanted(req), s.now);
      GrantJustified(Prompt(cfg), s, req.confirmation, Mutation(h), Wanted(req));
      LawfulNote(Prompt(cfg), s.log, e);
      Noted(s.log, e);
      assert e in Grants(s.log) + {e};
      VouchedMoves(s.handlers, h, x, Grants(s.log), Grants(s.log) + {e});
    } else {
      UnspentBurns(s.nonces, s.issued, Issues(s.log), Grants(s.log), req.confirmation);
      VouchedMoves(s.handlers, h, x, Grants(s.log), Grants(s.log));
    }
    Close(cfg, DoConsume(s, h));
  }

  lemma IssueJustified(prompt: bool, s: State, token: string, n: Nonce)
    requires Unspent(s.nonces, s.issued, Issues(s.log), Grants(s.log))
    requires token !in s.issued && n.claim.resource != ""
    ensures Justified(prompt, s.log, Issued(token, n))
    ensures Unspent(Issue(s.nonces, s.now, token, n), s.issued + {token},
                    Issues(s.log) + {Issued(token, n)}, Grants(s.log))
  {
    hide Issues, Grants;
  }

  lemma ConfirmNames(seen: map<string, nat>, c: Claim, p: Params)
    requires Confirmable(seen, c, p)
    ensures c.resource != ""
  {
    TablesAgree(c.operation);
  }

  lemma ConfirmStep(cfg: Config, s: State, token: string, n: Nonce)
    requires Inv(cfg, s) && token !in s.issued && n.claim.resource != ""
    ensures var s' := s.(nonces := Issue(s.nonces, s.now, token, n), issued := s.issued + {token});
            Inv(cfg, Note(s', Issued(token, n)))
  {
    hide Inv, Guarded, Sourced, Holders, Traced, Vouched, Sifted, Screened, Unspent, Lawful, Justified, Issue;
    hide Completions, Flights, Grants, Issues, Vets, Taken, Resolved;
    Open(cfg, s);
    IssueJustified(Prompt(cfg), s, token, n);
    LawfulNote(Prompt(cfg), s.log, Issued(token, n));
    Noted(s.log, Issued(token, n));
    Close(cfg, Note(s.(nonces := Issue(s.nonces, s.now, token, n), issued := s.issued + {token}), Issued(token, n)));
  }

  // ----- every action -----

  lemma StepInv(cfg: Config, s: State, a: Action)
    requires Inv(cfg, s) && Enabled(cfg, s, a)
    ensures Inv(cfg, Apply(cfg, s, a))
  {
    hide Inv, OPERATIONS, CONFIRMABLE, Known, Key, Fingerprint, Wanted, Acceptable, Confirmable, DoPeek, DoReserve;
    hide DoConsume, DoRelease, DoResolve, Issue, Consume, Budget;
    match a
    case Tick(to) => TickStep(cfg, s, to);
    case SetGenerations(g) => GuardStep(cfg, s, g);
    case Confirm(token, c, p, read, seen) =>
      ConfirmNames(seen, c, p);
      ConfirmStep(cfg, s, token, Nonce(c, read + cfg.confirmTtl));
    case TakeTerminal(token, c) => TakeTerminalStep(cfg, s, token, c);
    case Arrive(h, req) => QuietMove(cfg, s, h, Handler(req, Arrived));
    case PeekKey(h) => PeekStep(cfg, s, h);
    case Check(h) => CheckStep(cfg, s, h);
    case ReserveKey(h) => ReserveStep(cfg, s, h);
    case ConsumeToken(h) => ConsumeStep(cfg, s, h);
    case Dispatch(h) => DispatchStep(cfg, s, h);
    case Resolve(h, result) => ResolveStep(cfg, s, h, result);
    case GiveBack(h) => ReleaseStep(cfg, s, h);
  }

  lemma GuardStep(cfg: Config, s: State, gens: map<string, nat>)
    requires Inv(cfg, s)
    ensures Inv(cfg, s.(gens := gens))
  {
    hide Guarded, Sourced, Holders, Traced, Vouched, Sifted, Screened, Unspent, Lawful;
  }

  lemma {:induction false} RunInv(cfg: Config, states: seq<State>, actions: seq<Action>, i: nat)
    requires cfg.deadline > 0 && IsRun(cfg, states, actions) && i < |states|
    ensures Inv(cfg, states[i])
  {
    hide Inv;
    if i == 0 {
      StartInv(cfg, states[0].now, states[0].gens);
    } else {
      RunInv(cfg, states, actions, i - 1);
      StepInv(cfg, states[i - 1], actions[i - 1]);
    }
  }

  lemma EmptyParts(cfg: Config, now: Time)
    ensures Guarded(cfg, now, map[], map[], {}) && Sourced(map[], {}) && Traced(map[], {}, {}, {})
    ensures Vouched(map[], {}) && Sifted(map[], {}) && Screened(cfg, map[], {}) && Unspent(map[], {}, {}, {})
    ensures Lawful(Prompt(cfg), [])
  {
    hide OPERATIONS, Known, Wanted, Key, Fingerprint, Justified, HolderOk, CachedEntry, Prompt;
    assert Holders(map[]) == map[];
  }

  lemma StartInv(cfg: Config, now: Time, gens: map<string, nat>)
    requires cfg.deadline > 0
    ensures Inv(cfg, Start(now, gens))
  {
    assert Completions([]) == {} && Flights([]) == {} && Grants([]) == {} && Issues([]) == {} && Vets([]) == {};
    assert Taken([]) == {} && Resolved([]) == {} && Holders(map[]) == map[];
    hide Completions, Flights, Grants, Issues, Vets, Taken, Resolved, Holders;
    hide Inv, Guarded, Sourced, Traced, Vouched, Sifted, Screened, Unspent, Lawful;
    EmptyParts(cfg, now);
    Close(cfg, Start(now, gens));
  }
}
