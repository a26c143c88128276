/** What every step of the mutation protocol keeps. */
module MutationSafety {
  import opened Prelude
  import opened Encoding
  import opened Operations
  import opened Stores
  import opened MutationProtocol

  // ----- history -----

  ghost function Completions(log: seq<Event>): (r: set<Event>)
    ensures forall e :: e in r ==> e.Completed?
  {
    set e | e in log && e.Completed?
  }

  ghost function Flights(log: seq<Event>): (r: set<Event>)
    ensures forall e :: e in r ==> e.Dispatched?
  {
    set e | e in log && e.Dispatched?
  }

  ghost function Grants(log: seq<Event>): (r: set<Event>)
    ensures forall e :: e in r ==> e.Authorised?
  {
    set e | e in log && e.Authorised?
  }

  ghost function Issues(log: seq<Event>): (r: set<Event>)
    ensures forall e :: e in r ==> e.Issued?
  {
    set e | e in log && e.Issued?
  }

  ghost function Vets(log: seq<Event>): (r: set<Event>)
    ensures forall e :: e in r ==> e.Vetted?
  {
    set e | e in log && e.Vetted?
  }

  ghost function Taken(log: seq<Event>): set<nat> { set e | e in log && e.Took? :: e.h }
  ghost function Resolved(log: seq<Event>): set<nat> { set e | e in log && (e.Completed? || e.Released?) :: e.h }

  /** What one more event adds. */
  lemma Noted(log: seq<Event>, e: Event)
    ensures var log' := log + [e];
            && Completions(log') == (if e.Completed? then Completions(log) + {e} else Completions(log))
            && Flights(log') == (if e.Dispatched? then Flights(log) + {e} else Flights(log))
            && Grants(log') == (if e.Authorised? then Grants(log) + {e} else Grants(log))
            && Issues(log') == (if e.Issued? then Issues(log) + {e} else Issues(log))
            && Vets(log') == (if e.Vetted? then Vets(log) + {e} else Vets(log))
            && Taken(log') == (if e.Took? then Taken(log) + {e.h} else Taken(log))
            && Resolved(log') == (if e.Completed? || e.Released? then Resolved(log) + {e.h} else Resolved(log))
  {
    assert forall x :: x in log + [e] <==> x in log || x == e;
  }

  /** The same request, whenever sent: session, id, operation, generation and parameters. */
  predicate SameRequest(a: Request, b: Request) {
    && SameKey(a, b)
    && a.operation == b.operation && a.generation == b.generation && a.params.text == b.params.text
  }

  predicate SameKey(a: Request, b: Request) { a.session == b.session && a.requestId == b.requestId }

  /** What an event needs of the events before it, when handlers are prompt and when not. */
  ghost predicate Justified(prompt: bool, past: seq<Event>, e: Event) {
    match e
    case Issued(token, n) => n.claim.resource != "" && forall p :: p in Issues(past) ==> p.token != token
    case Authorised(token, _, claim, at) =>
      && (exists n :: Issued(token, n) in Issues(past) && n.claim == claim && claim.resource != "" && at <= n.expiresAt)
      && (forall p :: p in Grants(past) ==> p.token != token)
    case Vetted(_, req, gens) => Acceptable(gens, req)
    case Took(h) => h !in Taken(past)
    case Dispatched(h, req, at) => h in Taken(past) && h !in Resolved(past) && Clear(prompt, past, h, req, at)
    case Completed(h, req, _, _, _) => h !in Resolved(past) && exists t :: Dispatched(h, req, t) in Flights(past)
    case Released(h) => h in Taken(past) && h !in Resolved(past)
    case Replayed(_, req, status, body, at) =>
      exists h, r, until ::
        Completed(h, r, status, body, until) in Completions(past) && SameRequest(r, req) && at <= until
  }

  /**
    * A dispatch was vetted, is confirmed if it must be, and is its handler's only
    * one. Among prompt handlers nothing for its key is in force or in flight.
    */
  ghost predicate Clear(prompt: bool, past: seq<Event>, h: nat, req: Request, at: Time) {
    && (exists g :: Vetted(h, req, g) in Vets(past))
    && (NeedsConfirmation(req.operation) ==>
          exists t :: Authorised(req.confirmation, Mutation(h), Wanted(req), t) in Grants(past))
    && (forall p :: p in Flights(past) ==> p.h != h)
    && (prompt ==> Uncontested(past, req, at))
  }

  ghost predicate Uncontested(past: seq<Event>, req: Request, at: Time) {
    && (forall p :: p in Flights(past) && SameKey(p.req, req) ==> p.h in Resolved(past))
    && (forall p :: p in Completions(past) && SameKey(p.req, req) ==> at > p.until)
  }

  ghost predicate Lawful(prompt: bool, log: seq<Event>) {
    forall j :: 0 <= j < |log| ==> Justified(prompt, log[..j], log[j])
  }

  lemma LawfulNote(prompt: bool, log: seq<Event>, e: Event)
    requires Lawful(prompt, log) && Justified(prompt, log, e)
    ensures Lawful(prompt, log + [e])
  {
    hide Justified;
    var log' := log + [e];
    forall j | 0 <= j < |log'| ensures Justified(prompt, log'[..j], log'[j]) {
      assert log'[..j] == log[..j];
    }
    assert log[..|log|] == log;
  }

  // ----- state and history -----

  ghost function Holders(hs: map<nat, Handler>): (r: map<nat, Handler>)
    ensures forall h :: h in r ==> Holds(r[h].phase)
  {
    map h | h in hs && Holds(hs[h].phase) :: hs[h]
  }

  function Since(x: Handler): Time { if Holds(x.phase) then x.phase.since else 0 }

  /** Holders own a live pending entry each, on distinct keys, and are within their time. */
  ghost predicate Holding(cfg: Config, now: Time, idem: IdemMap, holders: map<nat, Handler>) {
    && (forall h :: h in holders ==> Holds(holders[h].phase) && HolderOk(cfg, now, idem, holders[h]))
    && (forall h, k :: h in holders && k in holders && h != k ==> Key(holders[h].req) != Key(holders[k].req))
  }

  predicate HolderOk(cfg: Config, now: Time, idem: IdemMap, x: Handler)
    requires Holds(x.phase)
  {
    && Key(x.req) in idem && idem[Key(x.req)] == Reservation(cfg, x)
    && x.phase.since <= now <= x.phase.since + ReservationTtl(cfg)
  }

  function Reservation(cfg: Config, x: Handler): Entry
    requires Holds(x.phase)
  {
    Entry(true, 0, "", x.phase.since + ReservationTtl(cfg), Fingerprint(x.req))
  }

  /** Every cached response is some completion's. */
  ghost predicate Sourced(idem: IdemMap, done: set<Event>) {
    forall k :: k in idem && !idem[k].pending ==>
      exists e :: e in done && e.Completed? && Key(e.req) == k && idem[k] == CachedEntry(e)
  }

  /** Every completion still in force is cached, and none of them is for a held key. */
  ghost predicate Cached(now: Time, idem: IdemMap, holders: map<nat, Handler>, done: set<Event>) {
    && (forall e :: e in done && e.Completed? ==>
          now > e.until || (Key(e.req) in idem && idem[Key(e.req)] == CachedEntry(e)))
    && (forall h, e :: h in holders && e in done && e.Completed? && Key(e.req) == Key(holders[h].req) ==>
          Since(holders[h]) > e.until)
  }

  /** What the store guards, as long as handlers are prompt. */
  ghost predicate Guarded(cfg: Config, now: Time, idem: IdemMap, holders: map<nat, Handler>, done: set<Event>) {
    Prompt(cfg) ==> Holding(cfg, now, idem, holders) && Cached(now, idem, holders, done)
  }

  function CachedEntry(e: Event): Entry
    requires e.Completed?
  {
    Entry(false, e.status, e.body, e.until, Fingerprint(e.req))
  }

  /** Each phase has left exactly its traces. */
  ghost predicate Traced(hs: map<nat, Handler>, taken: set<nat>, resolved: set<nat>, flights: set<Event>)
  {
    && taken == Holders(hs).Keys + resolved
    && (forall h :: h in resolved ==> h in hs && hs[h].phase == Finished)
    && (forall e :: e in flights && e.Dispatched? ==>
          e.h in hs && e.req == hs[e.h].req && (hs[e.h].phase.Flying? || e.h in resolved))
    && (forall h :: h in hs && hs[h].phase.Flying? ==> exists t :: Dispatched(h, hs[h].req, t) in flights)
  }

  ghost predicate Vouched(hs: map<nat, Handler>, grants: set<Event>) {
    forall h :: h in hs && hs[h].phase.Confirmed? ==>
      exists t :: Authorised(hs[h].req.confirmation, Mutation(h), Wanted(hs[h].req), t) in grants
  }

  /** Handlers past validation were validated. */
  ghost predicate Sifted(hs: map<nat, Handler>, vets: set<Event>) {
    forall h :: h in hs && (hs[h].phase.Checked? || Holds(hs[h].phase)) ==> exists g :: Vetted(h, hs[h].req, g) in vets
  }

  lemma SiftedMoves(hs: map<nat, Handler>, h: nat, x: Handler, vets: set<Event>)
    requires Sifted(hs, vets)
    requires x.phase.Checked? || Holds(x.phase) ==> exists g :: Vetted(h, x.req, g) in vets
    ensures Sifted(hs[h := x], vets)
  {
  }

  lemma SiftedGrows(hs: map<nat, Handler>, vets: set<Event>, more: set<Event>)
    requires Sifted(hs, vets) && vets <= more
    ensures Sifted(hs, more)
  {
  }

  /** Requests past the first checks have separable keys and fingerprints, and bounded budgets. */
  ghost predicate Screened(cfg: Config, hs: map<nat, Handler>, done: set<Event>)
  {
    && (forall h :: h in hs ==> NUL !in hs[h].req.session)
    && (forall h :: h in hs && !hs[h].phase.Arrived? && !hs[h].phase.Finished? ==> Known(hs[h].req))
    && (forall h :: h in hs && hs[h].phase.Checked? ==> 0 < hs[h].phase.budget <= cfg.deadline)
    && (forall e :: e in done && e.Completed? ==> NUL !in e.req.session && Known(e.req))
  }

  /** Live nonces were issued and never used. */
  ghost predicate Unspent(nonces: NonceMap, issued: set<string>, issues: set<Event>, grants: set<Event>)
  {
    && (forall t :: t in nonces ==> t in issued && Issued(t, nonces[t]) in issues && nonces[t].claim.resource != "")
    && (forall e :: e in issues && e.Issued? ==> e.token in issued)
    && (forall e :: e in grants && e.Authorised? ==> e.token in issued && e.token !in nonces)
  }

  ghost predicate Inv(cfg: Config, s: State) {
    && cfg.deadline > 0
    && Guarded(cfg, s.now, s.idem, Holders(s.handlers), Completions(s.log))
    && Sourced(s.idem, Completions(s.log))
    && Traced(s.handlers, Taken(s.log), Resolved(s.log), Flights(s.log))
    && Vouched(s.handlers, Grants(s.log))
    && Sifted(s.handlers, Vets(s.log))
    && Screened(cfg, s.handlers, Completions(s.log))
    && Unspent(s.nonces, s.issued, Issues(s.log), Grants(s.log))
    && Lawful(Prompt(cfg), s.log)
  }

  lemma Open(cfg: Config, s: State)
    requires Inv(cfg, s)
    ensures cfg.deadline > 0
    ensures Guarded(cfg, s.now, s.idem, Holders(s.handlers), Completions(s.log))
    ensures Sourced(s.idem, Completions(s.log))
    ensures Traced(s.handlers, Taken(s.log), Resolved(s.log), Flights(s.log))
    ensures Vouched(s.handlers, Grants(s.log))
    ensures Sifted(s.handlers, Vets(s.log))
    ensures Screened(cfg, s.handlers, Completions(s.log))
    ensures Unspent(s.nonces, s.issued, Issues(s.log), Grants(s.log))
    ensures Lawful(Prompt(cfg), s.log)
  {
  }

  lemma HolderMoves(hs: map<nat, Handler>, h: nat, x: Handler)
    ensures Holders(hs[h := x]) == if Holds(x.phase) then Holders(hs)[h := x] else Holders(hs) - {h}
  {
  }

  lemma HoldersStay(hs: map<nat, Handler>, h: nat, x: Handler)
    requires !Holds(x.phase) && (h in hs ==> !Holds(hs[h].phase))
    ensures Holders(hs[h := x]) == Holders(hs) && h !in Holders(hs)
  {
  }

  // ----- holders and cache, one change at a time -----

  lemma GuardedTicks(cfg: Config, now: Time, to: Time, idem: IdemMap, holders: map<nat, Handler>, done: set<Event>)
    requires Guarded(cfg, now, idem, holders, done) && now <= to
    requires forall h :: h in holders && Holds(holders[h].phase) ==> to <= holders[h].phase.since + cfg.patience
    ensures Guarded(cfg, to, idem, holders, done)
  {
    hide Key, Fingerprint, ReservationTtl;
    if Prompt(cfg) {
      forall h | h in holders ensures Holds(holders[h].phase) && HolderOk(cfg, to, idem, holders[h]) {
        assert HolderOk(cfg, now, idem, holders[h]);
      }
    }
  }

  /** Collecting expired entries takes nothing from a prompt holder. */
  lemma HoldingExpires(cfg: Config, now: Time, idem: IdemMap, holders: map<nat, Handler>, live: IdemMap)
    requires Holding(cfg, now, idem, holders)
    requires forall k :: k in idem && now <= idem[k].expiresAt ==> k in live && live[k] == idem[k]
    ensures Holding(cfg, now, live, holders)
  {
    hide ReservationTtl, Key, Fingerprint;
    forall h | h in holders ensures HolderOk(cfg, now, live, holders[h]) {
      assert HolderOk(cfg, now, idem, holders[h]);
    }
  }

  lemma CachedExpires(now: Time, idem: IdemMap, holders: map<nat, Handler>, done: set<Event>, live: IdemMap)
    requires Cached(now, idem, holders, done)
    requires forall k :: k in idem && now <= idem[k].expiresAt ==> k in live && live[k] == idem[k]
    ensures Cached(now, live, holders, done)
  {
    hide Key, Fingerprint;
    forall e | e in done && e.Completed? && now <= e.until
      ensures Key(e.req) in live && live[Key(e.req)] == CachedEntry(e)
    {
      assert idem[Key(e.req)].expiresAt == e.until;
    }
  }

  lemma SourcedShrinks(idem: IdemMap, done: set<Event>, live: IdemMap)
    requires Sourced(idem, done) && forall k :: k in live ==> k in idem && live[k] == idem[k]
    ensures Sourced(live, done)
  {
    hide Key, CachedEntry;
  }

  /** A key without an entry goes to a new holder. */
  lemma HoldingGrants(cfg: Config, now: Time, idem: IdemMap, holders: map<nat, Handler>, h: nat, x: Handler)
    requires Holding(cfg, now, idem, holders)
    requires x.phase.Held? && x.phase.since == now && Key(x.req) !in idem
    ensures Holding(cfg, now, idem[Key(x.req) := Reservation(cfg, x)], holders[h := x])
  {
    ReservationOutlasts(cfg);
    hide Key, Fingerprint, ReservationTtl;
    var idem' := idem[Key(x.req) := Reservation(cfg, x)];
    var holders' := holders[h := x];
    forall k | k in holders' ensures Holds(holders'[k].phase) && HolderOk(cfg, now, idem', holders'[k]) {
      if k != h {
        assert HolderOk(cfg, now, idem, holders[k]);
      }
    }
    assert forall k :: k in holders ==> HolderOk(cfg, now, idem, holders[k]) && Key(holders[k].req) in idem;
  }

  lemma CachedGrants(
    cfg: Config, now: Time, idem: IdemMap, holders: map<nat, Handler>, done: set<Event>, h: nat, x: Handler)
    requires Cached(now, idem, holders, done)
    requires x.phase.Held? && x.phase.since == now && Key(x.req) !in idem
    ensures Cached(now, idem[Key(x.req) := Reservation(cfg, x)], holders[h := x], done)
  {
    hide Key, Fingerprint;
  }

  lemma GuardedGrants(
    cfg: Config, now: Time, idem: IdemMap, holders: map<nat, Handler>, done: set<Event>, h: nat, x: Handler)
    requires Guarded(cfg, now, idem, holders, done)
    requires x.phase.Held? && x.phase.since == now && Key(x.req) !in idem
    ensures Guarded(cfg, now, idem[Key(x.req) := Reservation(cfg, x)], holders[h := x], done)
  {
    hide Holding, Cached, Key, Reservation;
    if Prompt(cfg) {
      HoldingGrants(cfg, now, idem, holders, h, x);
      CachedGrants(cfg, now, idem, holders, done, h, x);
    }
  }

  lemma SourcedGrants(cfg: Config, idem: IdemMap, done: set<Event>, x: Handler)
    requires Sourced(idem, done) && Holds(x.phase)
    ensures Sourced(idem[Key(x.req) := Reservation(cfg, x)], done)
  {
    hide Key, CachedEntry, Fingerprint;
  }

  /** A holder changes phase but keeps its reservation. */
  lemma GuardedAdvances(
    cfg: Config, now: Time, idem: IdemMap, holders: map<nat, Handler>, done: set<Event>, h: nat, x: Handler)
    requires Guarded(cfg, now, idem, holders, done) && h in holders && Holds(holders[h].phase)
    requires Holds(x.phase) && x.req == holders[h].req && Since(x) == Since(holders[h])
    ensures Guarded(cfg, now, idem, holders[h := x], done)
  {
    hide Key, Fingerprint, ReservationTtl;
    if Prompt(cfg) {
      assert HolderOk(cfg, now, idem, holders[h]);
      hide HolderOk, Since;
    }
  }

  /** A holder leaves, and only its own key may change. */
  lemma HoldingLeaves(cfg: Config, now: Time, idem: IdemMap, holders: map<nat, Handler>, h: nat, idem': IdemMap)
    requires Holding(cfg, now, idem, holders) && h in holders
    requires forall k :: k in idem && k != Key(holders[h].req) ==> k in idem' && idem'[k] == idem[k]
    ensures Holding(cfg, now, idem', holders - {h})
  {
    hide Key, Fingerprint;
    forall k | k in holders - {h} ensures HolderOk(cfg, now, idem', holders[k]) {
      assert HolderOk(cfg, now, idem, holders[k]);
    }
  }

  lemma CachedReleases(now: Time, idem: IdemMap, holders: map<nat, Handler>, done: set<Event>, h: nat)
    requires Cached(now, idem, holders, done) && h in holders && Since(holders[h]) <= now
    ensures Cached(now, idem - {Key(holders[h].req)}, holders - {h}, done)
  {
    hide Key, Fingerprint, Since;
  }

  /** A prompt holder's release drops its own entry. */
  lemma GuardedReleases(cfg: Config, now: Time, idem: IdemMap, holders: map<nat, Handler>, done: set<Event>, h: nat)
    requires Guarded(cfg, now, idem, holders, done) && h in holders && Holds(holders[h].phase)
    ensures Guarded(cfg, now, Release(idem, Key(holders[h].req)), holders - {h}, done)
  {
    hide Cached, Key, Fingerprint, ReservationTtl;
    if Prompt(cfg) {
      var key := Key(holders[h].req);
      assert HolderOk(cfg, now, idem, holders[h]);
      assert Release(idem, key) == idem - {key};
      hide HolderOk, Holding;
      HoldingLeaves(cfg, now, idem, holders, h, idem - {key});
      CachedReleases(now, idem, holders, done, h);
    }
  }

  lemma CachedCompletes(now: Time, idem: IdemMap, holders: map<nat, Handler>, done: set<Event>, h: nat, e: Event)
    requires Cached(now, idem, holders, done) && h in holders && Since(holders[h]) <= now
    requires e.Completed? && e.req == holders[h].req
    requires forall k :: k in holders && k != h ==> Key(holders[k].req) != Key(holders[h].req)
    ensures Cached(now, idem[Key(e.req) := CachedEntry(e)], holders - {h}, done + {e})
  {
    hide Key, Fingerprint, Since;
  }

  lemma HoldersDiffer(cfg: Config, now: Time, idem: IdemMap, holders: map<nat, Handler>, h: nat)
    requires Holding(cfg, now, idem, holders) && h in holders && Holds(holders[h].phase)
    ensures Since(holders[h]) <= now
    ensures forall k :: k in holders && k != h ==> Key(holders[k].req) != Key(holders[h].req)
  {
    hide Key, Fingerprint;
    assert HolderOk(cfg, now, idem, holders[h]);
  }

  lemma GuardedCompletes(
    cfg: Config, now: Time, idem: IdemMap, holders: map<nat, Handler>, done: set<Event>, h: nat, e: Event)
    requires Guarded(cfg, now, idem, holders, done) && h in holders && Holds(holders[h].phase)
    requires e.Completed? && e.req == holders[h].req
    ensures Guarded(cfg, now, idem[Key(e.req) := CachedEntry(e)], holders - {h}, done + {e})
  {
    hide Holding, Cached, Key, Fingerprint, CachedEntry, Since;
    if Prompt(cfg) {
      HoldingLeaves(cfg, now, idem, holders, h, idem[Key(e.req) := CachedEntry(e)]);
      HoldersDiffer(cfg, now, idem, holders, h);
      CachedCompletes(now, idem, holders, done, h, e);
    }
  }

  lemma SourcedCompletes(idem: IdemMap, done: set<Event>, e: Event)
    requires Sourced(idem, done) && e.Completed?
    ensures Sourced(idem[Key(e.req) := CachedEntry(e)], done + {e})
  {
    hide Key, CachedEntry;
    assert e in done + {e};
  }

  // ----- traces, one change at a time -----

  lemma TracedQuiet(hs: map<nat, Handler>, h: nat, x: Handler, taken: set<nat>, resolved: set<nat>, flights: set<Event>)
    requires Traced(hs, taken, resolved, flights) && !Holds(x.phase)
    requires h in hs ==> !Holds(hs[h].phase) && hs[h].phase != Finished && x.req == hs[h].req
    ensures Traced(hs[h := x], taken, resolved, flights)
  {
    HoldersStay(hs, h, x);
    hide Holders;
  }

  lemma TracedGrants(
    hs: map<nat, Handler>, h: nat, x: Handler, taken: set<nat>, resolved: set<nat>, flights: set<Event>)
    requires Traced(hs, taken, resolved, flights) && h in hs && !Holds(hs[h].phase) && hs[h].phase != Finished
    requires x.phase.Held? && x.req == hs[h].req
    ensures h !in taken && Traced(hs[h := x], taken + {h}, resolved, flights)
  {
    HolderMoves(hs, h, x);
    assert h !in Holders(hs) && h !in resolved;
    hide Holders;
  }

  lemma TracedAdvances(
    hs: map<nat, Handler>, h: nat, x: Handler, taken: set<nat>, resolved: set<nat>, flights: set<Event>)
    requires Traced(hs, taken, resolved, flights) && h in hs && Holds(hs[h].phase) && !hs[h].phase.Flying?
    requires Holds(x.phase) && !x.phase.Flying? && x.req == hs[h].req
    ensures Traced(hs[h := x], taken, resolved, flights)
  {
    HolderMoves(hs, h, x);
    assert h in Holders(hs) && h !in resolved;
    hide Holders;
  }

  lemma TracedFlies(
    hs: map<nat, Handler>, h: nat, x: Handler, taken: set<nat>, resolved: set<nat>, flights: set<Event>, at: Time)
    requires Traced(hs, taken, resolved, flights) && h in hs && Holds(hs[h].phase) && !hs[h].phase.Flying?
    requires x.phase.Flying? && x.req == hs[h].req
    ensures h in taken && h !in resolved
    ensures forall e :: e in flights && e.Dispatched? ==> e.h != h
    ensures Traced(hs[h := x], taken, resolved, flights + {Dispatched(h, x.req, at)})
  {
    HolderMoves(hs, h, x);
    assert h in Holders(hs) && h !in resolved;
    hide Holders;
    var e := Dispatched(h, x.req, at);
    assert e in flights + {e};
  }

  lemma TracedResolves(hs: map<nat, Handler>, h: nat, taken: set<nat>, resolved: set<nat>, flights: set<Event>)
    requires Traced(hs, taken, resolved, flights) && h in hs && Holds(hs[h].phase)
    ensures h in taken && h !in resolved
    ensures Traced(hs[h := hs[h].(phase := Finished)], taken, resolved + {h}, flights)
  {
    HolderMoves(hs, h, hs[h].(phase := Finished));
    assert h in Holders(hs) && h !in resolved;
    hide Holders;
  }

  lemma VouchedMoves(hs: map<nat, Handler>, h: nat, x: Handler, grants: set<Event>, more: set<Event>)
    requires Vouched(hs, grants) && grants <= more
    requires x.phase.Confirmed? ==> exists t :: Authorised(x.req.confirmation, Mutation(h), Wanted(x.req), t) in more
    ensures Vouched(hs[h := x], more)
  {
    hide Wanted;
  }

  lemma ScreenedMoves(cfg: Config, hs: map<nat, Handler>, done: set<Event>, h: nat, x: Handler)
    requires Screened(cfg, hs, done) && NUL !in x.req.session
    requires x.phase.Arrived? || x.phase.Finished? || Known(x.req)
    requires x.phase.Checked? ==> 0 < x.phase.budget <= cfg.deadline
    ensures Screened(cfg, hs[h := x], done)
  {
    hide Known;
  }

  lemma ScreenedCompletes(cfg: Config, hs: map<nat, Handler>, done: set<Event>, e: Event)
    requires Screened(cfg, hs, done) && e.Completed? && NUL !in e.req.session && Known(e.req)
    ensures Screened(cfg, hs, done + {e})
  {
    hide Known;
  }

  /** The completion behind a cached entry. */
  lemma CompletionBehind(idem: IdemMap, done: set<Event>, k: string) returns (e: Event)
    requires Sourced(idem, done) && k in idem && !idem[k].pending
    ensures e in done && e.Completed? && Key(e.req) == k && idem[k] == CachedEntry(e)
  {
    e :| e in done && e.Completed? && Key(e.req) == k && idem[k] == CachedEntry(e);
  }

  predicate Answers(s: State, r: Request) {
    && Key(r) in s.idem && !s.idem[Key(r)].pending && s.idem[Key(r)].fingerprint == Fingerprint(r)
    && s.now <= s.idem[Key(r)].expiresAt
  }

  /** A cached answer is the completion of the same request, still in force. */
  lemma ReplayJustified(cfg: Config, s: State, h: nat)
    requires Inv(cfg, s) && h in s.handlers && Known(s.handlers[h].req) && Answers(s, s.handlers[h].req)
    ensures var r, e := s.handlers[h].req, s.idem[Key(s.handlers[h].req)];
            Justified(Prompt(cfg), s.log, Replayed(h, r, e.status, e.body, s.now))
  {
    hide Holders, Guarded, Sourced, Traced, Vouched, Sifted, Unspent, Lawful, Known, Key, Fingerprint, Completions;
    var r := s.handlers[h].req;
    var e := CompletionBehind(s.idem, Completions(s.log), Key(r));
    SameRequestFound(r, e.req);
    hide Screened, Inv, SameRequest;
    assert Completed(e.h, e.req, e.status, e.body, e.until) in Completions(s.log)
        && SameRequest(e.req, r) && s.now <= e.until;
  }

  /** Equal keys and fingerprints mean equal requests. */
  lemma SameRequestFound(a: Request, b: Request)
    requires Known(a) && Known(b) && NUL !in a.session && NUL !in b.session
    requires Key(a) == Key(b) && Fingerprint(a) == Fingerprint(b)
    ensures SameRequest(a, b) && SameRequest(b, a)
  {
    OperationNamesArePlain(a.operation);
    OperationNamesArePlain(b.operation);
    IdemKeyInjective(a.session, a.requestId, b.session, b.requestId);
    RequestFingerprintInjective(a.operation, a.generation, a.params.text, b.operation, b.generation, b.params.text);
  }
}
