/** What the mutation protocol guarantees over whole runs, whatever the interleaving. */
module MutationTheorems {
  import opened Prelude
  import opened Encoding
  import opened Operations
  import opened Stores
  import opened MutationProtocol
  import opened MutationSafety
  import opened MutationSteps

  /** The history of a run at any point, with every event justified by those before it. */
  lemma HistoryIsLawful(cfg: Config, states: seq<State>, actions: seq<Action>, i: nat, j: nat)
    requires cfg.deadline > 0 && IsRun(cfg, states, actions) && i < |states| && j < |states[i].log|
    ensures Justified(Prompt(cfg), states[i].log[..j], states[i].log[j])
  {
    hide Justified, Guarded, Sourced, Traced, Vouched, Sifted, Screened, Unspent;
    RunInv(cfg, states, actions, i);
  }

  /** Two handlers never hold, let alone run, the same session and request id. */
  lemma OneInFlight(cfg: Config, states: seq<State>, actions: seq<Action>, i: nat, h: nat, k: nat)
    requires cfg.deadline > 0 && Prompt(cfg) && IsRun(cfg, states, actions) && i < |states|
    requires h in states[i].handlers && k in states[i].handlers && h != k
    requires Holds(states[i].handlers[h].phase) && Holds(states[i].handlers[k].phase)
    ensures !SameKey(states[i].handlers[h].req, states[i].handlers[k].req)
  {
    RunInv(cfg, states, actions, i);
    var s := states[i];
    hide Inv, Cached, Sourced, Traced, Vouched, Sifted, Screened, Unspent, Lawful, IsRun, Fingerprint, HolderOk, Prompt;
    Open(cfg, s);
    HolderFacts(cfg, s, h);
    HolderFacts(cfg, s, k);
    HoldersDiffer(cfg, s.now, s.idem, Holders(s.handlers), h);
  }

  /** While a handler holds its key, the store has its reservation and no response. */
  lemma HeldKeyIsReserved(cfg: Config, states: seq<State>, actions: seq<Action>, i: nat, h: nat)
    requires cfg.deadline > 0 && Prompt(cfg) && IsRun(cfg, states, actions) && i < |states|
    requires h in states[i].handlers && Holds(states[i].handlers[h].phase)
    ensures var s, req := states[i], states[i].handlers[h].req;
            Key(req) in s.idem && s.idem[Key(req)].pending && s.idem[Key(req)].fingerprint == Fingerprint(req)
            && s.now <= s.idem[Key(req)].expiresAt
  {
    RunInv(cfg, states, actions, i);
    hide Inv, IsRun, Key, Fingerprint, ReservationTtl, Prompt;
    HolderFacts(cfg, states[i], h);
  }

  ghost predicate Resolves(e: Event, h: nat) { (e.Completed? || e.Released?) && e.h == h }

  /**
    * A retry never repeats a mutation: between two dispatches for one session and
    * request id the first was resolved, and if that cached a response the second
    * started only after the response had expired.
    */
  lemma RetryNeverRepeats(cfg: Config, states: seq<State>, actions: seq<Action>, i: nat, a: nat, b: nat)
    requires cfg.deadline > 0 && Prompt(cfg) && IsRun(cfg, states, actions) && i < |states|
    requires a < b < |states[i].log| && states[i].log[a].Dispatched? && states[i].log[b].Dispatched?
    requires SameKey(states[i].log[a].req, states[i].log[b].req)
    ensures var log := states[i].log;
            && log[a].h != log[b].h
            && (exists c :: a < c < b && Resolves(log[c], log[a].h))
            && (forall c :: 0 <= c < b && log[c].Completed? && SameKey(log[c].req, log[b].req) ==>
                  log[b].at > log[c].until)
  {
    HistoryIsLawful(cfg, states, actions, i, a);
    HistoryIsLawful(cfg, states, actions, i, b);
    hide IsRun, NeedsConfirmation, Wanted;
    var log := states[i].log;
    PastHas(log, a, b);
    assert log[a] in Flights(log[..b]);
    var c := ResolvedBetween(log, a, b, log[a].h);
    forall c | 0 <= c < b && log[c].Completed? && SameKey(log[c].req, log[b].req) ensures log[b].at > log[c].until {
      PastHas(log, c, b);
      assert log[c] in Completions(log[..b]);
    }
  }

  lemma PastHas(log: seq<Event>, a: nat, b: nat)
    requires a < b <= |log|
    ensures log[a] in log[..b]
  {
    assert log[..b][a] == log[a];
  }

  /** What was unresolved before `a` and is resolved before `b` was resolved between them. */
  lemma ResolvedBetween(log: seq<Event>, a: nat, b: nat, h: nat) returns (c: nat)
    requires a < b <= |log| && h !in Resolved(log[..a]) && h in Resolved(log[..b]) && !Resolves(log[a], h)
    ensures a < c < b && Resolves(log[c], h)
  {
    ResolvedMeans(log[..a], h);
    ResolvedMeans(log[..b], h);
    c :| 0 <= c < b && Resolves(log[..b][c], h);
    assert forall d :: 0 <= d < a ==> log[..a][d] == log[d];
  }

  lemma ResolvedMeans(log: seq<Event>, h: nat)
    ensures h in Resolved(log) <==> exists c :: 0 <= c < |log| && Resolves(log[c], h)
  {
    if h in Resolved(log) {
      var e :| e in log && (e.Completed? || e.Released?) && e.h == h;
      var c :| 0 <= c < |log| && log[c] == e;
      assert Resolves(log[c], h);
    }
  }

  lemma TakenMeans(hs: map<nat, Handler>, taken: set<nat>, resolved: set<nat>, flights: set<Event>, h: nat)
    requires Traced(hs, taken, resolved, flights) && h in taken
    ensures h in resolved <==> !(h in hs && Holds(hs[h].phase))
  {
  }

  lemma NoSecondResolution(prompt: bool, log: seq<Event>, c: nat, d: nat, h: nat)
    requires Lawful(prompt, log) && c < d < |log| && Resolves(log[c], h)
    ensures !Resolves(log[d], h)
  {
    assert log[..d][c] == log[c];
    ResolvedMeans(log[..d], h);
    assert Justified(prompt, log[..d], log[d]);
  }

  /** A reservation is resolved at most once, and until it is, its handler still holds it. */
  lemma ResolvedExactlyOnce(cfg: Config, states: seq<State>, actions: seq<Action>, i: nat, h: nat)
    requires cfg.deadline > 0 && IsRun(cfg, states, actions) && i < |states| && Took(h) in states[i].log
    ensures var log := states[i].log;
            && ((exists c :: 0 <= c < |log| && Resolves(log[c], h)) <==>
                  !(h in states[i].handlers && Holds(states[i].handlers[h].phase)))
            && (forall c, d :: 0 <= c < d < |log| && Resolves(log[c], h) ==> !Resolves(log[d], h))
  {
    RunInv(cfg, states, actions, i);
    var s, log := states[i], states[i].log;
    assert h in Taken(log);
    hide IsRun, Inv, Guarded, Sourced, Traced, Vouched, Sifted, Screened, Unspent, Lawful, Resolved, Taken, Flights;
    Open(cfg, s);
    TakenMeans(s.handlers, Taken(log), Resolved(log), Flights(log), h);
    ResolvedMeans(log, h);
    forall c, d | 0 <= c < d < |log| && Resolves(log[c], h) ensures !Resolves(log[d], h) {
      NoSecondResolution(Prompt(cfg), log, c, d, h);
    }
  }

  /** The confirmation behind a grant: issued before, for exactly this claim, unexpired. */
  lemma GrantWasIssued(prompt: bool, log: seq<Event>, c: nat)
    requires c < |log| && log[c].Authorised? && Justified(prompt, log[..c], log[c])
    ensures exists a :: 0 <= a < c && log[a].Issued? && log[a].token == log[c].token
              && log[a].nonce.claim == log[c].claim && log[c].claim.resource != ""
              && log[c].at <= log[a].nonce.expiresAt
  {
    var past := log[..c];
    var e := log[c];
    var n :| Issued(e.token, n) in Issues(past) && n.claim == e.claim && e.claim.resource != "" && e.at <= n.expiresAt;
    var a :| 0 <= a < |past| && past[a] == Issued(log[c].token, n);
    assert log[a] == past[a];
  }

  /** A terminal takeover goes ahead only on a confirmation issued for that pane, generation and session. */
  lemma TakeoverIsConfirmed(cfg: Config, states: seq<State>, actions: seq<Action>, i: nat, token: string, claim: Claim)
    requires cfg.deadline > 0 && IsRun(cfg, states, actions) && i < |actions|
    requires actions[i] == TakeTerminal(token, claim)
    ensures var log := states[i].log;
            states[i + 1].log != log ==>
              && states[i + 1].log == log + [Authorised(token, Takeover, claim, states[i].now)]
              && claim.operation == TAKEOVER && claim.resource != "" && claim.generation != 0
              && exists a :: 0 <= a < |log| && log[a].Issued? && log[a].token == token
                   && log[a].nonce.claim == claim && states[i].now <= log[a].nonce.expiresAt
  {
    var log, next := states[i].log, states[i + 1].log;
    if next != log {
      assert next == log + [Authorised(token, Takeover, claim, states[i].now)];
      HistoryIsLawful(cfg, states, actions, i + 1, |log|);
      hide IsRun;
      assert next[..|log|] == log;
      GrantWasIssued(Prompt(cfg), next, |log|);
      hide Justified;
      var a :| 0 <= a < |log| && next[a].Issued? && next[a].token == token
                && next[a].nonce.claim == claim && claim.resource != "" && states[i].now <= next[a].nonce.expiresAt;
      assert log[a] == next[a];
    }
  }

  /**
    * Every destructive dispatch was granted by a confirmation issued earlier for
    * that very operation, resource, generation, session and parameters, unexpired.
    */
  lemma DestructiveIsConfirmed(cfg: Config, states: seq<State>, actions: seq<Action>, i: nat, b: nat)
    requires cfg.deadline > 0 && IsRun(cfg, states, actions) && i < |states| && b < |states[i].log|
    requires states[i].log[b].Dispatched? && IsDestructive(states[i].log[b].req)
    ensures var log := states[i].log;
            exists a, c :: 0 <= a < c < b && log[a].Issued? && log[c].Authorised?
              && log[a].token == log[c].token == log[b].req.confirmation && log[c].actor == Mutation(log[b].h)
              && log[a].nonce.claim == log[c].claim && Describes(log[c].claim, log[b].req)
              && log[c].at <= log[a].nonce.expiresAt
  {
    HistoryIsLawful(cfg, states, actions, i, b);
    var log := states[i].log;
    assert NeedsConfirmation(log[b].req.operation);
    hide NeedsConfirmation, Wanted;
    var t :| Authorised(log[b].req.confirmation, Mutation(log[b].h), Wanted(log[b].req), t) in Grants(log[..b]);
    var c :|
      0 <= c < b && log[..b][c] == Authorised(log[b].req.confirmation, Mutation(log[b].h), Wanted(log[b].req), t);
    assert log[c] == log[..b][c];
    HistoryIsLawful(cfg, states, actions, i, c);
    hide IsRun;
    GrantWasIssued(Prompt(cfg), log, c);
    hide Justified;
    var a :| 0 <= a < c && log[a].Issued? && log[a].token == log[c].token
              && log[a].nonce.claim == log[c].claim && log[c].claim.resource != ""
              && log[c].at <= log[a].nonce.expiresAt;
    WantedDescribes(log[b].req);
  }

  predicate IsDestructive(r: Request) { r.operation in OPERATIONS && OPERATIONS[r.operation].confirm }

  /** The claim names the request's operation, the resource in its parameters, its generation, session and content. */
  predicate Describes(c: Claim, r: Request) {
    && c.operation == r.operation && c.generation == r.generation && c.session == r.session
    && c.params == Sha256(r.params.text) && r.operation in OPERATIONS
    && var field := OPERATIONS[r.operation].resourceField;
       field in r.params.fields && c.resource == r.params.fields[field] != ""
  }

  lemma WantedDescribes(r: Request)
    requires r.operation in OPERATIONS && Wanted(r).resource != ""
    ensures Describes(Wanted(r), r)
  {
    hide OPERATIONS;
  }

  /** What a request must show of itself against the guard map. */
  ghost predicate Admissible(gens: map<string, nat>, r: Request) {
    && r.operation in OPERATIONS && r.requestId != ""
    && var spec := OPERATIONS[r.operation];
       var resource := if spec.resourceField in r.params.fields then r.params.fields[spec.resourceField] else "";
       && (spec.altField != "" && spec.altField in r.params.fields && r.params.fields[spec.altField] != "" ==>
             r.params.fields[spec.altField] == if spec.resourceField == "" then "" else resource)
       && (spec.confirm ==> r.confirmation != "")
       && (spec.resourceField == "pane_id" ==>
             r.generation != 0 && resource in gens && gens[resource] == r.generation)
  }

  lemma AcceptableMeans(gens: map<string, nat>, r: Request)
    ensures Acceptable(gens, r) <==> Admissible(gens, r)
  {
    hide OPERATIONS;
  }

  /**
    * Every dispatch was validated against the guard map of that moment: an allowlisted
    * operation, no second identifier for another resource, a confirmation where one
    * is due, and on a pane a nonzero generation equal to the pane's own.
    */
  lemma DispatchWasVetted(cfg: Config, states: seq<State>, actions: seq<Action>, i: nat, b: nat)
    requires cfg.deadline > 0 && IsRun(cfg, states, actions) && i < |states| && b < |states[i].log|
    requires states[i].log[b].Dispatched?
    ensures var log := states[i].log;
            exists a :: 0 <= a < b && log[a].Vetted? && log[a].h == log[b].h && log[a].req == log[b].req
              && Admissible(log[a].gens, log[b].req)
  {
    hide Acceptable, Admissible, NeedsConfirmation, Wanted;
    HistoryIsLawful(cfg, states, actions, i, b);
    var log := states[i].log;
    var g :| Vetted(log[b].h, log[b].req, g) in Vets(log[..b]);
    var a :| 0 <= a < b && log[..b][a] == Vetted(log[b].h, log[b].req, g);
    assert log[a] == log[..b][a];
    HistoryIsLawful(cfg, states, actions, i, a);
    AcceptableMeans(g, log[b].req);
  }

  /** And nothing else is refused: a request that shows as much, with time left, goes on to reserve its key. */
  lemma AdmissibleIsAdmitted(cfg: Config, s: State, h: nat)
    requires cfg.deadline > 0 && Enabled(cfg, s, Check(h))
    ensures var req, t := s.handlers[h].req, Apply(cfg, s, Check(h));
            var left := req.deadline - s.now - cfg.skew;
            && h in t.handlers
            && (Admissible(s.gens, req) && (req.deadline > 0 ==> left > 0) ==>
                  t.handlers[h].phase
                  == Checked(if req.deadline > 0 && left < cfg.deadline then left else cfg.deadline))
            && (!(Admissible(s.gens, req) && (req.deadline > 0 ==> left > 0)) ==> t.handlers[h].phase == Finished)
  {
    hide Acceptable, Admissible;
    AcceptableMeans(s.gens, s.handlers[h].req);
  }

  /** A token grants once: never two dispatches, two takeovers, or one of each. */
  lemma TokenGrantsOnce(cfg: Config, states: seq<State>, actions: seq<Action>, i: nat, c: nat, d: nat)
    requires cfg.deadline > 0 && IsRun(cfg, states, actions) && i < |states| && c < d < |states[i].log|
    requires states[i].log[c].Authorised? && states[i].log[d].Authorised?
    ensures states[i].log[c].token != states[i].log[d].token
  {
    HistoryIsLawful(cfg, states, actions, i, d);
    hide IsRun;
    var log := states[i].log;
    assert log[c] in log[..d] by { assert log[..d][c] == log[c]; }
    assert log[c] in Grants(log[..d]);
  }

  lemma FlightsDiffer(cfg: Config, states: seq<State>, actions: seq<Action>, i: nat, a: nat, b: nat)
    requires cfg.deadline > 0 && IsRun(cfg, states, actions) && i < |states| && a < b < |states[i].log|
    requires states[i].log[a].Dispatched? && states[i].log[b].Dispatched?
    ensures states[i].log[a].h != states[i].log[b].h
  {
    HistoryIsLawful(cfg, states, actions, i, b);
    hide IsRun, NeedsConfirmation, Wanted;
    var log := states[i].log;
    assert log[a] in log[..b] by { assert log[..b][a] == log[a]; }
    assert log[a] in Flights(log[..b]);
  }

  /** Two destructive dispatches never share a confirmation. */
  lemma ConfirmationDispatchesOnce(cfg: Config, states: seq<State>, actions: seq<Action>, i: nat, a: nat, b: nat)
    requires cfg.deadline > 0 && IsRun(cfg, states, actions) && i < |states| && a < b < |states[i].log|
    requires states[i].log[a].Dispatched? && IsDestructive(states[i].log[a].req)
    requires states[i].log[b].Dispatched? && IsDestructive(states[i].log[b].req)
    ensures states[i].log[a].req.confirmation != states[i].log[b].req.confirmation
  {
    hide NeedsConfirmation, Wanted, IsRun, OPERATIONS;
    FlightsDiffer(cfg, states, actions, i, a, b);
    var c := GrantBehind(cfg, states, actions, i, a);
    var d := GrantBehind(cfg, states, actions, i, b);
    if c < d {
      TokenGrantsOnce(cfg, states, actions, i, c, d);
    } else if d < c {
      TokenGrantsOnce(cfg, states, actions, i, d, c);
    }
  }

  lemma GrantBehind(cfg: Config, states: seq<State>, actions: seq<Action>, i: nat, b: nat) returns (c: nat)
    requires cfg.deadline > 0 && IsRun(cfg, states, actions) && i < |states| && b < |states[i].log|
    requires states[i].log[b].Dispatched? && IsDestructive(states[i].log[b].req)
    ensures var log := states[i].log;
            c < b && log[c].Authorised? && log[c].token == log[b].req.confirmation && log[c].actor == Mutation(log[b].h)
  {
    hide Wanted, IsRun, OPERATIONS, Describes;
    DestructiveIsConfirmed(cfg, states, actions, i, b);
    var log := states[i].log;
    var a: nat;
    a, c :| 0 <= a < c < b && log[a].Issued? && log[c].Authorised?
            && log[c].token == log[b].req.confirmation && log[c].actor == Mutation(log[b].h);
  }

  /**
    * Replay fidelity: a replayed response was produced by an earlier dispatch of
    * the same session, request id, operation, generation and parameters, and was
    * still within its lifetime.
    */
  lemma ReplayFidelity(cfg: Config, states: seq<State>, actions: seq<Action>, i: nat, b: nat)
    requires cfg.deadline > 0 && IsRun(cfg, states, actions) && i < |states| && b < |states[i].log|
    requires states[i].log[b].Replayed?
    ensures var log := states[i].log;
            exists a, c :: 0 <= a < c < b && log[a].Dispatched? && log[c].Completed? && log[a].h == log[c].h
              && log[a].req == log[c].req && SameRequest(log[c].req, log[b].req)
              && log[c].status == log[b].status && log[c].body == log[b].body && log[b].at <= log[c].until
  {
    hide IsRun, SameRequest, NeedsConfirmation, Wanted;
    HistoryIsLawful(cfg, states, actions, i, b);
    var log := states[i].log;
    var e := log[b];
    var h, r, until :|
      Completed(h, r, e.status, e.body, until) in Completions(log[..b]) && SameRequest(r, e.req) && e.at <= until;
    var c :| 0 <= c < b && log[..b][c] == Completed(h, r, e.status, e.body, until);
    assert log[c] == log[..b][c];
    HistoryIsLawful(cfg, states, actions, i, c);
    var a := DispatchBehind(Prompt(cfg), log, c);
  }

  /** The dispatch that a completion ends. */
  lemma DispatchBehind(prompt: bool, log: seq<Event>, c: nat) returns (a: nat)
    requires c < |log| && log[c].Completed? && Justified(prompt, log[..c], log[c])
    ensures a < c && log[a].Dispatched? && log[a].h == log[c].h && log[a].req == log[c].req
  {
    var t :| Dispatched(log[c].h, log[c].req, t) in Flights(log[..c]);
    a :| 0 <= a < c && log[..c][a] == Dispatched(log[c].h, log[c].req, t);
    assert log[a] == log[..c][a];
  }

  /**
    * What exclusion rests on: a second request for a reserved key, whatever its
    * payload, is turned away exactly until the reservation expires, and an owner
    * that is later still releases its successor's key.
    */
  lemma ExclusionLastsAsLongAsTheReservation(
    m: IdemMap, t: Time, t': Time, key: string, fp: Digest, fp': Digest, ttl: int)
    requires Reserve(m, t, t, key, fp, ttl).1 == Reserved && t <= t'
    ensures var held := Reserve(m, t, t, key, fp, ttl).0;
            var next := Reserve(held, t', t', key, fp', ttl);
            && (next.1 == Reserved <==> t' > t + ttl)
            && (next.1 != Reserved ==> next.1 == if fp' == fp then InFlight else Mismatch)
            && (next.1 == Reserved ==> key !in Release(next.0, key))
  {
  }
}
