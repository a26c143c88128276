/**
  * The mutation endpoint as a protocol: any number of handlers, confirmations
  * and takeovers, each critical section one step, interleaved in every order.
  */
module MutationProtocol {
  import opened Prelude
  import opened Encoding
  import opened Operations
  import opened Stores

  /** Request parameters: their normalised text and their top-level string fields. */
  datatype Params = Params(text: string, fields: map<string, string>)

  function Field(p: Params, name: string): string { if name in p.fields then p.fields[name] else "" }

  predicate DivergentAlt(p: Params, alt: string, canonical: string) {
    alt != "" && Field(p, alt) != "" && Field(p, alt) != canonical
  }

  datatype Request = Request(
    session: string, requestId: string, operation: string, generation: nat,
    confirmation: string, deadline: Time, params: Params)

  function Key(r: Request): string { IdemKey(r.session, r.requestId) }
  function Fingerprint(r: Request): Digest { RequestFingerprint(r.operation, r.generation, r.params.text) }

  function Resource(r: Request): string {
    if r.operation in OPERATIONS && OPERATIONS[r.operation].resourceField != ""
    then Field(r.params, OPERATIONS[r.operation].resourceField) else ""
  }

  /** What a mutation's confirmation must have been issued for. */
  function Wanted(r: Request): Claim {
    Claim(r.operation, Resource(r), r.generation, r.session, HashParams(r.params.text))
  }

  /**
    * `deadline` is the longest any dispatch may run. `patience` is no setting of the
    * server: it bounds how long a handler of the run may hold a key.
    */
  datatype Config = Config(deadline: Time, skew: int, idemTtl: int, confirmTtl: int, patience: int)

  const HALF_MINUTE: int := 30_000_000_000

  function ReservationTtl(cfg: Config): int {
    if 2 * cfg.deadline < HALF_MINUTE then HALF_MINUTE else 2 * cfg.deadline
  }

  /** No handler outlives its reservation. */
  predicate Prompt(cfg: Config) { cfg.patience <= ReservationTtl(cfg) }

  /** Time granted to a dispatch: the server's cap or the client's remainder; none means reject. */
  function Budget(cfg: Config, deadline: Time, now: Time): int {
    if deadline <= 0 then cfg.deadline
    else
      var left := deadline - now - cfg.skew;
      if left < cfg.deadline then left else cfg.deadline
  }

  datatype Phase =
    | Arrived
    | Peeked
    | Checked(budget: int)
    | Held(since: Time, budget: int)
    | Confirmed(since: Time, budget: int)
    | Refused(since: Time)
    | Flying(since: Time, budget: int, started: Time)
    | Finished

  predicate Holds(p: Phase) { p.Held? || p.Confirmed? || p.Refused? || p.Flying? }

  datatype Handler = Handler(req: Request, phase: Phase)

  datatype Actor = Mutation(h: nat) | Takeover

  datatype Event =
    | Issued(token: string, nonce: Nonce)
    | Authorised(token: string, actor: Actor, claim: Claim, at: Time)
    | Vetted(h: nat, req: Request, gens: map<string, nat>)
    | Took(h: nat)
    | Dispatched(h: nat, req: Request, at: Time)
    | Completed(h: nat, req: Request, status: int, body: string, until: Time)
    | Released(h: nat)
    | Replayed(h: nat, req: Request, status: int, body: string, at: Time)

  /** `issued` and `log` record history; `gens` is the pane guard map other code maintains. */
  datatype State = State(
    now: Time, nonces: NonceMap, idem: IdemMap, handlers: map<nat, Handler>,
    gens: map<string, nat>, issued: set<string>, log: seq<Event>)

  datatype MutateResult = Ok(body: string) | Failed(status: int, body: string, retryable: bool)

  /** Only a settled outcome is cached; a retryable failure gives the key back. */
  predicate Settled(r: MutateResult) { r.Ok? || !r.retryable }
  function StatusOf(r: MutateResult): int { if r.Ok? then 200 else r.status }

  /** `seen` is the guard map when a confirmation was checked, which is before it is issued. */
  datatype Action =
    | Tick(to: Time)
    | SetGenerations(gens: map<string, nat>)
    | Confirm(token: string, claim: Claim, params: Params, read: Time, seen: map<string, nat>)
    | TakeTerminal(token: string, claim: Claim)
    | Arrive(h: nat, req: Request)
    | PeekKey(h: nat)
    | Check(h: nat)
    | ReserveKey(h: nat)
    | ConsumeToken(h: nat)
    | Dispatch(h: nat)
    | Resolve(h: nat, result: MutateResult)
    | GiveBack(h: nat)

  predicate GenerationOk(gens: map<string, nat>, resource: string, generation: nat) {
    resource in gens && gens[resource] == generation
  }

  /** Everything validated before the key is reserved. */
  predicate Acceptable(gens: map<string, nat>, r: Request) {
    Known(r) && Passes(gens, r, OPERATIONS[r.operation])
  }

  predicate Known(r: Request) { r.operation in OPERATIONS && r.requestId != "" }

  predicate Passes(gens: map<string, nat>, r: Request, spec: OpSpec) {
    && !DivergentAlt(r.params, spec.altField, Resource(r))
    && (spec.confirm ==> r.confirmation != "")
    && (spec.resourceField == "pane_id" ==> r.generation != 0 && GenerationOk(gens, Resource(r), r.generation))
  }

  predicate Confirmable(gens: map<string, nat>, c: Claim, p: Params) {
    c.operation in CONFIRMABLE && c.params == HashParams(p.text) && Matches(gens, c, p, CONFIRMABLE[c.operation])
  }

  predicate Matches(gens: map<string, nat>, c: Claim, p: Params, spec: ConfirmSpec) {
    && (spec.resourceField != "" ==> c.resource != "" && Field(p, spec.resourceField) in ["", c.resource])
    && !DivergentAlt(p, spec.altField, c.resource)
    && (spec.resourceField == "pane_id" ==> GenerationOk(gens, c.resource, c.generation))
  }

  predicate InPhase(s: State, h: nat, f: Phase -> bool) { h in s.handlers && f(s.handlers[h].phase) }

  predicate Enabled(cfg: Config, s: State, a: Action) {
    match a
    case Tick(to) =>
      && s.now <= to
      && forall h :: h in s.handlers && Holds(s.handlers[h].phase) ==> to <= s.handlers[h].phase.since + cfg.patience
    case SetGenerations(_) => true
    case Confirm(token, c, p, read, seen) =>
      token !in s.issued && token != "" && read <= s.now && Confirmable(seen, c, p)
    case TakeTerminal(token, c) =>
      token != "" && c.operation == TAKEOVER && c.generation != 0 && c.params == HashParams("{}")
    case Arrive(h, req) => h !in s.handlers && NUL !in req.session
    case PeekKey(h) => InPhase(s, h, (p: Phase) => p.Arrived?)
    case Check(h) => InPhase(s, h, (p: Phase) => p.Peeked?)
    case ReserveKey(h) => InPhase(s, h, (p: Phase) => p.Checked?)
    case ConsumeToken(h) => InPhase(s, h, (p: Phase) => p.Held?) && NeedsConfirmation(s.handlers[h].req.operation)
    case Dispatch(h) =>
      || InPhase(s, h, (p: Phase) => p.Confirmed?)
      || (InPhase(s, h, (p: Phase) => p.Held?) && !NeedsConfirmation(s.handlers[h].req.operation))
    case Resolve(h, _) => InPhase(s, h, (p: Phase) => p.Flying?)
    case GiveBack(h) => InPhase(s, h, Holds)
  }

  function Goto(s: State, h: nat, p: Phase): State
    requires h in s.handlers
  {
    s.(handlers := s.handlers[h := s.handlers[h].(phase := p)])
  }

  function Note(s: State, e: Event): State { s.(log := s.log + [e]) }

  /** An answer from the store that ends the handler. */
  function Answer(s: State, h: nat, r: IdemResult): State
    requires h in s.handlers
  {
    var done := Goto(s, h, Finished);
    if r.Replay? then Note(done, Replayed(h, s.handlers[h].req, r.entry.status, r.entry.body, s.now)) else done
  }

  function DoPeek(s: State, h: nat): State
    requires h in s.handlers
  {
    var req := s.handlers[h].req;
    if !Known(req) then Goto(s, h, Finished)
    else
      var r := Peek(s.idem, s.now, Key(req), Fingerprint(req));
      var s := s.(idem := r.0);
      if r.1 == Miss then Goto(s, h, Peeked) else Answer(s, h, r.1)
  }

  function DoReserve(cfg: Config, s: State, h: nat): State
    requires h in s.handlers && s.handlers[h].phase.Checked?
  {
    var req := s.handlers[h].req;
    var r := Reserve(s.idem, s.now, s.now, Key(req), Fingerprint(req), ReservationTtl(cfg));
    var s := s.(idem := r.0);
    if r.1 == Reserved then Note(Goto(s, h, Held(s.now, s.handlers[h].phase.budget)), Took(h))
    else Answer(s, h, r.1)
  }

  function DoConsume(s: State, h: nat): State
    requires h in s.handlers && s.handlers[h].phase.Held?
  {
    var req, p := s.handlers[h].req, s.handlers[h].phase;
    var r := Consume(s.nonces, s.now, req.confirmation, Wanted(req));
    var s := s.(nonces := r.0);
    if r.1 then
      Note(Goto(s, h, Confirmed(p.since, p.budget)), Authorised(req.confirmation, Mutation(h), Wanted(req), s.now))
    else Goto(s, h, Refused(p.since))
  }

  function DoRelease(s: State, h: nat): State
    requires h in s.handlers
  {
    Note(Goto(s.(idem := Release(s.idem, Key(s.handlers[h].req))), h, Finished), Released(h))
  }

  function DoResolve(cfg: Config, s: State, h: nat, result: MutateResult): State
    requires h in s.handlers
  {
    var req := s.handlers[h].req;
    if Settled(result) then
      var idem := Complete(s.idem, s.now, Key(req), Fingerprint(req), StatusOf(result), result.body, cfg.idemTtl);
      Note(Goto(s.(idem := idem), h, Finished), Completed(h, req, StatusOf(result), result.body, s.now + cfg.idemTtl))
    else DoRelease(s, h)
  }

  function Apply(cfg: Config, s: State, a: Action): State
    requires Enabled(cfg, s, a)
  {
    match a
    case Tick(to) => s.(now := to)
    case SetGenerations(g) => s.(gens := g)
    case Confirm(token, c, _, read, _) =>
      var n := Nonce(c, read + cfg.confirmTtl);
      Note(s.(nonces := Issue(s.nonces, s.now, token, n), issued := s.issued + {token}), Issued(token, n))
    case TakeTerminal(token, c) =>
      var r := Consume(s.nonces, s.now, token, c);
      var s := s.(nonces := r.0);
      if r.1 then Note(s, Authorised(token, Takeover, c, s.now)) else s
    case Arrive(h, req) => s.(handlers := s.handlers[h := Handler(req, Arrived)])
    case PeekKey(h) => DoPeek(s, h)
    case Check(h) =>
      var req := s.handlers[h].req;
      var b := Budget(cfg, req.deadline, s.now);
      if Acceptable(s.gens, req) && b > 0 then Goto(Note(s, Vetted(h, req, s.gens)), h, Checked(b))
      else Goto(s, h, Finished)
    case ReserveKey(h) => DoReserve(cfg, s, h)
    case ConsumeToken(h) => DoConsume(s, h)
    case Dispatch(h) =>
      var p := s.handlers[h].phase;
      Note(Goto(s, h, Flying(p.since, p.budget, s.now)), Dispatched(h, s.handlers[h].req, s.now))
    case Resolve(h, result) => DoResolve(cfg, s, h, result)
    case GiveBack(h) => DoRelease(s, h)
  }

  function Start(now: Time, gens: map<string, nat>): State { State(now, map[], map[], map[], gens, {}, []) }

  /** Any schedule of enabled actions from an empty server. */
  ghost predicate IsRun(cfg: Config, states: seq<State>, actions: seq<Action>) {
    && |states| == |actions| + 1 && states[0] == Start(states[0].now, states[0].gens)
    && forall i :: 0 <= i < |actions| ==>
         Enabled(cfg, states[i], actions[i]) && states[i + 1] == Apply(cfg, states[i], actions[i])
  }

  /** A reservation outlasts twice the longest dispatch, and half a minute. */
  lemma ReservationOutlasts(cfg: Config)
    ensures ReservationTtl(cfg) >= 2 * cfg.deadline && ReservationTtl(cfg) >= 30_000_000_000
    ensures ReservationTtl(cfg) == 2 * cfg.deadline || ReservationTtl(cfg) == 30_000_000_000
  {
  }

  /** A dispatch gets the most time that exceeds neither the server's cap nor the client's deadline less the skew. */
  lemma BudgetIsTheSmaller(cfg: Config, deadline: Time, now: Time)
    ensures var b := Budget(cfg, deadline, now);
            && b <= cfg.deadline && (deadline > 0 ==> now + b <= deadline - cfg.skew)
            && (b == cfg.deadline || (deadline > 0 && now + b == deadline - cfg.skew))
  {
  }
}
