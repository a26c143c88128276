/** Operator sessions: absolute and idle expiry, lookup by cookie and by identity. */
module SessionStore {
  import opened Prelude
  import opened Order

  datatype Identity = Identity(email: string, commonName: string, quick: bool)

  datatype Session = Session(
    id: string, auditId: string, csrf: string, identity: Identity, createdAt: Time, expiresAt: Time, lastSeen: Time)

  /** An idle limit of zero disables idle expiry. */
  datatype Config = Config(ttl: int, idle: int)

  type Sessions = map<string, Session>

  /** The reuse key of an identity; empty means not reusable. */
  function Subject(i: Identity): string {
    if i.quick then "" else if i.email != "" then i.email else i.commonName
  }

  predicate Expired(cfg: Config, s: Session, now: Time) {
    now >= s.expiresAt || (cfg.idle > 0 && now - s.lastSeen > cfg.idle)
  }

  function Live(cfg: Config, m: Sessions, now: Time): Sessions { map k | k in m && !Expired(cfg, m[k], now) :: m[k] }

  function Touch(m: Sessions, id: string, now: Time): Sessions
    requires id in m
  {
    m[id := m[id].(lastSeen := now)]
  }

  /** The earlier of the configured lifetime and the identity's own expiry. */
  function Expiry(cfg: Config, now: Time, hard: Option<Time>): (t: Time)
    ensures t <= now + cfg.ttl && (hard.Some? ==> t <= hard.value)
    ensures t == now + cfg.ttl || hard == Some(t)
  {
    if hard.Some? && hard.value < now + cfg.ttl then hard.value else now + cfg.ttl
  }

  function Get(cfg: Config, m: Sessions, id: string, now: Time): (Sessions, Option<Session>) {
    if id == "" || id !in m then (m, None)
    else if Expired(cfg, m[id], now) then (m - {id}, None)
    else (Touch(m, id, now), Some(Touch(m, id, now)[id]))
  }

  /** Later creation wins, then the larger id. */
  predicate Beats(a: Session, b: Session) {
    a.createdAt > b.createdAt || (a.createdAt == b.createdAt && !StringLeq(a.id, b.id))
  }

  /** The session an identity is handed back: no live session of its subject beats it. */
  ghost predicate IsBest(m: Sessions, subject: string, id: string) {
    && id in m && Subject(m[id].identity) == subject
    && forall k :: k in m && Subject(m[k].identity) == subject ==> !Beats(m[k], m[id])
  }

  ghost predicate Named(m: Sessions) { forall k :: k in m ==> m[k].id == k }

  /** What a lookup by identity must do: reap exactly the expired, touch and return the best, if any. */
  ghost predicate Reuses(cfg: Config, m: Sessions, who: Identity, now: Time, m': Sessions, r: Option<Session>) {
    if Subject(who) == "" then m' == m && r == None
    else
      var live := Live(cfg, m, now);
      if r == None then m' == live && forall k :: k in live ==> Subject(live[k].identity) != Subject(who)
      else IsBest(live, Subject(who), r.value.id) && m' == Touch(live, r.value.id, now) && r.value == m'[r.value.id]
  }

  class Store {
    var sessions: Sessions
    const cfg: Config

    constructor (cfg: Config)
      ensures sessions == map[] && this.cfg == cfg
    {
      this.cfg, sessions := cfg, map[];
    }

    /** `sid`, `csrf` and `auditId` are fresh randomness. */
    method Create(sid: string, csrf: string, auditId: string, who: Identity, hard: Option<Time>, now: Time)
      returns (s: Session)
      modifies this
      ensures s == Session(sid, auditId, csrf, who, now, Expiry(cfg, now, hard), now)
      ensures sessions == old(sessions)[sid := s]
    {
      var expires := now + cfg.ttl;
      if hard.Some? && hard.value < expires {
        expires := hard.value;
      }
      s := Session(sid, auditId, csrf, who, now, expires, now);
      sessions := sessions[sid := s];
    }

    method Lookup(id: string, now: Time) returns (r: Option<Session>)
      modifies this
      ensures (sessions, r) == Get(cfg, old(sessions), id, now)
    {
      if id == "" {
        return None;
      }
      if id !in sessions {
        return None;
      }
      var s := sessions[id];
      if Expired(cfg, s, now) {
        sessions := sessions - {id};
        return None;
      }
      sessions := sessions[id := s.(lastSeen := now)];
      return Some(sessions[id]);
    }

    /** Visits sessions in any order, deleting as it goes. */
    method LookupByIdentity(who: Identity, now: Time) returns (r: Option<Session>)
      requires Named(sessions)
      modifies this
      ensures Named(sessions) && Reuses(cfg, old(sessions), who, now, sessions, r)
    {
      hide Subject, Beats, Expired;
      var key := Subject(who);
      if key == "" {
        return None;
      }
      ghost var before := sessions;
      var todo := sessions.Keys;
      var best: Option<string> := None;
      while todo != {}
        invariant todo <= sessions.Keys <= before.Keys
        invariant forall k :: k in sessions ==> sessions[k] == before[k]
        invariant forall k :: k in before && k !in todo ==> (k in sessions <==> !Expired(cfg, before[k], now))
        invariant BestAmong(sessions, todo, key, best)
        decreases |todo|
      {
        var sid :| sid in todo;
        assert todo - {sid} + {sid} == todo;
        todo := todo - {sid};
        var s := sessions[sid];
        if Expired(cfg, s, now) {
          sessions := sessions - {sid};
        } else if Subject(s.identity) == key {
          StillBest(sessions, todo, key, sid, best);
          if best == None || Beats(s, sessions[best.value]) {
            best := Some(sid);
          }
        }
      }
      assert sessions == Live(cfg, before, now);
      if best == None {
        return None;
      }
      sessions := sessions[best.value := sessions[best.value].(lastSeen := now)];
      return Some(sessions[best.value]);
    }

    method Delete(id: string)
      modifies this
      ensures sessions == old(sessions) - {id}
    {
      sessions := sessions - {id};
    }

    method Gc(now: Time) returns (n: nat)
      modifies this
      ensures sessions == Live(cfg, old(sessions), now) && n == |old(sessions)| - |sessions|
    {
      ghost var before := sessions;
      n := 0;
      var todo := sessions.Keys;
      while todo != {}
        invariant todo <= sessions.Keys <= before.Keys && n == |before| - |sessions|
        invariant forall k :: k in sessions ==> sessions[k] == before[k]
        invariant forall k :: k in before && k !in todo ==> (k in sessions <==> !Expired(cfg, before[k], now))
        decreases |todo|
      {
        var id :| id in todo;
        if Expired(cfg, sessions[id], now) {
          assert (sessions - {id}).Keys == sessions.Keys - {id};
          assert |sessions - {id}| == |sessions| - 1;
          sessions := sessions - {id};
          n := n + 1;
        }
        todo := todo - {id};
      }
      assert sessions == Live(cfg, before, now);
    }
  }

  /** Beating is a strict order, so the loop's running best is right in any visiting order. */
  lemma BeatsOrders(a: Session, b: Session, c: Session)
    ensures !Beats(a, a)
    ensures !Beats(a, b) && Beats(c, b) ==> !Beats(a, c)
  {
    StringTotal(a.id, a.id);
    StringTotal(b.id, c.id);
    StringTotal(a.id, c.id);
    if StringLeq(a.id, b.id) && StringLeq(b.id, c.id) {
      StringTransitive(a.id, b.id, c.id);
    }
  }

  /** The best of the subject's sessions visited so far. */
  ghost predicate BestAmong(m: Sessions, todo: set<string>, key: string, best: Option<string>) {
    && (best.Some? ==> best.value in m && best.value !in todo && Subject(m[best.value].identity) == key)
    && (forall k :: k in m && k !in todo && Subject(m[k].identity) == key ==>
          best.Some? && !Beats(m[k], m[best.value]))
  }

  /** Visiting `sid`, which `todo` no longer holds, leaves the better of the two the best. */
  lemma StillBest(m: Sessions, todo: set<string>, key: string, sid: string, best: Option<string>)
    requires sid in m && sid !in todo && Subject(m[sid].identity) == key && BestAmong(m, todo + {sid}, key, best)
    ensures best == None || Beats(m[sid], m[best.value]) ==> BestAmong(m, todo, key, Some(sid))
    ensures best.Some? && !Beats(m[sid], m[best.value]) ==> BestAmong(m, todo, key, best)
  {
    BeatsOrders(m[sid], m[sid], m[sid]);
    if best.Some? && Beats(m[sid], m[best.value]) {
      forall k | k in m && k !in todo && k != sid && Subject(m[k].identity) == key ensures !Beats(m[k], m[sid]) {
        BeatsOrders(m[k], m[best.value], m[sid]);
      }
    }
  }

  /** The answer does not depend on the order sessions were visited in. */
  lemma ReuseIsDetermined(
    cfg: Config, m: Sessions, who: Identity, now: Time,
    m1: Sessions, r1: Option<Session>, m2: Sessions, r2: Option<Session>)
    requires Named(m) && Reuses(cfg, m, who, now, m1, r1) && Reuses(cfg, m, who, now, m2, r2)
    ensures m1 == m2 && r1 == r2
  {
    if r1.Some? && r2.Some? && Subject(who) != "" {
      var live := Live(cfg, m, now);
      var a, b := live[r1.value.id], live[r2.value.id];
      assert !Beats(a, b) && !Beats(b, a);
      StringTotal(a.id, b.id);
    }
  }

  // ----- expiry over whole runs -----

  /** `used` records every id ever issued. */
  datatype World = World(sessions: Sessions, now: Time, used: set<string>)

  /** `read` is the clock reading of a creation, taken before it has the lock. */
  datatype Op =
    | DoCreate(sid: string, csrf: string, auditId: string, who: Identity, hard: Option<Time>, read: Time)
    | DoGet(id: string)
    | DoReuse(who: Identity)
    | DoDelete(id: string)
    | DoGc

  datatype Step = Step(op: Op, at: Time, result: Option<Session>)

  /** One operation at a time, no earlier than the last in lock order; new ids are fresh. */
  ghost predicate Next(cfg: Config, w: World, s: Step, w': World) {
    && w.now <= s.at == w'.now
    && match s.op
       case DoCreate(sid, csrf, auditId, who, hard, read) =>
         && read <= s.at && sid !in w.used && w'.used == w.used + {sid}
         && s.result == Some(Session(sid, auditId, csrf, who, read, Expiry(cfg, read, hard), read))
         && w'.sessions == w.sessions[sid := s.result.value]
       case DoGet(id) => w'.used == w.used && (w'.sessions, s.result) == Get(cfg, w.sessions, id, s.at)
       case DoReuse(who) => w'.used == w.used && Reuses(cfg, w.sessions, who, s.at, w'.sessions, s.result)
       case DoDelete(id) => w'.used == w.used && w'.sessions == w.sessions - {id} && s.result == None
       case DoGc => w'.used == w.used && w'.sessions == Live(cfg, w.sessions, s.at) && s.result == None
  }

  ghost predicate IsRun(cfg: Config, worlds: seq<World>, steps: seq<Step>) {
    && |worlds| == |steps| + 1 && worlds[0].sessions == map[] && worlds[0].used == {}
    && forall i :: 0 <= i < |steps| ==> Next(cfg, worlds[i], steps[i], worlds[i + 1])
  }

  ghost predicate Valid(w: World) { Named(w.sessions) && w.sessions.Keys <= w.used }

  /** Issued once, and now gone or past either limit. */
  ghost predicate Dead(cfg: Config, w: World, id: string) {
    id in w.used && (id in w.sessions ==> Expired(cfg, w.sessions[id], w.now))
  }

  lemma StepKeeps(cfg: Config, w: World, s: Step, w': World)
    requires Valid(w) && Next(cfg, w, s, w')
    ensures Valid(w')
  {
  }

  /** A dead session stays dead and is not what any operation returns. */
  lemma DeadStaysDead(cfg: Config, w: World, s: Step, w': World, id: string)
    requires Valid(w) && Next(cfg, w, s, w') && Dead(cfg, w, id)
    ensures Dead(cfg, w', id) && (s.result.Some? ==> s.result.value.id != id)
  {
  }

  lemma {:induction false} RunKeeps(cfg: Config, worlds: seq<World>, steps: seq<Step>, i: nat)
    requires IsRun(cfg, worlds, steps) && i < |worlds|
    ensures Valid(worlds[i])
  {
    hide Next;
    if i > 0 {
      RunKeeps(cfg, worlds, steps, i - 1);
      StepKeeps(cfg, worlds[i - 1], steps[i - 1], worlds[i - 1 + 1]);
    }
  }

  lemma {:induction false} DeadLater(cfg: Config, worlds: seq<World>, steps: seq<Step>, i: nat, j: nat, id: string)
    requires IsRun(cfg, worlds, steps) && i <= j < |worlds| && Dead(cfg, worlds[i], id)
    ensures Dead(cfg, worlds[j], id)
    decreases j
  {
    hide Next;
    if i < j {
      DeadLater(cfg, worlds, steps, i, j - 1, id);
      RunKeeps(cfg, worlds, steps, j - 1);
      DeadStaysDead(cfg, worlds[j - 1], steps[j - 1], worlds[j - 1 + 1], id);
    }
  }

  /** Expiry is absorbing: once past a limit, or deleted, a session is never returned again. */
  lemma ExpiryIsAbsorbing(cfg: Config, worlds: seq<World>, steps: seq<Step>, i: nat, j: nat, id: string)
    requires IsRun(cfg, worlds, steps) && i <= j < |steps| && Dead(cfg, worlds[i], id)
    ensures steps[j].result.Some? ==> steps[j].result.value.id != id
  {
    hide Next;
    DeadLater(cfg, worlds, steps, i, j, id);
    RunKeeps(cfg, worlds, steps, j);
    DeadStaysDead(cfg, worlds[j], steps[j], worlds[j + 1], id);
  }

  /** What a lookup returns was issued, is unexpired, and is remembered as just seen. */
  lemma ReturnedIsLive(cfg: Config, worlds: seq<World>, steps: seq<Step>, j: nat)
    requires IsRun(cfg, worlds, steps) && j < |steps| && steps[j].result.Some? && !steps[j].op.DoCreate?
    ensures var r := steps[j].result.value;
            && r.id in worlds[j].used && r.lastSeen == steps[j].at && steps[j].at < r.expiresAt
            && r.id in worlds[j + 1].sessions && worlds[j + 1].sessions[r.id] == r
            && r.id in worlds[j].sessions && !Expired(cfg, worlds[j].sessions[r.id], steps[j].at)
  {
    RunKeeps(cfg, worlds, steps, j);
    assert Next(cfg, worlds[j], steps[j], worlds[j + 1]);
  }

  // ----- the rules, written out -----

  /** Before its absolute end, and seen within the idle limit where there is one. */
  predicate Alive(cfg: Config, s: Session, now: Time) {
    now < s.expiresAt && (cfg.idle > 0 ==> now - s.lastSeen <= cfg.idle)
  }

  /** A cookie finds its session exactly when that is stored and alive; a dead one is dropped on the spot. */
  lemma LookupExactly(cfg: Config, m: Sessions, id: string, now: Time)
    ensures var found := id != "" && id in m && Alive(cfg, m[id], now);
            var r := Get(cfg, m, id, now);
            && r.1 == (if found then Some(m[id].(lastSeen := now)) else None)
            && (found ==> r.0 == m[id := m[id].(lastSeen := now)])
            && (!found ==> r.0 == if id == "" then m else m - {id})
  {
  }

  /** Who may be handed an earlier session: the same verified email, or common name where there is no email. */
  predicate SamePerson(a: Identity, b: Identity) {
    && !a.quick && !b.quick
    && (if a.email != "" then a.email else a.commonName) == (if b.email != "" then b.email else b.commonName)
  }

  /** Created later, or at the same time under an id that sorts after. */
  predicate Newer(a: Session, b: Session) {
    a.createdAt > b.createdAt || (a.createdAt == b.createdAt && a.id != b.id && StringLeq(b.id, a.id))
  }

  /**
    * An identity finds a session exactly when it names someone and a stored session of
    * that person is alive; then the newest of those, touched. The dead are reaped.
    */
  lemma ReuseExactly(cfg: Config, m: Sessions, who: Identity, now: Time, m': Sessions, r: Option<Session>)
    requires Named(m) && Reuses(cfg, m, who, now, m', r)
    ensures var names := !who.quick && (who.email != "" || who.commonName != "");
            && (r.Some? <==>
                  names && exists k :: k in m && Alive(cfg, m[k], now) && SamePerson(m[k].identity, who))
            && (r.Some? ==>
                  var id := r.value.id;
                  && id in m && Alive(cfg, m[id], now) && SamePerson(m[id].identity, who)
                  && r.value == m[id].(lastSeen := now)
                  && forall k :: k in m && Alive(cfg, m[k], now) && SamePerson(m[k].identity, who) && k != id ==>
                       Newer(m[id], m[k]))
            && (names ==> forall k :: k in m' <==> k in m && Alive(cfg, m[k], now))
            && (!names ==> m' == m)
            && (forall k :: k in m' && (r == None || k != r.value.id) ==> m'[k] == m[k])
  {
    var live := Live(cfg, m, now);
    forall k | k in m
      ensures (k in live <==> Alive(cfg, m[k], now))
           && (Subject(who) != "" ==> (SamePerson(m[k].identity, who) <==> Subject(m[k].identity) == Subject(who)))
    {
    }
    if r.Some? {
      var id := r.value.id;
      assert Alive(cfg, m[id], now) && SamePerson(m[id].identity, who);
      forall k | k in m && Alive(cfg, m[k], now) && SamePerson(m[k].identity, who) && k != id
        ensures Newer(m[id], m[k])
      {
        assert k in live && !Beats(live[k], live[id]);
        StringTotal(m[k].id, m[id].id);
      }
    }
  }

  /** Every lookup of every run: what it returns had not been idle too long, nor outlived its term. */
  lemma ReturnedWasAlive(cfg: Config, worlds: seq<World>, steps: seq<Step>, j: nat)
    requires IsRun(cfg, worlds, steps) && j < |steps| && steps[j].result.Some? && !steps[j].op.DoCreate?
    ensures var id := steps[j].result.value.id;
            id in worlds[j].sessions && Alive(cfg, worlds[j].sessions[id], steps[j].at)
  {
    ReturnedIsLive(cfg, worlds, steps, j);
  }
}
