/** The confirmation-nonce store and the idempotency store of the mutation endpoint. */
module Stores {
  import opened Prelude
  import opened Encoding

  // ----- confirmation nonces -----

  /** Everything a nonce is bound to. */
  datatype Claim = Claim(operation: string, resource: string, generation: nat, session: string, params: Digest)
  datatype Nonce = Nonce(claim: Claim, expiresAt: Time)

  type NonceMap = map<string, Nonce>

  function LiveNonces(m: NonceMap, now: Time): NonceMap { map t | t in m && now <= m[t].expiresAt :: m[t] }

  function Issue(m: NonceMap, now: Time, token: string, n: Nonce): NonceMap { LiveNonces(m, now)[token := n] }

  /** Any use removes the nonce; only an unexpired exact match succeeds. */
  function Consume(m: NonceMap, now: Time, token: string, want: Claim): (NonceMap, bool) {
    if token !in m then (m, false)
    else (m - {token}, now <= m[token].expiresAt && m[token].claim == want)
  }

  class NonceStore {
    var m: NonceMap

    constructor ()
      ensures m == map[]
    {
      m := map[];
    }

    method Gc(now: Time)
      modifies this
      ensures m == LiveNonces(old(m), now)
    {
      var keys := m.Keys;
      while keys != {}
        invariant keys <= m.Keys <= old(m).Keys
        invariant forall t :: t in m ==> m[t] == old(m)[t]
        invariant forall t :: t in old(m) && t !in keys ==> (t in m <==> now <= old(m)[t].expiresAt)
        decreases |keys|
      {
        var t :| t in keys;
        if now > m[t].expiresAt {
          m := m - {t};
        }
        keys := keys - {t};
      }
    }

    /** `expires` was computed before the lock was taken; `token` is fresh randomness. */
    method IssueNonce(now: Time, token: string, claim: Claim, expires: Time)
      modifies this
      ensures m == Issue(old(m), now, token, Nonce(claim, expires))
    {
      Gc(now);
      m := m[token := Nonce(claim, expires)];
    }

    method ConsumeNonce(now: Time, token: string, want: Claim) returns (ok: bool)
      modifies this
      ensures (m, ok) == Consume(old(m), now, token, want)
    {
      if token !in m {
        return false;
      }
      var n := m[token];
      m := m - {token};
      if now > n.expiresAt {
        return false;
      }
      if n.claim.operation != want.operation || n.claim.resource != want.resource
         || n.claim.generation != want.generation {
        return false;
      }
      if n.claim.session != want.session {
        return false;
      }
      if n.claim.params != want.params {
        return false;
      }
      return true;
    }
  }

  // ----- idempotency -----

  datatype Entry = Entry(pending: bool, status: int, body: string, expiresAt: Time, fingerprint: Digest)

  type IdemMap = map<string, Entry>

  datatype IdemResult = Reserved | InFlight | Replay(entry: Entry) | Mismatch | Miss

  function LiveEntries(m: IdemMap, now: Time): IdemMap { map k | k in m && now <= m[k].expiresAt :: m[k] }

  function Peek(m: IdemMap, now: Time, key: string, fp: Digest): (IdemMap, IdemResult) {
    if key !in m then (m, Miss)
    else if now > m[key].expiresAt then (m - {key}, Miss)
    else if m[key].fingerprint != fp then (m, Mismatch)
    else if m[key].pending then (m, Miss)
    else (m, Replay(m[key]))
  }

  /** The collector and the new expiry read the clock one after the other. */
  function Reserve(m: IdemMap, gcNow: Time, now: Time, key: string, fp: Digest, ttl: int): (IdemMap, IdemResult) {
    var live := LiveEntries(m, gcNow);
    if key in live then
      (live, if live[key].fingerprint != fp then Mismatch
             else if live[key].pending then InFlight
             else Replay(live[key]))
    else (live[key := Entry(true, 0, "", now + ttl, fp)], Reserved)
  }

  function Complete(m: IdemMap, now: Time, key: string, fp: Digest, status: int, body: string, ttl: int): IdemMap {
    m[key := Entry(false, status, body, now + ttl, fp)]
  }

  /** Drops whatever reservation the key carries; nothing checks whose it is. */
  function Release(m: IdemMap, key: string): IdemMap {
    if key in m && m[key].pending then m - {key} else m
  }

  /** Letting go of a key never costs a response: only a reservation goes, and no other key is touched. */
  lemma ReleaseKeepsResponses(m: IdemMap, key: string, other: string)
    ensures other in Release(m, key) <==> other in m && (other == key ==> !m[key].pending)
    ensures other in Release(m, key) ==> Release(m, key)[other] == m[other]
    ensures forall now, fp, status, body, ttl ::
              Release(Complete(m, now, key, fp, status, body, ttl), key) == Complete(m, now, key, fp, status, body, ttl)
  {
  }

  class IdemStore {
    var m: IdemMap

    constructor ()
      ensures m == map[]
    {
      m := map[];
    }

    method Gc(now: Time)
      modifies this
      ensures m == LiveEntries(old(m), now)
    {
      var keys := m.Keys;
      while keys != {}
        invariant keys <= m.Keys <= old(m).Keys
        invariant forall k :: k in m ==> m[k] == old(m)[k]
        invariant forall k :: k in old(m) && k !in keys ==> (k in m <==> now <= old(m)[k].expiresAt)
        decreases |keys|
      {
        var k :| k in keys;
        if now > m[k].expiresAt {
          m := m - {k};
        }
        keys := keys - {k};
      }
    }

    method PeekEntry(now: Time, key: string, fp: Digest) returns (r: IdemResult)
      modifies this
      ensures (m, r) == Peek(old(m), now, key, fp)
    {
      if key !in m {
        return Miss;
      }
      var e := m[key];
      if now > e.expiresAt {
        m := m - {key};
        return Miss;
      }
      if e.fingerprint != fp {
        return Mismatch;
      }
      if e.pending {
        return Miss;
      }
      return Replay(e);
    }

    method ReserveKey(gcNow: Time, now: Time, key: string, fp: Digest, ttl: int) returns (r: IdemResult)
      modifies this
      ensures (m, r) == Reserve(old(m), gcNow, now, key, fp, ttl)
    {
      Gc(gcNow);
      if key in m {
        var e := m[key];
        if e.fingerprint != fp {
          return Mismatch;
        }
        if e.pending {
          return InFlight;
        }
        return Replay(e);
      }
      m := m[key := Entry(true, 0, "", now + ttl, fp)];
      return Reserved;
    }

    method CompleteKey(now: Time, key: string, fp: Digest, status: int, body: string, ttl: int)
      modifies this
      ensures m == Complete(old(m), now, key, fp, status, body, ttl)
    {
      m := m[key := Entry(false, status, body, now + ttl, fp)];
    }

    method ReleaseKey(key: string)
      modifies this
      ensures m == Release(old(m), key)
    {
      if key in m && m[key].pending {
        m := m - {key};
      }
    }
  }
}
