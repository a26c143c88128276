/** What holds of the engine after any history of polls. */
module EngineTheorems {
  import opened Prelude
  import opened Topology
  import opened ContentHash
  import opened StateEngine

  /** The broadcast view and the live guard say the same thing. */
  ghost predicate Agrees(e: Engine) {
    && (forall id :: id in e.guards.gens ==> e.guards.gens[id] >= 1)
    && (e.current == None ==> e.guards.gens == map[])
    && (e.current.Some? ==>
          && e.current.value.generations == e.guards.gens
          && e.guards.gens.Keys == Ids(e.current.value.topology.panes))
  }

  ghost predicate Inv(e: Engine) {
    && e.guards.gens.Keys == e.guards.occs.Keys && Agrees(e)
    && (e.current.Some? ==> Seated(e.guards, e.current.value))
  }

  ghost predicate Seated(g: Guards, v: View) {
    && v.hash == HashTopology(v.topology)
    && (forall p :: p in v.topology.panes ==> p.id in g.occs && g.occs[p.id] == OccupantFingerprint(p))
  }

  lemma SameIds(a: Snapshot, b: Snapshot)
    requires HashTopology(a) == HashTopology(b)
    ensures Ids(a.panes) == Ids(b.panes)
  {
    HashKeepsPanes(a, b);
    HashKeepsPanes(b, a);
    hide HashTopology, OccupantFingerprint;
  }

  /** An equal hash means the guard had nothing to move. */
  lemma EqualHashMovesNothing(g: Guards, v: View, t: Snapshot)
    requires g.gens.Keys == g.occs.Keys == Ids(v.topology.panes) && Seated(g, v)
    requires v.hash == HashTopology(t) && Functional(t.panes)
    ensures Update(g, t.panes) == g
  {
    hide HashTopology, OccupantFingerprint, Update, Functional, Ids;
    SameIds(v.topology, t);
    UpdateKeys(g, t.panes);
    var u := Update(g, t.panes);
    forall id | id in g.gens ensures u.gens[id] == g.gens[id] && u.occs[id] == g.occs[id] {
      var p := PaneNamed(t.panes, id);
      UpdatePlaces(g, t.panes, p);
      var q := PaneKept(t, v.topology, p);
    }
    assert u.gens == g.gens && u.occs == g.occs;
  }

  lemma PaneKept(a: Snapshot, b: Snapshot, p: Pane) returns (q: Pane)
    requires HashTopology(a) == HashTopology(b) && p in a.panes
    ensures q in b.panes && q.id == p.id && OccupantFingerprint(q) == OccupantFingerprint(p)
  {
    hide HashTopology, OccupantFingerprint;
    HashKeepsPanes(a, b);
    q :| q in b.panes && q.id == p.id && OccupantFingerprint(q) == OccupantFingerprint(p);
  }

  lemma UpdatedAgrees(g: Guards, t: Snapshot)
    requires g.gens.Keys == g.occs.Keys && Functional(t.panes)
    requires forall id :: id in g.gens ==> g.gens[id] >= 1
    ensures var u := Update(g, t.panes);
            && u.gens.Keys == u.occs.Keys == Ids(t.panes)
            && (forall id :: id in u.gens ==> u.gens[id] >= 1)
            && (forall p :: p in t.panes ==> p.id in u.occs && u.occs[p.id] == OccupantFingerprint(p))
  {
    hide OccupantFingerprint, Update, Functional, Ids;
    UpdateKeys(g, t.panes);
    var u := Update(g, t.panes);
    forall id | id in u.gens ensures u.gens[id] >= 1 {
      var p := PaneNamed(t.panes, id);
      UpdatePlaces(g, t.panes, p);
    }
    forall p | p in t.panes ensures p.id in u.occs && u.occs[p.id] == OccupantFingerprint(p) {
      UpdatePlaces(g, t.panes, p);
    }
  }

  ghost predicate Sane(out: Outcome) { out.Polled? ==> Functional(out.topology.panes) }

  lemma ApplyInv(e: Engine, out: Outcome)
    requires Inv(e) && Sane(out)
    ensures Inv(Apply(e, out))
  {
    hide HashTopology, OccupantFingerprint, Update, Functional, Ids;
    if out.Polled? {
      var t := out.topology;
      UpdatedAgrees(e.guards, t);
      if e.current.Some? && e.current.value.hash == HashTopology(t) {
        EqualHashMovesNothing(e.guards, e.current.value, t);
      }
    }
  }

  /** States after each of a history of polls. */
  ghost predicate IsHistory(states: seq<Engine>, outs: seq<Outcome>) {
    && |states| == |outs| + 1 && states[0] == NEW
    && forall k :: 0 <= k < |outs| ==> Sane(outs[k]) && states[k + 1] == Apply(states[k], outs[k])
  }

  lemma {:induction false} HistoryInv(states: seq<Engine>, outs: seq<Outcome>, i: nat)
    requires IsHistory(states, outs) && i < |states|
    ensures Inv(states[i])
  {
    hide Apply, Sane;
    if i > 0 {
      HistoryInv(states, outs, i - 1);
      assert Sane(outs[i - 1]) && states[i - 1 + 1] == Apply(states[i - 1], outs[i - 1]);
      hide Inv;
      ApplyInv(states[i - 1], outs[i - 1]);
    }
  }

  /**
    * After any history the broadcast generations are the live guard, over exactly
    * the broadcast topology's panes, all at least 1.
    */
  lemma GuardMatchesView(states: seq<Engine>, outs: seq<Outcome>, i: nat)
    requires IsHistory(states, outs) && i < |states|
    ensures Agrees(states[i])
  {
    HistoryInv(states, outs, i);
  }

  // ----- why panes must agree with themselves -----

  /** A pane whose generation did not move was reported with one occupant only. */
  lemma {:induction false} UnmovedMeansOneOccupant(g: Guards, panes: seq<Pane>, id: string)
    requires g.gens.Keys == g.occs.Keys && id in g.gens
    ensures var u := BumpAll(g, panes);
            && u.gens.Keys == u.occs.Keys && id in u.gens && u.gens[id] >= g.gens[id]
            && (u.gens[id] == g.gens[id] ==>
                  u.occs[id] == g.occs[id]
                  && forall i :: 0 <= i < |panes| && panes[i].id == id ==> OccupantFingerprint(panes[i]) == g.occs[id])
    decreases |panes|
  {
    hide OccupantFingerprint;
    if panes != [] {
      UnmovedMeansOneOccupant(g, panes[..|panes| - 1], id);
    }
  }

  lemma {:induction false} BumpAllKnows(g: Guards, panes: seq<Pane>, i: nat)
    requires g.gens.Keys == g.occs.Keys && i < |panes|
    ensures var u := BumpAll(g, panes); u.gens.Keys == u.occs.Keys && panes[i].id in u.gens
    decreases |panes|
  {
    hide OccupantFingerprint;
    if i < |panes| - 1 {
      BumpAllKnows(g, panes[..|panes| - 1], i);
    } else {
      BumpAllKeys(g, panes[..|panes| - 1]);
    }
  }

  lemma {:induction false} BumpAllKeys(g: Guards, panes: seq<Pane>)
    requires g.gens.Keys == g.occs.Keys
    ensures BumpAll(g, panes).gens.Keys == BumpAll(g, panes).occs.Keys
    decreases |panes|
  {
    hide OccupantFingerprint;
    if panes != [] {
      BumpAllKeys(g, panes[..|panes| - 1]);
    }
  }

  function PollTwice(t: Snapshot): Engine { Apply(Apply(NEW, Polled(t)), Polled(t)) }

  /**
    * Agreement needs every pane id reported with one occupant, and nothing less:
    * a report that contradicts itself breaks it when polled a second time.
    */
  lemma AgreementExactly(t: Snapshot)
    ensures Agrees(PollTwice(t)) <==> Functional(t.panes)
  {
    var once := Apply(NEW, Polled(t));
    if Functional(t.panes) {
      ApplyInv(NEW, Polled(t));
      ApplyInv(once, Polled(t));
    } else {
      var i, j :| 0 <= i < j < |t.panes| && t.panes[i].id == t.panes[j].id
                  && OccupantFingerprint(t.panes[i]) != OccupantFingerprint(t.panes[j]);
      ContradictionMoves(t, i, j);
    }
  }

  lemma ContradictionMoves(t: Snapshot, i: nat, j: nat)
    requires i < j < |t.panes| && t.panes[i].id == t.panes[j].id
    requires OccupantFingerprint(t.panes[i]) != OccupantFingerprint(t.panes[j])
    ensures !Agrees(PollTwice(t))
  {
    hide OccupantFingerprint, HashTopology, BumpAll;
    var id := t.panes[i].id;
    var once := Apply(NEW, Polled(t));
    BumpAllKnows(NEW.guards, t.panes, i);
    assert t.panes[i] in t.panes;
    assert id in Ids(t.panes);
    assert id in once.guards.gens && once.guards.gens.Keys == once.guards.occs.Keys;
    UnmovedMeansOneOccupant(once.guards, t.panes, id);
    var twice := PollTwice(t);
    assert twice.current == once.current && twice.guards.gens[id] != once.guards.gens[id];
  }

  // ----- what a generation tells -----

  ghost predicate Present(out: Outcome, id: string) { out.Polled? ==> id in Ids(out.topology.panes) }

  /** Every report of the pane in this poll shows the given occupant. */
  ghost predicate Shows(out: Outcome, id: string, fp: string) {
    out.Polled? ==> forall p :: p in out.topology.panes && p.id == id ==> OccupantFingerprint(p) == fp
  }

  /** One poll moves a present pane's generation exactly when the occupant differs. */
  lemma PollMoves(e: Engine, out: Outcome, id: string)
    requires Inv(e) && Sane(out) && id in e.guards.gens && Present(out, id)
    ensures var f := Apply(e, out).guards;
            && id in f.gens && id in f.occs && f.gens[id] >= e.guards.gens[id]
            && (f.gens[id] == e.guards.gens[id] <==> Shows(out, id, e.guards.occs[id]))
            && (f.gens[id] == e.guards.gens[id] ==> f.occs[id] == e.guards.occs[id])
  {
    hide OccupantFingerprint, Update, HashTopology, Functional, Ids, Agrees;
    if out.Polled? {
      var panes := out.topology.panes;
      var p := PaneNamed(panes, id);
      UpdatePlaces(e.guards, panes, p);
      forall q | q in panes && q.id == id ensures OccupantFingerprint(q) == OccupantFingerprint(p) {
        OneOccupant(panes, p, q);
      }
    }
  }

  lemma OneOccupant(panes: seq<Pane>, p: Pane, q: Pane)
    requires Functional(panes) && p in panes && q in panes && p.id == q.id
    ensures OccupantFingerprint(p) == OccupantFingerprint(q)
  {
    hide OccupantFingerprint;
    var i :| 0 <= i < |panes| && panes[i] == p;
    var j :| 0 <= j < |panes| && panes[j] == q;
    assert i < j || i == j || j < i;
  }

  /**
    * While a pane stays present its generation at two points is equal exactly when
    * every poll between showed the occupant it had at the first: leaving and
    * coming back is noticed.
    */
  lemma {:induction false} GenerationTracksOccupant(states: seq<Engine>, outs: seq<Outcome>, i: nat, j: nat, id: string)
    requires IsHistory(states, outs) && i <= j < |states| && id in states[i].guards.gens && id in states[i].guards.occs
    requires forall k :: i <= k < j ==> Present(outs[k], id)
    ensures id in states[j].guards.gens && id in states[j].guards.occs
    ensures states[j].guards.gens[id] >= states[i].guards.gens[id]
    ensures states[j].guards.gens[id] == states[i].guards.gens[id] <==>
              forall k :: i <= k < j ==> Shows(outs[k], id, states[i].guards.occs[id])
    ensures states[j].guards.gens[id] == states[i].guards.gens[id] ==>
              states[j].guards.occs[id] == states[i].guards.occs[id]
    decreases j
  {
    hide Apply, Shows, Present, Sane, Inv;
    if i < j {
      GenerationTracksOccupant(states, outs, i, j - 1, id);
      HistoryInv(states, outs, j - 1);
      assert Present(outs[j - 1], id) && Sane(outs[j - 1]) && states[j - 1 + 1] == Apply(states[j - 1], outs[j - 1]);
      PollMoves(states[j - 1], outs[j - 1], id);
    }
  }

  /** Every poll is counted and leaves its error or clears the last; one without a topology changes nothing else. */
  lemma FailedPollKeepsEverything(e: Engine, out: Outcome)
    ensures var f := Apply(e, out);
            && f.polls == e.polls + 1 && (f.failing <==> out == Failed)
            && (!out.Polled? ==> f.current == e.current && f.guards == e.guards && f.seqNo == e.seqNo)
  {
  }

  /** A poll that only reorders the last broadcast topology is neither rebroadcast nor noticed by the guard. */
  lemma ReorderedPollIsSilent(states: seq<Engine>, outs: seq<Outcome>, i: nat, t: Snapshot)
    requires IsHistory(states, outs) && i < |states| && states[i].current.Some?
    requires var last := states[i].current.value.topology;
             Shuffled(last, t) && WellKeyed(last) && Functional(t.panes)
    ensures var f := Apply(states[i], Polled(t));
            f.current == states[i].current && f.seqNo == states[i].seqNo && f.guards == states[i].guards
  {
    HistoryInv(states, outs, i);
    var e := states[i];
    HashIgnoresOrder(e.current.value.topology, t);
    hide Shuffled, WellKeyed, HashTopology, OccupantFingerprint;
    EqualHashMovesNothing(e.guards, e.current.value, t);
  }
}
