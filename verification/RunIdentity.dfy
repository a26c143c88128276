/** What a pane's generation, its incarnation and its run id tell over a whole history of polls. */
module RunIdentity {
  import opened Prelude
  import opened Topology
  import opened ContentHash
  import opened StateEngine
  import opened EngineTheorems
  import opened Runs

  // ----- generations, from the reports alone -----

  /** The occupant one report shows for a pane. */
  function OccupantIn(panes: seq<Pane>, id: string): Option<string> {
    if panes == [] then None
    else if panes[0].id == id then Some(OccupantFingerprint(panes[0]))
    else OccupantIn(panes[1..], id)
  }

  lemma {:induction false} OccupantInAbsent(panes: seq<Pane>, id: string)
    requires id !in Ids(panes)
    ensures OccupantIn(panes, id) == None
  {
    if panes != [] {
      assert panes[0] in panes;
      assert forall p :: p in panes[1..] ==> p in panes;
      OccupantInAbsent(panes[1..], id);
    }
  }

  lemma {:induction false} OccupantInPresent(panes: seq<Pane>, id: string) returns (p: Pane)
    requires id in Ids(panes)
    ensures p in panes && p.id == id && OccupantIn(panes, id) == Some(OccupantFingerprint(p))
  {
    hide OccupantFingerprint;
    if panes[0].id == id {
      p := panes[0];
    } else {
      assert panes == [panes[0]] + panes[1..];
      p := OccupantInPresent(panes[1..], id);
    }
  }

  /** The occupant the last good poll showed; none if the pane was absent from it. */
  function Occupant(outs: seq<Outcome>, id: string): Option<string> {
    if outs == [] then None
    else
      var last := outs[|outs| - 1];
      if last.Polled? then OccupantIn(last.topology.panes, id) else Occupant(outs[..|outs| - 1], id)
  }

  /** How often the occupant changed since the pane last appeared. */
  function Changes(outs: seq<Outcome>, id: string): nat {
    if outs == [] then 0
    else
      var past, last := outs[..|outs| - 1], outs[|outs| - 1];
      if !last.Polled? then Changes(past, id)
      else
        var before, after := Occupant(past, id), OccupantIn(last.topology.panes, id);
        if before == None || after == None then 0
        else if before == after then Changes(past, id)
        else Changes(past, id) + 1
  }

  /** The guard is what the reports say. */
  ghost predicate Counts(g: Guards, outs: seq<Outcome>, id: string) {
    && (id in g.gens <==> Occupant(outs, id).Some?) && (id in g.occs <==> id in g.gens)
    && (id in g.gens ==> Some(g.occs[id]) == Occupant(outs, id) && g.gens[id] == 1 + Changes(outs, id))
  }

  lemma CountsPoll(g: Guards, outs: seq<Outcome>, t: Snapshot, id: string)
    requires g.gens.Keys == g.occs.Keys && Functional(t.panes) && Counts(g, outs, id)
    ensures Counts(Update(g, t.panes), outs + [Polled(t)], id)
  {
    hide OccupantFingerprint, Update, Functional, OccupantIn;
    assert (outs + [Polled(t)])[..|outs|] == outs;
    UpdateKeys(g, t.panes);
    if id in Ids(t.panes) {
      var p := OccupantInPresent(t.panes, id);
      UpdatePlaces(g, t.panes, p);
    } else {
      OccupantInAbsent(t.panes, id);
    }
  }

  lemma CountsStep(e: Engine, outs: seq<Outcome>, out: Outcome, id: string)
    requires Inv(e) && Sane(out) && Counts(e.guards, outs, id)
    ensures Counts(Apply(e, out).guards, outs + [out], id)
  {
    hide Update, Functional, Agrees, Seated, HashTopology, OccupantIn;
    if out.Polled? {
      hide Counts;
      CountsPoll(e.guards, outs, out.topology, id);
    } else {
      assert (outs + [out])[..|outs|] == outs;
    }
  }

  /** A pane is guarded exactly while reported, and its generation counts its occupants since it last appeared. */
  lemma {:induction false} GenerationCountsOccupants(states: seq<Engine>, outs: seq<Outcome>, i: nat, id: string)
    requires IsHistory(states, outs) && i < |states|
    ensures Counts(states[i].guards, outs[..i], id)
  {
    hide Apply, Sane, Inv;
    if i > 0 {
      GenerationCountsOccupants(states, outs, i - 1, id);
      HistoryInv(states, outs, i - 1);
      assert Sane(outs[i - 1]) && states[i - 1 + 1] == Apply(states[i - 1], outs[i - 1]);
      hide Counts;
      CountsStep(states[i - 1], outs[..i - 1], outs[i - 1], id);
      assert outs[..i] == outs[..i - 1] + [outs[i - 1]];
    }
  }

  /** Reports from before a pane was last absent do not matter. */
  lemma {:induction false} AbsenceForgets(outs: seq<Outcome>, k: nat, j: nat, id: string)
    requires k < j <= |outs| && outs[k].Polled? && id !in Ids(outs[k].topology.panes)
    ensures Occupant(outs[..j], id) == Occupant(outs[k..j], id) && Changes(outs[..j], id) == Changes(outs[k..j], id)
    decreases j
  {
    hide OccupantIn, Ids;
    if j == k + 1 {
      OccupantInAbsent(outs[k].topology.panes, id);
      assert outs[k..j] == [outs[k]];
    } else {
      AbsenceForgets(outs, k, j - 1, id);
      assert outs[..j][..j - 1] == outs[..j - 1] && outs[k..j][..j - 1 - k] == outs[k..j - 1];
    }
  }

  // ----- incarnations -----

  ghost predicate Injective(digest: Digest16) { forall a, b :: digest(a) == digest(b) ==> a == b }

  function IncarnationOf(digest: Digest16, e: Engine, id: string): string
    requires id in e.guards.occs
  {
    Incarnation(digest, e.guards.occs[id])
  }

  /** Between two points, the incarnation is the same exactly when the generation is. */
  ghost predicate Follows(digest: Digest16, a: Engine, b: Engine, id: string)
    requires id in a.guards.gens && id in a.guards.occs && id in b.guards.gens && id in b.guards.occs
  {
    a.guards.gens[id] == b.guards.gens[id] <==> IncarnationOf(digest, a, id) == IncarnationOf(digest, b, id)
  }

  lemma Guarded(states: seq<Engine>, outs: seq<Outcome>, i: nat, id: string)
    requires IsHistory(states, outs) && i < |states| && id in states[i].guards.gens
    ensures id in states[i].guards.occs && states[i].guards.occs[id] != "" && states[i].current.Some?
  {
    hide IsHistory, HashTopology, Ids;
    HistoryInv(states, outs, i);
    var p := PaneNamed(states[i].current.value.topology.panes, id);
  }

  /** Equal incarnations are equal occupants. */
  lemma IncarnationTells(
    digest: Digest16, states: seq<Engine>, outs: seq<Outcome>, i: nat,
    states': seq<Engine>, outs': seq<Outcome>, j: nat, id: string, id': string)
    requires Injective(digest) && IsHistory(states, outs) && i < |states| && id in states[i].guards.gens
    requires IsHistory(states', outs') && j < |states'| && id' in states'[j].guards.gens
    ensures id in states[i].guards.occs && id' in states'[j].guards.occs
    ensures IncarnationOf(digest, states[i], id) == IncarnationOf(digest, states'[j], id') <==>
              states[i].guards.occs[id] == states'[j].guards.occs[id']
  {
    hide IsHistory;
    Guarded(states, outs, i, id);
    Guarded(states', outs', j, id');
  }

  /**
    * Incarnation and generation change together between two points if and only if,
    * in the reports, the pane has the same occupant at both exactly when as many
    * changes lie behind it in its present life. The pane may come and go between.
    */
  lemma IncarnationExactly(digest: Digest16, states: seq<Engine>, outs: seq<Outcome>, i: nat, j: nat, id: string)
    requires Injective(digest) && IsHistory(states, outs) && i <= j < |states|
    requires id in states[i].guards.gens && id in states[j].guards.gens
    ensures id in states[i].guards.occs && id in states[j].guards.occs
    ensures Follows(digest, states[i], states[j], id) <==>
              (Occupant(outs[..i], id) == Occupant(outs[..j], id) <==> Changes(outs[..i], id) == Changes(outs[..j], id))
  {
    hide IsHistory, Occupant, Changes, IncarnationOf;
    GenerationCountsOccupants(states, outs, i, id);
    GenerationCountsOccupants(states, outs, j, id);
    IncarnationTells(digest, states, outs, i, states, outs, j, id, id);
  }

  /** Across an absence at poll `k`: only the reports after it say what the pane is at the second point. */
  lemma IncarnationExactlyAcrossAbsence(
    digest: Digest16, states: seq<Engine>, outs: seq<Outcome>, i: nat, k: nat, j: nat, id: string)
    requires Injective(digest) && IsHistory(states, outs) && i <= k < j < |states|
    requires id in states[i].guards.gens && id in states[j].guards.gens && !Present(outs[k], id)
    ensures id in states[i].guards.occs && id in states[j].guards.occs
    ensures Follows(digest, states[i], states[j], id) <==>
              (Occupant(outs[..i], id) == Occupant(outs[k..j], id) <==>
                 Changes(outs[..i], id) == Changes(outs[k..j], id))
  {
    hide Follows, Occupant, Changes, IsHistory;
    assert |states| == |outs| + 1 by { HistoryLength(states, outs); }
    IncarnationExactly(digest, states, outs, i, j, id);
    AbsenceForgets(outs, k, j, id);
  }

  lemma HistoryLength(states: seq<Engine>, outs: seq<Outcome>)
    requires IsHistory(states, outs)
    ensures |states| == |outs| + 1
  {
  }

  /** While the pane stays: exactly when the occupants differ, or no poll between showed another. */
  lemma IncarnationExactlyWhilePresent(
    digest: Digest16, states: seq<Engine>, outs: seq<Outcome>, i: nat, j: nat, id: string)
    requires Injective(digest) && IsHistory(states, outs) && i <= j < |states| && id in states[i].guards.gens
    requires forall k :: i <= k < j ==> Present(outs[k], id)
    ensures id in states[i].guards.occs && id in states[j].guards.occs && id in states[j].guards.gens
    ensures Follows(digest, states[i], states[j], id) <==>
              || states[i].guards.occs[id] != states[j].guards.occs[id]
              || forall k :: i <= k < j ==> Shows(outs[k], id, states[i].guards.occs[id])
  {
    hide IsHistory, Present, Shows, IncarnationOf;
    Guarded(states, outs, i, id);
    GenerationTracksOccupant(states, outs, i, j, id);
    IncarnationTells(digest, states, outs, i, states, outs, j, id, id);
  }

  /** From one poll to the next they always change together. */
  lemma IncarnationFollowsGeneration(digest: Digest16, states: seq<Engine>, outs: seq<Outcome>, i: nat, id: string)
    requires Injective(digest) && IsHistory(states, outs) && i + 1 < |states| && id in states[i].guards.gens
    requires Present(outs[i], id)
    ensures id in states[i].guards.occs && id in states[i + 1].guards.occs && id in states[i + 1].guards.gens
    ensures Follows(digest, states[i], states[i + 1], id)
  {
    hide Present, Inv, Shows, Sane;
    IncarnationExactlyWhilePresent(digest, states, outs, i, i + 1, id);
    HistoryInv(states, outs, i);
    assert Sane(outs[i]) && states[i + 1] == Apply(states[i], outs[i]);
    hide Apply;
    LastShown(states[i], outs[i], id);
  }

  /** After a poll the guard's occupant is the one the poll showed. */
  lemma LastShown(e: Engine, out: Outcome, id: string)
    requires Inv(e) && Sane(out) && id in e.guards.gens && Present(out, id)
    ensures var f := Apply(e, out).guards; id in f.occs && Shows(out, id, f.occs[id])
  {
    hide OccupantFingerprint, Update, HashTopology, Functional, Ids, Agrees;
    if out.Polled? {
      var panes := out.topology.panes;
      var p := PaneNamed(panes, id);
      UpdatePlaces(e.guards, panes, p);
      forall q | q in panes && q.id == id ensures OccupantFingerprint(q) == OccupantFingerprint(p) {
        OneOccupant(panes, p, q);
      }
    }
  }

  /** A failing family: an occupant that leaves and returns has its old incarnation, two generations on. */
  lemma IncarnationCanReturn(a: Snapshot, b: Snapshot, p: Pane, q: Pane)
    requires Functional(a.panes) && Functional(b.panes) && p in a.panes && q in b.panes
    requires p.id == q.id && OccupantFingerprint(p) != OccupantFingerprint(q)
    ensures var first := Apply(NEW, Polled(a)).guards;
            var last := Apply(Apply(Apply(NEW, Polled(a)), Polled(b)), Polled(a)).guards;
            && p.id in first.gens && p.id in last.gens && p.id in first.occs && p.id in last.occs
            && last.gens[p.id] == first.gens[p.id] + 2 && last.occs[p.id] == first.occs[p.id]
  {
    hide OccupantFingerprint, Update, HashTopology, Functional, Ids;
    var g1 := Update(NEW.guards, a.panes);
    UpdateKeys(NEW.guards, a.panes);
    UpdatePlaces(NEW.guards, a.panes, p);
    var g2 := Update(g1, b.panes);
    UpdateKeys(g1, b.panes);
    UpdatePlaces(g1, b.panes, q);
    UpdatePlaces(g2, a.panes, p);
  }

  /** The other: a pane id recycled for a new occupant has a new incarnation under its old generation. */
  lemma GenerationCanRestart(a: Snapshot, gone: Snapshot, b: Snapshot, p: Pane, q: Pane)
    requires Functional(a.panes) && Functional(gone.panes) && Functional(b.panes) && p in a.panes && q in b.panes
    requires p.id == q.id && p.id !in Ids(gone.panes) && OccupantFingerprint(p) != OccupantFingerprint(q)
    ensures var first := Apply(NEW, Polled(a)).guards;
            var last := Apply(Apply(Apply(NEW, Polled(a)), Polled(gone)), Polled(b)).guards;
            && p.id in first.gens && p.id in last.gens && p.id in first.occs && p.id in last.occs
            && last.gens[p.id] == first.gens[p.id] && last.occs[p.id] != first.occs[p.id]
  {
    hide OccupantFingerprint, Update, HashTopology, Functional, Ids;
    var g1 := Update(NEW.guards, a.panes);
    UpdateKeys(NEW.guards, a.panes);
    UpdatePlaces(NEW.guards, a.panes, p);
    var g2 := Update(g1, gone.panes);
    UpdateKeys(g1, gone.panes);
    UpdatePlaces(g2, b.panes, q);
  }

  // ----- run ids -----

  ghost predicate HexDigest(digest: Digest16) { Injective(digest) && forall s :: IsHexString(digest(s)) }

  /** A run names its pane, the guard's generation and the occupant. */
  lemma RunNames(digest: Digest16, e: Engine, r: Run)
    requires e.current.Some? && e.guards.gens.Keys == e.guards.occs.Keys && r in RunsOf(digest, e)
    ensures r.paneId in e.guards.gens && r.generation == e.guards.gens[r.paneId] && r.paneId in e.guards.occs
    ensures r.incarnation == IncarnationOf(digest, e, r.paneId)
    ensures r.runId == RunId(r.paneId, r.generation, r.incarnation)
  {
    hide ProjectRuns, IsRun, RunId, FirstAgent, LastWorkspace, LastTab;
    ProjectMembers(digest, e.current.value.topology, e.guards, r);
  }

  /**
    * A run id is never inherited: at any two points, of one history or of two, equal
    * run ids are the same pane, generation and occupant, recycled panes included.
    */
  lemma RunIdsNameOneOccupant(
    digest: Digest16, states: seq<Engine>, outs: seq<Outcome>, i: nat,
    states': seq<Engine>, outs': seq<Outcome>, j: nat, r: Run, r': Run)
    requires HexDigest(digest) && IsHistory(states, outs) && i < |states| && r in RunsOf(digest, states[i])
    requires IsHistory(states', outs') && j < |states'| && r' in RunsOf(digest, states'[j])
    ensures r.paneId in states[i].guards.occs && r'.paneId in states'[j].guards.occs
    ensures r.runId == r'.runId <==>
              && r.paneId == r'.paneId && r.generation == r'.generation
              && states[i].guards.occs[r.paneId] == states'[j].guards.occs[r'.paneId]
  {
    hide IsHistory, RunId, IncarnationOf, ProjectRuns;
    var e, e' := states[i], states'[j];
    HistoryInv(states, outs, i);
    HistoryInv(states', outs', j);
    RunNames(digest, e, r);
    RunNames(digest, e', r');
    hide RunsOf, Inv;
    IncarnationTells(digest, states, outs, i, states', outs', j, r.paneId, r'.paneId);
    if r.runId == r'.runId {
      IncarnationHex(digest, e, r.paneId);
      IncarnationHex(digest, e', r'.paneId);
      RunIdInjective(r.paneId, r.generation, r.incarnation, r'.paneId, r'.generation, r'.incarnation);
    }
  }

  lemma IncarnationHex(digest: Digest16, e: Engine, id: string)
    requires HexDigest(digest) && id in e.guards.occs
    ensures IsHexString(IncarnationOf(digest, e, id))
  {
  }
}
