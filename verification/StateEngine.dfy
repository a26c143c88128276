/** The poll-as-truth engine: pane generations, the content hash gate and the broadcast view. */
module StateEngine {
  import opened Prelude
  import opened Topology
  import opened ContentHash

  /** The live guard: each pane's generation and the occupant it was assigned for. */
  datatype Guards = Guards(gens: map<string, nat>, occs: map<string, string>)

  /** The versioned, hashed view broadcast to clients. */
  datatype View = View(seqNo: nat, hash: Hash, topology: Snapshot, generations: map<string, nat>)

  datatype Engine = Engine(current: Option<View>, guards: Guards, seqNo: nat, polls: nat, failing: bool)

  const NEW := Engine(None, Guards(map[], map[]), 0, 0, false)

  datatype Outcome = Failed | Nothing | Polled(topology: Snapshot)

  function Ids(panes: seq<Pane>): set<string> { set p | p in panes :: p.id }

  /** One pane of a poll: new panes start at 1, a changed occupant counts up. */
  function Bump(g: Guards, p: Pane): Guards {
    var fp := OccupantFingerprint(p);
    if p.id !in g.gens then Guards(g.gens[p.id := 1], g.occs[p.id := fp])
    else if p.id !in g.occs || g.occs[p.id] != fp then Guards(g.gens[p.id := g.gens[p.id] + 1], g.occs[p.id := fp])
    else g
  }

  function BumpAll(g: Guards, panes: seq<Pane>): Guards {
    if panes == [] then g else Bump(BumpAll(g, panes[..|panes| - 1]), panes[|panes| - 1])
  }

  function Keep(g: Guards, ids: set<string>): Guards {
    Guards(map k | k in g.gens && k in ids :: g.gens[k], map k | k in g.occs && k in ids :: g.occs[k])
  }

  function Update(g: Guards, panes: seq<Pane>): Guards { Keep(BumpAll(g, panes), Ids(panes)) }

  /** Generations move before the hash is compared; an equal hash changes nothing else. */
  function Apply(e: Engine, out: Outcome): Engine {
    var e := e.(polls := e.polls + 1, failing := out.Failed?);
    if !out.Polled? then e
    else
      var e := e.(guards := Update(e.guards, out.topology.panes));
      var hash := HashTopology(out.topology);
      if e.current.Some? && e.current.value.hash == hash then e
      else e.(seqNo := e.seqNo + 1, current := Some(View(e.seqNo + 1, hash, out.topology, e.guards.gens)))
  }

  class State {
    var current: Option<View>
    var generations: map<string, nat>
    var occupants: map<string, string>
    var seqNo: nat
    var polls: nat
    var failing: bool

    function Live(): Guards reads this { Guards(generations, occupants) }
    function Now(): Engine reads this { Engine(current, Live(), seqNo, polls, failing) }

    constructor ()
      ensures Now() == NEW
    {
      current, generations, occupants := None, map[], map[];
      seqNo, polls, failing := 0, 0, false;
    }

    method UpdateGenerations(panes: seq<Pane>)
      requires generations.Keys == occupants.Keys
      modifies `generations, `occupants
      ensures Live() == Update(old(Live()), panes)
    {
      var present := BumpPanes(panes);
      DropAbsent(present);
    }

    method BumpPanes(panes: seq<Pane>) returns (present: set<string>)
      requires generations.Keys == occupants.Keys
      modifies `generations, `occupants
      ensures generations.Keys == occupants.Keys
      ensures Live() == BumpAll(old(Live()), panes) && present == Ids(panes)
    {
      present := {};
      for i := 0 to |panes|
        invariant generations.Keys == occupants.Keys
        invariant Live() == BumpAll(old(Live()), panes[..i])
        invariant present == Ids(panes[..i])
      {
        var p := panes[i];
        IdsSnoc(panes[..i], p);
        assert panes[..i] + [p] == panes[..i + 1] && panes[..i + 1][..i] == panes[..i];
        present := present + {p.id};
        var fp := OccupantFingerprint(p);
        if p.id !in generations {
          generations, occupants := generations[p.id := 1], occupants[p.id := fp];
        } else if occupants[p.id] != fp {
          generations, occupants := generations[p.id := generations[p.id] + 1], occupants[p.id := fp];
        }
      }
      assert panes[..|panes|] == panes;
    }

    method DropAbsent(present: set<string>)
      requires generations.Keys == occupants.Keys
      modifies `generations, `occupants
      ensures Live() == Keep(old(Live()), present)
    {
      ghost var gens, occs := generations, occupants;
      var ids := generations.Keys;
      while ids != {}
        invariant generations.Keys == occupants.Keys && ids <= generations.Keys <= gens.Keys
        invariant forall k :: k in generations ==> generations[k] == gens[k] && occupants[k] == occs[k]
        invariant forall k :: k in gens && k !in ids ==> (k in generations <==> k in present)
        decreases |ids|
      {
        var id :| id in ids;
        if id !in present {
          generations, occupants := generations - {id}, occupants - {id};
        }
        ids := ids - {id};
      }
      assert generations == Keep(Guards(gens, occs), present).gens;
      assert occupants == Keep(Guards(gens, occs), present).occs;
    }

    method ApplyPoll(out: Outcome)
      requires generations.Keys == occupants.Keys
      modifies this
      ensures Now() == Apply(old(Now()), out)
    {
      polls := polls + 1;
      if out.Failed? {
        failing := true;
        return;
      }
      failing := false;
      if out.Nothing? {
        return;
      }
      UpdateGenerations(out.topology.panes);
      var hash := HashTopology(out.topology);
      if current.Some? && current.value.hash == hash {
        return;
      }
      seqNo := seqNo + 1;
      current := Some(View(seqNo, hash, out.topology, generations));
    }

    /** Absent means gone: a guard asserting any generation must then fail. */
    method Generation(paneId: string) returns (g: Option<nat>)
      ensures g == if paneId in generations then Some(generations[paneId]) else None
    {
      if paneId in generations {
        return Some(generations[paneId]);
      }
      return None;
    }
  }

  lemma IdsSnoc(panes: seq<Pane>, p: Pane)
    ensures Ids(panes + [p]) == Ids(panes) + {p.id}
  {
    assert forall q :: q in panes + [p] <==> q in panes || q == p;
  }

  // ----- the closed form of an update -----

  /** Panes reported twice agree on their occupant; distinct ids are the usual case. */
  predicate Functional(panes: seq<Pane>) {
    forall i, j :: 0 <= i < j < |panes| && panes[i].id == panes[j].id ==>
      OccupantFingerprint(panes[i]) == OccupantFingerprint(panes[j])
  }

  function Step(g: Guards, id: string, fp: string): nat
    requires g.gens.Keys == g.occs.Keys
  {
    if id !in g.gens then 1 else if g.occs[id] == fp then g.gens[id] else g.gens[id] + 1
  }

  /** Untouched panes stay; each reported pane moves once, whatever the order. */
  ghost predicate Advanced(g: Guards, panes: seq<Pane>, u: Guards)
    requires g.gens.Keys == g.occs.Keys
  {
    && u.gens.Keys == u.occs.Keys == g.gens.Keys + Ids(panes)
    && (forall k :: k in g.gens && k !in Ids(panes) ==> u.gens[k] == g.gens[k] && u.occs[k] == g.occs[k])
    && (forall i :: 0 <= i < |panes| ==> Placed(g, u, panes[i]))
  }

  predicate Placed(g: Guards, u: Guards, p: Pane)
    requires g.gens.Keys == g.occs.Keys
  {
    && p.id in u.gens && p.id in u.occs
    && u.occs[p.id] == OccupantFingerprint(p) && u.gens[p.id] == Step(g, p.id, OccupantFingerprint(p))
  }

  lemma {:induction false} BumpAllAdvances(g: Guards, panes: seq<Pane>)
    requires g.gens.Keys == g.occs.Keys && Functional(panes)
    ensures Advanced(g, panes, BumpAll(g, panes))
    decreases |panes|
  {
    if panes == [] {
    } else {
      var init, last := panes[..|panes| - 1], panes[|panes| - 1];
      assert panes == init + [last];
      BumpAllAdvances(g, init);
      IdsSnoc(init, last);
      BumpAdvances(g, init, last, BumpAll(g, init));
    }
  }

  lemma BumpKnown(g: Guards, u: Guards, p: Pane, q: Pane)
    requires g.gens.Keys == g.occs.Keys && Placed(g, u, q)
    requires q.id == p.id && OccupantFingerprint(q) == OccupantFingerprint(p)
    ensures Bump(u, p) == u && Placed(g, u, p)
  {
    hide OccupantFingerprint;
  }

  lemma BumpNew(g: Guards, u: Guards, p: Pane)
    requires g.gens.Keys == g.occs.Keys && u.gens.Keys == u.occs.Keys
    requires if p.id in g.gens then p.id in u.gens && u.gens[p.id] == g.gens[p.id] && u.occs[p.id] == g.occs[p.id]
             else p.id !in u.gens
    ensures var v := Bump(u, p);
            && Placed(g, v, p) && v.gens.Keys == v.occs.Keys == u.gens.Keys + {p.id}
            && (forall k :: k in u.gens && k != p.id ==> v.gens[k] == u.gens[k] && v.occs[k] == u.occs[k])
            && (forall q: Pane :: q.id != p.id && Placed(g, u, q) ==> Placed(g, v, q))
  {
    hide OccupantFingerprint;
  }

  lemma AdvancedKnown(g: Guards, init: seq<Pane>, last: Pane, u: Guards)
    requires g.gens.Keys == g.occs.Keys && Advanced(g, init, u) && last.id in Ids(init) && Placed(g, u, last)
    ensures Advanced(g, init + [last], u)
  {
    hide Placed, Ids;
    IdsSnoc(init, last);
    assert Ids(init) + {last.id} == Ids(init);
  }

  lemma AdvancedNew(g: Guards, init: seq<Pane>, last: Pane, u: Guards, v: Guards)
    requires g.gens.Keys == g.occs.Keys && Advanced(g, init, u) && Placed(g, v, last)
    requires v.gens.Keys == v.occs.Keys == u.gens.Keys + {last.id}
    requires forall k :: k in u.gens && k != last.id ==> v.gens[k] == u.gens[k] && v.occs[k] == u.occs[k]
    requires forall i :: 0 <= i < |init| ==> Placed(g, v, init[i])
    ensures Advanced(g, init + [last], v)
  {
    hide Placed, Ids;
    IdsSnoc(init, last);
  }

  lemma BumpAdvances(g: Guards, init: seq<Pane>, last: Pane, u: Guards)
    requires g.gens.Keys == g.occs.Keys && Functional(init + [last]) && Advanced(g, init, u)
    ensures Advanced(g, init + [last], Bump(u, last))
  {
    hide OccupantFingerprint, Placed, Bump;
    if last.id in Ids(init) {
      var i :| 0 <= i < |init| && init[i].id == last.id;
      var panes := init + [last];
      assert panes[i] == init[i] && panes[|init|] == last;
      BumpKnown(g, u, last, init[i]);
      AdvancedKnown(g, init, last, u);
    } else {
      BumpNew(g, u, last);
      forall i | 0 <= i < |init| ensures Placed(g, Bump(u, last), init[i]) {
        assert init[i] in init && init[i].id in Ids(init);
      }
      AdvancedNew(g, init, last, u, Bump(u, last));
    }
  }

  lemma UpdateAdvances(g: Guards, panes: seq<Pane>)
    requires g.gens.Keys == g.occs.Keys && Functional(panes)
    ensures var u := Update(g, panes);
            && u.gens.Keys == u.occs.Keys == Ids(panes)
            && (forall i :: 0 <= i < |panes| ==> Placed(g, u, panes[i]))
  {
    BumpAllAdvances(g, panes);
    forall i | 0 <= i < |panes| ensures Placed(g, Update(g, panes), panes[i]) {
      assert panes[i] in panes && Placed(g, BumpAll(g, panes), panes[i]);
    }
  }

  lemma UpdateKeys(g: Guards, panes: seq<Pane>)
    requires g.gens.Keys == g.occs.Keys && Functional(panes)
    ensures Update(g, panes).gens.Keys == Update(g, panes).occs.Keys == Ids(panes)
  {
    hide Update, Functional, Ids, Placed;
    UpdateAdvances(g, panes);
  }

  lemma UpdatePlaces(g: Guards, panes: seq<Pane>, p: Pane)
    requires g.gens.Keys == g.occs.Keys && Functional(panes) && p in panes
    ensures Placed(g, Update(g, panes), p)
  {
    hide Update, Functional, Ids, Placed;
    UpdateAdvances(g, panes);
    var i :| 0 <= i < |panes| && panes[i] == p;
  }

  lemma PaneNamed(panes: seq<Pane>, id: string) returns (p: Pane)
    requires id in Ids(panes)
    ensures p in panes && p.id == id
  {
    p :| p in panes && p.id == id;
  }
}
