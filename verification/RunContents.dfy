/** What a run shows, and where each part of it comes from. */
module RunContents {
  import opened Prelude
  import opened Encoding
  import opened Topology
  import opened Order
  import opened ContentHash
  import opened StateEngine
  import opened EngineTheorems
  import opened Runs

  // ----- which entry answers -----

  /** Entry `k` is the first of the agent list for this pane. */
  predicate FirstFor(agents: seq<Agent>, pane: string, k: nat) {
    k < |agents| && agents[k].pane == pane && forall j :: 0 <= j < k ==> agents[j].pane != pane
  }

  predicate NoneFor(agents: seq<Agent>, pane: string) { forall j :: 0 <= j < |agents| ==> agents[j].pane != pane }

  lemma {:induction false} FirstAgentMeans(agents: seq<Agent>, pane: string)
    ensures FirstAgent(agents, pane) == None <==> NoneFor(agents, pane)
    ensures FirstAgent(agents, pane).Some? ==>
              exists k: nat :: FirstFor(agents, pane, k) && FirstAgent(agents, pane) == Some(agents[k])
  {
    if agents != [] {
      FirstAgentMeans(agents[1..], pane);
      if agents[0].pane == pane {
        assert FirstFor(agents, pane, 0);
      } else {
        assert forall j :: 0 <= j < |agents[1..]| ==> agents[1..][j] == agents[j + 1];
        if FirstAgent(agents[1..], pane).Some? {
          var k: nat :| FirstFor(agents[1..], pane, k) && FirstAgent(agents[1..], pane) == Some(agents[1..][k]);
          assert FirstFor(agents, pane, k + 1);
        }
      }
    }
  }

  /** Entry `k` is the last of the workspace list with this id. */
  predicate LastWorkspaceAt(ws: seq<Workspace>, id: string, k: nat) {
    k < |ws| && ws[k].id == id && forall j :: k < j < |ws| ==> ws[j].id != id
  }

  lemma {:induction false} LastWorkspaceMeans(ws: seq<Workspace>, id: string)
    ensures LastWorkspace(ws, id) == None <==> forall j :: 0 <= j < |ws| ==> ws[j].id != id
    ensures LastWorkspace(ws, id).Some? ==>
              exists k: nat :: LastWorkspaceAt(ws, id, k) && LastWorkspace(ws, id) == Some(ws[k])
  {
    if ws != [] {
      var n := |ws| - 1;
      LastWorkspaceMeans(ws[..n], id);
      if ws[n].id == id {
        assert LastWorkspaceAt(ws, id, n);
      } else if LastWorkspace(ws[..n], id).Some? {
        var k: nat :| LastWorkspaceAt(ws[..n], id, k) && LastWorkspace(ws[..n], id) == Some(ws[..n][k]);
        assert LastWorkspaceAt(ws, id, k);
      }
    }
  }

  predicate LastTabAt(ts: seq<Tab>, id: string, k: nat) {
    k < |ts| && ts[k].id == id && forall j :: k < j < |ts| ==> ts[j].id != id
  }

  lemma {:induction false} LastTabMeans(ts: seq<Tab>, id: string)
    ensures LastTab(ts, id) == None <==> forall j :: 0 <= j < |ts| ==> ts[j].id != id
    ensures LastTab(ts, id).Some? ==> exists k: nat :: LastTabAt(ts, id, k) && LastTab(ts, id) == Some(ts[k])
  {
    if ts != [] {
      var n := |ts| - 1;
      LastTabMeans(ts[..n], id);
      if ts[n].id == id {
        assert LastTabAt(ts, id, n);
      } else if LastTab(ts[..n], id).Some? {
        var k: nat :| LastTabAt(ts[..n], id, k) && LastTab(ts[..n], id) == Some(ts[..n][k]);
        assert LastTabAt(ts, id, k);
      }
    }
  }

  // ----- the parts of a run -----

  /** One of the four known states, or unknown. */
  predicate ShownStatus(raw: string, shown: string) {
    shown == if raw == "idle" || raw == "working" || raw == "blocked" || raw == "done" then raw else "unknown"
  }

  /** The agent's part: its own entry names it and says it is ready; the pane answers first for kind and status. */
  ghost predicate AgentPart(t: Snapshot, p: Pane, r: Run) {
    if NoneFor(t.agents, p.id)
    then r.agentName == "" && !r.interactiveReady && r.agentKind == p.agent && ShownStatus(p.status, r.status)
    else exists k: nat :: FirstFor(t.agents, p.id, k) && AgentFrom(t.agents[k], p, r)
  }

  predicate AgentFrom(a: Agent, p: Pane, r: Run) {
    && r.agentName == a.name && r.interactiveReady == a.interactiveReady
    && r.agentKind == (if p.agent != "" then p.agent else a.agent)
    && ShownStatus(if p.status != "" then p.status else a.status, r.status)
  }

  /** The surroundings: the pane's workspace with its checkout, and its tab, where they are reported. */
  ghost predicate PlacePart(t: Snapshot, p: Pane, r: Run) {
    && (if forall j :: 0 <= j < |t.workspaces| ==> t.workspaces[j].id != p.workspace
        then r.workspaceName == "" && r.worktree == None
        else exists k: nat :: LastWorkspaceAt(t.workspaces, p.workspace, k)
               && r.workspaceName == t.workspaces[k].name && r.worktree == t.workspaces[k].worktree)
    && (if forall j :: 0 <= j < |t.tabs| ==> t.tabs[j].id != p.tab
        then r.tabName == ""
        else exists k: nat :: LastTabAt(t.tabs, p.tab, k) && r.tabName == t.tabs[k].name)
  }

  /** The identity: pane, guarded generation, occupant digest, and the id made of the three. */
  predicate IdentityPart(digest: Digest16, g: Guards, p: Pane, r: Run) {
    && p.id in g.gens && r.paneId == p.id && r.generation == g.gens[p.id]
    && r.incarnation == digest(OccupantFingerprint(p))
    && r.runId == p.id + "@" + Decimal(r.generation) + (if r.incarnation == "" then "" else "#" + r.incarnation)
  }

  predicate HostsAgent(t: Snapshot, p: Pane) { p.agent != "" || !NoneFor(t.agents, p.id) }

  lemma AgentOfRun(digest: Digest16, t: Snapshot, g: Guards, p: Pane)
    requires p.id in g.gens
    ensures AgentPart(t, p, RunOf(digest, t, g, p)) && (IsRun(t, p) <==> HostsAgent(t, p))
  {
    hide RunId, Incarnation, FirstAgent, LastWorkspace, LastTab, NoneFor;
    FirstAgentMeans(t.agents, p.id);
    if !NoneFor(t.agents, p.id) {
      var k: nat :| FirstFor(t.agents, p.id, k) && FirstAgent(t.agents, p.id) == Some(t.agents[k]);
      assert AgentFrom(t.agents[k], p, RunOf(digest, t, g, p));
    }
  }

  lemma PlaceOfRun(digest: Digest16, t: Snapshot, g: Guards, p: Pane)
    requires p.id in g.gens
    ensures PlacePart(t, p, RunOf(digest, t, g, p))
  {
    hide RunId, Incarnation, FirstAgent, LastWorkspace, LastTab, NormalizeStatus;
    LastWorkspaceMeans(t.workspaces, p.workspace);
    LastTabMeans(t.tabs, p.tab);
  }

  lemma IdentityOfRun(digest: Digest16, t: Snapshot, g: Guards, p: Pane)
    requires p.id in g.gens && p.id in g.occs && g.occs[p.id] == OccupantFingerprint(p)
    ensures IdentityPart(digest, g, p, RunOf(digest, t, g, p))
  {
    hide FirstAgent, LastWorkspace, LastTab, NormalizeStatus, Decimal;
    assert OccupantFingerprint(p) != "";
    hide OccupantFingerprint;
    var r := RunOf(digest, t, g, p);
    var id := p.id + "@" + Decimal(r.generation);
    assert id + ("#" + r.incarnation) == id + "#" + r.incarnation && id + "" == id;
  }

  lemma PaneOrder(digest: Digest16, t: Snapshot, g: Guards)
    ensures var runs := ProjectRuns(digest, t, g);
            forall m, n :: 0 <= m < n < |runs| ==> StringLeq(runs[m].paneId, runs[n].paneId)
  {
    hide ProjectRuns, StringLeq, KeyLeq;
    ProjectAscends(digest, t, g);
    var runs := ProjectRuns(digest, t, g);
    forall m, n | 0 <= m < n < |runs| ensures StringLeq(runs[m].paneId, runs[n].paneId) {
      KeyLeqMeans(runs[m].paneId, "", runs[n].paneId, "");
    }
  }

  ghost predicate ShowsPane(digest: Digest16, e: Engine, t: Snapshot, p: Pane, r: Run) {
    IdentityPart(digest, e.guards, p, r) && AgentPart(t, p, r) && PlacePart(t, p, r)
  }

  /**
    * After any history the run list is exactly the view's panes that host an agent:
    * every run shows such a pane, part by part, and every such pane is shown.
    */
  lemma RunsExactly(digest: Digest16, states: seq<Engine>, outs: seq<Outcome>, i: nat)
    requires IsHistory(states, outs) && i < |states| && states[i].current.Some?
    ensures var e, t, runs := states[i], states[i].current.value.topology, RunsOf(digest, states[i]);
            && (forall r :: r in runs ==> exists p :: p in t.panes && HostsAgent(t, p) && ShowsPane(digest, e, t, p, r))
            && (forall p :: p in t.panes && HostsAgent(t, p) ==> exists r :: r in runs && ShowsPane(digest, e, t, p, r))
            && (forall m, n :: 0 <= m < n < |runs| ==> StringLeq(runs[m].paneId, runs[n].paneId))
  {
    hide IsHistory, HashTopology, OccupantFingerprint, ProjectRuns, IsRun, HostsAgent, AgentPart, PlacePart;
    hide IdentityPart, RunOf;
    HistoryInv(states, outs, i);
    var e, t := states[i], states[i].current.value.topology;
    forall p | p in t.panes
      ensures p.id in e.guards.gens && (IsRun(t, p) <==> HostsAgent(t, p))
      ensures ShowsPane(digest, e, t, p, RunOf(digest, t, e.guards, p))
    {
      assert p.id in e.guards.occs;
      AgentOfRun(digest, t, e.guards, p);
      PlaceOfRun(digest, t, e.guards, p);
      IdentityOfRun(digest, t, e.guards, p);
    }
    hide ShowsPane, Inv;
    PaneOrder(digest, t, e.guards);
    forall r | r in RunsOf(digest, e)
      ensures exists p :: p in t.panes && HostsAgent(t, p) && ShowsPane(digest, e, t, p, r)
    {
      ProjectMembers(digest, t, e.guards, r);
    }
    forall p | p in t.panes && HostsAgent(t, p)
      ensures exists r :: r in RunsOf(digest, e) && ShowsPane(digest, e, t, p, r)
    {
      ProjectMembers(digest, t, e.guards, RunOf(digest, t, e.guards, p));
    }
  }
}
