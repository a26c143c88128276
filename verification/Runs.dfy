/** The run projection: one entry per agent pane, derived from the view and the live guard. */
module Runs {
  import opened Prelude
  import opened Encoding
  import opened Topology
  import opened Order
  import opened ContentHash
  import opened StateEngine
  import opened EngineTheorems

  /** A run's identity, status and context; texts copied for display only are not modelled. */
  datatype Run = Run(
    runId: string, paneId: string, generation: nat, incarnation: string,
    agentKind: string, agentName: string, status: string, interactiveReady: bool,
    workspaceName: string, tabName: string, worktree: Option<WorktreeInfo>)

  /** The first 16 hexadecimal digits of a SHA-256, supplied by the caller. */
  type Digest16 = string -> string

  predicate IsHex(c: char) { '0' <= c <= '9' || 'a' <= c <= 'f' }
  predicate IsHexString(s: string) { forall i :: 0 <= i < |s| ==> IsHex(s[i]) }

  function Incarnation(digest: Digest16, fp: string): string { if fp == "" then "" else digest(fp) }

  function RunId(paneId: string, gen: nat, incarnation: string): string {
    var id := paneId + ['@'] + Decimal(gen);
    if incarnation == "" then id else id + ['#'] + incarnation
  }

  /** The status set is closed: anything unrecognised reads as unknown. */
  function NormalizeStatus(s: string): (r: string)
    ensures r in {"idle", "working", "blocked", "done", "unknown"}
  {
    if s == "idle" || s == "working" || s == "blocked" || s == "done" then s else "unknown"
  }

  function FirstAgent(agents: seq<Agent>, pane: string): Option<Agent> {
    if agents == [] then None
    else if agents[0].pane == pane then Some(agents[0])
    else FirstAgent(agents[1..], pane)
  }

  function LastWorkspace(ws: seq<Workspace>, id: string): Option<Workspace> {
    if ws == [] then None
    else if ws[|ws| - 1].id == id then Some(ws[|ws| - 1])
    else LastWorkspace(ws[..|ws| - 1], id)
  }

  function LastTab(ts: seq<Tab>, id: string): Option<Tab> {
    if ts == [] then None
    else if ts[|ts| - 1].id == id then Some(ts[|ts| - 1])
    else LastTab(ts[..|ts| - 1], id)
  }

  function OrElse(a: string, b: string): string { if a == "" then b else a }

  /** The pane answers for topology; the agent entry fills what the pane cannot. */
  function Describe(
    digest: Digest16, p: Pane, gen: nat, fp: string, agent: Option<Agent>, ws: Option<Workspace>, tab: Option<Tab>): Run
  {
    var inc := Incarnation(digest, fp);
    Run(RunId(p.id, gen, inc), p.id, gen, inc,
        if agent.Some? then OrElse(p.agent, agent.value.agent) else p.agent,
        if agent.Some? then agent.value.name else "",
        NormalizeStatus(if agent.Some? && p.status == "" then agent.value.status else p.status),
        agent.Some? && agent.value.interactiveReady,
        if ws.Some? then ws.value.name else "", if tab.Some? then tab.value.name else "",
        if ws.Some? then ws.value.worktree else None)
  }

  predicate IsRun(t: Snapshot, p: Pane) { p.agent != "" || FirstAgent(t.agents, p.id).Some? }

  function RunOf(digest: Digest16, t: Snapshot, g: Guards, p: Pane): Run
    requires p.id in g.gens
  {
    Describe(digest, p, g.gens[p.id], if p.id in g.occs then g.occs[p.id] else "",
             FirstAgent(t.agents, p.id), LastWorkspace(t.workspaces, p.workspace), LastTab(t.tabs, p.tab))
  }

  function Collect(digest: Digest16, t: Snapshot, g: Guards, panes: seq<Pane>): seq<Run> {
    if panes == [] then []
    else
      var rest := Collect(digest, t, g, panes[..|panes| - 1]);
      var p := panes[|panes| - 1];
      if IsRun(t, p) && p.id in g.gens then rest + [RunOf(digest, t, g, p)] else rest
  }

  function RunKey(r: Run): Key { [r.paneId] }

  function ProjectRuns(digest: Digest16, t: Snapshot, g: Guards): seq<Run> {
    SortBy(RunKey, Collect(digest, t, g, t.panes))
  }

  /** The run list of the current view, under the live guard. */
  function RunsOf(digest: Digest16, e: Engine): seq<Run> {
    if e.current == None then [] else ProjectRuns(digest, e.current.value.topology, e.guards)
  }

  // ----- the loops that build it -----

  method IndexAgents(agents: seq<Agent>) returns (m: map<string, Agent>)
    ensures forall id :: FirstAgent(agents, id) == if id in m then Some(m[id]) else None
  {
    m := map[];
    for i := 0 to |agents|
      invariant forall id :: FirstAgent(agents[..i], id) == if id in m then Some(m[id]) else None
    {
      forall id ensures FirstAgent(agents[..i + 1], id)
                     == if FirstAgent(agents[..i], id).Some? then FirstAgent(agents[..i], id)
                        else if agents[i].pane == id then Some(agents[i]) else None
      {
        FirstAgentSnoc(agents[..i], agents[i], id);
        assert agents[..i] + [agents[i]] == agents[..i + 1];
      }
      if agents[i].pane !in m {
        m := m[agents[i].pane := agents[i]];
      }
    }
    assert agents[..|agents|] == agents;
  }

  lemma {:induction false} FirstAgentSnoc(agents: seq<Agent>, a: Agent, id: string)
    ensures FirstAgent(agents + [a], id)
         == if FirstAgent(agents, id).Some? then FirstAgent(agents, id) else if a.pane == id then Some(a) else None
  {
    if agents == [] {
      assert [a][1..] == [];
    } else {
      assert (agents + [a])[1..] == agents[1..] + [a];
      FirstAgentSnoc(agents[1..], a, id);
    }
  }

  method IndexWorkspaces(ws: seq<Workspace>) returns (m: map<string, Workspace>)
    ensures forall id :: LastWorkspace(ws, id) == if id in m then Some(m[id]) else None
  {
    m := map[];
    for i := 0 to |ws|
      invariant forall id :: LastWorkspace(ws[..i], id) == if id in m then Some(m[id]) else None
    {
      assert ws[..i + 1][..i] == ws[..i];
      m := m[ws[i].id := ws[i]];
    }
    assert ws[..|ws|] == ws;
  }

  method IndexTabs(ts: seq<Tab>) returns (m: map<string, Tab>)
    ensures forall id :: LastTab(ts, id) == if id in m then Some(m[id]) else None
  {
    m := map[];
    for i := 0 to |ts|
      invariant forall id :: LastTab(ts[..i], id) == if id in m then Some(m[id]) else None
    {
      assert ts[..i + 1][..i] == ts[..i];
      m := m[ts[i].id := ts[i]];
    }
    assert ts[..|ts|] == ts;
  }

  method BuildRuns(digest: Digest16, t: Snapshot, g: Guards) returns (out: seq<Run>)
    ensures out == ProjectRuns(digest, t, g)
  {
    hide Describe, SortBy, FirstAgent, LastWorkspace, LastTab;
    var agents := IndexAgents(t.agents);
    var workspaces := IndexWorkspaces(t.workspaces);
    var tabs := IndexTabs(t.tabs);
    out := [];
    for i := 0 to |t.panes|
      invariant out == Collect(digest, t, g, t.panes[..i])
    {
      var p := t.panes[i];
      assert t.panes[..i + 1][..i] == t.panes[..i];
      var agent := if p.id in agents then Some(agents[p.id]) else None;
      if p.agent == "" && agent == None {
        continue;
      }
      if p.id !in g.gens {
        continue;
      }
      out := out + [Describe(digest, p, g.gens[p.id], if p.id in g.occs then g.occs[p.id] else "", agent,
                             if p.workspace in workspaces then Some(workspaces[p.workspace]) else None,
                             if p.tab in tabs then Some(tabs[p.tab]) else None)];
    }
    assert t.panes[..|t.panes|] == t.panes;
    out := SortBy(RunKey, out);
  }

  // ----- what a run asserts -----

  lemma {:induction false} CollectMembers(digest: Digest16, t: Snapshot, g: Guards, panes: seq<Pane>)
    ensures forall r :: r in Collect(digest, t, g, panes) <==>
              exists p :: p in panes && IsRun(t, p) && p.id in g.gens && r == RunOf(digest, t, g, p)
    decreases |panes|
  {
    hide RunOf, IsRun;
    if panes != [] {
      var init, last := panes[..|panes| - 1], panes[|panes| - 1];
      assert panes == init + [last];
      CollectMembers(digest, t, g, init);
      assert forall p :: p in panes <==> p in init || p == last;
    }
  }

  lemma ProjectMembers(digest: Digest16, t: Snapshot, g: Guards, r: Run)
    ensures r in ProjectRuns(digest, t, g) <==>
              exists p :: p in t.panes && IsRun(t, p) && p.id in g.gens && r == RunOf(digest, t, g, p)
  {
    hide RunOf, IsRun;
    CollectMembers(digest, t, g, t.panes);
    var c := Collect(digest, t, g, t.panes);
    SortKeeps(RunKey, c);
    assert r in ProjectRuns(digest, t, g) <==> r in multiset(ProjectRuns(digest, t, g));
    assert r in c <==> r in multiset(c);
  }

  lemma ProjectAscends(digest: Digest16, t: Snapshot, g: Guards)
    ensures Ascending(RunKey, ProjectRuns(digest, t, g))
  {
    SortAscends(RunKey, Collect(digest, t, g, t.panes));
  }

  predicate AssertsGuard(e: Engine, r: Run) {
    && e.current.Some? && r.paneId in e.guards.gens && r.paneId in e.current.value.generations
    && r.generation == e.guards.gens[r.paneId] == e.current.value.generations[r.paneId] && r.generation >= 1
  }

  ghost predicate HasRun(runs: seq<Run>, id: string) { exists r :: r in runs && r.paneId == id }

  /**
    * Runs, view and guard agree after any history: each run asserts the generation
    * the guard will check and the view shows, and no agent pane is left out.
    */
  lemma RunsMatchGuard(digest: Digest16, states: seq<Engine>, outs: seq<Outcome>, i: nat)
    requires IsHistory(states, outs) && i < |states| && states[i].current.Some?
    ensures var e, v := states[i], states[i].current.value;
            && (forall r :: r in RunsOf(digest, e) ==> AssertsGuard(e, r))
            && (forall p :: p in v.topology.panes && IsRun(v.topology, p) ==> HasRun(RunsOf(digest, e), p.id))
            && Ascending(RunKey, RunsOf(digest, e))
  {
    hide IsHistory, IsRun, Seated, OccupantFingerprint, ProjectRuns, Collect, HashTopology;
    HistoryInv(states, outs, i);
    var e, v := states[i], states[i].current.value;
    var t := v.topology;
    ProjectAscends(digest, t, e.guards);
    forall r | r in RunsOf(digest, e) ensures AssertsGuard(e, r) {
      ProjectMembers(digest, t, e.guards, r);
    }
    forall p | p in t.panes && IsRun(t, p) ensures HasRun(RunsOf(digest, e), p.id) {
      assert p.id in e.guards.gens;
      ProjectMembers(digest, t, e.guards, RunOf(digest, t, e.guards, p));
    }
  }

  lemma {:induction false} FirstAgentStays(agents: seq<Agent>, extra: seq<Agent>, id: string)
    requires forall a :: a in extra ==> FirstAgent(agents, a.pane).Some?
    ensures FirstAgent(agents + extra, id) == FirstAgent(agents, id)
    decreases |extra|
  {
    if extra == [] {
      assert agents + extra == agents;
    } else {
      var init, last := extra[..|extra| - 1], extra[|extra| - 1];
      assert last in extra && extra == init + [last];
      FirstAgentStays(agents, init, id);
      FirstAgentSnoc(agents + init, last, id);
      assert agents + extra == (agents + init) + [last];
    }
  }

  lemma {:induction false} CollectStays(digest: Digest16, t: Snapshot, u: Snapshot, g: Guards, panes: seq<Pane>)
    requires u == t.(agents := u.agents) && forall id :: FirstAgent(u.agents, id) == FirstAgent(t.agents, id)
    ensures Collect(digest, u, g, panes) == Collect(digest, t, g, panes)
    decreases |panes|
  {
    hide Describe, FirstAgent;
    if panes != [] {
      CollectStays(digest, t, u, g, panes[..|panes| - 1]);
    }
  }

  /** Repeated agent entries for a pane change nothing: the first one wins. */
  lemma DuplicateAgentsIgnored(digest: Digest16, t: Snapshot, g: Guards, extra: seq<Agent>)
    requires forall a :: a in extra ==> FirstAgent(t.agents, a.pane).Some?
    ensures ProjectRuns(digest, t.(agents := t.agents + extra), g) == ProjectRuns(digest, t, g)
  {
    var u := t.(agents := t.agents + extra);
    forall id ensures FirstAgent(u.agents, id) == FirstAgent(t.agents, id) {
      FirstAgentStays(t.agents, extra, id);
    }
    CollectStays(digest, t, u, g, t.panes);
  }

  /** A run id names one pane, generation and incarnation, whatever characters the pane id holds. */
  lemma RunIdInjective(p: string, g: nat, inc: string, p': string, g': nat, inc': string)
    requires IsHexString(inc) && IsHexString(inc') && RunId(p, g, inc) == RunId(p', g', inc')
    ensures p == p' && g == g' && inc == inc'
  {
    var rest, rest' := Suffix(g, inc), Suffix(g', inc');
    RunIdSplit(p, g, inc);
    RunIdSplit(p', g', inc');
    SplitAtLast('@', p, rest, p', rest');
    hide Decimal;
    if inc != "" && inc' != "" {
      SplitAtFirst('#', Decimal(g), inc, Decimal(g'), inc');
    }
    DecimalInjective(g, g');
  }

  function Suffix(g: nat, inc: string): string { if inc == "" then Decimal(g) else Decimal(g) + ['#'] + inc }

  lemma RunIdSplit(p: string, g: nat, inc: string)
    requires IsHexString(inc)
    ensures RunId(p, g, inc) == p + ['@'] + Suffix(g, inc) && '@' !in Suffix(g, inc)
    ensures '#' in Suffix(g, inc) <==> inc != ""
  {
    hide Decimal;
    if inc != "" {
      assert (Decimal(g) + ['#'] + inc)[|Decimal(g)|] == '#';
      assert p + ['@'] + (Decimal(g) + ['#'] + inc) == p + ['@'] + Decimal(g) + ['#'] + inc;
    }
  }
}
