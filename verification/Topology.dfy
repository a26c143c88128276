/** The topology records Herdr reports, and what identifies a pane's occupant. */
module Topology {
  import opened Prelude
  import opened Encoding

  datatype WorktreeInfo = WorktreeInfo(
    repoKey: string, repoName: string, repoRoot: string, checkoutPath: string, linked: bool)

  datatype Workspace = Workspace(
    id: string, number: int, name: string, focused: bool, paneCount: int, tabCount: int,
    activeTab: string, status: string, worktree: Option<WorktreeInfo>)

  datatype Tab = Tab(
    id: string, workspace: string, number: int, name: string, focused: bool, paneCount: int, status: string)

  datatype AgentSession = AgentSession(source: string, agent: string, kind: string, value: string)

  /** `revision` and `scroll` stand for what the terminal stream owns. */
  datatype Pane = Pane(
    id: string, terminal: string, workspace: string, tab: string, focused: bool, cwd: string, foregroundCwd: string,
    agent: string, displayAgent: string, session: Option<AgentSession>, status: string, name: string, title: string,
    scroll: int, revision: int)

  datatype Agent = Agent(
    terminal: string, agent: string, name: string, displayAgent: string, title: string, status: string,
    workspace: string, tab: string, pane: string, focused: bool, interactiveReady: bool, launchPending: bool,
    stateChangeSeq: int, cwd: string)

  datatype Rect = Rect(x: int, y: int, width: int, height: int)
  datatype LayoutPane = LayoutPane(pane: string, focused: bool, rect: Rect)
  datatype LayoutSplit = LayoutSplit(id: string, direction: string, ratio: real, rect: Rect)

  datatype Layout = Layout(
    workspace: string, tab: string, zoomed: bool, area: Rect, focusedPane: string,
    panes: seq<LayoutPane>, splits: seq<LayoutSplit>)

  datatype Snapshot = Snapshot(
    focusedWorkspace: string, focusedTab: string, focusedPane: string,
    workspaces: seq<Workspace>, tabs: seq<Tab>, panes: seq<Pane>, layouts: seq<Layout>, agents: seq<Agent>)

  /** The key whose change marks a new occupant of a pane. */
  function OccupantFingerprint(p: Pane): string {
    var base := p.terminal + [NUL] + p.agent;
    if p.session == None then base
    else
      var s := p.session.value;
      base + [NUL] + s.source + [NUL] + s.kind + [NUL] + s.value
  }

  predicate PlainOccupant(p: Pane) {
    && NUL !in p.terminal && NUL !in p.agent
    && (p.session.Some? ==>
          NUL !in p.session.value.source && NUL !in p.session.value.kind && NUL !in p.session.value.value)
  }

  /** What of a pane's session takes part in its identity. */
  function SessionIdentity(p: Pane): Option<(string, string, string)> {
    if p.session == None then None else Some((p.session.value.source, p.session.value.kind, p.session.value.value))
  }

  /** The fingerprint separates occupants: terminal, agent kind and bound session. */
  lemma FingerprintSeparates(a: Pane, b: Pane)
    requires PlainOccupant(a) && PlainOccupant(b)
    ensures OccupantFingerprint(a) == OccupantFingerprint(b) <==>
              a.terminal == b.terminal && a.agent == b.agent && SessionIdentity(a) == SessionIdentity(b)
  {
    if OccupantFingerprint(a) == OccupantFingerprint(b) {
      var ra := AfterTerminal(a);
      var rb := AfterTerminal(b);
      SplitAtFirst(NUL, a.terminal, ra, b.terminal, rb);
      if a.session.Some? && b.session.Some? {
        var s, t := a.session.value, b.session.value;
        SplitAtFirst(NUL, a.agent, s.source + [NUL] + (s.kind + [NUL] + s.value),
                     b.agent, t.source + [NUL] + (t.kind + [NUL] + t.value));
        SplitAtFirst(NUL, s.source, s.kind + [NUL] + s.value, t.source, t.kind + [NUL] + t.value);
        SplitAtFirst(NUL, s.kind, s.value, t.kind, t.value);
      }
    }
  }

  lemma AfterTerminal(p: Pane) returns (rest: string)
    requires PlainOccupant(p)
    ensures NUL in rest <==> p.session.Some?
    ensures OccupantFingerprint(p) == p.terminal + [NUL] + rest
    ensures p.session == None ==> rest == p.agent
    ensures p.session.Some? ==>
              var s := p.session.value;
              rest == p.agent + [NUL] + (s.source + [NUL] + (s.kind + [NUL] + s.value))
  {
    if p.session == None {
      rest := p.agent;
    } else {
      var s := p.session.value;
      rest := p.agent + [NUL] + (s.source + [NUL] + (s.kind + [NUL] + s.value));
      assert OccupantFingerprint(p) == p.terminal + [NUL] + rest && rest[|p.agent|] == NUL;
    }
  }
}
