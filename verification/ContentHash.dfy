/** The content hash: a projection of the topology that neither order nor churn reaches. */
module ContentHash {
  import opened Prelude
  import opened Encoding
  import opened Topology
  import opened Order

  datatype ProjWorkspace = ProjWorkspace(
    id: string, name: string, activeTab: string, status: string, number: int, paneCount: int, tabCount: int,
    focused: bool, worktree: string)
  datatype ProjTab = ProjTab(
    id: string, workspace: string, name: string, status: string, number: int, paneCount: int, focused: bool)
  datatype ProjPane = ProjPane(
    id: string, terminal: string, workspace: string, tab: string, agent: string, displayAgent: string, status: string,
    name: string, title: string, cwd: string, foregroundCwd: string, occupant: string, focused: bool)
  datatype ProjAgent = ProjAgent(
    pane: string, agent: string, name: string, status: string, workspace: string, tab: string, cwd: string,
    focused: bool, interactiveReady: bool)

  datatype Projection = Projection(
    focusedWorkspace: string, focusedTab: string, focusedPane: string,
    workspaces: seq<ProjWorkspace>, tabs: seq<ProjTab>, panes: seq<ProjPane>, agents: seq<ProjAgent>,
    layouts: seq<Layout>)

  /** The digest of the serialized projection, as a free constructor. */
  datatype Hash = ContentDigest(content: Projection)

  function Bool(b: bool): string { if b then "true" else "false" }

  function WorktreeKey(w: Option<WorktreeInfo>): string {
    if w == None then ""
    else
      var i := w.value;
      i.repoKey + [NUL] + i.repoName + [NUL] + i.repoRoot + [NUL] + i.checkoutPath + [NUL] + Bool(i.linked)
  }

  function ProjectWorkspace(w: Workspace): ProjWorkspace {
    ProjWorkspace(w.id, w.name, w.activeTab, w.status, w.number, w.paneCount, w.tabCount, w.focused,
                  WorktreeKey(w.worktree))
  }

  function ProjectTab(t: Tab): ProjTab {
    ProjTab(t.id, t.workspace, t.name, t.status, t.number, t.paneCount, t.focused)
  }

  function ProjectPane(p: Pane): ProjPane {
    ProjPane(p.id, p.terminal, p.workspace, p.tab, p.agent, p.displayAgent, p.status, p.name, p.title, p.cwd,
             p.foregroundCwd, OccupantFingerprint(p), p.focused)
  }

  function ProjectAgent(a: Agent): ProjAgent {
    ProjAgent(a.pane, a.agent, a.name, a.status, a.workspace, a.tab, a.cwd, a.focused, a.interactiveReady)
  }

  function WorkspaceKey(w: ProjWorkspace): Key { [w.id] }
  function TabKey(t: ProjTab): Key { [t.id] }
  function PaneKey(p: ProjPane): Key { [p.id] }
  function AgentKey(a: ProjAgent): Key { [a.pane, a.agent] }
  function LayoutKey(l: Layout): Key { [l.tab] }
  function LayoutPaneKey(p: LayoutPane): Key { [p.pane] }
  function SplitKey(s: LayoutSplit): Key { [s.id] }

  function CanonicalLayout(l: Layout): Layout {
    l.(panes := SortBy(LayoutPaneKey, l.panes), splits := SortBy(SplitKey, l.splits))
  }

  function Project(s: Snapshot): Projection {
    Projection(
      s.focusedWorkspace, s.focusedTab, s.focusedPane,
      SortBy(WorkspaceKey, Map(ProjectWorkspace, s.workspaces)),
      SortBy(TabKey, Map(ProjectTab, s.tabs)),
      SortBy(PaneKey, Map(ProjectPane, s.panes)),
      SortBy(AgentKey, Map(ProjectAgent, s.agents)),
      SortBy(LayoutKey, Map(CanonicalLayout, s.layouts)))
  }

  function HashTopology(s: Snapshot): Hash { ContentDigest(Project(s)) }

  // ----- the loops that build it -----

  /** Projects a list element by element, then sorts the projections. */
  method ProjectList<S, T>(f: S -> T, key: T -> Key, s: seq<S>) returns (out: seq<T>)
    ensures out == SortBy(key, Map(f, s))
    ensures Ascending(key, out) && multiset(out) == multiset(Map(f, s))
  {
    out := [];
    for i := 0 to |s|
      invariant out == Map(f, s[..i])
    {
      out := out + [f(s[i])];
    }
    assert s[..|s|] == s;
    SortAscends(key, out);
    SortKeeps(key, out);
    out := SortBy(key, out);
  }

  // ----- reordering -----

  predicate SameLayout(a: Layout, b: Layout) {
    && a.workspace == b.workspace && a.tab == b.tab && a.zoomed == b.zoomed && a.area == b.area
    && a.focusedPane == b.focusedPane
    && multiset(a.panes) == multiset(b.panes) && multiset(a.splits) == multiset(b.splits)
  }

  /** `mid` reorders the inner lists of `a` in place; `b` reorders the result. */
  ghost predicate LayoutsShuffled(a: seq<Layout>, mid: seq<Layout>, b: seq<Layout>) {
    && |mid| == |a| && (forall i :: 0 <= i < |a| ==> SameLayout(a[i], mid[i]))
    && multiset(mid) == multiset(b)
  }

  /** Two reports of one topology that differ only in enumeration order. */
  ghost predicate Shuffled(a: Snapshot, b: Snapshot) {
    && a.focusedWorkspace == b.focusedWorkspace && a.focusedTab == b.focusedTab && a.focusedPane == b.focusedPane
    && multiset(a.workspaces) == multiset(b.workspaces) && multiset(a.tabs) == multiset(b.tabs)
    && multiset(a.panes) == multiset(b.panes) && multiset(a.agents) == multiset(b.agents)
    && (exists mid :: LayoutsShuffled(a.layouts, mid, b.layouts))
  }

  predicate DistinctOn<T(!new)>(s: seq<T>, key: T -> Key) {
    forall i, j :: 0 <= i < j < |s| ==> key(s[i]) != key(s[j])
  }

  /** Every list has distinct identifiers. */
  ghost predicate WellKeyed(s: Snapshot) {
    && DistinctOn(s.workspaces, (w: Workspace) => [w.id])
    && DistinctOn(s.tabs, (t: Tab) => [t.id])
    && DistinctOn(s.panes, (p: Pane) => [p.id])
    && DistinctOn(s.agents, (a: Agent) => [a.pane, a.agent])
    && DistinctOn(s.layouts, LayoutKey)
    && (forall i :: 0 <= i < |s.layouts| ==>
          DistinctOn(s.layouts[i].panes, LayoutPaneKey) && DistinctOn(s.layouts[i].splits, SplitKey))
  }

  lemma ListCanonical<S(!new), T(!new)>(f: S -> T, key: T -> Key, a: seq<S>, b: seq<S>)
    requires multiset(a) == multiset(b)
    requires forall i, j :: 0 <= i < j < |a| ==> key(f(a[i])) != key(f(a[j]))
    ensures SortBy(key, Map(f, a)) == SortBy(key, Map(f, b))
  {
    MapShuffled(f, a, b);
    DistinctKeyed(key, Map(f, a));
    SortCanonical(key, Map(f, a), Map(f, b));
  }

  lemma LayoutCanonical(a: Layout, b: Layout)
    requires SameLayout(a, b) && DistinctOn(a.panes, LayoutPaneKey) && DistinctOn(a.splits, SplitKey)
    ensures CanonicalLayout(a) == CanonicalLayout(b)
  {
    DistinctKeyed(LayoutPaneKey, a.panes);
    DistinctKeyed(SplitKey, a.splits);
    SortCanonical(LayoutPaneKey, a.panes, b.panes);
    SortCanonical(SplitKey, a.splits, b.splits);
  }

  lemma LayoutsCanonical(a: seq<Layout>, b: seq<Layout>)
    requires exists mid :: LayoutsShuffled(a, mid, b)
    requires DistinctOn(a, LayoutKey)
    requires forall i :: 0 <= i < |a| ==> DistinctOn(a[i].panes, LayoutPaneKey) && DistinctOn(a[i].splits, SplitKey)
    ensures SortBy(LayoutKey, Map(CanonicalLayout, a)) == SortBy(LayoutKey, Map(CanonicalLayout, b))
  {
    var mid :| LayoutsShuffled(a, mid, b);
    forall i | 0 <= i < |a| ensures CanonicalLayout(a[i]) == CanonicalLayout(mid[i]) {
      LayoutCanonical(a[i], mid[i]);
    }
    assert Map(CanonicalLayout, a) == Map(CanonicalLayout, mid);
    assert forall i :: 0 <= i < |a| ==> LayoutKey(CanonicalLayout(mid[i])) == LayoutKey(a[i]);
    hide CanonicalLayout;
    ListCanonical(CanonicalLayout, LayoutKey, mid, b);
  }

  /** Enumeration order does not reach the hash. */
  lemma HashIgnoresOrder(a: Snapshot, b: Snapshot)
    requires Shuffled(a, b) && WellKeyed(a)
    ensures HashTopology(a) == HashTopology(b)
  {
    ListCanonical(ProjectWorkspace, WorkspaceKey, a.workspaces, b.workspaces);
    ListCanonical(ProjectTab, TabKey, a.tabs, b.tabs);
    ListCanonical(ProjectPane, PaneKey, a.panes, b.panes);
    ListCanonical(ProjectAgent, AgentKey, a.agents, b.agents);
    LayoutsCanonical(a.layouts, b.layouts);
  }

  /** Two lists whose images sort alike hold the same images. */
  lemma SharedImage<A, B>(f: A -> B, key: B -> Key, xs: seq<A>, ys: seq<A>, x: A) returns (y: A)
    requires SortBy(key, Map(f, xs)) == SortBy(key, Map(f, ys)) && x in xs
    ensures y in ys && f(y) == f(x)
  {
    SortKeeps(key, Map(f, xs));
    SortKeeps(key, Map(f, ys));
    var i :| 0 <= i < |xs| && xs[i] == x;
    assert Map(f, xs)[i] == f(x);
    assert f(x) in multiset(Map(f, xs)) && f(x) in multiset(Map(f, ys));
    var j :| 0 <= j < |ys| && Map(f, ys)[j] == f(x);
    y := ys[j];
  }

  predicate SamePane(p: Pane, q: Pane) {
    q.id == p.id && OccupantFingerprint(q) == OccupantFingerprint(p) && q.status == p.status
  }

  /** Equal hashes: every pane of one report is in the other, with the same occupant and status. */
  lemma HashKeepsPanes(a: Snapshot, b: Snapshot)
    requires HashTopology(a) == HashTopology(b)
    ensures forall p :: p in a.panes ==> exists q :: q in b.panes && SamePane(p, q)
  {
    hide SortBy, Map, OccupantFingerprint;
    forall p | p in a.panes ensures exists q :: q in b.panes && SamePane(p, q) {
      var q := SharedImage(ProjectPane, PaneKey, a.panes, b.panes, p);
      assert SamePane(p, q);
    }
  }

  /** Equal hashes: every workspace keeps its checkout provenance and its status. */
  lemma HashKeepsWorktrees(a: Snapshot, b: Snapshot, w: Workspace) returns (v: Workspace)
    requires HashTopology(a) == HashTopology(b) && w in a.workspaces
    requires forall x :: x in a.workspaces + b.workspaces && x.worktree.Some? ==> PlainWorktree(x.worktree.value)
    ensures v in b.workspaces && v.id == w.id && v.worktree == w.worktree && v.status == w.status
  {
    hide SortBy, Map, WorktreeKey;
    v := SharedImage(ProjectWorkspace, WorkspaceKey, a.workspaces, b.workspaces, w);
    assert v in a.workspaces + b.workspaces && w in a.workspaces + b.workspaces;
    WorktreeKeySeparates(v.worktree, w.worktree);
  }

  /** Volatile pane fields do not reach the hash. */
  lemma HashIgnoresChurn(a: Snapshot, i: nat, scroll: int, revision: int)
    requires i < |a.panes|
    ensures var p := a.panes[i].(scroll := scroll, revision := revision);
            HashTopology(a.(panes := a.panes[i := p])) == HashTopology(a)
  {
    var panes := a.panes[i := a.panes[i].(scroll := scroll, revision := revision)];
    assert Map(ProjectPane, panes) == Map(ProjectPane, a.panes);
  }

  predicate PlainWorktree(w: WorktreeInfo) {
    NUL !in w.repoKey && NUL !in w.repoName && NUL !in w.repoRoot && NUL !in w.checkoutPath
  }

  function FromPath(w: WorktreeInfo): string { w.checkoutPath + [NUL] + Bool(w.linked) }
  function FromRoot(w: WorktreeInfo): string { w.repoRoot + [NUL] + FromPath(w) }
  function FromName(w: WorktreeInfo): string { w.repoName + [NUL] + FromRoot(w) }

  lemma WorktreeKeyNests(w: WorktreeInfo)
    ensures WorktreeKey(Some(w)) == w.repoKey + [NUL] + FromName(w)
  {
    assert w.repoKey + [NUL] + (w.repoName + [NUL] + FromRoot(w))
        == w.repoKey + [NUL] + w.repoName + [NUL] + FromRoot(w);
    assert w.repoKey + [NUL] + w.repoName + [NUL] + FromRoot(w)
        == w.repoKey + [NUL] + w.repoName + [NUL] + w.repoRoot + [NUL] + FromPath(w);
  }

  /** A workspace's checkout provenance is told apart from every other, and from none. */
  lemma WorktreeKeySeparates(a: Option<WorktreeInfo>, b: Option<WorktreeInfo>)
    requires (a.Some? ==> PlainWorktree(a.value)) && (b.Some? ==> PlainWorktree(b.value))
    ensures WorktreeKey(a) == WorktreeKey(b) <==> a == b
  {
    if a.Some? {
      WorktreeKeyNests(a.value);
    }
    if b.Some? {
      WorktreeKeyNests(b.value);
    }
    if a.Some? && b.Some? && WorktreeKey(a) == WorktreeKey(b) {
      hide WorktreeKey;
      var x, y := a.value, b.value;
      SplitAtFirst(NUL, x.repoKey, FromName(x), y.repoKey, FromName(y));
      SplitAtFirst(NUL, x.repoName, FromRoot(x), y.repoName, FromRoot(y));
      SplitAtFirst(NUL, x.repoRoot, FromPath(x), y.repoRoot, FromPath(y));
      SplitAtFirst(NUL, x.checkoutPath, Bool(x.linked), y.checkoutPath, Bool(y.linked));
    }
  }
}
