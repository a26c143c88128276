/** Exactly which changes of a topology reach its clients. */
module ContentGate {
  import opened Prelude
  import opened Topology
  import opened Order
  import opened ContentHash
  import opened StateEngine
  import opened EngineTheorems

  // ----- sameness, field by field -----

  predicate SameWorkspace(w: Workspace, v: Workspace) {
    w.(worktree := None) == v.(worktree := None) && WorktreeKey(w.worktree) == WorktreeKey(v.worktree)
  }

  predicate SameTab(t: Tab, u: Tab) { t == u }

  /** Everything but scroll position and revision; a session counts by the identity it gives the occupant. */
  predicate SamePaneContent(p: Pane, q: Pane) {
    && p.(scroll := 0, revision := 0, session := None) == q.(scroll := 0, revision := 0, session := None)
    && OccupantFingerprint(p) == OccupantFingerprint(q)
  }

  /** Everything but the terminal, display texts, launch flag and change counter the agent list repeats. */
  predicate SameAgent(a: Agent, b: Agent) {
    a.(terminal := "", displayAgent := "", title := "", launchPending := false, stateChangeSeq := 0)
    == b.(terminal := "", displayAgent := "", title := "", launchPending := false, stateChangeSeq := 0)
  }

  /** Everything; the order of the inner lists aside. */
  predicate SameLayoutContent(l: Layout, m: Layout) {
    && l.(panes := [], splits := []) == m.(panes := [], splits := [])
    && multiset(l.panes) == multiset(m.panes) && multiset(l.splits) == multiset(m.splits)
  }

  /** Each element of one list has its like in the other. */
  ghost predicate Matched<T(!new)>(same: (T, T) -> bool, xs: seq<T>, ys: seq<T>) {
    && (forall x :: x in xs ==> exists y :: y in ys && same(x, y))
    && (forall y :: y in ys ==> exists x :: x in xs && same(x, y))
  }

  ghost predicate SameContent(a: Snapshot, b: Snapshot) {
    && a.focusedWorkspace == b.focusedWorkspace && a.focusedTab == b.focusedTab && a.focusedPane == b.focusedPane
    && Matched(SameWorkspace, a.workspaces, b.workspaces) && Matched(SameTab, a.tabs, b.tabs)
    && Matched(SamePaneContent, a.panes, b.panes) && Matched(SameAgent, a.agents, b.agents)
    && Matched(SameLayoutContent, a.layouts, b.layouts)
  }

  // ----- one list -----

  ghost predicate HasImage<S(!new), T>(f: S -> T, xs: seq<S>, v: T) { exists x :: x in xs && f(x) == v }

  lemma ImageMeans<S(!new), T(!new)>(f: S -> T, xs: seq<S>, v: T)
    ensures v in Map(f, xs) <==> HasImage(f, xs, v)
  {
    hide Map;
    if v in Map(f, xs) {
      var i :| 0 <= i < |xs| && Map(f, xs)[i] == v;
      assert xs[i] in xs;
    }
    if x :| x in xs && f(x) == v {
      var i :| 0 <= i < |xs| && xs[i] == x;
      assert Map(f, xs)[i] == v;
    }
  }

  /** Lists without repetition that hold the same images are the same multiset of them. */
  lemma SameImages<S(!new), T(!new)>(f: S -> T, key: T -> Key, xs: seq<S>, ys: seq<S>)
    requires Keyed(key, multiset(Map(f, xs))) && Keyed(key, multiset(Map(f, ys)))
    requires forall x :: x in xs ==> HasImage(f, ys, f(x))
    requires forall y :: y in ys ==> HasImage(f, xs, f(y))
    ensures multiset(Map(f, xs)) == multiset(Map(f, ys))
  {
    var a, b := multiset(Map(f, xs)), multiset(Map(f, ys));
    hide Map;
    forall v ensures a[v] == b[v] {
      ImageMeans(f, xs, v);
      ImageMeans(f, ys, v);
      assert v in a <==> v in Map(f, xs);
      assert v in b <==> v in Map(f, ys);
    }
    assert a == b;
  }

  lemma AlikeMatches<S(!new), T(!new)>(f: S -> T, key: T -> Key, same: (S, S) -> bool, xs: seq<S>, ys: seq<S>)
    requires forall x, y :: x in xs && y in ys && f(x) == f(y) ==> same(x, y)
    requires SortBy(key, Map(f, xs)) == SortBy(key, Map(f, ys))
    ensures Matched(same, xs, ys)
  {
    hide Map, SortBy;
    forall x | x in xs ensures exists y :: y in ys && same(x, y) {
      var y := SharedImage(f, key, xs, ys, x);
    }
    forall y | y in ys ensures exists x :: x in xs && same(x, y) {
      var x := SharedImage(f, key, ys, xs, y);
    }
  }

  lemma MatchedAlike<S(!new), T(!new)>(f: S -> T, key: T -> Key, same: (S, S) -> bool, xs: seq<S>, ys: seq<S>)
    requires forall x, y :: x in xs && y in ys && same(x, y) ==> f(x) == f(y)
    requires Keyed(key, multiset(Map(f, xs))) && Keyed(key, multiset(Map(f, ys))) && Matched(same, xs, ys)
    ensures SortBy(key, Map(f, xs)) == SortBy(key, Map(f, ys))
  {
    hide Map, SortBy, Keyed;
    forall x | x in xs ensures HasImage(f, ys, f(x)) {
      var y :| y in ys && same(x, y);
    }
    forall y | y in ys ensures HasImage(f, xs, f(y)) {
      var x :| x in xs && same(x, y);
    }
    SameImages(f, key, xs, ys);
    SortCanonical(key, Map(f, xs), Map(f, ys));
  }

  /** Lists with distinct keys sort to the same projection exactly when they match. */
  lemma ListExactly<S(!new), T(!new)>(f: S -> T, key: T -> Key, same: (S, S) -> bool, xs: seq<S>, ys: seq<S>)
    requires forall x, y :: x in xs && y in ys ==> (same(x, y) <==> f(x) == f(y))
    requires forall i, j :: 0 <= i < j < |xs| ==> key(f(xs[i])) != key(f(xs[j]))
    requires forall i, j :: 0 <= i < j < |ys| ==> key(f(ys[i])) != key(f(ys[j]))
    ensures SortBy(key, Map(f, xs)) == SortBy(key, Map(f, ys)) <==> Matched(same, xs, ys)
  {
    hide Map, SortBy, Matched, Keyed;
    if SortBy(key, Map(f, xs)) == SortBy(key, Map(f, ys)) {
      AlikeMatches(f, key, same, xs, ys);
    }
    if Matched(same, xs, ys) {
      DistinctKeyed(key, Map(f, xs));
      DistinctKeyed(key, Map(f, ys));
      MatchedAlike(f, key, same, xs, ys);
    }
  }

  // ----- the hash -----

  lemma LayoutExactly(l: Layout, m: Layout)
    requires DistinctOn(l.panes, LayoutPaneKey) && DistinctOn(l.splits, SplitKey)
    ensures SameLayoutContent(l, m) <==> CanonicalLayout(l) == CanonicalLayout(m)
  {
    SortKeeps(LayoutPaneKey, l.panes);
    SortKeeps(LayoutPaneKey, m.panes);
    SortKeeps(SplitKey, l.splits);
    SortKeeps(SplitKey, m.splits);
    hide SortBy;
    if SameLayoutContent(l, m) {
      DistinctKeyed(LayoutPaneKey, l.panes);
      SortCanonical(LayoutPaneKey, l.panes, m.panes);
      DistinctKeyed(SplitKey, l.splits);
      SortCanonical(SplitKey, l.splits, m.splits);
    }
  }

  lemma LayoutsExactly(a: seq<Layout>, b: seq<Layout>)
    requires DistinctOn(a, LayoutKey) && DistinctOn(b, LayoutKey)
    requires forall i :: 0 <= i < |a| ==> DistinctOn(a[i].panes, LayoutPaneKey) && DistinctOn(a[i].splits, SplitKey)
    ensures SortBy(LayoutKey, Map(CanonicalLayout, a)) == SortBy(LayoutKey, Map(CanonicalLayout, b)) <==>
              Matched(SameLayoutContent, a, b)
  {
    hide SortBy, Map, Matched;
    forall l, m | l in a && m in b ensures SameLayoutContent(l, m) <==> CanonicalLayout(l) == CanonicalLayout(m) {
      LayoutExactly(l, m);
    }
    hide SameLayoutContent, CanonicalLayout;
    KeptKeys(a);
    KeptKeys(b);
    ListExactly(CanonicalLayout, LayoutKey, SameLayoutContent, a, b);
  }

  lemma KeptKeys(s: seq<Layout>)
    ensures forall i :: 0 <= i < |s| ==> LayoutKey(CanonicalLayout(s[i])) == LayoutKey(s[i])
  {
  }

  /**
    * Two well-keyed topologies hash alike exactly when the focus agrees and every
    * workspace, tab, pane, agent and layout of each has its like in the other.
    */
  lemma HashExactly(a: Snapshot, b: Snapshot)
    requires WellKeyed(a) && WellKeyed(b)
    ensures HashTopology(a) == HashTopology(b) <==> SameContent(a, b)
  {
    hide SortBy, Map, Matched, WorktreeKey, OccupantFingerprint, CanonicalLayout, SameLayoutContent;
    ListExactly(ProjectWorkspace, WorkspaceKey, SameWorkspace, a.workspaces, b.workspaces);
    ListExactly(ProjectTab, TabKey, SameTab, a.tabs, b.tabs);
    ListExactly(ProjectPane, PaneKey, SamePaneContent, a.panes, b.panes);
    ListExactly(ProjectAgent, AgentKey, SameAgent, a.agents, b.agents);
    LayoutsExactly(a.layouts, b.layouts);
  }

  // ----- the broadcast -----

  /**
    * After any history, a good poll publishes the next version, with the polled
    * topology, exactly when nothing was published yet or its content differs from
    * the view clients have; otherwise view and version stay.
    */
  lemma PublishesExactly(states: seq<Engine>, outs: seq<Outcome>, i: nat, t: Snapshot)
    requires IsHistory(states, outs) && i < |states| && WellKeyed(t)
    requires states[i].current.Some? ==> WellKeyed(states[i].current.value.topology)
    ensures var e, f := states[i], Apply(states[i], Polled(t));
            if e.current.Some? && SameContent(e.current.value.topology, t)
            then f.current == e.current && f.seqNo == e.seqNo
            else f.seqNo == e.seqNo + 1 && f.current.Some? && f.current.value.topology == t
                 && f.current.value.seqNo == f.seqNo && f.current.value.generations == f.guards.gens
  {
    hide WellKeyed, SameContent, Update, HashTopology;
    HistoryInv(states, outs, i);
    var e := states[i];
    if e.current.Some? {
      HashExactly(e.current.value.topology, t);
    }
  }
}
