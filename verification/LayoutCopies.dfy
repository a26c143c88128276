/** Layouts as the engine holds them, on shared arrays that the content hash must not disturb. */
module LayoutCopies {
  import opened Topology
  import opened Order
  import opened ContentHash

  /** A layout whose inner lists live on the heap, where the broadcast topology shares them. */
  datatype LayoutRef = LayoutRef(header: Layout, panes: array<LayoutPane>, splits: array<LayoutSplit>)

  ghost function Value(l: LayoutRef): Layout
    reads l.panes, l.splits
  {
    l.header.(panes := l.panes[..], splits := l.splits[..])
  }

  ghost function Values(refs: seq<LayoutRef>): (r: seq<Layout>)
    reads set l | l in refs :: l.panes
    reads set l | l in refs :: l.splits
    ensures |r| == |refs| && forall i :: 0 <= i < |refs| ==> r[i] == Value(refs[i])
  {
    if refs == [] then []
    else
      assert forall l :: l in refs[1..] ==> l in refs;
      [Value(refs[0])] + Values(refs[1..])
  }

  /** Layouts whose lists were left alone read the same. */
  twostate lemma ValuesKept(refs: seq<LayoutRef>)
    requires forall l :: l in refs ==> l.panes[..] == old(l.panes[..]) && l.splits[..] == old(l.splits[..])
    ensures Values(refs) == old(Values(refs))
  {
    forall i | 0 <= i < |refs| ensures Value(refs[i]) == old(Value(refs[i])) {
      assert refs[i] in refs;
    }
    hide Values;
    assert Values(refs) == old(Values(refs));
  }

  function RefKey(l: LayoutRef): Key { LayoutKey(l.header) }

  lemma SortLength<T>(key: T -> Key, s: seq<T>)
    ensures |SortBy(key, s)| == |s|
  {
    SortKeeps(key, s);
    SameSize(SortBy(key, s), s);
  }

  method Clone<T>(a: array<T>) returns (c: array<T>)
    ensures fresh(c) && c[..] == a[..]
  {
    c := new T[a.Length](i requires 0 <= i < a.Length reads a => a[i]);
  }

  /** The library's sort, by its result. */
  method SortInPlace<T>(key: T -> Key, a: array<T>)
    modifies a
    ensures a[..] == SortBy(key, old(a[..]))
  {
    var sorted := SortBy(key, a[..]);
    SortLength(key, a[..]);
    for i := 0 to a.Length
      invariant a[..i] == sorted[..i]
    {
      a[i] := sorted[i];
      assert a[..i + 1] == a[..i] + [a[i]];
    }
    assert a[..] == a[..a.Length] && sorted == sorted[..a.Length];
  }

  /** One layout with its inner lists copied, then sorted; the shared lists stay as they were. */
  method Canonical(l: LayoutRef) returns (c: LayoutRef)
    ensures c.header == l.header && fresh(c.panes) && fresh(c.splits)
    ensures Value(c) == CanonicalLayout(old(Value(l)))
  {
    var panes := Clone(l.panes);
    SortInPlace(LayoutPaneKey, panes);
    var splits := Clone(l.splits);
    SortInPlace(SplitKey, splits);
    c := l.(panes := panes, splits := splits);
  }

  /** Every layout, into a list of its own. Nothing the caller can reach is written. */
  method CanonicalLayouts(input: array<LayoutRef>) returns (out: array<LayoutRef>)
    ensures fresh(out) && forall i :: 0 <= i < out.Length ==> fresh(out[i].panes) && fresh(out[i].splits)
    ensures Values(out[..]) == Map(CanonicalLayout, old(Values(input[..])))
    ensures input[..] == old(input[..]) && Values(input[..]) == old(Values(input[..]))
  {
    hide SortBy, CanonicalLayout, Value, Values;
    out := new LayoutRef[input.Length](i requires 0 <= i < input.Length reads input => input[i]);
    for i := 0 to input.Length
      invariant fresh(out) && out.Length == input.Length
      invariant forall k :: 0 <= k < i ==> fresh(out[k].panes) && fresh(out[k].splits)
      invariant forall k :: 0 <= k < i ==> Value(out[k]) == CanonicalLayout(old(Value(input[k])))
    {
      out[i] := Canonical(input[i]);
    }
    ValuesKept(input[..]);
  }

  /** The layouts of the hash projection, in canonical order. */
  method ProjectLayouts(input: array<LayoutRef>) returns (out: array<LayoutRef>)
    ensures fresh(out)
    ensures Values(out[..]) == SortBy(LayoutKey, Map(CanonicalLayout, old(Values(input[..]))))
    ensures input[..] == old(input[..]) && Values(input[..]) == old(Values(input[..]))
  {
    hide SortBy, Map, CanonicalLayout, Values, Value;
    out := CanonicalLayouts(input);
    label Copied:
    ghost var sorted := SortBy(RefKey, out[..]);
    SortValues(out[..]);
    SortInPlace(RefKey, out);
    ValuesKept@Copied(sorted);
    ValuesKept(input[..]);
  }

  /** Sorting the headers sorts the layouts. */
  lemma {:induction false} SortValues(refs: seq<LayoutRef>)
    ensures Values(SortBy(RefKey, refs)) == SortBy(LayoutKey, Values(refs))
  {
    if refs != [] {
      SortValues(refs[1..]);
      InsertValues(refs[0], SortBy(RefKey, refs[1..]));
      assert Values(refs)[1..] == Values(refs[1..]);
    }
  }

  lemma {:induction false} InsertValues(l: LayoutRef, refs: seq<LayoutRef>)
    ensures Values(Insert(RefKey, l, refs)) == Insert(LayoutKey, Value(l), Values(refs))
    decreases |refs|
  {
    if refs != [] {
      assert Values(refs)[1..] == Values(refs[1..]);
      InsertValues(l, refs[1..]);
    }
  }
}
