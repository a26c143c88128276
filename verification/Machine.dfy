/** Transducers: a state, one input at a time, some outputs per input. */
module Machine {
  type Step<!S, !I, O> = (S, I) -> (S, seq<O>)

  /** A whole input, element by element: the final state and everything emitted. */
  function Feed<S, I, O>(step: Step<S, I, O>, s: S, p: seq<I>): (S, seq<O>)
    decreases |p|
  {
    if p == [] then (s, [])
    else
      var first := step(s, p[0]);
      var rest := Feed(step, first.0, p[1..]);
      (rest.0, first.1 + rest.1)
  }

  /** Feeding fragments, one call each. */
  function FeedChunks<S, I, O>(step: Step<S, I, O>, s: S, chunks: seq<seq<I>>): (S, seq<O>)
    decreases |chunks|
  {
    if chunks == [] then (s, [])
    else
      var first := Feed(step, s, chunks[0]);
      var rest := FeedChunks(step, first.0, chunks[1..]);
      (rest.0, first.1 + rest.1)
  }

  /** The concatenation of fragments, in order. */
  function Flatten<T>(chunks: seq<seq<T>>): seq<T> {
    if chunks == [] then [] else chunks[0] + Flatten(chunks[1..])
  }

  lemma {:induction false} FlattenAppend<T>(a: seq<seq<T>>, b: seq<seq<T>>)
    ensures Flatten(a + b) == Flatten(a) + Flatten(b)
  {
    if a == [] {
      assert a + b == b;
    } else {
      assert (a + b)[1..] == a[1..] + b;
      FlattenAppend(a[1..], b);
    }
  }

  lemma {:induction false} FeedAppend<S, I, O>(step: Step<S, I, O>, s: S, a: seq<I>, b: seq<I>)
    ensures var ra := Feed(step, s, a);
            var rb := Feed(step, ra.0, b);
            Feed(step, s, a + b) == (rb.0, ra.1 + rb.1)
    decreases |a|
  {
    if a == [] {
      assert a + b == b;
      var rb := Feed(step, s, b);
      assert [] + rb.1 == rb.1;
    } else {
      var first := step(s, a[0]);
      FeedAppend(step, first.0, a[1..], b);
      assert (a + b)[1..] == a[1..] + b;
      var ra := Feed(step, first.0, a[1..]);
      var rb := Feed(step, ra.0, b);
      assert first.1 + (ra.1 + rb.1) == (first.1 + ra.1) + rb.1;
    }
  }

  lemma FeedCons<S, I, O>(step: Step<S, I, O>, s: S, x: I, p: seq<I>)
    ensures var first := step(s, x);
            var rest := Feed(step, first.0, p);
            Feed(step, s, [x] + p) == (rest.0, first.1 + rest.1)
  {
    assert ([x] + p)[1..] == p;
  }

  lemma FeedOne<S, I, O>(step: Step<S, I, O>, s: S, x: I)
    ensures Feed(step, s, [x]) == step(s, x)
  {
    var first := step(s, x);
    assert [x][1..] == [];
    assert first.1 + [] == first.1;
  }

  lemma FeedSnoc<S, I, O>(step: Step<S, I, O>, s: S, a: seq<I>, x: I)
    ensures var ra := Feed(step, s, a);
            var rx := step(ra.0, x);
            Feed(step, s, a + [x]) == (rx.0, ra.1 + rx.1)
  {
    FeedAppend(step, s, a, [x]);
    FeedOne(step, Feed(step, s, a).0, x);
  }

  /** However an input is cut, the outputs join to the one-call output and the states agree. */
  lemma {:induction false} FeedFlatten<S, I, O>(step: Step<S, I, O>, s: S, chunks: seq<seq<I>>)
    ensures FeedChunks(step, s, chunks) == Feed(step, s, Flatten(chunks))
    decreases |chunks|
  {
    if chunks != [] {
      FeedFlatten(step, Feed(step, s, chunks[0]).0, chunks[1..]);
      FeedAppend(step, s, chunks[0], Flatten(chunks[1..]));
    }
  }
}
