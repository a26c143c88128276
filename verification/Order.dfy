/** Lexicographic order on strings and on lists of strings, and sorting by such keys. */
module Order {
  type Key = seq<string>

  predicate StringLeq(a: string, b: string) {
    a == [] || (b != [] && (a[0] < b[0] || (a[0] == b[0] && StringLeq(a[1..], b[1..]))))
  }

  predicate KeyLeq(a: Key, b: Key) {
    a == [] || (b != [] && ((a[0] != b[0] && StringLeq(a[0], b[0])) || (a[0] == b[0] && KeyLeq(a[1..], b[1..]))))
  }

  lemma {:induction false} StringTotal(a: string, b: string)
    ensures StringLeq(a, b) || StringLeq(b, a)
    ensures StringLeq(a, b) && StringLeq(b, a) ==> a == b
  {
    if a != [] && b != [] {
      StringTotal(a[1..], b[1..]);
      assert a == [a[0]] + a[1..] && b == [b[0]] + b[1..];
    }
  }

  lemma {:induction false} StringTransitive(a: string, b: string, c: string)
    requires StringLeq(a, b) && StringLeq(b, c)
    ensures StringLeq(a, c)
  {
    if a != [] && a[0] == b[0] && b[0] == c[0] {
      StringTransitive(a[1..], b[1..], c[1..]);
    }
  }

  lemma {:induction false} KeyTotal(a: Key, b: Key)
    ensures KeyLeq(a, b) || KeyLeq(b, a)
    ensures KeyLeq(a, b) && KeyLeq(b, a) ==> a == b
  {
    if a != [] && b != [] {
      StringTotal(a[0], b[0]);
      KeyTotal(a[1..], b[1..]);
      assert a == [a[0]] + a[1..] && b == [b[0]] + b[1..];
    }
  }

  lemma {:induction false} KeyTransitive(a: Key, b: Key, c: Key)
    requires KeyLeq(a, b) && KeyLeq(b, c)
    ensures KeyLeq(a, c)
  {
    if a != [] {
      if a[0] == b[0] && b[0] == c[0] {
        KeyTransitive(a[1..], b[1..], c[1..]);
      } else {
        StringTransitiveOrSame(a[0], b[0], c[0]);
      }
    }
  }

  lemma StringTransitiveOrSame(a: string, b: string, c: string)
    requires a == b || StringLeq(a, b)
    requires b == c || StringLeq(b, c)
    requires a != b || b != c
    ensures a != c && StringLeq(a, c)
  {
    StringTotal(a, b);
    StringTotal(b, c);
    StringTotal(a, c);
    if a != b && b != c {
      StringTransitive(a, b, c);
    }
  }

  // ----- sorting -----

  function Insert<T>(key: T -> Key, x: T, s: seq<T>): seq<T> {
    if s == [] then [x]
    else if KeyLeq(key(x), key(s[0])) then [x] + s
    else [s[0]] + Insert(key, x, s[1..])
  }

  /** A sort by key. With distinct keys every sort gives this result. */
  function SortBy<T>(key: T -> Key, s: seq<T>): seq<T> {
    if s == [] then [] else Insert(key, s[0], SortBy(key, s[1..]))
  }

  ghost predicate Ascending<T>(key: T -> Key, s: seq<T>) {
    forall i, j :: 0 <= i < j < |s| ==> KeyLeq(key(s[i]), key(s[j]))
  }

  lemma {:induction false} InsertKeeps<T>(key: T -> Key, x: T, s: seq<T>)
    ensures multiset(Insert(key, x, s)) == multiset{x} + multiset(s)
    decreases |s|
  {
    if s != [] {
      assert s == [s[0]] + s[1..];
      if !KeyLeq(key(x), key(s[0])) {
        InsertKeeps(key, x, s[1..]);
      }
    }
  }

  lemma {:induction false} SortKeeps<T>(key: T -> Key, s: seq<T>)
    ensures multiset(SortBy(key, s)) == multiset(s)
    decreases |s|
  {
    if s != [] {
      SortKeeps(key, s[1..]);
      InsertKeeps(key, s[0], SortBy(key, s[1..]));
      assert s == [s[0]] + s[1..];
    }
  }

  lemma {:induction false} InsertAscends<T>(key: T -> Key, x: T, s: seq<T>)
    requires Ascending(key, s)
    ensures Ascending(key, Insert(key, x, s))
    decreases |s|
  {
    if s != [] {
      KeyTotal(key(x), key(s[0]));
      if KeyLeq(key(x), key(s[0])) {
        forall i | 0 <= i < |s| ensures KeyLeq(key(x), key(s[i])) {
          if i > 0 {
            KeyTransitive(key(x), key(s[0]), key(s[i]));
          }
        }
      } else {
        var rest := Insert(key, x, s[1..]);
        InsertAscends(key, x, s[1..]);
        InsertKeeps(key, x, s[1..]);
        forall i | 0 <= i < |rest| ensures KeyLeq(key(s[0]), key(rest[i])) {
          assert rest[i] in multiset(rest);
          assert rest[i] == x || rest[i] in s[1..];
        }
      }
    }
  }

  lemma {:induction false} SortAscends<T>(key: T -> Key, s: seq<T>)
    ensures Ascending(key, SortBy(key, s))
    decreases |s|
  {
    if s != [] {
      SortAscends(key, s[1..]);
      InsertAscends(key, s[0], SortBy(key, s[1..]));
    }
  }

  /** No two elements share a key. */
  ghost predicate Keyed<T(!new)>(key: T -> Key, m: multiset<T>) {
    && (forall x :: x in m ==> m[x] == 1)
    && (forall x, y :: x in m && y in m && key(x) == key(y) ==> x == y)
  }

  lemma Removed<T>(s: seq<T>, j: nat)
    requires j < |s|
    ensures multiset(s[..j] + s[j + 1..]) == multiset(s) - multiset{s[j]}
  {
    assert s == s[..j] + [s[j]] + s[j + 1..];
  }

  lemma TailMultiset<T>(s: seq<T>)
    requires s != []
    ensures multiset(s[1..]) == multiset(s) - multiset{s[0]}
  {
    Removed(s, 0);
    assert s[..0] + s[1..] == s[1..];
  }

  lemma KeyedTail<T(!new)>(key: T -> Key, m: multiset<T>, x: T)
    requires Keyed(key, m)
    ensures Keyed(key, m - multiset{x})
  {
  }

  lemma HeadsAgree<T(!new)>(key: T -> Key, a: seq<T>, b: seq<T>)
    requires Ascending(key, a) && Ascending(key, b) && multiset(a) == multiset(b) && Keyed(key, multiset(a)) && a != []
    ensures |a| == |b| && b[0] == a[0]
  {
    assert |b| == |multiset(b)| == |multiset(a)| == |a|;
    assert a[0] in multiset(a) && b[0] in multiset(b);
    SmallestFirst(key, a, b[0]);
    SmallestFirst(key, b, a[0]);
    KeyTotal(key(a[0]), key(b[0]));
  }

  lemma AscendingTail<T>(key: T -> Key, s: seq<T>)
    requires Ascending(key, s) && s != []
    ensures Ascending(key, s[1..])
  {
  }

  lemma SameSize<T>(a: seq<T>, b: seq<T>)
    requires multiset(a) == multiset(b)
    ensures |a| == |b|
  {
    assert |multiset(a)| == |a| && |multiset(b)| == |b|;
  }

  lemma TailsMatch<T(!new)>(key: T -> Key, a: seq<T>, b: seq<T>)
    requires Ascending(key, a) && Ascending(key, b) && multiset(a) == multiset(b) && Keyed(key, multiset(a)) && a != []
    ensures |a| == |b| && b[0] == a[0] && Ascending(key, a[1..]) && Ascending(key, b[1..])
    ensures multiset(a[1..]) == multiset(b[1..]) && Keyed(key, multiset(a[1..]))
  {
    hide Keyed, Ascending;
    HeadsAgree(key, a, b);
    TailMultiset(a);
    TailMultiset(b);
    KeyedTail(key, multiset(a), a[0]);
    AscendingTail(key, a);
    AscendingTail(key, b);
  }

  lemma {:induction false} AscendingUnique<T(!new)>(key: T -> Key, a: seq<T>, b: seq<T>)
    requires Ascending(key, a) && Ascending(key, b) && multiset(a) == multiset(b) && Keyed(key, multiset(a))
    ensures a == b
    decreases |a|
  {
    hide Keyed, Ascending;
    if a == [] {
      SameSize(a, b);
    } else {
      TailsMatch(key, a, b);
      AscendingUnique(key, a[1..], b[1..]);
      assert a == [a[0]] + a[1..] && b == [b[0]] + b[1..];
    }
  }

  lemma SmallestFirst<T>(key: T -> Key, s: seq<T>, x: T)
    requires Ascending(key, s) && x in multiset(s)
    ensures s != [] && KeyLeq(key(s[0]), key(x))
  {
    var i :| 0 <= i < |s| && s[i] == x;
    KeyTotal(key(x), key(x));
  }

  /** Sorting forgets the order it was given. */
  lemma SortCanonical<T(!new)>(key: T -> Key, a: seq<T>, b: seq<T>)
    requires multiset(a) == multiset(b) && Keyed(key, multiset(a))
    ensures SortBy(key, a) == SortBy(key, b)
  {
    SortKeeps(key, a);
    SortKeeps(key, b);
    SortAscends(key, a);
    SortAscends(key, b);
    AscendingUnique(key, SortBy(key, a), SortBy(key, b));
  }

  // ----- mapping -----

  function Map<T, U>(f: T -> U, s: seq<T>): (r: seq<U>)
    ensures |r| == |s| && forall i :: 0 <= i < |s| ==> r[i] == f(s[i])
  {
    if s == [] then [] else [f(s[0])] + Map(f, s[1..])
  }

  lemma {:induction false} MapShuffled<T, U>(f: T -> U, a: seq<T>, b: seq<T>)
    requires multiset(a) == multiset(b)
    ensures multiset(Map(f, a)) == multiset(Map(f, b))
    decreases |a|
  {
    if a == [] {
      assert |multiset(b)| == 0;
      assert b == [];
    } else {
      assert a[0] in multiset(b);
      var j :| 0 <= j < |b| && b[j] == a[0];
      var b' := b[..j] + b[j + 1..];
      Removed(b, j);
      TailMultiset(a);
      MapShuffled(f, a[1..], b');
      MapLacks(f, a, 0, a[1..]);
      MapLacks(f, b, j, b');
    }
  }

  lemma MapLacks<T, U>(f: T -> U, s: seq<T>, j: nat, t: seq<T>)
    requires j < |s| && t == s[..j] + s[j + 1..]
    ensures multiset(Map(f, s)) == multiset{f(s[j])} + multiset(Map(f, t))
  {
    hide Map;
    var m := Map(f, s);
    assert Map(f, t) == m[..j] + m[j + 1..];
    Removed(m, j);
    assert m[j] in multiset(m);
  }

  /** Distinct keys by position make a keyed multiset. */
  lemma {:induction false} DistinctKeyed<T(!new)>(key: T -> Key, s: seq<T>)
    requires forall i, j :: 0 <= i < j < |s| ==> key(s[i]) != key(s[j])
    ensures Keyed(key, multiset(s))
    decreases |s|
  {
    if s != [] {
      DistinctKeyed(key, s[1..]);
      assert s == [s[0]] + s[1..];
      forall y | y in s[1..] ensures key(y) != key(s[0]) {
        var i :| 0 <= i < |s[1..]| && s[1..][i] == y;
        assert s[i + 1] == y;
      }
      assert multiset(s) == multiset{s[0]} + multiset(s[1..]);
      assert s[0] !in multiset(s[1..]);
    }
  }

  // ----- what the order is -----

  /** Strings compare at their first difference; a proper beginning comes first. */
  lemma {:induction false} StringLeqMeans(a: string, b: string)
    ensures StringLeq(a, b) <==> a <= b || exists k :: FirstLess(a, b, k)
  {
    if a != [] && b != [] {
      assert a == [a[0]] + a[1..] && b == [b[0]] + b[1..];
      if a[0] == b[0] {
        StringLeqMeans(a[1..], b[1..]);
        FirstLessTail(a, b);
        hide FirstLess;
      } else {
        assert a[0] < b[0] ==> FirstLess(a, b, 0);
        assert forall k :: FirstLess(a, b, k) && k > 0 ==> a[..k][0] == b[..k][0];
      }
    }
  }

  lemma FirstLessTail(a: string, b: string)
    requires a != [] && b != [] && a[0] == b[0]
    ensures (exists k :: FirstLess(a, b, k)) <==> exists k :: FirstLess(a[1..], b[1..], k)
  {
    if k: int :| FirstLess(a, b, k) {
      assert a[1..][..k - 1] == a[..k][1..] && b[1..][..k - 1] == b[..k][1..];
      assert FirstLess(a[1..], b[1..], k - 1);
    }
    if k: int :| FirstLess(a[1..], b[1..], k) {
      assert a[..k + 1] == [a[0]] + a[1..][..k] && b[..k + 1] == [b[0]] + b[1..][..k];
      assert FirstLess(a, b, k + 1);
    }
  }

  predicate FirstLess(a: string, b: string, k: int) {
    0 <= k < |a| && k < |b| && a[..k] == b[..k] && a[k] < b[k]
  }

  /** Keys compare by their first string, and by the next where those agree. */
  lemma KeyLeqMeans(a: string, b: string, c: string, d: string)
    ensures KeyLeq([a], [c]) <==> StringLeq(a, c)
    ensures KeyLeq([a, b], [c, d]) <==> (a != c && StringLeq(a, c)) || (a == c && StringLeq(b, d))
  {
    assert [a][1..] == [] && [c][1..] == [] && [b][1..] == [] && [d][1..] == [];
    assert [a, b][1..] == [b] && [c, d][1..] == [d];
    StringTotal(a, a);
    StringTotal(b, b);
  }
}
