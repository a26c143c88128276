/** Composite keys: separators, decimal numbers and digests. */
module Encoding {
  const NUL: char := '\0'

  /** SHA-256 as a free constructor: distinct inputs have distinct digests. */
  datatype Digest = Sha256(preimage: string)

  /** What comes before the first separator, and after the last. */
  function Before(sep: char, s: string): string {
    if s == [] || s[0] == sep then [] else [s[0]] + Before(sep, s[1..])
  }

  function After(sep: char, s: string): string {
    if s == [] || s[|s| - 1] == sep then [] else After(sep, s[..|s| - 1]) + [s[|s| - 1]]
  }

  lemma {:induction false} BeforeCuts(sep: char, a: string, b: string)
    requires sep !in a
    ensures Before(sep, a + [sep] + b) == a
  {
    if a != [] {
      BeforeCuts(sep, a[1..], b);
      assert (a + [sep] + b)[1..] == a[1..] + [sep] + b;
    }
  }

  lemma {:induction false} AfterCuts(sep: char, a: string, b: string)
    requires sep !in b
    ensures After(sep, a + [sep] + b) == b
  {
    var s := a + [sep] + b;
    if b == [] {
      assert s[|s| - 1] == sep;
    } else {
      AfterCuts(sep, a, b[..|b| - 1]);
      assert s[..|s| - 1] == a + [sep] + b[..|b| - 1];
    }
  }

  /** Cutting at the first separator is unambiguous when it does not occur before. */
  lemma SplitAtFirst(sep: char, a: string, b: string, c: string, d: string)
    requires a + [sep] + b == c + [sep] + d && sep !in a && sep !in c
    ensures a == c && b == d
  {
    BeforeCuts(sep, a, b);
    BeforeCuts(sep, c, d);
    assert b == (a + [sep] + b)[|a| + 1..] && d == (c + [sep] + d)[|c| + 1..];
  }

  /** Cutting at the last separator is unambiguous when it does not occur after. */
  lemma SplitAtLast(sep: char, a: string, b: string, c: string, d: string)
    requires a + [sep] + b == c + [sep] + d && sep !in b && sep !in d
    ensures a == c && b == d
  {
    AfterCuts(sep, a, b);
    AfterCuts(sep, c, d);
    assert a == (a + [sep] + b)[..|a|] && c == (c + [sep] + d)[..|c|];
  }

  predicate IsDigit(c: char) { '0' <= c <= '9' }

  function Decimal(n: nat): (s: string)
    ensures s != [] && forall i :: 0 <= i < |s| ==> IsDigit(s[i])
  {
    var last := [(n % 10) as char + '0'];
    if n < 10 then last else Decimal(n / 10) + last
  }

  lemma {:induction false} DecimalInjective(m: nat, n: nat)
    requires Decimal(m) == Decimal(n)
    ensures m == n
    decreases m
  {
    var a, b := Decimal(m), Decimal(n);
    assert a[|a| - 1] == (m % 10) as char + '0' && b[|b| - 1] == (n % 10) as char + '0';
    assert m >= 10 ==> |a| == |Decimal(m / 10)| + 1;
    assert n >= 10 ==> |b| == |Decimal(n / 10)| + 1;
    if m >= 10 && n >= 10 {
      assert Decimal(m / 10) == a[..|a| - 1] && Decimal(n / 10) == b[..|b| - 1];
      DecimalInjective(m / 10, n / 10);
    }
  }

  // ----- the mutation endpoint's keys -----

  function IdemKey(session: string, requestId: string): string { session + [NUL] + requestId }

  lemma IdemKeyInjective(s1: string, r1: string, s2: string, r2: string)
    requires IdemKey(s1, r1) == IdemKey(s2, r2) && NUL !in s1 && NUL !in s2
    ensures s1 == s2 && r1 == r2
  {
    SplitAtFirst(NUL, s1, r1, s2, r2);
  }

  function HashParams(params: string): Digest { Sha256(params) }

  function RequestFingerprint(operation: string, generation: nat, params: string): Digest {
    HashParams(operation + [NUL] + Decimal(generation) + [NUL] + params)
  }

  lemma RequestFingerprintInjective(o1: string, g1: nat, p1: string, o2: string, g2: nat, p2: string)
    requires RequestFingerprint(o1, g1, p1) == RequestFingerprint(o2, g2, p2)
    requires NUL !in o1 && NUL !in o2
    ensures o1 == o2 && g1 == g2 && p1 == p2
  {
    var d1, d2 := Decimal(g1), Decimal(g2);
    assert o1 + [NUL] + (d1 + [NUL] + p1) == o1 + [NUL] + d1 + [NUL] + p1;
    assert o2 + [NUL] + (d2 + [NUL] + p2) == o2 + [NUL] + d2 + [NUL] + p2;
    SplitAtFirst(NUL, o1, d1 + [NUL] + p1, o2, d2 + [NUL] + p2);
    SplitAtFirst(NUL, d1, p1, d2, p2);
    DecimalInjective(g1, g2);
  }

  /** Two sessions can never share a key if and only if neither continues the other after a NUL. */
  lemma IdemKeySeparatesExactly(s1: string, s2: string)
    requires s1 != s2
    ensures (forall r1, r2 :: IdemKey(s1, r1) != IdemKey(s2, r2)) <==> !(s1 + [NUL] <= s2) && !(s2 + [NUL] <= s1)
  {
    if s1 + [NUL] <= s2 {
      IdemKeyCollides(s1, s2);
    }
    if s2 + [NUL] <= s1 {
      IdemKeyCollides(s2, s1);
    }
    forall r1, r2 | IdemKey(s1, r1) == IdemKey(s2, r2) ensures s1 + [NUL] <= s2 || s2 + [NUL] <= s1 {
      SharedKeyNests(s1, r1, s2, r2);
    }
  }

  lemma IdemKeyCollides(s1: string, s2: string)
    requires s1 + [NUL] <= s2
    ensures IdemKey(s1, s2[|s1| + 1..] + [NUL]) == IdemKey(s2, "")
  {
    assert s2 == s1 + [NUL] + s2[|s1| + 1..];
  }

  lemma SharedKeyNests(s1: string, r1: string, s2: string, r2: string)
    requires IdemKey(s1, r1) == IdemKey(s2, r2) && s1 != s2
    ensures s1 + [NUL] <= s2 || s2 + [NUL] <= s1
  {
    var k := IdemKey(s1, r1);
    assert k[..|s1|] == s1 && k[..|s2|] == s2 && k[|s1|] == NUL && k[|s2|] == NUL;
    assert |s1| < |s2| ==> k[..|s1| + 1] == s1 + [NUL] && k[..|s2|][..|s1| + 1] == k[..|s1| + 1];
    assert |s2| < |s1| ==> k[..|s2| + 1] == s2 + [NUL] && k[..|s1|][..|s2| + 1] == k[..|s2| + 1];
  }

  /** Without the separator discipline keys collide: a NUL in the session moves the cut. */
  lemma IdemKeyNeedsPlainSessions()
    ensures exists s1, r1, s2, r2 :: (s1, r1) != (s2, r2) && IdemKey(s1, r1) == IdemKey(s2, r2)
  {
    assert IdemKey("a", "\0b") == IdemKey("a\0", "b");
  }
}
