/** Byte-bounding text without splitting a character (section 4 of RFC 3629). */
module Utf8Bounds {
  import opened Bytes

  predicate Cont(b: Byte) { 0x80 <= b <= 0xBF }
  predicate RuneStart(b: Byte) { !Cont(b) }

  /** Length of the well-formed character `s` starts with, or 0. */
  function CharLen(s: seq<Byte>): (n: nat)
    ensures n <= 4 && n <= |s|
    ensures n > 0 ==> RuneStart(s[0]) && forall i :: 1 <= i < n ==> Cont(s[i])
  {
    if |s| >= 1 && s[0] <= 0x7F then 1
    else if |s| >= 2 && 0xC2 <= s[0] <= 0xDF && Cont(s[1]) then 2
    else if |s| >= 3 && Three(s[0], s[1]) && Cont(s[1]) && Cont(s[2]) then 3
    else if |s| >= 4 && Four(s[0], s[1]) && Cont(s[1]) && Cont(s[2]) && Cont(s[3]) then 4
    else 0
  }

  /** Second-byte restrictions: no overlong forms, no surrogates, nothing past U+10FFFF. */
  predicate Three(a: Byte, b: Byte) {
    0xE0 <= a <= 0xEF && (a == 0xE0 ==> 0xA0 <= b) && (a == 0xED ==> b <= 0x9F)
  }

  predicate Four(a: Byte, b: Byte) {
    0xF0 <= a <= 0xF4 && (a == 0xF0 ==> 0x90 <= b) && (a == 0xF4 ==> b <= 0x8F)
  }

  predicate Valid(s: seq<Byte>)
    decreases |s|
  {
    s == [] || (CharLen(s) > 0 && Valid(s[CharLen(s)..]))
  }

  /** A cut position that starts a character or ends the text. */
  predicate Boundary(s: seq<Byte>, i: nat) { i == |s| || (i < |s| && RuneStart(s[i])) }

  lemma {:induction false} SuffixValid(s: seq<Byte>, i: nat)
    requires Valid(s) && i <= |s|
    ensures Valid(s[i..]) <==> Boundary(s, i)
    decreases |s|
  {
    if i == 0 {
      assert s[0..] == s;
    } else if i < |s| && Boundary(s, i) {
      var n := CharLen(s);
      assert i >= n;
      SuffixValid(s[n..], i - n);
      assert s[n..][i - n..] == s[i..];
    }
  }

  lemma {:induction false} PrefixValid(s: seq<Byte>, i: nat)
    requires Valid(s) && i <= |s|
    ensures Valid(s[..i]) <==> Boundary(s, i)
    decreases |s|
  {
    if i == |s| {
      assert s[..i] == s;
    } else if i > 0 {
      var n := CharLen(s);
      if i < n {
        ShortChar(s, i);
      } else {
        SameChar(s, i);
        PrefixValid(s[n..], i - n);
        assert s[..i][n..] == s[n..][..i - n];
      }
    }
  }

  lemma ShortChar(s: seq<Byte>, i: nat)
    requires 0 < i < CharLen(s)
    ensures CharLen(s[..i]) == 0
  {
  }

  lemma SameChar(s: seq<Byte>, i: nat)
    requires CharLen(s) <= i <= |s|
    ensures CharLen(s) > 0 ==> CharLen(s[..i]) == CharLen(s)
  {
  }

  /** A boundary is never more than three bytes ahead or behind. */
  lemma {:induction false} BoundaryNear(s: seq<Byte>, i: nat) returns (lo: nat, hi: nat)
    requires Valid(s) && i <= |s|
    ensures i - 3 <= lo <= i <= hi <= i + 3 && hi <= |s| && Boundary(s, lo) && Boundary(s, hi)
    decreases |s|
  {
    if Boundary(s, i) {
      return i, i;
    }
    var n := CharLen(s);
    if i < n {
      SuffixValid(s, n);
      assert Valid(s[n..]);
      return 0, n;
    }
    lo, hi := BoundaryNear(s[n..], i - n);
    lo, hi := lo + n, hi + n;
  }

  /** The longest valid suffix within a byte bound. */
  ghost predicate LongestSuffix(s: seq<Byte>, max: nat, tail: seq<Byte>) {
    && |tail| <= max && |tail| <= |s| && tail == s[|s| - |tail|..] && Valid(tail)
    && forall i :: 0 <= i < |s| - |tail| && |s| - max <= i ==> !Valid(s[i..])
  }

  /** The longest valid prefix within a byte bound. */
  ghost predicate LongestPrefix(s: seq<Byte>, max: nat, head: seq<Byte>) {
    && |head| <= max && head <= s && Valid(head)
    && forall k :: |head| < k <= max && k <= |s| ==> !Valid(s[..k])
  }

  /** Keeps the tail of observed output, advancing past a partial leading character. */
  method BoundTail(s: seq<Byte>, maxBytes: int) returns (tail: seq<Byte>, truncated: bool)
    ensures truncated <==> 0 < maxBytes < |s|
    ensures !truncated ==> tail == s
    ensures truncated && Valid(s) ==> LongestSuffix(s, maxBytes, tail) && |tail| >= maxBytes - 3
    ensures truncated ==> |tail| <= maxBytes && tail == s[|s| - |tail|..] && (tail == [] || RuneStart(tail[0]))
  {
    hide Valid, LongestSuffix;
    if maxBytes <= 0 || |s| <= maxBytes {
      return s, false;
    }
    truncated := true;
    tail := s[|s| - maxBytes..];
    ghost var cut := |s| - maxBytes;
    while |tail| > 0 && !RuneStart(tail[0])
      invariant |s| - maxBytes <= cut <= |s| && tail == s[cut..]
      invariant forall i :: |s| - maxBytes <= i < cut ==> !Boundary(s, i)
      decreases |tail|
    {
      tail := tail[1..];
      cut := cut + 1;
    }
    if Valid(s) {
      TailIsLongest(s, maxBytes, cut);
    }
  }

  lemma TailIsLongest(s: seq<Byte>, max: nat, cut: nat)
    requires Valid(s) && |s| - max <= cut <= |s| && max <= |s| && Boundary(s, cut)
    requires forall i :: |s| - max <= i < cut ==> !Boundary(s, i)
    ensures LongestSuffix(s, max, s[cut..]) && |s[cut..]| >= max - 3
  {
    SuffixValid(s, cut);
    forall i | |s| - max <= i < cut ensures !Valid(s[i..]) {
      SuffixValid(s, i);
    }
    var lo, hi := BoundaryNear(s, |s| - max);
  }

  /** Cuts text to a prefix, backing off from a partial trailing character. */
  method TruncateHead(s: seq<Byte>, maxBytes: nat) returns (head: seq<Byte>)
    ensures |s| <= maxBytes ==> head == s
    ensures |s| > maxBytes && Valid(s) ==> LongestPrefix(s, maxBytes, head) && |head| >= maxBytes - 3
    ensures head <= s && (|s| > maxBytes ==> |head| <= maxBytes)
  {
    if |s| <= maxBytes {
      return s;
    }
    var cut := maxBytes;
    while cut > 0 && !RuneStart(s[cut])
      invariant 0 <= cut <= maxBytes
      invariant forall k :: cut < k <= maxBytes ==> !Boundary(s, k)
    {
      cut := cut - 1;
    }
    head := s[..cut];
    if Valid(s) {
      PrefixValid(s, cut);
      forall k | cut < k <= maxBytes ensures !Valid(s[..k]) {
        PrefixValid(s, k);
      }
      var lo, hi := BoundaryNear(s, maxBytes);
    }
  }
}
