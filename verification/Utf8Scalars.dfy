/** Valid UTF-8 is what encoding Unicode scalar values gives: section 3 of RFC 3629. */
module Utf8Scalars {
  import opened Bytes
  import opened Utf8Bounds

  /** A code point that is no surrogate. */
  predicate IsScalar(c: int) { 0 <= c <= 0xD7FF || 0xE000 <= c <= 0x10FFFF }

  function Encode(c: int): seq<Byte>
    requires IsScalar(c)
  {
    if c < 0x80 then [c as Byte]
    else if c < 0x800 then [(0xC0 + c / 0x40) as Byte, (0x80 + c % 0x40) as Byte]
    else if c < 0x10000 then
      [(0xE0 + c / 0x1000) as Byte, (0x80 + c / 0x40 % 0x40) as Byte, (0x80 + c % 0x40) as Byte]
    else
      [(0xF0 + c / 0x40000) as Byte, (0x80 + c / 0x1000 % 0x40) as Byte, (0x80 + c / 0x40 % 0x40) as Byte,
       (0x80 + c % 0x40) as Byte]
  }

  predicate AllScalars(cs: seq<int>) { forall i :: 0 <= i < |cs| ==> IsScalar(cs[i]) }

  function EncodeAll(cs: seq<int>): seq<Byte>
    requires AllScalars(cs)
  {
    if cs == [] then [] else Encode(cs[0]) + EncodeAll(cs[1..])
  }

  /** The six-bit digits of a number, and back. */
  lemma SixBits(a: int, b: int, c: int, d: int)
    requires 0 <= a && 0 <= b < 0x40 && 0 <= c < 0x40 && 0 <= d < 0x40
    ensures var n := a * 0x40000 + b * 0x1000 + c * 0x40 + d;
            n / 0x40000 == a && n / 0x1000 % 0x40 == b && n / 0x40 % 0x40 == c && n % 0x40 == d
            && n / 0x1000 == a * 0x40 + b && n / 0x40 == a * 0x1000 + b * 0x40 + c
  {
    var n := a * 0x40000 + b * 0x1000 + c * 0x40 + d;
    assert n == (a * 0x40 + b) * 0x1000 + (c * 0x40 + d);
    assert n == (a * 0x1000 + b * 0x40 + c) * 0x40 + d;
  }

  /** The digits stay within what each form allows. */
  lemma Digits(c: int)
    requires IsScalar(c)
    ensures 0x80 <= c < 0x800 ==> 2 <= c / 0x40 <= 0x1F
    ensures 0x800 <= c < 0x10000 ==>
              && c / 0x1000 <= 0xF && (c / 0x1000 == 0 ==> c / 0x40 % 0x40 >= 0x20)
              && (c / 0x1000 == 0xD ==> c / 0x40 % 0x40 <= 0x1F)
    ensures 0x10000 <= c ==>
              && c / 0x40000 <= 4 && (c / 0x40000 == 0 ==> c / 0x1000 % 0x40 >= 0x10)
              && (c / 0x40000 == 4 ==> c / 0x1000 % 0x40 <= 0xF)
  {
  }

  lemma EncodedAlone(c: int)
    requires IsScalar(c)
    ensures CharLen(Encode(c)) == |Encode(c)|
  {
    Digits(c);
  }

  lemma EncodedLength(c: int, rest: seq<Byte>)
    requires IsScalar(c)
    ensures CharLen(Encode(c) + rest) == |Encode(c)|
  {
    EncodedAlone(c);
    var e := Encode(c);
    hide Encode;
    assert forall i :: 0 <= i < |e| ==> (e + rest)[i] == e[i];
    assert |e| > 0 by { NotEmpty(c); }
    LongerChar(e, e + rest);
  }

  lemma NotEmpty(c: int)
    requires IsScalar(c)
    ensures 0 < |Encode(c)| <= 4
  {
  }

  /** A whole character at the front is read the same whatever follows. */
  lemma LongerChar(e: seq<Byte>, s: seq<Byte>)
    requires 0 < |e| <= |s| && CharLen(e) == |e| && forall i :: 0 <= i < |e| ==> s[i] == e[i]
    ensures CharLen(s) == |e|
  {
  }

  lemma Decoded2(s: seq<Byte>) returns (c: int)
    requires |s| == 2 && 0xC2 <= s[0] <= 0xDF && Cont(s[1])
    ensures IsScalar(c) && Encode(c) == s
  {
    var x, y := s[0] as int - 0xC0, s[1] as int - 0x80;
    c := x * 0x40 + y;
    SixBits(0, 0, x, y);
  }

  lemma Decoded3(s: seq<Byte>) returns (c: int)
    requires |s| == 3 && Three(s[0], s[1]) && Cont(s[1]) && Cont(s[2])
    ensures IsScalar(c) && Encode(c) == s
  {
    var x, y, z := s[0] as int - 0xE0, s[1] as int - 0x80, s[2] as int - 0x80;
    c := x * 0x1000 + y * 0x40 + z;
    SixBits(0, x, y, z);
    assert 0x800 <= c < 0x10000 && IsScalar(c);
  }

  lemma Decoded4(s: seq<Byte>) returns (c: int)
    requires |s| == 4 && Four(s[0], s[1]) && Cont(s[1]) && Cont(s[2]) && Cont(s[3])
    ensures IsScalar(c) && Encode(c) == s
  {
    var w, x, y, z := s[0] as int - 0xF0, s[1] as int - 0x80, s[2] as int - 0x80, s[3] as int - 0x80;
    c := w * 0x40000 + x * 0x1000 + y * 0x40 + z;
    SixBits(w, x, y, z);
    assert 0x10000 <= c <= 0x10FFFF;
  }

  /** The scalar value that a character's bytes stand for. */
  lemma DecodedChar(s: seq<Byte>) returns (c: int)
    requires CharLen(s) > 0
    ensures IsScalar(c) && Encode(c) == s[..CharLen(s)]
  {
    var n := CharLen(s);
    if n == 1 {
      c := s[0] as int;
    } else if n == 2 {
      c := Decoded2(s[..2]);
    } else if n == 3 {
      c := Decoded3(s[..3]);
    } else {
      c := Decoded4(s[..4]);
    }
  }

  lemma {:induction false} EncodedIsValid(cs: seq<int>)
    requires AllScalars(cs)
    ensures Valid(EncodeAll(cs))
    decreases |cs|
  {
    if cs != [] {
      EncodedIsValid(cs[1..]);
      EncodedLength(cs[0], EncodeAll(cs[1..]));
      hide CharLen, Encode;
      var s := EncodeAll(cs);
      assert s[|Encode(cs[0])|..] == EncodeAll(cs[1..]);
    }
  }

  lemma ConsEncoded(c: int, rest: seq<int>)
    requires IsScalar(c) && AllScalars(rest)
    ensures AllScalars([c] + rest) && EncodeAll([c] + rest) == Encode(c) + EncodeAll(rest)
  {
    hide Encode, IsScalar;
    assert ([c] + rest)[1..] == rest;
  }

  lemma {:induction false} ValidIsEncoded(s: seq<Byte>) returns (cs: seq<int>)
    requires Valid(s)
    ensures AllScalars(cs) && EncodeAll(cs) == s
    decreases |s|
  {
    hide Encode, CharLen, IsScalar;
    if s == [] {
      cs := [];
    } else {
      var n := CharLen(s);
      var c := DecodedChar(s);
      var rest := ValidIsEncoded(s[n..]);
      hide EncodeAll;
      ConsEncoded(c, rest);
      cs := [c] + rest;
      assert s == s[..n] + s[n..];
    }
  }

  /** A byte string is valid exactly when it encodes some scalar values. */
  lemma ValidExactly(s: seq<Byte>)
    ensures Valid(s) <==> exists cs :: AllScalars(cs) && EncodeAll(cs) == s
  {
    if Valid(s) {
      var cs := ValidIsEncoded(s);
    }
    if cs :| AllScalars(cs) && EncodeAll(cs) == s {
      EncodedIsValid(cs);
    }
  }
}
