/**
  * What the filter guarantees of any byte stream: its output is a sequence of
  * safe tokens, and such sequences are exactly the streams it leaves alone.
  */
module AnsiSafety {
  import opened Bytes
  import opened AnsiParser
  import opened AnsiTokens

  // ----- streams of whole tokens -----

  lemma {:induction false} TokensRun(lim: Limits, s: State, toks: seq<Token>)
    requires AllWellFormed(lim, toks) && Spaced(toks)
    requires s == Resting(s.owed) && (toks != [] ==> Ready(s, Wire(toks[0])[0]))
    ensures Run(lim, s, WireAll(toks)).1 == RenderAll(toks)
    decreases |toks|
  {
    if toks != [] {
      TokenRuns(lim, s, toks[0]);
      RunAppend(lim, s, Wire(toks[0]), WireAll(toks[1..]));
      hide Run;
      var s' := Resting(Owed(toks[0]));
      assert Spaced(toks[1..]) by {
        forall i | 0 <= i < |toks[1..]| - 1 && Owed(toks[1..][i]) > 0
          ensures !IsContinuation(Wire(toks[1..][i + 1])[0])
        {
          assert toks[1..][i] == toks[i + 1] && toks[1..][i + 1] == toks[i + 2];
          assert !IsContinuation(Wire(toks[i + 1 + 1])[0]);
        }
      }
      if |toks| > 1 {
        assert toks[1..][0] == toks[0 + 1];
      }
      TokensRun(lim, s', toks[1..]);
    }
  }

  /**
    * A stream of whole tokens, safe or not, comes out as the rendering of each:
    * safe sequences intact, 8-bit ones in 7-bit form, queries and strings gone.
    */
  lemma StreamRendered(lim: Limits, toks: seq<Token>)
    requires AllWellFormed(lim, toks) && Spaced(toks)
    ensures Filtered(lim, WireAll(toks)) == RenderAll(toks)
  {
    TokensRun(lim, FRESH, toks);
  }

  // ----- safe tokens pass -----

  lemma SafeTokenPasses(lim: Limits, owed: nat, t: Token) returns (left: nat)
    requires Safe(lim, t)
    ensures Run(lim, Resting(owed), Wire(t)) == (Resting(left), Wire(t))
  {
    if t.Plain? && owed > 0 && IsContinuation(t.b) {
      RunOne(lim, Resting(owed), t.b);
      left := owed - 1;
    } else {
      TokenRuns(lim, Resting(owed), t);
      left := Owed(t);
    }
  }

  lemma {:induction false} SafeTokensPass(lim: Limits, owed: nat, toks: seq<Token>)
    requires AllSafe(lim, toks)
    ensures Run(lim, Resting(owed), WireAll(toks)).1 == WireAll(toks)
    ensures Run(lim, Resting(owed), WireAll(toks)).0.phase == Ground
    decreases |toks|
  {
    if toks != [] {
      var left := SafeTokenPasses(lim, owed, toks[0]);
      RunAppend(lim, Resting(owed), Wire(toks[0]), WireAll(toks[1..]));
      hide Run;
      SafeTokensPass(lim, left, toks[1..]);
    }
  }

  // ----- any stream -----

  /** The buffered part of a reachable state, as a token cut short. */
  predicate Shaped(lim: Limits, s: State) {
    match s.phase
    case Ground => s.pending == [] && s.scanned == 0
    case Esc => s.pending == [ESC] && s.scanned == 0 && s.owed == 0
    case EscInt =>
      && |s.pending| >= 2 && s.pending[0] == ESC && All(s.pending[1..], IsIntermediate)
      && (|s.pending| <= 2 || |s.pending| <= lim.maxSeq) && s.scanned == 0 && s.owed == 0
    case Csi =>
      && |s.pending| >= 2 && s.pending[..2] == [ESC, LBRACKET] && All(s.pending[2..], IsCsiBody)
      && (|s.pending| == 2 || |s.pending| <= lim.maxSeq) && s.scanned == 0 && s.owed == 0
    case Osc => OscShaped(lim, s)
    case OscEsc => OscShaped(lim, s)
    case Str => s.pending == [] && s.owed == 0
    case StrEsc => s.pending == [] && s.owed == 0
  }

  predicate OscShaped(lim: Limits, s: State) {
    && |s.pending| >= 2 && s.pending[..2] == [ESC, RBRACKET] && All(s.pending[2..], IsOscPayload)
    && (|s.pending| == 2 || |s.pending| <= lim.maxSeq) && s.scanned == 0 && s.owed == 0
  }

  /** What is released: nothing, or one safe token that expects no continuation. */
  ghost predicate Releases(lim: Limits, out: seq<Byte>) {
    out == [] || exists t :: Safe(lim, t) && Wire(t) == out && Owed(t) == 0
  }

  lemma SafeEsc(lim: Limits, ints: seq<Byte>, final: Byte)
    requires WellFormed(lim, EscSeq(ints, final)) && (ints != [] || final != CAP_Z)
    ensures Releases(lim, [ESC] + ints + [final])
  {
    var t := EscSeq(ints, final);
    assert Safe(lim, t) && Wire(t) == [ESC] + ints + [final] && Owed(t) == 0;
  }

  lemma EscReleases(lim: Limits, s: State, b: Byte)
    requires Shaped(lim, s) && s.phase in {Esc, EscInt}
    ensures Shaped(lim, React(lim, s, b).next) && Releases(lim, React(lim, s, b).out)
  {
    hide InCsi, InOsc, InOscEsc, InStr, InGround, Safe, Wire, Owed;
    var r := React(lim, s, b);
    if r.out != [] {
      assert s.pending + [b] == [ESC] + s.pending[1..] + [b];
      SafeEsc(lim, s.pending[1..], b);
    } else if r.next.phase == EscInt {
      assert r.next.pending[1..] == s.pending[1..] + [b];
    }
  }

  lemma CsiReleases(lim: Limits, s: State, b: Byte)
    requires Shaped(lim, s) && s.phase == Csi
    ensures Shaped(lim, React(lim, s, b).next) && Releases(lim, React(lim, s, b).out)
  {
    var r := React(lim, s, b);
    var done := s.pending + [b];
    assert done[2..] == s.pending[2..] + [b];
    if r.out != [] {
      CsiDone(lim, s, b);
    }
  }

  lemma CsiDone(lim: Limits, s: State, b: Byte)
    requires Shaped(lim, s) && s.phase == Csi && 0x40 <= b <= 0x7E && !CsiShouldStrip(s.pending + [b])
    ensures Releases(lim, s.pending + [b])
  {
    hide CsiQuery, CsiShouldStrip;
    var mid := s.pending[2..];
    var t, done := CsiSeq(false, mid, b), s.pending + [b];
    assert s.pending == [ESC, LBRACKET] + mid;
    assert Wire(t) == done;
    CsiKept(mid, b);
    assert [ESC, LBRACKET] + mid + [b] == done;
    assert Safe(lim, t) && Owed(t) == 0;
  }

  lemma CsiKept(mid: seq<Byte>, final: Byte)
    ensures CsiShouldStrip([ESC, LBRACKET] + mid + [final]) == CsiQuery(mid, final)
  {
    hide CsiQuery;
    var done := [ESC, LBRACKET] + mid + [final];
    assert done[2..|done| - 1] == mid;
    assert done[2..] == mid + [final];
    assert (mid + [final])[..|mid|] == mid;
  }

  lemma OscDone(lim: Limits, s: State, end: Terminator)
    requires OscShaped(lim, s) && end != St8 && !OscShouldStrip(s.pending + Ending(end))
    ensures Releases(lim, s.pending + Ending(end))
  {
    hide OscQuery;
    var t := OscSeq(false, s.pending[2..], end);
    var done := s.pending + Ending(end);
    OscBodyIs(t.payload, end);
    assert done == [ESC, RBRACKET] + t.payload + Ending(end);
    assert Wire(t) == done;
    assert Safe(lim, t) && Owed(t) == 0;
  }

  lemma OscReleases(lim: Limits, s: State, b: Byte)
    requires Shaped(lim, s) && s.phase in {Osc, OscEsc}
    ensures Shaped(lim, React(lim, s, b).next) && Releases(lim, React(lim, s, b).out)
  {
    var r := React(lim, s, b);
    if r.out != [] {
      OscDone(lim, s, if s.phase == Osc then Bel else St7);
    } else if r.next.phase == Osc {
      assert r.next.pending[2..] == s.pending[2..] + [b];
    }
  }

  lemma GroundReleases(lim: Limits, s: State, b: Byte)
    requires Shaped(lim, s) && s.phase == Ground && !(s.owed > 0 && IsContinuation(b))
    ensures var r := InGround(s, b);
            && Shaped(lim, r.next)
            && (r.out == [] ==> r.next.owed == 0)
            && (r.out != [] ==> exists t :: Safe(lim, t) && Wire(t) == r.out && Owed(t) == r.next.owed)
  {
    var r := InGround(s, b);
    if r.out != [] {
      var t := if b >= 0xC0 then Rune(b, []) else Plain(b);
      assert Wire(t) == r.out && Safe(lim, t);
    }
  }

  lemma WireSnoc(toks: seq<Token>, t: Token)
    ensures WireAll(toks + [t]) == WireAll(toks) + Wire(t)
  {
    if toks == [] {
      assert [t][1..] == [];
    } else {
      assert (toks + [t])[1..] == toks[1..] + [t];
      WireSnoc(toks[1..], t);
    }
  }

  /** The token split of the output so far, and how it meets the filter state. */
  ghost predicate Split(lim: Limits, r: (State, seq<Byte>), toks: seq<Token>) {
    && Shaped(lim, r.0) && AllSafe(lim, toks) && WireAll(toks) == r.1
    && (r.0.owed > 0 ==> toks != [] && Owed(toks[|toks| - 1]) == r.0.owed)
  }

  lemma SplitSnoc(lim: Limits, s: State, o: seq<Byte>, toks: seq<Token>, s': State, t: Token)
    requires Split(lim, (s, o), toks) && Shaped(lim, s') && Safe(lim, t) && Owed(t) == s'.owed
    ensures Split(lim, (s', o + Wire(t)), toks + [t])
  {
    WireSnoc(toks, t);
  }

  lemma SafeGrows(lim: Limits, t: Token, b: Byte) returns (grown: Token)
    requires Safe(lim, t) && Owed(t) > 0 && IsContinuation(b)
    ensures Safe(lim, grown) && Wire(grown) == Wire(t) + [b] && Owed(grown) == Owed(t) - 1
  {
    grown := RuneGrows(lim, t, b);
  }

  lemma ContinuationSplit(lim: Limits, s: State, o: seq<Byte>, toks: seq<Token>, b: Byte) returns (toks': seq<Token>)
    requires Split(lim, (s, o), toks) && s.phase == Ground && s.owed > 0 && IsContinuation(b)
    ensures Split(lim, (s.(owed := s.owed - 1), o + [b]), toks')
  {
    hide Safe, Wire, Owed, WireAll;
    var init, last := toks[..|toks| - 1], toks[|toks| - 1];
    var grown := SafeGrows(lim, last, b);
    assert toks == init + [last];
    WireSnoc(init, last);
    WireSnoc(init, grown);
    toks' := init + [grown];
  }

  lemma GroundSplit(lim: Limits, s: State, o: seq<Byte>, toks: seq<Token>, b: Byte) returns (toks': seq<Token>)
    requires Split(lim, (s, o), toks) && s.phase == Ground
    ensures var r := InGround(s, b); Split(lim, (r.next, o + r.out), toks')
  {
    var r := InGround(s, b);
    if s.owed > 0 && IsContinuation(b) {
      toks' := ContinuationSplit(lim, s, o, toks, b);
    } else {
      GroundReleases(lim, s, b);
      if r.out == [] {
        assert o + [] == o;
        toks' := toks;
      } else {
        var t :| Safe(lim, t) && Wire(t) == r.out && Owed(t) == r.next.owed;
        SplitSnoc(lim, s, o, toks, r.next, t);
        toks' := toks + [t];
      }
    }
  }

  lemma ReactReleases(lim: Limits, s: State, b: Byte)
    requires Shaped(lim, s) && s.phase != Ground
    ensures var r := React(lim, s, b);
            && Shaped(lim, r.next) && Releases(lim, r.out) && r.next.owed == 0
            && (r.again ==> r.out == [] && r.next.phase == Ground)
  {
    if s.phase in {Esc, EscInt} {
      EscReleases(lim, s, b);
    } else if s.phase == Csi {
      CsiReleases(lim, s, b);
    } else if s.phase in {Osc, OscEsc} {
      OscReleases(lim, s, b);
    }
  }

  lemma ByteSplit(lim: Limits, s: State, o: seq<Byte>, toks: seq<Token>, b: Byte) returns (toks': seq<Token>)
    requires Split(lim, (s, o), toks)
    ensures var c := Consume(lim, s, b); Split(lim, (c.0, o + c.1), toks')
  {
    if s.phase == Ground {
      GroundConsume(lim, s, b);
      hide Consume, React, InGround, Split;
      toks' := GroundSplit(lim, s, o, toks, b);
    } else {
      ReactReleases(lim, s, b);
      hide React, InGround, WireAll;
      var r := React(lim, s, b);
      if r.again {
        assert Split(lim, (r.next, o), toks);
        toks' := GroundSplit(lim, r.next, o, toks, b);
        assert r.out + InGround(r.next, b).out == InGround(r.next, b).out;
      } else if r.out == [] {
        assert o + [] == o;
        toks' := toks;
      } else {
        var t :| Safe(lim, t) && Wire(t) == r.out && Owed(t) == 0;
        SplitSnoc(lim, s, o, toks, r.next, t);
        toks' := toks + [t];
      }
    }
  }

  lemma {:induction false} OutputSplits(lim: Limits, p: seq<Byte>) returns (toks: seq<Token>)
    ensures Split(lim, Run(lim, FRESH, p), toks)
    decreases |p|
  {
    if p == [] {
      toks := [];
    } else {
      var a, b := p[..|p| - 1], p[|p| - 1];
      assert p == a + [b];
      var before := OutputSplits(lim, a);
      RunSnoc(lim, FRESH, a, b);
      hide Consume, Run;
      var r := Run(lim, FRESH, a);
      toks := ByteSplit(lim, r.0, r.1, before, b);
    }
  }

  /** Output closure: whatever the stream, only safe tokens leave the filter. */
  lemma OutputIsSafe(lim: Limits, p: seq<Byte>)
    ensures exists toks :: AllSafe(lim, toks) && WireAll(toks) == Filtered(lim, p)
  {
    var toks := OutputSplits(lim, p);
  }

  /** Sequences of safe tokens are exactly the streams the filter leaves unchanged. */
  lemma FixedPoints(lim: Limits, p: seq<Byte>)
    ensures Filtered(lim, p) == p <==> exists toks :: AllSafe(lim, toks) && WireAll(toks) == p
  {
    if toks :| AllSafe(lim, toks) && WireAll(toks) == p {
      SafeTokensPass(lim, 0, toks);
    }
    if Filtered(lim, p) == p {
      OutputIsSafe(lim, p);
    }
  }

  /** Filtering what was already filtered changes nothing. */
  lemma Idempotence(lim: Limits, p: seq<Byte>)
    ensures Filtered(lim, Filtered(lim, p)) == Filtered(lim, p)
  {
    OutputIsSafe(lim, p);
    FixedPoints(lim, Filtered(lim, p));
  }

  /** No answerback trigger reaches the browser, in or out of a sequence. */
  lemma NoAnswerback(lim: Limits, p: seq<Byte>)
    ensures ENQ !in Filtered(lim, p)
  {
    var toks := OutputSplits(lim, p);
    SafeTokensLackEnq(lim, toks);
  }

  lemma SafeTokenLacksEnq(lim: Limits, t: Token)
    requires Safe(lim, t)
    ensures ENQ !in Wire(t)
  {
    hide CsiQuery, OscQuery;
  }

  lemma {:induction false} SafeTokensLackEnq(lim: Limits, toks: seq<Token>)
    requires AllSafe(lim, toks)
    ensures ENQ !in WireAll(toks)
  {
    hide Safe, Wire;
    if toks != [] {
      SafeTokensLackEnq(lim, toks[1..]);
      SafeTokenLacksEnq(lim, toks[0]);
    }
  }
}
