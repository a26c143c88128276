/** What the filter may hold and how far its output may outgrow its input. */
module AnsiBounds {
  import opened Bytes
  import opened AnsiParser
  import opened AnsiTokens
  import opened AnsiSafety

  function Max(a: int, b: int): int { if a < b then b else a }

  /**
    * The accounting of a state reached after `read` bytes with `written` bytes
    * released: a buffered sequence is already paid for, except that an 8-bit
    * introducer buffers two bytes for one.
    */
  predicate Balanced(lim: Limits, s: State, read: nat, written: nat) {
    && |s.pending| <= Max(2, lim.maxSeq) && s.scanned <= Max(0, lim.maxStr)
    && match s.phase
       case Ground => 2 * written <= 3 * read
       case Str => 2 * written <= 3 * read
       case StrEsc => 2 * written <= 3 * read
       case OscEsc => 2 * written + 2 * |s.pending| <= 3 * read - 2
       case _ => 2 * written + 2 * |s.pending| <= 3 * read + 1
  }

  lemma GroundBalanced(lim: Limits, s: State, b: Byte, read: nat, written: nat)
    requires s.phase == Ground && Shaped(lim, s) && Balanced(lim, s, read, written)
    ensures var r := InGround(s, b); Balanced(lim, r.next, read + 1, written + |r.out|)
  {
  }

  lemma ReactBalanced(lim: Limits, s: State, b: Byte, read: nat, written: nat)
    requires s.phase != Ground && Shaped(lim, s) && Balanced(lim, s, read, written)
    ensures var r := React(lim, s, b);
            Balanced(lim, r.next, if r.again then read else read + 1, written + |r.out|)
  {
  }

  lemma ByteBalanced(lim: Limits, s: State, b: Byte, read: nat, written: nat)
    requires Shaped(lim, s) && Balanced(lim, s, read, written)
    ensures var c := Consume(lim, s, b); Balanced(lim, c.0, read + 1, written + |c.1|)
  {
    if s.phase == Ground {
      GroundConsume(lim, s, b);
      GroundBalanced(lim, s, b, read, written);
    } else {
      ReactReleases(lim, s, b);
      ReactBalanced(lim, s, b, read, written);
      var r := React(lim, s, b);
      if r.again {
        GroundBalanced(lim, r.next, b, read, written);
      }
    }
  }

  lemma {:induction false} RunBalanced(lim: Limits, p: seq<Byte>)
    ensures var r := Run(lim, FRESH, p); Balanced(lim, r.0, |p|, |r.1|)
    decreases |p|
  {
    if p != [] {
      var a, b := p[..|p| - 1], p[|p| - 1];
      assert p == a + [b];
      RunBalanced(lim, a);
      var toks := OutputSplits(lim, a);
      RunSnoc(lim, FRESH, a, b);
      hide Run, Consume, Balanced;
      ByteBalanced(lim, Run(lim, FRESH, a).0, b, |a|, |Run(lim, FRESH, a).1|);
    }
  }

  /** After any stream: the output is at most half as long again, and the buffers are bounded. */
  lemma ResourceBounds(lim: Limits, p: seq<Byte>)
    ensures 2 * |Filtered(lim, p)| <= 3 * |p|
    ensures |Run(lim, FRESH, p).0.pending| <= Max(2, lim.maxSeq)
    ensures Run(lim, FRESH, p).0.scanned <= Max(0, lim.maxStr)
  {
    RunBalanced(lim, p);
    var toks := OutputSplits(lim, p);
  }

  /** The size cap bounds the pending buffer exactly when it leaves room for an introducer. */
  lemma PendingWithinCapExactly(lim: Limits)
    ensures (forall p :: |Run(lim, FRESH, p).0.pending| <= lim.maxSeq) <==> lim.maxSeq >= 2
  {
    forall p ensures |Run(lim, FRESH, p).0.pending| <= Max(2, lim.maxSeq) {
      ResourceBounds(lim, p);
    }
    hide Run;
    IntroducerPending(lim);
  }

  /** The failing input: an 8-bit CSI alone leaves its two 7-bit introducer bytes pending. */
  lemma IntroducerPending(lim: Limits)
    ensures |Run(lim, FRESH, [C1_CSI]).0.pending| == 2
  {
    IntroRuns(lim, FRESH, true, C1_CSI, LBRACKET, State(Csi, [ESC, LBRACKET], 0, 0));
  }

  function Sgr(n: nat): (toks: seq<Token>)
    ensures |toks| == n && forall i :: 0 <= i < n ==> toks[i] == CsiSeq(true, [], 0x6D)
  {
    if n == 0 then [] else [CsiSeq(true, [], 0x6D)] + Sgr(n - 1)
  }

  lemma {:induction false} SgrLengths(n: nat)
    ensures |WireAll(Sgr(n))| == 2 * n && |RenderAll(Sgr(n))| == 3 * n
  {
    if n > 0 {
      SgrLengths(n - 1);
      assert Sgr(n)[1..] == Sgr(n - 1);
    }
  }

  /** The factor is reached at every length, by 8-bit SGR resets. */
  lemma ResourceBoundTight(lim: Limits, n: nat)
    ensures |WireAll(Sgr(n))| == 2 * n
    ensures 2 * |Filtered(lim, WireAll(Sgr(n)))| == 3 * |WireAll(Sgr(n))|
  {
    SgrLengths(n);
    StreamRendered(lim, Sgr(n));
  }
}
