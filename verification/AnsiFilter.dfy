/** The filter object: one parser updated in place, byte by byte. */
module AnsiFilter {
  import opened Bytes
  import opened AnsiParser

  /** A zero limit stands for the default. */
  function Effective(lim: Limits): Limits {
    Limits(if lim.maxSeq == 0 then DEFAULT_MAX_SEQ else lim.maxSeq,
           if lim.maxStr == 0 then DEFAULT_MAX_STR else lim.maxStr)
  }

  lemma {:induction false} DecimalGrows(digits: seq<Byte>, n: nat)
    requires n <= |digits| && forall i :: 0 <= i < |digits| ==> IsDigit(digits[i])
    ensures DecimalValue(digits[..n]) <= DecimalValue(digits)
    decreases |digits| - n
  {
    if n == |digits| {
      assert digits[..n] == digits;
    } else {
      assert digits[..n + 1][..n] == digits[..n] && IsDigit(digits[n]);
      DecimalGrows(digits, n + 1);
    }
  }

  /**
    * The selector loop: the accumulator stops growing once it passes a million,
    * yet it tells the stripped selectors apart exactly as the full number does.
    */
  method ReadSelector(p: seq<Byte>) returns (code: int)
    ensures code == OscCode(p) || (1_000_000 < code <= OscCode(p))
  {
    code := -1;
    var j := 0;
    ghost var n := DigitRun(p);
    while j < |p| && IsDigit(p[j])
      invariant 0 <= j <= n
      invariant code == if j == 0 then -1 else DecimalValue(p[..j])
    {
      if code < 0 {
        code := 0;
      }
      assert p[..j + 1][..j] == p[..j];
      code := code * 10 + (p[j] as int - 0x30);
      if code > 1_000_000 {
        assert p[..n][..j + 1] == p[..j + 1];
        DecimalGrows(p[..n], j + 1);
        break;
      }
      j := j + 1;
    }
  }

  /** Decides the strip rule for a buffered OSC. */
  method DecideOsc(s: seq<Byte>) returns (strip: bool)
    ensures strip == OscShouldStrip(s)
  {
    var p := s;
    if |p| >= 2 && p[0] == ESC && p[1] == RBRACKET {
      p := p[2..];
    }
    if |p| > 0 && p[|p| - 1] == BEL {
      p := p[..|p| - 1];
    } else if |p| >= 2 && p[|p| - 2] == ESC && p[|p| - 1] == BACKSLASH {
      p := p[..|p| - 2];
    }
    assert p == OscBody(s);
    strip := DecidePayload(p);
  }

  method DecidePayload(p: seq<Byte>) returns (strip: bool)
    ensures strip == OscQuery(p)
  {
    var code := ReadSelector(p);
    if code == 0 || code == 1 || code == 2 || code == 8 || code == 52 {
      return true;
    }
    var k := 0;
    while k < |p|
      invariant 0 <= k <= |p| && QUESTION !in p[..k]
    {
      if p[k] == QUESTION {
        return true;
      }
      k := k + 1;
    }
    assert p[..k] == p;
    return false;
  }

  class Filter {
    var phase: Phase
    var pending: seq<Byte>
    var scanned: nat
    var owed: nat
    var maxSeq: int
    var maxStr: int

    function Now(): State reads this { State(phase, pending, scanned, owed) }
    function Bounds(): Limits reads this { Limits(maxSeq, maxStr) }

    constructor ()
      ensures Now() == State(Ground, [], 0, 0) && Bounds() == Limits(4096, 0x10_0000)
    {
      phase, pending, scanned, owed := Ground, [], 0, 0;
      maxSeq, maxStr := DEFAULT_MAX_SEQ, DEFAULT_MAX_STR;
    }

    method Reset()
      modifies this
      ensures Now() == FRESH && Bounds() == old(Bounds())
    {
      phase, pending, scanned, owed := Ground, [], 0, 0;
    }

    method Drop()
      modifies `phase, `pending
      ensures Now() == Home(old(Now()))
    {
      phase, pending := Ground, [];
    }

    method CapPending()
      modifies `phase, `pending
      ensures Now() == Cap(Bounds(), old(Now()))
    {
      if |pending| > maxSeq {
        Drop();
      }
    }

    /** A byte read in ground. */
    method ReadGround(b: Byte) returns (out: seq<Byte>)
      modifies `phase, `pending, `scanned, `owed
      ensures Reaction(Now(), out, false) == InGround(old(Now()), b)
    {
      out := [];
      if owed > 0 {
        if IsContinuation(b) {
          owed := owed - 1;
          return [b];
        }
        owed := 0;
      }
      if b == ESC {
        phase, pending := Esc, [b];
      } else if b == ENQ {
      } else if b == C1_CSI {
        phase, pending := Csi, [ESC, LBRACKET];
      } else if b == C1_OSC {
        phase, pending := Osc, [ESC, RBRACKET];
      } else if IsStringIntro8(b) {
        phase, scanned, pending := Str, 0, [];
      } else if IsC1(b) {
      } else if b >= 0xC0 {
        out := [b];
        owed := Utf8Continuation(b);
      } else {
        out := [b];
      }
    }

    /** A byte read inside an escape or control sequence that is buffered. */
    method ReadSequence(b: Byte) returns (out: seq<Byte>, again: bool)
      requires phase in {Esc, EscInt, Csi}
      modifies `phase, `pending, `scanned
      ensures Reaction(Now(), out, again) == React(Bounds(), old(Now()), b)
    {
      out, again := [], false;
      if phase == Esc {
        if b == LBRACKET {
          phase, pending := Csi, pending + [b];
        } else if b == RBRACKET {
          phase, pending := Osc, pending + [b];
        } else if IsStringIntro7(b) {
          phase, scanned, pending := Str, 0, [];
        } else if b == CAP_Z {
          Drop();
        } else if b == ESC {
          pending := [b];
        } else if IsIntermediate(b) {
          phase, pending := EscInt, pending + [b];
        } else if 0x30 <= b <= 0x7E {
          out := pending + [b];
          Drop();
        } else {
          Drop();
          again := true;
        }
      } else {
        if (if phase == Csi then IsCsiBody(b) else IsIntermediate(b)) {
          pending := pending + [b];
        } else if (if phase == Csi then 0x40 else 0x30) <= b <= 0x7E {
          pending := pending + [b];
          if phase == EscInt || !CsiShouldStrip(pending) {
            out := pending;
          }
          Drop();
        } else if b == ESC {
          phase, pending := Esc, [b];
        } else {
          Drop();
          again := true;
        }
        CapPending();
      }
    }

    /** A byte read inside an OSC or a string control. */
    method ReadString(b: Byte) returns (out: seq<Byte>, again: bool)
      requires phase in {Osc, OscEsc, Str, StrEsc}
      modifies `phase, `pending, `scanned
      ensures Reaction(Now(), out, again) == React(Bounds(), old(Now()), b)
    {
      hide OscShouldStrip, InGround, InEsc, InEscInt, InCsi;
      out, again := [], false;
      match phase {
        case Osc =>
          if b == BEL || b == C1_ST {
            out := FinishOsc([BEL]);
          } else if b == ESC {
            phase := OscEsc;
          } else if b < 0x20 || b == 0x7F || IsC1(b) {
            Drop();
            again := true;
          } else {
            pending := pending + [b];
            CapPending();
          }
        case OscEsc =>
          if b == BACKSLASH {
            out := FinishOsc([ESC, BACKSLASH]);
          } else {
            Drop();
            again := true;
          }
        case Str =>
          if b == BEL || b == C1_ST {
            phase, scanned := Ground, 0;
          } else if b == ESC {
            phase := StrEsc;
          } else {
            scanned := scanned + 1;
            if scanned > maxStr {
              phase, scanned := Ground, 0;
            }
          }
        case StrEsc =>
          phase, scanned := Ground, 0;
          again := b != BACKSLASH;
      }
    }

    method FinishOsc(terminator: seq<Byte>) returns (out: seq<Byte>)
      modifies `phase, `pending
      ensures Now() == Home(old(Now()))
      ensures var done := old(pending) + terminator;
              out == if OscShouldStrip(done) then [] else done
    {
      pending := pending + terminator;
      var strip := DecideOsc(pending);
      out := if strip then [] else pending;
      Drop();
    }

    method ReadByte(b: Byte) returns (out: seq<Byte>, again: bool)
      modifies `phase, `pending, `scanned, `owed
      ensures Reaction(Now(), out, again) == React(Bounds(), old(Now()), b)
      ensures again ==> old(phase) != Ground && phase == Ground
    {
      if phase == Ground {
        out := ReadGround(b);
        again := false;
      } else if phase in {Esc, EscInt, Csi} {
        out, again := ReadSequence(b);
      } else {
        out, again := ReadString(b);
      }
    }

    /**
      * Consumes `p` and returns the bytes it releases. A sequence that aborts
      * steps the index back so its last byte is read again in ground, which is
      * why the loop is measured by the bytes left and then by being in ground.
      */
    method Sanitize(p: seq<Byte>) returns (out: seq<Byte>)
      modifies this
      ensures Bounds() == Effective(old(Bounds()))
      ensures maxSeq == (if old(maxSeq) == 0 then 4096 else old(maxSeq))
      ensures maxStr == (if old(maxStr) == 0 then 0x10_0000 else old(maxStr))
      ensures (Now(), out) == Run(Effective(old(Bounds())), old(Now()), p)
    {
      hide React, Accounts, Run;
      if maxSeq == 0 {
        maxSeq := DEFAULT_MAX_SEQ;
      }
      if maxStr == 0 {
        maxStr := DEFAULT_MAX_STR;
      }
      ghost var lim := Bounds();
      out := [];
      var i := 0;
      AccountsStart(lim, Now(), p);
      while i < |p|
        invariant 0 <= i <= |p| && Bounds() == lim && Accounts(lim, old(Now()), p, Now(), i, out)
        decreases |p| - i, if phase == Ground then 0 else 1
      {
        AccountsStep(lim, old(Now()), p, Now(), i, out);
        var emitted, again := ReadByte(p[i]);
        out := out + emitted;
        if again {
          i := i - 1;
        }
        i := i + 1;
      }
      AccountsEnd(lim, old(Now()), p, Now(), out);
    }
  }

  /** What was released so far and what the rest will release make up the whole. */
  ghost predicate Accounts(lim: Limits, s0: State, p: seq<Byte>, s: State, i: nat, out: seq<Byte>)
    requires i <= |p|
  {
    var rest := Run(lim, s, p[i..]);
    (rest.0, out + rest.1) == Run(lim, s0, p)
  }

  lemma AccountsStart(lim: Limits, s: State, p: seq<Byte>)
    ensures Accounts(lim, s, p, s, 0, [])
  {
    hide Run;
    assert p[0..] == p && [] + Run(lim, s, p).1 == Run(lim, s, p).1;
  }

  lemma AccountsStep(lim: Limits, s0: State, p: seq<Byte>, s: State, i: nat, out: seq<Byte>)
    requires i < |p| && Accounts(lim, s0, p, s, i, out)
    ensures var r := React(lim, s, p[i]); Accounts(lim, s0, p, r.next, if r.again then i else i + 1, out + r.out)
  {
    hide Run, React;
    assert p[i..] == [p[i]] + p[i + 1..];
    StepJoins(lim, s, p[i], p[i + 1..], out);
  }

  lemma AccountsEnd(lim: Limits, s0: State, p: seq<Byte>, s: State, out: seq<Byte>)
    requires Accounts(lim, s0, p, s, |p|, out)
    ensures (s, out) == Run(lim, s0, p)
  {
    hide Run;
    RunEmpty(lim, s);
    assert p[|p|..] == [] && out + [] == out;
  }

  /** A byte asked for again is read in ground, where it is never asked for again. */
  lemma AgainRereads(lim: Limits, s: State, b: Byte)
    requires React(lim, s, b).again
    ensures var r := React(lim, s, b);
            r.out == [] && r.next.phase == Ground && Consume(lim, r.next, b) == Consume(lim, s, b)
  {
    var r' := InGround(React(lim, s, b).next, b);
    assert [] + r'.out == r'.out;
  }

  /** One reaction leaves the joined output of the rest of the stream unchanged. */
  lemma StepAccounts(lim: Limits, s: State, b: Byte, rest: seq<Byte>)
    ensures var r := React(lim, s, b);
            var after := Run(lim, r.next, if r.again then [b] + rest else rest);
            Run(lim, s, [b] + rest) == (after.0, r.out + after.1)
  {
    RunCons(lim, s, b, rest);
    if React(lim, s, b).again {
      AgainRereads(lim, s, b);
      var r := React(lim, s, b);
      RunCons(lim, r.next, b, rest);
      hide Run, Consume, React, InGround;
      var after := Run(lim, r.next, [b] + rest);
      assert [] + after.1 == after.1;
    }
  }

  lemma StepJoins(lim: Limits, s: State, b: Byte, rest: seq<Byte>, out: seq<Byte>)
    ensures var r := React(lim, s, b);
            var whole := Run(lim, s, [b] + rest);
            var after := Run(lim, r.next, if r.again then [b] + rest else rest);
            whole.0 == after.0 && out + whole.1 == (out + r.out) + after.1
  {
    StepAccounts(lim, s, b, rest);
    hide Run, React;
    var r := React(lim, s, b);
    var after := Run(lim, r.next, if r.again then [b] + rest else rest);
    assert out + (r.out + after.1) == (out + r.out) + after.1;
  }
}
