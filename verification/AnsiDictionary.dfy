/**
  * What becomes of each control function and character, byte value by byte value.
  * Every entry holds after any stream that leaves the filter at rest.
  */
module AnsiDictionary {
  import opened Bytes
  import opened AnsiParser
  import opened AnsiTokens
  import opened AnsiLexing

  /** The stream `p` ends between two control functions, with no character unfinished. */
  predicate AtRest(lim: Limits, p: seq<Byte>) { Run(lim, FRESH, p).0 == State(Ground, [], 0, 0) }

  /** After `p` the bytes `w` come out as `out`, and the filter is at rest again. */
  predicate Becomes(lim: Limits, p: seq<Byte>, w: seq<Byte>, out: seq<Byte>) {
    Filtered(lim, p + w) == Filtered(lim, p) + out && AtRest(lim, p + w)
  }

  /** A new filter is at rest. */
  lemma FreshAtRest(lim: Limits)
    ensures AtRest(lim, [])
  {
    RunEmpty(lim, FRESH);
  }

  lemma TokenBecomes(lim: Limits, p: seq<Byte>, t: Token)
    requires AtRest(lim, p) && WellFormed(lim, t) && Owed(t) == 0
    ensures Becomes(lim, p, Wire(t), Render(t))
  {
    hide Run, Wire, Render, WellFormed;
    TokenRuns(lim, Resting(0), t);
    RunAppend(lim, FRESH, p, Wire(t));
  }

  predicate Has(s: seq<Byte>, b: Byte) { exists i :: 0 <= i < |s| && s[i] == b }

  predicate Between(s: seq<Byte>, lo: Byte, hi: Byte) { forall i :: 0 <= i < |s| ==> lo <= s[i] <= hi }

  // ----- control sequences -----

  /**
    * A control sequence is dropped exactly when its final byte is n, c or t; p with a
    * $; q with a > and no space; x without a $; or y with a *. Any other comes out in
    * 7-bit form.
    */
  lemma ControlSequence(lim: Limits, p: seq<Byte>, eight: bool, mid: seq<Byte>, final: Byte)
    requires AtRest(lim, p) && Between(mid, 0x20, 0x3F) && 0x40 <= final <= 0x7E
    requires mid == [] || 2 + |mid| <= lim.maxSeq
    ensures var query := || final == 0x6E || final == 0x63 || final == 0x74
                         || (final == 0x70 && Has(mid, 0x24))
                         || (final == 0x71 && Has(mid, 0x3E) && !Has(mid, 0x20))
                         || (final == 0x78 && !Has(mid, 0x24))
                         || (final == 0x79 && Has(mid, 0x2A));
            Becomes(lim, p, (if eight then [0x9B] else [0x1B, 0x5B]) + mid + [final],
                    if query then [] else [0x1B, 0x5B] + mid + [final])
  {
    hide Becomes, AtRest;
    TokenBecomes(lim, p, CsiSeq(eight, mid, final));
  }

  // ----- operating system commands -----

  /** The payload opens with the number written `digits`, leading zeros aside. */
  ghost predicate Selects(payload: seq<Byte>, digits: seq<Byte>) {
    exists z :: SelectsAt(payload, digits, z)
  }

  predicate SelectsAt(payload: seq<Byte>, digits: seq<Byte>, z: nat) {
    && z + |digits| <= |payload| && (forall i :: 0 <= i < z ==> payload[i] == 0x30)
    && payload[z..z + |digits|] == digits
    && (z + |digits| < |payload| ==> !(0x30 <= payload[z + |digits|] <= 0x39))
  }

  predicate Payload(payload: seq<Byte>) {
    forall i :: 0 <= i < |payload| ==> 0x20 <= payload[i] <= 0x7E || 0xA0 <= payload[i]
  }

  /**
    * A command is dropped exactly when its number is 0, 1, 2, 8 or 52, however many
    * zeros lead it, or when it holds a question mark. Any other comes out in 7-bit form.
    */
  lemma OperatingCommand(lim: Limits, p: seq<Byte>, eight: bool, payload: seq<Byte>, end: seq<Byte>)
    requires AtRest(lim, p) && Payload(payload) && (payload == [] || 2 + |payload| <= lim.maxSeq)
    requires end == [0x07] || end == [0x1B, 0x5C] || end == [0x9C]
    ensures var query := || Has(payload, 0x3F) || Selects(payload, [0x30]) || Selects(payload, [0x31])
                         || Selects(payload, [0x32]) || Selects(payload, [0x38]) || Selects(payload, [0x35, 0x32]);
            Becomes(lim, p, (if eight then [0x9D] else [0x1B, 0x5D]) + payload + end,
                    if query then [] else [0x1B, 0x5D] + payload + (if end == [0x9C] then [0x07] else end))
  {
    hide Becomes, AtRest, OscQuery, Selects;
    var e := if end == [0x07] then Bel else if end == [0x9C] then St8 else St7;
    TokenBecomes(lim, p, OscSeq(eight, payload, e));
    QueryExactly(payload);
  }

  lemma QueryExactly(payload: seq<Byte>)
    ensures OscQuery(payload) <==>
              || Has(payload, 0x3F) || Selects(payload, [0x30]) || Selects(payload, [0x31])
              || Selects(payload, [0x32]) || Selects(payload, [0x38]) || Selects(payload, [0x35, 0x32])
  {
    hide OscCode, Selects;
    CodeIs(payload, [0x30], 0);
    CodeIs(payload, [0x31], 1);
    CodeIs(payload, [0x32], 2);
    CodeIs(payload, [0x38], 8);
    CodeIs(payload, [0x35, 0x32], 52);
  }

  /** Decimal digits and the number they write, as far as the filter looks for it. */
  predicate Names(digits: seq<Byte>, code: nat) {
    || (|digits| == 1 && 0x30 <= digits[0] <= 0x39 && code == digits[0] as int - 0x30)
    || (digits == [0x35, 0x32] && code == 52)
  }

  /** The number a command opens with, by its digits. */
  lemma CodeIs(payload: seq<Byte>, digits: seq<Byte>, code: nat)
    requires Names(digits, code)
    ensures OscCode(payload) == code <==> Selects(payload, digits)
  {
    if OscCode(payload) == code {
      var z := CodeSelects(payload, digits, code);
    }
    if Selects(payload, digits) {
      var z: nat :| SelectsAt(payload, digits, z);
      SelectedCode(payload, digits, code, z);
    }
  }

  lemma CodeSelects(payload: seq<Byte>, digits: seq<Byte>, code: nat) returns (z: nat)
    requires Names(digits, code) && OscCode(payload) == code
    ensures SelectsAt(payload, digits, z)
  {
    var n := DigitRun(payload);
    z := ZerosThen(payload[..n], digits, code);
    assert payload[..n][z..] == payload[z..n];
    assert forall i :: 0 <= i < z ==> payload[i] == payload[..n][i];
  }

  lemma SelectedCode(payload: seq<Byte>, digits: seq<Byte>, code: nat, z: nat)
    requires Names(digits, code) && SelectsAt(payload, digits, z)
    ensures OscCode(payload) == code
  {
    var n := z + |digits|;
    assert payload[..n] == payload[..z] + digits;
    ValueOf(payload[..z], digits, code);
    forall i | 0 <= i < n ensures 0x30 <= payload[i] <= 0x39 {
      assert IsDigit((payload[..z] + digits)[i]) && payload[i] == payload[..n][i];
    }
    RunEnds(payload, n);
  }

  /** The digit run is the one that ends before a byte that is no digit. */
  lemma {:induction false} RunEnds(p: seq<Byte>, n: nat)
    requires n <= |p| && (forall i :: 0 <= i < n ==> 0x30 <= p[i] <= 0x39) && (n < |p| ==> !(0x30 <= p[n] <= 0x39))
    ensures DigitRun(p) == n
    decreases n
  {
    if n > 0 {
      RunEnds(p[1..], n - 1);
    }
  }

  lemma {:induction false} ZeroValue(ds: seq<Byte>)
    requires forall i :: 0 <= i < |ds| ==> IsDigit(ds[i])
    ensures DecimalValue(ds) == 0 <==> forall i :: 0 <= i < |ds| ==> ds[i] == 0x30
  {
    if ds != [] {
      var init := ds[..|ds| - 1];
      assert forall i :: 0 <= i < |init| ==> init[i] == ds[i] && IsDigit(ds[i]);
      ZeroValue(init);
      assert IsDigit(ds[|ds| - 1]);
    }
  }

  lemma ZerosThen(ds: seq<Byte>, digits: seq<Byte>, code: nat) returns (z: nat)
    requires (forall i :: 0 <= i < |ds| ==> IsDigit(ds[i])) && ds != [] && DecimalValue(ds) == code
    requires Names(digits, code)
    ensures z + |digits| == |ds| && (forall i :: 0 <= i < z ==> ds[i] == 0x30) && ds[z..] == digits
    decreases |digits|
  {
    var init, last := ds[..|ds| - 1], ds[|ds| - 1];
    assert IsDigit(last);
    assert forall i :: 0 <= i < |init| ==> init[i] == ds[i] && IsDigit(ds[i]);
    z := |ds| - |digits|;
    if |digits| == 1 {
      ZeroValue(init);
      assert ds[z..] == [last];
    } else {
      assert DecimalValue(init) == 5 && last == 0x32;
      var y := ZerosThen(init, [0x35], 5);
      assert ds[z..] == init[y..] + [last];
    }
  }

  lemma ValueOf(zeros: seq<Byte>, digits: seq<Byte>, code: nat)
    requires forall i :: 0 <= i < |zeros| ==> zeros[i] == 0x30
    requires Names(digits, code)
    ensures forall i :: 0 <= i < |zeros + digits| ==> IsDigit((zeros + digits)[i])
    ensures DecimalValue(zeros + digits) == code
    decreases |digits|
  {
    assert forall i :: 0 <= i < |zeros| ==> IsDigit(zeros[i]);
    ZeroValue(zeros);
    if |digits| == 1 {
      assert (zeros + digits)[..|zeros|] == zeros;
    } else {
      ValueOf(zeros, [0x35], 5);
      assert (zeros + digits)[..|zeros| + 1] == zeros + [0x35];
    }
  }

  // ----- other sequences -----

  /** Of the plain escape sequences only ESC Z is dropped. */
  lemma EscapeSequence(lim: Limits, p: seq<Byte>, ints: seq<Byte>, final: Byte)
    requires AtRest(lim, p) && Between(ints, 0x20, 0x2F) && 0x30 <= final <= 0x7E
    requires ints == [] ==> final !in [0x5B, 0x5D, 0x50, 0x5F, 0x5E, 0x58]
    requires |ints| <= 1 || 1 + |ints| <= lim.maxSeq
    ensures Becomes(lim, p, [0x1B] + ints + [final],
                    if ints == [] && final == 0x5A then [] else [0x1B] + ints + [final])
  {
    hide Becomes, AtRest;
    TokenBecomes(lim, p, EscSeq(ints, final));
  }

  /** Device control, start of string, privacy message and application command strings vanish. */
  lemma ControlString(lim: Limits, p: seq<Byte>, intro: seq<Byte>, body: seq<Byte>, end: seq<Byte>)
    requires AtRest(lim, p) && |body| <= lim.maxStr
    requires intro in [[0x90], [0x98], [0x9E], [0x9F], [0x1B, 0x50], [0x1B, 0x58], [0x1B, 0x5E], [0x1B, 0x5F]]
    requires !Has(body, 0x07) && !Has(body, 0x9C) && !Has(body, 0x1B)
    requires end == [0x07] || end == [0x1B, 0x5C] || end == [0x9C]
    ensures Becomes(lim, p, intro + body + end, [])
  {
    hide Becomes, AtRest;
    var e := if end == [0x07] then Bel else if end == [0x9C] then St8 else St7;
    var t := StrSeq(|intro| == 1, intro[|intro| - 1], body, e);
    assert intro == if |intro| == 1 then [t.kind] else [0x1B, t.kind];
    TokenBecomes(lim, p, t);
  }

  // ----- bytes and characters -----

  /** A byte that begins nothing passes, unless it is ENQ or an 8-bit control. */
  lemma SingleByte(lim: Limits, p: seq<Byte>, b: Byte)
    requires AtRest(lim, p) && b < 0xC0 && b !in [0x1B, 0x90, 0x98, 0x9B, 0x9D, 0x9E, 0x9F]
    ensures Becomes(lim, p, [b], if b == 0x05 || 0x80 <= b <= 0x9F then [] else [b])
  {
    hide Becomes, AtRest;
    TokenBecomes(lim, p, if b == 0x05 then Enq else if 0x80 <= b <= 0x9F then LoneC1(b) else Plain(b));
  }

  /** A character passes whole, even where its continuation bytes look like 8-bit controls. */
  lemma Character(lim: Limits, p: seq<Byte>, lead: Byte, conts: seq<Byte>)
    requires AtRest(lim, p) && lead >= 0xC0 && Between(conts, 0x80, 0xBF)
    requires |conts| == if lead <= 0xDF then 1 else if lead <= 0xEF then 2 else if lead <= 0xF7 then 3 else 0
    ensures Becomes(lim, p, [lead] + conts, [lead] + conts)
  {
    hide Becomes, AtRest;
    TokenBecomes(lim, p, Rune(lead, conts));
  }

  // ----- sequences that do not complete -----

  lemma OverlongVanishes(lim: Limits, p: seq<Byte>, o: Opening)
    requires AtRest(lim, p) && ProperBytes(o) && JustOver(lim, o)
    ensures Becomes(lim, p, OpenWire(o), [])
  {
    hide Run, OpenWire, ProperBytes, JustOver;
    LongRuns(lim, Resting(0), o);
    RunAppend(lim, FRESH, p, OpenWire(o));
  }

  /** A control sequence that outgrows the limit by one byte is gone, and what follows is read afresh. */
  lemma OverlongSequence(lim: Limits, p: seq<Byte>, intro: seq<Byte>, held: seq<Byte>)
    requires AtRest(lim, p) && held != [] && 2 + |held| == (if lim.maxSeq < 2 then 2 else lim.maxSeq) + 1
    requires || (intro in [[0x9B], [0x1B, 0x5B]] && Between(held, 0x20, 0x3F))
             || (intro in [[0x9D], [0x1B, 0x5D]] && Payload(held))
    ensures Becomes(lim, p, intro + held, [])
  {
    hide Becomes, AtRest;
    var o := if intro in [[0x9B], [0x1B, 0x5B]] then OpenCsi(|intro| == 1, held)
             else OpenOsc(|intro| == 1, held, false);
    assert OpenWire(o) == intro + held;
    OverlongVanishes(lim, p, o);
  }

  /** So is a control string, scanned to its own limit. */
  lemma OverlongString(lim: Limits, p: seq<Byte>, intro: seq<Byte>, body: seq<Byte>)
    requires AtRest(lim, p) && |body| == (if lim.maxStr < 0 then 0 else lim.maxStr) + 1
    requires intro in [[0x90], [0x98], [0x9E], [0x9F], [0x1B, 0x50], [0x1B, 0x58], [0x1B, 0x5E], [0x1B, 0x5F]]
    requires !Has(body, 0x07) && !Has(body, 0x9C) && !Has(body, 0x1B)
    ensures Becomes(lim, p, intro + body, [])
  {
    hide Becomes, AtRest;
    var o := OpenStr(|intro| == 1, intro[|intro| - 1], body, false);
    assert OpenWire(o) == intro + body;
    OverlongVanishes(lim, p, o);
  }

  lemma CutVanishes(lim: Limits, p: seq<Byte>, o: Opening, rest: seq<Byte>)
    requires AtRest(lim, p) && ProperBytes(o) && WithinLimit(lim, o) && lim.maxSeq >= 1
    requires rest != [] && Interrupts(o, rest[0])
    ensures Filtered(lim, p + OpenWire(o) + rest) == Filtered(lim, p + rest)
  {
    hide Run, OpenWire, ProperBytes, WithinLimit, Interrupts, Consume;
    CutRuns(lim, Resting(0), o);
    InterruptedRereads(lim, o, rest[0]);
    EnterRuns(lim, StateOf(o), Resting(0), rest);
    RunAppend(lim, FRESH, p + OpenWire(o), rest);
    RunAppend(lim, FRESH, p, OpenWire(o));
    RunAppend(lim, FRESH, p, rest);
    assert Filtered(lim, p) + [] == Filtered(lim, p);
  }

  /**
    * A sequence interrupted by a byte it cannot hold leaves no trace: the stream is
    * filtered as if the sequence had not begun.
    */
  lemma InterruptedSequence(lim: Limits, p: seq<Byte>, intro: seq<Byte>, held: seq<Byte>, rest: seq<Byte>)
    requires AtRest(lim, p) && lim.maxSeq >= 1 && (held == [] || |intro| + |held| <= lim.maxSeq) && rest != []
    requires || (intro == [0x1B] && Between(held, 0x20, 0x2F) && (rest[0] < 0x20 || rest[0] > 0x7E))
             || (intro == [0x1B, 0x5B] && Between(held, 0x20, 0x3F) && (rest[0] < 0x20 || rest[0] > 0x7E))
             || (intro == [0x1B, 0x5D] && Payload(held) && rest[0] !in [0x07, 0x1B, 0x9C]
                 && (rest[0] < 0x20 || 0x7F <= rest[0] <= 0x9F))
    ensures Filtered(lim, p + (intro + held) + rest) == Filtered(lim, p + rest)
  {
    hide Filtered, AtRest;
    var o := if intro == [0x1B] then OpenEsc(held)
             else if intro == [0x1B, 0x5B] then OpenCsi(false, held)
             else OpenOsc(false, held, false);
    assert OpenWire(o) == intro + held;
    CutVanishes(lim, p, o, rest);
  }

  /** An ESC inside a command or string that no backslash follows ends it, and is lost with it. */
  lemma BrokenTerminator(lim: Limits, p: seq<Byte>, intro: seq<Byte>, held: seq<Byte>, rest: seq<Byte>)
    requires AtRest(lim, p) && lim.maxSeq >= 1 && rest != [] && rest[0] != 0x5C
    requires || (intro == [0x1B, 0x5D] && Payload(held) && (held == [] || 2 + |held| <= lim.maxSeq))
             || (intro in [[0x1B, 0x50], [0x1B, 0x58], [0x1B, 0x5E], [0x1B, 0x5F]] && |held| <= lim.maxStr
                 && !Has(held, 0x07) && !Has(held, 0x9C) && !Has(held, 0x1B))
    ensures Filtered(lim, p + (intro + held + [0x1B]) + rest) == Filtered(lim, p + rest)
  {
    hide Filtered, AtRest;
    var o := if intro == [0x1B, 0x5D] then OpenOsc(false, held, true) else OpenStr(false, intro[1], held, true);
    assert OpenWire(o) == intro + held + [0x1B];
    CutVanishes(lim, p, o, rest);
  }
}
