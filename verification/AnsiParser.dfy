/**
  * The streaming terminal filter as a transition system over single bytes:
  * control sequences follow sections 5.4 and 5.6 of ECMA-48, UTF-8 lead bytes
  * section 3 of RFC 3629.
  */
module AnsiParser {
  import opened Bytes
  import opened Machine

  const ENQ: Byte := 0x05
  const BEL: Byte := 0x07
  const ESC: Byte := 0x1B
  const C1_DCS: Byte := 0x90
  const C1_SOS: Byte := 0x98
  const C1_CSI: Byte := 0x9B
  const C1_ST: Byte := 0x9C
  const C1_OSC: Byte := 0x9D
  const C1_PM: Byte := 0x9E
  const C1_APC: Byte := 0x9F
  const LBRACKET: Byte := 0x5B
  const RBRACKET: Byte := 0x5D
  const BACKSLASH: Byte := 0x5C
  const CAP_Z: Byte := 0x5A
  const DOLLAR: Byte := 0x24
  const STAR: Byte := 0x2A
  const SPACE: Byte := 0x20
  const GREATER: Byte := 0x3E
  const QUESTION: Byte := 0x3F

  const DEFAULT_MAX_SEQ := 4096
  const DEFAULT_MAX_STR := 0x10_0000

  datatype Phase = Ground | Esc | EscInt | Csi | Osc | OscEsc | Str | StrEsc

  /** Bounds on a buffered sequence and on a scanned string control. */
  datatype Limits = Limits(maxSeq: int, maxStr: int)

  /**
    * `pending` is the buffered sequence including its introducer, `scanned` the
    * length dropped so far inside a string control, `owed` the UTF-8 continuation
    * bytes still expected in ground.
    */
  datatype State = State(phase: Phase, pending: seq<Byte>, scanned: nat, owed: nat)

  const FRESH := State(Ground, [], 0, 0)

  /** The effect of one byte; `again` asks for the same byte to be read again. */
  datatype Reaction = Reaction(next: State, out: seq<Byte>, again: bool)

  function Utf8Continuation(lead: Byte): nat {
    if 0xF0 <= lead <= 0xF7 then 3
    else if 0xE0 <= lead <= 0xEF then 2
    else if 0xC0 <= lead <= 0xDF then 1
    else 0
  }

  predicate IsContinuation(b: Byte) { 0x80 <= b <= 0xBF }
  predicate IsC1(b: Byte) { 0x80 <= b <= 0x9F }
  predicate IsIntermediate(b: Byte) { 0x20 <= b <= 0x2F }
  predicate IsCsiBody(b: Byte) { 0x20 <= b <= 0x3F }
  predicate IsOscPayload(b: Byte) { 0x20 <= b <= 0x7E || 0xA0 <= b }
  predicate IsStringIntro7(b: Byte) { b in [0x50, 0x5F, 0x5E, 0x58] }
  predicate IsStringIntro8(b: Byte) { b in [C1_DCS, C1_SOS, C1_PM, C1_APC] }

  // ----- strip rules -----

  /** Whether a CSI with body `mid` and final byte `final` induces a reply. */
  predicate CsiQuery(mid: seq<Byte>, final: Byte) {
    || final in [0x6E, 0x63, 0x74]                               // n c t
    || (final == 0x70 && DOLLAR in mid)                          // $ p
    || (final == 0x71 && GREATER in mid && SPACE !in mid)        // > q
    || (final == 0x78 && DOLLAR !in mid)                         // x
    || (final == 0x79 && STAR in mid)                            // * y
  }

  predicate CsiShouldStrip(s: seq<Byte>) {
    var body := if |s| >= 2 && s[0] == ESC && s[1] == LBRACKET then s[2..] else s;
    body != [] && CsiQuery(body[..|body| - 1], body[|body| - 1])
  }

  predicate IsDigit(b: Byte) { 0x30 <= b <= 0x39 }

  /** Length of the leading decimal digits of `p`. */
  function DigitRun(p: seq<Byte>): (n: nat)
    ensures n <= |p| && (n < |p| ==> !IsDigit(p[n]))
    ensures forall i :: 0 <= i < n ==> IsDigit(p[i])
  {
    if p == [] || !IsDigit(p[0]) then 0 else 1 + DigitRun(p[1..])
  }

  /** Value of a string of digits, unbounded. */
  function DecimalValue(digits: seq<Byte>): (v: int)
    requires forall i :: 0 <= i < |digits| ==> IsDigit(digits[i])
    ensures v >= 0
  {
    if digits == [] then 0
    else
      var last := digits[|digits| - 1];
      assert IsDigit(last);
      DecimalValue(digits[..|digits| - 1]) * 10 + (last as int - 0x30)
  }

  /** The selector of an OSC payload: its unbounded decimal prefix, or -1. */
  function OscCode(payload: seq<Byte>): int {
    var n := DigitRun(payload);
    if n == 0 then -1 else DecimalValue(payload[..n])
  }

  predicate OscQuery(payload: seq<Byte>) {
    OscCode(payload) in {0, 1, 2, 8, 52} || QUESTION in payload
  }

  /** The payload of a buffered OSC: introducer and terminator removed. */
  function OscBody(s: seq<Byte>): seq<Byte> {
    var p := if |s| >= 2 && s[0] == ESC && s[1] == RBRACKET then s[2..] else s;
    if |p| > 0 && p[|p| - 1] == BEL then p[..|p| - 1]
    else if |p| >= 2 && p[|p| - 2] == ESC && p[|p| - 1] == BACKSLASH then p[..|p| - 2]
    else p
  }

  predicate OscShouldStrip(s: seq<Byte>) { OscQuery(OscBody(s)) }

  // ----- one byte -----

  function Home(s: State): State { s.(phase := Ground, pending := []) }

  function Cap(lim: Limits, s: State): State {
    if |s.pending| > lim.maxSeq then Home(s) else s
  }

  function Move(s: State): Reaction { Reaction(s, [], false) }
  function Emit(s: State, out: seq<Byte>): Reaction { Reaction(s, out, false) }
  function Abort(s: State): Reaction { Reaction(Home(s), [], true) }

  function InGround(s: State, b: Byte): Reaction {
    if s.owed > 0 && IsContinuation(b) then Emit(s.(owed := s.owed - 1), [b])
    else
      var s := s.(owed := 0);
      if b == ESC then Move(s.(phase := Esc, pending := [b]))
      else if b == ENQ then Move(s)
      else if b == C1_CSI then Move(s.(phase := Csi, pending := [ESC, LBRACKET]))
      else if b == C1_OSC then Move(s.(phase := Osc, pending := [ESC, RBRACKET]))
      else if IsStringIntro8(b) then Move(s.(phase := Str, pending := [], scanned := 0))
      else if IsC1(b) then Move(s)
      else if b >= 0xC0 then Emit(s.(owed := Utf8Continuation(b)), [b])
      else Emit(s, [b])
  }

  function InEsc(s: State, b: Byte): Reaction {
    if b == LBRACKET then Move(s.(phase := Csi, pending := s.pending + [b]))
    else if b == RBRACKET then Move(s.(phase := Osc, pending := s.pending + [b]))
    else if IsStringIntro7(b) then Move(s.(phase := Str, pending := [], scanned := 0))
    else if b == CAP_Z then Move(Home(s))
    else if b == ESC then Move(s.(pending := [b]))
    else if IsIntermediate(b) then Move(s.(phase := EscInt, pending := s.pending + [b]))
    else if 0x30 <= b <= 0x7E then Emit(Home(s), s.pending + [b])
    else Abort(s)
  }

  function InEscInt(lim: Limits, s: State, b: Byte): Reaction {
    if IsIntermediate(b) then Move(Cap(lim, s.(pending := s.pending + [b])))
    else if 0x30 <= b <= 0x7E then Emit(Home(s), s.pending + [b])
    else if b == ESC then Move(Cap(lim, s.(phase := Esc, pending := [b])))
    else Abort(s)
  }

  function InCsi(lim: Limits, s: State, b: Byte): Reaction {
    if IsCsiBody(b) then Move(Cap(lim, s.(pending := s.pending + [b])))
    else if 0x40 <= b <= 0x7E then
      var done := s.pending + [b];
      Emit(Home(s), if CsiShouldStrip(done) then [] else done)
    else if b == ESC then Move(Cap(lim, s.(phase := Esc, pending := [b])))
    else Abort(s)
  }

  function InOsc(lim: Limits, s: State, b: Byte): Reaction {
    if b == BEL || b == C1_ST then
      var done := s.pending + [BEL];
      Emit(Home(s), if OscShouldStrip(done) then [] else done)
    else if b == ESC then Move(s.(phase := OscEsc))
    else if IsOscPayload(b) then Move(Cap(lim, s.(pending := s.pending + [b])))
    else Abort(s)
  }

  function InOscEsc(s: State, b: Byte): Reaction {
    if b == BACKSLASH then
      var done := s.pending + [ESC, BACKSLASH];
      Emit(Home(s), if OscShouldStrip(done) then [] else done)
    else Abort(s)
  }

  function InStr(lim: Limits, s: State, b: Byte): Reaction {
    if b == BEL || b == C1_ST then Move(s.(phase := Ground, scanned := 0))
    else if b == ESC then Move(s.(phase := StrEsc))
    else if s.scanned + 1 > lim.maxStr then Move(s.(phase := Ground, scanned := 0))
    else Move(s.(scanned := s.scanned + 1))
  }

  function React(lim: Limits, s: State, b: Byte): Reaction {
    match s.phase
    case Ground => InGround(s, b)
    case Esc => InEsc(s, b)
    case EscInt => InEscInt(lim, s, b)
    case Csi => InCsi(lim, s, b)
    case Osc => InOsc(lim, s, b)
    case OscEsc => InOscEsc(s, b)
    case Str => InStr(lim, s, b)
    case StrEsc => Reaction(s.(phase := Ground, scanned := 0), [], b != BACKSLASH)
  }

  /** One byte to completion: a reaction asking for the byte again re-reads it in ground. */
  function Consume(lim: Limits, s: State, b: Byte): (State, seq<Byte>) {
    var r := React(lim, s, b);
    if r.again then var r' := InGround(r.next, b); (r'.next, r.out + r'.out)
    else (r.next, r.out)
  }

  lemma GroundConsume(lim: Limits, s: State, b: Byte)
    requires s.phase == Ground
    ensures Consume(lim, s, b) == (InGround(s, b).next, InGround(s, b).out)
  {
  }

  function Stepper(lim: Limits): Step<State, Byte, Byte> { (s, b) => Consume(lim, s, b) }

  /** A whole stream, byte by byte: the final state and everything emitted. */
  function Run(lim: Limits, s: State, p: seq<Byte>): (State, seq<Byte>) { Feed(Stepper(lim), s, p) }

  /** The output of a filter fresh from construction. */
  function Filtered(lim: Limits, p: seq<Byte>): seq<Byte> { Run(lim, FRESH, p).1 }

  lemma RunAppend(lim: Limits, s: State, a: seq<Byte>, b: seq<Byte>)
    ensures var ra := Run(lim, s, a);
            var rb := Run(lim, ra.0, b);
            Run(lim, s, a + b) == (rb.0, ra.1 + rb.1)
  {
    FeedAppend(Stepper(lim), s, a, b);
  }

  lemma RunEmpty(lim: Limits, s: State)
    ensures Run(lim, s, []) == (s, [])
  {
  }

  lemma RunCons(lim: Limits, s: State, b: Byte, p: seq<Byte>)
    ensures var first := Consume(lim, s, b);
            var rest := Run(lim, first.0, p);
            Run(lim, s, [b] + p) == (rest.0, first.1 + rest.1)
  {
    FeedCons(Stepper(lim), s, b, p);
  }

  lemma RunSnoc(lim: Limits, s: State, a: seq<Byte>, b: Byte)
    ensures var ra := Run(lim, s, a);
            var rb := Consume(lim, ra.0, b);
            Run(lim, s, a + [b]) == (rb.0, ra.1 + rb.1)
  {
    FeedSnoc(Stepper(lim), s, a, b);
  }

  /** However a stream is cut, the outputs join to the one-call output and the states agree. */
  lemma ChunkInvariance(lim: Limits, s: State, chunks: seq<seq<Byte>>)
    ensures FeedChunks(Stepper(lim), s, chunks) == Run(lim, s, Flatten(chunks))
  {
    FeedFlatten(Stepper(lim), s, chunks);
  }
}
