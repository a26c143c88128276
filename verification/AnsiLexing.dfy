/**
  * Every byte stream, malformed or not, read as pieces: whole tokens, sequences
  * cut short by the byte that follows, and sequences that outgrew their limit.
  * The filter's output is the rendering of the pieces, whatever the stream.
  */
module AnsiLexing {
  import opened Bytes
  import opened AnsiParser
  import opened AnsiTokens

  /** A sequence begun and not yet finished; `esc` when its last byte is an ESC. */
  datatype Opening =
    | OpenEsc(ints: seq<Byte>)
    | OpenCsi(eight: bool, mid: seq<Byte>)
    | OpenOsc(eight: bool, payload: seq<Byte>, esc: bool)
    | OpenStr(eight: bool, kind: Byte, body: seq<Byte>, esc: bool)

  datatype Piece = Whole(token: Token) | Cut(open: Opening) | Long(open: Opening)

  function Intro(eight: bool, b8: Byte, b7: Byte): (i: seq<Byte>)
    ensures |i| > 0
  {
    if eight then [b8] else [ESC, b7]
  }

  function OpenWire(o: Opening): (w: seq<Byte>)
    ensures |w| > 0
  {
    match o
    case OpenEsc(ints) => [ESC] + ints
    case OpenCsi(eight, mid) => Intro(eight, C1_CSI, LBRACKET) + mid
    case OpenOsc(eight, payload, esc) => Intro(eight, C1_OSC, RBRACKET) + payload + (if esc then [ESC] else [])
    case OpenStr(eight, kind, body, esc) => Intro(eight, kind, kind) + body + (if esc then [ESC] else [])
  }

  /** The opening without a trailing ESC. */
  function Core(o: Opening): Opening {
    match o
    case OpenOsc(e, p, _) => OpenOsc(e, p, false)
    case OpenStr(e, k, b, _) => OpenStr(e, k, b, false)
    case _ => o
  }

  predicate ProperBytes(o: Opening) {
    match o
    case OpenEsc(ints) => All(ints, IsIntermediate)
    case OpenCsi(_, mid) => All(mid, IsCsiBody)
    case OpenOsc(_, payload, _) => All(payload, IsOscPayload)
    case OpenStr(eight, kind, body, _) =>
      (if eight then IsStringIntro8(kind) else IsStringIntro7(kind)) && All(body, IsStringBody)
  }

  /** How much an opening has buffered, the least a limit cannot refuse, and the limit. */
  function Held(o: Opening): seq<Byte> {
    match o
    case OpenEsc(ints) => ints
    case OpenCsi(_, mid) => mid
    case OpenOsc(_, payload, _) => payload
    case OpenStr(_, _, body, _) => body
  }

  function Free(o: Opening): nat { if o.OpenEsc? then 1 else 0 }

  function Allowance(lim: Limits, o: Opening): int {
    match o
    case OpenEsc(_) => lim.maxSeq - 1
    case OpenCsi(_, _) => lim.maxSeq - 2
    case OpenOsc(_, _, _) => lim.maxSeq - 2
    case OpenStr(_, _, _, _) => lim.maxStr
  }

  predicate WithinLimit(lim: Limits, o: Opening) { |Held(o)| <= Free(o) || |Held(o)| <= Allowance(lim, o) }

  /** One byte too many, and only one. */
  predicate JustOver(lim: Limits, o: Opening) {
    && |Held(o)| > Free(o) && |Held(o)| > Allowance(lim, o)
    && (|Held(o)| - 1 <= Free(o) || |Held(o)| - 1 <= Allowance(lim, o))
    && ((o.OpenOsc? || o.OpenStr?) ==> !o.esc)
  }

  predicate PieceOk(lim: Limits, p: Piece) {
    match p
    case Whole(t) => WellFormed(lim, t)
    case Cut(o) => ProperBytes(o) && WithinLimit(lim, o)
    case Long(o) => ProperBytes(o) && JustOver(lim, o)
  }

  function PieceWire(p: Piece): (w: seq<Byte>)
    ensures |w| > 0
  {
    match p
    case Whole(t) => Wire(t)
    case Cut(o) => OpenWire(o)
    case Long(o) => OpenWire(o)
  }

  /** Only whole tokens are shown. */
  function PieceRender(p: Piece): seq<Byte> { if p.Whole? then Render(p.token) else [] }

  /** Bytes that neither continue nor complete the opening, so that it is dropped before them. */
  predicate Interrupts(o: Opening, b: Byte) {
    match o
    case OpenEsc(_) => b < 0x20 || b > 0x7E
    case OpenCsi(_, _) => b < 0x20 || b > 0x7E
    case OpenOsc(_, _, esc) => if esc then b != BACKSLASH else !IsOscPayload(b) && b != BEL && b != C1_ST && b != ESC
    case OpenStr(_, _, _, esc) => esc && b != BACKSLASH
  }

  /** What may follow a piece. */
  predicate Follows(p: Piece, b: Byte) {
    match p
    case Whole(t) => Owed(t) > 0 ==> !IsContinuation(b)
    case Cut(o) => Interrupts(o, b)
    case Long(_) => true
  }

  ghost predicate Lexed(lim: Limits, ps: seq<Piece>) {
    && (forall i :: 0 <= i < |ps| ==> PieceOk(lim, ps[i]))
    && (forall i :: 0 <= i < |ps| - 1 ==> Follows(ps[i], PieceWire(ps[i + 1])[0]))
  }

  function WireOf(ps: seq<Piece>): seq<Byte> { if ps == [] then [] else PieceWire(ps[0]) + WireOf(ps[1..]) }
  function RenderOf(ps: seq<Piece>): seq<Byte> { if ps == [] then [] else PieceRender(ps[0]) + RenderOf(ps[1..]) }

  // ----- what the filter does with one piece -----

  function StateOf(o: Opening): State {
    match o
    case OpenEsc(ints) => State(if ints == [] then Esc else EscInt, [ESC] + ints, 0, 0)
    case OpenCsi(_, mid) => State(Csi, [ESC, LBRACKET] + mid, 0, 0)
    case OpenOsc(_, payload, esc) => State(if esc then OscEsc else Osc, [ESC, RBRACKET] + payload, 0, 0)
    case OpenStr(_, _, body, esc) => State(if esc then StrEsc else Str, [], |body|, 0)
  }

  function Ends(p: Piece): State {
    match p
    case Whole(t) => if Owed(t) > 0 then Resting(Owed(t)) else Resting(0)
    case Cut(o) => StateOf(o)
    case Long(_) => Resting(0)
  }

  lemma RunPair(lim: Limits, s: State, a: seq<Byte>, b: seq<Byte>, mid: State, end: State)
    requires Run(lim, s, a) == (mid, []) && Run(lim, mid, b) == (end, [])
    ensures Run(lim, s, a + b) == (end, [])
  {
    hide Run;
    RunAppend(lim, s, a, b);
    var none: seq<Byte> := [];
    assert none + none == none;
  }

  lemma CoreRuns(lim: Limits, s: State, o: Opening)
    requires ProperBytes(o) && WithinLimit(lim, o) && o == Core(o) && Ready(s, OpenWire(o)[0])
    ensures Run(lim, s, OpenWire(o)) == (StateOf(o), [])
  {
    match o
    case OpenEsc(ints) =>
      RunOne(lim, s, ESC);
      var esc := State(Esc, [ESC], 0, 0);
      if ints == [] {
        assert [ESC] + ints == [ESC];
      } else {
        IntermediateRun(lim, ints);
        RunPair(lim, s, [ESC], ints, esc, StateOf(o));
      }
    case OpenCsi(eight, mid) =>
      var buf := State(Csi, [ESC, LBRACKET], 0, 0);
      IntroRuns(lim, s, eight, C1_CSI, LBRACKET, buf);
      CollectRun(lim, buf, mid);
      RunPair(lim, s, Intro(eight, C1_CSI, LBRACKET), mid, buf, StateOf(o));
    case OpenOsc(eight, payload, _) =>
      var buf := State(Osc, [ESC, RBRACKET], 0, 0);
      IntroRuns(lim, s, eight, C1_OSC, RBRACKET, buf);
      CollectRun(lim, buf, payload);
      RunPair(lim, s, Intro(eight, C1_OSC, RBRACKET), payload, buf, StateOf(o));
      assert OpenWire(o) == Intro(eight, C1_OSC, RBRACKET) + payload;
    case OpenStr(eight, kind, body, _) =>
      var buf := State(Str, [], 0, 0);
      IntroRuns(lim, s, eight, kind, kind, buf);
      ScanRun(lim, buf, body);
      RunPair(lim, s, Intro(eight, kind, kind), body, buf, StateOf(o));
      assert OpenWire(o) == Intro(eight, kind, kind) + body;
  }

  lemma CutRuns(lim: Limits, s: State, o: Opening)
    requires ProperBytes(o) && WithinLimit(lim, o) && Ready(s, OpenWire(o)[0])
    ensures Run(lim, s, OpenWire(o)) == (StateOf(o), [])
  {
    hide Run, IsStringIntro7, IsStringIntro8;
    var c := Core(o);
    CoreRuns(lim, s, c);
    if o != c {
      RunOne(lim, StateOf(c), ESC);
      RunPair(lim, s, OpenWire(c), [ESC], StateOf(c), StateOf(o));
      assert OpenWire(o) == OpenWire(c) + [ESC];
    }
  }

  /** The opening before its last held byte. */
  function Shorter(o: Opening): Opening
    requires Held(o) != []
  {
    var n := |Held(o)| - 1;
    match o
    case OpenEsc(ints) => OpenEsc(ints[..n])
    case OpenCsi(e, mid) => OpenCsi(e, mid[..n])
    case OpenOsc(e, p, x) => OpenOsc(e, p[..n], x)
    case OpenStr(e, k, b, x) => OpenStr(e, k, b[..n], x)
  }

  lemma ShorterBytes(o: Opening)
    requires ProperBytes(o) && Held(o) != []
    ensures ProperBytes(Shorter(o)) && OpenWire(Shorter(o))[0] == OpenWire(o)[0]
    ensures o == Core(o) ==>
              OpenWire(o) == OpenWire(Shorter(o)) + [Held(o)[|Held(o)| - 1]] && Shorter(o) == Core(Shorter(o))
  {
    hide IsStringIntro7, IsStringIntro8, Intro;
    var n := |Held(o)| - 1;
    var init, last := Held(o)[..n], [Held(o)[n]];
    assert Held(o) == init + last;
    match o
    case OpenEsc(_) => Reassociate([ESC], init, last);
    case OpenCsi(e, _) => Reassociate(Intro(e, C1_CSI, LBRACKET), init, last);
    case OpenOsc(e, _, _) => Reassociate(Intro(e, C1_OSC, RBRACKET), init, last);
    case OpenStr(e, k, _, _) => Reassociate(Intro(e, k, k), init, last);
  }

  lemma Reassociate(a: seq<Byte>, b: seq<Byte>, c: seq<Byte>)
    ensures a + (b + c) == a + b + c && a + (b + c) + [] == (a + b + []) + c
  {
  }

  lemma LongRuns(lim: Limits, s: State, o: Opening)
    requires ProperBytes(o) && JustOver(lim, o) && Ready(s, OpenWire(o)[0])
    ensures Run(lim, s, OpenWire(o)) == (Resting(0), [])
  {
    var b := Held(o)[|Held(o)| - 1];
    ShorterBytes(o);
    CoreRuns(lim, s, Shorter(o));
    LastByteOverflows(lim, o);
    RunOne(lim, StateOf(Shorter(o)), b);
    RunPair(lim, s, OpenWire(Shorter(o)), [b], StateOf(Shorter(o)), Resting(0));
  }

  lemma LastByteOverflows(lim: Limits, o: Opening)
    requires ProperBytes(o) && JustOver(lim, o)
    ensures Consume(lim, StateOf(Shorter(o)), Held(o)[|Held(o)| - 1]) == (Resting(0), [])
  {
    var n := |Held(o)| - 1;
    assert ([ESC] + Held(o)[..n])[0] == ESC;
    match o
    case OpenEsc(ints) => assert IsIntermediate(ints[n]);
    case OpenCsi(_, mid) => assert IsCsiBody(mid[n]);
    case OpenOsc(_, payload, _) => assert IsOscPayload(payload[n]);
    case OpenStr(_, _, body, _) => assert IsStringBody(body[n]);
  }

  /** A piece, from ground, releases its rendering and leaves the state it ends in. */
  lemma PieceRuns(lim: Limits, s: State, p: Piece)
    requires PieceOk(lim, p) && Ready(s, PieceWire(p)[0])
    ensures Run(lim, s, PieceWire(p)) == (Ends(p), PieceRender(p))
  {
    hide Run;
    match p
    case Whole(t) => TokenRuns(lim, s, t);
    case Cut(o) => CutRuns(lim, s, o);
    case Long(o) => LongRuns(lim, s, o);
  }

  /** An interrupted opening is dropped and the interrupting byte read as if in ground. */
  lemma InterruptedRereads(lim: Limits, o: Opening, b: Byte)
    requires ProperBytes(o) && Interrupts(o, b) && lim.maxSeq >= 1
    ensures Consume(lim, StateOf(o), b) == Consume(lim, Resting(0), b)
  {
    var g := InGround(Resting(0), b);
    assert [] + g.out == g.out;
  }

  // ----- any lexed stream -----

  /** Where a stream of pieces may start: in ground, or where an opening was left. */
  ghost predicate Enters(lim: Limits, s: State, b: Byte) {
    exists g :: Ready(g, b) && Consume(lim, s, b) == Consume(lim, g, b)
  }

  lemma EnterRuns(lim: Limits, s: State, g: State, p: seq<Byte>)
    requires p != [] && Consume(lim, s, p[0]) == Consume(lim, g, p[0])
    ensures Run(lim, s, p) == Run(lim, g, p)
  {
    assert p == [p[0]] + p[1..];
    hide Run, Consume;
    RunCons(lim, s, p[0], p[1..]);
    RunCons(lim, g, p[0], p[1..]);
  }

  lemma FollowEnters(lim: Limits, p: Piece, b: Byte)
    requires PieceOk(lim, p) && Follows(p, b) && lim.maxSeq >= 1
    ensures Enters(lim, Ends(p), b)
  {
    hide Consume;
    match p
    case Whole(t) => assert Ready(Ends(p), b);
    case Cut(o) =>
      InterruptedRereads(lim, o, b);
      assert Ready(Resting(0), b);
    case Long(_) => assert Ready(Resting(0), b);
  }

  lemma {:induction false} PiecesRun(lim: Limits, s: State, ps: seq<Piece>)
    requires Lexed(lim, ps) && lim.maxSeq >= 1 && (ps != [] ==> Enters(lim, s, PieceWire(ps[0])[0]))
    ensures Run(lim, s, WireOf(ps)).1 == RenderOf(ps)
    decreases |ps|
  {
    hide Consume, PieceRender, PieceOk, Follows, Ends, Run;
    if ps == [] {
      RunEmpty(lim, s);
    } else {
      var b := PieceWire(ps[0])[0];
      var g :| Ready(g, b) && Consume(lim, s, b) == Consume(lim, g, b);
      PieceRuns(lim, g, ps[0]);
      EnterRuns(lim, s, g, PieceWire(ps[0]));
      RunAppend(lim, s, PieceWire(ps[0]), WireOf(ps[1..]));
      if |ps| > 1 {
        assert Follows(ps[0], PieceWire(ps[0 + 1])[0]);
        FollowEnters(lim, ps[0], PieceWire(ps[1])[0]);
      }
      LexedTail(lim, ps);
      hide Enters, Lexed;
      PiecesRun(lim, Ends(ps[0]), ps[1..]);
    }
  }

  lemma LexedTail(lim: Limits, ps: seq<Piece>)
    requires Lexed(lim, ps) && ps != []
    ensures Lexed(lim, ps[1..])
  {
    hide PieceOk, Follows;
    forall i | 0 <= i < |ps[1..]| - 1 ensures Follows(ps[1..][i], PieceWire(ps[1..][i + 1])[0]) {
      assert Follows(ps[i + 1], PieceWire(ps[i + 1 + 1])[0]);
    }
  }

  /** Any lexing of a stream tells what the filter releases for it. */
  lemma LexedStreamRendered(lim: Limits, ps: seq<Piece>)
    requires Lexed(lim, ps) && lim.maxSeq >= 1
    ensures Filtered(lim, WireOf(ps)) == RenderOf(ps)
  {
    if ps != [] {
      assert Ready(FRESH, PieceWire(ps[0])[0]);
      assert Enters(lim, FRESH, PieceWire(ps[0])[0]);
    }
    PiecesRun(lim, FRESH, ps);
  }

  // ----- every stream lexes -----

  /** The piece a byte read in ground begins. */
  function Begin(b: Byte): (p: Piece)
    ensures PieceWire(p) == [b]
  {
    if b == ESC then Cut(OpenEsc([]))
    else if b == ENQ then Whole(Enq)
    else if b == C1_CSI then Cut(OpenCsi(true, []))
    else if b == C1_OSC then Cut(OpenOsc(true, [], false))
    else if IsStringIntro8(b) then Cut(OpenStr(true, b, [], false))
    else if IsC1(b) then Whole(LoneC1(b))
    else if b >= 0xC0 then Whole(Rune(b, []))
    else Whole(Plain(b))
  }

  function Sized(lim: Limits, o: Opening): Piece { if WithinLimit(lim, o) then Cut(o) else Long(o) }

  /** What an opening becomes with a byte that does not interrupt it. */
  function Grow(lim: Limits, o: Opening, b: Byte): Piece {
    match o
    case OpenEsc(ints) =>
      if IsIntermediate(b) then Sized(lim, OpenEsc(ints + [b]))
      else if ints == [] && b == LBRACKET then Cut(OpenCsi(false, []))
      else if ints == [] && b == RBRACKET then Cut(OpenOsc(false, [], false))
      else if ints == [] && IsStringIntro7(b) then Cut(OpenStr(false, b, [], false))
      else Whole(EscSeq(ints, b))
    case OpenCsi(eight, mid) =>
      if IsCsiBody(b) then Sized(lim, OpenCsi(eight, mid + [b])) else Whole(CsiSeq(eight, mid, b))
    case OpenOsc(eight, payload, esc) =>
      if esc then Whole(OscSeq(eight, payload, St7))
      else if b == ESC then Cut(OpenOsc(eight, payload, true))
      else if b == BEL then Whole(OscSeq(eight, payload, Bel))
      else if b == C1_ST then Whole(OscSeq(eight, payload, St8))
      else Sized(lim, OpenOsc(eight, payload + [b], false))
    case OpenStr(eight, kind, body, esc) =>
      if esc then Whole(StrSeq(eight, kind, body, St7))
      else if b == ESC then Cut(OpenStr(eight, kind, body, true))
      else if b == BEL then Whole(StrSeq(eight, kind, body, Bel))
      else if b == C1_ST then Whole(StrSeq(eight, kind, body, St8))
      else Sized(lim, OpenStr(eight, kind, body + [b], false))
  }

  /** The last piece takes the byte, or a new piece begins with it. */
  function Push(lim: Limits, ps: seq<Piece>, b: Byte): seq<Piece> {
    if ps == [] then [Begin(b)]
    else
      var init, last := ps[..|ps| - 1], ps[|ps| - 1];
      if Follows(last, b) then ps + [Begin(b)]
      else if last.Cut? then init + [Grow(lim, last.open, b)]
      else if last.Whole? && last.token.Rune? then init + [Whole(Rune(last.token.lead, last.token.conts + [b]))]
      else ps + [Begin(b)]
  }

  /** A stream's pieces. */
  function Lex(lim: Limits, p: seq<Byte>): seq<Piece> {
    if p == [] then [] else Push(lim, Lex(lim, p[..|p| - 1]), p[|p| - 1])
  }

  lemma BeginOk(lim: Limits, b: Byte)
    ensures PieceOk(lim, Begin(b))
  {
  }

  lemma GrowOk(lim: Limits, o: Opening, b: Byte)
    requires ProperBytes(o) && WithinLimit(lim, o) && !Interrupts(o, b)
    ensures PieceOk(lim, Grow(lim, o, b)) && PieceWire(Grow(lim, o, b)) == OpenWire(o) + [b]
  {
    match o
    case OpenEsc(ints) => GrowEsc(lim, ints, b);
    case OpenCsi(eight, mid) =>
      var intro := Intro(eight, C1_CSI, LBRACKET);
      assert intro + mid + [b] == intro + (mid + [b]);
    case OpenOsc(eight, payload, esc) => GrowOsc(lim, eight, payload, esc, b);
    case OpenStr(eight, kind, body, esc) => GrowStr(lim, eight, kind, body, esc, b);
  }

  lemma GrowEsc(lim: Limits, ints: seq<Byte>, b: Byte)
    requires PieceOk(lim, Cut(OpenEsc(ints))) && !Interrupts(OpenEsc(ints), b)
    ensures var g := Grow(lim, OpenEsc(ints), b); PieceOk(lim, g) && PieceWire(g) == [ESC] + ints + [b]
  {
    assert [ESC] + ints + [b] == [ESC] + (ints + [b]);
    if ints == [] {
      assert [ESC] + ints + [b] == [ESC, b];
    }
  }

  lemma GrowOsc(lim: Limits, eight: bool, payload: seq<Byte>, esc: bool, b: Byte)
    requires PieceOk(lim, Cut(OpenOsc(eight, payload, esc))) && !Interrupts(OpenOsc(eight, payload, esc), b)
    ensures var o := OpenOsc(eight, payload, esc);
            var g := Grow(lim, o, b);
            PieceOk(lim, g) && PieceWire(g) == OpenWire(o) + [b]
  {
    hide OscQuery, Intro;
    var i := Intro(eight, C1_OSC, RBRACKET);
    assert esc ==> i + payload + [ESC] + [b] == i + payload + [ESC, b];
    Reassociate(i, payload, [b]);
    IntroIs(eight, C1_OSC, RBRACKET);
  }

  lemma IntroIs(eight: bool, b8: Byte, b7: Byte)
    ensures Intro(eight, b8, b7) == if eight then [b8] else [ESC, b7]
  {
  }

  lemma GrowStr(lim: Limits, eight: bool, kind: Byte, body: seq<Byte>, esc: bool, b: Byte)
    requires PieceOk(lim, Cut(OpenStr(eight, kind, body, esc))) && !Interrupts(OpenStr(eight, kind, body, esc), b)
    ensures var o := OpenStr(eight, kind, body, esc);
            var g := Grow(lim, o, b);
            PieceOk(lim, g) && PieceWire(g) == OpenWire(o) + [b]
  {
    hide IsStringIntro7, IsStringIntro8, Intro;
    var i := Intro(eight, kind, kind);
    assert esc ==> i + body + [ESC] + [b] == i + body + [ESC, b];
    assert i + body + [] + [b] == i + (body + [b]) + [];
    IntroIs(eight, kind, kind);
  }

  lemma WireSnoc(ps: seq<Piece>, p: Piece)
    ensures WireOf(ps + [p]) == WireOf(ps) + PieceWire(p)
  {
    if ps == [] {
      assert [p][1..] == [];
    } else {
      assert (ps + [p])[1..] == ps[1..] + [p];
      WireSnoc(ps[1..], p);
    }
  }

  lemma LexedSnoc(lim: Limits, ps: seq<Piece>, p: Piece)
    requires Lexed(lim, ps) && PieceOk(lim, p) && (ps != [] ==> Follows(ps[|ps| - 1], PieceWire(p)[0]))
    ensures Lexed(lim, ps + [p])
  {
    hide PieceOk, Follows, PieceWire;
  }

  /** The last piece may grow: what precedes it looks only at its first byte. */
  lemma LexedReplace(lim: Limits, ps: seq<Piece>, q: Piece)
    requires Lexed(lim, ps) && ps != [] && PieceOk(lim, q) && PieceWire(q)[0] == PieceWire(ps[|ps| - 1])[0]
    ensures Lexed(lim, ps[..|ps| - 1] + [q])
  {
    hide PieceOk, Follows, PieceWire;
    var n := |ps| - 1;
    assert n > 0 ==> Follows(ps[n - 1], PieceWire(ps[n - 1 + 1])[0]);
    LexedInit(lim, ps);
    LexedSnoc(lim, ps[..n], q);
  }

  lemma LexedInit(lim: Limits, ps: seq<Piece>)
    requires Lexed(lim, ps) && ps != []
    ensures Lexed(lim, ps[..|ps| - 1])
  {
    hide PieceOk, Follows, PieceWire;
  }

  lemma Replaced(ps: seq<Piece>, q: Piece, b: Byte)
    requires ps != [] && PieceWire(q) == PieceWire(ps[|ps| - 1]) + [b]
    ensures WireOf(ps[..|ps| - 1] + [q]) == WireOf(ps) + [b]
  {
    hide PieceWire, WireOf;
    var init, last := ps[..|ps| - 1], ps[|ps| - 1];
    assert ps == init + [last];
    WireSnoc(init, last);
    WireSnoc(init, q);
    Reassociate(WireOf(init), PieceWire(last), [b]);
  }

  lemma PushLexes(lim: Limits, ps: seq<Piece>, b: Byte)
    requires Lexed(lim, ps)
    ensures Lexed(lim, Push(lim, ps, b)) && WireOf(Push(lim, ps, b)) == WireOf(ps) + [b]
  {
    BeginOk(lim, b);
    WireSnoc(ps, Begin(b));
    if ps == [] {
      assert ps + [Begin(b)] == [Begin(b)];
      LexedSnoc(lim, ps, Begin(b));
    } else {
      var last := ps[|ps| - 1];
      assert PieceOk(lim, last);
      if Follows(last, b) {
        LexedSnoc(lim, ps, Begin(b));
      } else if last.Cut? {
        GrowOk(lim, last.open, b);
        LexedReplace(lim, ps, Grow(lim, last.open, b));
        Replaced(ps, Grow(lim, last.open, b), b);
      } else {
        var grown := RuneGrows(lim, last.token, b);
        var q := Whole(grown);
        LexedReplace(lim, ps, q);
        Replaced(ps, q, b);
      }
    }
  }

  /** Lexing is total and loses nothing. */
  lemma {:induction false} EveryStreamLexes(lim: Limits, p: seq<Byte>)
    ensures Lexed(lim, Lex(lim, p)) && WireOf(Lex(lim, p)) == p
    decreases |p|
  {
    hide Lexed, Push, WireOf;
    if p == [] {
      NothingLexes(lim);
    } else {
      EveryStreamLexes(lim, p[..|p| - 1]);
      PushLexes(lim, Lex(lim, p[..|p| - 1]), p[|p| - 1]);
      assert p == p[..|p| - 1] + [p[|p| - 1]];
    }
  }

  lemma NothingLexes(lim: Limits)
    ensures Lexed(lim, []) && WireOf([]) == []
  {
  }

  /** The filter is lexing followed by rendering, on every stream whatsoever. */
  lemma FilterIsRenderedLexing(lim: Limits, p: seq<Byte>)
    requires lim.maxSeq >= 1
    ensures Filtered(lim, p) == RenderOf(Lex(lim, p))
  {
    hide Lexed, Lex, WireOf, RenderOf, Run;
    EveryStreamLexes(lim, p);
    LexedStreamRendered(lim, Lex(lim, p));
  }
}
