/**
  * Terminal streams as sequences of tokens: what a terminal would read as one
  * character or one control function. The filter is characterised by them:
  * every stream of whole tokens is rendered token by token, and whatever the
  * stream, the output is a sequence of safe tokens.
  */
module AnsiTokens {
  import opened Bytes
  import opened Machine
  import opened AnsiParser

  datatype Terminator = Bel | St7 | St8

  datatype Token =
    | Plain(b: Byte)
    | Rune(lead: Byte, conts: seq<Byte>)
    | EscSeq(ints: seq<Byte>, final: Byte)
    | CsiSeq(eight: bool, mid: seq<Byte>, final: Byte)
    | OscSeq(eight: bool, payload: seq<Byte>, end: Terminator)
    | StrSeq(eight: bool, kind: Byte, body: seq<Byte>, end: Terminator)
    | Enq
    | LoneC1(b: Byte)

  function Ending(t: Terminator): seq<Byte> {
    match t
    case Bel => [BEL]
    case St7 => [ESC, BACKSLASH]
    case St8 => [C1_ST]
  }

  /** The bytes of a token on the wire. */
  function Wire(t: Token): seq<Byte> {
    match t
    case Plain(b) => [b]
    case Rune(lead, conts) => [lead] + conts
    case EscSeq(ints, final) => [ESC] + ints + [final]
    case CsiSeq(eight, mid, final) => (if eight then [C1_CSI] else [ESC, LBRACKET]) + mid + [final]
    case OscSeq(eight, payload, end) =>
      (if eight then [C1_OSC] else [ESC, RBRACKET]) + payload + Ending(end)
    case StrSeq(eight, kind, body, end) => (if eight then [kind] else [ESC, kind]) + body + Ending(end)
    case Enq => [ENQ]
    case LoneC1(b) => [b]
  }

  /** What the browser may see of a token: its 7-bit form, or nothing. */
  function Render(t: Token): seq<Byte> {
    match t
    case Plain(b) => [b]
    case Rune(lead, conts) => [lead] + conts
    case EscSeq(ints, final) => if ints == [] && final == CAP_Z then [] else [ESC] + ints + [final]
    case CsiSeq(_, mid, final) =>
      if CsiQuery(mid, final) then [] else [ESC, LBRACKET] + mid + [final]
    case OscSeq(_, payload, end) =>
      if OscQuery(payload) then []
      else [ESC, RBRACKET] + payload + Ending(if end == St7 then St7 else Bel)
    case StrSeq(_, _, _, _) => []
    case Enq => []
    case LoneC1(_) => []
  }

  predicate All(p: seq<Byte>, f: Byte -> bool) { forall i :: 0 <= i < |p| ==> f(p[i]) }

  /** A complete token within the filter's limits. */
  predicate WellFormed(lim: Limits, t: Token) {
    match t
    case Plain(b) => (b < 0x80 && b != ESC && b != ENQ) || 0xA0 <= b <= 0xBF
    case Rune(lead, conts) =>
      lead >= 0xC0 && |conts| <= Utf8Continuation(lead) && All(conts, IsContinuation)
    case EscSeq(ints, final) =>
      && All(ints, IsIntermediate) && 0x30 <= final <= 0x7E
      && (ints == [] ==> final != LBRACKET && final != RBRACKET && !IsStringIntro7(final))
      && (|ints| <= 1 || 1 + |ints| <= lim.maxSeq)
    case CsiSeq(_, mid, final) =>
      && All(mid, IsCsiBody) && 0x40 <= final <= 0x7E
      && (mid == [] || 2 + |mid| <= lim.maxSeq)
    case OscSeq(_, payload, _) =>
      All(payload, IsOscPayload) && (payload == [] || 2 + |payload| <= lim.maxSeq)
    case StrSeq(eight, kind, body, _) =>
      && (if eight then IsStringIntro8(kind) else IsStringIntro7(kind))
      && All(body, IsStringBody) && (body == [] || |body| <= lim.maxStr)
    case Enq => true
    case LoneC1(b) => IsC1(b) && b != C1_CSI && b != C1_OSC && !IsStringIntro8(b)
  }

  predicate IsStringBody(b: Byte) { b != BEL && b != C1_ST && b != ESC }

  /** A token in 7-bit form that asks the terminal for nothing. */
  predicate Safe(lim: Limits, t: Token) {
    && WellFormed(lim, t)
    && match t
       case Plain(_) => true
       case Rune(_, _) => true
       case EscSeq(ints, final) => ints != [] || final != CAP_Z
       case CsiSeq(eight, mid, final) => !eight && !CsiQuery(mid, final)
       case OscSeq(eight, payload, end) => !eight && end != St8 && !OscQuery(payload)
       case StrSeq(_, _, _, _) => false
       case Enq => false
       case LoneC1(_) => false
  }

  predicate AllSafe(lim: Limits, toks: seq<Token>) {
    forall i :: 0 <= i < |toks| ==> Safe(lim, toks[i])
  }

  predicate AllWellFormed(lim: Limits, toks: seq<Token>) {
    forall i :: 0 <= i < |toks| ==> WellFormed(lim, toks[i])
  }

  function WireAll(toks: seq<Token>): seq<Byte> {
    if toks == [] then [] else Wire(toks[0]) + WireAll(toks[1..])
  }

  function RenderAll(toks: seq<Token>): seq<Byte> {
    if toks == [] then [] else Render(toks[0]) + RenderAll(toks[1..])
  }

  /** Continuation bytes a token leaves the filter expecting. */
  function Owed(t: Token): int {
    if t.Rune? then Utf8Continuation(t.lead) - |t.conts| else 0
  }

  /** A rune short of continuation bytes is not followed by a byte it would take for one. */
  predicate Spaced(toks: seq<Token>) {
    forall i :: 0 <= i < |toks| - 1 && Owed(toks[i]) > 0 ==> !IsContinuation(Wire(toks[i + 1])[0])
  }

  function Resting(owed: nat): State { State(Ground, [], 0, owed) }

  // ----- one token -----

  /** Bytes a buffering phase takes without leaving it. */
  predicate Collects(ph: Phase, b: Byte) {
    match ph
    case EscInt => IsIntermediate(b)
    case Csi => IsCsiBody(b)
    case Osc => IsOscPayload(b)
    case _ => false
  }

  lemma {:induction false} CollectRun(lim: Limits, s: State, p: seq<Byte>)
    requires forall i :: 0 <= i < |p| ==> Collects(s.phase, p[i])
    requires p == [] || |s.pending| + |p| <= lim.maxSeq
    ensures Run(lim, s, p) == (s.(pending := s.pending + p), [])
    decreases |p|
  {
    if p == [] {
      RunEmpty(lim, s);
      assert s.pending + [] == s.pending;
    } else {
      var s' := s.(pending := s.pending + p[..1]);
      assert Consume(lim, s, p[0]) == (s', []) by { assert p[..1] == [p[0]] && Collects(s.phase, p[0]); }
      assert [p[0]] + p[1..] == p;
      RunCons(lim, s, p[0], p[1..]);
      hide Run, Consume;
      CollectRun(lim, s', p[1..]);
      assert (s.pending + p[..1]) + p[1..] == s.pending + p;
    }
  }

  lemma {:induction false} ScanRun(lim: Limits, s: State, p: seq<Byte>)
    requires s.phase == Str && All(p, IsStringBody)
    requires p == [] || s.scanned + |p| <= lim.maxStr
    ensures Run(lim, s, p) == (s.(scanned := s.scanned + |p|), [])
    decreases |p|
  {
    if p == [] {
      RunEmpty(lim, s);
    } else {
      var s' := s.(scanned := s.scanned + 1);
      assert Consume(lim, s, p[0]) == (s', []) by { assert IsStringBody(p[0]); }
      assert [p[0]] + p[1..] == p;
      RunCons(lim, s, p[0], p[1..]);
      hide Run, Consume;
      ScanRun(lim, s', p[1..]);
    }
  }

  lemma {:induction false} ContinuationRun(lim: Limits, owed: nat, p: seq<Byte>)
    requires |p| <= owed && All(p, IsContinuation)
    ensures Run(lim, Resting(owed), p) == (Resting(owed - |p|), p)
    decreases |p|
  {
    if p == [] {
      RunEmpty(lim, Resting(owed));
    } else {
      assert Consume(lim, Resting(owed), p[0]) == (Resting(owed - 1), [p[0]]) by { assert IsContinuation(p[0]); }
      assert [p[0]] + p[1..] == p;
      RunCons(lim, Resting(owed), p[0], p[1..]);
      hide Run, Consume;
      ContinuationRun(lim, owed - 1, p[1..]);
    }
  }

  lemma RunOne(lim: Limits, s: State, b: Byte)
    ensures Run(lim, s, [b]) == Consume(lim, s, b)
  {
    FeedOne(Stepper(lim), s, b);
  }

  lemma RunTwo(lim: Limits, s: State, a: Byte, b: Byte)
    requires Consume(lim, s, a).1 == []
    ensures Run(lim, s, [a, b]) == Consume(lim, Consume(lim, s, a).0, b)
  {
    var s' := Consume(lim, s, a).0;
    assert [a, b] == [a] + [b];
    RunCons(lim, s, a, [b]);
    RunOne(lim, s', b);
    hide Run, Consume;
    assert [] + Consume(lim, s', b).1 == Consume(lim, s', b).1;
  }

  lemma RunThree(lim: Limits, s: State, a: seq<Byte>, b: seq<Byte>, c: seq<Byte>)
    requires Run(lim, s, a).1 == [] && Run(lim, Run(lim, s, a).0, b).1 == []
    ensures Run(lim, s, a + b + c) == Run(lim, Run(lim, Run(lim, s, a).0, b).0, c)
  {
    RunAppend(lim, s, a + b, c);
    RunAppend(lim, s, a, b);
    hide Run;
    var after := Run(lim, Run(lim, Run(lim, s, a).0, b).0, c);
    assert [] + [] + after.1 == after.1;
  }

  /** Introducers, from ground when no continuation byte could claim them. */
  predicate Ready(s: State, b: Byte) { s == Resting(s.owed) && (s.owed == 0 || !IsContinuation(b)) }

  lemma EscRuns(lim: Limits, s: State, t: Token)
    requires t.EscSeq? && WellFormed(lim, t) && Ready(s, ESC)
    ensures Run(lim, s, Wire(t)) == (Resting(0), Render(t))
  {
    var esc := State(Esc, [ESC], 0, 0);
    assert Run(lim, s, [ESC]) == (esc, []) by { RunOne(lim, s, ESC); }
    if t.ints == [] {
      assert Wire(t) == [ESC, t.final] == [ESC] + [t.final];
      RunTwo(lim, s, ESC, t.final);
    } else {
      var buf := State(EscInt, [ESC] + t.ints, 0, 0);
      assert Run(lim, esc, t.ints) == (buf, []) by { IntermediateRun(lim, t.ints); }
      assert Run(lim, buf, [t.final]) == (Resting(0), Wire(t)) by { RunOne(lim, buf, t.final); }
      RunThree(lim, s, [ESC], t.ints, [t.final]);
    }
  }

  lemma IntermediateRun(lim: Limits, ints: seq<Byte>)
    requires ints != [] && All(ints, IsIntermediate) && (|ints| <= 1 || 1 + |ints| <= lim.maxSeq)
    ensures Run(lim, State(Esc, [ESC], 0, 0), ints) == (State(EscInt, [ESC] + ints, 0, 0), [])
  {
    var esc := State(Esc, [ESC], 0, 0);
    var one := State(EscInt, [ESC, ints[0]], 0, 0);
    assert Consume(lim, esc, ints[0]) == (one, []) by {
      assert IsIntermediate(ints[0]);
      assert [ESC] + [ints[0]] == [ESC, ints[0]];
    }
    assert [ints[0]] + ints[1..] == ints;
    RunCons(lim, esc, ints[0], ints[1..]);
    CollectRun(lim, one, ints[1..]);
    assert [ESC, ints[0]] + ints[1..] == [ESC] + ints;
    assert Run(lim, esc, ints).1 == [];
  }

  lemma IntroRuns(lim: Limits, s: State, eight: bool, b8: Byte, b7: Byte, buf: State)
    requires Ready(s, if eight then b8 else ESC)
    requires || (b8 == C1_CSI && b7 == LBRACKET && buf == State(Csi, [ESC, b7], 0, 0))
             || (b8 == C1_OSC && b7 == RBRACKET && buf == State(Osc, [ESC, b7], 0, 0))
             || (buf == State(Str, [], 0, 0) && if eight then IsStringIntro8(b8) else IsStringIntro7(b7))
    ensures Run(lim, s, if eight then [b8] else [ESC, b7]) == (buf, [])
  {
    if eight {
      RunOne(lim, s, b8);
    } else {
      assert [ESC] + [b7] == [ESC, b7];
      RunTwo(lim, s, ESC, b7);
    }
  }

  lemma CsiRuns(lim: Limits, s: State, t: Token)
    requires t.CsiSeq? && WellFormed(lim, t) && Ready(s, Wire(t)[0])
    ensures Run(lim, s, Wire(t)) == (Resting(0), Render(t))
  {
    var intro := [ESC, LBRACKET];
    IntroRuns(lim, s, t.eight, C1_CSI, LBRACKET, State(Csi, intro, 0, 0));
    CollectRun(lim, State(Csi, intro, 0, 0), t.mid);
    RunThree(lim, s, if t.eight then [C1_CSI] else intro, t.mid, [t.final]);
    CsiEndRuns(lim, t.mid, t.final);
  }

  lemma CsiEndRuns(lim: Limits, mid: seq<Byte>, final: Byte)
    requires 0x40 <= final <= 0x7E
    ensures Run(lim, State(Csi, [ESC, LBRACKET] + mid, 0, 0), [final])
         == (Resting(0), Render(CsiSeq(false, mid, final)))
  {
    var done := [ESC, LBRACKET] + mid + [final];
    assert done[2..] == mid + [final] && (mid + [final])[..|mid|] == mid;
    assert CsiShouldStrip(done) == CsiQuery(mid, final);
    RunOne(lim, State(Csi, [ESC, LBRACKET] + mid, 0, 0), final);
  }

  lemma OscBodyIs(payload: seq<Byte>, end: Terminator)
    requires All(payload, IsOscPayload) && end != St8
    ensures OscBody([ESC, RBRACKET] + payload + Ending(end)) == payload
  {
    var done := [ESC, RBRACKET] + payload + Ending(end);
    assert done[2..] == payload + Ending(end);
    assert (payload + Ending(end))[..|payload|] == payload;
  }

  lemma OscEndRuns(lim: Limits, payload: seq<Byte>, end: Terminator)
    requires All(payload, IsOscPayload)
    ensures Run(lim, State(Osc, [ESC, RBRACKET] + payload, 0, 0), Ending(end))
         == (Resting(0), Render(OscSeq(false, payload, end)))
  {
    hide OscQuery, OscBody, Run;
    var buf := State(Osc, [ESC, RBRACKET] + payload, 0, 0);
    if end == St7 {
      OscBodyIs(payload, St7);
      RunTwo(lim, buf, ESC, BACKSLASH);
    } else {
      OscBodyIs(payload, Bel);
      RunOne(lim, buf, Ending(end)[0]);
    }
  }

  lemma OscRuns(lim: Limits, s: State, t: Token)
    requires t.OscSeq? && WellFormed(lim, t) && Ready(s, Wire(t)[0])
    ensures Run(lim, s, Wire(t)) == (Resting(0), Render(t))
  {
    var intro := [ESC, RBRACKET];
    IntroRuns(lim, s, t.eight, C1_OSC, RBRACKET, State(Osc, intro, 0, 0));
    CollectRun(lim, State(Osc, intro, 0, 0), t.payload);
    RunThree(lim, s, if t.eight then [C1_OSC] else intro, t.payload, Ending(t.end));
    OscEndRuns(lim, t.payload, t.end);
  }

  lemma StrEndRuns(lim: Limits, scanned: nat, end: Terminator)
    ensures Run(lim, State(Str, [], scanned, 0), Ending(end)) == (Resting(0), [])
  {
    hide Run;
    var buf := State(Str, [], scanned, 0);
    if end == St7 {
      RunTwo(lim, buf, ESC, BACKSLASH);
    } else {
      RunOne(lim, buf, Ending(end)[0]);
    }
  }

  lemma StrRuns(lim: Limits, s: State, t: Token)
    requires t.StrSeq? && WellFormed(lim, t) && Ready(s, Wire(t)[0])
    ensures Run(lim, s, Wire(t)) == (Resting(0), Render(t))
  {
    hide Run, IsStringIntro7, IsStringIntro8;
    IntroRuns(lim, s, t.eight, t.kind, t.kind, State(Str, [], 0, 0));
    ScanRun(lim, State(Str, [], 0, 0), t.body);
    RunThree(lim, s, if t.eight then [t.kind] else [ESC, t.kind], t.body, Ending(t.end));
    StrEndRuns(lim, |t.body|, t.end);
  }

  lemma RuneRuns(lim: Limits, s: State, t: Token)
    requires t.Rune? && WellFormed(lim, t) && Ready(s, t.lead)
    ensures Run(lim, s, Wire(t)) == (Resting(Owed(t)), Render(t))
  {
    RunCons(lim, s, t.lead, t.conts);
    ContinuationRun(lim, Utf8Continuation(t.lead), t.conts);
  }

  /** A rune short of continuation bytes takes one more. */
  lemma RuneGrows(lim: Limits, t: Token, b: Byte) returns (grown: Token)
    requires WellFormed(lim, t) && Owed(t) > 0 && IsContinuation(b)
    ensures t.Rune? && grown == Rune(t.lead, t.conts + [b])
    ensures WellFormed(lim, grown) && Wire(grown) == Wire(t) + [b] && Owed(grown) == Owed(t) - 1
  {
    grown := Rune(t.lead, t.conts + [b]);
  }

  /** One whole token, from ground: rendered, and the filter is back in ground. */
  lemma TokenRuns(lim: Limits, s: State, t: Token)
    requires WellFormed(lim, t) && Ready(s, Wire(t)[0])
    ensures Owed(t) >= 0 && Run(lim, s, Wire(t)) == (Resting(Owed(t)), Render(t))
  {
    match t
    case Plain(b) => RunOne(lim, s, b);
    case Rune(_, _) => RuneRuns(lim, s, t);
    case EscSeq(_, _) => EscRuns(lim, s, t);
    case CsiSeq(_, _, _) => CsiRuns(lim, s, t);
    case OscSeq(_, _, _) => OscRuns(lim, s, t);
    case StrSeq(_, _, _, _) => StrRuns(lim, s, t);
    case Enq => RunOne(lim, s, ENQ);
    case LoneC1(b) => RunOne(lim, s, b);
  }
}
