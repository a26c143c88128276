/** The streaming line splitter that captures a child's output. */
module LineWriter {
  import opened Bytes
  import opened Machine

  const NEWLINE: Byte := 0x0A
  const MAX_CAPTURED_LINE := 0x1_0000

  type Line = seq<Byte>

  datatype State = State(buf: Line, dropping: bool)

  const START := State([], false)

  function Nonempty(line: Line): seq<Line> { if line == [] then [] else [line] }

  /** One byte: the next state and the lines it completes. */
  function Consume(max: nat, s: State, b: Byte): (State, seq<Line>) {
    if b == NEWLINE then (START, if s.dropping then [] else Nonempty(s.buf))
    else if s.dropping then (s, [])
    else if |s.buf| >= max then (State([], true), Nonempty(s.buf))
    else (s.(buf := s.buf + [b]), [])
  }

  function Stepper(max: nat): Step<State, Byte, Line> { (s, b) => Consume(max, s, b) }

  /** What flushing at end of stream delivers. */
  function Trailing(s: State): seq<Line> { if s.dropping then [] else Nonempty(s.buf) }

  class Writer {
    var buf: Line
    var dropping: bool
    const maxLine: nat

    function Now(): State reads this { State(buf, dropping) }

    constructor (maxLine: int)
      ensures Now() == START && this.maxLine > 0
      ensures this.maxLine == if maxLine <= 0 then 0x1_0000 else maxLine
    {
      this.maxLine := if maxLine <= 0 then MAX_CAPTURED_LINE else maxLine;
      buf, dropping := [], false;
    }

    /** Takes a fragment of the stream; `lines` are the callbacks it makes, in order. */
    method Write(p: seq<Byte>) returns (lines: seq<Line>)
      modifies this
      ensures (Now(), lines) == Feed(Stepper(maxLine), old(Now()), p)
    {
      lines := [];
      for i := 0 to |p|
        invariant (Now(), lines) == Feed(Stepper(maxLine), old(Now()), p[..i])
      {
        FeedSnoc(Stepper(maxLine), old(Now()), p[..i], p[i]);
        assert p[..i + 1] == p[..i] + [p[i]];
        ghost var before := lines;
        if p[i] == NEWLINE {
          if !dropping {
            lines := lines + Emit();
          }
          buf, dropping := [], false;
        } else if dropping {
        } else if |buf| >= maxLine {
          lines := lines + Emit();
          buf, dropping := [], true;
        } else {
          buf := buf + [p[i]];
        }
        assert before + [] == before;
      }
      assert p[..|p|] == p;
    }

    function Emit(): seq<Line> reads this { Nonempty(buf) }

    method Flush() returns (lines: seq<Line>)
      modifies this
      ensures lines == Trailing(old(Now())) && Now() == START
    {
      lines := [];
      if !dropping && |buf| > 0 {
        lines := Emit();
      }
      buf, dropping := [], false;
    }
  }

  // ----- the plain specification -----

  /** The text before the first newline. */
  function Head(p: seq<Byte>): (h: Line)
    ensures h <= p && NEWLINE !in h && (|h| < |p| ==> p[|h|] == NEWLINE)
  {
    if p == [] || p[0] == NEWLINE then [] else [p[0]] + Head(p[1..])
  }

  function Truncated(max: nat, line: Line): seq<Line> {
    Nonempty(if |line| <= max then line else line[..max])
  }

  /** Split at newlines, drop empty lines, cut each to the maximum. */
  function Lines(max: nat, p: seq<Byte>): seq<Line>
    decreases |p|
  {
    var h := Head(p);
    Truncated(max, h) + (if |h| == |p| then [] else Lines(max, p[|h| + 1..]))
  }

  /** The lines after the one `p` starts in. */
  function Later(max: nat, p: seq<Byte>): seq<Line> {
    if |Head(p)| == |p| then [] else Lines(max, p[|Head(p)| + 1..])
  }

  /** What a writer in state `s` still has to deliver for the rest of the stream. */
  function Due(max: nat, s: State, p: seq<Byte>): seq<Line> {
    (if s.dropping then [] else Truncated(max, s.buf + Head(p))) + Later(max, p)
  }

  predicate Fits(max: nat, s: State) { |s.buf| <= max && NEWLINE !in s.buf }

  lemma DueNewline(max: nat, s: State, rest: seq<Byte>)
    requires Fits(max, s)
    ensures Due(max, s, [NEWLINE] + rest) == Trailing(s) + Due(max, START, rest)
  {
    var p := [NEWLINE] + rest;
    assert Head(p) == [] && p[1..] == rest && s.buf + [] == s.buf && [] + Head(rest) == Head(rest);
  }

  lemma TextSplits(max: nat, b: Byte, rest: seq<Byte>)
    requires b != NEWLINE
    ensures Head([b] + rest) == [b] + Head(rest)
    ensures Later(max, [b] + rest) == Later(max, rest)
  {
    var p := [b] + rest;
    assert p[1..] == rest && Head(p) == [b] + Head(rest);
    assert |Head(rest)| == |rest| || p[|Head(p)| + 1..] == rest[|Head(rest)| + 1..];
  }

  lemma DueGrows(max: nat, s: State, b: Byte, rest: seq<Byte>)
    requires b != NEWLINE && !s.dropping
    ensures Due(max, s, [b] + rest) == Due(max, s.(buf := s.buf + [b]), rest)
  {
    TextSplits(max, b, rest);
    hide Later, Head;
    assert s.buf + ([b] + Head(rest)) == (s.buf + [b]) + Head(rest);
  }

  lemma DueOverflows(max: nat, s: State, b: Byte, rest: seq<Byte>)
    requires b != NEWLINE && !s.dropping && |s.buf| == max > 0
    ensures Due(max, s, [b] + rest) == [s.buf] + Due(max, State([], true), rest)
  {
    TextSplits(max, b, rest);
    hide Later, Head;
    var line := s.buf + ([b] + Head(rest));
    assert line[..max] == s.buf;
    assert [] + Later(max, rest) == Later(max, rest);
  }

  lemma DueText(max: nat, s: State, b: Byte, rest: seq<Byte>)
    requires Fits(max, s) && max > 0 && b != NEWLINE
    ensures var r := Consume(max, s, b);
            Fits(max, r.0) && Due(max, s, [b] + rest) == r.1 + Due(max, r.0, rest)
  {
    if s.dropping {
      TextSplits(max, b, rest);
    } else if |s.buf| < max {
      DueGrows(max, s, b, rest);
    } else {
      DueOverflows(max, s, b, rest);
    }
    hide Due;
    var r := Consume(max, s, b);
    assert r.1 == [] ==> r.1 + Due(max, r.0, rest) == Due(max, r.0, rest);
  }

  lemma DueByte(max: nat, s: State, b: Byte, rest: seq<Byte>)
    requires Fits(max, s) && max > 0
    ensures var r := Consume(max, s, b);
            Fits(max, r.0) && Due(max, s, [b] + rest) == r.1 + Due(max, r.0, rest)
  {
    if b == NEWLINE {
      DueNewline(max, s, rest);
    } else {
      DueText(max, s, b, rest);
    }
  }

  lemma DueNothing(max: nat, s: State)
    requires Fits(max, s)
    ensures Due(max, s, []) == Trailing(s)
  {
    assert s.buf + [] == s.buf && Trailing(s) + [] == Trailing(s);
  }

  lemma {:induction false} WriterDelivers(max: nat, s: State, p: seq<Byte>)
    requires Fits(max, s) && max > 0
    ensures var r := Feed(Stepper(max), s, p); r.1 + Trailing(r.0) == Due(max, s, p)
    decreases |p|
  {
    hide Due, Consume, Trailing, Fits;
    if p == [] {
      DueNothing(max, s);
      assert [] + Trailing(s) == Trailing(s);
    } else {
      assert p == [p[0]] + p[1..];
      DueByte(max, s, p[0], p[1..]);
      FeedCons(Stepper(max), s, p[0], p[1..]);
      var first := Consume(max, s, p[0]);
      WriterDelivers(max, first.0, p[1..]);
      hide Feed;
      var rest := Feed(Stepper(max), first.0, p[1..]);
      assert (first.1 + rest.1) + Trailing(rest.0) == first.1 + (rest.1 + Trailing(rest.0));
    }
  }

  /** However the stream is cut, writing every fragment and flushing delivers exactly its lines. */
  lemma SplitterRefines(max: nat, chunks: seq<seq<Byte>>)
    requires max > 0
    ensures var r := FeedChunks(Stepper(max), START, chunks);
            r.1 + Trailing(r.0) == Lines(max, Flatten(chunks))
  {
    FeedFlatten(Stepper(max), START, chunks);
    WriterDelivers(max, START, Flatten(chunks));
    assert [] + Head(Flatten(chunks)) == Head(Flatten(chunks));
  }

  /**
    * The split, law by law: a terminated line is one line unless empty, cut to the
    * maximum, and then come the lines of the rest; so is an unterminated last one.
    */
  lemma LinesOf(max: nat, line: Line, rest: seq<Byte>)
    requires forall i :: 0 <= i < |line| ==> line[i] != 0x0A
    ensures var first := if line == [] then [] else [if |line| <= max then line else line[..max]];
            max > 0 ==> Lines(max, line + [0x0A] + rest) == first + Lines(max, rest) && Lines(max, line) == first
  {
    HeadOf(line, rest);
    var p := line + [0x0A] + rest;
    assert p[|line| + 1..] == rest;
    hide Head;
    assert max > 0 && line != [] ==> (if |line| <= max then line else line[..max]) != [];
    assert Truncated(max, line) + [] == Truncated(max, line);
  }

  lemma {:induction false} HeadOf(line: Line, rest: seq<Byte>)
    requires forall i :: 0 <= i < |line| ==> line[i] != 0x0A
    ensures Head(line + [0x0A] + rest) == line && Head(line) == line
    decreases |line|
  {
    var p := line + [0x0A] + rest;
    if line == [] {
      assert p[0] == 0x0A;
    } else {
      assert p[1..] == line[1..] + [0x0A] + rest;
      HeadOf(line[1..], rest);
    }
  }
}
