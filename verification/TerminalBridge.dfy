/**
  * One terminal session: the controller reader, the single socket writer and
  * whoever cancels, interleaved in every order, with a bounded queue between.
  */
module TerminalBridge {
  import opened Prelude
  import opened Bytes
  import opened Machine
  import opened AnsiParser
  import AnsiSafety

  /** A parsed controller record; `raw` is absent when its base64 is bad. */
  datatype Record =
    | Frame(seqNo: nat, raw: Option<seq<Byte>>, announces: bool)
    | Closed
    | Ignored

  datatype Msg = Binary(data: seq<Byte>) | Text(note: string)

  /** Why the reader stopped. `Lost` means a filtered frame could not be queued. */
  datatype Why = StreamEnd | PeerClosed | BadSequence | TooBig | Lost

  datatype Config = Config(lim: Limits, maxFrame: nat, capacity: nat, records: seq<Record>)

  // ----- the reader on its own -----

  /** What the reader owns: sequence tracking, its filter, and the frames it took. */
  datatype Intake = Intake(haveSeq: bool, lastSeq: nat, filter: State, accepted: seq<seq<Byte>>, seqs: seq<nat>)

  const NO_INTAKE := Intake(false, 0, FRESH, [], [])

  datatype Verdict = Go(sends: seq<Msg>) | Stop(why: Why)

  /** One record: the new intake, and what to send or why to stop. */
  function Take(cfg: Config, k: Intake, rec: Record): (Intake, Verdict) {
    match rec
    case Ignored => (k, Go([]))
    case Closed => (k, Stop(PeerClosed))
    case Frame(n, raw, announces) =>
      if k.haveSeq && n <= k.lastSeq then (k, Stop(BadSequence))
      else
        var k := k.(haveSeq := true, lastSeq := n);
        if raw == None then (k, Go([]))
        else if |raw.value| > cfg.maxFrame then (k, Stop(TooBig))
        else
          var r := Run(cfg.lim, k.filter, raw.value);
          (k.(filter := r.0, accepted := k.accepted + [raw.value], seqs := k.seqs + [n]),
           Go((if announces then [Text("resized")] else []) + (if r.1 == [] then [] else [Binary(r.1)])))
  }

  datatype Scan = Scan(intake: Intake, stopped: Option<Why>)

  /** The records in order, up to the first that stops the reader. */
  function ScanAll(cfg: Config, recs: seq<Record>): Scan {
    if recs == [] then Scan(NO_INTAKE, None)
    else
      var before := ScanAll(cfg, recs[..|recs| - 1]);
      if before.stopped != None then before
      else
        var r := Take(cfg, before.intake, recs[|recs| - 1]);
        Scan(r.0, if r.1.Stop? then Some(r.1.why) else None)
  }

  /** The raw frames a session accepts, whatever the schedule. */
  function AcceptedFrames(cfg: Config): seq<seq<Byte>> { ScanAll(cfg, cfg.records).intake.accepted }

  function Binaries(msgs: seq<Msg>): seq<Byte> {
    if msgs == [] then []
    else (if msgs[0].Binary? then msgs[0].data else []) + Binaries(msgs[1..])
  }

  lemma {:induction false} BinariesAppend(a: seq<Msg>, b: seq<Msg>)
    ensures Binaries(a + b) == Binaries(a) + Binaries(b)
  {
    if a == [] {
      assert a + b == b;
    } else {
      assert (a + b)[1..] == a[1..] + b;
      BinariesAppend(a[1..], b);
    }
  }

  lemma BinariesOne(m: Msg)
    ensures Binaries([m]) == if m.Binary? then m.data else []
  {
    assert [m][1..] == [];
  }

  // ----- the session -----

  datatype Reader = Reading | Sending(msgs: seq<Msg>) | Waiting(msgs: seq<Msg>) | Ended(why: Why)
  datatype Writer = Running | Draining | Leaving(failed: bool) | Done(failed: bool)
  datatype Cause = ByReader(why: Why) | ByWriter | ByOther

  /** `wire` is what the socket took; `cause` is whoever cancelled first. */
  datatype Session = Session(
    pos: nat, intake: Intake, reader: Reader,
    queue: seq<Msg>, writer: Writer, wire: seq<Msg>,
    cause: Option<Cause>, closed: bool)

  predicate Cancelled(s: Session) { s.cause != None }

  function Start(): Session {
    Session(0, NO_INTAKE, Reading, [Text("opened")], Running, [], None, false)
  }

  function Cancel(s: Session, c: Cause): Session { if Cancelled(s) then s else s.(cause := Some(c)) }

  datatype Action =
    | ReadRecord | ReadEnd
    | Push | DropText | Block | GiveUp
    | ReaderExit | OtherCancel | OtherText(note: string)
    | BeginDrain | WriteOk | WriteFail | DrainEnd | WriterExit
    | FinalClose

  function Pending(r: Reader): seq<Msg> { if r.Sending? || r.Waiting? then r.msgs else [] }

  predicate Enabled(cfg: Config, s: Session, a: Action) {
    match a
    case ReadRecord => s.reader == Reading && s.pos < |cfg.records|
    case ReadEnd => s.reader == Reading && s.pos == |cfg.records|
    case Push => Pending(s.reader) != [] && |s.queue| < cfg.capacity
    case DropText => s.reader.Sending? && s.reader.msgs != [] && s.reader.msgs[0].Text?
                     && (Cancelled(s) || |s.queue| >= cfg.capacity)
    case Block => s.reader.Sending? && s.reader.msgs != [] && s.reader.msgs[0].Binary?
                  && !Cancelled(s) && |s.queue| >= cfg.capacity
    case GiveUp =>
      || s.reader.Waiting?
      || (Cancelled(s) && s.reader.Sending? && s.reader.msgs != [] && s.reader.msgs[0].Binary?)
    case ReaderExit => s.reader.Ended?
    case OtherCancel => true
    case OtherText(_) => |s.queue| < cfg.capacity
    case BeginDrain => s.writer == Running && Cancelled(s)
    case WriteOk => s.writer in {Running, Draining} && s.queue != []
    case WriteFail => s.writer in {Running, Draining} && s.queue != []
    case DrainEnd => s.writer == Draining && s.queue == []
    case WriterExit => s.writer.Leaving?
    case FinalClose => Cancelled(s) && s.writer.Done? && !s.closed
  }

  function AfterSend(msgs: seq<Msg>): Reader
    requires msgs != []
  {
    if |msgs| == 1 then Reading else Sending(msgs[1..])
  }

  function Apply(cfg: Config, s: Session, a: Action): Session
    requires Enabled(cfg, s, a)
  {
    match a
    case ReadRecord =>
      var r := Take(cfg, s.intake, cfg.records[s.pos]);
      s.(pos := s.pos + 1, intake := r.0,
         reader := if r.1.Stop? then Ended(r.1.why) else if r.1.sends == [] then Reading else Sending(r.1.sends))
    case ReadEnd => s.(reader := Ended(StreamEnd))
    case Push => s.(queue := s.queue + [Pending(s.reader)[0]], reader := AfterSend(Pending(s.reader)))
    case DropText => s.(reader := AfterSend(s.reader.msgs))
    case Block => s.(reader := Waiting(s.reader.msgs))
    case GiveUp => s.(reader := Ended(Lost))
    case ReaderExit => Cancel(s, ByReader(s.reader.why))
    case OtherCancel => Cancel(s, ByOther)
    case OtherText(t) => s.(queue := s.queue + [Text(t)])
    case BeginDrain => s.(writer := Draining)
    case WriteOk => s.(wire := s.wire + [s.queue[0]], queue := s.queue[1..])
    case WriteFail => s.(queue := s.queue[1..], writer := Leaving(true))
    case DrainEnd => s.(writer := Leaving(false))
    case WriterExit => Cancel(s, ByWriter).(writer := Done(s.writer.failed))
    case FinalClose => s.(wire := s.wire + [Text("closed")], closed := true)
  }

  /** Any schedule of enabled actions, from the start of the session. */
  ghost predicate IsRun(cfg: Config, states: seq<Session>, actions: seq<Action>) {
    && |states| == |actions| + 1 && states[0] == Start()
    && forall i :: 0 <= i < |actions| ==>
         Enabled(cfg, states[i], actions[i]) && states[i + 1] == Apply(cfg, states[i], actions[i])
  }

  // ----- what every step keeps -----

  predicate WriterFailed(w: Writer) { (w.Leaving? || w.Done?) && w.failed }

  function Released(cfg: Config, k: Intake): seq<Byte> { Run(cfg.lim, FRESH, Flatten(k.accepted)).1 }

  predicate Agrees(cfg: Config, s: Session, sc: Scan) {
    && s.intake == sc.intake
    && match s.reader
       case Ended(StreamEnd) => s.pos == |cfg.records|
       case Ended(Lost) => true
       case Ended(w) => sc.stopped == Some(w)
       case _ => sc.stopped == None
  }

  /** The reader has kept exactly what the records up to `pos` call for. */
  ghost predicate ReaderInv(cfg: Config, s: Session) {
    && s.pos <= |cfg.records|
    && s.intake.filter == Run(cfg.lim, FRESH, Flatten(s.intake.accepted)).0
    && Agrees(cfg, s, ScanAll(cfg, cfg.records[..s.pos]))
    && (s.reader.Waiting? ==> s.reader.msgs != [] && s.reader.msgs[0].Binary?)
  }

  /** Nothing is reordered or duplicated; bytes are missing only after a loss. */
  ghost predicate FlowInv(cfg: Config, s: Session) {
    var held := Binaries(s.wire) + Binaries(s.queue) + Binaries(Pending(s.reader));
    && Binaries(s.wire) <= Released(cfg, s.intake)
    && (!WriterFailed(s.writer) ==> held <= Released(cfg, s.intake))
    && (!WriterFailed(s.writer) && s.reader != Ended(Lost) ==> held == Released(cfg, s.intake))
  }

  /** Cancellation order: the writer drains only after it, and the socket closes last. */
  ghost predicate OrderInv(cfg: Config, s: Session) {
    && |s.queue| <= cfg.capacity
    && (s.writer in {Draining, Leaving(false)} || s.writer.Done? ==> Cancelled(s))
    && (s.cause.Some? && s.cause.value.ByReader? ==> s.reader == Ended(s.cause.value.why))
    && (s.writer in {Leaving(false), Done(false)} && s.cause.Some? && s.cause.value.ByReader? ==>
          Binaries(s.queue) == [])
    && (s.closed ==> s.writer.Done?)
  }

  ghost predicate Inv(cfg: Config, s: Session) {
    cfg.capacity > 0 && ReaderInv(cfg, s) && FlowInv(cfg, s) && OrderInv(cfg, s)
  }

  lemma StartInv(cfg: Config)
    requires cfg.capacity > 0
    ensures Inv(cfg, Start())
  {
    assert cfg.records[..0] == [];
    BinariesOne(Text("opened"));
  }

  /** Taking a record releases exactly the bytes it asks to send. */
  lemma TakeReleases(cfg: Config, k: Intake, rec: Record)
    requires k.filter == Run(cfg.lim, FRESH, Flatten(k.accepted)).0
    ensures var r := Take(cfg, k, rec);
            && r.0.filter == Run(cfg.lim, FRESH, Flatten(r.0.accepted)).0
            && Released(cfg, r.0) == Released(cfg, k) + (if r.1.Go? then Binaries(r.1.sends) else [])
  {
    var r := Take(cfg, k, rec);
    if rec.Frame? && r.0.accepted != k.accepted {
      var raw := rec.raw.value;
      FlattenAppend(k.accepted, [raw]);
      assert Flatten([raw]) == raw by { assert [raw][1..] == [] && raw + [] == raw; }
      RunAppend(cfg.lim, FRESH, Flatten(k.accepted), raw);
      SendsCarry(Run(cfg.lim, k.filter, raw).1, rec.announces);
    } else if r.1.Go? {
      assert Released(cfg, k) + [] == Released(cfg, k);
    }
  }

  lemma SendsCarry(out: seq<Byte>, announces: bool)
    ensures Binaries((if announces then [Text("resized")] else []) + (if out == [] then [] else [Binary(out)])) == out
  {
    BinariesOne(Text("resized"));
    BinariesOne(Binary(out));
    BinariesAppend(if announces then [Text("resized")] else [], if out == [] then [] else [Binary(out)]);
  }

  lemma SplitHead(msgs: seq<Msg>)
    requires msgs != []
    ensures Binaries(msgs) == Binaries([msgs[0]]) + Binaries(msgs[1..])
    ensures Pending(AfterSend(msgs)) == msgs[1..]
  {
    BinariesOne(msgs[0]);
  }

  lemma TakeStops(cfg: Config, k: Intake, rec: Record)
    ensures var v := Take(cfg, k, rec).1; v.Stop? ==> v.why in {PeerClosed, BadSequence, TooBig}
  {
    hide Run;
  }

  lemma ReadRecordReader(cfg: Config, s: Session)
    requires Inv(cfg, s) && Enabled(cfg, s, ReadRecord)
    ensures ReaderInv(cfg, Apply(cfg, s, ReadRecord)) && OrderInv(cfg, Apply(cfg, s, ReadRecord))
  {
    hide Take, Released, Run, Flatten, ScanAll, Binaries, FlowInv;
    var rec := cfg.records[s.pos];
    TakeReleases(cfg, s.intake, rec);
    TakeStops(cfg, s.intake, rec);
    ScanNext(cfg, cfg.records[..s.pos], rec);
    assert cfg.records[..s.pos] + [rec] == cfg.records[..s.pos + 1];
  }

  lemma ReadRecordFlow(cfg: Config, s: Session)
    requires Inv(cfg, s) && Enabled(cfg, s, ReadRecord)
    ensures FlowInv(cfg, Apply(cfg, s, ReadRecord))
  {
    hide Take, Released, Run, Flatten, ScanAll, Binaries, OrderInv, Agrees;
    var rec := cfg.records[s.pos];
    TakeReleases(cfg, s.intake, rec);
    BinariesNone();
    var s' := Apply(cfg, s, ReadRecord);
    var flowing, added := Binaries(s.wire) + Binaries(s.queue), Binaries(Pending(s'.reader));
    assert flowing + [] == flowing;
    assert Released(cfg, s'.intake) == Released(cfg, s.intake) + added;
    assert Released(cfg, s.intake) <= Released(cfg, s'.intake);
  }

  lemma ReadRecordStep(cfg: Config, s: Session)
    requires Inv(cfg, s) && Enabled(cfg, s, ReadRecord)
    ensures Inv(cfg, Apply(cfg, s, ReadRecord))
  {
    hide ReaderInv, FlowInv, OrderInv, Enabled, Apply;
    ReadRecordReader(cfg, s);
    ReadRecordFlow(cfg, s);
  }

  lemma BinariesNone()
    ensures Binaries([]) == []
  {
  }

  lemma ScanNext(cfg: Config, recs: seq<Record>, rec: Record)
    requires ScanAll(cfg, recs).stopped == None
    ensures var r := Take(cfg, ScanAll(cfg, recs).intake, rec);
            ScanAll(cfg, recs + [rec]) == Scan(r.0, if r.1.Stop? then Some(r.1.why) else None)
  {
    assert (recs + [rec])[..|recs|] == recs;
  }

  lemma PushStep(cfg: Config, s: Session)
    requires Inv(cfg, s) && Enabled(cfg, s, Push)
    ensures Inv(cfg, Apply(cfg, s, Push))
  {
    hide Take, Released, Run, Flatten, ScanAll, Binaries;
    var msgs := Pending(s.reader);
    SplitHead(msgs);
    BinariesAppend(s.queue, [msgs[0]]);
    var w, q, head, tail := Binaries(s.wire), Binaries(s.queue), Binaries([msgs[0]]), Binaries(msgs[1..]);
    assert w + (q + head) + tail == w + q + (head + tail);
    assert FlowInv(cfg, Apply(cfg, s, Push));
  }

  lemma SendSteps(cfg: Config, s: Session, a: Action)
    requires Inv(cfg, s) && Enabled(cfg, s, a) && a in {DropText, Block, GiveUp}
    ensures Inv(cfg, Apply(cfg, s, a))
  {
    hide Take, Released, Run, Flatten, ScanAll, Binaries;
    BinariesNone();
    if a == DropText {
      SplitHead(s.reader.msgs);
      BinariesOne(s.reader.msgs[0]);
    }
    var flowing := Binaries(s.wire) + Binaries(s.queue);
    assert flowing + [] == flowing;
  }

  lemma OtherSteps(cfg: Config, s: Session, a: Action)
    requires Inv(cfg, s) && Enabled(cfg, s, a) && (a in {ReaderExit, OtherCancel, FinalClose} || a.OtherText?)
    ensures Inv(cfg, Apply(cfg, s, a))
  {
    hide Take, Released, Run, Flatten, ScanAll, Binaries;
    if a.OtherText? {
      TextAdds(s.queue, a.note);
    } else if a == FinalClose {
      TextAdds(s.wire, "closed");
    }
  }

  lemma TextAdds(msgs: seq<Msg>, note: string)
    ensures Binaries(msgs + [Text(note)]) == Binaries(msgs)
  {
    BinariesAppend(msgs, [Text(note)]);
    BinariesOne(Text(note));
  }

  lemma WriteOkStep(cfg: Config, s: Session)
    requires Inv(cfg, s) && Enabled(cfg, s, WriteOk)
    ensures Inv(cfg, Apply(cfg, s, WriteOk))
  {
    hide Take, Released, Run, Flatten, ScanAll, Binaries;
    SplitHead(s.queue);
    BinariesAppend(s.wire, [s.queue[0]]);
    var head, tail := Binaries([s.queue[0]]), Binaries(s.queue[1..]);
    assert (Binaries(s.wire) + head) + tail == Binaries(s.wire) + (head + tail);
    assert FlowInv(cfg, Apply(cfg, s, WriteOk));
  }

  lemma WriterSteps(cfg: Config, s: Session, a: Action)
    requires Inv(cfg, s) && Enabled(cfg, s, a)
    requires a in {BeginDrain, WriteFail, DrainEnd, WriterExit, ReadEnd}
    ensures Inv(cfg, Apply(cfg, s, a))
  {
    hide Take, Released, Run, Flatten, ScanAll, Binaries;
    BinariesNone();
  }

  lemma StepInv(cfg: Config, s: Session, a: Action)
    requires Inv(cfg, s) && Enabled(cfg, s, a)
    ensures Inv(cfg, Apply(cfg, s, a))
  {
    hide Inv;
    if a == ReadRecord {
      ReadRecordStep(cfg, s);
    } else if a == Push {
      PushStep(cfg, s);
    } else if a in {DropText, Block, GiveUp} {
      SendSteps(cfg, s, a);
    } else if a == WriteOk {
      WriteOkStep(cfg, s);
    } else if a in {BeginDrain, WriteFail, DrainEnd, WriterExit, ReadEnd} {
      WriterSteps(cfg, s, a);
    } else {
      OtherSteps(cfg, s, a);
    }
  }

  lemma {:induction false} RunInv(cfg: Config, states: seq<Session>, actions: seq<Action>, i: nat)
    requires cfg.capacity > 0 && IsRun(cfg, states, actions) && i < |states|
    ensures Inv(cfg, states[i])
  {
    if i == 0 {
      StartInv(cfg);
    } else {
      RunInv(cfg, states, actions, i - 1);
      StepInv(cfg, states[i - 1], actions[i - 1]);
    }
  }

  // ----- what the browser receives -----

  /** Later records only add to what is accepted, and nothing follows a stop. */
  lemma {:induction false} ScanGrows(cfg: Config, n: nat, m: nat)
    requires n <= m <= |cfg.records|
    ensures var a, b := ScanAll(cfg, cfg.records[..n]), ScanAll(cfg, cfg.records[..m]);
            a.intake.accepted <= b.intake.accepted && (a.stopped != None ==> a == b)
    decreases m
  {
    if n < m {
      ScanGrows(cfg, n, m - 1);
      assert cfg.records[..m][..m - 1] == cfg.records[..m - 1];
    }
  }

  lemma ReleasedGrows(cfg: Config, a: seq<seq<Byte>>, b: seq<seq<Byte>>)
    requires a <= b
    ensures Filtered(cfg.lim, Flatten(a)) <= Filtered(cfg.lim, Flatten(b))
  {
    assert b == a + b[|a|..];
    FlattenAppend(a, b[|a|..]);
    RunAppend(cfg.lim, FRESH, Flatten(a), Flatten(b[|a|..]));
  }

  /**
    * In every state of every run, the binary messages the socket has taken join
    * to a prefix of one fresh filter applied to the accepted frames.
    */
  lemma DeliveredIsFilteredPrefix(cfg: Config, states: seq<Session>, actions: seq<Action>, i: nat)
    requires cfg.capacity > 0 && IsRun(cfg, states, actions) && i < |states|
    ensures Binaries(states[i].wire) <= Filtered(cfg.lim, Flatten(AcceptedFrames(cfg)))
  {
    var s := states[i];
    RunInv(cfg, states, actions, i);
    ScanGrows(cfg, s.pos, |cfg.records|);
    assert cfg.records[..|cfg.records|] == cfg.records;
    ReleasedGrows(cfg, s.intake.accepted, AcceptedFrames(cfg));
  }

  /** When the controller side ends the session and no write fails, nothing is missing. */
  lemma DeliveredInFull(cfg: Config, states: seq<Session>, actions: seq<Action>, i: nat)
    requires cfg.capacity > 0 && IsRun(cfg, states, actions) && i < |states|
    requires var s := states[i];
             s.writer == Done(false) && s.cause.Some? && s.cause.value.ByReader? && s.cause.value.why != Lost
    ensures Binaries(states[i].wire) == Filtered(cfg.lim, Flatten(AcceptedFrames(cfg)))
  {
    var s := states[i];
    RunInv(cfg, states, actions, i);
    ScanGrows(cfg, s.pos, |cfg.records|);
    assert cfg.records[..|cfg.records|] == cfg.records;
    assert Binaries(s.wire) + [] + [] == Binaries(s.wire);
  }

  /** No schedule lets an answerback trigger through. */
  lemma BrowserGetsNoAnswerback(cfg: Config, states: seq<Session>, actions: seq<Action>, i: nat)
    requires cfg.capacity > 0 && IsRun(cfg, states, actions) && i < |states|
    ensures ENQ !in Binaries(states[i].wire)
  {
    DeliveredIsFilteredPrefix(cfg, states, actions, i);
    AnsiSafety.NoAnswerback(cfg.lim, Flatten(AcceptedFrames(cfg)));
  }

  predicate Increasing(k: Intake) {
    && |k.seqs| == |k.accepted|
    && (forall i, j :: 0 <= i < j < |k.seqs| ==> k.seqs[i] < k.seqs[j])
    && (k.seqs != [] ==> k.haveSeq && k.seqs[|k.seqs| - 1] <= k.lastSeq)
  }

  /** Accepted frames carry strictly increasing sequence numbers. */
  lemma {:induction false} AcceptedIncrease(cfg: Config, recs: seq<Record>)
    ensures Increasing(ScanAll(cfg, recs).intake)
    decreases |recs|
  {
    if recs != [] {
      hide Run;
      AcceptedIncrease(cfg, recs[..|recs| - 1]);
    }
  }
}
