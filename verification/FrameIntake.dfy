/** Which frames a session takes, told from the controller's records alone. */
module FrameIntake {
  import opened Prelude
  import opened Bytes
  import opened Machine
  import opened AnsiParser
  import opened TerminalBridge

  predicate Repeats(recs: seq<Record>, i: nat)
    requires i < |recs|
  {
    recs[i].Frame? && exists j :: 0 <= j < i && recs[j].Frame? && recs[i].seqNo <= recs[j].seqNo
  }

  predicate Oversized(cfg: Config, rec: Record) { rec.Frame? && rec.raw.Some? && |rec.raw.value| > cfg.maxFrame }

  /** Record `i` ends the intake: the stream closed, a number not above an earlier one, or too many bytes. */
  predicate Halts(cfg: Config, i: nat)
    requires i < |cfg.records|
  {
    cfg.records[i].Closed? || Repeats(cfg.records, i) || Oversized(cfg, cfg.records[i])
  }

  /** The position of the first record that ends the intake, or the end of the stream. */
  ghost predicate IsHalt(cfg: Config, n: nat) {
    && n <= |cfg.records| && (forall i :: 0 <= i < n ==> !Halts(cfg, i))
    && (n < |cfg.records| ==> Halts(cfg, n))
  }

  /** The bytes of every frame that could be decoded, in order. */
  function Decoded(recs: seq<Record>): seq<seq<Byte>> {
    if recs == [] then []
    else (if recs[0].Frame? && recs[0].raw.Some? then [recs[0].raw.value] else []) + Decoded(recs[1..])
  }

  lemma {:induction false} DecodedSnoc(recs: seq<Record>, rec: Record)
    ensures Decoded(recs + [rec])
         == Decoded(recs) + if rec.Frame? && rec.raw.Some? then [rec.raw.value] else []
  {
    if recs == [] {
      assert [rec][1..] == [];
    } else {
      assert (recs + [rec])[1..] == recs[1..] + [rec];
      DecodedSnoc(recs[1..], rec);
    }
  }

  /** What the reader has seen of frame numbers is what the records say. */
  ghost predicate Tracks(recs: seq<Record>, k: Intake) {
    && (k.haveSeq <==> exists j :: 0 <= j < |recs| && recs[j].Frame?)
    && (k.haveSeq ==> exists j :: 0 <= j < |recs| && recs[j].Frame? && recs[j].seqNo == k.lastSeq)
    && (forall j :: 0 <= j < |recs| && recs[j].Frame? ==> recs[j].seqNo <= k.lastSeq)
  }

  /** Up to a record that halts, the scan goes on and takes every decoded frame. */
  lemma {:induction false} ScanTakes(cfg: Config, n: nat)
    requires n <= |cfg.records| && forall i :: 0 <= i < n ==> !Halts(cfg, i)
    ensures var sc := ScanAll(cfg, cfg.records[..n]);
            && sc.stopped == None && sc.intake.accepted == Decoded(cfg.records[..n])
            && Tracks(cfg.records[..n], sc.intake)
    decreases n
  {
    if n > 0 {
      ScanTakes(cfg, n - 1);
      var recs, rec := cfg.records[..n - 1], cfg.records[n - 1];
      assert cfg.records[..n] == recs + [rec];
      DecodedSnoc(recs, rec);
      ScanNext(cfg, recs, rec);
      assert !Halts(cfg, n - 1);
      HaltsSeen(cfg, n - 1);
      hide ScanAll, Run;
      TakeTracks(cfg, recs, ScanAll(cfg, recs).intake, rec);
    }
  }

  lemma TakeTracks(cfg: Config, recs: seq<Record>, k: Intake, rec: Record)
    requires Tracks(recs, k) && !rec.Closed? && !Oversized(cfg, rec)
    requires rec.Frame? ==> !(exists j :: 0 <= j < |recs| && recs[j].Frame? && rec.seqNo <= recs[j].seqNo)
    ensures var r := Take(cfg, k, rec);
            && r.1.Go? && Tracks(recs + [rec], r.0)
            && r.0.accepted == k.accepted + if rec.Frame? && rec.raw.Some? then [rec.raw.value] else []
  {
    hide Run;
    var recs' := recs + [rec];
    assert forall j :: 0 <= j < |recs| ==> recs'[j] == recs[j];
    assert recs'[|recs|] == rec;
    assert k.accepted + [] == k.accepted;
    if rec.Frame? {
      assert recs'[|recs|].Frame?;
    }
  }

  lemma HaltsSeen(cfg: Config, i: nat)
    requires i < |cfg.records|
    ensures var recs, rec := cfg.records[..i], cfg.records[i];
            Repeats(cfg.records, i) <==>
              rec.Frame? && exists j :: 0 <= j < |recs| && recs[j].Frame? && rec.seqNo <= recs[j].seqNo
  {
    var recs := cfg.records[..i];
    assert forall j :: 0 <= j < i ==> recs[j] == cfg.records[j];
    if Repeats(cfg.records, i) {
      var j :| 0 <= j < i && cfg.records[j].Frame? && cfg.records[i].seqNo <= cfg.records[j].seqNo;
      assert recs[j].Frame? && cfg.records[i].seqNo <= recs[j].seqNo;
    }
  }

  /** The reason a scan stops, by the record it stops at; a number out of order outweighs a size. */
  function Reason(cfg: Config, n: nat): Option<Why>
    requires n <= |cfg.records|
  {
    if n == |cfg.records| then None
    else if cfg.records[n].Closed? then Some(PeerClosed)
    else if Repeats(cfg.records, n) then Some(BadSequence)
    else Some(TooBig)
  }

  lemma TakeHalts(cfg: Config, recs: seq<Record>, k: Intake, rec: Record)
    requires Tracks(recs, k)
    ensures var late := rec.Frame? && exists j :: 0 <= j < |recs| && recs[j].Frame? && rec.seqNo <= recs[j].seqNo;
            var r := Take(cfg, k, rec);
            && (rec.Closed? ==> r.1 == Stop(PeerClosed)) && (late ==> r.1 == Stop(BadSequence))
            && (!late && Oversized(cfg, rec) ==> r.1 == Stop(TooBig))
            && (r.1.Stop? ==> r.0.accepted == k.accepted)
  {
    hide Run;
  }

  /**
    * The session accepts exactly the decoded bytes of the frames before the first
    * record that halts it, in order, and stops there for that record's reason.
    */
  lemma AcceptedExactly(cfg: Config, n: nat)
    requires IsHalt(cfg, n)
    ensures AcceptedFrames(cfg) == Decoded(cfg.records[..n])
    ensures ScanAll(cfg, cfg.records).stopped == Reason(cfg, n)
  {
    ScanTakes(cfg, n);
    assert cfg.records[..|cfg.records|] == cfg.records;
    if n < |cfg.records| {
      var recs, rec := cfg.records[..n], cfg.records[n];
      assert cfg.records[..n + 1] == recs + [rec];
      ScanNext(cfg, recs, rec);
      HaltsSeen(cfg, n);
      hide Run;
      TakeHalts(cfg, recs, ScanAll(cfg, recs).intake, rec);
      ScanGrows(cfg, n + 1, |cfg.records|);
    }
  }

  /** Every stream of records has such a position. */
  lemma {:induction false} HaltExists(cfg: Config, from: nat) returns (n: nat)
    requires from <= |cfg.records| && forall i :: 0 <= i < from ==> !Halts(cfg, i)
    ensures IsHalt(cfg, n)
    decreases |cfg.records| - from
  {
    if from == |cfg.records| || Halts(cfg, from) {
      n := from;
    } else {
      n := HaltExists(cfg, from + 1);
    }
  }

  /**
    * End to end, from the records: in every interleaving the browser has received a
    * prefix of the filtered bytes of those frames, and all of them once the stream
    * itself has ended the session and no write failed.
    */
  lemma BrowserReceives(cfg: Config, states: seq<Session>, actions: seq<Action>, i: nat, n: nat)
    requires cfg.capacity > 0 && IsRun(cfg, states, actions) && i < |states| && IsHalt(cfg, n)
    ensures var s, all := states[i], Filtered(cfg.lim, Flatten(Decoded(cfg.records[..n])));
            && Binaries(s.wire) <= all
            && (s.writer == Done(false) && s.cause.Some? && s.cause.value.ByReader? && s.cause.value.why != Lost ==>
                  Binaries(s.wire) == all)
  {
    hide IsRun, Filtered, Binaries, AcceptedFrames, Decoded, IsHalt;
    AcceptedExactly(cfg, n);
    DeliveredIsFilteredPrefix(cfg, states, actions, i);
    if states[i].writer == Done(false) && states[i].cause.Some? && states[i].cause.value.ByReader?
       && states[i].cause.value.why != Lost {
      DeliveredInFull(cfg, states, actions, i);
    }
  }

  /**
    * One accepted frame, as the browser will see it: its resize note first, if it
    * announces one, and then whatever its bytes add to the filtered stream.
    */
  lemma FrameSends(cfg: Config, states: seq<Session>, actions: seq<Action>, i: nat) returns (added: seq<Byte>)
    requires cfg.capacity > 0 && IsRun(cfg, states, actions) && i < |actions| && actions[i] == ReadRecord
    requires var n := states[i].pos;
             && n < |cfg.records| && (forall k :: 0 <= k <= n ==> !Halts(cfg, k))
             && cfg.records[n].Frame? && cfg.records[n].raw.Some?
    ensures var n := states[i].pos;
            && Filtered(cfg.lim, Flatten(Decoded(cfg.records[..n + 1])))
               == Filtered(cfg.lim, Flatten(Decoded(cfg.records[..n]))) + added
            && Pending(states[i + 1].reader)
               == (if cfg.records[n].announces then [Text("resized")] else [])
                  + (if added == [] then [] else [Binary(added)])
  {
    hide Run, Take, Filtered, Decoded, ScanAll, Tracks, Halts, Inv;
    var s, n := states[i], states[i].pos;
    var rec := cfg.records[n];
    assert Enabled(cfg, s, ReadRecord) && states[i + 1] == Apply(cfg, s, ReadRecord);
    RunInv(cfg, states, actions, i);
    hide IsRun;
    IntakeIs(cfg, s);
    added := Run(cfg.lim, s.intake.filter, rec.raw.value).1;
    FrameVerdict(cfg, n, s.intake);
    DecodedSnoc(cfg.records[..n], rec);
    assert cfg.records[..n + 1] == cfg.records[..n] + [rec];
    FilteredSnoc(cfg.lim, s.intake.accepted, rec.raw.value);
  }

  /** A reading session has taken the decoded frames so far, and its filter has run over them. */
  lemma IntakeIs(cfg: Config, s: Session)
    requires Inv(cfg, s) && s.reader == Reading && forall k :: 0 <= k < s.pos ==> k < |cfg.records| && !Halts(cfg, k)
    ensures s.pos <= |cfg.records|
    ensures s.intake.accepted == Decoded(cfg.records[..s.pos]) && Tracks(cfg.records[..s.pos], s.intake)
    ensures s.intake.filter == Run(cfg.lim, FRESH, Flatten(s.intake.accepted)).0
  {
    hide FlowInv, OrderInv, Run, Halts, Tracks, Decoded;
    ScanTakes(cfg, s.pos);
  }

  lemma FrameVerdict(cfg: Config, n: nat, k: Intake)
    requires n < |cfg.records| && Tracks(cfg.records[..n], k) && !Halts(cfg, n)
    requires cfg.records[n].Frame? && cfg.records[n].raw.Some?
    ensures var rec := cfg.records[n];
            var out := Run(cfg.lim, k.filter, rec.raw.value).1;
            Take(cfg, k, rec).1
            == Go((if rec.announces then [Text("resized")] else []) + (if out == [] then [] else [Binary(out)]))
  {
    hide Run;
    HaltsSeen(cfg, n);
  }

  lemma FilteredSnoc(lim: Limits, frames: seq<seq<Byte>>, raw: seq<Byte>)
    ensures Filtered(lim, Flatten(frames + [raw]))
         == Filtered(lim, Flatten(frames)) + Run(lim, Run(lim, FRESH, Flatten(frames)).0, raw).1
  {
    FlattenAppend(frames, [raw]);
    assert Flatten([raw]) == raw by { assert [raw][1..] == [] && raw + [] == raw; }
    RunAppend(lim, FRESH, Flatten(frames), raw);
  }

  // ----- nothing is stuck -----

  function Last(states: seq<Session>): Session
    requires states != []
  {
    states[|states| - 1]
  }

  lemma Extended(cfg: Config, states: seq<Session>, actions: seq<Action>, a: Action) returns (longer: seq<Session>)
    requires states != [] && IsRun(cfg, states, actions) && Enabled(cfg, Last(states), a)
    ensures states <= longer && longer != []
    ensures IsRun(cfg, longer, actions + [a]) && Last(longer) == Apply(cfg, Last(states), a)
  {
    hide Enabled, Apply;
    longer := states + [Apply(cfg, Last(states), a)];
    var more := actions + [a];
    forall i | 0 <= i < |more|
      ensures Enabled(cfg, longer[i], more[i]) && longer[i + 1] == Apply(cfg, longer[i], more[i])
    {
      assert i < |actions| ==>
          Enabled(cfg, states[i], actions[i]) && states[i + 1] == Apply(cfg, states[i], actions[i]);
    }
  }

  /** Nobody has cancelled, the writer runs, and the reader has lost nothing. */
  predicate Healthy(s: Session) {
    && s.cause == None && s.writer == Running && s.reader != Ended(Lost)
    && (s.reader.Sending? || s.reader.Waiting? ==> s.reader.msgs != [])
  }

  /** A healthy session can read its stream to the end. */
  lemma {:induction false} ReadsOn(cfg: Config, states: seq<Session>, actions: seq<Action>)
    returns (longer: seq<Session>, more: seq<Action>)
    requires cfg.capacity > 0 && states != [] && IsRun(cfg, states, actions)
    requires Healthy(Last(states)) && Last(states).pos <= |cfg.records|
    ensures states <= longer && longer != [] && IsRun(cfg, longer, more)
    ensures Healthy(Last(longer)) && Last(longer).reader.Ended?
    decreases |cfg.records| - Last(states).pos, if Last(states).reader.Ended? then 0 else 1,
              |Pending(Last(states).reader)|, |Last(states).queue|
  {
    hide IsRun, Run;
    var s := Last(states);
    if s.reader.Ended? {
      longer, more := states, actions;
    } else {
      var a := if Pending(s.reader) != [] then if |s.queue| < cfg.capacity then Push else WriteOk
               else if s.pos < |cfg.records| then ReadRecord
               else ReadEnd;
      var next := Extended(cfg, states, actions, a);
      if a == ReadRecord {
        TakeStops(cfg, s.intake, cfg.records[s.pos]);
      }
      hide Take;
      longer, more := ReadsOn(cfg, next, actions + [a]);
    }
  }

  /** Once cancelled by its reader, a session can drain its queue to the socket. */
  lemma {:induction false} Drains(cfg: Config, states: seq<Session>, actions: seq<Action>)
    returns (longer: seq<Session>, more: seq<Action>)
    requires states != [] && IsRun(cfg, states, actions)
    requires var s := Last(states); s.writer == Draining && s.cause.Some?
    ensures states <= longer && longer != [] && IsRun(cfg, longer, more)
    ensures Last(longer).writer == Done(false) && Last(longer).cause == Last(states).cause
    decreases |Last(states).queue|
  {
    hide IsRun, Take;
    if Last(states).queue == [] {
      var left := Extended(cfg, states, actions, DrainEnd);
      longer := Extended(cfg, left, actions + [DrainEnd], WriterExit);
      more := actions + [DrainEnd] + [WriterExit];
    } else {
      var next := Extended(cfg, states, actions, WriteOk);
      longer, more := Drains(cfg, next, actions + [WriteOk]);
    }
  }

  /** From every healthy moment of every run, the whole stream can still reach the browser. */
  lemma EverythingCanArrive(cfg: Config, states: seq<Session>, actions: seq<Action>, n: nat)
    returns (longer: seq<Session>, more: seq<Action>)
    requires cfg.capacity > 0 && states != [] && IsRun(cfg, states, actions) && Healthy(Last(states)) && IsHalt(cfg, n)
    ensures states <= longer && longer != [] && IsRun(cfg, longer, more)
    ensures Binaries(Last(longer).wire) == Filtered(cfg.lim, Flatten(Decoded(cfg.records[..n])))
  {
    hide IsRun, Filtered, Binaries, Decoded, IsHalt, FlowInv, OrderInv, Run, Take, ScanAll;
    RunInv(cfg, states, actions, |states| - 1);
    longer, more := ReadsOn(cfg, states, actions);
    longer := Extended(cfg, longer, more, ReaderExit);
    more := more + [ReaderExit];
    longer := Extended(cfg, longer, more, BeginDrain);
    more := more + [BeginDrain];
    longer, more := Drains(cfg, longer, more);
    BrowserReceives(cfg, longer, more, |longer| - 1, n);
  }
}
