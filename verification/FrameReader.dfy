/** The reader's own state: sequence tracking and a filter it alone updates. */
module FrameReader {
  import opened Prelude
  import opened Bytes
  import opened AnsiParser
  import opened TerminalBridge
  import AnsiFilter

  class Reader {
    var haveSeq: bool
    var lastSeq: nat
    const filter: AnsiFilter.Filter
    ghost var accepted: seq<seq<Byte>>
    ghost var seqs: seq<nat>

    ghost function Kept(): Intake
      reads this, filter
    {
      Intake(haveSeq, lastSeq, filter.Now(), accepted, seqs)
    }

    /** A fresh filter per session, so no pending sequence crosses sessions. */
    constructor ()
      ensures Kept() == NO_INTAKE && fresh(filter)
      ensures filter.Bounds() == Limits(4096, 0x10_0000)
    {
      haveSeq, lastSeq, accepted, seqs := false, 0, [], [];
      filter := new AnsiFilter.Filter();
    }

    /** Validates and filters one record; the verdict lists what to queue, in order. */
    method HandleRecord(cfg: Config, rec: Record) returns (v: Verdict)
      requires filter.Bounds() == cfg.lim == AnsiFilter.Effective(cfg.lim)
      modifies this, filter
      ensures filter.Bounds() == cfg.lim
      ensures (Kept(), v) == Take(cfg, old(Kept()), rec)
    {
      match rec
      case Ignored => return Go([]);
      case Closed => return Stop(PeerClosed);
      case Frame(seqNo, raw, announces) =>
        if haveSeq && seqNo <= lastSeq {
          return Stop(BadSequence);
        }
        haveSeq, lastSeq := true, seqNo;
        if raw == None {
          return Go([]);
        }
        if |raw.value| > cfg.maxFrame {
          return Stop(TooBig);
        }
        var filtered := filter.Sanitize(raw.value);
        accepted, seqs := accepted + [raw.value], seqs + [seqNo];
        var sends := [];
        if announces {
          sends := [Text("resized")];
        }
        if |filtered| > 0 {
          sends := sends + [Binary(filtered)];
        }
        assert sends == (if announces then [Text("resized")] else [])
                        + (if filtered == [] then [] else [Binary(filtered)]);
        return Go(sends);
    }
  }
}
