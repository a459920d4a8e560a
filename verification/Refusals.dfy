/** What is refused, exactly: frames, deltas, messages out of turn, and lines that should not be believed. */
module Refusals {
  import opened Prelude
  import opened FileSystem
  import opened Entries
  import opened Delta
  import opened Receiver
  import opened Daemon
  import Frames
  import Replay
  import Wire

  // ---- Bytes ----

  /** The number in the first four bytes, most significant first. */
  function Announced(data: Bytes): int
    requires 4 <= |data|
  {
    var n0: int, n1: int, n2: int, n3: int := data[0], data[1], data[2], data[3];
    ((n0 * 256 + n1) * 256 + n2) * 256 + n3
  }

  /** A frame is read exactly when its header and all the bytes it announces, at most 64 MiB, are there; else the error says which is missing. */
  lemma FrameIsReadIff(data: Bytes)
    ensures var r := Frames.Parse(data).result;
      && (r.Ok? <==> 5 <= |data| && Announced(data) <= 67108864 && 5 + Announced(data) <= |data|)
      && (r == Err(Frames.EndOfStream) <==> data == [])
      && (r == Err(Frames.TooLong) <==> 5 <= |data| && Announced(data) > 67108864)
      && (r.Ok? ==> r.value.kind == data[4] && r.value.payload == data[5..5 + Announced(data)] && Frames.Parse(data).rest == data[5 + Announced(data)..])
  {
    if 5 <= |data| {
      var head := data[..4];
      assert head[0] == data[0] && head[1] == data[1] && head[2] == data[2] && head[3] == data[3];
    }
  }

  // ---- Deltas ----

  predicate Applicable(op: Op, blockSize: int, size: nat) {
    op.Copy? ==> 0 < blockSize && 0 <= op.index && op.index * blockSize < size
  }

  /** A delta applies exactly when each block it copies begins inside the old data, under a positive block size if any is copied. */
  lemma {:induction false} AppliesIff(basis: Bytes, ops: seq<Op>, blockSize: int)
    ensures Apply(basis, ops, blockSize).Ok? <==> forall i :: 0 <= i < |ops| ==> Applicable(ops[i], blockSize, |basis|)
  {
    if ops != [] {
      AppliesIff(basis, ops[1..], blockSize);
      assert ops == [ops[0]] + ops[1..];
      hide Applicable;
      PieceIff(basis, ops[0], blockSize);
      if forall i :: 0 <= i < |ops| ==> Applicable(ops[i], blockSize, |basis|) {
        forall i | 0 <= i < |ops[1..]| ensures Applicable(ops[1..][i], blockSize, |basis|) {
          assert Applicable(ops[i + 1], blockSize, |basis|);
        }
      }
    }
  }

  lemma PieceIff(basis: Bytes, op: Op, blockSize: int)
    ensures Piece(basis, op, blockSize).Ok? <==> Applicable(op, blockSize, |basis|)
  {
  }

  predicate KnownKinds(wire: seq<Wire.WireOp>) {
    forall i :: 0 <= i < |wire| ==> wire[i].kind == 0 || wire[i].kind == 1
  }

  /** The lengths of the literals are natural and, from pos on, fit into the stream. */
  predicate Fits(wire: seq<Wire.WireOp>, pos: int, size: nat)
    decreases wire
  {
    wire == [] ||
    (if wire[0].kind == 1 then 0 <= wire[0].length && pos + wire[0].length <= size && Fits(wire[1..], pos + wire[0].length, size)
     else Fits(wire[1..], pos, size))
  }

  lemma {:induction false} RebuildsIff(wire: seq<Wire.WireOp>, compressed: bool, stream: Bytes, pos: nat)
    ensures Wire.Rebuild(wire, compressed, stream, pos).Ok? <==> KnownKinds(wire) && (compressed ==> Fits(wire, pos, |stream|))
  {
    if wire != [] {
      var w := wire[0];
      assert KnownKinds(wire) <==> (w.kind == 0 || w.kind == 1) && KnownKinds(wire[1..]) by {
        assert wire == [w] + wire[1..];
        if KnownKinds(wire) {
          forall i | 0 <= i < |wire[1..]| ensures wire[1..][i].kind == 0 || wire[1..][i].kind == 1 {
            assert wire[i + 1] == wire[1..][i];
          }
        }
      }
      if w.kind == 1 && compressed && 0 <= w.length {
        RebuildsIff(wire[1..], compressed, stream, pos + w.length);
      } else {
        RebuildsIff(wire[1..], compressed, stream, pos);
      }
    }
  }

  /** A wire delta decodes exactly when every record is a copy or a literal and, if it is compressed, its stream can be had and is long enough. */
  lemma DecodesIff(codec: Wire.Codec, delta: Wire.WireDelta)
    ensures Wire.Decode(codec, delta).Ok? <==>
      && KnownKinds(delta.ops)
      && (delta.compressed ==> codec.decompress(delta.literal).Some? && Fits(delta.ops, 0, |codec.decompress(delta.literal).value|))
  {
    if delta.compressed {
      if codec.decompress(delta.literal).Some? {
        RebuildsIff(delta.ops, true, codec.decompress(delta.literal).value, 0);
      }
    } else {
      RebuildsIff(delta.ops, false, [], 0);
    }
    hide Fits, KnownKinds, Wire.Rebuild;
  }

  // ---- Messages in turn ----

  /** Each side takes the other's message only for the file it is at: a signature is answered with that file's delta, and no other delta is read. */
  lemma OnlyInTurn(cfg: Config, src: map<Path, Bytes>, e: FileEntry, msg: Message)
    ensures Reply(cfg, src, e, msg).Ok? ==>
      msg.SignatureMsg? && msg.path == e.path && Reply(cfg, src, e, msg).value.DeltaMsg? && Reply(cfg, src, e, msg).value.path == e.path
    ensures ReadDelta(cfg, e, msg).Ok? <==> msg.DeltaMsg? && msg.path == e.path && Wire.Decode(cfg.codec, msg.delta).Ok?
    ensures msg.ErrorMsg? ==> Reply(cfg, src, e, msg) == Err(PeerError) && ReadDelta(cfg, e, msg) == Err(PeerError)
  {
    hide ReplyOps, Wire.Encode, Wire.Decode;
  }

  /** The first thing a receiver takes is a list; without one nothing is received. */
  lemma ListComesFirst(cfg: Config, inbox: seq<Message>, fs: FS)
    ensures Replay.ReceiveAll(cfg, inbox, fs).Ok? ==> inbox != [] && inbox[0].FileListMsg?
    ensures inbox == [] ==> Replay.ReceiveAll(cfg, inbox, fs) == Err(Closed)
    ensures inbox != [] && inbox[0].ErrorMsg? ==> Replay.ReceiveAll(cfg, inbox, fs) == Err(PeerError)
  {
    hide Replay.ReplayAfter;
  }

  // ---- Lines ----

  /** A client goes on only at the lines it waits for. */
  lemma ClientBelieves(ss: Session, line: string)
    ensures ClientOnLine(ss, AwaitGreeting, line) != GAVE_UP ==> ParseGreeting(line).Some?
    ensures ClientOnLine(ss, AwaitAuth, line) == SayDirection ==> line == "@RSYNCD: OK"
    ensures ClientOnLine(ss, AwaitAuth, line).Respond? ==> "@RSYNCD: AUTHREQD " <= line && ss.password.Some?
    ensures ClientOnLine(ss, AwaitAck, line) != GAVE_UP ==> line == "@RSYNCD: OK"
    ensures ClientOnLine(ss, AwaitDone, line) != GAVE_UP ==> line == "@GRSYNC: DONE"
  {
    hide ParseGreeting;
  }

  lemma OnlyDoneStops(ss: Session, s: ServerPc, event: Event)
    ensures ServerReacts(ss, s, event) == ServerStopped(true, None) && s != ServerStopped(true, None) ==>
      (s.WantDone? && event == Read(Text("@GRSYNC: DONE"))) || (s == Listing([]) && event == WentOn)
  {
    hide CheckAuth, Fields, OutgoingGot, OutgoingNext, IncomingGot, IncomingNext, OutgoingKind, IncomingKind, ParseGreeting, ForServer;
  }

  /** A server that returns nil without having stored anything was told that the client is done, or has listed its modules. */
  lemma {:induction false} DoneWasRead(ss: Session, events: seq<Event>) returns (t: nat)
    requires ServerAfter(ss, events) == ServerStopped(true, None)
    ensures t < |events|
    ensures (ServerAfter(ss, events[..t]).WantDone? && events[t] == Read(Text("@GRSYNC: DONE"))) || ServerAfter(ss, events[..t]) == Listing([])
  {
    hide ServerReacts;
    var before := events[..|events| - 1];
    OnlyDoneStops(ss, ServerAfter(ss, before), events[|events| - 1]);
    t := |events| - 1;
    if ServerAfter(ss, before) == ServerAfter(ss, events) {
      t := DoneWasRead(ss, before);
      assert before[..t] == events[..t];
    }
  }
}
