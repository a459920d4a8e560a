/**
 * A daemon session as bytes: what each side writes, laid end to end, is cut
 * by the other side's reads exactly where it was written.
 */
module SessionBytes {
  import opened Prelude
  import opened Receiver
  import opened Daemon
  import opened Sessions
  import opened Lines
  import Frames

  // ---- What has been written, read and asked for ----

  /** One direction: the items written, the items read, and for each read whether a line was asked for. */
  datatype Half = Half(wrote: seq<Item>, got: seq<Item>, lines: seq<bool>)

  datatype Log = Log(toServer: Half, toClient: Half)

  const NOTHING := Half([], [], [])

  function Wrote(h: Half, item: Item): Half {
    h.(wrote := h.wrote + [item])
  }

  function Got(h: Half, item: Item, kind: Daemon.Kind): Half {
    h.(got := h.got + [item], lines := h.lines + [kind == ReadsLine])
  }

  function ClientLogs(ss: Session, n: Net, log: Log): Log {
    match ClientKind(ss, n.c)
    case Writes(item) =>
      if !n.s.ServerStopped? && |n.toServer| < ss.capacity then log.(toServer := Wrote(log.toServer, item)) else log
    case Works => log
    case Rests => log
    case kind => if n.toClient != [] then log.(toClient := Got(log.toClient, n.toClient[0], kind)) else log
  }

  function ServerLogs(ss: Session, n: Net, log: Log): Log {
    match ServerKind(ss, n.s)
    case Writes(item) =>
      if !n.c.ClientStopped? && |n.toClient| < ss.capacity then log.(toClient := Wrote(log.toClient, item)) else log
    case Works => log
    case Rests => log
    case kind => if n.toServer != [] then log.(toServer := Got(log.toServer, n.toServer[0], kind)) else log
  }

  /** The log of a session so far. */
  function Logged(ss: Session, turns: seq<Turn>): Log {
    if turns == [] then Log(NOTHING, NOTHING)
    else
      var before := turns[..|turns| - 1];
      match turns[|turns| - 1]
      case RunClient => ClientLogs(ss, Converse(ss, before), Logged(ss, before))
      case RunServer => ServerLogs(ss, Converse(ss, before), Logged(ss, before))
      case _ => Logged(ss, before)
  }

  // ---- Nothing lost, nothing out of order, nothing asked for wrongly ----

  /** Written is read followed by buffered, and every read asked for what it got. */
  predicate Faithful(h: Half, buffered: seq<Item>) {
    && h.wrote == h.got + buffered
    && |h.lines| == |h.got|
    && forall i :: 0 <= i < |h.got| ==> h.lines[i] == h.got[i].Text?
  }

  lemma WroteIsFaithful(h: Half, buffered: seq<Item>, item: Item)
    requires Faithful(h, buffered)
    ensures Faithful(Wrote(h, item), buffered + [item])
  {
  }

  lemma GotIsFaithful(h: Half, buffered: seq<Item>, kind: Daemon.Kind)
    requires Faithful(h, buffered) && buffered != [] && FitsKind(buffered[0], kind)
    ensures Faithful(Got(h, buffered[0], kind), buffered[1..])
  {
    assert h.got + buffered == h.got + [buffered[0]] + buffered[1..];
  }

  lemma ClientIsFaithful(ss: Session, n: Net, log: Log)
    requires Faithful(log.toServer, n.toServer) && Faithful(log.toClient, n.toClient)
    requires n.toClient != [] && ClientKind(ss, n.c) in {ReadsLine, ReadsFrame} ==> FitsKind(n.toClient[0], ClientKind(ss, n.c))
    ensures var next := Advance(ss, n, RunClient);
      Faithful(ClientLogs(ss, n, log).toServer, next.toServer) && Faithful(ClientLogs(ss, n, log).toClient, next.toClient)
  {
    hide Faithful, Wrote, Got, ClientKind, ClientNext, ClientGot, FitsKind;
    match ClientKind(ss, n.c) {
      case Writes(item) => WroteIsFaithful(log.toServer, n.toServer, item);
      case Works =>
      case Rests =>
      case kind => if n.toClient != [] { GotIsFaithful(log.toClient, n.toClient, kind); }
    }
  }

  lemma ServerIsFaithful(ss: Session, n: Net, log: Log)
    requires Faithful(log.toServer, n.toServer) && Faithful(log.toClient, n.toClient)
    requires n.toServer != [] && ServerKind(ss, n.s) in {ReadsLine, ReadsFrame} ==> FitsKind(n.toServer[0], ServerKind(ss, n.s))
    ensures var next := Advance(ss, n, RunServer);
      Faithful(ServerLogs(ss, n, log).toServer, next.toServer) && Faithful(ServerLogs(ss, n, log).toClient, next.toClient)
  {
    hide Faithful, Wrote, Got, ServerKind, ServerNext, ServerGot, FitsKind;
    match ServerKind(ss, n.s) {
      case Writes(item) => WroteIsFaithful(log.toClient, n.toClient, item);
      case Works =>
      case Rests =>
      case kind => if n.toServer != [] { GotIsFaithful(log.toServer, n.toServer, kind); }
    }
  }

  /** In every session, each direction delivers what was written, in order, to reads that ask for it. */
  lemma {:induction false} EveryLogIsFaithful(ss: Session, turns: seq<Turn>)
    requires Dials(ss)
    ensures Faithful(Logged(ss, turns).toServer, Converse(ss, turns).toServer)
    ensures Faithful(Logged(ss, turns).toClient, Converse(ss, turns).toClient)
  {
    hide Dials, Faithful, ClientLogs, ServerLogs, Advance, FitsKind, ClientKind, ServerKind;
    if turns == [] {
      NothingIsFaithful();
    } else {
      var before := turns[..|turns| - 1];
      var n := Converse(ss, before);
      EveryLogIsFaithful(ss, before);
      BoundariesAreExact(ss, before);
      match turns[|turns| - 1] {
        case RunClient => ClientIsFaithful(ss, n, Logged(ss, before));
        case RunServer => ServerIsFaithful(ss, n, Logged(ss, before));
        case _ => BreaksKeepBuffers(ss, n, turns[|turns| - 1]);
      }
    }
  }

  lemma NothingIsFaithful()
    ensures Faithful(NOTHING, Dialled().toServer) && Faithful(NOTHING, Dialled().toClient)
  {
  }

  lemma BreaksKeepBuffers(ss: Session, n: Net, turn: Turn)
    requires turn == BreakClient || turn == BreakServer
    ensures Advance(ss, n, turn).toServer == n.toServer && Advance(ss, n, turn).toClient == n.toClient
  {
  }

  // ---- Bytes ----

  /** How lines and messages are put into bytes: any encoding of text, and gob in frames. */
  datatype Encoding = Encoding(text: string -> Bytes, frame: Message -> Frames.Frame)

  function PieceOf(enc: Encoding, item: Item): Piece {
    match item
    case Text(line) => TextPiece(enc.text(line))
    case Packet(msg) => FramePiece(enc.frame(msg))
  }

  function Pieces(enc: Encoding, items: seq<Item>): (ps: seq<Piece>)
    ensures |ps| == |items|
    ensures forall i :: 0 <= i < |items| ==> ps[i] == PieceOf(enc, items[i])
  {
    if items == [] then [] else [PieceOf(enc, items[0])] + Pieces(enc, items[1..])
  }

  /** Every line is legible and every frame accepted. */
  predicate AllSendable(enc: Encoding, items: seq<Item>) {
    forall i :: 0 <= i < |items| ==> Sendable(PieceOf(enc, items[i]))
  }

  lemma PiecesSendable(enc: Encoding, items: seq<Item>)
    requires AllSendable(enc, items)
    ensures forall p :: p in Pieces(enc, items) ==> Sendable(p)
  {
    hide Sendable, PieceOf;
  }

  lemma {:induction false} WireJoins(ps: seq<Piece>, qs: seq<Piece>)
    requires (forall p :: p in ps ==> Sendable(p)) && (forall p :: p in qs ==> Sendable(p))
    ensures AllOnWire(ps + qs) == AllOnWire(ps) + AllOnWire(qs)
  {
    hide Sendable, OnWire;
    if ps == [] {
      assert ps + qs == qs;
    } else {
      assert (ps + qs)[1..] == ps[1..] + qs;
      WireJoins(ps[1..], qs);
    }
  }

  lemma ShapesAre(ps: seq<Piece>, lines: seq<bool>)
    requires |lines| == |ps| && forall i :: 0 <= i < |ps| ==> lines[i] == ps[i].TextPiece?
    ensures Shapes(ps) == lines
  {
  }

  /** The bytes of one direction, cut by its reads. */
  predicate CutExactly(enc: Encoding, h: Half, buffered: seq<Item>)
    requires AllSendable(enc, h.wrote) && AllSendable(enc, buffered)
  {
    PiecesSendable(enc, h.wrote);
    PiecesSendable(enc, buffered);
    ReadPieces(h.lines, AllOnWire(Pieces(enc, h.wrote))) == Some((Pieces(enc, h.got), AllOnWire(Pieces(enc, buffered))))
  }

  lemma HalfIsCutExactly(enc: Encoding, h: Half, buffered: seq<Item>)
    requires Faithful(h, buffered) && AllSendable(enc, h.wrote)
    ensures AllSendable(enc, buffered) && CutExactly(enc, h, buffered)
  {
    hide Sendable, ReadPieces, AllOnWire;
    forall i | 0 <= i < |h.got| ensures Sendable(PieceOf(enc, h.got[i])) {
      assert h.wrote[i] == h.got[i];
    }
    forall i | 0 <= i < |buffered| ensures Sendable(PieceOf(enc, buffered[i])) {
      assert h.wrote[|h.got| + i] == buffered[i];
    }
    PiecesSendable(enc, h.got);
    PiecesSendable(enc, buffered);
    PiecesSendable(enc, h.wrote);
    var read, left := Pieces(enc, h.got), Pieces(enc, buffered);
    assert Pieces(enc, h.wrote) == read + left;
    WireJoins(read, left);
    ShapesAre(read, h.lines);
    MixedStreamRoundTrip(read, AllOnWire(left));
  }

  /**
   * In every session, whatever the interleaving, the buffering and the
   * failures: the bytes of everything one side has written, read by the kinds
   * the other side has asked for, give exactly the lines and frames that side
   * has read and leave exactly the bytes of what is still buffered.
   */
  lemma BytesAreCutExactly(ss: Session, turns: seq<Turn>, enc: Encoding)
    requires Dials(ss)
    requires AllSendable(enc, Logged(ss, turns).toServer.wrote) && AllSendable(enc, Logged(ss, turns).toClient.wrote)
    ensures AllSendable(enc, Converse(ss, turns).toServer) && AllSendable(enc, Converse(ss, turns).toClient)
    ensures CutExactly(enc, Logged(ss, turns).toServer, Converse(ss, turns).toServer)
    ensures CutExactly(enc, Logged(ss, turns).toClient, Converse(ss, turns).toClient)
  {
    hide Dials, Logged, Converse, Faithful, AllSendable, CutExactly;
    EveryLogIsFaithful(ss, turns);
    HalfIsCutExactly(enc, Logged(ss, turns).toServer, Converse(ss, turns).toServer);
    HalfIsCutExactly(enc, Logged(ss, turns).toClient, Converse(ss, turns).toClient);
  }
}
