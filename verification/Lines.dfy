/**
 * Text lines on a byte stream (internal/daemon/protocol.go, readLine and
 * writeLine), and streams on which lines and frames alternate.
 */
module Lines {
  import opened Prelude
  import Frames

  const LF: Byte := 10
  const CR: Byte := 13
  const MAX_LINE := 8192 // maxLineLength

  datatype LineError = EndOfStream | TooLong

  /** What one read makes of the bytes ahead: a line or an error, and the bytes still unread. */
  datatype Read = Read(result: Result<Bytes, LineError>, rest: Bytes)

  /** strings.TrimRight(s, "\r"). */
  function TrimRight(s: Bytes): Bytes {
    if s != [] && s[|s| - 1] == CR then TrimRight(s[..|s| - 1]) else s
  }

  /** The loop of readLine with buf already read. */
  function ReadFrom(buf: Bytes, data: Bytes): Read
    decreases |data|
  {
    if data == [] then Read(Err(EndOfStream), [])
    else if data[0] == LF then Read(Ok(TrimRight(buf)), data[1..])
    else if |buf| >= MAX_LINE then Read(Err(TooLong), data[1..])
    else ReadFrom(buf + [data[0]], data[1..])
  }

  function ReadLine(data: Bytes): Read {
    ReadFrom([], data)
  }

  function Written(line: Bytes): Bytes {
    line + [LF]
  }

  /** What a line must be like to survive: no newline in it, not too long, no carriage return at its end. */
  predicate Legible(line: Bytes) {
    LF !in line && |line| <= MAX_LINE && (line != [] ==> line[|line| - 1] != CR)
  }

  lemma {:induction false} ReadsUpToNewline(buf: Bytes, line: Bytes, rest: Bytes)
    requires LF !in line && |buf| + |line| <= MAX_LINE
    ensures ReadFrom(buf, line + [LF] + rest) == Read(Ok(TrimRight(buf + line)), rest)
    decreases |line|
  {
    var data := line + [LF] + rest;
    if line == [] {
      assert data[0] == LF && data[1..] == rest && buf + line == buf;
    } else {
      assert data[0] == line[0] && data[1..] == line[1..] + [LF] + rest;
      ReadsUpToNewline(buf + [line[0]], line[1..], rest);
      assert buf + [line[0]] + line[1..] == buf + line;
    }
  }

  /** Whatever is read back has no newline and is no longer than the limit. */
  lemma {:induction false} ReadIsShort(buf: Bytes, data: Bytes)
    requires LF !in buf && |buf| <= MAX_LINE
    ensures var r := ReadFrom(buf, data); r.result.Ok? ==> LF !in r.result.value && |r.result.value| <= MAX_LINE
    ensures var r := ReadFrom(buf, data); r.result.Ok? && r.result.value != [] ==> r.result.value[|r.result.value| - 1] != CR
    decreases |data|
  {
    TrimmedIsShort(buf);
    if data != [] && data[0] != LF && |buf| < MAX_LINE {
      ReadIsShort(buf + [data[0]], data[1..]);
    }
  }

  lemma {:induction false} TrimmedIsShort(s: Bytes)
    ensures TrimRight(s) <= s
    ensures TrimRight(s) != [] ==> TrimRight(s)[|TrimRight(s)| - 1] != CR
  {
    if s != [] && s[|s| - 1] == CR {
      TrimmedIsShort(s[..|s| - 1]);
    }
  }

  /** A written line is read back, with the rest of the stream untouched, exactly when it is legible. */
  lemma LineRoundTrip(line: Bytes, rest: Bytes)
    ensures ReadLine(Written(line) + rest) == Read(Ok(line), rest) <==> Legible(line)
  {
    ReadIsShort([], Written(line) + rest);
    if Legible(line) {
      ReadsUpToNewline([], line, rest);
      assert [] + line == line;
      assert Written(line) + rest == line + [LF] + rest;
    }
  }

  // ---- Lines and frames on one stream ----

  datatype Piece = TextPiece(line: Bytes) | FramePiece(frame: Frames.Frame)

  predicate Sendable(p: Piece) {
    match p
    case TextPiece(line) => Legible(line)
    case FramePiece(frame) => Frames.Accepted(frame)
  }

  function OnWire(p: Piece): Bytes
    requires Sendable(p)
  {
    match p
    case TextPiece(line) => Written(line)
    case FramePiece(frame) => Frames.Encode(frame)
  }

  function AllOnWire(ps: seq<Piece>): Bytes
    requires forall p :: p in ps ==> Sendable(p)
  {
    if ps == [] then [] else OnWire(ps[0]) + AllOnWire(ps[1..])
  }

  /** Reads one piece after another, a line where `lines` says so and a frame elsewhere; None once a read fails. */
  function ReadPieces(lines: seq<bool>, data: Bytes): Option<(seq<Piece>, Bytes)> {
    if lines == [] then Some(([], data))
    else if lines[0] then
      var r := ReadLine(data);
      if r.result.Err? then None
      else
        match ReadPieces(lines[1..], r.rest)
        case None => None
        case Some((more, left)) => Some(([TextPiece(r.result.value)] + more, left))
    else
      var r := Frames.Parse(data);
      if r.result.Err? then None
      else
        match ReadPieces(lines[1..], r.rest)
        case None => None
        case Some((more, left)) => Some(([FramePiece(r.result.value)] + more, left))
  }

  function Shapes(ps: seq<Piece>): (lines: seq<bool>)
    ensures |lines| == |ps|
    ensures forall i :: 0 <= i < |ps| ==> lines[i] == ps[i].TextPiece?
  {
    if ps == [] then [] else [ps[0].TextPiece?] + Shapes(ps[1..])
  }

  /**
   * A mixed stream read with the right expectations is consumed at exact
   * boundaries: the same lines and frames, and whatever follows untouched.
   */
  lemma {:induction false} MixedStreamRoundTrip(ps: seq<Piece>, rest: Bytes)
    requires forall p :: p in ps ==> Sendable(p)
    ensures ReadPieces(Shapes(ps), AllOnWire(ps) + rest) == Some((ps, rest))
  {
    hide ReadLine, Frames.Parse, Frames.Encode, Legible;
    if ps == [] {
      assert AllOnWire(ps) + rest == rest;
    } else {
      var tail := AllOnWire(ps[1..]) + rest;
      assert AllOnWire(ps) + rest == OnWire(ps[0]) + tail;
      assert Shapes(ps)[1..] == Shapes(ps[1..]);
      MixedStreamRoundTrip(ps[1..], rest);
      assert [ps[0]] + ps[1..] == ps;
      match ps[0] {
        case TextPiece(line) => LineRoundTrip(line, tail);
        case FramePiece(frame) => Frames.ParseEncoded(frame, tail);
      }
    }
  }

  // ---- The calls of the source ----

  method WriteLine(w: Frames.ByteStream, line: Bytes)
    modifies w
    ensures w.pending == old(w.pending) + Written(line)
    ensures forall rest :: ReadLine(w.pending[|old(w.pending)|..] + rest) == Read(Ok(line), rest) <==> Legible(line)
  {
    w.Write(line + [LF]);
    assert w.pending[|old(w.pending)|..] == Written(line);
    forall rest ensures ReadLine(Written(line) + rest) == Read(Ok(line), rest) <==> Legible(line) {
      LineRoundTrip(line, rest);
    }
  }

  method TrimCarriageReturns(s: Bytes) returns (t: Bytes)
    ensures t == TrimRight(s)
  {
    var n := |s|;
    assert s[..n] == s;
    while n > 0 && s[n - 1] == CR
      invariant 0 <= n <= |s| && TrimRight(s) == TrimRight(s[..n])
    {
      assert s[..n][..n - 1] == s[..n - 1];
      n := n - 1;
    }
    return s[..n];
  }

  method ReadLineFrom(r: Frames.ByteStream) returns (line: Result<Bytes, LineError>)
    modifies r
    ensures Read(line, r.pending) == ReadLine(old(r.pending))
  {
    var buf: Bytes := [];
    while true
      invariant ReadFrom(buf, r.pending) == ReadLine(old(r.pending))
      decreases |r.pending|
    {
      var ok, b := r.ReadFull(1);
      if !ok {
        return Err(EndOfStream);
      }
      if b[0] == LF {
        break;
      }
      if |buf| >= MAX_LINE {
        return Err(TooLong);
      }
      buf := buf + [b[0]];
    }
    var trimmed := TrimCarriageReturns(buf);
    return Ok(trimmed);
  }
}
