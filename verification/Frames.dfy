/**
 * Length-prefixed frames on a byte stream (internal/transport/frame.go):
 * four big-endian length bytes, one type byte, then the payload.
 */
module Frames {
  import opened Prelude

  const HELLO: Byte := 0
  const HELLO_ACK: Byte := 1
  const ERROR: Byte := 2
  const FILE_LIST: Byte := 3
  const SIGNATURE: Byte := 4
  const DELTA: Byte := 5

  const MAX_PAYLOAD := 0x400_0000 // 64 MiB

  datatype Frame = Frame(kind: Byte, payload: Bytes)

  datatype FrameError = EndOfStream | Truncated | TooLong

  predicate Accepted(f: Frame) {
    |f.payload| <= MAX_PAYLOAD
  }

  function BigEndian(n: nat): Bytes
    requires n < 0x1_0000_0000
  {
    [n / 0x100_0000, n / 0x1_0000 % 0x100, n / 0x100 % 0x100, n % 0x100]
  }

  function FromBigEndian(b: Bytes): nat
    requires |b| == 4
  {
    var n0: int, n1: int, n2: int, n3: int := b[0], b[1], b[2], b[3];
    n0 * 0x100_0000 + n1 * 0x1_0000 + n2 * 0x100 + n3
  }

  lemma BigEndianRoundTrip(n: nat)
    requires n < 0x1_0000_0000
    ensures FromBigEndian(BigEndian(n)) == n
  {
  }

  function Encode(f: Frame): Bytes
    requires Accepted(f)
  {
    BigEndian(|f.payload|) + [f.kind] + f.payload
  }

  /** What one read makes of the bytes ahead: a frame or an error, and the bytes still unread. */
  datatype Parsed = Parsed(result: Result<Frame, FrameError>, rest: Bytes)

  function Parse(data: Bytes): Parsed {
    if data == [] then Parsed(Err(EndOfStream), [])
    else if |data| < 5 then Parsed(Err(Truncated), [])
    else
      var length := FromBigEndian(data[..4]);
      if length > MAX_PAYLOAD then Parsed(Err(TooLong), data[5..])
      else if |data| < 5 + length then Parsed(Err(Truncated), [])
      else Parsed(Ok(Frame(data[4], data[5..5 + length])), data[5 + length..])
  }

  function EncodeAll(fs: seq<Frame>): Bytes
    requires forall f :: f in fs ==> Accepted(f)
  {
    if fs == [] then [] else Encode(fs[0]) + EncodeAll(fs[1..])
  }

  /** Every frame up to the first error, and that error. */
  function DecodeAll(data: Bytes): (seq<Frame>, FrameError)
    decreases |data|
  {
    match Parse(data).result
    case Err(e) => ([], e)
    case Ok(f) =>
      var (fs, e) := DecodeAll(Parse(data).rest);
      ([f] + fs, e)
  }

  lemma ParseEncoded(f: Frame, rest: Bytes)
    requires Accepted(f)
    ensures Parse(Encode(f) + rest) == Parsed(Ok(f), rest)
  {
    var data := Encode(f) + rest;
    var n := |f.payload|;
    assert data[..4] == BigEndian(n);
    BigEndianRoundTrip(n);
    assert data[5..5 + n] == f.payload;
    assert data[5 + n..] == rest;
  }

  /** The first four bytes, most significant first, are the payload's length; then comes the type, then the payload. */
  lemma HeaderBytes(f: Frame)
    requires Accepted(f)
    ensures |Encode(f)| == 5 + |f.payload|
    ensures var n0: int, n1: int, n2: int, n3: int := Encode(f)[0], Encode(f)[1], Encode(f)[2], Encode(f)[3];
      ((n0 * 256 + n1) * 256 + n2) * 256 + n3 == |f.payload|
    ensures Encode(f)[4] == f.kind && Encode(f)[5..] == f.payload
  {
    BigEndianRoundTrip(|f.payload|);
  }

  lemma ParseNothing()
    ensures Parse([]) == Parsed(Err(EndOfStream), [])
  {
  }

  /** A frame cut short anywhere is an error. */
  lemma ParseCut(f: Frame, n: nat)
    requires Accepted(f) && n < |Encode(f)|
    ensures Parse(Encode(f)[..n]) == Parsed(Err(if n == 0 then EndOfStream else Truncated), [])
  {
    if 5 <= n {
      assert Encode(f)[..n][..4] == BigEndian(|f.payload|);
      BigEndianRoundTrip(|f.payload|);
    }
  }

  /** Reading back any accepted frames gives exactly those frames, then a clean end of stream. */
  lemma {:induction false} FrameStreamRoundTrip(fs: seq<Frame>)
    requires forall f :: f in fs ==> Accepted(f)
    ensures DecodeAll(EncodeAll(fs)) == (fs, EndOfStream)
  {
    if fs != [] {
      ParseEncoded(fs[0], EncodeAll(fs[1..]));
      FrameStreamRoundTrip(fs[1..]);
      assert [fs[0]] + fs[1..] == fs;
    }
  }

  /** How many frames lie wholly within the first n bytes of the encoding. */
  function Whole(fs: seq<Frame>, n: nat): (k: nat)
    requires forall f :: f in fs ==> Accepted(f)
    ensures k <= |fs|
  {
    if fs == [] || n < |Encode(fs[0])| then 0 else 1 + Whole(fs[1..], n - |Encode(fs[0])|)
  }

  lemma {:induction false} WholeIsExact(fs: seq<Frame>, n: nat)
    requires forall f :: f in fs ==> Accepted(f)
    ensures |EncodeAll(fs[..Whole(fs, n)])| <= n
    ensures Whole(fs, n) < |fs| ==> n < |EncodeAll(fs[..Whole(fs, n) + 1])|
  {
    if fs != [] && |Encode(fs[0])| <= n {
      var k := Whole(fs[1..], n - |Encode(fs[0])|);
      WholeIsExact(fs[1..], n - |Encode(fs[0])|);
      assert fs[..k + 1][1..] == fs[1..][..k];
      if k < |fs[1..]| {
        assert fs[..k + 2][1..] == fs[1..][..k + 1];
      }
    } else if fs != [] {
      assert fs[..1][1..] == [];
    }
  }

  /** After any truncation, exactly the wholly contained frames come back, then an error. */
  lemma {:induction false} TruncatedStream(fs: seq<Frame>, n: nat)
    requires forall f :: f in fs ==> Accepted(f)
    requires n <= |EncodeAll(fs)|
    ensures DecodeAll(EncodeAll(fs)[..n]).0 == fs[..Whole(fs, n)]
    ensures DecodeAll(EncodeAll(fs)[..n]).1 ==
      if n == |EncodeAll(fs[..Whole(fs, n)])| then EndOfStream else Truncated
  {
    hide Encode, Parse;
    ParseNothing();
    if fs == [] {
    } else {
      var head, tail := Encode(fs[0]), EncodeAll(fs[1..]);
      if n < |head| {
        assert (head + tail)[..n] == head[..n];
        ParseCut(fs[0], n);
      } else {
        var m := n - |head|;
        assert (head + tail)[..n] == head + tail[..m];
        ParseEncoded(fs[0], tail[..m]);
        TruncatedStream(fs[1..], m);
        var k := Whole(fs[1..], m);
        assert fs[..k + 1] == [fs[0]] + fs[1..][..k];
        assert fs[..k + 1][1..] == fs[1..][..k];
      }
    }
  }

  // ---- The stream calls of the source ----

  /** A byte stream with everything its writer has written and its reader has not yet read. */
  class ByteStream {
    var pending: Bytes

    constructor ()
      ensures pending == []
    {
      pending := [];
    }

    method Write(p: Bytes)
      modifies this
      ensures pending == old(pending) + p
    {
      pending := pending + p;
    }

    /** io.ReadFull: n bytes, or everything there is and a failure. */
    method ReadFull(n: nat) returns (ok: bool, buf: Bytes)
      modifies this
      ensures ok == (n <= |old(pending)|)
      ensures ok ==> buf == old(pending)[..n] && pending == old(pending)[n..]
      ensures !ok ==> buf == old(pending) && pending == []
    {
      if n <= |pending| {
        ok, buf, pending := true, pending[..n], pending[n..];
      } else {
        ok, buf, pending := false, pending, [];
      }
    }
  }

  method WriteFrame(w: ByteStream, f: Frame) returns (ok: bool)
    modifies w
    ensures ok == Accepted(f)
    ensures w.pending == if Accepted(f) then old(w.pending) + Encode(f) else old(w.pending)
  {
    if |f.payload| > MAX_PAYLOAD {
      return false;
    }
    var header := BigEndian(|f.payload|) + [f.kind];
    w.Write(header);
    if |f.payload| > 0 {
      w.Write(f.payload);
    }
    assert old(w.pending) + (header + f.payload) == old(w.pending) + header + f.payload;
    return true;
  }

  method ReadFrame(r: ByteStream) returns (f: Result<Frame, FrameError>)
    modifies r
    ensures Parsed(f, r.pending) == Parse(old(r.pending))
  {
    var ok, header := r.ReadFull(5);
    if !ok {
      return Err(if header == [] then EndOfStream else Truncated);
    }
    assert header[..4] == old(r.pending)[..4];
    var length := FromBigEndian(header[..4]);
    if length > MAX_PAYLOAD {
      return Err(TooLong);
    }
    var payload: Bytes := [];
    if length > 0 {
      ok, payload := r.ReadFull(length);
      if !ok {
        return Err(Truncated);
      }
    }
    assert old(r.pending)[5..][..length] == old(r.pending)[5..5 + length];
    assert old(r.pending)[5..][length..] == old(r.pending)[5 + length..];
    return Ok(Frame(header[4], payload));
  }

  /** A frame written and then read back arrives unchanged and leaves the rest of the stream as it was. */
  method SendAndReceive(s: ByteStream, f: Frame) returns (received: Result<Frame, FrameError>)
    requires s.pending == [] && Accepted(f)
    modifies s
    ensures received == Ok(f) && s.pending == []
  {
    var _ := WriteFrame(s, f);
    assert s.pending == Encode(f) + [];
    ParseEncoded(f, []);
    received := ReadFrame(s);
  }
}
