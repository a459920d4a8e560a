/**
 * The wire form of a delta (internal/pipeline/messages.go): operations become
 * tagged records, and all literal bytes of a file may travel as one compressed
 * stream. zlib is the pair of functions in Codec.
 */
module Wire {
  import opened Prelude
  import opened Delta

  const KIND_COPY := 0
  const KIND_DATA := 1

  datatype WireOp = WireOp(kind: int, index: int, bytes: Bytes, length: int)

  datatype WireDelta = WireDelta(ops: seq<WireOp>, compressed: bool, literal: Bytes)

  /** compressLiteral (None when it does not help) and decompressLiteral (None when it fails). */
  datatype Codec = Codec(compress: (Bytes, int) -> Option<Bytes>, decompress: Bytes -> Option<Bytes>)

  /** skips is skipCompressSuffix, already told the suffix list. */
  datatype CompressOptions = CompressOptions(enabled: bool, level: int, skips: string -> bool)

  datatype WireError = CannotDecompress | StreamTooShort | UnknownKind

  ghost predicate Inverts(codec: Codec) {
    forall data: Bytes, level: int ::
      codec.compress(data, level).Some? ==> codec.decompress(codec.compress(data, level).value) == Some(data)
  }

  /** The literal bytes of a delta, in order. */
  function Literals(ops: seq<Op>): Bytes {
    if ops == [] then []
    else (if ops[0].Data? then ops[0].bytes else []) + Literals(ops[1..])
  }

  function ToWireOp(op: Op, compressed: bool): WireOp {
    match op
    case Copy(index) => WireOp(KIND_COPY, index, [], 0)
    case Data(bytes) => if compressed then WireOp(KIND_DATA, 0, [], |bytes|) else WireOp(KIND_DATA, 0, bytes, 0)
  }

  function ToWireOps(ops: seq<Op>, compressed: bool): (wire: seq<WireOp>)
    ensures |wire| == |ops|
    ensures forall i :: 0 <= i < |ops| ==> wire[i] == ToWireOp(ops[i], compressed)
  {
    if ops == [] then [] else [ToWireOp(ops[0], compressed)] + ToWireOps(ops[1..], compressed)
  }

  /** The compressed literal stream, when compression is asked for, not skipped, and worth it. */
  function Squeeze(codec: Codec, ops: seq<Op>, path: string, copts: CompressOptions): Option<Bytes> {
    if copts.enabled && !copts.skips(path) && Literals(ops) != [] then codec.compress(Literals(ops), copts.level) else None
  }

  function Encode(codec: Codec, ops: seq<Op>, path: string, copts: CompressOptions): WireDelta {
    match Squeeze(codec, ops, path, copts)
    case Some(literal) => WireDelta(ToWireOps(ops, true), true, literal)
    case None => WireDelta(ToWireOps(ops, false), false, [])
  }

  function Push(op: Op, r: Result<seq<Op>, WireError>): Result<seq<Op>, WireError> {
    match r
    case Ok(ops) => Ok([op] + ops)
    case Err(e) => Err(e)
  }

  /** The operations wire stands for, literals taken from stream starting at pos. */
  function Rebuild(wire: seq<WireOp>, compressed: bool, stream: Bytes, pos: nat): Result<seq<Op>, WireError> {
    if wire == [] then Ok([])
    else
      var w := wire[0];
      if w.kind == KIND_COPY then Push(Copy(w.index), Rebuild(wire[1..], compressed, stream, pos))
      else if w.kind == KIND_DATA then
        if !compressed then Push(Data(w.bytes), Rebuild(wire[1..], compressed, stream, pos))
        else if w.length < 0 || pos + w.length > |stream| then Err(StreamTooShort)
        else Push(Data(stream[pos..pos + w.length]), Rebuild(wire[1..], compressed, stream, pos + w.length))
      else Err(UnknownKind)
  }

  function Decode(codec: Codec, delta: WireDelta): Result<seq<Op>, WireError> {
    if delta.compressed then
      match codec.decompress(delta.literal)
      case None => Err(CannotDecompress)
      case Some(stream) => Rebuild(delta.ops, true, stream, 0)
    else Rebuild(delta.ops, false, [], 0)
  }

  // ---- Round trip ----

  lemma {:induction false} RebuildPlain(ops: seq<Op>)
    ensures Rebuild(ToWireOps(ops, false), false, [], 0) == Ok(ops)
  {
    if ops != [] {
      RebuildPlain(ops[1..]);
      assert [ops[0]] + ops[1..] == ops;
      assert ToWireOps(ops, false)[1..] == ToWireOps(ops[1..], false);
    }
  }

  lemma {:induction false} RebuildCompressed(ops: seq<Op>, before: Bytes)
    ensures Rebuild(ToWireOps(ops, true), true, before + Literals(ops), |before|) == Ok(ops)
  {
    if ops != [] {
      var here := LiteralOf(ops[0]);
      RebuildCompressed(ops[1..], before + here);
      assert before + here + Literals(ops[1..]) == before + Literals(ops);
      assert ToWireOps(ops, true) == [ToWireOp(ops[0], true)] + ToWireOps(ops[1..], true);
      hide Rebuild, ToWireOps, Literals;
      RebuildOne(ops[0], ToWireOps(ops[1..], true), before + Literals(ops), |before|);
      assert [ops[0]] + ops[1..] == ops;
    } else {
      assert before + Literals(ops) == before;
    }
  }

  function LiteralOf(op: Op): Bytes {
    if op.Data? then op.bytes else []
  }

  lemma RebuildOne(op: Op, wire: seq<WireOp>, stream: Bytes, pos: nat)
    requires pos + |LiteralOf(op)| <= |stream| && stream[pos..pos + |LiteralOf(op)|] == LiteralOf(op)
    ensures Rebuild([ToWireOp(op, true)] + wire, true, stream, pos) == Push(op, Rebuild(wire, true, stream, pos + |LiteralOf(op)|))
  {
    assert ([ToWireOp(op, true)] + wire)[1..] == wire;
  }

  /** Decoding what was encoded gives back the operations, for every op list, path and compression setting. */
  lemma WireRoundTrip(codec: Codec, ops: seq<Op>, path: string, copts: CompressOptions)
    requires Inverts(codec)
    ensures Decode(codec, Encode(codec, ops, path, copts)) == Ok(ops)
  {
    if Squeeze(codec, ops, path, copts).Some? {
      RebuildCompressed(ops, []);
      assert [] + Literals(ops) == Literals(ops);
    } else {
      RebuildPlain(ops);
    }
  }

  // ---- What any accepted compressed delta means ----

  function LengthSum(wire: seq<WireOp>): int {
    if wire == [] then 0
    else (if wire[0].kind == KIND_DATA then wire[0].length else 0) + LengthSum(wire[1..])
  }

  lemma {:induction false} RebuildSlicesInOrder(wire: seq<WireOp>, stream: Bytes, pos: nat)
    requires pos <= |stream|
    requires Rebuild(wire, true, stream, pos).Ok?
    ensures 0 <= LengthSum(wire) && pos + LengthSum(wire) <= |stream|
    ensures Literals(Rebuild(wire, true, stream, pos).value) == stream[pos..pos + LengthSum(wire)]
  {
    if wire != [] {
      var w := wire[0];
      var next := if w.kind == KIND_DATA then pos + w.length else pos;
      RebuildSlicesInOrder(wire[1..], stream, next);
      var rest := Rebuild(wire[1..], true, stream, next).value;
      var ops := Rebuild(wire, true, stream, pos).value;
      assert ops[1..] == rest;
      assert stream[pos..next] + stream[next..next + LengthSum(wire[1..])] == stream[pos..pos + LengthSum(wire)];
    }
  }

  /** A compressed delta that decodes at all hands out one contiguous prefix of its literal stream, in order. */
  lemma DecodeSlicesAPrefix(codec: Codec, delta: WireDelta)
    requires delta.compressed && Decode(codec, delta).Ok?
    ensures codec.decompress(delta.literal).Some?
    ensures Literals(Decode(codec, delta).value) <= codec.decompress(delta.literal).value
    ensures |Literals(Decode(codec, delta).value)| == LengthSum(delta.ops)
  {
    RebuildSlicesInOrder(delta.ops, codec.decompress(delta.literal).value, 0);
  }

  // ---- When and what is compressed ----

  lemma {:induction false} LiteralsIffData(ops: seq<Op>)
    ensures Literals(ops) != [] <==> exists i :: 0 <= i < |ops| && ops[i].Data? && ops[i].bytes != []
  {
    if ops != [] {
      LiteralsIffData(ops[1..]);
      if Literals(ops[1..]) != [] {
        var i :| 0 <= i < |ops[1..]| && ops[1..][i].Data? && ops[1..][i].bytes != [];
        assert ops[i + 1] == ops[1..][i];
      }
      if exists i :: 0 <= i < |ops| && ops[i].Data? && ops[i].bytes != [] {
        var i :| 0 <= i < |ops| && ops[i].Data? && ops[i].bytes != [];
        if i > 0 {
          assert ops[1..][i - 1] == ops[i];
        }
      }
    }
  }

  /** What a record holds of its literal: its length alone where the stream holds the bytes, else the bytes. */
  predicate StandsFor(w: WireOp, op: Op, compressed: bool) {
    match op
    case Copy(index) => w.kind == 0 && w.index == index && w.bytes == []
    case Data(bytes) => w.kind == 1 && if compressed then w.bytes == [] && w.length == |bytes| else w.bytes == bytes
  }

  /**
   * A delta is compressed exactly when compression is on, the path is not one
   * to skip, some literal has bytes, and compressing helps; then its stream is
   * the compressed form of all literals in order, and otherwise it has none.
   */
  lemma CompressedIff(codec: Codec, ops: seq<Op>, path: string, copts: CompressOptions)
    ensures var delta := Encode(codec, ops, path, copts);
      && (delta.compressed <==>
            && copts.enabled && !copts.skips(path)
            && (exists i :: 0 <= i < |ops| && ops[i].Data? && ops[i].bytes != [])
            && codec.compress(Literals(ops), copts.level).Some?)
      && (if delta.compressed then codec.compress(Literals(ops), copts.level) == Some(delta.literal) else delta.literal == [])
      && |delta.ops| == |ops| && forall i :: 0 <= i < |ops| ==> StandsFor(delta.ops[i], ops[i], delta.compressed)
  {
    LiteralsIffData(ops);
  }

  // ---- The source's loops ----

  method ToWireDeltaOps(codec: Codec, ops: seq<Op>, path: string, copts: CompressOptions) returns (delta: WireDelta)
    ensures delta == Encode(codec, ops, path, copts)
  {
    var compressed, literal: Bytes := false, [];
    if copts.enabled && !copts.skips(path) {
      var concatenated := ConcatLiterals(ops);
      if |concatenated| > 0 {
        var c := codec.compress(concatenated, copts.level);
        if c.Some? {
          literal, compressed := c.value, true;
        }
      }
    }
    var wire: seq<WireOp> := [];
    for i := 0 to |ops|
      invariant |wire| == i
      invariant forall j :: 0 <= j < i ==> wire[j] == ToWireOp(ops[j], compressed)
    {
      match ops[i] {
        case Copy(index) => wire := wire + [WireOp(KIND_COPY, index, [], 0)];
        case Data(bytes) =>
          if compressed {
            wire := wire + [WireOp(KIND_DATA, 0, [], |bytes|)];
          } else {
            wire := wire + [WireOp(KIND_DATA, 0, bytes, 0)];
          }
      }
    }
    assert wire == ToWireOps(ops, compressed);
    delta := WireDelta(wire, compressed, literal);
  }

  method ConcatLiterals(ops: seq<Op>) returns (concatenated: Bytes)
    ensures concatenated == Literals(ops)
  {
    concatenated := [];
    assert ops[0..] == ops;
    for i := 0 to |ops|
      invariant concatenated + Literals(ops[i..]) == Literals(ops)
    {
      assert ops[i..][1..] == ops[i + 1..];
      ghost var rest := Literals(ops[i + 1..]);
      match ops[i] {
        case Data(bytes) =>
          assert concatenated + (bytes + rest) == concatenated + bytes + rest;
          concatenated := concatenated + bytes;
        case Copy(_) =>
          assert [] + rest == rest;
      }
    }
    assert ops[|ops|..] == [];
  }

  function PushAll(front: seq<Op>, r: Result<seq<Op>, WireError>): Result<seq<Op>, WireError> {
    match r
    case Ok(ops) => Ok(front + ops)
    case Err(e) => Err(e)
  }

  lemma PushAllSnoc(front: seq<Op>, op: Op, r: Result<seq<Op>, WireError>)
    ensures PushAll(front + [op], r) == PushAll(front, Push(op, r))
  {
    if r.Ok? {
      assert front + [op] + r.value == front + ([op] + r.value);
    }
  }

  method FromWireDeltaOps(codec: Codec, delta: WireDelta) returns (r: Result<seq<Op>, WireError>)
    ensures r == Decode(codec, delta)
  {
    var stream: Bytes := [];
    if delta.compressed {
      var d := codec.decompress(delta.literal);
      if d.None? {
        return Err(CannotDecompress);
      }
      stream := d.value;
    }
    var wire := delta.ops;
    var ops: seq<Op> := [];
    var pos, i := 0, 0;
    assert wire[0..] == wire;
    ghost var whole := Rebuild(wire, delta.compressed, stream, 0);
    assert whole.Ok? ==> [] + whole.value == whole.value;
    while i < |wire|
      invariant 0 <= i <= |wire| && 0 <= pos
      invariant whole == PushAll(ops, Rebuild(wire[i..], delta.compressed, stream, pos))
    {
      var w := wire[i];
      assert wire[i..][0] == w && wire[i..][1..] == wire[i + 1..];
      ghost var front, at := ops, pos;
      if w.kind == KIND_COPY {
        ops := ops + [Copy(w.index)];
      } else if w.kind == KIND_DATA {
        if !delta.compressed {
          ops := ops + [Data(w.bytes)];
        } else {
          var end := pos + w.length;
          if w.length < 0 || end > |stream| {
            return Err(StreamTooShort);
          }
          ops := ops + [Data(stream[pos..end])];
          pos := end;
        }
      } else {
        return Err(UnknownKind);
      }
      PushAllSnoc(front, ops[|front|], Rebuild(wire[i + 1..], delta.compressed, stream, pos));
      i := i + 1;
    }
    assert wire[i..] == [] && ops + [] == ops;
    r := Ok(ops);
  }
}
