/**
 * The delta engine of internal/sync/delta.go: the sliding scan of GenerateDelta
 * and the replay of ApplyDelta.
 */
module Delta {
  import opened Prelude
  import opened Blocks
  import Checksum

  datatype Op = Copy(index: int) | Data(bytes: Bytes)

  datatype DeltaError = BadBlockSize | BadBlockIndex

  function Width(blockSize: int): (w: int)
    ensures 0 < w
  {
    if blockSize <= 0 then DEFAULT_BLOCK_SIZE else blockSize
  }

  function Window(data: Bytes, pos: nat, width: nat): (w: Bytes)
    requires pos + width <= |data|
    ensures |w| == width
  {
    data[pos..pos + width]
  }

  /** A literal run, unless it is empty. */
  function Flush(pending: Bytes): seq<Op> {
    if pending == [] then [] else [Data(pending)]
  }

  // ---- The scan over signatures: what GenerateDelta computes for any signature ----

  /** The lowest index at or after `from` that holds the item. */
  function Find<T(==)>(items: seq<T>, item: T, from: nat): (r: Option<nat>)
    requires from <= |items|
    ensures r.Some? ==> from <= r.value < |items| && items[r.value] == item
    ensures r.Some? ==> forall i :: from <= i < r.value ==> items[i] != item
    ensures r.None? ==> forall i :: from <= i < |items| ==> items[i] != item
    decreases |items| - from
  {
    if from == |items| then None
    else if items[from] == item then Some(from)
    else Find(items, item, from + 1)
  }

  function Scan(digest: Bytes -> Bytes, sig: Signature, data: Bytes, pos: nat, pending: Bytes): seq<Op>
    requires pos <= |data|
    decreases |data| - pos
  {
    var width := Width(sig.blockSize);
    if pos + width > |data| then
      Flush(pending + data[pos..])
    else
      match Find(sig.blocks, SignBlock(digest, Window(data, pos, width)), 0)
      case Some(i) => Flush(pending) + [Copy(i)] + Scan(digest, sig, data, pos + width, [])
      case None => Scan(digest, sig, data, pos + 1, pending + [data[pos]])
  }

  function DeltaOf(digest: Bytes -> Bytes, sig: Signature, data: Bytes): seq<Op> {
    Scan(digest, sig, data, 0, [])
  }

  // ---- The naive matcher: compares bytes, knows nothing of checksums ----

  /** At each position: copy the lowest-index block equal to the next `width` bytes, or emit one literal byte. */
  function NaiveScan(blocks: seq<Bytes>, width: nat, data: Bytes, pos: nat, pending: Bytes): seq<Op>
    requires 0 < width && pos <= |data|
    decreases |data| - pos
  {
    if pos + width > |data| then
      Flush(pending + data[pos..])
    else
      match Find(blocks, Window(data, pos, width), 0)
      case Some(i) => Flush(pending) + [Copy(i)] + NaiveScan(blocks, width, data, pos + width, [])
      case None => NaiveScan(blocks, width, data, pos + 1, pending + [data[pos]])
  }

  function NaiveDelta(basis: Bytes, blockSize: int, data: Bytes): seq<Op> {
    NaiveScan(Split(basis, blockSize), Width(blockSize), data, 0, [])
  }

  /**
   * No block of the old data (the short last one included) has both checksums
   * of a window of the new data without being that window.
   */
  ghost predicate CollisionFree(digest: Bytes -> Bytes, basis: Bytes, blockSize: int, data: Bytes) {
    forall k: nat, pos: nat {:trigger Split(basis, blockSize)[k], Window(data, pos, Width(blockSize))} ::
      k < |Split(basis, blockSize)| && pos + Width(blockSize) <= |data| &&
      SignBlock(digest, Split(basis, blockSize)[k]) == SignBlock(digest, Window(data, pos, Width(blockSize)))
      ==> Split(basis, blockSize)[k] == Window(data, pos, Width(blockSize))
  }

  lemma FindAgrees(digest: Bytes -> Bytes, basis: Bytes, blockSize: int, data: Bytes, pos: nat)
    requires CollisionFree(digest, basis, blockSize, data)
    requires pos + Width(blockSize) <= |data|
    ensures Find(Sign(digest, basis, blockSize).blocks, SignBlock(digest, Window(data, pos, Width(blockSize))), 0)
         == Find(Split(basis, blockSize), Window(data, pos, Width(blockSize)), 0)
  {
    var window := Window(data, pos, Width(blockSize));
    var blocks := Split(basis, blockSize);
    var signed := Sign(digest, basis, blockSize).blocks;
    assert forall i :: 0 <= i < |blocks| ==> (signed[i] == SignBlock(digest, window) <==> blocks[i] == window);
    var fast := Find(signed, SignBlock(digest, window), 0);
    var slow := Find(blocks, window, 0);
    assert fast.Some? ==> blocks[fast.value] == window;
    assert slow.Some? ==> signed[slow.value] == SignBlock(digest, window);
  }

  lemma {:induction false} ScanIsNaive(digest: Bytes -> Bytes, basis: Bytes, blockSize: int, data: Bytes, pos: nat, pending: Bytes)
    requires CollisionFree(digest, basis, blockSize, data)
    requires pos <= |data|
    ensures Scan(digest, Sign(digest, basis, blockSize), data, pos, pending)
         == NaiveScan(Split(basis, blockSize), Width(blockSize), data, pos, pending)
    decreases |data| - pos
  {
    hide CollisionFree, Find, Split, SignBlock;
    var width := Width(blockSize);
    if pos + width <= |data| {
      FindAgrees(digest, basis, blockSize, data, pos);
      if Find(Split(basis, blockSize), Window(data, pos, width), 0).Some? {
        ScanIsNaive(digest, basis, blockSize, data, pos + width, []);
      } else {
        ScanIsNaive(digest, basis, blockSize, data, pos + 1, pending + [data[pos]]);
      }
    }
  }

  /** The checksum-driven scan finds exactly the delta the byte-comparing matcher finds. */
  lemma FastRefinesNaive(digest: Bytes -> Bytes, basis: Bytes, blockSize: int, data: Bytes)
    requires CollisionFree(digest, basis, blockSize, data)
    ensures DeltaOf(digest, Sign(digest, basis, blockSize), data) == NaiveDelta(basis, blockSize, data)
  {
    ScanIsNaive(digest, basis, blockSize, data, 0, []);
  }

  // ---- ApplyDelta ----

  function Piece(basis: Bytes, op: Op, blockSize: int): Result<Bytes, DeltaError> {
    match op
    case Data(bytes) => Ok(bytes)
    case Copy(index) =>
      if blockSize <= 0 then Err(BadBlockSize)
      else if index < 0 || index * blockSize >= |basis| then Err(BadBlockIndex)
      else
        BlockBounds(index, blockSize, |basis|);
        Ok(basis[index * blockSize..Min(index * blockSize + blockSize, |basis|)])
  }

  lemma BlockBounds(index: int, blockSize: int, len: int)
    requires 0 < blockSize && 0 <= index && index * blockSize < len
    ensures 0 <= index * blockSize < Min(index * blockSize + blockSize, len) <= len
  {
  }

  function Prepend(head: Bytes, r: Result<Bytes, DeltaError>): Result<Bytes, DeltaError> {
    match r
    case Ok(tail) => Ok(head + tail)
    case Err(e) => Err(e)
  }

  function Apply(basis: Bytes, ops: seq<Op>, blockSize: int): Result<Bytes, DeltaError> {
    if ops == [] then Ok([])
    else
      match Piece(basis, ops[0], blockSize)
      case Ok(head) => Prepend(head, Apply(basis, ops[1..], blockSize))
      case Err(e) => Err(e)
  }

  method ApplyDelta(basis: Bytes, ops: seq<Op>, sig: Signature) returns (r: Result<Bytes, DeltaError>)
    ensures r == Apply(basis, ops, sig.blockSize)
  {
    var blockSize := sig.blockSize;
    var out: Bytes := [];
    var i := 0;
    assert ops[0..] == ops;
    PrependNothing(Apply(basis, ops, blockSize));
    while i < |ops|
      invariant 0 <= i <= |ops|
      invariant Apply(basis, ops, blockSize) == Prepend(out, Apply(basis, ops[i..], blockSize))
    {
      ghost var before := out;
      assert ops[i..][0] == ops[i] && ops[i..][1..] == ops[i + 1..];
      match ops[i] {
        case Copy(index) =>
          if blockSize <= 0 {
            return Err(BadBlockSize);
          }
          var start := index * blockSize;
          if index < 0 || start >= |basis| {
            return Err(BadBlockIndex);
          }
          var end := start + blockSize;
          if end > |basis| {
            end := |basis|;
          }
          BlockBounds(index, blockSize, |basis|);
          out := out + basis[start..end];
        case Data(bytes) =>
          out := out + bytes;
      }
      PrependTwice(before, Piece(basis, ops[i], blockSize).value, Apply(basis, ops[i + 1..], blockSize));
      i := i + 1;
    }
    assert ops[i..] == [] && out + [] == out;
    r := Ok(out);
  }

  lemma PrependNothing(r: Result<Bytes, DeltaError>)
    ensures Prepend([], r) == r
  {
    if r.Ok? {
      assert [] + r.value == r.value;
    }
  }

  lemma PrependTwice(a: Bytes, b: Bytes, r: Result<Bytes, DeltaError>)
    ensures Prepend(a, Prepend(b, r)) == Prepend(a + b, r)
  {
    if r.Ok? {
      assert a + (b + r.value) == a + b + r.value;
    }
  }

  lemma {:induction false} ApplyConcat(basis: Bytes, front: seq<Op>, back: seq<Op>, blockSize: int)
    requires Apply(basis, front, blockSize).Ok?
    ensures Apply(basis, front + back, blockSize) == Prepend(Apply(basis, front, blockSize).value, Apply(basis, back, blockSize))
  {
    if front == [] {
      assert front + back == back;
      PrependNothing(Apply(basis, back, blockSize));
    } else {
      assert (front + back)[0] == front[0] && (front + back)[1..] == front[1..] + back;
      ApplyConcat(basis, front[1..], back, blockSize);
      PrependTwice(Piece(basis, front[0], blockSize).value, Apply(basis, front[1..], blockSize).value, Apply(basis, back, blockSize));
    }
  }

  lemma ApplyOne(basis: Bytes, op: Op, blockSize: int)
    requires Piece(basis, op, blockSize).Ok?
    ensures Apply(basis, [op], blockSize) == Piece(basis, op, blockSize)
  {
    assert [op][1..] == [];
    var head := Piece(basis, op, blockSize).value;
    assert head + [] == head;
  }

  lemma ApplyFlush(basis: Bytes, pending: Bytes, blockSize: int)
    ensures Apply(basis, Flush(pending), blockSize) == Ok(pending)
  {
    if pending != [] {
      ApplyOne(basis, Data(pending), blockSize);
    }
  }

  // ---- Round trip ----

  /** A block of the split is what a Copy of its index replays. */
  lemma CopyReplaysBlock(basis: Bytes, blockSize: int, k: nat)
    requires k < |Split(basis, blockSize)|
    ensures Piece(basis, Copy(k), blockSize) == Ok(Split(basis, blockSize)[k])
  {
    BlockAt(basis, blockSize, k);
    assert (k + 1) * blockSize == k * blockSize + blockSize;
  }

  lemma ReplayMatch(basis: Bytes, blockSize: int, pending: Bytes, k: nat, rest: seq<Op>)
    requires k < |Split(basis, blockSize)|
    requires Apply(basis, rest, blockSize).Ok?
    ensures Apply(basis, Flush(pending) + [Copy(k)] + rest, blockSize)
         == Ok(pending + Split(basis, blockSize)[k] + Apply(basis, rest, blockSize).value)
  {
    CopyReplaysBlock(basis, blockSize, k);
    ApplyOne(basis, Copy(k), blockSize);
    ApplyFlush(basis, pending, blockSize);
    ApplyConcat(basis, Flush(pending), [Copy(k)], blockSize);
    ApplyConcat(basis, Flush(pending) + [Copy(k)], rest, blockSize);
  }

  lemma Rejoin(pending: Bytes, data: Bytes, pos: nat, width: nat)
    requires pos + width <= |data|
    ensures pending + Window(data, pos, width) + data[pos + width..] == pending + data[pos..]
    ensures pending + Window(data, pos, width) + ([] + data[pos + width..]) == pending + data[pos..]
  {
    assert Window(data, pos, width) + data[pos + width..] == data[pos..];
    assert [] + data[pos + width..] == data[pos + width..];
  }

  lemma {:induction false} NaiveScanReplays(basis: Bytes, blockSize: int, data: Bytes, pos: nat, pending: Bytes)
    requires pos <= |data|
    ensures Apply(basis, NaiveScan(Split(basis, blockSize), Width(blockSize), data, pos, pending), blockSize)
         == Ok(pending + data[pos..])
    decreases |data| - pos
  {
    var blocks, width := Split(basis, blockSize), Width(blockSize);
    if pos + width > |data| {
      ApplyFlush(basis, pending + data[pos..], blockSize);
    } else {
      var window := Window(data, pos, width);
      match Find(blocks, window, 0)
      case Some(i) =>
        NaiveScanReplays(basis, blockSize, data, pos + width, []);
        ReplayMatch(basis, blockSize, pending, i, NaiveScan(blocks, width, data, pos + width, []));
        Rejoin(pending, data, pos, width);
      case None =>
        NaiveScanReplays(basis, blockSize, data, pos + 1, pending + [data[pos]]);
        Rejoin(pending, data, pos, 1);
        assert Window(data, pos, 1) == [data[pos]];
    }
  }

  /** Applying a generated delta to the old data rebuilds the new data, for every block size. */
  lemma RoundTrip(digest: Bytes -> Bytes, basis: Bytes, blockSize: int, data: Bytes)
    requires CollisionFree(digest, basis, blockSize, data)
    ensures Apply(basis, DeltaOf(digest, Sign(digest, basis, blockSize), data), blockSize) == Ok(data)
  {
    FastRefinesNaive(digest, basis, blockSize, data);
    NaiveScanReplays(basis, blockSize, data, 0, []);
    assert [] + data[0..] == data;
  }

  // ---- Normal form ----

  /** No literal is empty and no two literals are neighbours. */
  predicate Normal(ops: seq<Op>) {
    && (forall i :: 0 <= i < |ops| && ops[i].Data? ==> ops[i].bytes != [])
    && (forall i :: 0 <= i < |ops| - 1 && ops[i].Data? ==> ops[i + 1].Copy?)
  }

  lemma {:induction false} ScanIsNormal(digest: Bytes -> Bytes, sig: Signature, data: Bytes, pos: nat, pending: Bytes)
    requires pos <= |data|
    ensures Normal(Scan(digest, sig, data, pos, pending))
    decreases |data| - pos
  {
    var width := Width(sig.blockSize);
    if pos + width <= |data| {
      match Find(sig.blocks, SignBlock(digest, Window(data, pos, width)), 0)
      case Some(i) =>
        ScanIsNormal(digest, sig, data, pos + width, []);
        var rest := Scan(digest, sig, data, pos + width, []);
        assert Normal([Copy(i)] + rest);
        assert Flush(pending) + [Copy(i)] + rest == Flush(pending) + ([Copy(i)] + rest);
      case None =>
        ScanIsNormal(digest, sig, data, pos + 1, pending + [data[pos]]);
    }
  }

  /** Whatever signature it is given, the generated op list is in normal form. */
  lemma GeneratedDeltaIsNormal(digest: Bytes -> Bytes, sig: Signature, data: Bytes)
    ensures Normal(DeltaOf(digest, sig, data))
  {
    ScanIsNormal(digest, sig, data, 0, []);
  }

  // ---- Counting literal and matched bytes (internal/pipeline/receiver.go, deltaByteCounts) ----

  function LiteralBytes(ops: seq<Op>): nat {
    if ops == [] then 0
    else (if ops[0].Data? then |ops[0].bytes| else 0) + LiteralBytes(ops[1..])
  }

  function CopiedBy(op: Op, blockSize: int, basisLen: int): nat {
    if op.Data? then 0
    else
      var start := op.index * blockSize;
      var end := Min(start + blockSize, basisLen);
      if end > start then end - start else 0
  }

  function MatchedBytes(ops: seq<Op>, blockSize: int, basisLen: int): nat {
    if ops == [] then 0
    else CopiedBy(ops[0], blockSize, basisLen) + MatchedBytes(ops[1..], blockSize, basisLen)
  }

  method DeltaByteCounts(ops: seq<Op>, blockSize: int, basisLen: int) returns (literal: int, matched: int)
    ensures literal == LiteralBytes(ops)
    ensures matched == MatchedBytes(ops, blockSize, basisLen)
  {
    literal, matched := 0, 0;
    for i := 0 to |ops|
      invariant literal + LiteralBytes(ops[i..]) == LiteralBytes(ops)
      invariant matched + MatchedBytes(ops[i..], blockSize, basisLen) == MatchedBytes(ops, blockSize, basisLen)
    {
      assert ops[i..][1..] == ops[i + 1..];
      match ops[i] {
        case Data(bytes) =>
          literal := literal + |bytes|;
        case Copy(index) =>
          var start := index * blockSize;
          var end := start + blockSize;
          if end > basisLen {
            end := basisLen;
          }
          if end > start {
            matched := matched + (end - start);
          }
      }
    }
    assert ops[|ops|..] == [];
  }

  /** Every byte of a rebuilt file was counted exactly once, as literal or as matched. */
  lemma {:induction false} CountsConserve(basis: Bytes, ops: seq<Op>, blockSize: int)
    requires Apply(basis, ops, blockSize).Ok?
    ensures LiteralBytes(ops) + MatchedBytes(ops, blockSize, |basis|) == |Apply(basis, ops, blockSize).value|
  {
    if ops != [] {
      CountsConserve(basis, ops[1..], blockSize);
      if ops[0].Copy? {
        BlockBounds(ops[0].index, blockSize, |basis|);
      }
    }
  }

  lemma {:induction false} LiteralBytesConcat(front: seq<Op>, back: seq<Op>)
    ensures LiteralBytes(front + back) == LiteralBytes(front) + LiteralBytes(back)
  {
    if front == [] {
      assert front + back == back;
    } else {
      assert (front + back)[1..] == front[1..] + back;
      LiteralBytesConcat(front[1..], back);
    }
  }

  lemma LiteralBytesFlush(pending: Bytes)
    ensures LiteralBytes(Flush(pending)) == |pending|
  {
    if pending != [] {
      assert Flush(pending)[1..] == [];
    }
  }

  /** What is left of the data bounds the literal bytes still to come. */
  lemma {:induction false} LiteralBound(blocks: seq<Bytes>, width: nat, data: Bytes, pos: nat, pending: Bytes)
    requires 0 < width && pos <= |data|
    ensures LiteralBytes(NaiveScan(blocks, width, data, pos, pending)) <= |pending| + |data| - pos
    decreases |data| - pos
  {
    if pos + width > |data| {
      LiteralBytesFlush(pending + data[pos..]);
    } else {
      match Find(blocks, Window(data, pos, width), 0)
      case Some(i) =>
        LiteralAfterCopy(blocks, width, data, pos, pending, i);
        LiteralBound(blocks, width, data, pos + width, []);
      case None =>
        LiteralBound(blocks, width, data, pos + 1, pending + [data[pos]]);
    }
  }

  lemma LiteralAfterCopy(blocks: seq<Bytes>, width: nat, data: Bytes, pos: nat, pending: Bytes, i: nat)
    requires 0 < width && pos + width <= |data|
    requires Find(blocks, Window(data, pos, width), 0) == Some(i)
    ensures LiteralBytes(NaiveScan(blocks, width, data, pos, pending))
         == |pending| + LiteralBytes(NaiveScan(blocks, width, data, pos + width, []))
  {
    var rest := NaiveScan(blocks, width, data, pos + width, []);
    LiteralBytesFlush(pending);
    LiteralBytesConcat(Flush(pending), [Copy(i)]);
    LiteralBytesConcat(Flush(pending) + [Copy(i)], rest);
    assert [Copy(i)][1..] == [];
  }

  /** From block boundary k on, every whole old block that the new data still holds is copied. */
  lemma {:induction false} PrefixIsCopied(basis: Bytes, blockSize: int, suffix: Bytes, k: nat)
    requires 0 < blockSize && k * blockSize <= |basis|
    ensures LiteralBytes(NaiveScan(Split(basis, blockSize), blockSize, basis + suffix, k * blockSize, []))
         <= |basis| % blockSize + |suffix|
    decreases |basis| - k * blockSize
  {
    var data, pos := basis + suffix, k * blockSize;
    var blocks := Split(basis, blockSize);
    assert (k + 1) * blockSize == pos + blockSize;
    if pos + blockSize <= |basis| {
      WholeBlockIsFound(basis, blockSize, suffix, k);
      var found := Find(blocks, Window(data, pos, blockSize), 0);
      LiteralAfterCopy(blocks, blockSize, data, pos, [], found.value);
      PrefixIsCopied(basis, blockSize, suffix, k + 1);
    } else {
      Remainder(|basis|, blockSize, k);
      LiteralBound(blocks, blockSize, data, pos, []);
    }
  }

  lemma {:induction false} WholeFileIsCopied(basis: Bytes, blockSize: int, k: nat)
    requires 0 < blockSize && k * blockSize <= |basis|
    ensures LiteralBytes(NaiveScan(Split(basis, blockSize), blockSize, basis, k * blockSize, [])) == |basis| % blockSize
    decreases |basis| - k * blockSize
  {
    var pos := k * blockSize;
    var blocks := Split(basis, blockSize);
    assert (k + 1) * blockSize == pos + blockSize;
    if pos + blockSize <= |basis| {
      assert basis + [] == basis;
      WholeBlockIsFound(basis, blockSize, [], k);
      var found := Find(blocks, Window(basis, pos, blockSize), 0);
      LiteralAfterCopy(blocks, blockSize, basis, pos, [], found.value);
      WholeFileIsCopied(basis, blockSize, k + 1);
    } else {
      Remainder(|basis|, blockSize, k);
      assert [] + basis[pos..] == basis[pos..];
      LiteralBytesFlush(basis[pos..]);
    }
  }

  lemma WholeBlockIsFound(basis: Bytes, blockSize: int, suffix: Bytes, k: nat)
    requires 0 < blockSize && k * blockSize + blockSize <= |basis|
    ensures Find(Split(basis, blockSize), Window(basis + suffix, k * blockSize, blockSize), 0).Some?
  {
    BlockExists(basis, blockSize, k);
    BlockAt(basis, blockSize, k);
    assert (k + 1) * blockSize == k * blockSize + blockSize;
    assert Window(basis + suffix, k * blockSize, blockSize) == Split(basis, blockSize)[k];
  }

  lemma Remainder(n: int, d: int, k: int)
    requires 0 < d && k * d <= n < k * d + d
    ensures n % d == n - k * d
  {
    var q := n / d;
    assert n == q * d + n % d;
    assert (q + 1) * d == q * d + d && (k + 1) * d == k * d + d;
    assert q + 1 <= k ==> (q + 1) * d <= k * d;
    assert k + 1 <= q ==> (k + 1) * d <= q * d;
  }

  /** Appending to a file costs at most the short last block plus what was appended. */
  lemma AppendCostsOnlyTheTail(digest: Bytes -> Bytes, basis: Bytes, blockSize: int, suffix: Bytes)
    requires 0 < blockSize
    requires CollisionFree(digest, basis, blockSize, basis + suffix)
    ensures LiteralBytes(DeltaOf(digest, Sign(digest, basis, blockSize), basis + suffix))
         <= |basis| % blockSize + |suffix|
  {
    FastRefinesNaive(digest, basis, blockSize, basis + suffix);
    PrefixIsCopied(basis, blockSize, suffix, 0);
  }

  /** Resending an unchanged file costs exactly its short last block. */
  lemma UnchangedCostsTheRemainder(digest: Bytes -> Bytes, basis: Bytes, blockSize: int)
    requires 0 < blockSize
    requires CollisionFree(digest, basis, blockSize, basis)
    ensures LiteralBytes(DeltaOf(digest, Sign(digest, basis, blockSize), basis)) == |basis| % blockSize
  {
    FastRefinesNaive(digest, basis, blockSize, basis);
    WholeFileIsCopied(basis, blockSize, 0);
  }

  // ---- GenerateDelta, as the source's nested loops over a weak index ----

  function WeakIndex(blocks: seq<BlockSignature>, upTo: nat): map<int, seq<nat>>
    requires upTo <= |blocks|
  {
    if upTo == 0 then map[]
    else
      var below, weak := WeakIndex(blocks, upTo - 1), blocks[upTo - 1].weak;
      below[weak := (if weak in below then below[weak] else []) + [upTo - 1]]
  }

  /** The blocks below `upTo` with the given weak sum, in ascending order. */
  function Candidates(blocks: seq<BlockSignature>, weak: int, upTo: nat): seq<nat>
    requires upTo <= |blocks|
  {
    if upTo == 0 then []
    else Candidates(blocks, weak, upTo - 1) + if blocks[upTo - 1].weak == weak then [upTo - 1] else []
  }

  lemma {:induction false} WeakIndexHolds(blocks: seq<BlockSignature>, weak: int, upTo: nat)
    requires upTo <= |blocks|
    ensures weak in WeakIndex(blocks, upTo) <==> Candidates(blocks, weak, upTo) != []
    ensures weak in WeakIndex(blocks, upTo) ==> WeakIndex(blocks, upTo)[weak] == Candidates(blocks, weak, upTo)
  {
    if upTo > 0 {
      WeakIndexHolds(blocks, weak, upTo - 1);
    }
  }

  ghost predicate Lists(ids: seq<nat>, blocks: seq<BlockSignature>, weak: int, upTo: nat)
    requires upTo <= |blocks|
  {
    && (forall j :: 0 <= j < |ids| ==> ids[j] < upTo && blocks[ids[j]].weak == weak)
    && (forall j, k :: 0 <= j < k < |ids| ==> ids[j] < ids[k])
    && (forall i :: 0 <= i < upTo && blocks[i].weak == weak ==> i in ids)
  }

  lemma {:induction false} CandidatesList(blocks: seq<BlockSignature>, weak: int, upTo: nat)
    requires upTo <= |blocks|
    ensures Lists(Candidates(blocks, weak, upTo), blocks, weak, upTo)
  {
    if upTo > 0 {
      CandidatesList(blocks, weak, upTo - 1);
      if blocks[upTo - 1].weak == weak {
        ListGrows(Candidates(blocks, weak, upTo - 1), blocks, weak, upTo - 1);
      }
    }
  }

  method BuildWeakIndex(blocks: seq<BlockSignature>) returns (weakIndex: map<int, seq<nat>>)
    ensures weakIndex == WeakIndex(blocks, |blocks|)
  {
    weakIndex := map[];
    for i := 0 to |blocks|
      invariant weakIndex == WeakIndex(blocks, i)
    {
      var weak := blocks[i].weak;
      weakIndex := weakIndex[weak := (if weak in weakIndex then weakIndex[weak] else []) + [i]];
    }
  }

  lemma ListGrows(ids: seq<nat>, blocks: seq<BlockSignature>, weak: int, i: nat)
    requires i < |blocks| && blocks[i].weak == weak && Lists(ids, blocks, weak, i)
    ensures Lists(ids + [i], blocks, weak, i + 1)
  {
    var grown := ids + [i];
    assert grown[|ids|] == i;
    forall j | 0 <= j < i + 1 && blocks[j].weak == weak ensures j in grown {
      if j < i {
        var m :| 0 <= m < |ids| && ids[m] == j;
        assert grown[m] == j;
      }
    }
  }

  /** tryMatch: the first candidate, in index order, that the strong checksum confirms. */
  method TryMatch(digest: Bytes -> Bytes, sig: Signature, weakIndex: map<int, seq<nat>>, window: Bytes, weak: Checksum.WeakChecksum)
    returns (found: Option<nat>)
    requires weakIndex == WeakIndex(sig.blocks, |sig.blocks|)
    requires weak == Checksum.Fresh(window)
    ensures found == Find(sig.blocks, SignBlock(digest, window), 0)
  {
    hide Checksum.Fresh;
    var sum := Checksum.Sum(weak);
    WeakIndexHolds(sig.blocks, sum, |sig.blocks|);
    CandidatesList(sig.blocks, sum, |sig.blocks|);
    if sum !in weakIndex {
      NoCandidate(sig.blocks, [], BlockSignature(sum, digest(window)));
      return None;
    }
    var candidates := weakIndex[sum];
    var strong := digest(window);
    for j := 0 to |candidates|
      invariant forall m :: 0 <= m < j ==> sig.blocks[candidates[m]].strong != strong
    {
      if sig.blocks[candidates[j]].strong == strong {
        FirstCandidateIsLowest(sig.blocks, candidates, j, BlockSignature(sum, strong));
        return Some(candidates[j]);
      }
    }
    NoCandidate(sig.blocks, candidates, BlockSignature(sum, strong));
    return None;
  }

  lemma FirstCandidateIsLowest(blocks: seq<BlockSignature>, candidates: seq<nat>, j: nat, s: BlockSignature)
    requires Lists(candidates, blocks, s.weak, |blocks|)
    requires j < |candidates| && blocks[candidates[j]] == s
    requires forall m :: 0 <= m < j ==> blocks[candidates[m]].strong != s.strong
    ensures Find(blocks, s, 0) == Some(candidates[j])
  {
    forall i | 0 <= i < candidates[j] ensures blocks[i] != s {
      if blocks[i].weak == s.weak {
        var m := PositionBelow(candidates, j, i);
      }
    }
  }

  lemma PositionBelow(ids: seq<nat>, j: nat, i: nat) returns (m: nat)
    requires forall k, l :: 0 <= k < l < |ids| ==> ids[k] < ids[l]
    requires j < |ids| && i in ids && i < ids[j]
    ensures m < j && ids[m] == i
  {
    m :| 0 <= m < |ids| && ids[m] == i;
    assert m != j;
  }

  lemma NoCandidate(blocks: seq<BlockSignature>, candidates: seq<nat>, s: BlockSignature)
    requires Lists(candidates, blocks, s.weak, |blocks|)
    requires forall m :: 0 <= m < |candidates| ==> blocks[candidates[m]].strong != s.strong
    ensures Find(blocks, s, 0) == None
  {
    forall i | 0 <= i < |blocks| ensures blocks[i] != s {
      if blocks[i].weak == s.weak {
        var m :| 0 <= m < |candidates| && candidates[m] == i;
      }
    }
  }

  lemma ScanMatches(digest: Bytes -> Bytes, sig: Signature, data: Bytes, pos: nat, pending: Bytes, ops: seq<Op>, i: nat)
    requires pos + Width(sig.blockSize) <= |data|
    requires Find(sig.blocks, SignBlock(digest, Window(data, pos, Width(sig.blockSize))), 0) == Some(i)
    ensures ops + Scan(digest, sig, data, pos, pending)
         == ops + Flush(pending) + [Copy(i)] + Scan(digest, sig, data, pos + Width(sig.blockSize), [])
  {
    var rest := Scan(digest, sig, data, pos + Width(sig.blockSize), []);
    assert ops + (Flush(pending) + [Copy(i)] + rest) == ops + Flush(pending) + [Copy(i)] + rest;
  }

  lemma ScanMisses(digest: Bytes -> Bytes, sig: Signature, data: Bytes, pos: nat, pending: Bytes)
    requires pos + Width(sig.blockSize) <= |data|
    requires Find(sig.blocks, SignBlock(digest, Window(data, pos, Width(sig.blockSize))), 0) == None
    ensures Scan(digest, sig, data, pos, pending) == Scan(digest, sig, data, pos + 1, pending + [data[pos]])
  {
  }

  lemma ScanEnds(digest: Bytes -> Bytes, sig: Signature, data: Bytes, pos: nat, pending: Bytes)
    requires pos <= |data| < pos + Width(sig.blockSize)
    ensures Scan(digest, sig, data, pos, pending) == Flush(pending + data[pos..])
    ensures pos == |data| ==> pending + data[pos..] == pending
  {
  }

  lemma WindowRolls(data: Bytes, pos: nat, size: nat)
    requires 0 < pos && 0 < size && pos + size <= |data|
    ensures Checksum.Roll(Checksum.Fresh(Window(data, pos - 1, size)), data[pos - 1], data[pos + size - 1])
         == Checksum.Fresh(Window(data, pos, size))
  {
    Checksum.RollIsFresh(Window(data, pos - 1, size), data[pos + size - 1]);
    assert Window(data, pos - 1, size)[1..] + [data[pos + size - 1]] == Window(data, pos, size);
  }

  method GenerateDelta(digest: Bytes -> Bytes, sig: Signature, data: Bytes) returns (ops: seq<Op>)
    ensures ops == DeltaOf(digest, sig, data)
  {
    hide Checksum.Fresh, SignBlock, Scan, Find, WeakIndex;
    var blockSize := if sig.blockSize <= 0 then DEFAULT_BLOCK_SIZE else sig.blockSize;
    var weakIndex := BuildWeakIndex(sig.blocks);
    ops := [];
    var pending: Bytes := [];
    var n, pos := |data|, 0;
    ghost var whole := DeltaOf(digest, sig, data);
    while pos < n
      invariant 0 <= pos <= n
      invariant ops + Scan(digest, sig, data, pos, pending) == whole
    {
      if pos + blockSize > n {
        ScanEnds(digest, sig, data, pos, pending);
        pending := pending + data[pos..];
        break;
      }
      var weak := Checksum.NewWeakChecksum(Window(data, pos, blockSize));
      ghost var start := pos;
      while true
        invariant start <= pos && pos + blockSize <= n
        invariant weak == Checksum.Fresh(Window(data, pos, blockSize))
        invariant ops + Scan(digest, sig, data, pos, pending) == whole
        decreases n - pos
      {
        var found := TryMatch(digest, sig, weakIndex, Window(data, pos, blockSize), weak);
        if found.Some? {
          ScanMatches(digest, sig, data, pos, pending, ops, found.value);
          ops := FlushPending(ops, pending);
          pending := [];
          ops := ops + [Copy(found.value)];
          pos := pos + blockSize;
          break;
        }
        ScanMisses(digest, sig, data, pos, pending);
        pending := pending + [data[pos]];
        pos := pos + 1;
        if pos + blockSize > n {
          break;
        }
        WindowRolls(data, pos, blockSize);
        weak := Checksum.Roll(weak, data[pos - 1], data[pos + blockSize - 1]);
      }
    }
    if pos == n {
      ScanEnds(digest, sig, data, n, pending);
    }
    assert ops + Flush(pending) == whole;
    ops := FlushPending(ops, pending);
  }

  /** flushPending: the literal run so far becomes an operation, unless it is empty. */
  method FlushPending(ops: seq<Op>, pending: Bytes) returns (flushed: seq<Op>)
    ensures flushed == ops + Flush(pending)
  {
    flushed := ops;
    if |pending| != 0 {
      flushed := flushed + [Data(pending)];
    }
  }
}
