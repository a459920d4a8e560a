/**
 * Block splitting and signatures: internal/sync/blocks.go and
 * internal/sync/signature.go. MD5 is the parameter `digest`.
 */
module Blocks {
  import opened Prelude
  import Checksum

  const DEFAULT_BLOCK_SIZE := 700

  datatype BlockSignature = BlockSignature(weak: int, strong: Bytes)

  datatype Signature = Signature(blockSize: int, blocks: seq<BlockSignature>)

  function Min(x: int, y: int): int {
    if x < y then x else y
  }

  /** Splits data after every `size` bytes; a size of zero or less gives no blocks at all. */
  function Split(data: Bytes, size: int): seq<Bytes> {
    if size <= 0 || data == [] then []
    else if |data| <= size then [data]
    else [data[..size]] + Split(data[size..], size)
  }

  /** Block k of the split is the bytes from k * size up to the next boundary or the end. */
  lemma {:induction false} BlockAt(data: Bytes, size: int, k: nat)
    requires k < |Split(data, size)|
    ensures 0 < size && k * size < |data|
    ensures Split(data, size)[k] == data[k * size..Min((k + 1) * size, |data|)]
  {
    if |data| <= size {
      assert k == 0;
    } else if k == 0 {
      assert Split(data, size)[0] == data[..size];
    } else {
      var rest := data[size..];
      BlockAt(rest, size, k - 1);
      assert k * size == (k - 1) * size + size;
      assert (k + 1) * size == k * size + size;
      SliceOfRest(data, size, (k - 1) * size, Min(k * size, |rest|));
    }
  }

  lemma SliceOfRest(data: Bytes, size: nat, lo: nat, hi: nat)
    requires size <= |data| && lo <= hi <= |data| - size
    ensures data[size..][lo..hi] == data[size + lo..size + hi]
  {
  }

  /** Every boundary inside the data starts a block. */
  lemma {:induction false} BlockExists(data: Bytes, size: int, k: nat)
    requires 0 < size && k * size < |data|
    ensures k < |Split(data, size)|
  {
    if k == 0 {
    } else {
      assert size <= k * size;
      assert k * size == size + (k - 1) * size;
      BlockExists(data[size..], size, k - 1);
    }
  }

  /** The blocks in order are the data, when the size is usable. */
  lemma {:induction false} SplitLosesNothing(data: Bytes, size: int)
    requires 0 < size
    ensures Concat(Split(data, size)) == data
  {
    if |data| <= size {
      if data != [] {
        assert Concat([data]) == data + Concat([]);
      }
    } else {
      SplitLosesNothing(data[size..], size);
      assert Split(data, size)[1..] == Split(data[size..], size);
    }
  }

  function Concat(parts: seq<Bytes>): Bytes {
    if parts == [] then [] else parts[0] + Concat(parts[1..])
  }

  method SplitBlocks(data: Bytes, size: int) returns (blocks: seq<Bytes>)
    ensures blocks == Split(data, size)
  {
    if size <= 0 {
      return [];
    }
    blocks := [];
    var start := 0;
    while start < |data|
      invariant 0 <= start
      invariant start <= |data| ==> blocks + Split(data[start..], size) == Split(data, size)
      invariant |data| < start ==> blocks == Split(data, size)
      decreases |data| - start
    {
      var end := start + size;
      if end > |data| {
        end := |data|;
      }
      ghost var rest := data[start..];
      if |rest| > size {
        assert rest[..size] == data[start..end] && rest[size..] == data[end..];
        assert blocks + ([rest[..size]] + Split(rest[size..], size)) == blocks + [rest[..size]] + Split(rest[size..], size);
      } else {
        assert rest == data[start..end];
        assert data[|data|..] == [];
      }
      blocks := blocks + [data[start..end]];
      start := start + size;
    }
  }

  // ---- Signatures ----

  function SignBlock(digest: Bytes -> Bytes, block: Bytes): BlockSignature {
    BlockSignature(Checksum.Sum(Checksum.Fresh(block)), digest(block))
  }

  function SignBlocks(digest: Bytes -> Bytes, blocks: seq<Bytes>): (s: seq<BlockSignature>)
    ensures |s| == |blocks|
    ensures forall i :: 0 <= i < |blocks| ==> s[i] == SignBlock(digest, blocks[i])
  {
    if blocks == [] then [] else [SignBlock(digest, blocks[0])] + SignBlocks(digest, blocks[1..])
  }

  function Sign(digest: Bytes -> Bytes, data: Bytes, size: int): Signature {
    Signature(size, SignBlocks(digest, Split(data, size)))
  }

  method GenerateSignatureWithBlockSize(digest: Bytes -> Bytes, data: Bytes, size: int) returns (sig: Signature)
    ensures sig == Sign(digest, data, size)
  {
    var blocks := SplitBlocks(data, size);
    var signed: seq<BlockSignature> := [];
    for i := 0 to |blocks|
      invariant |signed| == i
      invariant forall j :: 0 <= j < i ==> signed[j] == SignBlock(digest, blocks[j])
    {
      var weak := Checksum.NewWeakChecksum(blocks[i]);
      signed := signed + [BlockSignature(Checksum.Sum(weak), digest(blocks[i]))];
    }
    sig := Signature(size, signed);
  }
}
