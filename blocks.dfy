/** Block arithmetic shared by both stretch adapters: the fixed block size, the
    clamps applied to an engine's ready count, and the partition of the source
    into the blocks the feed loop submits. */
module Blocks {

  /** kProcessSize: frames per block submitted to, or drained from, an engine. */
  const ProcessSize: nat := 2048

  function Min(a: int, b: int): int {
    if a <= b then a else b
  }

  /** Frames in the block that starts at `pos`: std::min(pos + kProcessSize, length) - pos. */
  function BlockLen(pos: nat, length: nat): (n: nat)
    requires pos < length
    ensures 1 <= n <= ProcessSize
    ensures pos + n <= length
    ensures n == ProcessSize || pos + n == length
    ensures pos + n == length <==> length - pos <= ProcessSize
  {
    Min(pos + ProcessSize, length) - pos
  }

  /** The engine's ready count clamped to one block: std::min(ready, kProcessSize).
      The clamp never turns a count into the sentinel -1 or into 0, nor the reverse. */
  function ClampReady(ready: int): (r: int)
    ensures r <= ready && r <= ProcessSize
    ensures r == ready || r == ProcessSize
    ensures r == -1 <==> ready == -1
    ensures r == 0 <==> ready == 0
  {
    Min(ready, ProcessSize)
  }

  /** Frames taken in one drain step, given the clamped ready count:
      std::min(destPos + numReady, destLen) - destPos. It is as many as are ready,
      unless the destination has less room left, and it is zero exactly when
      nothing is ready or the destination is full. */
  function ReceiveCount(numReady: nat, destPos: nat, destLen: nat): (n: nat)
    requires destPos <= destLen
    ensures n <= numReady && destPos + n <= destLen
    ensures n == numReady || destPos + n == destLen
    ensures n == 0 <==> numReady == 0 || destPos == destLen
  {
    Min(destPos + numReady, destLen) - destPos
  }

  /** One block of the feed loop: its first frame, its size, and whether it is
      the last one (the `finished` flag). */
  datatype Block = Block(start: nat, len: nat, final: bool)

  /** The blocks the feed loop submits when it starts at `pos` and steps by
      ProcessSize while pos < length. */
  function Partition(pos: nat, length: nat): seq<Block>
    decreases if pos < length then length - pos else 0
  {
    if pos >= length then []
    else
      var n := BlockLen(pos, length);
      [Block(pos, n, pos + n == length)] + Partition(pos + ProcessSize, length)
  }

  /** The blocks tile [pos, length) in order: the first starts at pos, each
      starts where the previous ended, the last ends at length, every block
      holds between 1 and ProcessSize frames and only the last may be short. */
  lemma {:induction false} PartitionTiles(pos: nat, length: nat)
    ensures var p := Partition(pos, length);
      && (p == [] <==> pos >= length)
      && (p != [] ==> p[0].start == pos && p[|p| - 1].start + p[|p| - 1].len == length)
      && (forall i | 0 <= i < |p| :: 1 <= p[i].len <= ProcessSize)
      && (forall i | 0 <= i < |p| - 1 :: p[i].len == ProcessSize)
      && (forall i | 0 <= i < |p| - 1 :: p[i].start + p[i].len == p[i + 1].start)
    decreases if pos < length then length - pos else 0
  {
    if pos < length {
      var n := BlockLen(pos, length);
      var rest := Partition(pos + ProcessSize, length);
      PartitionTiles(pos + ProcessSize, length);
      assert Partition(pos, length) == [Block(pos, n, pos + n == length)] + rest;
      if rest != [] {
        assert pos + ProcessSize < length;
      }
    }
  }

  /** The end-of-input flag is set on the last block and on no other; an empty
      source yields no block at all. */
  lemma {:induction false} PartitionFinalIsLast(pos: nat, length: nat)
    ensures var p := Partition(pos, length);
      && (|p| == 0 <==> pos >= length)
      && (forall i | 0 <= i < |p| :: p[i].final <==> i == |p| - 1)
    decreases if pos < length then length - pos else 0
  {
    if pos < length {
      var n := BlockLen(pos, length);
      var rest := Partition(pos + ProcessSize, length);
      PartitionFinalIsLast(pos + ProcessSize, length);
      assert Partition(pos, length) == [Block(pos, n, pos + n == length)] + rest;
      assert rest == [] <==> pos + n == length;
    }
  }

  /** A loop that leaves after `k` steps of ProcessSize from `pos`, having been
      below `length` before its last step, ran once per block. */
  lemma {:induction false} PartitionBlocks(pos: nat, length: nat, k: nat)
    requires length <= pos + k * ProcessSize
    requires k == 0 || pos + (k - 1) * ProcessSize < length
    ensures |Partition(pos, length)| == k
    decreases k
  {
    if k > 0 {
      var rest := Partition(pos + ProcessSize, length);
      assert Partition(pos, length) == [Block(pos, BlockLen(pos, length), pos + BlockLen(pos, length) == length)] + rest;
      if k == 1 {
        assert rest == [];
      } else {
        assert pos + (k - 1) * ProcessSize == pos + ProcessSize + (k - 2) * ProcessSize;
        PartitionBlocks(pos + ProcessSize, length, k - 1);
      }
    }
  }

  /** The block count is the source length divided by ProcessSize, rounded up. */
  lemma {:induction false} PartitionCount(pos: nat, length: nat)
    requires pos <= length
    ensures |Partition(pos, length)| == (length - pos + ProcessSize - 1) / ProcessSize
    decreases length - pos
  {
    if pos < length {
      if pos + ProcessSize <= length {
        PartitionCount(pos + ProcessSize, length);
      } else {
        assert Partition(pos + ProcessSize, length) == [];
      }
    }
  }
}
