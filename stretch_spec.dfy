/** Where the two stretch loops stand from block to block: the state they
    start from, the progress facts after each block, the record of every
    drain so far, and what the engine answered when each drain stopped. */
module StretchSpec {

  import opened Blocks
  import opened Interleaving
  import opened Buffers
  import SoundTouchEngine
  import RubberBandEngine
  import opened DrainPlans

  /** The source buffer is intact and holds the samples `snap`. */
  ghost predicate SourceKept<T>(src: Buffer<T>, snap: seq<seq<T>>)
    reads src.Repr
  {
    src.Valid() && src.Snapshot() == snap
  }

  /** The destination buffer is intact, dest_pos = destPos lies within it,
      and its frames from destPos on are still those of `orig`, its samples
      before the loop. */
  ghost predicate DestFilled<T>(dest: Buffer<T>, orig: seq<seq<T>>, destPos: nat)
    reads dest.Repr
  {
    && dest.Valid()
    && |orig| == dest.channels && Covers(orig, 0, dest.samples)
    && destPos <= dest.samples
    && forall ch, k | 0 <= ch < dest.channels && destPos <= k < dest.samples :: dest.data[ch][k] == orig[ch][k]
  }

  /** The SoundTouch engine has been given the first `blocks` blocks of the
      source `snap` (`length` frames) on top of `input0`, `flushes0` and
      `feeds0`, its input, flush() count and feed calls before the first
      block: their frames, interleaved, one flush() if the last block was
      among them, and the feed calls owed for them, `fed`. */
  ghost predicate SoundTouchFedUpTo<T>(st: SoundTouchEngine.SoundTouch<T>, input0: seq<T>, flushes0: nat,
                                       feeds0: seq<SoundTouchEngine.Call>, snap: seq<seq<T>>, length: nat,
                                       blocks: nat, fed: seq<SoundTouchEngine.Call>)
    reads st
    requires Covers(snap, 0, length)
  {
    && st.input == input0 + Interleave(snap, 0, FedFrames(blocks, length))
    && st.flushes == flushes0 + EndSignals(blocks, length)
    && SoundTouchEngine.Feeds(st.log) == feeds0 + fed
    && SoundTouchEngine.PaidUpTo(fed, blocks * ProcessSize, length)
  }

  /** The RubberBand engine has been given the first `blocks` blocks of the
      source `snap` (`length` frames) on top of `input0`, `processed0`,
      `finals0` and `feeds0`, its input, frames processed, final flags and
      process calls before the first block: every channel's frames of those
      blocks, the final flag once if the last block was among them, and the
      process calls owed for them, `fed`, one per block. */
  ghost predicate RubberBandFedUpTo<T>(st: RubberBandEngine.RubberBand<T>, input0: seq<seq<T>>, processed0: nat,
                                       finals0: nat, feeds0: seq<RubberBandEngine.Call>, snap: seq<seq<T>>,
                                       length: nat, blocks: nat, fed: seq<RubberBandEngine.Call>)
    reads st
    requires Covers(snap, 0, length) && |input0| == |snap|
  {
    && |fed| == blocks
    && st.input == Concat(input0, Slice(snap, 0, FedFrames(blocks, length)))
    && st.processed == processed0 + FedFrames(blocks, length)
    && st.finals == finals0 + EndSignals(blocks, length)
    && RubberBandEngine.Feeds(st.log) == feeds0 + fed
    && RubberBandEngine.PaidUpTo(fed, blocks * ProcessSize, length)
  }

  /** The state of the engine and the two buffers when the SoundTouch loop
      starts: source and destination samples, the engine's input, flush()
      count, feed calls, frames received, samples handed out and call log. */
  datatype SoundTouchStart<T> = SoundTouchStart(snap: seq<seq<T>>, dest: seq<seq<T>>, input: seq<T>, flushes: nat,
                                                feeds: seq<SoundTouchEngine.Call>, received: nat, delivered: seq<T>,
                                                log: seq<SoundTouchEngine.Call>)

  /** Where the SoundTouch feed/drain loop stands after the |marks| blocks
      before srcPos. The source is unchanged. The engine has been given the
      interleaved source frames of those blocks and one flush() if the last
      block was among them. Its feed calls are the ones owed for those blocks
      (`fed`). The destination's first destPos frames, interleaved, are what
      it has handed out, and the frames from destPos on are as they were.
      The last drain left dest_pos at destPos. */
  ghost predicate SoundTouchProgress<T>(src: Buffer<T>, st: SoundTouchEngine.SoundTouch<T>, dest: Buffer<T>,
                                        start: SoundTouchStart<T>, srcPos: nat, destPos: nat,
                                        fed: seq<SoundTouchEngine.Call>, marks: seq<nat>)
    reads src.Repr, st, dest.Repr
  {
    && SourceKept(src, start.snap) && DestFilled(dest, start.dest, destPos)
    && srcPos == |marks| * ProcessSize
    && SoundTouchFedUpTo(st, start.input, start.flushes, start.feeds, start.snap, src.samples, |marks|, fed)
    && st.received == start.received + destPos
    && st.delivered == start.delivered + Interleave(dest.Snapshot(), 0, destPos)
    && (if marks == [] then destPos == 0 else marks[|marks| - 1] == destPos)
  }

  /** Where the SoundTouch loop stands once the block at srcPos has been
      fed and before it is drained: as in SoundTouchProgress, but with that
      block's frames (and flush(), if it is the last) submitted and its feed
      calls paid. */
  ghost predicate SoundTouchFed<T>(src: Buffer<T>, st: SoundTouchEngine.SoundTouch<T>, dest: Buffer<T>,
                                   start: SoundTouchStart<T>, srcPos: nat, destPos: nat,
                                   fed: seq<SoundTouchEngine.Call>, marks: seq<nat>)
    reads src.Repr, st, dest.Repr
  {
    && SourceKept(src, start.snap) && DestFilled(dest, start.dest, destPos)
    && srcPos == |marks| * ProcessSize && srcPos < src.samples
    && SoundTouchFedUpTo(st, start.input, start.flushes, start.feeds, start.snap, src.samples, |marks| + 1, fed)
    && st.received == start.received + destPos
    && st.delivered == start.delivered + Interleave(dest.Snapshot(), 0, destPos)
    && (if marks == [] then destPos == 0 else marks[|marks| - 1] == destPos)
  }

  /** The drain after each block recorded in `marks` made the calls recorded
      in `drains`: the drain after block i started where the one before it
      stopped (at 0 for the first) and is the drain plan from there. */
  ghost predicate SoundTouchDrainsPlanned<T>(ready: (seq<T>, nat, nat) -> nat, input0: seq<T>, flushes0: nat,
                                             received0: nat, snap: seq<seq<T>>, length: nat, destLen: nat,
                                             marks: seq<nat>, drains: seq<seq<SoundTouchEngine.Call>>)
    requires Covers(snap, 0, length)
  {
    && |drains| == |marks|
    && forall i {:trigger DrainFrom(marks, i)} | 0 <= i < |marks| ::
         SoundTouchDrainRecorded(ready, input0, flushes0, received0, snap, length, destLen, i,
                                 DrainFrom(marks, i), drains[i], marks[i])
  }

  /** What numSamples() answers once `blocks` blocks have been submitted and
      `taken` frames received, counting from the engine's state before the
      first block. */
  ghost function ReadyAfter<T>(ready: (seq<T>, nat, nat) -> nat, input0: seq<T>, flushes0: nat, received0: nat,
                               snap: seq<seq<T>>, length: nat, blocks: nat, taken: nat): nat
    requires Covers(snap, 0, length)
  {
    ready(input0 + Interleave(snap, 0, FedFrames(blocks, length)), flushes0 + EndSignals(blocks, length),
          received0 + taken)
  }

  /** The drain after each block recorded in `marks` left dest_pos at
      marks[i]. Later drains never move it back, no drain moves it past the
      destination length `destLen`, and each drain stopped on a full
      destination or on numSamples() answering 0. That answer is the engine's
      ready function applied to three things: the input after block i, the
      flush() calls sent by then, and the frames received. The inputs are
      counted from `input0`, `flushes0` and `received0`, the engine's state
      before the first block. */
  ghost predicate SoundTouchDrained<T>(ready: (seq<T>, nat, nat) -> nat, input0: seq<T>, flushes0: nat, received0: nat,
                                       snap: seq<seq<T>>, length: nat, destLen: nat, marks: seq<nat>)
    requires Covers(snap, 0, length)
  {
    && (forall i, j | 0 <= i < j < |marks| :: marks[i] <= marks[j])
    && (forall i | 0 <= i < |marks| :: marks[i] <= destLen)
    && (forall i | 0 <= i < |marks| ::
          marks[i] == destLen || ReadyAfter(ready, input0, flushes0, received0, snap, length, i + 1, marks[i]) == 0)
  }

  /** The state of the engine and the two buffers when the RubberBand loop
      starts: source and destination samples, the engine's input, frames
      processed, final flags, process calls, frames retrieved and samples
      handed out. */
  datatype RubberBandStart<T> = RubberBandStart(snap: seq<seq<T>>, dest: seq<seq<T>>, input: seq<seq<T>>,
                                                processed: nat, finals: nat, feeds: seq<RubberBandEngine.Call>,
                                                retrieved: nat, delivered: seq<seq<T>>,
                                                log: seq<RubberBandEngine.Call>)

  /** Where the RubberBand feed/drain loop stands after the |marks| blocks
      before srcPos. The source is unchanged. Every channel of the engine's
      input is that channel's source frames of those blocks. The final flag
      was sent once if the last block was among them. The process calls are
      the ones owed for those blocks (`fed`), one per block. The destination's
      first destPos frames of every channel are what the engine has handed
      out, and the frames from destPos on are as they were. The last drain
      left dest_pos at destPos. */
  ghost predicate RubberBandProgress<T>(src: Buffer<T>, st: RubberBandEngine.RubberBand<T>, dest: Buffer<T>,
                                        start: RubberBandStart<T>, srcPos: nat, destPos: nat,
                                        fed: seq<RubberBandEngine.Call>, marks: seq<nat>)
    reads src.Repr, st, dest.Repr
  {
    && SourceKept(src, start.snap) && DestFilled(dest, start.dest, destPos) && st.Valid()
    && |start.input| == src.channels && |start.delivered| == dest.channels
    && srcPos == |marks| * ProcessSize
    && RubberBandFedUpTo(st, start.input, start.processed, start.finals, start.feeds, start.snap, src.samples,
                         |marks|, fed)
    && st.retrieved == start.retrieved + destPos
    && st.delivered == Concat(start.delivered, Slice(dest.Snapshot(), 0, destPos))
    && (if marks == [] then destPos == 0 else marks[|marks| - 1] == destPos)
  }

  /** Where the RubberBand loop stands once the block at srcPos has been
      fed and before it is drained: as in RubberBandProgress, but with that
      block's frames (and final flag, if it is the last) submitted and its
      process call paid. */
  ghost predicate RubberBandFed<T>(src: Buffer<T>, st: RubberBandEngine.RubberBand<T>, dest: Buffer<T>,
                                   start: RubberBandStart<T>, srcPos: nat, destPos: nat,
                                   fed: seq<RubberBandEngine.Call>, marks: seq<nat>)
    reads src.Repr, st, dest.Repr
  {
    && SourceKept(src, start.snap) && DestFilled(dest, start.dest, destPos) && st.Valid()
    && |start.input| == src.channels && |start.delivered| == dest.channels
    && srcPos == |marks| * ProcessSize && srcPos < src.samples
    && RubberBandFedUpTo(st, start.input, start.processed, start.finals, start.feeds, start.snap, src.samples,
                         |marks| + 1, fed)
    && st.retrieved == start.retrieved + destPos
    && st.delivered == Concat(start.delivered, Slice(dest.Snapshot(), 0, destPos))
    && (if marks == [] then destPos == 0 else marks[|marks| - 1] == destPos)
  }

  /** The drain after each block recorded in `marks` made the calls recorded
      in `drains`: the drain after block i started where the one before it
      stopped (at 0 for the first) and is the drain plan from there. The first
      `n` of them went on to the next block; the others returned. */
  ghost predicate RubberBandDrainsPlanned<T>(avail: (seq<seq<T>>, nat, nat) -> RubberBandEngine.Availability,
                                             input0: seq<seq<T>>, finals0: nat, retrieved0: nat, snap: seq<seq<T>>,
                                             length: nat, destLen: nat, marks: seq<nat>,
                                             drains: seq<seq<RubberBandEngine.Call>>, n: nat)
    requires Covers(snap, 0, length) && |input0| == |snap|
  {
    && |drains| == |marks| && n <= |marks|
    && forall i {:trigger DrainFrom(marks, i)} | 0 <= i < |marks| ::
         RubberBandDrainRecorded(avail, input0, finals0, retrieved0, snap, length, destLen, i,
                                 DrainFrom(marks, i), drains[i], marks[i], n <= i)
  }

  /** What available() answers once `blocks` blocks have been submitted and
      `taken` frames retrieved, counting from the engine's state before the
      first block. */
  ghost function AvailableAfter<T>(avail: (seq<seq<T>>, nat, nat) -> RubberBandEngine.Availability, input0: seq<seq<T>>,
                                   finals0: nat, retrieved0: nat, snap: seq<seq<T>>, length: nat, blocks: nat, taken: nat)
    : RubberBandEngine.Availability
    requires Covers(snap, 0, length) && |input0| == |snap|
  {
    avail(Concat(input0, Slice(snap, 0, FedFrames(blocks, length))), finals0 + EndSignals(blocks, length),
          retrieved0 + taken)
  }

  /** The drain after each block recorded in `marks` left dest_pos at
      marks[i]. Later drains never move it back, and no drain moves it past the
      destination length `destLen`. Each of the first `n` drains went on to
      the next block because available() answered 0. */
  ghost predicate RubberBandDrained<T>(avail: (seq<seq<T>>, nat, nat) -> RubberBandEngine.Availability,
                                       input0: seq<seq<T>>, finals0: nat, retrieved0: nat, snap: seq<seq<T>>,
                                       length: nat, destLen: nat, marks: seq<nat>, n: nat)
    requires Covers(snap, 0, length) && |input0| == |snap|
  {
    && n <= |marks|
    && (forall i, j | 0 <= i < j < |marks| :: marks[i] <= marks[j])
    && (forall i | 0 <= i < |marks| :: marks[i] <= destLen)
    && (forall i | 0 <= i < n :: AvailableAfter(avail, input0, finals0, retrieved0, snap, length, i + 1, marks[i]) == 0)
  }
}
