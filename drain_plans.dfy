/** What the drains of the two stretch loops do, and how much the feed loop
    has submitted by then: the frames and end-of-input signals sent by the
    first blocks, each drain loop as a plan of calls over what the engine
    answers, and the record of the drain after one block. */
module DrainPlans {

  import opened Blocks
  import opened Interleaving
  import opened Buffers
  import SoundTouchEngine
  import RubberBandEngine

  /** The source frames submitted by the first `blocks` passes of the feed
      loop over a source of `length` frames. */
  function FedFrames(blocks: nat, length: nat): nat
  {
    Min(blocks * ProcessSize, length)
  }

  /** The end-of-input signals (SoundTouch's flush(), RubberBand's final flag)
      sent by the first `blocks` passes of the feed loop: one once the last
      block is among them, none for an empty source. */
  function EndSignals(blocks: nat, length: nat): nat
  {
    if 0 < length <= blocks * ProcessSize then 1 else 0
  }

  /** What one drain loop does, from the dest_pos where it starts: the
      receive (or retrieve) calls it makes, in order, the dest_pos it stops
      at, and whether stretch() returns there instead of feeding on. */
  datatype DrainPlan<C> = DrainPlan(calls: seq<C>, end: nat, early: bool)

  /** The SoundTouch drain loop run from an engine with the given input,
      flush() count and frames received, at dest_pos `pos` of a destination
      `destLen` frames long. Each step receives min(numSamples(), ProcessSize,
      room left) frames; the loop stops when that is 0, that is on a full
      destination or on numSamples() answering 0, and never returns early. */
  function SoundTouchDrainPlan<T>(ready: (seq<T>, nat, nat) -> nat, input: seq<T>, flushes: nat, received: nat,
                                  pos: nat, destLen: nat): (r: DrainPlan<SoundTouchEngine.Call>)
    requires pos <= destLen
    ensures pos <= r.end <= destLen && !r.early
    ensures r.end == destLen || ready(input, flushes, received + (r.end - pos)) == 0
    decreases destLen - pos
  {
    var n := ReceiveCount(ClampReady(ready(input, flushes, received)), pos, destLen);
    if n == 0 then DrainPlan([], pos, false)
    else
      var rest := SoundTouchDrainPlan(ready, input, flushes, received + n, pos + n, destLen);
      DrainPlan([SoundTouchEngine.Receive(n)] + rest.calls, rest.end, false)
  }

  /** The RubberBand drain loop run from an engine with the given input,
      final-flag count and frames retrieved, at dest_pos `pos` of a
      destination `destLen` frames long. Each step retrieves min(available(),
      ProcessSize, room left) frames. It returns early on available()
      answering -1, or on frames ready when the destination is full, and
      goes on to the next block when available() answers 0. */
  function RubberBandDrainPlan<T>(avail: (seq<seq<T>>, nat, nat) -> RubberBandEngine.Availability, input: seq<seq<T>>,
                                  finals: nat, retrieved: nat, pos: nat, destLen: nat): (r: DrainPlan<RubberBandEngine.Call>)
    requires pos <= destLen
    ensures pos <= r.end <= destLen
    ensures var answer := avail(input, finals, retrieved + (r.end - pos));
      if r.early then answer == -1 || (r.end == destLen && answer > 0) else answer == 0
    decreases destLen - pos
  {
    var numReady := ClampReady(avail(input, finals, retrieved));
    var n := if numReady == -1 then 0 else ReceiveCount(numReady, pos, destLen);
    // Nothing to take: on -1 or on frames ready for a full destination
    // stretch() returns; on 0 it goes on to the next block.
    if n == 0 then DrainPlan([], pos, numReady != 0)
    else
      var rest := RubberBandDrainPlan(avail, input, finals, retrieved + n, pos + n, destLen);
      DrainPlan([RubberBandEngine.Retrieve(n)] + rest.calls, rest.end, rest.early)
  }

  /** Where the drain after block i (counting from 0) started: where the
      drain before it stopped, or at dest_pos 0 for the first block. */
  function DrainFrom(marks: seq<nat>, i: nat): nat
    requires i <= |marks|
  {
    if i == 0 then 0 else marks[i - 1]
  }

  /** The drain after block i (counting from 0), which started at dest_pos
      `from`, made the calls `calls` and stopped at `end`: they are those of
      the drain plan run from `from`, with the engine's input and flush()
      count after that block and the frames received by then, all counted
      from `input0`, `flushes0` and `received0`, the engine's state before
      the first block. */
  ghost predicate SoundTouchDrainRecorded<T>(ready: (seq<T>, nat, nat) -> nat, input0: seq<T>, flushes0: nat,
                                             received0: nat, snap: seq<seq<T>>, length: nat, destLen: nat, i: nat,
                                             from: nat, calls: seq<SoundTouchEngine.Call>, end: nat)
    requires Covers(snap, 0, length)
  {
    && from <= destLen
    && var plan := SoundTouchDrainPlan(ready, input0 + Interleave(snap, 0, FedFrames(i + 1, length)),
                                       flushes0 + EndSignals(i + 1, length), received0 + from, from, destLen);
       calls == plan.calls && end == plan.end
  }

  /** The drain after block i (counting from 0), which started at dest_pos
      `from`, made the calls `calls`, stopped at `end`, and returned from
      stretch() there exactly when `early` holds: all as the drain plan run
      from `from`, with the engine's input and final-flag count after that
      block and the frames retrieved by then, all counted from `input0`,
      `finals0` and `retrieved0`, the engine's state before the first block. */
  ghost predicate RubberBandDrainRecorded<T>(avail: (seq<seq<T>>, nat, nat) -> RubberBandEngine.Availability,
                                             input0: seq<seq<T>>, finals0: nat, retrieved0: nat, snap: seq<seq<T>>,
                                             length: nat, destLen: nat, i: nat, from: nat,
                                             calls: seq<RubberBandEngine.Call>, end: nat, early: bool)
    requires Covers(snap, 0, length) && |input0| == |snap|
  {
    && from <= destLen
    && var plan := RubberBandDrainPlan(avail, Concat(input0, Slice(snap, 0, FedFrames(i + 1, length))),
                                       finals0 + EndSignals(i + 1, length), retrieved0 + from, from, destLen);
       calls == plan.calls && end == plan.end && early == plan.early
  }
}
