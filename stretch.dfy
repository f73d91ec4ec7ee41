/** The two `stretch` specialisations: each drives a streaming time-stretch
    engine over a whole source buffer, feeding it blocks of at most ProcessSize
    frames, signalling the end of input on the last block, and draining ready
    output into a destination buffer whose length is fixed in advance. */
module Stretch {

  import opened Blocks
  import opened Interleaving
  import opened Buffers
  import opened CallLogs
  import SoundTouchEngine
  import RubberBandEngine
  import opened DrainPlans
  import opened StretchSpec

  /** (int)(samples * stretch_amount): the destination frame count, the source
      length scaled by the stretch ratio and rounded down. */
  function DestLength(samples: nat, stretchAmount: real): (n: nat)
    requires stretchAmount >= 0.0
    ensures n as real <= samples as real * stretchAmount < n as real + 1.0
  {
    (samples as real * stretchAmount).Floor
  }

  /** Copies frames [srcPos, srcPos + frames) of every channel of `src` into the
      front of `block`, interleaved: src_interleaved[smp * C + ch] = src[ch][srcPos + smp]. */
  method InterleaveBlock<T>(src: Buffer<T>, srcPos: nat, frames: nat, block: array<T>)
    requires src.Valid() && srcPos + frames <= src.samples
    requires frames * src.channels <= block.Length && block !in src.Repr
    modifies block
    ensures block[..frames * src.channels] == Interleave(src.Snapshot(), srcPos, frames)
    ensures forall i | frames * src.channels <= i < block.Length :: block[i] == old(block[i])
  {
    var channels := src.channels;
    ghost var snap := src.Snapshot();
    for ch := 0 to channels
      invariant forall c, s | 0 <= c < ch && 0 <= s < frames && Slot(s, c, channels) < block.Length ::
        block[Slot(s, c, channels)] == snap[c][srcPos + s]
      invariant forall i | frames * channels <= i < block.Length :: block[i] == old(block[i])
    {
      for smp := 0 to frames
        invariant forall c, s | ((0 <= c < ch && 0 <= s < frames) || (c == ch && 0 <= s < smp)) && Slot(s, c, channels) < block.Length ::
          block[Slot(s, c, channels)] == snap[c][srcPos + s]
        invariant forall i | frames * channels <= i < block.Length :: block[i] == old(block[i])
      {
        SlotBelow(smp, ch, channels, frames);
        forall c, s | 0 <= c < channels && Slot(s, c, channels) == Slot(smp, ch, channels)
          ensures c == ch && s == smp
        {
          SlotInjective(s, c, smp, ch, channels);
        }
        block[Slot(smp, ch, channels)] := src.data[ch][srcPos + smp];
      }
    }
    InterleaveUnique(snap, srcPos, frames, block[..frames * channels]);
  }

  /** Copies the interleaved block at the front of `block` into frames
      [destPos, destPos + frames) of every channel of `dest`:
      dest[ch][destPos + smp] = dest_interleaved[smp * C + ch]. Nothing else in
      `dest` changes, and the destination frames read back, interleaved, as the block. */
  method DeinterleaveBlock<T>(block: array<T>, frames: nat, dest: Buffer<T>, destPos: nat)
    requires dest.Valid() && destPos + frames <= dest.samples
    requires frames * dest.channels <= block.Length && block !in dest.Repr
    modifies dest.Repr
    ensures forall ch | 0 <= ch < dest.channels ::
      dest.data[ch][..] == old(dest.data[ch][..destPos]) + Deinterleave(block[..], dest.channels, frames)[ch]
                           + old(dest.data[ch][destPos + frames..])
    ensures Interleave(dest.Snapshot(), destPos, frames) == block[..frames * dest.channels]
    ensures Slice(dest.Snapshot(), 0, destPos) == old(Slice(dest.Snapshot(), 0, destPos))
    ensures forall ch, k | 0 <= ch < dest.channels && 0 <= k < dest.samples && !(destPos <= k < destPos + frames) ::
      dest.data[ch][k] == old(dest.data[ch][k])
  {
    var channels := dest.channels;
    ghost var d := Deinterleave(block[..], channels, frames);
    for ch := 0 to channels
      invariant forall c, k | 0 <= c < channels && 0 <= k < dest.samples ::
        dest.data[c][k] == if c < ch && destPos <= k < destPos + frames then d[c][k - destPos] else old(dest.data[c][k])
    {
      for smp := 0 to frames
        invariant forall c, k | 0 <= c < channels && 0 <= k < dest.samples ::
          dest.data[c][k] == if (c < ch && destPos <= k < destPos + frames) || (c == ch && destPos <= k < destPos + smp)
                             then d[c][k - destPos] else old(dest.data[c][k])
      {
        SlotBelow(smp, ch, channels, frames);
        dest.data[ch][destPos + smp] := block[Slot(smp, ch, channels)];
      }
    }
    forall ch | 0 <= ch < channels
      ensures dest.data[ch][..] == old(dest.data[ch][..destPos]) + d[ch] + old(dest.data[ch][destPos + frames..])
      ensures dest.data[ch][destPos..destPos + frames] == d[ch][0..frames]
    {
    }
    InterleaveSameFrames(dest.Snapshot(), destPos, d, 0, frames);
    InterleaveDeinterleave(block[..], channels, frames);
    ghost var prefix := Slice(dest.Snapshot(), 0, destPos);
    forall ch | 0 <= ch < channels
      ensures prefix[ch] == old(dest.data[ch][..destPos])
    {
      assert dest.data[ch][..destPos] == dest.data[ch][..][..destPos];
    }
  }

  /** putSamples of the block at srcPos: its num_send frames, interleaved
      through `scratch`. */
  method PutBlockSoundTouch<T>(src: Buffer<T>, srcPos: nat, scratch: array<T>, st: SoundTouchEngine.SoundTouch<T>)
    returns (numSend: nat)
    requires src.Valid() && st.channels == src.channels && srcPos < src.samples
    requires scratch.Length == src.channels * ProcessSize && scratch !in src.Repr
    modifies st, scratch
    ensures numSend == BlockLen(srcPos, src.samples)
    ensures st.input == old(st.input) + Interleave(src.Snapshot(), srcPos, numSend)
    ensures st.log == old(st.log) + [SoundTouchEngine.Put(numSend)]
    ensures st.flushes == old(st.flushes) && st.received == old(st.received) && st.delivered == old(st.delivered)
  {
    numSend := BlockLen(srcPos, src.samples);
    MulMonotone(numSend, ProcessSize, src.channels);
    InterleaveBlock(src, srcPos, numSend, scratch);
    st.PutSamples(scratch, numSend);
  }

  /** The feed half of one pass of the SoundTouch outer loop at srcPos: the
      block [srcPos, srcPos + num_send) is interleaved into `scratch` and
      submitted, followed by flush() when it ends the source. What the engine
      has been given goes from the |marks| blocks before srcPos to one more
      (SoundTouchFedUpTo): `input0`, `flushes0` and `feeds0` are the engine's
      input, flush() count and feed calls before the first block, `fed` the
      feed calls owed for the blocks before srcPos. */
  method FeedSoundTouch<T>(src: Buffer<T>, srcPos: nat, scratch: array<T>, st: SoundTouchEngine.SoundTouch<T>,
                           ghost snap: seq<seq<T>>, ghost marks: seq<nat>, ghost input0: seq<T>, ghost flushes0: nat,
                           ghost feeds0: seq<SoundTouchEngine.Call>, ghost fed: seq<SoundTouchEngine.Call>)
    returns (ghost newFed: seq<SoundTouchEngine.Call>)
    requires src.Valid() && st.channels == src.channels && srcPos < src.samples && src.Snapshot() == snap
    requires scratch.Length == src.channels * ProcessSize && scratch !in src.Repr
    requires srcPos == |marks| * ProcessSize
    requires SoundTouchFedUpTo(st, input0, flushes0, feeds0, snap, src.samples, |marks|, fed)
    modifies st, scratch
    ensures src.Snapshot() == snap
    ensures SoundTouchFedUpTo(st, input0, flushes0, feeds0, snap, src.samples, |marks| + 1, newFed)
    ensures st.received == old(st.received) && st.delivered == old(st.delivered)
    // This block's calls: putSamples of its frames, then flush() if it is the last.
    ensures var n := BlockLen(srcPos, src.samples);
      && st.input == old(st.input) + Interleave(snap, srcPos, n)
      && st.flushes == old(st.flushes) + (if srcPos + n == src.samples then 1 else 0)
      && st.log == old(st.log) + SoundTouchEngine.PutFlush(n, srcPos + n == src.samples)
  {
    var length := src.samples;
    ghost var logBefore := st.log;
    var numSend := PutBlockSoundTouch(src, srcPos, scratch, st);
    assert FedFrames(|marks|, length) == srcPos;
    assert (|marks| + 1) * ProcessSize == srcPos + ProcessSize;
    FedStep(input0, snap, srcPos, length);

    var finished := srcPos + numSend == src.samples;
    if finished {
      st.Flush();
      AppendAssoc(logBefore, [SoundTouchEngine.Put(numSend)], [SoundTouchEngine.Call.Flush]);
    } else {
      assert [SoundTouchEngine.Put(numSend)] + [] == [SoundTouchEngine.Put(numSend)];
    }
    SoundTouchEngine.FeedsPutFlush(logBefore, numSend, finished);
    newFed := fed + SoundTouchEngine.PutFlush(numSend, finished);
    SoundTouchEngine.PlanAdvance(feeds0, fed, srcPos, length);
  }

  /** The source frames submitted grow by one block per pass of the feed loop. */
  lemma FedStep<T>(input0: seq<T>, snap: seq<seq<T>>, srcPos: nat, length: nat)
    requires srcPos < length && Covers(snap, 0, length)
    ensures var n := BlockLen(srcPos, length);
      input0 + Interleave(snap, 0, srcPos) + Interleave(snap, srcPos, n)
      == input0 + Interleave(snap, 0, Min(srcPos + ProcessSize, length))
  {
    var n := BlockLen(srcPos, length);
    InterleaveAppend(snap, 0, srcPos, n);
    AppendAssoc(input0, Interleave(snap, 0, srcPos), Interleave(snap, srcPos, n));
  }

  /** One receiveSamples of the SoundTouch drain loop: moves `n` ready frames
      into `scratch` and de-interleaves them into frames [destPos, destPos + n)
      of the destination, so that the destination's first destPos + n frames,
      interleaved, are what the engine has handed out (after `base`). */
  method ReceiveSoundTouch<T>(st: SoundTouchEngine.SoundTouch<T>, n: nat, scratch: array<T>, dest: Buffer<T>, destPos: nat,
                                 ghost base: seq<T>, ghost orig: seq<seq<T>>)
    requires dest.Valid() && st.channels == dest.channels && destPos + n <= dest.samples
    requires n <= st.NumSamples() && n <= ProcessSize
    requires scratch.Length == dest.channels * ProcessSize && scratch !in dest.Repr
    requires st.delivered == base + Interleave(dest.Snapshot(), 0, destPos)
    requires |orig| == dest.channels && Covers(orig, 0, dest.samples)
    requires forall ch, k | 0 <= ch < dest.channels && destPos <= k < dest.samples :: dest.data[ch][k] == orig[ch][k]
    modifies st, dest.Repr, scratch
    ensures st.delivered == base + Interleave(dest.Snapshot(), 0, destPos + n)
    ensures forall ch, k | 0 <= ch < dest.channels && destPos + n <= k < dest.samples ::
      dest.data[ch][k] == old(dest.data[ch][k])
    // Frames past the received ones still hold what they held before the drain (`orig`).
    ensures forall ch, k | 0 <= ch < dest.channels && destPos + n <= k < dest.samples :: dest.data[ch][k] == orig[ch][k]
    ensures st.received == old(st.received) + n
    ensures st.input == old(st.input) && st.flushes == old(st.flushes)
    ensures st.log == old(st.log) + [SoundTouchEngine.Receive(n)]
  {
    MulMonotone(n, ProcessSize, dest.channels);
    ghost var before := dest.Snapshot();
    st.ReceiveSamples(scratch, n);

    DeinterleaveBlock(scratch, n, dest, destPos);
    InterleaveExtend(before, dest.Snapshot(), destPos, n);
    AppendAssoc(base, Interleave(before, 0, destPos), Interleave(dest.Snapshot(), destPos, n));
  }

  /** Every call of a SoundTouch drain plan receives between 1 and
      ProcessSize frames, and together they receive the frames from `pos` to
      where it stops. */
  lemma {:induction false} SoundTouchDrainReceives<T>(ready: (seq<T>, nat, nat) -> nat, input: seq<T>, flushes: nat,
                                                      received: nat, pos: nat, destLen: nat)
    requires pos <= destLen
    ensures var plan := SoundTouchDrainPlan(ready, input, flushes, received, pos, destLen);
      && (forall i | 0 <= i < |plan.calls| :: plan.calls[i].Receive? && 1 <= plan.calls[i].frames <= ProcessSize)
      && SoundTouchEngine.FramesReceived(plan.calls) == plan.end - pos
    decreases destLen - pos
  {
    var n := ReceiveCount(ClampReady(ready(input, flushes, received)), pos, destLen);
    if n != 0 {
      SoundTouchDrainReceives(ready, input, flushes, received + n, pos + n, destLen);
      var rest := SoundTouchDrainPlan(ready, input, flushes, received + n, pos + n, destLen).calls;
      var calls := [SoundTouchEngine.Receive(n)] + rest;
      assert SoundTouchDrainPlan(ready, input, flushes, received, pos, destLen).calls == calls;
      assert SoundTouchEngine.FramesReceived(calls) == n + SoundTouchEngine.FramesReceived(rest) by {
        assert calls[1..] == rest;
      }
      forall i | 0 <= i < |calls|
        ensures calls[i].Receive? && 1 <= calls[i].frames <= ProcessSize
      {
        if i > 0 {
          assert calls[i] == rest[i - 1];
        }
      }
    }
  }

  /** The state of the engine and the destination when a SoundTouch drain
      loop starts: dest_pos, the engine's input, flush() count, frames
      received and call log, and the destination's samples. */
  datatype SoundTouchDrainStart<T> = SoundTouchDrainStart(pos: nat, input: seq<T>, flushes: nat, received: nat,
                                                          log: seq<SoundTouchEngine.Call>, dest: seq<seq<T>>)

  /** Where a SoundTouch drain loop that started at `from` stands at dest_pos
      `pos`. The engine's input and flush() count are unchanged, and it has
      handed out the frames [from.pos, pos), which the destination holds,
      interleaved, after `base`; the frames from pos on are as they were. The
      calls made so far and the calls the plan still makes from here add up
      to the plan from the start, which ends where the plan from here does. */
  ghost predicate SoundTouchDraining<T>(st: SoundTouchEngine.SoundTouch<T>, dest: Buffer<T>, base: seq<T>,
                                        from: SoundTouchDrainStart<T>, pos: nat)
    reads st, dest.Repr
  {
    && dest.Valid() && st.channels == dest.channels
    && |from.dest| == dest.channels && Covers(from.dest, 0, dest.samples)
    && from.pos <= pos <= dest.samples
    && st.input == from.input && st.flushes == from.flushes
    && st.received == from.received + (pos - from.pos)
    && st.delivered == base + Interleave(dest.Snapshot(), 0, pos)
    && (forall ch, k | 0 <= ch < dest.channels && pos <= k < dest.samples :: dest.data[ch][k] == from.dest[ch][k])
    && var plan := SoundTouchDrainPlan(st.ready, from.input, from.flushes, from.received, from.pos, dest.samples);
       var rest := SoundTouchDrainPlan(st.ready, from.input, from.flushes, st.received, pos, dest.samples);
       from.log + plan.calls == st.log + rest.calls && rest.end == plan.end
  }

  /** One pass of the SoundTouch drain loop that receives: with frames ready
      and room in the destination, it receives min(numSamples(), ProcessSize,
      room left) frames at dest_pos. */
  method ReceiveStepSoundTouch<T>(st: SoundTouchEngine.SoundTouch<T>, scratch: array<T>, dest: Buffer<T>,
                                  ghost base: seq<T>, ghost from: SoundTouchDrainStart<T>, pos: nat, numReceive: nat)
    returns (newPos: nat)
    requires SoundTouchDraining(st, dest, base, from, pos)
    requires scratch.Length == dest.channels * ProcessSize && scratch !in dest.Repr
    requires numReceive == ReceiveCount(ClampReady(st.NumSamples()), pos, dest.samples) && numReceive != 0
    modifies st, dest.Repr, scratch
    ensures newPos == pos + numReceive
    ensures SoundTouchDraining(st, dest, base, from, newPos)
  {
    ghost var logBefore, receivedBefore := st.log, st.received;
    ReceiveSoundTouch(st, numReceive, scratch, dest, pos, base, from.dest);
    newPos := pos + numReceive;
    SoundTouchDrainPlanStep(st.ready, from.input, from.flushes, receivedBefore, pos, dest.samples, logBefore,
                            st.received, newPos, st.log);
  }

  /** The drain loop run after every SoundTouch block: while frames are ready
      and the destination has room, receive at most ProcessSize of them.
      Returns the new destPos. */
  method DrainSoundTouch<T>(st: SoundTouchEngine.SoundTouch<T>, scratch: array<T>, dest: Buffer<T>, destPos: nat,
                               ghost base: seq<T>, ghost orig: seq<seq<T>>)
    returns (newPos: nat)
    requires dest.Valid() && st.channels == dest.channels && destPos <= dest.samples
    requires scratch.Length == dest.channels * ProcessSize && scratch !in dest.Repr
    requires st.delivered == base + Interleave(dest.Snapshot(), 0, destPos)
    requires |orig| == dest.channels && Covers(orig, 0, dest.samples)
    requires forall ch, k | 0 <= ch < dest.channels && destPos <= k < dest.samples :: dest.data[ch][k] == orig[ch][k]
    modifies st, dest.Repr, scratch
    ensures destPos <= newPos <= dest.samples
    ensures st.received == old(st.received) + (newPos - destPos)
    ensures st.delivered == base + Interleave(dest.Snapshot(), 0, newPos)
    ensures forall ch, k | 0 <= ch < dest.channels && newPos <= k < dest.samples ::
      dest.data[ch][k] == old(dest.data[ch][k])
    // Frames past the new dest_pos still hold what they held before the drain (`orig`).
    ensures forall ch, k | 0 <= ch < dest.channels && newPos <= k < dest.samples :: dest.data[ch][k] == orig[ch][k]
    // The loop ends only when the destination is full or nothing is ready.
    ensures newPos == dest.samples || st.NumSamples() == 0
    ensures st.input == old(st.input) && st.flushes == old(st.flushes)
    // It makes exactly the receiveSamples calls of the drain plan and stops where it does.
    ensures var plan := SoundTouchDrainPlan(st.ready, st.input, st.flushes, old(st.received), destPos, dest.samples);
      st.log == old(st.log) + plan.calls && newPos == plan.end
    ensures SoundTouchEngine.Feeds(st.log) == SoundTouchEngine.Feeds(old(st.log))
  {
    newPos := destPos;
    ghost var from := SoundTouchDrainStart(destPos, st.input, st.flushes, st.received, st.log, orig);
    while true
      invariant SoundTouchDraining(st, dest, base, from, newPos)
      decreases dest.samples - newPos
    {
      var numReady := ClampReady(st.NumSamples());
      var numReceive := ReceiveCount(numReady, newPos, dest.samples);
      if numReceive == 0 {
        break;
      }
      newPos := ReceiveStepSoundTouch(st, scratch, dest, base, from, newPos, numReceive);
    }
    SoundTouchDrainReceives(st.ready, from.input, from.flushes, from.received, destPos, dest.samples);
    ghost var plan := SoundTouchDrainPlan(st.ready, from.input, from.flushes, from.received, destPos, dest.samples);
    KeptAppend(old(st.log), plan.calls, SoundTouchEngine.IsFeed);
    KeptNone(plan.calls, SoundTouchEngine.IsFeed);
  }

  /** One step of the SoundTouch drain plan: when the clamped count n is not
      0, the plan receives n frames and goes on from there. */
  lemma SoundTouchDrainPlanStep<T>(ready: (seq<T>, nat, nat) -> nat, input: seq<T>, flushes: nat, received: nat,
                                   pos: nat, destLen: nat, log: seq<SoundTouchEngine.Call>,
                                   received': nat, pos': nat, log': seq<SoundTouchEngine.Call>)
    requires pos <= destLen
    requires var n := ReceiveCount(ClampReady(ready(input, flushes, received)), pos, destLen);
      && n != 0 && received' == received + n && pos' == pos + n && log' == log + [SoundTouchEngine.Receive(n)]
    ensures var plan := SoundTouchDrainPlan(ready, input, flushes, received, pos, destLen);
      var rest := SoundTouchDrainPlan(ready, input, flushes, received', pos', destLen);
      log + plan.calls == log' + rest.calls && plan.end == rest.end
  {
    var n := pos' - pos;
    var rest := SoundTouchDrainPlan(ready, input, flushes, received', pos', destLen);
    AppendAssoc(log, [SoundTouchEngine.Receive(n)], rest.calls);
  }

  /** The drain plan run after one more block, from where the last recorded
      drain stopped, extends the record by that block. */
  lemma SoundTouchPlannedStep<T>(ready: (seq<T>, nat, nat) -> nat, input0: seq<T>, flushes0: nat, received0: nat,
                                 snap: seq<seq<T>>, length: nat, destLen: nat, marks: seq<nat>,
                                 drains: seq<seq<SoundTouchEngine.Call>>, from: nat,
                                 calls: seq<SoundTouchEngine.Call>, end: nat)
    requires Covers(snap, 0, length)
    requires SoundTouchDrainsPlanned(ready, input0, flushes0, received0, snap, length, destLen, marks, drains)
    requires from == DrainFrom(marks, |marks|)
    requires SoundTouchDrainRecorded(ready, input0, flushes0, received0, snap, length, destLen, |marks|, from,
                                     calls, end)
    ensures SoundTouchDrainsPlanned(ready, input0, flushes0, received0, snap, length, destLen, marks + [end],
                                    drains + [calls])
  {
    var m, d := marks + [end], drains + [calls];
    forall i | 0 <= i < |m|
      ensures SoundTouchDrainRecorded(ready, input0, flushes0, received0, snap, length, destLen, i,
                                      DrainFrom(m, i), d[i], m[i])
    {
      assert DrainFrom(m, i) == DrainFrom(marks, i);
      if i < |marks| {
        assert m[i] == marks[i] && d[i] == drains[i];
      }
    }
    assert |d| == |m|;
    assert SoundTouchDrainsPlanned(ready, input0, flushes0, received0, snap, length, destLen, m, d);
  }

  /** The drains recorded as drain plans moved dest_pos forward, stayed in
      the destination, and each stopped on a full destination or on
      numSamples() answering 0. */
  lemma SoundTouchPlannedDrained<T>(ready: (seq<T>, nat, nat) -> nat, input0: seq<T>, flushes0: nat, received0: nat,
                                    snap: seq<seq<T>>, length: nat, destLen: nat, marks: seq<nat>,
                                    drains: seq<seq<SoundTouchEngine.Call>>)
    requires Covers(snap, 0, length)
    requires SoundTouchDrainsPlanned(ready, input0, flushes0, received0, snap, length, destLen, marks, drains)
    ensures SoundTouchDrained(ready, input0, flushes0, received0, snap, length, destLen, marks)
  {
    forall i | 0 <= i < |marks|
      ensures marks[i] <= destLen
      ensures marks[i] == destLen || ReadyAfter(ready, input0, flushes0, received0, snap, length, i + 1, marks[i]) == 0
    {
      assert SoundTouchDrainRecorded(ready, input0, flushes0, received0, snap, length, destLen, i,
                                     DrainFrom(marks, i), drains[i], marks[i]);
    }
    forall k {:trigger DrainFrom(marks, k)} | 0 <= k < |marks|
      ensures DrainFrom(marks, k) <= marks[k]
    {
      assert SoundTouchDrainRecorded(ready, input0, flushes0, received0, snap, length, destLen, k,
                                     DrainFrom(marks, k), drains[k], marks[k]);
    }
    forall i, j | 0 <= i < j < |marks|
      ensures marks[i] <= marks[j]
    {
      Rising(marks, i, j);
    }
  }

  /** Drains that each start where the last one stopped and never move
      dest_pos back leave it rising from block to block. */
  lemma {:induction false} Rising(marks: seq<nat>, i: nat, j: nat)
    requires forall k {:trigger DrainFrom(marks, k)} | 0 <= k < |marks| :: DrainFrom(marks, k) <= marks[k]
    requires i <= j < |marks|
    ensures marks[i] <= marks[j]
    decreases j - i
  {
    if i < j {
      Rising(marks, i, j - 1);
      assert DrainFrom(marks, j) <= marks[j];
    }
  }

  /** What the SoundTouch outer loop keeps from block to block, standing at
      srcPos with the drains so far ending at `marks` after the calls
      `drains`: the progress facts; the record of every drain; the last one
      stopped on a full destination or with nothing ready; and the call log
      so far. */
  ghost predicate SoundTouchLooping<T>(src: Buffer<T>, st: SoundTouchEngine.SoundTouch<T>, dest: Buffer<T>,
                                       start: SoundTouchStart<T>, srcPos: nat, destPos: nat,
                                       fed: seq<SoundTouchEngine.Call>, marks: seq<nat>,
                                       drains: seq<seq<SoundTouchEngine.Call>>)
    reads src.Repr, st, dest.Repr
  {
    && SoundTouchProgress(src, st, dest, start, srcPos, destPos, fed, marks)
    && srcPos < src.samples + ProcessSize
    && (srcPos > 0 ==> destPos == dest.samples || st.NumSamples() == 0)
    && SoundTouchDrainsPlanned(st.ready, start.input, start.flushes, start.received, start.snap, src.samples,
                               dest.samples, marks, drains)
    && |drains| * ProcessSize < src.samples + ProcessSize
    && st.log == start.log + SoundTouchEngine.BlockCalls(src.samples, drains)
  }

  /** Where the SoundTouch loop stands between feeding the block at srcPos
      and draining after it: that block fed, every earlier drain recorded,
      and the calls so far those of the earlier blocks followed by this
      block's putSamples (and flush(), if it is the last). */
  ghost predicate SoundTouchAwaiting<T>(src: Buffer<T>, st: SoundTouchEngine.SoundTouch<T>, dest: Buffer<T>,
                                        start: SoundTouchStart<T>, srcPos: nat, destPos: nat,
                                        fed: seq<SoundTouchEngine.Call>, marks: seq<nat>,
                                        drains: seq<seq<SoundTouchEngine.Call>>)
    reads src.Repr, st, dest.Repr
  {
    && SoundTouchFed(src, st, dest, start, srcPos, destPos, fed, marks)
    && SoundTouchDrainsPlanned(st.ready, start.input, start.flushes, start.received, start.snap, src.samples,
                               dest.samples, marks, drains)
    && |drains| * ProcessSize < src.samples
    && var n := BlockLen(srcPos, src.samples);
       st.log == start.log + SoundTouchEngine.BlockCalls(src.samples, drains)
                 + SoundTouchEngine.PutFlush(n, srcPos + n == src.samples)
  }

  /** The feed half of a pass of the SoundTouch loop, over the loop's state:
      from where the loop stands at srcPos to where it awaits the drain. */
  method FeedPassSoundTouch<T>(src: Buffer<T>, st: SoundTouchEngine.SoundTouch<T>, dest: Buffer<T>,
                               srcScratch: array<T>, srcPos: nat, destPos: nat, ghost start: SoundTouchStart<T>,
                               ghost fed: seq<SoundTouchEngine.Call>, ghost marks: seq<nat>,
                               ghost drains: seq<seq<SoundTouchEngine.Call>>)
    returns (ghost newFed: seq<SoundTouchEngine.Call>)
    requires st.channels == src.channels && srcPos < src.samples
    requires srcScratch.Length == src.channels * ProcessSize && srcScratch !in src.Repr && srcScratch !in dest.Repr
    requires SoundTouchLooping(src, st, dest, start, srcPos, destPos, fed, marks, drains)
    modifies st, srcScratch
    ensures SoundTouchAwaiting(src, st, dest, start, srcPos, destPos, newFed, marks, drains)
  {
    ghost var destSnap := dest.Snapshot();
    newFed := FeedSoundTouch(src, srcPos, srcScratch, st, start.snap, marks, start.input, start.flushes,
                             start.feeds, fed);
    assert dest.Snapshot() == destSnap;
  }

  /** The drain half of a pass of the SoundTouch loop, once the block at
      srcPos has been fed: it drains from destPos, making exactly the calls
      of the drain plan from there, and the loop then stands at srcPos +
      ProcessSize with that drain recorded. */
  method DrainPassSoundTouch<T>(src: Buffer<T>, st: SoundTouchEngine.SoundTouch<T>, dest: Buffer<T>,
                                destScratch: array<T>, srcPos: nat, destPos: nat, ghost start: SoundTouchStart<T>,
                                ghost fed: seq<SoundTouchEngine.Call>, ghost marks: seq<nat>,
                                ghost drains: seq<seq<SoundTouchEngine.Call>>)
    returns (newPos: nat, ghost newMarks: seq<nat>, ghost newDrains: seq<seq<SoundTouchEngine.Call>>)
    requires st.channels == src.channels && dest.channels == src.channels
    requires destScratch.Length == src.channels * ProcessSize && destScratch !in src.Repr && destScratch !in dest.Repr
    requires src.Repr !! dest.Repr
    requires SoundTouchAwaiting(src, st, dest, start, srcPos, destPos, fed, marks, drains)
    modifies st, dest.Repr, destScratch
    ensures newMarks == marks + [newPos]
    ensures SoundTouchLooping(src, st, dest, start, srcPos + ProcessSize, newPos, fed, newMarks, newDrains)
    ensures st.input == old(st.input) && st.flushes == old(st.flushes)
    ensures var plan := SoundTouchDrainPlan(st.ready, st.input, st.flushes, old(st.received), destPos, dest.samples);
      && st.log == old(st.log) + plan.calls && newPos == plan.end && newDrains == drains + [plan.calls]
      && st.received == old(st.received) + (newPos - destPos)
  {
    newPos := DrainSoundTouch(st, destScratch, dest, destPos, start.delivered, start.dest);
    newMarks := marks + [newPos];
    ghost var plan := SoundTouchDrainPlan(st.ready, st.input, st.flushes, old(st.received), destPos, dest.samples);
    newDrains := drains + [plan.calls];
    // The drain's plan, in the terms the record of drains uses.
    assert DrainFrom(marks, |marks|) == destPos;
    assert st.input == start.input + Interleave(start.snap, 0, FedFrames(|marks| + 1, src.samples));
    assert st.flushes == start.flushes + EndSignals(|marks| + 1, src.samples);
    assert old(st.received) == start.received + DrainFrom(marks, |marks|);
    SoundTouchPassed(src, st, dest, start, srcPos, newPos, fed, marks, drains, plan.calls);
  }

  /** Once the drain after the block at srcPos has ended at newPos, making
      the calls of the drain plan from where the previous drain ended, the
      loop stands at srcPos + ProcessSize with that drain appended to the
      record and its calls to the log. */
  lemma SoundTouchPassed<T>(src: Buffer<T>, st: SoundTouchEngine.SoundTouch<T>, dest: Buffer<T>,
                            start: SoundTouchStart<T>, srcPos: nat, newPos: nat, fed: seq<SoundTouchEngine.Call>,
                            marks: seq<nat>, drains: seq<seq<SoundTouchEngine.Call>>,
                            calls: seq<SoundTouchEngine.Call>)
    requires SoundTouchProgress(src, st, dest, start, srcPos + ProcessSize, newPos, fed, marks + [newPos])
    requires srcPos < src.samples && (newPos == dest.samples || st.NumSamples() == 0)
    requires SoundTouchDrainsPlanned(st.ready, start.input, start.flushes, start.received, start.snap, src.samples,
                                     dest.samples, marks, drains)
    requires SoundTouchDrainRecorded(st.ready, start.input, start.flushes, start.received, start.snap, src.samples,
                                     dest.samples, |marks|, DrainFrom(marks, |marks|), calls, newPos)
    requires |drains| * ProcessSize < src.samples
    requires var n := BlockLen(srcPos, src.samples);
      st.log == start.log + SoundTouchEngine.BlockCalls(src.samples, drains)
                + SoundTouchEngine.PutFlush(n, srcPos + n == src.samples) + calls
    ensures SoundTouchLooping(src, st, dest, start, srcPos + ProcessSize, newPos, fed, marks + [newPos],
                              drains + [calls])
  {
    SoundTouchPlannedStep(st.ready, start.input, start.flushes, start.received, start.snap, src.samples,
                          dest.samples, marks, drains, DrainFrom(marks, |marks|), calls, newPos);
    var n := BlockLen(srcPos, src.samples);
    assert srcPos == |drains| * ProcessSize;
    SoundTouchEngine.BlockCallsStep(src.samples, drains, calls, srcPos);
    var blocks := SoundTouchEngine.BlockCalls(src.samples, drains);
    var step := SoundTouchEngine.PutFlush(n, srcPos + n == src.samples);
    AppendAssoc(start.log, blocks, step);
    AppendAssoc(start.log, blocks + step, calls);
    assert SoundTouchDrainsPlanned(st.ready, start.input, start.flushes, start.received, start.snap, src.samples,
                               dest.samples, marks + [newPos], drains + [calls]);
    assert |drains + [calls]| * ProcessSize < src.samples + ProcessSize;
    assert st.log == start.log + SoundTouchEngine.BlockCalls(src.samples, drains + [calls]);
  }

  /** One pass of the SoundTouch loop: feed the block at srcPos, then drain.
      Afterwards the loop stands at srcPos + ProcessSize, with this block's
      putSamples (and flush()) and its drain's calls added to the log, and the
      drain that stopped at newPos recorded in the marks. */
  method StepSoundTouch<T>(src: Buffer<T>, st: SoundTouchEngine.SoundTouch<T>, dest: Buffer<T>,
                           srcScratch: array<T>, destScratch: array<T>, srcPos: nat, destPos: nat,
                           ghost start: SoundTouchStart<T>, ghost fed: seq<SoundTouchEngine.Call>, ghost marks: seq<nat>,
                           ghost drains: seq<seq<SoundTouchEngine.Call>>)
    returns (newPos: nat, ghost newFed: seq<SoundTouchEngine.Call>, ghost newMarks: seq<nat>,
             ghost newDrains: seq<seq<SoundTouchEngine.Call>>)
    requires st.channels == src.channels && dest.channels == src.channels && srcPos < src.samples
    requires srcScratch.Length == src.channels * ProcessSize && srcScratch !in src.Repr && srcScratch !in dest.Repr
    requires destScratch.Length == src.channels * ProcessSize && destScratch !in src.Repr && destScratch !in dest.Repr
    requires src.Repr !! dest.Repr
    requires SoundTouchLooping(src, st, dest, start, srcPos, destPos, fed, marks, drains)
    modifies st, dest.Repr, srcScratch, destScratch
    ensures newMarks == marks + [newPos]
    ensures SoundTouchLooping(src, st, dest, start, srcPos + ProcessSize, newPos, newFed, newMarks, newDrains)
  {
    newFed := FeedPassSoundTouch(src, st, dest, srcScratch, srcPos, destPos, start, fed, marks, drains);
    newPos, newMarks, newDrains := DrainPassSoundTouch(src, st, dest, destScratch, srcPos, destPos, start, newFed,
                                                       marks, drains);
  }

  /** The outer loop of stretch() for SoundTouch, over a destination and two
      scratch vectors already allocated. It feeds the whole source in
      interleaved blocks, with flush() after the last one, and after every
      block drains as much ready output as fits into the destination. It
      returns the final dest_pos and, as ghosts, the dest_pos each block's
      drain ended at, the feed calls made and the calls each drain made, all
      counted from `start`, the state before the loop. */
  method LoopSoundTouch<T>(src: Buffer<T>, st: SoundTouchEngine.SoundTouch<T>, dest: Buffer<T>,
                           srcScratch: array<T>, destScratch: array<T>, ghost start: SoundTouchStart<T>)
    returns (destPos: nat, ghost marks: seq<nat>, ghost fed: seq<SoundTouchEngine.Call>,
             ghost drains: seq<seq<SoundTouchEngine.Call>>)
    requires src.Valid() && dest.Valid() && st.channels == src.channels && dest.channels == src.channels
    requires srcScratch.Length == src.channels * ProcessSize && srcScratch !in src.Repr && srcScratch !in dest.Repr
    requires destScratch.Length == src.channels * ProcessSize && destScratch !in src.Repr && destScratch !in dest.Repr
    requires src.Repr !! dest.Repr
    requires start == SoundTouchStart(src.Snapshot(), dest.Snapshot(), st.input, st.flushes,
                                      SoundTouchEngine.Feeds(st.log), st.received, st.delivered, st.log)
    modifies st, dest.Repr, srcScratch, destScratch
    ensures SoundTouchProgress(src, st, dest, start, |marks| * ProcessSize, destPos, fed, marks)
    ensures src.samples <= |marks| * ProcessSize < src.samples + ProcessSize
    ensures SoundTouchDrained(st.ready, start.input, start.flushes, start.received, start.snap, src.samples,
                              dest.samples, marks)
    ensures src.samples > 0 ==> destPos == dest.samples || st.NumSamples() == 0
    // Every call made on the engine, in order: per block, its feed calls and
    // then its drain, which is the drain plan from where the last one stopped.
    ensures |drains| * ProcessSize < src.samples + ProcessSize
    ensures SoundTouchDrainsPlanned(st.ready, start.input, start.flushes, start.received, start.snap, src.samples,
                                    dest.samples, marks, drains)
    ensures st.log == start.log + SoundTouchEngine.BlockCalls(src.samples, drains)
  {
    destPos := 0;
    var length := src.samples;
    fed, marks, drains := [], [], [];
    SoundTouchStarts(src, st, dest, start);

    var srcPos: nat := 0;
    while srcPos < length
      invariant SoundTouchLooping(src, st, dest, start, srcPos, destPos, fed, marks, drains)
    {
      destPos, fed, marks, drains := StepSoundTouch(src, st, dest, srcScratch, destScratch, srcPos, destPos, start,
                                                    fed, marks, drains);
      srcPos := srcPos + ProcessSize;
    }
    SoundTouchPlannedDrained(st.ready, start.input, start.flushes, start.received, start.snap, length, dest.samples,
                             marks, drains);
  }

  /** Before the first block, the loop stands at the start: nothing fed,
      nothing drained. */
  lemma SoundTouchStarts<T>(src: Buffer<T>, st: SoundTouchEngine.SoundTouch<T>, dest: Buffer<T>, start: SoundTouchStart<T>)
    requires src.Valid() && dest.Valid()
    requires start == SoundTouchStart(src.Snapshot(), dest.Snapshot(), st.input, st.flushes,
                                      SoundTouchEngine.Feeds(st.log), st.received, st.delivered, st.log)
    ensures SoundTouchProgress(src, st, dest, start, 0, 0, [], [])
  {
    assert Interleave(start.snap, 0, 0) == [];
    assert Interleave(dest.Snapshot(), 0, 0) == [];
  }

  /** When the SoundTouch loop leaves, it has run once per block: the whole
      source has been fed, with a single flush(), through every feed call the
      plan owes. */
  lemma SoundTouchDone<T>(src: Buffer<T>, st: SoundTouchEngine.SoundTouch<T>, dest: Buffer<T>,
                          start: SoundTouchStart<T>, srcPos: nat, destPos: nat,
                          fed: seq<SoundTouchEngine.Call>, marks: seq<nat>)
    requires SoundTouchProgress(src, st, dest, start, srcPos, destPos, fed, marks)
    requires src.samples <= srcPos < src.samples + ProcessSize
    ensures st.input == start.input + Interleave(start.snap, 0, src.samples)
    ensures st.flushes == start.flushes + (if src.samples > 0 then 1 else 0)
    ensures SoundTouchEngine.Feeds(st.log) == start.feeds + SoundTouchEngine.PutFlushPlan(Partition(0, src.samples))
    ensures |marks| == |Partition(0, src.samples)|
    ensures src.Snapshot() == start.snap
    ensures destPos <= dest.samples && st.received == start.received + destPos
    ensures st.delivered == start.delivered + Interleave(dest.Snapshot(), 0, destPos)
    ensures forall ch, k | 0 <= ch < dest.channels && destPos <= k < dest.samples :: dest.data[ch][k] == start.dest[ch][k]
    ensures if marks == [] then destPos == 0 else marks[|marks| - 1] == destPos
  {
    PartitionTiles(srcPos, src.samples);
    assert Partition(srcPos, src.samples) == [];
    if |marks| > 0 {
      assert (|marks| - 1) * ProcessSize == srcPos - ProcessSize;
    }
    PartitionBlocks(0, src.samples, |marks|);
  }

  /** What LoopSoundTouch promises about the state it leaves, short of the
      call log. */
  ghost predicate SoundTouchLoopEnded<T>(src: Buffer<T>, st: SoundTouchEngine.SoundTouch<T>, dest: Buffer<T>,
                                         start: SoundTouchStart<T>, destPos: nat, fed: seq<SoundTouchEngine.Call>,
                                         marks: seq<nat>, drains: seq<seq<SoundTouchEngine.Call>>)
    reads src.Repr, st, dest.Repr
  {
    && SoundTouchProgress(src, st, dest, start, |marks| * ProcessSize, destPos, fed, marks)
    && src.samples <= |marks| * ProcessSize < src.samples + ProcessSize
    && SoundTouchDrained(st.ready, start.input, start.flushes, start.received, start.snap, src.samples,
                         dest.samples, marks)
    && (src.samples > 0 ==> destPos == dest.samples || st.NumSamples() == 0)
    && SoundTouchDrainsPlanned(st.ready, start.input, start.flushes, start.received, start.snap, src.samples,
                               dest.samples, marks, drains)
  }

  /** What stretch() for SoundTouch promises once its loop has left, in a
      destination that was all `zero`: the loop facts for every block, read
      as what the engine was given, what it handed out, and every call made
      on it, against the engine's input, flush() count, call log, frames
      received and samples handed out before the loop (`input0` and so on,
      as recorded in `start`). */
  lemma SoundTouchFinished<T>(src: Buffer<T>, st: SoundTouchEngine.SoundTouch<T>, dest: Buffer<T>,
                              start: SoundTouchStart<T>, zero: T, destPos: nat, marks: seq<nat>,
                              fed: seq<SoundTouchEngine.Call>, drains: seq<seq<SoundTouchEngine.Call>>,
                              input0: seq<T>, flushes0: nat, log0: seq<SoundTouchEngine.Call>, received0: nat,
                              delivered0: seq<T>)
    requires input0 == start.input && flushes0 == start.flushes && received0 == start.received
    requires delivered0 == start.delivered && SoundTouchEngine.Feeds(log0) == start.feeds
    requires SoundTouchLoopEnded(src, st, dest, start, destPos, fed, marks, drains)
    requires forall ch, k | 0 <= ch < dest.channels && 0 <= k < dest.samples :: start.dest[ch][k] == zero
    ensures st.input == input0 + Interleave(src.Snapshot(), 0, src.samples)
    ensures st.flushes == flushes0 + (if src.samples > 0 then 1 else 0)
    ensures SoundTouchEngine.Feeds(st.log)
            == SoundTouchEngine.Feeds(log0) + SoundTouchEngine.PutFlushPlan(Partition(0, src.samples))
    ensures destPos <= dest.samples && st.received == received0 + destPos
    ensures st.delivered == delivered0 + Interleave(dest.Snapshot(), 0, destPos)
    ensures forall ch, k | 0 <= ch < dest.channels && destPos <= k < dest.samples ::
      dest.data[ch][k] == zero
    ensures |marks| == |Partition(0, src.samples)|
    ensures if marks == [] then destPos == 0 else marks[|marks| - 1] == destPos
    ensures SoundTouchDrained(st.ready, input0, flushes0, received0, src.Snapshot(), src.samples,
                              dest.samples, marks)
    ensures src.samples > 0 ==> destPos == dest.samples || st.NumSamples() == 0
    ensures SoundTouchDrainsPlanned(st.ready, input0, flushes0, received0, src.Snapshot(),
                                    src.samples, dest.samples, marks, drains)
  {
    SoundTouchDone(src, st, dest, start, |marks| * ProcessSize, destPos, fed, marks);
  }

  /** The loop of stretch() for SoundTouch, over a destination already
      allocated with every sample `zero` and the two scratch vectors: what it
      promises, against the engine's input, flush() count, call log, frames
      received and samples handed out before it (`input0` and so on). The
      ghost results are the frames it fills, the dest_pos each block's drain
      ended at, and each drain's calls. */
  method FillSoundTouch<T>(src: Buffer<T>, st: SoundTouchEngine.SoundTouch<T>, dest: Buffer<T>,
                           srcScratch: array<T>, destScratch: array<T>, zero: T, ghost input0: seq<T>,
                           ghost flushes0: nat, ghost log0: seq<SoundTouchEngine.Call>, ghost received0: nat,
                           ghost delivered0: seq<T>)
    returns (ghost filled: nat, ghost marks: seq<nat>, ghost drains: seq<seq<SoundTouchEngine.Call>>)
    requires src.Valid() && dest.Valid() && st.channels == src.channels && dest.channels == src.channels
    requires srcScratch.Length == src.channels * ProcessSize && srcScratch !in src.Repr && srcScratch !in dest.Repr
    requires destScratch.Length == src.channels * ProcessSize && destScratch !in src.Repr && destScratch !in dest.Repr
    requires src.Repr !! dest.Repr
    requires forall ch, k | 0 <= ch < dest.channels && 0 <= k < dest.samples :: dest.data[ch][k] == zero
    requires input0 == st.input && flushes0 == st.flushes && log0 == st.log
    requires received0 == st.received && delivered0 == st.delivered
    modifies st, dest.Repr, srcScratch, destScratch
    ensures st.input == input0 + Interleave(src.Snapshot(), 0, src.samples)
    ensures st.flushes == flushes0 + (if src.samples > 0 then 1 else 0)
    ensures SoundTouchEngine.Feeds(st.log)
            == SoundTouchEngine.Feeds(log0) + SoundTouchEngine.PutFlushPlan(Partition(0, src.samples))
    ensures filled <= dest.samples && st.received == received0 + filled
    ensures st.delivered == delivered0 + Interleave(dest.Snapshot(), 0, filled)
    ensures forall ch, k | 0 <= ch < dest.channels && filled <= k < dest.samples ::
      dest.data[ch][k] == zero
    ensures |marks| == |Partition(0, src.samples)|
    ensures if marks == [] then filled == 0 else marks[|marks| - 1] == filled
    ensures SoundTouchDrained(st.ready, input0, flushes0, received0, src.Snapshot(), src.samples,
                              dest.samples, marks)
    ensures src.samples > 0 ==> filled == dest.samples || st.NumSamples() == 0
    ensures |drains| * ProcessSize < src.samples + ProcessSize
    ensures SoundTouchDrainsPlanned(st.ready, input0, flushes0, received0, src.Snapshot(),
                                    src.samples, dest.samples, marks, drains)
    ensures st.log == log0 + SoundTouchEngine.BlockCalls(src.samples, drains)
  {
    ghost var start := SoundTouchStart(src.Snapshot(), dest.Snapshot(), st.input, st.flushes,
                                       SoundTouchEngine.Feeds(st.log), st.received, st.delivered, st.log);
    var destPos;
    ghost var fed;
    assert forall ch, k | 0 <= ch < dest.channels && 0 <= k < dest.samples :: start.dest[ch][k] == zero;
    destPos, marks, fed, drains := LoopSoundTouch(src, st, dest, srcScratch, destScratch, start);
    SoundTouchFinished(src, st, dest, start, zero, destPos, marks, fed, drains, input0, flushes0, log0, received0,
                       delivered0);
    filled := destPos;
  }

  /** stretch() for SoundTouch: allocates the destination, (int)(samples *
      stretch_amount) frames long with every sample `zero`, and the two
      interleaved scratch vectors of ProcessSize frames, then runs the
      feed/drain loop. The ghost results are the frames it fills (the final
      dest_pos), the dest_pos each block's drain ended at, and the calls each
      drain made. */
  method StretchSoundTouch<T>(src: Buffer<T>, stretchAmount: real, st: SoundTouchEngine.SoundTouch<T>, zero: T)
    returns (dest: Buffer<T>, ghost filled: nat, ghost marks: seq<nat>,
             ghost drains: seq<seq<SoundTouchEngine.Call>>)
    requires src.Valid() && st.channels == src.channels
    requires stretchAmount >= 0.0
    modifies st
    ensures dest.Valid() && fresh(dest) && fresh(dest.Repr)
    ensures dest.channels == src.channels && dest.samples == DestLength(src.samples, stretchAmount)
    // The engine is given the whole source, interleaved, in order,
    ensures st.input == old(st.input) + Interleave(src.Snapshot(), 0, src.samples)
    // through one putSamples per block and a single flush() after the last.
    ensures st.flushes == old(st.flushes) + (if src.samples > 0 then 1 else 0)
    ensures SoundTouchEngine.Feeds(st.log)
            == SoundTouchEngine.Feeds(old(st.log)) + SoundTouchEngine.PutFlushPlan(Partition(0, src.samples))
    // The destination starts with exactly what the engine handed out, de-interleaved,
    ensures filled <= dest.samples && st.received == old(st.received) + filled
    ensures st.delivered == old(st.delivered) + Interleave(dest.Snapshot(), 0, filled)
    // and the rest of it is still zero.
    ensures forall ch, k | 0 <= ch < dest.channels && filled <= k < dest.samples ::
      dest.data[ch][k] == zero
    // A drain followed every block, and each stopped only when the destination
    // was full or nothing was ready.
    ensures |marks| == |Partition(0, src.samples)|
    ensures if marks == [] then filled == 0 else marks[|marks| - 1] == filled
    ensures SoundTouchDrained(st.ready, old(st.input), old(st.flushes), old(st.received), src.Snapshot(), src.samples,
                              dest.samples, marks)
    ensures src.samples > 0 ==> filled == dest.samples || st.NumSamples() == 0
    // Every call made on the engine, in order: per block, putSamples (and
    // flush() after the last), then the receiveSamples calls of its drain,
    // each taking min(numSamples(), ProcessSize, room left) frames.
    ensures |drains| * ProcessSize < src.samples + ProcessSize
    ensures SoundTouchDrainsPlanned(st.ready, old(st.input), old(st.flushes), old(st.received), src.Snapshot(),
                                    src.samples, dest.samples, marks, drains)
    ensures st.log == old(st.log) + SoundTouchEngine.BlockCalls(src.samples, drains)
  {
    var destLen := DestLength(src.samples, stretchAmount);
    dest := new Buffer<T>(src.channels, destLen, zero);
    var srcInterleaved := new T[src.channels * ProcessSize](_ => zero);
    var destInterleaved := new T[src.channels * ProcessSize](_ => zero);
    filled, marks, drains := FillSoundTouch(src, st, dest, srcInterleaved, destInterleaved, zero, old(st.input),
                                            old(st.flushes), old(st.log), old(st.received), old(st.delivered));
  }

  /** Points every channel's head at frame `pos` of `buf`, as the pointer
      vectors of the RubberBand loop are set before each process and retrieve. */
  method PointHeads<T>(heads: array<RubberBandEngine.Head<T>>, buf: Buffer<T>, pos: nat)
    requires buf.Valid() && heads.Length == buf.channels
    modifies heads
    ensures forall ch | 0 <= ch < buf.channels :: heads[ch] == RubberBandEngine.Head(buf.data[ch], pos)
  {
    for ch := 0 to buf.channels
      invariant forall c | 0 <= c < ch :: heads[c] == RubberBandEngine.Head(buf.data[c], pos)
    {
      heads[ch] := RubberBandEngine.Head(buf.data[ch], pos);
    }
  }

  /** process of the block at srcPos: every channel's read head pointed at
      frame srcPos, num_to_send frames, flagged final when they end the
      source. */
  method ProcessBlockRubberBand<T>(src: Buffer<T>, srcPos: nat, heads: array<RubberBandEngine.Head<T>>,
                                   st: RubberBandEngine.RubberBand<T>)
    returns (numToSend: nat, finished: bool)
    requires src.Valid() && st.Valid()
    requires st.channels == src.channels && srcPos < src.samples && heads.Length == src.channels
    requires forall ch | 0 <= ch < src.channels :: src.data[ch] as object != heads
    modifies st, heads
    ensures numToSend == BlockLen(srcPos, src.samples) && finished == (srcPos + numToSend == src.samples)
    ensures st.Valid() && st.input == Concat(old(st.input), Slice(src.Snapshot(), srcPos, numToSend))
    ensures st.processed == old(st.processed) + numToSend
    ensures st.finals == old(st.finals) + (if finished then 1 else 0)
    ensures st.log == old(st.log) + [RubberBandEngine.Process(numToSend, finished)]
    ensures st.retrieved == old(st.retrieved) && st.delivered == old(st.delivered)
  {
    ghost var snap := src.Snapshot();
    numToSend := BlockLen(srcPos, src.samples);
    PointHeads(heads, src, srcPos);
    finished := srcPos + numToSend == src.samples;
    ghost var inputBefore := st.input;
    st.Process(heads[..], numToSend, finished);
    forall ch | 0 <= ch < src.channels
      ensures st.input[ch] == inputBefore[ch] + snap[ch][srcPos..srcPos + numToSend]
    {
    }
  }

  /** The feed half of one pass of the RubberBand outer loop at srcPos: points
      every channel's read head at frame srcPos and submits num_to_send frames,
      with the end-of-input flag set when they end the source. What the
      engine has been given goes from the |marks| blocks before srcPos to one
      more (RubberBandFedUpTo): `input0`, `processed0`,
      `finals0` and `feeds0` are the engine's input, frames processed, final
      flags and process calls before the first block, `fed` the process calls
      owed for the blocks before srcPos. */
  method FeedRubberBand<T>(src: Buffer<T>, srcPos: nat, heads: array<RubberBandEngine.Head<T>>,
                           st: RubberBandEngine.RubberBand<T>, ghost snap: seq<seq<T>>, ghost marks: seq<nat>,
                           ghost input0: seq<seq<T>>, ghost processed0: nat, ghost finals0: nat,
                           ghost feeds0: seq<RubberBandEngine.Call>, ghost fed: seq<RubberBandEngine.Call>)
    returns (ghost newFed: seq<RubberBandEngine.Call>)
    requires src.Valid() && st.Valid() && src.Snapshot() == snap
    requires st.channels == src.channels && srcPos < src.samples && heads.Length == src.channels
    requires forall ch | 0 <= ch < src.channels :: src.data[ch] as object != heads
    requires srcPos == |marks| * ProcessSize && |input0| == src.channels
    requires RubberBandFedUpTo(st, input0, processed0, finals0, feeds0, snap, src.samples, |marks|, fed)
    modifies st, heads
    ensures src.Snapshot() == snap && st.Valid()
    ensures RubberBandFedUpTo(st, input0, processed0, finals0, feeds0, snap, src.samples, |marks| + 1, newFed)
    ensures st.retrieved == old(st.retrieved) && st.delivered == old(st.delivered)
    // This block's call: process of its frames, flagged final if it is the last.
    ensures var n := BlockLen(srcPos, src.samples);
      && st.input == Concat(old(st.input), Slice(snap, srcPos, n))
      && st.finals == old(st.finals) + (if srcPos + n == src.samples then 1 else 0)
      && st.log == old(st.log) + [RubberBandEngine.Process(n, srcPos + n == src.samples)]
  {
    var length := src.samples;
    ghost var logBefore := st.log;
    var numToSend, finished := ProcessBlockRubberBand(src, srcPos, heads, st);
    RubberBandEngine.FeedsProcess(logBefore, numToSend, finished);
    assert FedFrames(|marks|, length) == srcPos;
    assert FedFrames(|marks| + 1, length) == srcPos + numToSend;
    ConcatSlices(input0, snap, srcPos, numToSend);
    newFed := fed + [RubberBandEngine.Call.Process(numToSend, finished)];
    RubberBandEngine.PlanAdvance(feeds0, fed, srcPos, length);
  }

  /** One retrieve of the RubberBand drain loop: points every channel's write
      head at frame destPos of the destination and retrieves `n` ready frames
      through them, so that the destination's first destPos + n frames of every
      channel are what the engine has handed out (after `delivered0`). */
  method RetrieveRubberBand<T>(st: RubberBandEngine.RubberBand<T>, heads: array<RubberBandEngine.Head<T>>,
                                  dest: Buffer<T>, destPos: nat, n: nat, ghost delivered0: seq<seq<T>>,
                                  ghost orig: seq<seq<T>>)
    requires dest.Valid() && st.Valid() && st.channels == dest.channels
    requires heads.Length == dest.channels && forall ch | 0 <= ch < dest.channels :: dest.data[ch] as object != heads
    requires destPos + n <= dest.samples && n <= st.Available() && |delivered0| == dest.channels
    requires st.delivered == Concat(delivered0, Slice(dest.Snapshot(), 0, destPos))
    requires |orig| == dest.channels && Covers(orig, 0, dest.samples)
    requires forall ch, k | 0 <= ch < dest.channels && destPos <= k < dest.samples :: dest.data[ch][k] == orig[ch][k]
    modifies st, heads, dest.Repr
    ensures st.Valid()
    ensures st.delivered == Concat(delivered0, Slice(dest.Snapshot(), 0, destPos + n))
    ensures forall ch, k | 0 <= ch < dest.channels && 0 <= k < dest.samples && !(destPos <= k < destPos + n) ::
      dest.data[ch][k] == old(dest.data[ch][k])
    // Frames past the retrieved ones still hold what they held before the drain (`orig`).
    ensures forall ch, k | 0 <= ch < dest.channels && destPos + n <= k < dest.samples :: dest.data[ch][k] == orig[ch][k]
    ensures st.retrieved == old(st.retrieved) + n
    ensures st.input == old(st.input) && st.processed == old(st.processed) && st.finals == old(st.finals)
    ensures st.log == old(st.log) + [RubberBandEngine.Retrieve(n)]
  {
    ghost var before := dest.Snapshot();
    PointHeads(heads, dest, destPos);
    ghost var deliveredBefore := st.delivered;
    ghost var pending := seq(dest.channels, ch requires 0 <= ch < dest.channels reads st => st.Pending(ch, n));
    st.Retrieve(heads[..], n);

    ghost var after := dest.Snapshot();
    forall ch | 0 <= ch < dest.channels
      ensures after[ch][0..destPos + n] == before[ch][0..destPos] + pending[ch]
    {
      forall k | 0 <= k < destPos + n
        ensures after[ch][k] == (before[ch][0..destPos] + pending[ch])[k]
      {
      }
    }
    assert st.delivered == Concat(deliveredBefore, pending);
    ConcatExtend(delivered0, before, after, destPos, n, pending);
  }

  /** Writing `pending` right after the first `pos` frames of every channel
      extends what those frames hold by `pending`. */
  lemma ConcatExtend<T>(d0: seq<seq<T>>, before: seq<seq<T>>, after: seq<seq<T>>, pos: nat, n: nat, pending: seq<seq<T>>)
    requires |d0| == |before| == |after| == |pending|
    requires Covers(before, 0, pos) && Covers(after, 0, pos + n)
    requires forall ch | 0 <= ch < |after| :: after[ch][0..pos + n] == before[ch][0..pos] + pending[ch]
    ensures Concat(Concat(d0, Slice(before, 0, pos)), pending) == Concat(d0, Slice(after, 0, pos + n))
  {
    forall ch | 0 <= ch < |d0|
      ensures (d0[ch] + before[ch][0..pos]) + pending[ch] == d0[ch] + after[ch][0..pos + n]
    {
      AppendAssoc(d0[ch], before[ch][0..pos], pending[ch]);
    }
  }

  /** One step of the RubberBand drain plan: when available() answers
      neither -1 nor 0 and the destination has room, the plan retrieves n
      frames and goes on from there. */
  lemma RubberBandDrainPlanStep<T>(avail: (seq<seq<T>>, nat, nat) -> RubberBandEngine.Availability, input: seq<seq<T>>,
                                   finals: nat, retrieved: nat, pos: nat, destLen: nat, log: seq<RubberBandEngine.Call>,
                                   retrieved': nat, pos': nat, log': seq<RubberBandEngine.Call>)
    requires pos <= destLen
    requires var numReady := ClampReady(avail(input, finals, retrieved));
      var n := if numReady == -1 then 0 else ReceiveCount(numReady, pos, destLen);
      && n != 0 && retrieved' == retrieved + n && pos' == pos + n && log' == log + [RubberBandEngine.Retrieve(n)]
    ensures var plan := RubberBandDrainPlan(avail, input, finals, retrieved, pos, destLen);
      var rest := RubberBandDrainPlan(avail, input, finals, retrieved', pos', destLen);
      log + plan.calls == log' + rest.calls && plan.end == rest.end && plan.early == rest.early
  {
    var n := pos' - pos;
    var rest := RubberBandDrainPlan(avail, input, finals, retrieved', pos', destLen);
    AppendAssoc(log, [RubberBandEngine.Retrieve(n)], rest.calls);
  }

  /** Every call of a RubberBand drain plan retrieves between 1 and
      ProcessSize frames, and together they retrieve the frames from `pos` to
      where it stops. */
  lemma {:induction false} RubberBandDrainRetrieves<T>(avail: (seq<seq<T>>, nat, nat) -> RubberBandEngine.Availability,
                                                       input: seq<seq<T>>, finals: nat, retrieved: nat, pos: nat,
                                                       destLen: nat)
    requires pos <= destLen
    ensures var plan := RubberBandDrainPlan(avail, input, finals, retrieved, pos, destLen);
      && (forall i | 0 <= i < |plan.calls| :: plan.calls[i].Retrieve? && 1 <= plan.calls[i].frames <= ProcessSize)
      && RubberBandEngine.FramesRetrieved(plan.calls) == plan.end - pos
    decreases destLen - pos
  {
    var numReady := ClampReady(avail(input, finals, retrieved));
    var n := if numReady == -1 then 0 else ReceiveCount(numReady, pos, destLen);
    if n != 0 {
      RubberBandDrainRetrieves(avail, input, finals, retrieved + n, pos + n, destLen);
      var rest := RubberBandDrainPlan(avail, input, finals, retrieved + n, pos + n, destLen).calls;
      var calls := [RubberBandEngine.Retrieve(n)] + rest;
      assert RubberBandDrainPlan(avail, input, finals, retrieved, pos, destLen).calls == calls;
      assert RubberBandEngine.FramesRetrieved(calls) == n + RubberBandEngine.FramesRetrieved(rest) by {
        assert calls[1..] == rest;
      }
      forall i | 0 <= i < |calls|
        ensures calls[i].Retrieve? && 1 <= calls[i].frames <= ProcessSize
      {
        if i > 0 {
          assert calls[i] == rest[i - 1];
        }
      }
    }
  }

  /** The state of the engine and the destination when a RubberBand drain
      loop starts: dest_pos, the engine's input, frames processed, final
      flags, frames retrieved and call log, and the destination's samples. */
  datatype RubberBandDrainStart<T> = RubberBandDrainStart(pos: nat, input: seq<seq<T>>, processed: nat, finals: nat,
                                                          retrieved: nat, log: seq<RubberBandEngine.Call>,
                                                          dest: seq<seq<T>>)

  /** Where a RubberBand drain loop that started at `from` stands at dest_pos
      `pos`. The engine's input and final flags are unchanged, and it has
      handed out the frames [from.pos, pos), which the destination holds
      after what it handed out before (`delivered0`); the frames from pos on
      are as they were. The calls made so far and the calls the plan still
      makes from here add up to the plan from the start, which ends where,
      and returns early exactly when, the plan from here does. */
  ghost predicate RubberBandDraining<T>(st: RubberBandEngine.RubberBand<T>, dest: Buffer<T>, delivered0: seq<seq<T>>,
                                        from: RubberBandDrainStart<T>, pos: nat)
    reads st, dest.Repr
  {
    && st.Valid() && dest.Valid() && st.channels == dest.channels && |delivered0| == dest.channels
    && |from.dest| == dest.channels && Covers(from.dest, 0, dest.samples)
    && from.pos <= pos <= dest.samples
    && st.input == from.input && st.processed == from.processed && st.finals == from.finals
    && st.retrieved == from.retrieved + (pos - from.pos)
    && st.delivered == Concat(delivered0, Slice(dest.Snapshot(), 0, pos))
    && (forall ch, k | 0 <= ch < dest.channels && pos <= k < dest.samples :: dest.data[ch][k] == from.dest[ch][k])
    && var plan := RubberBandDrainPlan(st.avail, from.input, from.finals, from.retrieved, from.pos, dest.samples);
       var rest := RubberBandDrainPlan(st.avail, from.input, from.finals, st.retrieved, pos, dest.samples);
       from.log + plan.calls == st.log + rest.calls && rest.end == plan.end && rest.early == plan.early
  }

  /** One pass of the RubberBand drain loop that retrieves: with available()
      answering neither -1 nor 0 and room in the destination, it retrieves
      min(available(), ProcessSize, room left) frames at dest_pos. */
  method RetrieveStepRubberBand<T>(st: RubberBandEngine.RubberBand<T>, heads: array<RubberBandEngine.Head<T>>,
                                   dest: Buffer<T>, ghost delivered0: seq<seq<T>>, ghost from: RubberBandDrainStart<T>,
                                   pos: nat, numToReceive: nat)
    returns (newPos: nat)
    requires RubberBandDraining(st, dest, delivered0, from, pos)
    requires heads.Length == dest.channels && forall ch | 0 <= ch < dest.channels :: dest.data[ch] as object != heads
    requires var numReady := ClampReady(st.Available());
      numToReceive == (if numReady == -1 then 0 else ReceiveCount(numReady, pos, dest.samples)) && numToReceive != 0
    modifies st, heads, dest.Repr
    ensures newPos == pos + numToReceive
    ensures RubberBandDraining(st, dest, delivered0, from, newPos)
  {
    ghost var logBefore, retrievedBefore := st.log, st.retrieved;
    RetrieveRubberBand(st, heads, dest, pos, numToReceive, delivered0, from.dest);
    newPos := pos + numToReceive;
    RubberBandDrainPlanStep(st.avail, from.input, from.finals, retrievedBefore, pos, dest.samples, logBefore,
                            st.retrieved, newPos, st.log);
  }

  /** The drain loop run after every RubberBand block. It stops (`done`) where
      stretch() returns early: when available() answers -1, or when frames are
      ready but the destination is full. It leaves the loop, to feed the next
      block, only when available() answers 0. */
  method DrainRubberBand<T>(st: RubberBandEngine.RubberBand<T>, heads: array<RubberBandEngine.Head<T>>,
                               dest: Buffer<T>, destPos: nat, ghost delivered0: seq<seq<T>>, ghost orig: seq<seq<T>>)
    returns (newPos: nat, done: bool)
    requires dest.Valid() && st.Valid() && st.channels == dest.channels
    requires heads.Length == dest.channels && forall ch | 0 <= ch < dest.channels :: dest.data[ch] as object != heads
    requires destPos <= dest.samples && |delivered0| == dest.channels
    requires st.delivered == Concat(delivered0, Slice(dest.Snapshot(), 0, destPos))
    requires |orig| == dest.channels && Covers(orig, 0, dest.samples)
    requires forall ch, k | 0 <= ch < dest.channels && destPos <= k < dest.samples :: dest.data[ch][k] == orig[ch][k]
    modifies st, heads, dest.Repr
    ensures st.Valid()
    ensures destPos <= newPos <= dest.samples && st.retrieved == old(st.retrieved) + (newPos - destPos)
    ensures st.delivered == Concat(delivered0, Slice(dest.Snapshot(), 0, newPos))
    ensures forall ch, k | 0 <= ch < dest.channels && newPos <= k < dest.samples ::
      dest.data[ch][k] == old(dest.data[ch][k])
    // Frames past the new dest_pos still hold what they held before the drain (`orig`).
    ensures forall ch, k | 0 <= ch < dest.channels && newPos <= k < dest.samples :: dest.data[ch][k] == orig[ch][k]
    ensures st.input == old(st.input) && st.processed == old(st.processed) && st.finals == old(st.finals)
    // It makes exactly the retrieve calls of the drain plan, stops where it
    // does, and returns early exactly when it does.
    ensures var plan := RubberBandDrainPlan(st.avail, st.input, st.finals, old(st.retrieved), destPos, dest.samples);
      st.log == old(st.log) + plan.calls && newPos == plan.end && done == plan.early
    ensures RubberBandEngine.Feeds(st.log) == RubberBandEngine.Feeds(old(st.log))
    ensures done ==> st.Available() == -1 || (newPos == dest.samples && st.Available() > 0)
    ensures !done ==> st.Available() == 0
  {
    newPos, done := destPos, false;
    ghost var from := RubberBandDrainStart(destPos, st.input, st.processed, st.finals, st.retrieved, st.log, orig);
    while true
      invariant RubberBandDraining(st, dest, delivered0, from, newPos)
      decreases dest.samples - newPos
    {
      var numReady := ClampReady(st.Available());
      if numReady == -1 {
        done := true;
        break;
      }
      var numToReceive := ReceiveCount(numReady, newPos, dest.samples);
      if numReady != 0 && numToReceive == 0 {
        done := true;
        break;
      }
      if numToReceive == 0 {
        break;
      }
      newPos := RetrieveStepRubberBand(st, heads, dest, delivered0, from, newPos, numToReceive);
    }
    RubberBandDrainRetrieves(st.avail, from.input, from.finals, from.retrieved, destPos, dest.samples);
    ghost var plan := RubberBandDrainPlan(st.avail, from.input, from.finals, from.retrieved, destPos, dest.samples);
    KeptAppend(old(st.log), plan.calls, RubberBandEngine.IsFeed);
    KeptNone(plan.calls, RubberBandEngine.IsFeed);
  }

  /** The drain plan run after one more block, from where the last recorded
      drain stopped, extends the record by that block; it counts as one that
      went on unless it returned. */
  lemma RubberBandPlannedStep<T>(avail: (seq<seq<T>>, nat, nat) -> RubberBandEngine.Availability,
                                 input0: seq<seq<T>>, finals0: nat, retrieved0: nat, snap: seq<seq<T>>,
                                 length: nat, destLen: nat, marks: seq<nat>, drains: seq<seq<RubberBandEngine.Call>>,
                                 from: nat, calls: seq<RubberBandEngine.Call>, end: nat, early: bool)
    requires Covers(snap, 0, length) && |input0| == |snap|
    requires RubberBandDrainsPlanned(avail, input0, finals0, retrieved0, snap, length, destLen, marks, drains, |marks|)
    requires from == DrainFrom(marks, |marks|)
    requires RubberBandDrainRecorded(avail, input0, finals0, retrieved0, snap, length, destLen, |marks|, from,
                                     calls, end, early)
    ensures RubberBandDrainsPlanned(avail, input0, finals0, retrieved0, snap, length, destLen, marks + [end],
                                    drains + [calls], if early then |marks| else |marks| + 1)
  {
    var m, d := marks + [end], drains + [calls];
    var n := if early then |marks| else |marks| + 1;
    forall i | 0 <= i < |m|
      ensures RubberBandDrainRecorded(avail, input0, finals0, retrieved0, snap, length, destLen, i,
                                      DrainFrom(m, i), d[i], m[i], n <= i)
    {
      assert DrainFrom(m, i) == DrainFrom(marks, i);
      if i < |marks| {
        assert m[i] == marks[i] && d[i] == drains[i];
      }
    }
    assert |d| == |m|;
    assert RubberBandDrainsPlanned(avail, input0, finals0, retrieved0, snap, length, destLen, m, d, n);
  }

  /** The drains recorded as drain plans moved dest_pos forward and stayed in
      the destination, and each of those that went on ended on available()
      answering 0. */
  lemma RubberBandPlannedDrained<T>(avail: (seq<seq<T>>, nat, nat) -> RubberBandEngine.Availability,
                                    input0: seq<seq<T>>, finals0: nat, retrieved0: nat, snap: seq<seq<T>>,
                                    length: nat, destLen: nat, marks: seq<nat>,
                                    drains: seq<seq<RubberBandEngine.Call>>, n: nat)
    requires Covers(snap, 0, length) && |input0| == |snap|
    requires RubberBandDrainsPlanned(avail, input0, finals0, retrieved0, snap, length, destLen, marks, drains, n)
    ensures RubberBandDrained(avail, input0, finals0, retrieved0, snap, length, destLen, marks, n)
  {
    forall i | 0 <= i < |marks|
      ensures marks[i] <= destLen
      ensures i < n ==> AvailableAfter(avail, input0, finals0, retrieved0, snap, length, i + 1, marks[i]) == 0
    {
      assert RubberBandDrainRecorded(avail, input0, finals0, retrieved0, snap, length, destLen, i,
                                     DrainFrom(marks, i), drains[i], marks[i], n <= i);
    }
    forall k {:trigger DrainFrom(marks, k)} | 0 <= k < |marks|
      ensures DrainFrom(marks, k) <= marks[k]
    {
      assert RubberBandDrainRecorded(avail, input0, finals0, retrieved0, snap, length, destLen, k,
                                     DrainFrom(marks, k), drains[k], marks[k], n <= k);
    }
    forall i, j | 0 <= i < j < |marks|
      ensures marks[i] <= marks[j]
    {
      Rising(marks, i, j);
    }
  }

  /** Where the RubberBand loop stands between feeding the block at srcPos
      and draining after it: that block fed, every earlier drain recorded and
      ended on available() answering 0, and the calls so far those of the
      earlier blocks followed by this block's process. */
  ghost predicate RubberBandAwaiting<T>(src: Buffer<T>, st: RubberBandEngine.RubberBand<T>, dest: Buffer<T>,
                                        start: RubberBandStart<T>, srcPos: nat, destPos: nat,
                                        fed: seq<RubberBandEngine.Call>, marks: seq<nat>,
                                        drains: seq<seq<RubberBandEngine.Call>>)
    reads src.Repr, st, dest.Repr
  {
    && RubberBandFed(src, st, dest, start, srcPos, destPos, fed, marks)
    && RubberBandDrainsPlanned(st.avail, start.input, start.finals, start.retrieved, start.snap, src.samples,
                               dest.samples, marks, drains, |marks|)
    && |drains| * ProcessSize < src.samples
    && var n := BlockLen(srcPos, src.samples);
       st.log == start.log + RubberBandEngine.BlockCalls(src.samples, drains)
                 + [RubberBandEngine.Process(n, srcPos + n == src.samples)]
  }

  /** The feed half of a pass of the RubberBand loop, over the loop's state:
      from where the loop stands at srcPos to where it awaits the drain. */
  method FeedPassRubberBand<T>(src: Buffer<T>, st: RubberBandEngine.RubberBand<T>, dest: Buffer<T>,
                               srcHeads: array<RubberBandEngine.Head<T>>, srcPos: nat, destPos: nat,
                               ghost start: RubberBandStart<T>, ghost fed: seq<RubberBandEngine.Call>,
                               ghost marks: seq<nat>, ghost drains: seq<seq<RubberBandEngine.Call>>)
    returns (ghost newFed: seq<RubberBandEngine.Call>)
    requires st.channels == src.channels && srcPos < src.samples && srcHeads.Length == src.channels
    requires RubberBandLooping(src, st, dest, start, srcPos, destPos, fed, marks, drains, false)
    requires forall ch | 0 <= ch < src.channels :: src.data[ch] as object != srcHeads && dest.data[ch] as object != srcHeads
    modifies st, srcHeads
    ensures RubberBandAwaiting(src, st, dest, start, srcPos, destPos, newFed, marks, drains)
  {
    ghost var destSnap := dest.Snapshot();
    newFed := FeedRubberBand(src, srcPos, srcHeads, st, start.snap, marks, start.input, start.processed, start.finals,
                             start.feeds, fed);
    assert dest.Snapshot() == destSnap;
  }

  /** The drain half of a pass of the RubberBand loop, once the block at
      srcPos has been fed: it drains from destPos, making exactly the calls
      of the drain plan from there, and the loop then stands at srcPos +
      ProcessSize with that drain recorded. `done` says that stretch()
      returns here. */
  method DrainPassRubberBand<T>(src: Buffer<T>, st: RubberBandEngine.RubberBand<T>, dest: Buffer<T>,
                                destHeads: array<RubberBandEngine.Head<T>>, srcPos: nat, destPos: nat,
                                ghost start: RubberBandStart<T>, ghost fed: seq<RubberBandEngine.Call>,
                                ghost marks: seq<nat>, ghost drains: seq<seq<RubberBandEngine.Call>>)
    returns (newPos: nat, ghost newMarks: seq<nat>, ghost newDrains: seq<seq<RubberBandEngine.Call>>, done: bool)
    requires st.channels == src.channels && dest.channels == src.channels
    requires RubberBandAwaiting(src, st, dest, start, srcPos, destPos, fed, marks, drains)
    requires src.Repr !! dest.Repr && destHeads.Length == src.channels
    requires forall ch | 0 <= ch < src.channels :: src.data[ch] as object != destHeads && dest.data[ch] as object != destHeads
    modifies st, destHeads, dest.Repr
    ensures newMarks == marks + [newPos]
    ensures RubberBandLooping(src, st, dest, start, srcPos + ProcessSize, newPos, fed, newMarks, newDrains, done)
    ensures st.input == old(st.input) && st.finals == old(st.finals)
    ensures var plan := RubberBandDrainPlan(st.avail, st.input, st.finals, old(st.retrieved), destPos, dest.samples);
      && st.log == old(st.log) + plan.calls && newPos == plan.end && done == plan.early
      && newDrains == drains + [plan.calls] && st.retrieved == old(st.retrieved) + (newPos - destPos)
  {
    newPos, done := DrainRubberBand(st, destHeads, dest, destPos, start.delivered, start.dest);
    newMarks := marks + [newPos];
    assert (|marks| + 1) * ProcessSize == srcPos + ProcessSize;
    assert st.Available() == AvailableAfter(st.avail, start.input, start.finals, start.retrieved, start.snap, src.samples,
                                            |marks| + 1, newPos);
    ghost var plan := RubberBandDrainPlan(st.avail, st.input, st.finals, old(st.retrieved), destPos, dest.samples);
    newDrains := drains + [plan.calls];
    // The drain's plan, in the terms the record of drains uses.
    assert DrainFrom(marks, |marks|) == destPos;
    assert st.input == Concat(start.input, Slice(start.snap, 0, FedFrames(|marks| + 1, src.samples)));
    assert st.finals == start.finals + EndSignals(|marks| + 1, src.samples);
    assert old(st.retrieved) == start.retrieved + DrainFrom(marks, |marks|);
    RubberBandPassed(src, st, dest, start, srcPos, newPos, fed, marks, drains, plan.calls, done);
  }

  /** Once the drain after the block at srcPos has ended at newPos, making
      the calls of the drain plan from where the previous drain ended and
      returning from stretch() exactly when `done` holds, the loop stands at
      srcPos + ProcessSize with that drain appended to the record and its
      calls to the log. */
  lemma RubberBandPassed<T>(src: Buffer<T>, st: RubberBandEngine.RubberBand<T>, dest: Buffer<T>,
                            start: RubberBandStart<T>, srcPos: nat, newPos: nat, fed: seq<RubberBandEngine.Call>,
                            marks: seq<nat>, drains: seq<seq<RubberBandEngine.Call>>,
                            calls: seq<RubberBandEngine.Call>, done: bool)
    requires RubberBandProgress(src, st, dest, start, srcPos + ProcessSize, newPos, fed, marks + [newPos])
    requires srcPos < src.samples
    requires done ==> st.Available() == -1 || (newPos == dest.samples && st.Available() > 0)
    requires !done ==> st.Available() == 0
    requires RubberBandDrainsPlanned(st.avail, start.input, start.finals, start.retrieved, start.snap, src.samples,
                                     dest.samples, marks, drains, |marks|)
    requires RubberBandDrainRecorded(st.avail, start.input, start.finals, start.retrieved, start.snap, src.samples,
                                     dest.samples, |marks|, DrainFrom(marks, |marks|), calls, newPos, done)
    requires |drains| * ProcessSize < src.samples
    requires var n := BlockLen(srcPos, src.samples);
      st.log == start.log + RubberBandEngine.BlockCalls(src.samples, drains)
                + [RubberBandEngine.Process(n, srcPos + n == src.samples)] + calls
    ensures RubberBandLooping(src, st, dest, start, srcPos + ProcessSize, newPos, fed, marks + [newPos],
                              drains + [calls], done)
  {
    RubberBandPlannedStep(st.avail, start.input, start.finals, start.retrieved, start.snap, src.samples,
                          dest.samples, marks, drains, DrainFrom(marks, |marks|), calls, newPos, done);
    var n := BlockLen(srcPos, src.samples);
    assert srcPos == |drains| * ProcessSize;
    RubberBandEngine.BlockCallsStep(src.samples, drains, calls, srcPos);
    var blocks := RubberBandEngine.BlockCalls(src.samples, drains);
    var step := [RubberBandEngine.Process(n, srcPos + n == src.samples)];
    AppendAssoc(start.log, blocks, step);
    AppendAssoc(start.log, blocks + step, calls);
    var m := marks + [newPos];
    assert (if done then |m| - 1 else |m|) == (if done then |marks| else |marks| + 1);
    assert RubberBandDrainsPlanned(st.avail, start.input, start.finals, start.retrieved, start.snap, src.samples,
                                   dest.samples, m, drains + [calls], if done then |m| - 1 else |m|);
    assert |drains + [calls]| * ProcessSize < src.samples + ProcessSize;
    assert st.log == start.log + RubberBandEngine.BlockCalls(src.samples, drains + [calls]);
  }

  /** What the RubberBand outer loop keeps from block to block, standing at
      srcPos with the drains so far ending at `marks` after the calls
      `drains`: the progress facts; the record of every drain, each but an
      early-returning one ended on available() answering 0; and the call log
      so far. `done` says that stretch() has returned, from inside the last
      drain, on the sentinel or a full destination with output ready. */
  ghost predicate RubberBandLooping<T>(src: Buffer<T>, st: RubberBandEngine.RubberBand<T>, dest: Buffer<T>,
                                       start: RubberBandStart<T>, srcPos: nat, destPos: nat,
                                       fed: seq<RubberBandEngine.Call>, marks: seq<nat>,
                                       drains: seq<seq<RubberBandEngine.Call>>, done: bool)
    reads src.Repr, st, dest.Repr
  {
    && RubberBandProgress(src, st, dest, start, srcPos, destPos, fed, marks)
    && srcPos < src.samples + ProcessSize
    && (done ==> marks != [] && (st.Available() == -1 || (destPos == dest.samples && st.Available() > 0)))
    && (!done && srcPos > 0 ==> st.Available() == 0)
    && RubberBandDrainsPlanned(st.avail, start.input, start.finals, start.retrieved, start.snap, src.samples,
                               dest.samples, marks, drains, if done then |marks| - 1 else |marks|)
    && |drains| * ProcessSize < src.samples + ProcessSize
    && st.log == start.log + RubberBandEngine.BlockCalls(src.samples, drains)
  }

  /** Before the first block, the loop stands at the start: nothing fed,
      nothing drained. */
  lemma RubberBandStarts<T>(src: Buffer<T>, st: RubberBandEngine.RubberBand<T>, dest: Buffer<T>, start: RubberBandStart<T>)
    requires src.Valid() && dest.Valid() && st.Valid() && st.channels == src.channels && dest.channels == src.channels
    requires start == RubberBandStart(src.Snapshot(), dest.Snapshot(), st.input, st.processed, st.finals,
                                      RubberBandEngine.Feeds(st.log), st.retrieved, st.delivered, st.log)
    ensures RubberBandProgress(src, st, dest, start, 0, 0, [], [])
  {
    ConcatNone(start.input, start.snap, 0);
    ConcatNone(start.delivered, dest.Snapshot(), 0);
  }

  /** One pass of the RubberBand loop: feed the block at srcPos, then drain.
      Afterwards the loop stands at srcPos + ProcessSize, with this block's
      process call and its drain's calls added to the log, and the drain that
      stopped at newPos recorded in the marks. `done` says that stretch()
      returns here: on the sentinel, or on a full destination with output
      still ready. Otherwise available() answered 0. */
  method StepRubberBand<T>(src: Buffer<T>, st: RubberBandEngine.RubberBand<T>, dest: Buffer<T>,
                           srcHeads: array<RubberBandEngine.Head<T>>, destHeads: array<RubberBandEngine.Head<T>>,
                           srcPos: nat, destPos: nat, ghost start: RubberBandStart<T>,
                           ghost fed: seq<RubberBandEngine.Call>, ghost marks: seq<nat>,
                           ghost drains: seq<seq<RubberBandEngine.Call>>)
    returns (newPos: nat, ghost newFed: seq<RubberBandEngine.Call>, ghost newMarks: seq<nat>,
             ghost newDrains: seq<seq<RubberBandEngine.Call>>, done: bool)
    requires st.channels == src.channels && dest.channels == src.channels && srcPos < src.samples
    requires RubberBandLooping(src, st, dest, start, srcPos, destPos, fed, marks, drains, false)
    requires src.Repr !! dest.Repr && srcHeads.Length == src.channels && destHeads.Length == src.channels
    requires forall ch | 0 <= ch < src.channels :: src.data[ch] as object != srcHeads && dest.data[ch] as object != srcHeads
    requires forall ch | 0 <= ch < src.channels :: src.data[ch] as object != destHeads && dest.data[ch] as object != destHeads
    modifies st, srcHeads, destHeads, dest.Repr
    ensures newMarks == marks + [newPos]
    ensures RubberBandLooping(src, st, dest, start, srcPos + ProcessSize, newPos, newFed, newMarks, newDrains, done)
  {
    newFed := FeedPassRubberBand(src, st, dest, srcHeads, srcPos, destPos, start, fed, marks, drains);
    newPos, newMarks, newDrains, done := DrainPassRubberBand(src, st, dest, destHeads, srcPos, destPos, start, newFed,
                                                             marks, drains);
  }

  /** The outer loop of stretch() for RubberBand, over a destination and two
      pointer vectors already allocated, from the state recorded in `start`.
      Besides the final dest_pos it returns, as ghosts, the dest_pos each
      block's drain ended at, the process calls made, the calls each drain
      made, and whether it returned early from inside a drain. It ends where the loop facts hold for the
      blocks fed; each drain but an early-returning one ended on available()
      answering 0; an early return was on the sentinel or a full destination
      with output ready; and otherwise the whole source was fed. */
  method LoopRubberBand<T>(src: Buffer<T>, st: RubberBandEngine.RubberBand<T>, dest: Buffer<T>,
                           srcHeads: array<RubberBandEngine.Head<T>>, destHeads: array<RubberBandEngine.Head<T>>,
                           ghost start: RubberBandStart<T>)
    returns (destPos: nat, ghost marks: seq<nat>, ghost fed: seq<RubberBandEngine.Call>,
             ghost drains: seq<seq<RubberBandEngine.Call>>, ghost stopped: bool)
    requires src.Valid() && dest.Valid() && st.Valid()
    requires st.channels == src.channels && dest.channels == src.channels && src.Repr !! dest.Repr
    requires srcHeads.Length == src.channels && destHeads.Length == src.channels
    requires forall ch | 0 <= ch < src.channels :: src.data[ch] as object != srcHeads && dest.data[ch] as object != srcHeads
    requires forall ch | 0 <= ch < src.channels :: src.data[ch] as object != destHeads && dest.data[ch] as object != destHeads
    requires start == RubberBandStart(src.Snapshot(), dest.Snapshot(), st.input, st.processed, st.finals,
                                      RubberBandEngine.Feeds(st.log), st.retrieved, st.delivered, st.log)
    modifies st, srcHeads, destHeads, dest.Repr
    ensures RubberBandProgress(src, st, dest, start, |marks| * ProcessSize, destPos, fed, marks)
    ensures marks != [] ==> (|marks| - 1) * ProcessSize < src.samples
    ensures stopped ==> marks != []
    ensures RubberBandDrained(st.avail, start.input, start.finals, start.retrieved, start.snap, src.samples,
                              dest.samples, marks, if stopped then |marks| - 1 else |marks|)
    ensures stopped ==> st.Available() == -1 || (destPos == dest.samples && st.Available() > 0)
    ensures !stopped ==> src.samples <= |marks| * ProcessSize && (src.samples > 0 ==> st.Available() == 0)
    ensures |drains| * ProcessSize < src.samples + ProcessSize
    ensures RubberBandDrainsPlanned(st.avail, start.input, start.finals, start.retrieved, start.snap, src.samples,
                                    dest.samples, marks, drains, if stopped then |marks| - 1 else |marks|)
    ensures st.log == start.log + RubberBandEngine.BlockCalls(src.samples, drains)
  {
    destPos := 0;
    var length := src.samples;
    fed, marks, drains := [], [], [];
    RubberBandStarts(src, st, dest, start);

    var srcPos: nat := 0;
    var done := false;
    // stretch() returns from inside the drain loop; here that sets `done`,
    // which ends the loop, and nothing follows it.
    while srcPos < length && !done
      invariant RubberBandLooping(src, st, dest, start, srcPos, destPos, fed, marks, drains, done)
    {
      destPos, fed, marks, drains, done := StepRubberBand(src, st, dest, srcHeads, destHeads, srcPos, destPos, start,
                                                          fed, marks, drains);
      srcPos := srcPos + ProcessSize;
    }
    stopped := done;
    RubberBandPlannedDrained(st.avail, start.input, start.finals, start.retrieved, start.snap, length, dest.samples,
                             marks, drains, if done then |marks| - 1 else |marks|);
    if marks != [] {
      assert (|marks| - 1) * ProcessSize == srcPos - ProcessSize;
    }
  }

  /** Where the RubberBand loop leaves, the progress facts hold counted from
      the start, and every process call made was owed, in plan order. */
  lemma RubberBandDone<T>(src: Buffer<T>, st: RubberBandEngine.RubberBand<T>, dest: Buffer<T>, start: RubberBandStart<T>,
                          srcPos: nat, destPos: nat, fed: seq<RubberBandEngine.Call>, marks: seq<nat>)
    requires RubberBandProgress(src, st, dest, start, srcPos, destPos, fed, marks)
    ensures st.Valid() && src.Snapshot() == start.snap
    ensures st.input == Concat(start.input, Slice(start.snap, 0, FedFrames(|marks|, src.samples)))
    ensures st.processed == start.processed + FedFrames(|marks|, src.samples)
    ensures st.finals == start.finals + EndSignals(|marks|, src.samples)
    ensures |fed| == |marks| && RubberBandEngine.Feeds(st.log) == start.feeds + fed
    ensures RubberBandEngine.PaidUpTo(fed, |marks| * ProcessSize, src.samples)
    ensures destPos <= dest.samples && st.retrieved == start.retrieved + destPos
    ensures st.delivered == Concat(start.delivered, Slice(dest.Snapshot(), 0, destPos))
    ensures forall ch, k | 0 <= ch < dest.channels && destPos <= k < dest.samples :: dest.data[ch][k] == start.dest[ch][k]
    ensures if marks == [] then destPos == 0 else marks[|marks| - 1] == destPos
  {
  }

  /** What LoopRubberBand promises about the state it leaves, short of the
      call log. */
  ghost predicate RubberBandLoopEnded<T>(src: Buffer<T>, st: RubberBandEngine.RubberBand<T>, dest: Buffer<T>,
                                         start: RubberBandStart<T>, destPos: nat, fed: seq<RubberBandEngine.Call>,
                                         marks: seq<nat>, drains: seq<seq<RubberBandEngine.Call>>, stopped: bool)
    reads src.Repr, st, dest.Repr
  {
    && RubberBandProgress(src, st, dest, start, |marks| * ProcessSize, destPos, fed, marks)
    && (marks != [] ==> (|marks| - 1) * ProcessSize < src.samples)
    && (stopped ==> marks != [])
    && RubberBandDrained(st.avail, start.input, start.finals, start.retrieved, start.snap, src.samples,
                         dest.samples, marks, if stopped then |marks| - 1 else |marks|)
    && (stopped ==> st.Available() == -1 || (destPos == dest.samples && st.Available() > 0))
    && (!stopped ==> src.samples <= |marks| * ProcessSize && (src.samples > 0 ==> st.Available() == 0))
    && RubberBandDrainsPlanned(st.avail, start.input, start.finals, start.retrieved, start.snap, src.samples,
                               dest.samples, marks, drains, if stopped then |marks| - 1 else |marks|)
  }

  /** What stretch() for RubberBand promises once its loop has left, in a
      destination that was all `zero`: the loop facts for the blocks fed,
      read as what the engine was given, what it handed out, and every call
      made on it, against the engine's input, frames processed, final flags,
      call log, frames retrieved and samples handed out before the loop
      (`input0` and so on, as recorded in `start`). */
  lemma RubberBandFinished<T>(src: Buffer<T>, st: RubberBandEngine.RubberBand<T>, dest: Buffer<T>,
                              start: RubberBandStart<T>, zero: T, destPos: nat, marks: seq<nat>,
                              fed: seq<RubberBandEngine.Call>, drains: seq<seq<RubberBandEngine.Call>>, stopped: bool,
                              input0: seq<seq<T>>, processed0: nat, finals0: nat, log0: seq<RubberBandEngine.Call>,
                              retrieved0: nat, delivered0: seq<seq<T>>)
    requires input0 == start.input && processed0 == start.processed && finals0 == start.finals
    requires retrieved0 == start.retrieved && delivered0 == start.delivered
    requires RubberBandEngine.Feeds(log0) == start.feeds
    requires RubberBandLoopEnded(src, st, dest, start, destPos, fed, marks, drains, stopped)
    requires forall ch, k | 0 <= ch < dest.channels && 0 <= k < dest.samples :: start.dest[ch][k] == zero
    ensures st.Valid()
    ensures st.input == Concat(input0, Slice(src.Snapshot(), 0, FedFrames(|marks|, src.samples)))
    ensures st.processed == processed0 + FedFrames(|marks|, src.samples)
    ensures st.finals == finals0 + EndSignals(|marks|, src.samples)
    ensures var plan := RubberBandEngine.ProcessPlan(Partition(0, src.samples));
      && |marks| <= |plan|
      && RubberBandEngine.Feeds(st.log) == RubberBandEngine.Feeds(log0) + plan[..|marks|]
      && (!stopped ==> |marks| == |plan|)
    ensures destPos <= dest.samples && st.retrieved == retrieved0 + destPos
    ensures st.delivered == Concat(delivered0, Slice(dest.Snapshot(), 0, destPos))
    ensures forall ch, k | 0 <= ch < dest.channels && destPos <= k < dest.samples ::
      dest.data[ch][k] == zero
    ensures if marks == [] then destPos == 0 else marks[|marks| - 1] == destPos
    ensures RubberBandDrained(st.avail, input0, finals0, retrieved0, src.Snapshot(), src.samples,
                              dest.samples, marks, if stopped then |marks| - 1 else |marks|)
    ensures stopped ==> st.Available() == -1 || (destPos == dest.samples && st.Available() > 0)
    ensures !stopped ==> FedFrames(|marks|, src.samples) == src.samples && (src.samples > 0 ==> st.Available() == 0)
    ensures RubberBandDrainsPlanned(st.avail, input0, finals0, retrieved0, src.Snapshot(),
                                    src.samples, dest.samples, marks, drains, if stopped then |marks| - 1 else |marks|)
  {
    RubberBandDone(src, st, dest, start, |marks| * ProcessSize, destPos, fed, marks);
    RubberBandPlanned(src.samples, |marks|, fed);
  }

  /** The loop of stretch() for RubberBand, over a destination already
      allocated with every sample `zero` and the two pointer vectors: what it
      promises, against the engine's input, frames processed, final flags,
      call log, frames retrieved and samples handed out before it (`input0`
      and so on). The ghost results are the frames it fills, the dest_pos
      each block's drain ended at, each drain's calls, and whether it
      returned early, from inside a drain. */
  method FillRubberBand<T>(src: Buffer<T>, st: RubberBandEngine.RubberBand<T>, dest: Buffer<T>,
                           srcHeads: array<RubberBandEngine.Head<T>>, destHeads: array<RubberBandEngine.Head<T>>,
                           zero: T, ghost input0: seq<seq<T>>, ghost processed0: nat, ghost finals0: nat,
                           ghost log0: seq<RubberBandEngine.Call>, ghost retrieved0: nat,
                           ghost delivered0: seq<seq<T>>)
    returns (ghost filled: nat, ghost marks: seq<nat>, ghost drains: seq<seq<RubberBandEngine.Call>>,
             ghost stopped: bool)
    requires src.Valid() && dest.Valid() && st.Valid()
    requires st.channels == src.channels && dest.channels == src.channels && src.Repr !! dest.Repr
    requires srcHeads.Length == src.channels && destHeads.Length == src.channels
    requires forall ch | 0 <= ch < src.channels :: src.data[ch] as object != srcHeads && dest.data[ch] as object != srcHeads
    requires forall ch | 0 <= ch < src.channels :: src.data[ch] as object != destHeads && dest.data[ch] as object != destHeads
    requires forall ch, k | 0 <= ch < dest.channels && 0 <= k < dest.samples :: dest.data[ch][k] == zero
    requires input0 == st.input && processed0 == st.processed && finals0 == st.finals && log0 == st.log
    requires retrieved0 == st.retrieved && delivered0 == st.delivered
    modifies st, srcHeads, destHeads, dest.Repr
    ensures st.Valid()
    ensures st.input == Concat(input0, Slice(src.Snapshot(), 0, FedFrames(|marks|, src.samples)))
    ensures st.processed == processed0 + FedFrames(|marks|, src.samples)
    ensures st.finals == finals0 + EndSignals(|marks|, src.samples)
    ensures var plan := RubberBandEngine.ProcessPlan(Partition(0, src.samples));
      && |marks| <= |plan|
      && RubberBandEngine.Feeds(st.log) == RubberBandEngine.Feeds(log0) + plan[..|marks|]
      && (!stopped ==> |marks| == |plan|)
    ensures filled <= dest.samples && st.retrieved == retrieved0 + filled
    ensures st.delivered == Concat(delivered0, Slice(dest.Snapshot(), 0, filled))
    ensures forall ch, k | 0 <= ch < dest.channels && filled <= k < dest.samples ::
      dest.data[ch][k] == zero
    ensures if marks == [] then filled == 0 else marks[|marks| - 1] == filled
    ensures stopped ==> marks != []
    ensures RubberBandDrained(st.avail, input0, finals0, retrieved0, src.Snapshot(), src.samples,
                              dest.samples, marks, if stopped then |marks| - 1 else |marks|)
    ensures stopped ==> st.Available() == -1 || (filled == dest.samples && st.Available() > 0)
    ensures !stopped ==> FedFrames(|marks|, src.samples) == src.samples && (src.samples > 0 ==> st.Available() == 0)
    ensures |drains| * ProcessSize < src.samples + ProcessSize
    ensures RubberBandDrainsPlanned(st.avail, input0, finals0, retrieved0, src.Snapshot(),
                                    src.samples, dest.samples, marks, drains, if stopped then |marks| - 1 else |marks|)
    ensures st.log == log0 + RubberBandEngine.BlockCalls(src.samples, drains)
  {
    ghost var start := RubberBandStart(src.Snapshot(), dest.Snapshot(), st.input, st.processed, st.finals,
                                       RubberBandEngine.Feeds(st.log), st.retrieved, st.delivered, st.log);
    var destPos;
    ghost var fed;
    assert forall ch, k | 0 <= ch < dest.channels && 0 <= k < dest.samples :: start.dest[ch][k] == zero;
    destPos, marks, fed, drains, stopped := LoopRubberBand(src, st, dest, srcHeads, destHeads, start);
    RubberBandFinished(src, st, dest, start, zero, destPos, marks, fed, drains, stopped, input0, processed0,
                       finals0, log0, retrieved0, delivered0);
    filled := destPos;
  }

  /** stretch() for RubberBand: allocates the destination, (int)(samples *
      stretch_amount) frames long with every sample `zero`, and the two
      pointer vectors, then runs the feed/drain loop. The ghost results are
      the frames it fills (the final dest_pos), the dest_pos each block's
      drain ended at (one per process call made), the calls each drain made,
      and whether stretch() returned early, from inside a drain. */
  method StretchRubberBand<T>(src: Buffer<T>, stretchAmount: real, st: RubberBandEngine.RubberBand<T>, zero: T)
    returns (dest: Buffer<T>, ghost filled: nat, ghost marks: seq<nat>, ghost drains: seq<seq<RubberBandEngine.Call>>,
             ghost stopped: bool)
    requires src.Valid() && st.Valid() && st.channels == src.channels
    requires stretchAmount >= 0.0
    modifies st
    ensures dest.Valid() && fresh(dest) && fresh(dest.Repr)
    ensures dest.channels == src.channels && dest.samples == DestLength(src.samples, stretchAmount)
    ensures st.Valid()
    // The engine is given the first blocks of the source, every channel in order,
    ensures st.input == Concat(old(st.input), Slice(src.Snapshot(), 0, FedFrames(|marks|, src.samples)))
    ensures st.processed == old(st.processed) + FedFrames(|marks|, src.samples)
    ensures st.finals == old(st.finals) + EndSignals(|marks|, src.samples)
    // through the first process calls owed, one per block, the last flagged
    // final, all of them unless it returned early;
    ensures var plan := RubberBandEngine.ProcessPlan(Partition(0, src.samples));
      && |marks| <= |plan|
      && RubberBandEngine.Feeds(st.log) == RubberBandEngine.Feeds(old(st.log)) + plan[..|marks|]
      && (!stopped ==> |marks| == |plan|)
    // the destination starts with exactly what the engine handed out,
    ensures filled <= dest.samples && st.retrieved == old(st.retrieved) + filled
    ensures st.delivered == Concat(old(st.delivered), Slice(dest.Snapshot(), 0, filled))
    // and the rest of it is still zero.
    ensures forall ch, k | 0 <= ch < dest.channels && filled <= k < dest.samples ::
      dest.data[ch][k] == zero
    // A drain followed every block; each but the one it returned from went on
    // because available() answered 0;
    ensures if marks == [] then filled == 0 else marks[|marks| - 1] == filled
    ensures stopped ==> marks != []
    ensures RubberBandDrained(st.avail, old(st.input), old(st.finals), old(st.retrieved), src.Snapshot(), src.samples,
                              dest.samples, marks, if stopped then |marks| - 1 else |marks|)
    // it returned early on the sentinel or on a full destination with output
    // still ready, and otherwise after the whole source with nothing ready.
    ensures stopped ==> st.Available() == -1 || (filled == dest.samples && st.Available() > 0)
    ensures !stopped ==> FedFrames(|marks|, src.samples) == src.samples && (src.samples > 0 ==> st.Available() == 0)
    // Every call made on the engine, in order: per block, process (flagged
    // final on the last), then the retrieve calls of its drain, each taking
    // min(available(), ProcessSize, room left) frames, up to the drain that
    // returned.
    ensures |drains| * ProcessSize < src.samples + ProcessSize
    ensures RubberBandDrainsPlanned(st.avail, old(st.input), old(st.finals), old(st.retrieved), src.Snapshot(),
                                    src.samples, dest.samples, marks, drains, if stopped then |marks| - 1 else |marks|)
    ensures st.log == old(st.log) + RubberBandEngine.BlockCalls(src.samples, drains)
  {
    var destLen := DestLength(src.samples, stretchAmount);
    dest := new Buffer<T>(src.channels, destLen, zero);
    var srcHeads := new RubberBandEngine.Head<T>[src.channels];
    var destHeads := new RubberBandEngine.Head<T>[src.channels];
    filled, marks, drains, stopped := FillRubberBand(src, st, dest, srcHeads, destHeads, zero, old(st.input),
                                                     old(st.processed), old(st.finals), old(st.log),
                                                     old(st.retrieved), old(st.delivered));
  }

  /** The process calls made for the first k blocks are the first k calls
      owed, and all of them once the loop got past the source's end. */
  lemma RubberBandPlanned(length: nat, k: nat, fed: seq<RubberBandEngine.Call>)
    requires |fed| == k && RubberBandEngine.PaidUpTo(fed, k * ProcessSize, length)
    requires k > 0 ==> (k - 1) * ProcessSize < length
    ensures var plan := RubberBandEngine.ProcessPlan(Partition(0, length));
      && k <= |plan| && fed == plan[..k]
      && (length <= k * ProcessSize ==> k == |plan|)
  {
    PartitionTiles(k * ProcessSize, length);
    var plan := RubberBandEngine.ProcessPlan(Partition(0, length));
    assert fed == plan[..k];
  }
}
