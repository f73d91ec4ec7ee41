/** The SoundTouch engine as the adapter sees it (buffered-counter protocol):
    putSamples takes an interleaved block, flush() ends the input, numSamples()
    counts the frames ready and never signals completion, receiveSamples copies
    ready frames out, interleaved. What the engine computes is left open: the
    ready count and the output samples are arbitrary functions fixed when the
    engine is built, so every property of the adapter holds for any engine. */
module SoundTouchEngine {

  import opened Blocks
  import opened CallLogs

  /** The calls the adapter makes on the engine. */
  datatype Call = Put(frames: nat) | Flush | Receive(frames: nat)

  class SoundTouch<T> {
    /** setChannels: the number of interleaved channels. */
    const channels: nat
    /** numSamples(), given the input so far, the flush() count and the frames
        already received. */
    const ready: (seq<T>, nat, nat) -> nat
    /** Interleaved output sample `i`, given the input so far. */
    const emit: (seq<T>, nat) -> T

    /** Every interleaved sample submitted so far. */
    var input: seq<T>
    var flushes: nat
    /** Frames received so far. */
    var received: nat
    /** Every interleaved sample handed out so far. */
    ghost var delivered: seq<T>
    /** Every call made on the engine, in order. */
    ghost var log: seq<Call>

    constructor (channels: nat, ready: (seq<T>, nat, nat) -> nat, emit: (seq<T>, nat) -> T)
      ensures this.channels == channels && this.ready == ready && this.emit == emit
      ensures input == [] && flushes == 0 && received == 0
      ensures delivered == [] && log == []
    {
      this.channels := channels;
      this.ready := ready;
      this.emit := emit;
      input, flushes, received := [], 0, 0;
      delivered, log := [], [];
    }

    /** numSamples(): frames ready to be received, as the engine's fixed ready
        function answers for its current input, flush() count and frames received. */
    function NumSamples(): (n: nat)
      reads this
      ensures n == ready(input, flushes, received)
    {
      ready(input, flushes, received)
    }

    /** The interleaved samples of the next `frames` output frames. */
    function Pending(frames: nat): (block: seq<T>)
      reads this
      ensures |block| == frames * channels
    {
      var input, start := input, received * channels;
      seq(frames * channels, i requires 0 <= i < frames * channels => emit(input, start + i))
    }

    /** putSamples(samples, frames): submits the first `frames` interleaved frames of `samples`. */
    method PutSamples(samples: array<T>, frames: nat)
      requires frames * channels <= samples.Length
      modifies this
      ensures input == old(input) + samples[..frames * channels]
      ensures log == old(log) + [Put(frames)]
      ensures flushes == old(flushes) && received == old(received) && delivered == old(delivered)
    {
      input := input + samples[..frames * channels];
      log := log + [Put(frames)];
    }

    /** flush(): no more input will be submitted. */
    method Flush()
      modifies this
      ensures flushes == old(flushes) + 1
      ensures log == old(log) + [Call.Flush]
      ensures input == old(input) && received == old(received) && delivered == old(delivered)
    {
      flushes := flushes + 1;
      log := log + [Call.Flush];
    }

    /** receiveSamples(out, frames): moves `frames` ready frames into the front of `out`, interleaved. */
    method ReceiveSamples(out: array<T>, frames: nat)
      requires frames <= NumSamples() && frames * channels <= out.Length
      modifies this, out
      ensures out[..frames * channels] == old(Pending(frames))
      ensures out[frames * channels..] == old(out[frames * channels..])
      ensures delivered == old(delivered) + out[..frames * channels]
      ensures received == old(received) + frames
      ensures log == old(log) + [Receive(frames)]
      ensures input == old(input) && flushes == old(flushes)
    {
      var block := Pending(frames);
      forall i | 0 <= i < frames * channels {
        out[i] := block[i];
      }
      delivered := delivered + block;
      received := received + frames;
      log := log + [Receive(frames)];
    }
  }

  /** putSamples and flush() submit input or end it; receiveSamples does neither. */
  predicate IsFeed(c: Call) {
    !c.Receive?
  }

  /** The calls that submit input or end it, in order (receives dropped). */
  function Feeds(log: seq<Call>): (r: seq<Call>)
    ensures forall i | 0 <= i < |r| :: !r[i].Receive?
  {
    Kept(log, IsFeed)
  }

  /** The feed calls for one block: putSamples, then flush() if it is the final block. */
  function PutFlush(frames: nat, final: bool): seq<Call> {
    [Put(frames)] + (if final then [Flush] else [])
  }

  /** Logging one block's feed calls adds exactly those calls to the feed calls. */
  lemma FeedsPutFlush(log: seq<Call>, frames: nat, final: bool)
    ensures Feeds(log + PutFlush(frames, final)) == Feeds(log) + PutFlush(frames, final)
  {
    var step := PutFlush(frames, final);
    KeptAppend(log, step, IsFeed);
    assert step[1..] == if final then [Flush] else [];
    assert Feeds(step[1..]) == step[1..] by {
      if final {
        assert step[1..][1..] == [];
      }
    }
  }

  /** The feed calls the adapter owes the engine for a list of blocks:
      putSamples for each block, followed by flush() after the final one. */
  function PutFlushPlan(blocks: seq<Block>): seq<Call> {
    if blocks == [] then []
    else PutFlush(blocks[0].len, blocks[0].final) + PutFlushPlan(blocks[1..])
  }

  /** Frames submitted by a sequence of calls. */
  function FramesPut(calls: seq<Call>): nat {
    if calls == [] then 0
    else (if calls[0].Put? then calls[0].frames else 0) + FramesPut(calls[1..])
  }

  /** Frames received by a sequence of calls. */
  function FramesReceived(calls: seq<Call>): nat {
    if calls == [] then 0
    else (if calls[0].Receive? then calls[0].frames else 0) + FramesReceived(calls[1..])
  }

  lemma {:induction false} FramesPutAppend(a: seq<Call>, b: seq<Call>)
    ensures FramesPut(a + b) == FramesPut(a) + FramesPut(b)
  {
    if a == [] {
      assert a + b == b;
    } else {
      assert (a + b)[0] == a[0] && (a + b)[1..] == a[1..] + b;
      FramesPutAppend(a[1..], b);
    }
  }

  lemma {:induction false} FramesReceivedAppend(a: seq<Call>, b: seq<Call>)
    ensures FramesReceived(a + b) == FramesReceived(a) + FramesReceived(b)
  {
    if a == [] {
      assert a + b == b;
    } else {
      assert (a + b)[0] == a[0] && (a + b)[1..] == a[1..] + b;
      FramesReceivedAppend(a[1..], b);
    }
  }

  /** One step of the feed loop: the block at `pos`, then the rest of the source. */
  lemma PlanStep(pos: nat, length: nat)
    requires pos < length
    ensures var n := BlockLen(pos, length);
      PutFlushPlan(Partition(pos, length))
      == PutFlush(n, pos + n == length) + PutFlushPlan(Partition(pos + ProcessSize, length))
  {
    var n := BlockLen(pos, length);
    var p := Partition(pos, length);
    assert p == [Block(pos, n, pos + n == length)] + Partition(pos + ProcessSize, length);
    assert p[1..] == Partition(pos + ProcessSize, length);
  }

  /** `fed` is exactly what the plan for a source of `length` frames owes for
      the blocks before `pos`. */
  ghost predicate PaidUpTo(fed: seq<Call>, pos: nat, length: nat) {
    fed + PutFlushPlan(Partition(pos, length)) == PutFlushPlan(Partition(0, length))
  }

  /** One pass of the feed loop pays off the calls owed for the block at `pos`. */
  lemma PlanAdvance(feeds0: seq<Call>, fed: seq<Call>, pos: nat, length: nat)
    requires pos < length && PaidUpTo(fed, pos, length)
    ensures var n := BlockLen(pos, length);
      var step := PutFlush(n, pos + n == length);
      && feeds0 + fed + step == feeds0 + (fed + step)
      && PaidUpTo(fed + step, pos + ProcessSize, length)
  {
    var n := BlockLen(pos, length);
    var step := PutFlush(n, pos + n == length);
    PlanStep(pos, length);
    assert (fed + step) + PutFlushPlan(Partition(pos + ProcessSize, length))
        == fed + (step + PutFlushPlan(Partition(pos + ProcessSize, length)));
  }

  /** Every call the adapter makes on the engine for the first |drains|
      blocks of a source of `length` frames, given the calls of the drain
      after each block: per block, putSamples (and flush() after the last),
      then that block's drain. */
  function BlockCalls(length: nat, drains: seq<seq<Call>>): seq<Call>
    requires |drains| * ProcessSize < length + ProcessSize
  {
    if drains == [] then []
    else
      var k := |drains| - 1;
      var n := BlockLen(k * ProcessSize, length);
      BlockCalls(length, drains[..k]) + PutFlush(n, k * ProcessSize + n == length) + drains[k]
  }

  /** One more block adds its feed calls and its drain at the end. */
  lemma BlockCallsStep(length: nat, drains: seq<seq<Call>>, drain: seq<Call>, pos: nat)
    requires pos == |drains| * ProcessSize && pos < length
    ensures var n := BlockLen(pos, length);
      BlockCalls(length, drains + [drain]) == BlockCalls(length, drains) + PutFlush(n, pos + n == length) + drain
  {
    assert (drains + [drain])[..|drains|] == drains;
  }

  /** A drain makes receiveSamples calls only. */
  predicate ReceivesOnly(calls: seq<Call>) {
    forall i | 0 <= i < |calls| :: calls[i].Receive?
  }

  /** When every drain only receives, the feed calls among the calls for the
      first k blocks are exactly the ones the plan owes for those k blocks. */
  lemma {:induction false} BlockCallsFeeds(length: nat, drains: seq<seq<Call>>)
    requires |drains| * ProcessSize < length + ProcessSize
    requires forall i | 0 <= i < |drains| :: ReceivesOnly(drains[i])
    ensures PaidUpTo(Feeds(BlockCalls(length, drains)), |drains| * ProcessSize, length)
    decreases |drains|
  {
    if drains == [] {
      assert Feeds([]) == [];
      assert [] + PutFlushPlan(Partition(0, length)) == PutFlushPlan(Partition(0, length));
    } else {
      var k := |drains| - 1;
      var pos := k * ProcessSize;
      var n := BlockLen(pos, length);
      var step := PutFlush(n, pos + n == length);
      var before := BlockCalls(length, drains[..k]);
      forall i | 0 <= i < k
        ensures ReceivesOnly(drains[..k][i])
      {
        assert drains[..k][i] == drains[i];
      }
      BlockCallsFeeds(length, drains[..k]);
      KeptAppend(before + step, drains[k], IsFeed);
      FeedsPutFlush(before, n, pos + n == length);
      KeptNone(drains[k], IsFeed);
      PlanAdvance([], Feeds(before), pos, length);
      assert Feeds(BlockCalls(length, drains)) == Feeds(before) + step;
    }
  }

  /** Over the whole source the adapter owes: one putSamples per block, each of
      1 to ProcessSize frames, adding up to the source length; and exactly one
      flush(), as the very last call. An empty source is owed nothing. */
  lemma {:induction false} PlanEndsWithSingleFlush(pos: nat, length: nat)
    requires pos <= length
    ensures var plan := PutFlushPlan(Partition(pos, length));
      && (plan == [] <==> pos == length)
      && (forall i | 0 <= i < |plan| :: plan[i] == Flush <==> i == |plan| - 1)
      && (forall i | 0 <= i < |plan| :: plan[i].Put? ==> 1 <= plan[i].frames <= ProcessSize)
      && FramesPut(plan) == length - pos
    decreases length - pos
  {
    if pos < length {
      var n := BlockLen(pos, length);
      var fin: seq<Call> := if pos + n == length then [Flush] else [];
      var head := PutFlush(n, pos + n == length);
      var rest := PutFlushPlan(Partition(pos + ProcessSize, length));
      PlanStep(pos, length);
      FramesPutAppend(head, rest);
      if pos + n == length {
        assert Partition(pos + ProcessSize, length) == [];
        assert FramesPut(fin) == 0;
      } else {
        PlanEndsWithSingleFlush(pos + ProcessSize, length);
        assert rest != [];
      }
      var plan := head + rest;
      forall i | 0 <= i < |plan|
        ensures plan[i] == Flush <==> i == |plan| - 1
        ensures plan[i].Put? ==> 1 <= plan[i].frames <= ProcessSize
      {
        if i >= |head| {
          assert plan[i] == rest[i - |head|];
        }
      }
    } else {
      assert Partition(pos, length) == [];
    }
  }
}
