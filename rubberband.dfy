/** The RubberBandStretcher as the adapter sees it (sentinel-terminated protocol):
    process takes one read pointer per channel and an end-of-input flag,
    available() counts the frames ready or answers -1 once no more output will
    ever come, retrieve copies ready frames through one write pointer per
    channel. What the engine computes is left open: the availability and the
    output samples are arbitrary functions fixed when the engine is built. */
module RubberBandEngine {

  import opened Blocks
  import opened CallLogs

  /** What available() may answer: a frame count, or the sentinel -1. */
  type Availability = x: int | -1 <= x

  /** The calls the adapter makes on the engine. */
  datatype Call = Process(frames: nat, final: bool) | Retrieve(frames: nat)

  /** A pointer into a channel's samples: `arr + offset`; null until it is set. */
  datatype Head<T> = Head(arr: array?<T>, offset: nat)

  /** Every head points at `frames` samples of its own channel array. */
  predicate HeadsCover<T>(heads: seq<Head<T>>, frames: nat) {
    forall ch | 0 <= ch < |heads| :: heads[ch].arr != null && heads[ch].offset + frames <= heads[ch].arr.Length
  }

  class RubberBand<T> {
    /** The channel count given at construction. */
    const channels: nat
    /** available(), given each channel's input so far, the number of final
        process calls and the frames already retrieved. */
    const avail: (seq<seq<T>>, nat, nat) -> Availability
    /** Output frame `k` of channel `ch`, given each channel's input so far. */
    const emit: (seq<seq<T>>, nat, nat) -> T

    /** Every frame submitted so far, per channel. */
    var input: seq<seq<T>>
    /** Frames submitted so far. */
    var processed: nat
    /** process calls made with the end-of-input flag set. */
    var finals: nat
    /** Frames retrieved so far. */
    var retrieved: nat
    /** Every frame handed out so far, per channel. */
    ghost var delivered: seq<seq<T>>
    /** Every call made on the engine, in order. */
    ghost var log: seq<Call>

    ghost predicate Valid()
      reads this
    {
      |input| == channels && |delivered| == channels
    }

    constructor (channels: nat, avail: (seq<seq<T>>, nat, nat) -> Availability, emit: (seq<seq<T>>, nat, nat) -> T)
      ensures Valid()
      ensures this.channels == channels && this.avail == avail && this.emit == emit
      ensures (forall ch | 0 <= ch < channels :: input[ch] == [] && delivered[ch] == [])
      ensures processed == 0 && finals == 0 && retrieved == 0 && log == []
    {
      this.channels := channels;
      this.avail := avail;
      this.emit := emit;
      input := seq(channels, _ => []);
      delivered := seq(channels, _ => []);
      processed, finals, retrieved := 0, 0, 0;
      log := [];
    }

    /** available(): frames ready to be retrieved, or -1 when the output is exhausted for good. */
    function Available(): (r: Availability)
      reads this
      ensures r == avail(input, finals, retrieved)
    {
      avail(input, finals, retrieved)
    }

    /** The next `frames` output frames of channel `ch`. */
    function Pending(ch: nat, frames: nat): (r: seq<T>)
      reads this
      ensures |r| == frames
    {
      var input, start := input, retrieved;
      seq(frames, k requires 0 <= k < frames => emit(input, ch, start + k))
    }

    /** process(heads, frames, final): submits `frames` frames of every channel, read
        through the pointers `heads` (the contents of the adapter's pointer vector). */
    method Process(heads: seq<Head<T>>, frames: nat, final: bool)
      requires Valid() && |heads| == channels && HeadsCover(heads, frames)
      modifies this
      ensures Valid()
      ensures forall ch | 0 <= ch < channels ::
        input[ch] == old(input[ch]) + heads[ch].arr[heads[ch].offset..heads[ch].offset + frames]
      ensures processed == old(processed) + frames
      ensures finals == old(finals) + (if final then 1 else 0)
      ensures log == old(log) + [Call.Process(frames, final)]
      ensures retrieved == old(retrieved) && delivered == old(delivered)
    {
      var next: seq<seq<T>> := [];
      while |next| < channels
        invariant |next| <= channels
        invariant forall ch | 0 <= ch < |next| ::
          next[ch] == input[ch] + heads[ch].arr[heads[ch].offset..heads[ch].offset + frames]
      {
        var h := heads[|next|];
        next := next + [input[|next|] + h.arr[h.offset..h.offset + frames]];
      }
      input := next;
      processed := processed + frames;
      finals := finals + (if final then 1 else 0);
      log := log + [Call.Process(frames, final)];
    }

    /** retrieve(heads, frames): moves `frames` ready frames of every channel out through `heads`. */
    method Retrieve(heads: seq<Head<T>>, frames: nat)
      requires Valid() && |heads| == channels && HeadsCover(heads, frames)
      requires forall c1, c2 | 0 <= c1 < c2 < channels :: heads[c1].arr != heads[c2].arr
      requires frames <= Available()
      modifies this, set ch | 0 <= ch < |heads| :: heads[ch].arr
      ensures Valid()
      ensures forall ch, k | 0 <= ch < channels && 0 <= k < heads[ch].arr.Length ::
        heads[ch].arr[k] == if heads[ch].offset <= k < heads[ch].offset + frames
                            then old(Pending(ch, frames))[k - heads[ch].offset]
                            else old(heads[ch].arr[k])
      ensures forall ch | 0 <= ch < channels :: delivered[ch] == old(delivered[ch]) + old(Pending(ch, frames))
      ensures retrieved == old(retrieved) + frames
      ensures log == old(log) + [Call.Retrieve(frames)]
      ensures input == old(input) && processed == old(processed) && finals == old(finals)
    {
      var out := seq(channels, ch requires 0 <= ch < channels reads this => Pending(ch, frames));
      forall ch, j | 0 <= ch < channels && heads[ch].offset <= j < heads[ch].offset + frames {
        heads[ch].arr[j] := out[ch][j - heads[ch].offset];
      }
      ghost var before := delivered;
      delivered := seq(channels, ch requires 0 <= ch < |before| && ch < |out| => before[ch] + out[ch]);
      retrieved := retrieved + frames;
      log := log + [Call.Retrieve(frames)];
    }
  }

  /** process submits input; retrieve does not. */
  predicate IsFeed(c: Call) {
    c.Process?
  }

  /** The process calls, in order (retrieves dropped). */
  function Feeds(log: seq<Call>): (r: seq<Call>)
    ensures forall i | 0 <= i < |r| :: r[i].Process?
  {
    Kept(log, IsFeed)
  }

  /** Logging a process call adds it to the process calls. */
  lemma FeedsProcess(log: seq<Call>, frames: nat, final: bool)
    ensures Feeds(log + [Process(frames, final)]) == Feeds(log) + [Process(frames, final)]
  {
    KeptAppend(log, [Process(frames, final)], IsFeed);
    assert [Process(frames, final)][1..] == [];
  }

  /** The process calls the adapter owes the engine for a list of blocks: one per
      block, carrying the block's size and its end-of-input flag. */
  function ProcessPlan(blocks: seq<Block>): (r: seq<Call>)
    ensures |r| == |blocks|
  {
    seq(|blocks|, i requires 0 <= i < |blocks| => Call.Process(blocks[i].len, blocks[i].final))
  }

  /** Frames submitted by a sequence of calls. */
  function FramesProcessed(calls: seq<Call>): nat {
    if calls == [] then 0
    else (if calls[0].Process? then calls[0].frames else 0) + FramesProcessed(calls[1..])
  }

  /** Frames retrieved by a sequence of calls. */
  function FramesRetrieved(calls: seq<Call>): nat {
    if calls == [] then 0
    else (if calls[0].Retrieve? then calls[0].frames else 0) + FramesRetrieved(calls[1..])
  }

  lemma {:induction false} FramesRetrievedAppend(a: seq<Call>, b: seq<Call>)
    ensures FramesRetrieved(a + b) == FramesRetrieved(a) + FramesRetrieved(b)
  {
    if a == [] {
      assert a + b == b;
    } else {
      assert (a + b)[0] == a[0] && (a + b)[1..] == a[1..] + b;
      FramesRetrievedAppend(a[1..], b);
    }
  }

  /** One step of the feed loop: the block at `pos`, then the rest of the source. */
  lemma PlanStep(pos: nat, length: nat)
    requires pos < length
    ensures var n := BlockLen(pos, length);
      ProcessPlan(Partition(pos, length))
      == [Call.Process(n, pos + n == length)] + ProcessPlan(Partition(pos + ProcessSize, length))
  {
    var n := BlockLen(pos, length);
    assert Partition(pos, length) == [Block(pos, n, pos + n == length)] + Partition(pos + ProcessSize, length);
  }

  /** `fed` is exactly what the plan for a source of `length` frames owes for
      the blocks before `pos`. */
  ghost predicate PaidUpTo(fed: seq<Call>, pos: nat, length: nat) {
    fed + ProcessPlan(Partition(pos, length)) == ProcessPlan(Partition(0, length))
  }

  /** One pass of the feed loop pays off the process call owed for the block at `pos`. */
  lemma PlanAdvance(feeds0: seq<Call>, fed: seq<Call>, pos: nat, length: nat)
    requires pos < length && PaidUpTo(fed, pos, length)
    ensures var n := BlockLen(pos, length);
      var step := [Call.Process(n, pos + n == length)];
      && feeds0 + fed + step == feeds0 + (fed + step)
      && PaidUpTo(fed + step, pos + ProcessSize, length)
  {
    var n := BlockLen(pos, length);
    var step := [Call.Process(n, pos + n == length)];
    PlanStep(pos, length);
    assert (fed + step) + ProcessPlan(Partition(pos + ProcessSize, length))
        == fed + (step + ProcessPlan(Partition(pos + ProcessSize, length)));
  }

  /** Every call the adapter makes on the engine for the first |drains|
      blocks of a source of `length` frames, given the calls of the drain
      after each block: per block, process (flagged final on the last), then
      that block's drain. */
  function BlockCalls(length: nat, drains: seq<seq<Call>>): seq<Call>
    requires |drains| * ProcessSize < length + ProcessSize
  {
    if drains == [] then []
    else
      var k := |drains| - 1;
      var n := BlockLen(k * ProcessSize, length);
      BlockCalls(length, drains[..k]) + [Process(n, k * ProcessSize + n == length)] + drains[k]
  }

  /** One more block adds its process call and its drain at the end. */
  lemma BlockCallsStep(length: nat, drains: seq<seq<Call>>, drain: seq<Call>, pos: nat)
    requires pos == |drains| * ProcessSize && pos < length
    ensures var n := BlockLen(pos, length);
      BlockCalls(length, drains + [drain]) == BlockCalls(length, drains) + [Process(n, pos + n == length)] + drain
  {
    assert (drains + [drain])[..|drains|] == drains;
  }

  /** A drain makes retrieve calls only. */
  predicate RetrievesOnly(calls: seq<Call>) {
    forall i | 0 <= i < |calls| :: calls[i].Retrieve?
  }

  /** When every drain only retrieves, the process calls among the calls for
      the first k blocks are exactly the ones the plan owes for those k blocks. */
  lemma {:induction false} BlockCallsFeeds(length: nat, drains: seq<seq<Call>>)
    requires |drains| * ProcessSize < length + ProcessSize
    requires forall i | 0 <= i < |drains| :: RetrievesOnly(drains[i])
    ensures PaidUpTo(Feeds(BlockCalls(length, drains)), |drains| * ProcessSize, length)
    decreases |drains|
  {
    if drains == [] {
      assert Feeds([]) == [];
      assert [] + ProcessPlan(Partition(0, length)) == ProcessPlan(Partition(0, length));
    } else {
      var k := |drains| - 1;
      var pos := k * ProcessSize;
      var n := BlockLen(pos, length);
      var step := [Process(n, pos + n == length)];
      var before := BlockCalls(length, drains[..k]);
      forall i | 0 <= i < k
        ensures RetrievesOnly(drains[..k][i])
      {
        assert drains[..k][i] == drains[i];
      }
      BlockCallsFeeds(length, drains[..k]);
      KeptAppend(before + step, drains[k], IsFeed);
      FeedsProcess(before, n, pos + n == length);
      KeptNone(drains[k], IsFeed);
      PlanAdvance([], Feeds(before), pos, length);
      assert Feeds(BlockCalls(length, drains)) == Feeds(before) + step;
    }
  }

  /** Over the whole source the adapter owes one process call per block, each of
      1 to ProcessSize frames, adding up to the source length, with the
      end-of-input flag set on the last call and on no other. An empty source
      is owed nothing. */
  lemma {:induction false} PlanEndsWithSingleFinal(pos: nat, length: nat)
    requires pos <= length
    ensures var plan := ProcessPlan(Partition(pos, length));
      && (plan == [] <==> pos == length)
      && (forall i | 0 <= i < |plan| :: plan[i].final <==> i == |plan| - 1)
      && (forall i | 0 <= i < |plan| :: 1 <= plan[i].frames <= ProcessSize)
      && FramesProcessed(plan) == length - pos
    decreases length - pos
  {
    PartitionFinalIsLast(pos, length);
    PartitionTiles(pos, length);
    if pos < length {
      var n := BlockLen(pos, length);
      var plan := ProcessPlan(Partition(pos, length));
      PlanStep(pos, length);
      assert plan[1..] == ProcessPlan(Partition(pos + ProcessSize, length));
      if pos + n < length {
        PlanEndsWithSingleFinal(pos + ProcessSize, length);
      } else {
        assert Partition(pos + ProcessSize, length) == [];
      }
    }
  }
}
