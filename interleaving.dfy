/** The interleaved sample layout: frame `smp` of channel `ch` sits at index
    smp * C + ch of a block of C channels. Channels are given as one sequence
    of samples each (the per-channel layout of Buffer). */
module Interleaving {

  /** Index of frame `smp`, channel `ch` in an interleaved block of `channels` channels. */
  function Slot(smp: nat, ch: nat, channels: nat): nat {
    smp * channels + ch
  }

  /** Every slot of a block of `frames` frames lies inside it; in particular every
      slot of a block of at most ProcessSize frames lies inside the
      channels * ProcessSize scratch vector. */
  lemma SlotBelow(smp: nat, ch: nat, channels: nat, frames: nat)
    requires smp < frames && ch < channels
    ensures Slot(smp, ch, channels) < frames * channels
  {
    calc {
      Slot(smp, ch, channels);
    <
      smp * channels + channels;
    ==
      (smp + 1) * channels;
    <=  { MulMonotone(smp + 1, frames, channels); }
      frames * channels;
    }
  }

  lemma MulMonotone(a: nat, b: nat, c: nat)
    requires a <= b
    ensures a * c <= b * c
  {
    assert b * c == a * c + (b - a) * c;
  }

  /** An index of an interleaved block names exactly one (frame, channel) pair. */
  lemma SlotDecode(i: nat, channels: nat)
    requires channels > 0
    ensures i % channels < channels
    ensures i == Slot(i / channels, i % channels, channels)
  {
  }

  /** Inside a block of `frames` frames every index decodes to a frame of the block. */
  lemma SlotFrameBelow(i: nat, channels: nat, frames: nat)
    requires channels > 0 && i < frames * channels
    ensures i / channels < frames
  {
    SlotDecode(i, channels);
    if i / channels >= frames {
      MulMonotone(frames, i / channels, channels);
      assert false;
    }
  }

  /** Distinct (frame, channel) pairs occupy distinct slots, so the interleave and
      de-interleave loops never overwrite a sample they already copied. */
  lemma {:induction false} SlotInjective(s1: nat, c1: nat, s2: nat, c2: nat, channels: nat)
    requires c1 < channels && c2 < channels
    requires Slot(s1, c1, channels) == Slot(s2, c2, channels)
    ensures s1 == s2 && c1 == c2
  {
    if s1 < s2 {
      MulMonotone(s1 + 1, s2, channels);
      assert false;
    } else if s2 < s1 {
      MulMonotone(s2 + 1, s1, channels);
      assert false;
    }
  }

  /** Every channel holds the frames [from, from + frames). */
  predicate Covers<T>(chans: seq<seq<T>>, from: nat, frames: nat) {
    forall ch | 0 <= ch < |chans| :: from + frames <= |chans[ch]|
  }

  /** Frame `k` across all channels, in channel order. */
  function Frame<T>(chans: seq<seq<T>>, k: nat): (f: seq<T>)
    requires Covers(chans, k, 1)
    ensures |f| == |chans|
  {
    seq(|chans|, ch requires 0 <= ch < |chans| => chans[ch][k])
  }

  /** The frames [from, from + frames) of `chans`, interleaved frame after frame. */
  function Interleave<T>(chans: seq<seq<T>>, from: nat, frames: nat): (r: seq<T>)
    requires Covers(chans, from, frames)
    ensures |r| == frames * |chans|
    decreases frames
  {
    if frames == 0 then []
    else Interleave(chans, from, frames - 1) + Frame(chans, from + frames - 1)
  }

  /** Splits an interleaved block of `frames` frames into its `channels` channels. */
  function Deinterleave<T>(block: seq<T>, channels: nat, frames: nat): (r: seq<seq<T>>)
    requires frames * channels <= |block|
    ensures |r| == channels
    ensures forall ch | 0 <= ch < channels :: |r[ch]| == frames
  {
    seq(channels, ch requires 0 <= ch < channels =>
      seq(frames, smp requires 0 <= smp < frames =>
        SlotBelow(smp, ch, channels, frames);
        block[Slot(smp, ch, channels)]))
  }

  /** The frames [from, from + frames) of every channel. */
  function Slice<T>(chans: seq<seq<T>>, from: nat, frames: nat): (r: seq<seq<T>>)
    requires Covers(chans, from, frames)
    ensures |r| == |chans|
  {
    seq(|chans|, ch requires 0 <= ch < |chans| => chans[ch][from..from + frames])
  }

  /** Channel-wise concatenation: every channel of `a` followed by the same channel of `b`. */
  function Concat<T>(a: seq<seq<T>>, b: seq<seq<T>>): (r: seq<seq<T>>)
    requires |a| == |b|
    ensures |r| == |a|
    ensures forall ch | 0 <= ch < |a| :: r[ch] == a[ch] + b[ch]
  {
    seq(|a|, ch requires 0 <= ch < |a| => a[ch] + b[ch])
  }

  /** Appending no frames changes nothing. */
  lemma ConcatNone<T>(a: seq<seq<T>>, chans: seq<seq<T>>, from: nat)
    requires |a| == |chans| && Covers(chans, from, 0)
    ensures Concat(a, Slice(chans, from, 0)) == a
  {
    forall ch | 0 <= ch < |a|
      ensures a[ch] + chans[ch][from..from] == a[ch]
    {
      assert chans[ch][from..from] == [];
    }
  }

  /** Taking frames [0, m) and then [m, m + n) of every channel takes [0, m + n). */
  lemma ConcatSlices<T>(a: seq<seq<T>>, chans: seq<seq<T>>, m: nat, n: nat)
    requires |a| == |chans| && Covers(chans, 0, m + n)
    ensures Concat(Concat(a, Slice(chans, 0, m)), Slice(chans, m, n)) == Concat(a, Slice(chans, 0, m + n))
  {
    forall ch | 0 <= ch < |a|
      ensures (a[ch] + chans[ch][0..m]) + chans[ch][m..m + n] == a[ch] + chans[ch][0..m + n]
    {
      assert chans[ch][0..m + n] == chans[ch][0..m] + chans[ch][m..m + n];
    }
  }

  /** Interleaving writes frame `smp` of channel `ch` to slot smp * C + ch. */
  lemma {:induction false} InterleaveAt<T>(chans: seq<seq<T>>, from: nat, frames: nat, smp: nat, ch: nat)
    requires Covers(chans, from, frames)
    requires smp < frames && ch < |chans|
    ensures Slot(smp, ch, |chans|) < |Interleave(chans, from, frames)|
    ensures Interleave(chans, from, frames)[Slot(smp, ch, |chans|)] == chans[ch][from + smp]
    decreases frames
  {
    var c := |chans|;
    var prefix := Interleave(chans, from, frames - 1);
    assert Interleave(chans, from, frames) == prefix + Frame(chans, from + frames - 1);
    SlotBelow(smp, ch, c, frames);
    if smp < frames - 1 {
      InterleaveAt(chans, from, frames - 1, smp, ch);
    } else {
      assert Slot(smp, ch, c) == |prefix| + ch;
    }
  }

  /** A block holding every sample in its slot is the interleaving. */
  lemma InterleaveUnique<T>(chans: seq<seq<T>>, from: nat, frames: nat, block: seq<T>)
    requires Covers(chans, from, frames)
    requires |block| == frames * |chans|
    requires forall smp, ch | 0 <= smp < frames && 0 <= ch < |chans| && Slot(smp, ch, |chans|) < |block| ::
      block[Slot(smp, ch, |chans|)] == chans[ch][from + smp]
    ensures Interleave(chans, from, frames) == block
  {
    var r := Interleave(chans, from, frames);
    forall i | 0 <= i < |block|
      ensures r[i] == block[i]
    {
      var c := |chans|;
      var smp, ch := DecodeSlot(i, c, frames);
      InterleaveAt(chans, from, frames, smp, ch);
    }
  }

  /** The (frame, channel) pair an index of a block of `frames` frames stands for. */
  lemma DecodeSlot(i: nat, channels: nat, frames: nat) returns (smp: nat, ch: nat)
    requires i < frames * channels
    ensures smp < frames && ch < channels && i == Slot(smp, ch, channels)
  {
    SlotDecode(i, channels);
    SlotFrameBelow(i, channels, frames);
    smp, ch := i / channels, i % channels;
  }

  /** Interleaving consecutive ranges one after the other interleaves their union. */
  lemma {:induction false} InterleaveAppend<T>(chans: seq<seq<T>>, from: nat, m: nat, n: nat)
    requires Covers(chans, from, m + n)
    ensures Interleave(chans, from, m) + Interleave(chans, from + m, n) == Interleave(chans, from, m + n)
    decreases n
  {
    if n > 0 {
      InterleaveAppend(chans, from, m, n - 1);
    }
  }

  /** Concatenation regroups freely (stated once so that stream bookkeeping
      need not rediscover it). */
  lemma AppendAssoc<T>(a: seq<T>, b: seq<T>, c: seq<T>)
    ensures (a + b) + c == a + (b + c)
  {
  }

  /** Interleaving reads only the frames it covers. */
  lemma {:induction false} InterleaveSameFrames<T>(a: seq<seq<T>>, fa: nat, b: seq<seq<T>>, fb: nat, frames: nat)
    requires Covers(a, fa, frames) && Covers(b, fb, frames) && |a| == |b|
    requires forall ch | 0 <= ch < |a| :: a[ch][fa..fa + frames] == b[ch][fb..fb + frames]
    ensures Interleave(a, fa, frames) == Interleave(b, fb, frames)
    decreases frames
  {
    if frames > 0 {
      forall ch | 0 <= ch < |a|
        ensures a[ch][fa..fa + frames - 1] == b[ch][fb..fb + frames - 1]
        ensures a[ch][fa + frames - 1] == b[ch][fb + frames - 1]
      {
        assert a[ch][fa..fa + frames - 1] == a[ch][fa..fa + frames][..frames - 1];
        assert b[ch][fb..fb + frames - 1] == b[ch][fb..fb + frames][..frames - 1];
        assert a[ch][fa + frames - 1] == a[ch][fa..fa + frames][frames - 1];
        assert b[ch][fb + frames - 1] == b[ch][fb..fb + frames][frames - 1];
      }
      InterleaveSameFrames(a, fa, b, fb, frames - 1);
      assert Frame(a, fa + frames - 1) == Frame(b, fb + frames - 1);
    }
  }

  /** Appending frames [upTo, upTo + n) to channels whose first upTo frames are
      unchanged appends their interleaving to the old interleaved prefix. */
  lemma InterleaveExtend<T>(before: seq<seq<T>>, after: seq<seq<T>>, upTo: nat, n: nat)
    requires Covers(before, 0, upTo) && Covers(after, 0, upTo + n) && |before| == |after|
    requires Slice(after, 0, upTo) == Slice(before, 0, upTo)
    ensures Interleave(after, 0, upTo + n) == Interleave(before, 0, upTo) + Interleave(after, upTo, n)
  {
    forall ch | 0 <= ch < |after|
      ensures after[ch][0..upTo] == before[ch][0..upTo]
    {
      assert Slice(after, 0, upTo)[ch] == after[ch][0..upTo];
    }
    InterleaveSameFrames(after, 0, before, 0, upTo);
    InterleaveAppend(after, 0, upTo, n);
  }

  /** De-interleaving an interleaved block gives back each channel's frames. */
  lemma DeinterleaveInterleave<T>(chans: seq<seq<T>>, from: nat, frames: nat)
    requires Covers(chans, from, frames)
    ensures Deinterleave(Interleave(chans, from, frames), |chans|, frames) == Slice(chans, from, frames)
  {
    var d := Deinterleave(Interleave(chans, from, frames), |chans|, frames);
    forall ch | 0 <= ch < |chans|
      ensures d[ch] == chans[ch][from..from + frames]
    {
      forall smp | 0 <= smp < frames
        ensures d[ch][smp] == chans[ch][from + smp]
      {
        InterleaveAt(chans, from, frames, smp, ch);
      }
    }
  }

  /** Interleaving the channels of a de-interleaved block gives back the block. */
  lemma InterleaveDeinterleave<T>(block: seq<T>, channels: nat, frames: nat)
    requires frames * channels <= |block|
    ensures Interleave(Deinterleave(block, channels, frames), 0, frames) == block[..frames * channels]
  {
    var d := Deinterleave(block, channels, frames);
    forall smp, ch | 0 <= smp < frames && 0 <= ch < channels && Slot(smp, ch, channels) < frames * channels
      ensures block[..frames * channels][Slot(smp, ch, channels)] == d[ch][smp]
    {
    }
    InterleaveUnique(d, 0, frames, block[..frames * channels]);
  }
}
