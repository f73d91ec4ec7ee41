/** Buffer<float>: a multichannel sample store with a fixed channel count, a fixed
    frame count and one contiguous array per channel (data()[ch] is a pointer to
    channel ch's samples). Sample values are opaque: the adapters only copy them. */
module Buffers {

  import opened Interleaving

  class Buffer<T> {
    const channels: nat
    const samples: nat
    /** data(): one array per channel; the arrays are fixed, their contents are not. */
    const data: seq<array<T>>
    ghost const Repr: set<array<T>>

    /** Every channel has `samples` frames and owns its own array. */
    ghost predicate Valid() {
      && |data| == channels
      && (forall ch | 0 <= ch < channels :: data[ch].Length == samples)
      && (forall c1, c2 | 0 <= c1 < c2 < channels :: data[c1] != data[c2])
      && (forall ch | 0 <= ch < channels :: data[ch] in Repr)
    }

    /** The samples of every channel, in channel order. */
    ghost function Snapshot(): (s: seq<seq<T>>)
      reads Repr
      requires Valid()
      ensures |s| == channels
      ensures forall ch | 0 <= ch < channels :: s[ch] == data[ch][..]
      ensures Covers(s, 0, samples)
    {
      seq(channels, ch requires 0 <= ch < channels reads Repr => data[ch][..])
    }

    /** Buffer(channels, samples): allocates `channels` separate arrays of
        `samples` frames each, every sample set to `init`. */
    constructor (channels: nat, samples: nat, init: T)
      ensures Valid() && fresh(Repr)
      ensures this.channels == channels && this.samples == samples
      ensures forall ch, k | 0 <= ch < channels && 0 <= k < samples :: data[ch][k] == init
    {
      var arrays: seq<array<T>> := [];
      while |arrays| < channels
        invariant |arrays| <= channels
        invariant forall ch | 0 <= ch < |arrays| :: arrays[ch].Length == samples && fresh(arrays[ch])
        invariant forall ch, k | 0 <= ch < |arrays| && 0 <= k < samples :: arrays[ch][k] == init
        invariant forall c1, c2 | 0 <= c1 < c2 < |arrays| :: arrays[c1] != arrays[c2]
      {
        var a := new T[samples](_ => init);
        arrays := arrays + [a];
      }
      this.channels := channels;
      this.samples := samples;
      data := arrays;
      Repr := set ch | 0 <= ch < channels :: arrays[ch];
    }
  }
}
