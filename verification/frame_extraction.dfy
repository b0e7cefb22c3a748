/** Reading a resampled frame's samples as one flat, interleaved sequence. */
module FrameExtraction {
  import opened Wrappers

  /** A decoded or resampled audio frame, as far as extraction looks at it:
      whether its channels share one buffer, whether the requested sample type
      is valid for the frame's format and channel count, the number of samples
      per channel, the channel count, and the first data plane read as values
      of the requested type. */
  datatype AudioFrame<T> = AudioFrame(isPacked: bool, typeValid: bool, samples: nat, channels: nat, data: seq<T>)

  /** A packed frame of a valid type holds `samples * channels` values in its
      first plane (the decoding library allocates it so; extraction relies on it). */
  predicate PlaneHoldsFrame<T>(f: AudioFrame<T>)
  {
    f.isPacked && f.typeValid ==> f.samples * f.channels <= |f.data|
  }

  type Frame<T> = f: AudioFrame<T> | PlaneHoldsFrame(f) witness AudioFrame(false, false, 0, 0, [])

  datatype FrameError = NotPacked | UnsupportedType

  /** The frame's samples, interleaved across channels. A frame that is not
      packed fails first; then a type that is invalid for the frame fails;
      otherwise exactly `samples * channels` values come back, the start of the
      first plane. */
  function Packed<T>(f: Frame<T>): (r: Result<seq<T>, FrameError>)
    ensures r == Failure(NotPacked) <==> !f.isPacked
    ensures r == Failure(UnsupportedType) <==> f.isPacked && !f.typeValid
    ensures r.Success? <==> f.isPacked && f.typeValid
    ensures r.Success? ==> |r.value| == f.samples * f.channels && r.value <= f.data
  {
    if !f.isPacked then Failure(NotPacked)
    else if !f.typeValid then Failure(UnsupportedType)
    else Success(f.data[..f.samples * f.channels])
  }

  /** The packed frame whose first plane holds `xs` followed by `padding`, with
      `xs` making up whole samples of `channels` channels. */
  function PackedFrame<T>(xs: seq<T>, padding: seq<T>, channels: nat): (f: Frame<T>)
    requires channels > 0 && |xs| % channels == 0
    ensures f.isPacked && f.typeValid && f.channels == channels
    ensures f.samples * f.channels == |xs| && f.data == xs + padding
  {
    var samples := |xs| / channels;
    assert samples * channels == |xs|;
    AudioFrame(true, true, samples, channels, xs + padding)
  }

  /** Extraction gives back exactly the interleaved values a packed frame was
      built from, whatever padding follows them in the plane. */
  lemma PackedRoundTrip<T>(xs: seq<T>, padding: seq<T>, channels: nat)
    requires channels > 0 && |xs| % channels == 0
    ensures Packed(PackedFrame(xs, padding, channels)) == Success(xs)
  {
    var f := PackedFrame(xs, padding, channels);
    assert f.data[..f.samples * f.channels] == xs;
  }
}
