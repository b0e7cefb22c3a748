/** Start-up (format mapping and output stream) and the decode, resample and
    enqueue loop that feeds the sample queue while playback drains it. */
module Pipeline {
  import opened Wrappers
  import opened SampleFormats
  import opened FrameExtraction
  import opened SampleQueue
  import opened Playback

  /** Capacity of the sample queue, in samples. */
  const QUEUE_CAPACITY: nat := 8192

  // ---------------------------------------------------------------------------
  // Start-up

  datatype SetupError =
    | NoResamplerFormat(cause: FormatError)
    | StreamUnimplemented(format: DeviceFormat)

  /** The match that builds the output stream: only 32-bit float output has a
      playback callback; every other format is unimplemented. */
  function BuildStream(f: DeviceFormat): (r: Outcome<SetupError>)
    ensures r == Pass <==> f == F32
    ensures r.Fail? ==> r.error == StreamUnimplemented(f)
  {
    match f
    case F32 => Pass
    case _ => Fail(StreamUnimplemented(f))
  }

  /** Start-up as far as the device's sample format decides it: the resampler's
      target format is computed first, then the output stream is built. */
  function Setup(f: DeviceFormat): (r: Result<ResamplerFormat, SetupError>)
    ensures r.Success? <==> f == F32
    ensures r.Success? ==> r.value == SampleF32(Packed)
    ensures r.Failure? && !ResamplerSupports(f) ==> r.error == NoResamplerFormat(Unsupported(f))
    ensures r.Failure? && ResamplerSupports(f) ==> r.error == StreamUnimplemented(f)
  {
    match AsFfmpegSample(f)
    case Failure(e) => Failure(NoResamplerFormat(e))
    case Success(target) =>
      match BuildStream(f)
      case Fail(e) => Failure(e)
      case Pass => Success(target)
  }

  // ---------------------------------------------------------------------------
  // The decode, resample and enqueue loop, on values

  datatype PipelineError = SendRejected | ResampleFailed | Extraction(cause: FrameError)

  /** The decoder, given the packets it was sent before and the next packet:
      the frames it then releases, or None when it rejects the packet. */
  type Decoder<!P, F> = (seq<P>, P) -> Option<seq<F>>

  /** The resampler: the converted frame, or None when conversion fails. */
  type Resampler<!F, T> = F -> Option<Frame<T>>

  /** What the loop has done so far: the packets sent to the decoder, in order;
      the samples extracted from each frame, in order; and the error that
      stopped it, if any. */
  datatype Trace<P, T> = Trace(sent: seq<P>, chunks: seq<seq<T>>, failure: Option<PipelineError>)

  function Start<P, T>(): Trace<P, T>
  {
    Trace([], [], None)
  }

  /** One decoded frame: resample it, extract its samples, queue them. */
  function FrameStep<P, F, T>(t: Trace<P, T>, frame: F, resample: Resampler<F, T>): (r: Trace<P, T>)
    ensures r.sent == t.sent
    ensures t.failure.Some? ==> r == t
    ensures t.failure.None? && resample(frame).None? ==> r.failure == Some(ResampleFailed) && r.chunks == t.chunks
    ensures t.failure.None? && resample(frame).Some? && FrameExtraction.Packed(resample(frame).value).Failure? ==>
              r.failure == Some(Extraction(FrameExtraction.Packed(resample(frame).value).error)) && r.chunks == t.chunks
    ensures r.failure.None? <==>
              t.failure.None? && resample(frame).Some? && FrameExtraction.Packed(resample(frame).value).Success?
    ensures r.failure.None? ==>
              |r.chunks| == |t.chunks| + 1 && r.chunks[..|t.chunks|] == t.chunks
              && r.chunks[|t.chunks|] == FrameExtraction.Packed(resample(frame).value).value
  {
    if t.failure.Some? then t
    else match resample(frame)
      case None => t.(failure := Some(ResampleFailed))
      case Some(converted) =>
        match FrameExtraction.Packed(converted)
        case Failure(e) => t.(failure := Some(Extraction(e)))
        case Success(xs) => t.(chunks := t.chunks + [xs])
  }

  /** All the frames the decoder releases after one packet, in order. Frames
      never send packets, and nothing happens after an error. */
  function ReceiveFrames<P, F, T>(t: Trace<P, T>, frames: seq<F>, resample: Resampler<F, T>): (r: Trace<P, T>)
    ensures r.sent == t.sent
    ensures t.failure.Some? ==> r == t
    decreases |frames|
  {
    if frames == [] then t
    else ReceiveFrames(FrameStep(t, frames[0], resample), frames[1..], resample)
  }

  lemma ReceiveFramesUnfold<P, F, T>(t: Trace<P, T>, frames: seq<F>, resample: Resampler<F, T>)
    requires frames != []
    ensures ReceiveFrames(t, frames, resample) == ReceiveFrames(FrameStep(t, frames[0], resample), frames[1..], resample)
  {
  }

  /** One packet of the file: skipped unless it belongs to the selected stream;
      otherwise sent to the decoder, whose released frames are then handled. */
  function PacketStep<P, F, T>(t: Trace<P, T>, packet: (int, P), stream: int,
                               decode: Decoder<P, F>, resample: Resampler<F, T>): (r: Trace<P, T>)
    ensures t.failure.Some? || packet.0 != stream ==> r == t
    ensures t.failure.None? && packet.0 == stream ==> r.sent == t.sent + [packet.1]
    ensures t.failure.None? && packet.0 == stream && decode(t.sent, packet.1).None? ==>
              r.failure == Some(SendRejected) && r.chunks == t.chunks
  {
    if t.failure.Some? || packet.0 != stream then t
    else
      var sent := t.sent + [packet.1];
      match decode(t.sent, packet.1)
      case None => t.(sent := sent, failure := Some(SendRejected))
      case Some(frames) => ReceiveFrames(t.(sent := sent), frames, resample)
  }

  /** The whole loop over the file's packets, in file order. An error is final. */
  function Run<P, F, T>(t: Trace<P, T>, packets: seq<(int, P)>, stream: int,
                        decode: Decoder<P, F>, resample: Resampler<F, T>): (r: Trace<P, T>)
    ensures t.failure.Some? ==> r == t
    decreases |packets|
  {
    if packets == [] then t
    else Run(PacketStep(t, packets[0], stream, decode, resample), packets[1..], stream, decode, resample)
  }

  /** Handling frames only appends chunks: what was queued stays queued. */
  lemma {:induction false} ReceiveFramesAppends<P, F, T>(t: Trace<P, T>, frames: seq<F>, resample: Resampler<F, T>)
    ensures t.chunks <= ReceiveFrames(t, frames, resample).chunks
    decreases |frames|
  {
    if frames != [] {
      var t1 := FrameStep(t, frames[0], resample);
      ReceiveFramesAppends(t1, frames[1..], resample);
      assert t.chunks <= t1.chunks;
    }
  }

  /** The loop only ever adds to what was sent to the decoder and to what was
      queued: nothing sent or queued is taken back. */
  lemma {:induction false} RunAppends<P, F, T>(t: Trace<P, T>, packets: seq<(int, P)>, stream: int,
                                               decode: Decoder<P, F>, resample: Resampler<F, T>)
    ensures var r := Run(t, packets, stream, decode, resample);
            t.sent <= r.sent && t.chunks <= r.chunks
    decreases |packets|
  {
    if packets != [] {
      var t1 := PacketStep(t, packets[0], stream, decode, resample);
      RunAppends(t1, packets[1..], stream, decode, resample);
      if t.failure.None? && packets[0].0 == stream && decode(t.sent, packets[0].1).Some? {
        ReceiveFramesAppends(t.(sent := t.sent + [packets[0].1]), decode(t.sent, packets[0].1).value, resample);
      }
      assert t.sent <= t1.sent && t.chunks <= t1.chunks;
    }
  }

  // ---------------------------------------------------------------------------
  // Packet selection

  /** The packets of the selected stream, in file order. */
  function Selected<P>(packets: seq<(int, P)>, stream: int): seq<P>
    decreases |packets|
  {
    if packets == [] then []
    else (if packets[0].0 == stream then [packets[0].1] else []) + Selected(packets[1..], stream)
  }

  /** The file's packets with those of other streams removed. */
  function OnStream<P>(packets: seq<(int, P)>, stream: int): (r: seq<(int, P)>)
    ensures forall i :: 0 <= i < |r| ==> r[i].0 == stream
    decreases |packets|
  {
    if packets == [] then []
    else (if packets[0].0 == stream then [packets[0]] else []) + OnStream(packets[1..], stream)
  }

  /** The decoder is sent the selected stream's packets in file order: all of
      them when the loop finishes without error, a prefix of them otherwise. */
  lemma {:induction false} RunSendsSelected<P, F, T>(t: Trace<P, T>, packets: seq<(int, P)>, stream: int,
                                                     decode: Decoder<P, F>, resample: Resampler<F, T>)
    requires t.failure.None?
    ensures Run(t, packets, stream, decode, resample).sent <= t.sent + Selected(packets, stream)
    ensures Run(t, packets, stream, decode, resample).failure.None? ==>
              Run(t, packets, stream, decode, resample).sent == t.sent + Selected(packets, stream)
    decreases |packets|
  {
    if packets != [] {
      var head := if packets[0].0 == stream then [packets[0].1] else [];
      var t1 := PacketStep(t, packets[0], stream, decode, resample);
      assert t1.sent == t.sent + head;
      assert (t.sent + head) + Selected(packets[1..], stream) == t.sent + Selected(packets, stream);
      if t1.failure.None? {
        RunSendsSelected(t1, packets[1..], stream, decode, resample);
      } else {
        assert Run(t, packets, stream, decode, resample) == t1;
      }
    }
  }

  /** Packets of other streams have no effect: the loop behaves exactly as if
      the file held only the selected stream's packets. */
  lemma {:induction false} OtherStreamsIgnored<P, F, T>(t: Trace<P, T>, packets: seq<(int, P)>, stream: int,
                                                        decode: Decoder<P, F>, resample: Resampler<F, T>)
    ensures Run(t, packets, stream, decode, resample) == Run(t, OnStream(packets, stream), stream, decode, resample)
    decreases |packets|
  {
    if packets != [] {
      var rest := OnStream(packets[1..], stream);
      if packets[0].0 == stream {
        OtherStreamsIgnored(PacketStep(t, packets[0], stream, decode, resample), packets[1..], stream, decode, resample);
        var kept := OnStream(packets, stream);
        assert kept[0] == packets[0] && kept[1..] == rest;
      } else {
        OtherStreamsIgnored(t, packets[1..], stream, decode, resample);
        assert OnStream(packets, stream) == rest;
      }
    }
  }

  // ---------------------------------------------------------------------------
  // Admission into the queue

  /** What a push of `xs` into the empty queue transfers: the longest prefix
      that fits; the rest is dropped. */
  function Admitted<T>(xs: seq<T>): (r: seq<T>)
    ensures r <= xs && |r| == Min(|xs|, QUEUE_CAPACITY)
    ensures r == xs <==> |xs| <= QUEUE_CAPACITY
  {
    xs[..Min(|xs|, QUEUE_CAPACITY)]
  }

  /** The samples of all chunks, each cut to what the queue admits. */
  function AdmitAll<T>(chunks: seq<seq<T>>): seq<T>
    decreases |chunks|
  {
    if chunks == [] then [] else AdmitAll(chunks[..|chunks| - 1]) + Admitted(chunks[|chunks| - 1])
  }

  lemma AdmitAllAppend<T>(chunks: seq<seq<T>>, chunk: seq<T>)
    ensures AdmitAll(chunks + [chunk]) == AdmitAll(chunks) + Admitted(chunk)
  {
    assert (chunks + [chunk])[..|chunks|] == chunks;
  }

  /** The samples of all chunks, uncut. */
  function Flatten<T>(chunks: seq<seq<T>>): seq<T>
    decreases |chunks|
  {
    if chunks == [] then [] else Flatten(chunks[..|chunks| - 1]) + chunks[|chunks| - 1]
  }

  /** When no frame yields more samples than the queue holds, nothing is
      dropped: every extracted sample is queued, in order. */
  lemma {:induction false} AdmitAllLossless<T>(chunks: seq<seq<T>>)
    requires forall i :: 0 <= i < |chunks| ==> |chunks[i]| <= QUEUE_CAPACITY
    ensures AdmitAll(chunks) == Flatten(chunks)
    decreases |chunks|
  {
    if chunks != [] {
      var init := chunks[..|chunks| - 1];
      assert forall i :: 0 <= i < |init| ==> init[i] == chunks[i];
      AdmitAllLossless(init);
    }
  }

  /** Admission never adds samples: at most the extracted ones are queued. */
  lemma {:induction false} AdmitAllShorter<T>(chunks: seq<seq<T>>)
    ensures |AdmitAll(chunks)| <= |Flatten(chunks)|
    decreases |chunks|
  {
    if chunks != [] {
      AdmitAllShorter(chunks[..|chunks| - 1]);
    }
  }

  // ---------------------------------------------------------------------------
  // The player, imperatively

  datatype PlayerError = SetupFailed(setup: SetupError) | StreamFailed(stream: PipelineError)

  /** One invocation of the playback callback on the device buffer; `taken`
      is what it moved from the queue to the buffer: the oldest samples, as
      many as fit, and at least one when the queue was not empty. */
  method Callback<T(0)>(queue: Queue<T>, device: array<T>) returns (taken: seq<T>)
    requires queue.Valid() && device.Length > 0 && device != queue.buf
    modifies queue, device
    ensures queue.Valid()
    ensures taken + queue.contents == old(queue.contents)
    ensures |taken| == Min(device.Length, |old(queue.contents)|)
    ensures device[..|taken|] == taken && device[|taken|..] == old(device[|taken|..])
  {
    ghost var before := queue.contents;
    var available := queue.OccupiedLen();
    var k := Min(device.Length, available);
    WriteAudio(device, queue);
    taken := device[..k];
    assert before[..k] + before[k..] == before;
  }

  /** The wait for the queue to run empty. Meanwhile only the playback callback
      acts on the queue, so each turn of the wait is one callback filling the
      device buffer; what the callbacks take is the queue's whole contents, in order. */
  method AwaitDrained<T(0)>(queue: Queue<T>, device: array<T>) returns (taken: seq<T>)
    requires queue.Valid() && device.Length > 0 && device != queue.buf
    modifies queue, device
    ensures queue.Valid() && queue.contents == [] && taken == old(queue.contents)
  {
    taken := [];
    var empty := queue.IsEmpty();
    while !empty
      invariant queue.Valid()
      invariant empty <==> queue.contents == []
      invariant taken + queue.contents == old(queue.contents)
      decreases |queue.contents|
    {
      var more := Callback(queue, device);
      taken := taken + more;
      empty := queue.IsEmpty();
    }
  }

  /** One frame's samples into the queue: wait for it to run empty, then push
      them all, ignoring how many fit. */
  method Enqueue<T(0)>(queue: Queue<T>, device: array<T>, samples: seq<T>) returns (taken: seq<T>)
    requires queue.Valid() && queue.Capacity() == QUEUE_CAPACITY
    requires device.Length > 0 && device != queue.buf
    modifies queue, queue.buf, device
    ensures queue.Valid() && queue.Capacity() == QUEUE_CAPACITY
    ensures taken == old(queue.contents) && queue.contents == Admitted(samples)
  {
    taken := AwaitDrained(queue, device);
    var _ := queue.PushSlice(samples);
  }

  /** One decoded frame: resample it, extract its samples and queue them.
      Starting from trace `t`, whose admitted samples are `done` followed by
      the queue, the result is the trace `FrameStep` gives, with the same
      relation between its samples and the queue. */
  method HandleFrame<P, F, T(0)>(queue: Queue<T>, device: array<T>, frame: F,
                                 resample: Resampler<F, T>, ghost t: Trace<P, T>, ghost done: seq<T>)
    returns (result: Outcome<PipelineError>, played: seq<T>)
    requires queue.Valid() && queue.Capacity() == QUEUE_CAPACITY
    requires device.Length > 0 && device != queue.buf
    requires t.failure.None? && done + queue.contents == AdmitAll(t.chunks)
    modifies queue, queue.buf, device
    ensures queue.Valid() && queue.Capacity() == QUEUE_CAPACITY
    ensures var r := FrameStep(t, frame, resample);
            && done + played + queue.contents == AdmitAll(r.chunks)
            && (result == Pass <==> r.failure.None?)
            && (r.failure.Some? ==> result == Fail(r.failure.value))
    ensures FrameStep(t, frame, resample).failure.Some? ==>
              played == [] && queue.contents == old(queue.contents)
    ensures var r := FrameStep(t, frame, resample);
            r.failure.None? ==> played == old(queue.contents) && queue.contents == Admitted(r.chunks[|r.chunks| - 1])
  {
    played := [];
    var converted := resample(frame);
    if converted.None? {
      return Fail(ResampleFailed), played;
    }
    var extracted := FrameExtraction.Packed(converted.value);
    if extracted.Failure? {
      return Fail(Extraction(extracted.error)), played;
    }
    var samples := extracted.value;
    played := Enqueue(queue, device, samples);
    AdmitAllAppend(t.chunks, samples);
    result := Pass;
  }

  /** How the samples of trace `u` stand, when the work began at trace `t`
      with queue contents `before`: those admitted so far are `done`, then
      `played`, then the queue's `contents`. While no frame has been queued
      the callback has taken nothing and the queue is as it was; after that
      the queue holds what was admitted from the last frame. */
  ghost predicate Accounted<P, T>(t: Trace<P, T>, u: Trace<P, T>, done: seq<T>, played: seq<T>,
                                  contents: seq<T>, before: seq<T>)
  {
    && done + played + contents == AdmitAll(u.chunks)
    && |t.chunks| <= |u.chunks|
    && (|u.chunks| == |t.chunks| ==> played == [] && contents == before)
    && (|u.chunks| > |t.chunks| ==> contents == Admitted(u.chunks[|u.chunks| - 1]))
  }

  /** One handled frame keeps the account: a failed frame changes nothing, a
      queued one adds what the callback took while the queue drained. */
  lemma AccountFrame<P, T>(t: Trace<P, T>, u: Trace<P, T>, r: Trace<P, T>, done: seq<T>, played: seq<T>,
                           taken: seq<T>, mid: seq<T>, after: seq<T>, before: seq<T>)
    requires Accounted(t, u, done, played, mid, before)
    requires r.failure.Some? ==> r.chunks == u.chunks && taken == [] && after == mid
    requires r.failure.None? ==>
               |r.chunks| == |u.chunks| + 1 && taken == mid && after == Admitted(r.chunks[|r.chunks| - 1])
    requires (done + played) + taken + after == AdmitAll(r.chunks)
    ensures Accounted(t, r, done, played + taken, after, before)
  {
    assert done + (played + taken) + after == (done + played) + taken + after;
  }

  /** One turn of the receive-and-queue loop: the next frame is handled and
      the account of the samples is carried from trace `u` to the next one. */
  method HandleNext<P, F, T(0)>(queue: Queue<T>, device: array<T>, frame: F, resample: Resampler<F, T>,
                                ghost t: Trace<P, T>, ghost u: Trace<P, T>, ghost done: seq<T>,
                                played: seq<T>, ghost before: seq<T>)
    returns (result: Outcome<PipelineError>, played': seq<T>)
    requires queue.Valid() && queue.Capacity() == QUEUE_CAPACITY
    requires device.Length > 0 && device != queue.buf
    requires u.failure.None? && Accounted(t, u, done, played, queue.contents, before)
    modifies queue, queue.buf, device
    ensures queue.Valid() && queue.Capacity() == QUEUE_CAPACITY
    ensures var v := FrameStep(u, frame, resample);
            && Accounted(t, v, done, played', queue.contents, before)
            && (result == Pass <==> v.failure.None?)
            && (v.failure.Some? ==> result == Fail(v.failure.value))
  {
    ghost var mid := queue.contents;
    var taken;
    result, taken := HandleFrame(queue, device, frame, resample, u, done + played);
    AccountFrame(t, u, FrameStep(u, frame, resample), done, played, taken, mid, queue.contents, before);
    played' := played + taken;
  }

  /** The frames the decoder released after one packet, in order (the
      receive-and-queue step); the first failure stops the work. `played` is
      what the playback callback took from the queue meanwhile. Starting from
      trace `t`, whose admitted samples are `done` followed by the queue, the
      result is the trace `ReceiveFrames` gives, with the same relation between
      its samples and the queue. */
  method ReceiveAndQueue<P, F, T(0)>(queue: Queue<T>, device: array<T>, frames: seq<F>,
                                     resample: Resampler<F, T>, ghost t: Trace<P, T>, ghost done: seq<T>)
    returns (result: Outcome<PipelineError>, played: seq<T>)
    requires queue.Valid() && queue.Capacity() == QUEUE_CAPACITY
    requires device.Length > 0 && device != queue.buf
    requires t.failure.None? && done + queue.contents == AdmitAll(t.chunks)
    modifies queue, queue.buf, device
    ensures queue.Valid()
    ensures var r := ReceiveFrames(t, frames, resample);
            && (result == Pass <==> r.failure.None?)
            && (r.failure.Some? ==> result == Fail(r.failure.value))
    ensures Accounted(t, ReceiveFrames(t, frames, resample), done, played, queue.contents, old(queue.contents))
  {
    played := [];
    result := Pass;
    ghost var r := ReceiveFrames(t, frames, resample);
    ghost var u := t;
    ghost var before := queue.contents;
    var j := 0;
    while j < |frames| && result == Pass
      invariant j <= |frames| && ReceiveFrames(u, frames[j..], resample) == r
      invariant queue.Valid() && queue.Capacity() == QUEUE_CAPACITY
      invariant result == Pass <==> u.failure.None?
      invariant u.failure.Some? ==> result == Fail(u.failure.value)
      invariant Accounted(t, u, done, played, queue.contents, before)
    {
      assert frames[j..][1..] == frames[j + 1..];
      ReceiveFramesUnfold(u, frames[j..], resample);
      result, played := HandleNext(queue, device, frames[j], resample, t, u, done, played, before);
      u := FrameStep(u, frames[j], resample);
      j := j + 1;
    }
    assert j == |frames| ==> frames[j..] == [];
    assert r == u;
  }

  /** The player run on a device with sample format `format` whose callback
      asks for `period` samples at a time. Start-up fails for every format but
      32-bit float. Then each packet of the selected stream is sent to the
      decoder, and the frames it releases are handled by `ReceiveAndQueue`.
      `sent` is what the decoder was sent; `played` is what the playback
      callback took from the queue; `unplayed` is what is left in the queue
      when the loop stops. */
  method Play<P, F, T(0)>(format: DeviceFormat, packets: seq<(int, P)>, stream: int,
                          decode: Decoder<P, F>, resample: Resampler<F, T>, period: nat)
    returns (outcome: Outcome<PlayerError>, sent: seq<P>, played: seq<T>, ghost unplayed: seq<T>)
    requires period > 0
    ensures Setup(format).Failure? ==>
              outcome == Fail(SetupFailed(Setup(format).error)) && sent == [] && played == []
    ensures Setup(format).Failure? ==> unplayed == []
    ensures Setup(format).Success? ==>
              var t := Run(Start(), packets, stream, decode, resample);
              && sent == t.sent
              && played <= AdmitAll(t.chunks)
              && |AdmitAll(t.chunks)| - |played| <= QUEUE_CAPACITY
              && (outcome == Pass <==> t.failure.None?)
              && (t.failure.Some? ==> outcome == Fail(StreamFailed(t.failure.value)))
    ensures Setup(format).Success? ==>
              played + unplayed == AdmitAll(Run(Start(), packets, stream, decode, resample).chunks)
  {
    sent, played, unplayed := [], [], [];
    match Setup(format) {
      case Failure(e) =>
        outcome := Fail(SetupFailed(e));
        return;
      case Success(_) =>
    }

    var queue := new Queue<T>(QUEUE_CAPACITY);
    var device := new T[period];
    ghost var final := Run(Start(), packets, stream, decode, resample);
    ghost var t: Trace<P, T> := Start();

    for i := 0 to |packets|
      invariant queue.Valid() && queue.Capacity() == QUEUE_CAPACITY && device != queue.buf
      invariant t.failure.None? && Run(t, packets[i..], stream, decode, resample) == final
      invariant sent == t.sent
      invariant played + queue.contents == AdmitAll(t.chunks)
    {
      assert packets[i..][1..] == packets[i + 1..];
      var (index, packet) := packets[i];
      if index == stream {
        var released := decode(sent, packet);
        sent := sent + [packet];
        if released.None? {
          outcome, unplayed := Fail(StreamFailed(SendRejected)), queue.contents;
          return;
        }
        var result, taken := ReceiveAndQueue(queue, device, released.value, resample, t.(sent := sent), played);
        played := played + taken;
        t := ReceiveFrames(t.(sent := sent), released.value, resample);
        if result.Fail? {
          outcome, unplayed := Fail(StreamFailed(result.error)), queue.contents;
          return;
        }
      }
    }
    outcome, unplayed := Pass, queue.contents;
  }
}
