# rust-audio player core, modelled in Dafny

A command-line audio player decodes the audio stream of a media file, resamples
it to the output device's format, and plays it. A bounded sample queue of 8192
samples decouples two sides. The decode loop pushes each frame's samples into
the queue. The device's playback callback pops samples from the queue into its
output buffer.

The model covers the player's own logic in `src/main.rs`:

- `sample_formats.dfy` (module `SampleFormats`): the device's sample formats,
  the resampler's formats, and `AsFfmpegSample`, the mapping between them. Six
  formats map to the packed resampler format of the same width and kind. The
  others are an error value, where the source panics. An inverse mapping is
  proved to agree with it in both directions.
- `frame_extraction.dfy` (module `FrameExtraction`): a frame as a record, and
  `Packed`, which returns the frame's interleaved samples or the error the
  source panics with. A packed frame's first plane is a plain sequence.
- `sample_queue.dfy` (module `SampleQueue`): the queue as a class over a
  fixed array used as a ring. The ghost field `contents` holds the queued
  samples, oldest first. `PushSlice` transfers the longest prefix that fits and
  returns how many it took. `TryPop` returns the head, or `None` when the queue
  is empty.
- `playback.dfy` (module `Playback`): `WriteAudio`, the playback callback, on a
  Dafny array. `Drain` is a slot-by-slot specification of it on values. A lemma
  proves its closed form: the first `min(N, |q|)` slots take the queue's head
  in order, and the other slots keep their old contents.
- `pipeline.dfy` (module `Pipeline`): start-up (`Setup`) and the loop over the
  file's packets. `Run` specifies the loop on values. It folds over the packets
  and records three things: the packets sent to the decoder, the samples
  extracted from each frame, and the error that stopped the loop. `Play` is the
  loop itself, written imperatively and proved against `Run`. Its parts are
  `ReceiveAndQueue` (the receive-and-queue closure), `HandleFrame`, `Enqueue`
  and `AwaitDrained`.

External code becomes parameters. The decoder is a function from the packets
already sent and the next packet to the frames it releases, or `None` when it
rejects the packet. The resampler is a function from a decoded frame to the
converted frame, or `None` on failure. The device's callback buffer length is
the parameter `period`. Sample values have a generic type and are only moved.

The program runs two threads. The model runs them in one sequence. The
busy-wait before each push (`src/main.rs:144-146`) becomes an explicit
interleaving. While the queue is not empty, each turn of the wait is one
invocation of the playback callback. This is the only thing that can empty the
queue. So each frame's samples are pushed into an empty queue, and the push
keeps at most 8192 of them (`Admitted`). `Play` proves an end-to-end result:
the samples the callback took, followed by what is left in the queue, equal
the concatenation of every extracted frame, each cut to 8192 samples.
`AdmitAllLossless` proves that nothing is cut when no frame exceeds the
capacity.

## Behaviour of the code worth knowing

- Slots the queue cannot fill are left untouched, not zeroed
  (`src/main.rs:58-62`). `WriteAudio` and `Drain` keep them as they were.
- The device format is mapped only when the resampler is built
  (`src/main.rs:107`). That happens after the file is opened, the audio stream
  is found and the decoder is created (`src/main.rs:89-102`). File handling is
  not modelled. `Setup` keeps the code's order: first the format mapping, then
  the stream match.
- The push count is ignored (`src/main.rs:147`), so a frame of more than 8192
  samples loses its tail. `Admitted` and `Play` model that loss.

## Model

| member | source | states |
|---|---|---|
| `SampleFormats.AsFfmpegSample` | src/main.rs:19-35 | succeeds exactly for I16, I32, I64, U8, F32 and F64. The result is always packed, never NoFormat, and has the same bit width and numeric kind as the device format. Every other format, including unlisted ones, fails with `Unsupported(f)` |
| `SampleFormats.AsFfmpegSampleInverse` | src/main.rs:21-32 | the mapping and its inverse agree in both directions: `f` maps to `s` if and only if `s` maps back to `f`. So no planar format is ever produced |
| `SampleFormats.AsFfmpegSampleInjective` | src/main.rs:23-31 | two device formats that map to the same resampler format are equal |
| `FrameExtraction.Packed` | src/main.rs:66-80 | fails with `NotPacked` exactly when the frame is not packed, whatever its type. Fails with `UnsupportedType` exactly when it is packed and the type is invalid. Otherwise returns exactly `samples * channels` values, a prefix of the first plane |
| `FrameExtraction.PackedRoundTrip` | src/main.rs:74-78 | extracting a packed frame built from interleaved values `xs` (plus any padding) gives back exactly `xs` |
| `SampleQueue.Queue.constructor` | src/main.rs:113-114 | a new queue of the given capacity is empty |
| `SampleQueue.Queue.IsEmpty` | src/main.rs:144 | true exactly when no sample is queued |
| `SampleQueue.Queue.TryPop` | src/main.rs:59 | returns the oldest sample and removes it. An empty queue gives `None` and stays empty |
| `SampleQueue.Queue.TryPush` | src/main.rs:147 | appends the sample exactly when the queue is not full; a full queue is unchanged |
| `SampleQueue.Queue.PushSlice` | src/main.rs:147 | transfers `min(|xs|, capacity - |queue|)` samples, the prefix of `xs`, to the queue's tail, returns that count, and keeps the queue within capacity |
| `Playback.Drain` | src/main.rs:58-63 | the slot-by-slot callback on values keeps the buffer's length and never lengthens the queue |
| `Playback.DrainClosedForm` | src/main.rs:58-62 | with `k = min(N, |q|)`: the buffer becomes `q[..k]` followed by its own old slots from `k` on, and the queue becomes `q[k..]` |
| `Playback.DrainConserves` | src/main.rs:58-61 | the samples written, followed by what is left in the queue, equal the queue before the callback: nothing is lost or reordered |
| `Playback.WriteAudio` | src/main.rs:53-64 | the new buffer and queue are what `Drain` gives. The first `k` slots hold the first `k` queued samples in order. Later slots are untouched. The queue loses exactly those `k` samples |
| `Pipeline.BuildStream` | src/main.rs:115-133 | the stream is built exactly for F32. Every other format, including unlisted ones, fails as unimplemented with that format |
| `Pipeline.Setup` | src/main.rs:103-133 | succeeds only for F32, with the packed F32 resampler format. Formats with no resampler equivalent fail with the mapping's error. The other supported formats fail as unimplemented at the stream match |
| `Pipeline.FrameStep` | src/main.rs:140-147 | one frame adds exactly one chunk, the frame's extracted samples, when resampling and extraction both succeed. A resample failure records `ResampleFailed` and an extraction error records that error; neither adds a chunk. Nothing is sent, and nothing happens after an earlier error |
| `Pipeline.PacketStep` | src/main.rs:154-158 | a packet of another stream, or any packet after an error, changes nothing. A packet of the selected stream is appended to what was sent, and a rejected send records `SendRejected` and adds no chunk |
| `Pipeline.ReceiveFrames` | src/main.rs:139-148 | handling released frames never sends a packet, and nothing happens once an error has occurred |
| `Pipeline.Run` | src/main.rs:154-160 | an error stops the loop: nothing changes after it |
| `Pipeline.ReceiveFramesAppends` | src/main.rs:139-148 | handling frames only appends chunks of samples; earlier ones stay as they were |
| `Pipeline.RunAppends` | src/main.rs:154-160 | the loop only adds to the packets sent and the chunks queued |
| `Pipeline.RunSendsSelected` | src/main.rs:154-157 | the decoder is sent the selected stream's packets in file order: all of them when no error occurs, otherwise a prefix |
| `Pipeline.OtherStreamsIgnored` | src/main.rs:154-159 | the loop on a file equals the loop on the same file with other streams' packets removed |
| `Pipeline.Admitted` | src/main.rs:147 | a push into the empty queue keeps the prefix of the frame of exactly `min(|xs|, 8192)` samples. So it keeps the whole frame exactly when the frame has at most 8192 samples |
| `Pipeline.AdmitAllLossless` | src/main.rs:144-147 | if no frame yields more than 8192 samples, the queued samples are all extracted samples, in order |
| `Pipeline.AdmitAllShorter` | src/main.rs:147 | the queue never receives more samples than were extracted |
| `Pipeline.Callback` | src/main.rs:126 | one callback moves the oldest `min(N, |queue|)` samples out of the queue, in order, into the first slots of the device buffer; the buffer's other slots are unchanged |
| `Pipeline.AwaitDrained` | src/main.rs:144-146 | the wait ends with an empty queue. The callbacks during it took the queue's whole contents, in order |
| `Pipeline.Enqueue` | src/main.rs:143-147 | after waiting for the empty queue and pushing, the queue holds exactly `Admitted(samples)` |
| `Pipeline.HandleFrame` | src/main.rs:140-147 | one frame: resample, extract, push. The outcome and queued samples match `FrameStep`. A resample failure or an extraction error is returned at once: nothing is played and the queue is unchanged. Otherwise the callback plays the whole old queue, and the queue then holds exactly the frame's admitted samples |
| `Pipeline.ReceiveAndQueue` | src/main.rs:135-150 | the frames released after one packet are handled in order until the first error. The error returned, and the samples played plus those still queued, are what `ReceiveFrames` specifies. Through `Accounted`: when no frame is queued, nothing is played and the queue is unchanged; otherwise the queue holds exactly what was admitted from the last queued frame |
| `Pipeline.Play` | src/main.rs:113-160 | setup fails for every format but F32, before anything is sent. Otherwise: the decoder is sent exactly `Run`'s packets; the samples played are a prefix of `Run`'s chunks each cut to 8192 samples, and with those left queued they make up all of it; at most 8192 of them are not played; and the outcome is `Run`'s error, if any |

## Left out

- Device and host setup, file opening and stream discovery (`init_cpal`,
  `src/main.rs:37-51`, `src/main.rs:83-102`). These are calls into the audio
  and media libraries with no logic of the player's own. The selected stream
  index is a parameter.
- Failures of external construction calls: the codec context, the decoder,
  the resampler (`src/main.rs:96-111`) and `build_output_stream`
  (`src/main.rs:124-133`, the device's own error). Each one aborts the program,
  and none depends on logic the player owns.
- The decoder's and resampler's internals (`send_packet`, `receive_frame`,
  `resampler.run`). They are function parameters. The resampler is a function of
  one frame, so any state it carries between frames is not modelled.
- `receive_frame` ending the drain loop: any non-success result ends it, so
  the model's list of released frames stands for all of them.
- Concurrency. The callback thread runs only during the busy-wait, one
  callback per turn. A callback that races with a push, and the lock-free
  cursors inside the queue library, are not modelled. The device's buffer
  length is one fixed `period`, which must be positive. Without that, the
  wait could never end.
- The queue library's own source is not part of this model. Its push and pop
  rules are implemented on a ring buffer and proved there. The library copies
  a slice in bulk; `PushSlice` copies element by element, with the same result.
  `Queue.constructor` requires a positive capacity, and the player uses 8192.
- The unsafe pointer reinterpretation in `packed` (`src/main.rs:74-79`). The
  first plane is a sequence of the requested type. The subset type `Frame`
  states the decoding library's guarantee: a packed frame of a valid type holds
  at least `samples * channels` values in that plane. `typeValid` is a boolean
  field standing for the library's per-type `is_valid` table. The 16-bit
  channel count and the widening cast are unbounded naturals.
- Floating-point sample values. Samples are moved and never computed on, so
  their type is generic.
- The error callback's logging (`src/main.rs:127`) and `audio_stream.play()`
  (`src/main.rs:152`).
- Panic messages. Panics and `expect` failures become error values
  (`FormatError`, `FrameError`, `SetupError`, `PipelineError`), not process
  termination.
- Samples still in the queue when the packet loop ends. `main` returns, and
  they are not played; `Play` returns them as `unplayed`.
