# Bounded audio sample queue of mp_audio_stream

This project models, in Dafny, the flow-control core of the browser audio
stream used by the emulator: a bounded FIFO of interleaved samples that sits
between a bursty producer (the main thread posting sample chunks to an audio
worklet's port) and a periodic consumer (the worklet's render callback).

Two versions of that queue are modelled.

- `Processor` in `assets/packages/mp_audio_stream/js/audio_stream.js`
  (modules `AudioStream`, `AudioStreamPush`, `AudioStreamTraces`):
  - an all-or-nothing admission gate on `maxBufferSize`, counting rejected
    messages in `fullCount`;
  - a `resetStat` message that zeroes both counters;
  - the render step, with an underflow latch `isExhaust`, a hysteresis hold
    below `keepBufferSize` and the `exhaustCount` counter;
  - deinterleaving of the head of the buffer into per-channel output arrays;
  - the main-thread `push`, which posts a payload in pieces of at most
    48000 samples.
- `MyWorkletProcessor` in `processor.js` (module `MonoWorklet`), the older
  mono variant:
  - a module-global buffer;
  - a fixed admission limit of 16384 samples;
  - a render step that copies one block only when more than the block plus
    2048 samples are buffered.

Each handler invocation is an atomic, sequential call. The pure functions
`AudioStream.Receive`, `AudioStream.Render`, `MonoWorklet.Receive` and
`MonoWorklet.Render` say what one call does to the state. The class methods
run the JavaScript handlers' statements, loops included, and are proved against those
functions. The modules `AudioStreamTraces` and `MonoWorklet` then prove
properties of whole runs, such as FIFO order, counter monotonicity, the
hysteresis hold and occupancy bounds. A run is the sequence of messages and
render quanta in the order the worklet executes them.

Sample values are an opaque type parameter `T`, because no arithmetic is
done on them. Both limits of `Processor` are counted in raw interleaved
samples, as the code compares them with `buffer.length`. They are
constructor parameters: `init` writes them into the worklet's code text
at start-up.

## Behaviour as written

Some consequences of the code that are easy to miss:

- Both limits are compared with `buffer.length`, a number of interleaved
  samples, not of frames.
- The gate looks only at what is already buffered. So a five-sample message
  is admitted whole into an empty worklet whose `maxBufferSize` is 4
  (`OversizedMessageAdmitted`).
- The buffer has no hard capacity. It stays below `maxBufferSize` plus the
  largest message (`OccupancyBound` in both modules).
- The hold ends as soon as the buffer holds `keepBufferSize` samples or
  more: the test at audio_stream.js:47 is `keepBufferSize > playableSize`.
- Neither the hold branch nor an underflow writes zeros. Output positions
  that receive no sample keep the value the host supplied, which is silence
  for the zero-filled arrays the host hands in.
- Statistics are posted after every message, including rejected and unknown
  ones, and after every render step except the hold branch.
- `push` posts each piece as its own message, and the gate applies to each
  piece. When the pieces of one push are delivered back to back, with no
  render quantum or other message between them, the push is admitted as its
  first `k` pieces, and each later piece counts one rejection
  (`PushAdmitsLeadingPieces`). So a push is not all-or-nothing at the level
  of the producer's call. When a render quantum runs between two pieces, a
  later piece can be admitted after an earlier one was rejected; the model
  proves nothing about a push in that case beyond the run-level FIFO and
  bound lemmas.

## Model

| member | source | states |
|---|---|---|
| `AudioStream.Receive` | assets/packages/mp_audio_stream/js/audio_stream.js:24-35 | A message never touches the latch and never removes samples. A "data" message either appends its whole payload at the tail with `fullCount` unchanged, or leaves the buffer unchanged and raises `fullCount` by exactly 1, and it is rejected if and only if the buffer already holds `maxBufferSize` samples or more. Only `resetStat` can lower a counter. |
| `AudioStream.Render` | assets/packages/mp_audio_stream/js/audio_stream.js:41-69 | The render step takes `copyLength <= min(buffer, frames*channels)` samples, and exactly those leave the head. In the hold, nothing is taken and the latch stays set. Outside the hold, a full block is taken or the buffer is drained, and the latch is set exactly when the buffer was shorter than the block. `exhaustCount` rises by one exactly when the call ends latched. `fullCount` is unchanged. Zero frames on an unlatched stream change nothing. |
| `AudioStream.Processor.constructor` | assets/packages/mp_audio_stream/js/audio_stream.js:13-22 | A new worklet has the given limits, an empty buffer, zero counters, the latch clear and nothing posted. |
| `AudioStream.Processor.OnMessage` | assets/packages/mp_audio_stream/js/audio_stream.js:24-38 | The new state is `Receive` of the old one. "data" appends the payload if and only if `buffer.length < maxBufferSize`, and otherwise raises `fullCount` by 1 with the buffer unchanged. "resetStat" zeroes both counters and keeps the buffer and the latch. Any other type changes nothing. Every message posts the counters. |
| `AudioStream.CopyChannel` | assets/packages/mp_audio_stream/js/audio_stream.js:64-67 | For channel `c`, position `d` of the channel's array receives sample `d*channels + c` when that index is below `copyLength`. Every other position keeps its value. |
| `AudioStream.Processor.Process` | assets/packages/mp_audio_stream/js/audio_stream.js:41-74 | The new state is `Render` of the old one. For every channel `c` and frame `d`, `out[c][d]` is old `buffer[d*channels + c]` when that index is below `copyLength`, and otherwise is left as supplied. The method always returns true. It posts the counters except in the hold branch. |
| `AudioStreamPush.Chunks` | assets/packages/mp_audio_stream/js/audio_stream.js:97-109 | `push` posts at least one piece. A payload of at most 48000 samples, the empty one included, is posted as it is. |
| `AudioStreamPush.ChunksFlatten` | assets/packages/mp_audio_stream/js/audio_stream.js:102-108 | The posted pieces, concatenated in posting order, are the payload. |
| `AudioStreamPush.ChunksSizes` | assets/packages/mp_audio_stream/js/audio_stream.js:102-108 | Every piece has at most 48000 samples. Every piece but the last has exactly 48000. The last piece is empty exactly when the payload is. |
| `AudioStreamPush.ChunksCount` | assets/packages/mp_audio_stream/js/audio_stream.js:102-108 | An empty payload is posted as one message. Otherwise the number of messages is the payload length divided by 48000, rounded up. |
| `AudioStreamTraces.StepFifo` | assets/packages/mp_audio_stream/js/audio_stream.js:26-27 | In one invocation, the old buffer followed by the admitted samples equals the samples taken from the head followed by the new buffer. |
| `AudioStreamTraces.FifoOrder` | assets/packages/mp_audio_stream/js/audio_stream.js:27-69 | Over any run, the initial buffer followed by everything admitted equals everything played, in order, followed by the final buffer. |
| `AudioStreamTraces.PlayedIsPrefixOfFed` | assets/packages/mp_audio_stream/js/audio_stream.js:63-69 | From a fresh worklet, the samples played are a prefix of the samples admitted, in push order. |
| `AudioStreamTraces.CountersNeverDecrease` | assets/packages/mp_audio_stream/js/audio_stream.js:24-61 | Over a run without "resetStat", neither `exhaustCount` nor `fullCount` decreases. |
| `AudioStreamTraces.LatchedPlaysNothing` | assets/packages/mp_audio_stream/js/audio_stream.js:47-50 | Once latched, while the buffer plus everything admitted stays below `keepBufferSize`, the worklet plays nothing. The latch stays set and every admitted sample stays buffered. |
| `AudioStreamTraces.OccupancyBound` | assets/packages/mp_audio_stream/js/audio_stream.js:26-27 | If every message carries at most 48000 samples, the buffer stays below `maxBufferSize + 48000` in every run. |
| `AudioStreamTraces.PushEvents` | assets/packages/mp_audio_stream/js/audio_stream.js:97-109 | `push` posts one "data" message per piece. |
| `AudioStreamTraces.PushIsChunked` | assets/packages/mp_audio_stream/js/audio_stream.js:102-107 | The messages posted by `push` carry at most 48000 samples each. |
| `AudioStreamTraces.PushEventsUnfold` | assets/packages/mp_audio_stream/js/audio_stream.js:103-105 | A payload longer than 48000 samples is posted as its first 48000 samples, followed by the messages for the rest. |
| `AudioStreamTraces.ShutGateRejectsAll` | assets/packages/mp_audio_stream/js/audio_stream.js:26-30 | Once the buffer is at `maxBufferSize` or above, a run of "data" messages admits nothing and only raises `fullCount`, by one per message. |
| `AudioStreamTraces.PushAdmitsLeadingPieces` | assets/packages/mp_audio_stream/js/audio_stream.js:97-109 | When the messages of one push are delivered back to back, with no render quantum or other message between them, they are admitted as its first `k` pieces, appended at the tail, and each remaining piece raises `fullCount` by one. Under the same condition, a push whose payload fits below `maxBufferSize` is admitted whole. |
| `AudioStreamTraces.PushAdmitsPrefix` | assets/packages/mp_audio_stream/js/audio_stream.js:97-109 | When the messages of one push are delivered back to back, with no render quantum or other message between them, what the push admits is a prefix of its payload. |
| `AudioStreamTraces.WorkedRun` | assets/packages/mp_audio_stream/js/audio_stream.js:41-69 | With limits 4 and 2 on one channel: three samples are pushed, then three quanta of two frames run. They play two samples, then the last one (latching), then nothing (holding), and end with `exhaustCount` 2. |
| `AudioStreamTraces.OversizedMessageAdmitted` | assets/packages/mp_audio_stream/js/audio_stream.js:26-27 | A five-sample message is admitted whole into an empty worklet whose `maxBufferSize` is 4. |
| `MonoWorklet.Receive` | processor.js:9-13 | A message either appends its whole payload at the tail or changes nothing, and it is appended if and only if the buffer holds fewer than `MaxBufferSize` samples. |
| `MonoWorklet.Render` | processor.js:16-24 | A render step either removes exactly the block from the head or changes nothing, and it removes the block exactly when `out.length + 2048 < buffer.length`. After the step the buffer is either as long as before or longer than 2048 samples. |
| `MonoWorklet.GlobalBuffer.constructor` | processor.js:4 | The module-global buffer starts empty. |
| `MonoWorklet.MyWorkletProcessor.constructor` | processor.js:7-14 | A processor works on the module-global buffer it is given. Every processor in the module shares that buffer. |
| `MonoWorklet.MyWorkletProcessor.OnMessage` | processor.js:9-13 | The payload is appended if and only if the buffer holds fewer than 16384 samples. Otherwise the buffer is unchanged and nothing is recorded. |
| `MonoWorklet.MyWorkletProcessor.Process` | processor.js:16-27 | When `out.length + 2048 < buffer.length`, `out[i]` is old `buffer[i]` for every `i`, and the new buffer is old `buffer[out.length..]`. Otherwise neither the buffer nor `out` changes. The method writes only the one array it gets, channel 0 of output 0, and it returns true. |
| `MonoWorklet.OccupancyBound` | processor.js:10-11 | If every message carries at most `m` samples, the buffer stays below `16384 + m` in every run. |
| `MonoWorklet.NeverDrainsBelowKeep` | processor.js:19-23 | Once the buffer holds more than 2048 samples, no run brings it back to 2048 or below. |
| `MonoWorklet.StepFifo` | processor.js:10-23 | In one invocation, the old buffer followed by the admitted samples equals the copied block followed by the new buffer. |
| `MonoWorklet.FifoOrder` | processor.js:11-23 | Over any run, the initial buffer followed by everything admitted equals everything copied out, in order, followed by the final buffer. |

## Left out

- `init`, `resume` and `uninit` (audio_stream.js:80-95, 114-123) are not modelled. They create the AudioContext and the worklet node and rewrite the worklet's code text. `init` fixes the two limits, which are constructor parameters here, and the channel count (audio_stream.js:90), which is the number of output arrays handed to `Process`.
- AudioStreamTraces.PushEvents: always delivers the pieces. In the code, `push` and `resetStat` post through `workletNode?.` (audio_stream.js:99, 128), so before `init` has set `workletNode` a push or a reset is silently discarded. The model does not capture that.
- `postStatistics` and the main thread's `window.AudioStream.stat` are message transport. The model keeps only a ghost log, `posted`, of the counters each call posts.
- `resetStat` on the main thread (audio_stream.js:127-129) only posts a message. The model covers that message's effect in `OnMessage`.
- web/audio.js is not part of this model. It only sets up the AudioContext and forwards messages.
- Concurrency between the main thread and the audio thread, and `async`/`await`, are not modelled. Each handler call is one atomic step, in delivery order.
- Sample values are an opaque type, not 32-bit floats. The core does no arithmetic on them.
- `registerProcessor` and the `AudioWorkletProcessor` base class are host APIs and are not modelled. The render step's unused `inputs` and `parameters` arguments are dropped.
- AudioStream.Processor.Process: requires at least one output channel, channel arrays of equal length, and distinct channel arrays. The host always supplies such an output. With zero channels the code would throw while reading `out[0].length`.
- The spread in `buffer.push(...data)` can throw on a very large message in a real engine. That limit is why `push` chunks, but the model does not capture the failure.
- MonoWorklet.MyWorkletProcessor.OnMessage: takes the payload as a sequence. The model does not cover a message that is not array-like.
- MonoWorklet.MyWorkletProcessor.Process: receives channel 0 of output 0 directly. The code reads `outputs[0][0]` and would throw a TypeError at processor.js:19 if output 0 had no channel; the host always supplies one, and the model does not capture that failure.
