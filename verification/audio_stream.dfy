/** The bounded sample queue of the stream worklet (`Processor` in
    assets/packages/mp_audio_stream/js/audio_stream.js).

    The main thread posts messages to the worklet; the audio host calls the
    render step once per render quantum.  Both are modelled as atomic,
    sequential calls on one `Processor` object.  The pure functions `Receive`
    and `Render` state what one call does to the queue's abstract state
    (`Flow`); the class methods run the handlers' statements and are proved
    against them. */
module AudioStream {

  /** A message posted to the worklet's port.  `Other` stands for a message
      whose `type` is neither "data" nor "resetStat". */
  datatype Message<T> = Data(data: seq<T>) | ResetStat | Other

  /** The counters posted back to the main thread by `postStatistics`. */
  datatype Stats = Stats(exhaustCount: nat, fullCount: nat)

  /** The two limits written into the worklet's code text at start-up,
      both counted in raw (interleaved) samples. */
  datatype Limits = Limits(maxBufferSize: nat, keepBufferSize: nat)

  /** The mutable state of the worklet, as a value. */
  datatype Flow<T> = Flow(buffer: seq<T>, exhaustCount: nat, fullCount: nat, isExhaust: bool)

  /** The state right after construction. */
  function Initial<T>(): Flow<T> {
    Flow([], 0, 0, false)
  }

  /** The admission gate: a "data" message is taken whole while the buffer
      holds fewer than `maxBufferSize` samples, whatever its own size. */
  predicate Admits<T>(lim: Limits, s: Flow<T>) {
    |s.buffer| < lim.maxBufferSize
  }

  /** The effect of one message on the state. */
  function Receive<T>(lim: Limits, s: Flow<T>, m: Message<T>): (r: Flow<T>)
    // only the render step touches the underflow latch
    ensures r.isExhaust == s.isExhaust
    // a message never removes samples and never adds part of a payload
    ensures r.buffer == s.buffer || (m.Data? && r.buffer == s.buffer + m.data)
    // a "data" message is either taken whole or counted as rejected, never both
    ensures m.Data? ==>
              (r.buffer == s.buffer + m.data && r.fullCount == s.fullCount) ||
              (r.buffer == s.buffer && r.fullCount == s.fullCount + 1)
    ensures !m.ResetStat? ==> r.exhaustCount == s.exhaustCount && r.fullCount >= s.fullCount
    // the gate: a "data" message is rejected exactly when the buffer is full
    ensures m.Data? ==> (r.fullCount == s.fullCount + 1 <==> !Admits(lim, s))
  {
    match m
    case Data(data) =>
      if Admits(lim, s) then s.(buffer := s.buffer + data)
      else s.(fullCount := s.fullCount + 1)
    case ResetStat => s.(exhaustCount := 0, fullCount := 0)
    case Other => s
  }

  /** The hysteresis hold: after an underflow, the render step stays silent
      while the buffer holds fewer than `keepBufferSize` samples. */
  predicate Holds<T>(lim: Limits, s: Flow<T>) {
    s.isExhaust && |s.buffer| < lim.keepBufferSize
  }

  /** The outcome of one render step: the new state and how many samples
      were taken from the head of the buffer. */
  datatype Rendered<T> = Rendered(next: Flow<T>, copyLength: nat)

  /** The effect of one render step for an output of `channels` channels of
      `frames` frames each. */
  function Render<T>(lim: Limits, s: Flow<T>, frames: nat, channels: nat): (r: Rendered<T>)
    // FIFO: exactly the first copyLength samples leave the buffer, no more
    // than are buffered and no more than the output holds
    ensures r.copyLength <= |s.buffer| && r.copyLength <= frames * channels
    ensures r.next.buffer == s.buffer[r.copyLength..]
    ensures r.next.fullCount == s.fullCount
    // every call that ends latched counts one exhaustion, and no other does
    ensures r.next.exhaustCount == s.exhaustCount + (if r.next.isExhaust then 1 else 0)
    // in the hold nothing is consumed and the latch stays set
    ensures Holds(lim, s) ==> r.copyLength == 0 && r.next.isExhaust && r.next.buffer == s.buffer
    // out of the hold: a full block is taken, or the buffer is drained and
    // the latch is set, exactly when the block could not be filled
    ensures !Holds(lim, s) ==> (r.copyLength == frames * channels || r.next.buffer == [])
    ensures !Holds(lim, s) ==> (r.next.isExhaust <==> |s.buffer| < frames * channels)
    // a zero-sized block on an unlatched stream changes nothing
    ensures frames == 0 && !s.isExhaust ==> r.next == s && r.copyLength == 0
  {
    if Holds(lim, s) then
      Rendered(s.(exhaustCount := s.exhaustCount + 1), 0)
    else
      var needed := frames * channels;
      var short := |s.buffer| < needed;
      var copyLength := if short then |s.buffer| else needed;
      Rendered(Flow(s.buffer[copyLength..],
                    if short then s.exhaustCount + 1 else s.exhaustCount,
                    s.fullCount,
                    short),
               copyLength)
  }

  /** The output block handed to the render step: `|out|` channels of equal
      length, each its own array (the host allocates them). */
  ghost predicate OutputBlock<T>(out: seq<array<T>>) {
    |out| >= 1 &&
    (forall c :: 0 <= c < |out| ==> out[c].Length == out[0].Length) &&
    (forall c, c' :: 0 <= c < c' < |out| ==> out[c] != out[c'])
  }

  lemma MulMonotone(a: nat, b: nat, k: nat)
    requires a <= b
    ensures a * k <= b * k
  {
  }

  /** An interleaved index below `frames * channels` lies in a frame below
      `frames`. */
  lemma FrameInBlock(d: nat, c: nat, channels: nat, frames: nat)
    requires d * channels + c < frames * channels
    ensures d < frames
  {
  }

  /** The inner loop of the render step: copies every `channels`-th
      sample from `channel` on, below `copyLength`, into consecutive
      positions of `dst`, leaving the rest of `dst` as it was. */
  method CopyChannel<T>(src: seq<T>, copyLength: nat, channels: nat, channel: nat, dst: array<T>)
    requires copyLength <= |src| && channel < channels && copyLength <= dst.Length * channels
    modifies dst
    ensures forall d :: 0 <= d < dst.Length ==>
              dst[d] == (if d * channels + channel < copyLength then src[d * channels + channel] else old(dst[d]))
  {
    var dest := 0;
    var source := channel;
    while source < copyLength
      invariant source == dest * channels + channel
      invariant 0 <= dest <= dst.Length
      invariant forall d :: 0 <= d < dest ==> d * channels + channel < copyLength
      invariant forall d :: 0 <= d < dest ==> dst[d] == src[d * channels + channel]
      invariant forall d :: dest <= d < dst.Length ==> dst[d] == old(dst[d])
    {
      FrameInBlock(dest, channel, channels, dst.Length);
      dst[dest] := src[source];
      dest := dest + 1;
      source := source + channels;
    }
    forall d | dest <= d < dst.Length
      ensures copyLength <= d * channels + channel
    {
      MulMonotone(dest, d, channels);
    }
  }

  class Processor<T> {
    const maxBufferSize: nat
    const keepBufferSize: nat

    var buffer: seq<T>
    var exhaustCount: nat
    var fullCount: nat
    var isExhaust: bool

    /** Every statistics message posted to the main thread, oldest first. */
    ghost var posted: seq<Stats>

    function Lim(): Limits {
      Limits(maxBufferSize, keepBufferSize)
    }

    function State(): Flow<T>
      reads this
    {
      Flow(buffer, exhaustCount, fullCount, isExhaust)
    }

    function Counters(): Stats
      reads this
    {
      Stats(exhaustCount, fullCount)
    }

    constructor (maxBufferSize: nat, keepBufferSize: nat)
      ensures Lim() == Limits(maxBufferSize, keepBufferSize)
      ensures State() == Initial()
      ensures posted == []
    {
      this.maxBufferSize := maxBufferSize;
      this.keepBufferSize := keepBufferSize;
      buffer := [];
      exhaustCount := 0;
      fullCount := 0;
      isExhaust := false;
      posted := [];
    }

    /** The port's message handler. */
    method OnMessage(m: Message<T>)
      modifies this
      ensures State() == Receive(Lim(), old(State()), m)
      ensures m.Data? && |old(buffer)| < maxBufferSize ==>
                buffer == old(buffer) + m.data && fullCount == old(fullCount)
      ensures m.Data? && |old(buffer)| >= maxBufferSize ==>
                buffer == old(buffer) && fullCount == old(fullCount) + 1
      ensures m.ResetStat? ==> exhaustCount == 0 && fullCount == 0 && buffer == old(buffer)
      ensures m.Other? ==> State() == old(State())
      ensures isExhaust == old(isExhaust)
      // every message, accepted, rejected or unknown, posts the counters
      ensures posted == old(posted) + [Counters()]
    {
      match m {
        case Data(data) =>
          if |buffer| < maxBufferSize {
            buffer := buffer + data;
          } else {
            fullCount := fullCount + 1;
          }
        case ResetStat =>
          exhaustCount := 0;
          fullCount := 0;
        case Other =>
      }
      posted := posted + [Counters()];
    }

    /** The render step: fills `out[c][d]` with buffered sample
        `d * |out| + c` for the samples it takes, leaves every other output
        position as the host supplied it, and drops the taken samples from
        the head of the buffer.  It always asks the host to keep it alive. */
    method Process(out: seq<array<T>>) returns (keepAlive: bool)
      requires OutputBlock(out)
      modifies this, out
      ensures keepAlive
      ensures State() == Render(Lim(), old(State()), out[0].Length, |out|).next
      ensures forall c, d :: 0 <= c < |out| && 0 <= d < out[c].Length ==>
                out[c][d] == (if d * |out| + c < Render(Lim(), old(State()), out[0].Length, |out|).copyLength
                              then old(buffer)[d * |out| + c]
                              else old(out[c][d]))
      // the hold branch returns before posting the counters
      ensures posted == if Holds(Lim(), old(State())) then old(posted) else old(posted) + [Counters()]
    {
      keepAlive := true;
      var frames := out[0].Length;
      var channels := |out|;
      var playableSize := |buffer|;

      if isExhaust && keepBufferSize > playableSize {
        exhaustCount := exhaustCount + 1;
        return;
      }

      isExhaust := false;
      var copyLength := 0;
      if |buffer| < frames * channels {
        copyLength := |buffer|;
        exhaustCount := exhaustCount + 1;
        isExhaust := true;
      } else {
        copyLength := frames * channels;
      }

      var channel := 0;
      while channel < channels
        modifies out
        invariant 0 <= channel <= channels
        invariant forall c, d :: 0 <= c < channel && 0 <= d < frames ==>
                    out[c][d] == (if d * channels + c < copyLength then buffer[d * channels + c] else old(out[c][d]))
        invariant forall c, d :: channel <= c < channels && 0 <= d < frames ==>
                    out[c][d] == old(out[c][d])
      {
        CopyChannel(buffer, copyLength, channels, channel, out[channel]);
        channel := channel + 1;
      }

      buffer := buffer[copyLength..];
      posted := posted + [Counters()];
    }
  }
}
