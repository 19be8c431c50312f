/** The older mono worklet of processor.js: one module-global sample buffer,
    filled by the port's message handler and drained by the render step of
    `MyWorkletProcessor`, which writes only channel 0 of output 0. */
module MonoWorklet {
  import opened Fifo

  /** Messages are admitted while the buffer holds fewer samples than this. */
  const MaxBufferSize: nat := 1024 * 16

  /** The render step copies only while more than a block plus this many
      samples are buffered. */
  const KeepBufferSize: nat := 1024 * 2

  /** The effect of one message on the buffer. */
  function Receive<T>(buffer: seq<T>, data: seq<T>): (r: seq<T>)
    // all or nothing, and only at the tail
    ensures r == buffer + data || r == buffer
    // the gate, in both directions
    ensures |buffer| < MaxBufferSize ==> r == buffer + data
    ensures |buffer| >= MaxBufferSize ==> r == buffer
  {
    if |buffer| < MaxBufferSize then buffer + data else buffer
  }

  /** Whether the render step for a block of `frames` samples copies. */
  predicate Plays<T>(buffer: seq<T>, frames: nat) {
    frames + KeepBufferSize < |buffer|
  }

  /** The buffer after one render step for a block of `frames` samples. */
  function Render<T>(buffer: seq<T>, frames: nat): (r: seq<T>)
    // FIFO: the block leaves from the head, or nothing does
    ensures Plays(buffer, frames) ==> buffer == buffer[..frames] + r
    ensures !Plays(buffer, frames) ==> r == buffer
    // the strict test never lets a copying step drain to KeepBufferSize or below
    ensures |r| == |buffer| || |r| > KeepBufferSize
  {
    if Plays(buffer, frames) then buffer[frames..] else buffer
  }

  /** The module-global `buffer`: every `MyWorkletProcessor` in the module
      shares it. */
  class GlobalBuffer<T> {
    var samples: seq<T>

    constructor ()
      ensures samples == []
    {
      samples := [];
    }
  }

  class MyWorkletProcessor<T> {
    const global: GlobalBuffer<T>

    constructor (global: GlobalBuffer<T>)
      ensures this.global == global
    {
      this.global := global;
    }

    /** The port's message handler: appends the whole message while the
        buffer is below `MaxBufferSize`, otherwise drops it unrecorded. */
    method OnMessage(data: seq<T>)
      modifies global
      ensures global.samples == Receive(old(global.samples), data)
      ensures |old(global.samples)| < MaxBufferSize ==> global.samples == old(global.samples) + data
      ensures |old(global.samples)| >= MaxBufferSize ==> global.samples == old(global.samples)
    {
      if |global.samples| < MaxBufferSize {
        global.samples := global.samples + data;
      }
    }

    /** The render step.  `out` is channel 0 of output 0, the only array
        it writes; it returns true to stay alive. */
    method Process(out: array<T>) returns (keepAlive: bool)
      modifies global, out
      ensures keepAlive
      ensures global.samples == Render(old(global.samples), out.Length)
      ensures Plays(old(global.samples), out.Length) ==>
                forall i :: 0 <= i < out.Length ==> out[i] == old(global.samples)[i]
      ensures !Plays(old(global.samples), out.Length) ==> out[..] == old(out[..])
    {
      keepAlive := true;
      if out.Length + KeepBufferSize < |global.samples| {
        var i := 0;
        while i < out.Length
          modifies out
          invariant 0 <= i <= out.Length
          invariant forall j :: 0 <= j < i ==> out[j] == global.samples[j]
        {
          out[i] := global.samples[i];
          i := i + 1;
        }
        global.samples := global.samples[out.Length..];
      }
    }
  }

  /** One handler invocation: a posted message, or a render quantum of
      `frames` samples. */
  datatype Event<T> = Post(data: seq<T>) | Quantum(frames: nat)

  function Step<T>(buffer: seq<T>, e: Event<T>): seq<T> {
    match e
    case Post(data) => Receive(buffer, data)
    case Quantum(frames) => Render(buffer, frames)
  }

  /** The buffer after a run. */
  function Run<T>(buffer: seq<T>, events: seq<Event<T>>): seq<T>
    decreases |events|
  {
    if events == [] then buffer else Run(Step(buffer, events[0]), events[1..])
  }

  /** Every posted message of the run carries at most `m` samples. */
  predicate PostsAtMost<T>(events: seq<Event<T>>, m: nat) {
    forall i :: 0 <= i < |events| && events[i].Post? ==> |events[i].data| <= m
  }

  /** With messages of at most `m` samples, the buffer stays below
      `MaxBufferSize + m`. */
  lemma {:induction false} OccupancyBound<T>(buffer: seq<T>, events: seq<Event<T>>, m: nat)
    requires |buffer| < MaxBufferSize + m
    requires PostsAtMost(events, m)
    ensures |Run(buffer, events)| < MaxBufferSize + m
    decreases |events|
  {
    if events != [] {
      assert PostsAtMost(events[1..], m) by {
        forall i | 0 <= i < |events[1..]| && events[1..][i].Post?
          ensures |events[1..][i].data| <= m
        {
          assert events[1..][i] == events[i + 1];
        }
      }
      OccupancyBound(Step(buffer, events[0]), events[1..], m);
    }
  }

  /** Once the buffer holds more than `KeepBufferSize` samples, it never
      falls back to `KeepBufferSize` or below. */
  lemma {:induction false} NeverDrainsBelowKeep<T>(buffer: seq<T>, events: seq<Event<T>>)
    requires |buffer| > KeepBufferSize
    ensures |Run(buffer, events)| > KeepBufferSize
    decreases |events|
  {
    if events != [] {
      NeverDrainsBelowKeep(Step(buffer, events[0]), events[1..]);
    }
  }

  /** The samples an invocation copies out from the head of the buffer. */
  function Taken<T>(buffer: seq<T>, e: Event<T>): seq<T> {
    if e.Quantum? && Plays(buffer, e.frames) then buffer[..e.frames] else []
  }

  /** The samples an invocation appends at the tail of the buffer. */
  function Accepted<T>(buffer: seq<T>, e: Event<T>): seq<T> {
    if e.Post? && |buffer| < MaxBufferSize then e.data else []
  }

  /** Everything the render steps of a run copied out, in order. */
  function Played<T>(buffer: seq<T>, events: seq<Event<T>>): seq<T>
    decreases |events|
  {
    if events == [] then []
    else Taken(buffer, events[0]) + Played(Step(buffer, events[0]), events[1..])
  }

  /** Everything the messages of a run added to the buffer, in order. */
  function Fed<T>(buffer: seq<T>, events: seq<Event<T>>): seq<T>
    decreases |events|
  {
    if events == [] then []
    else Accepted(buffer, events[0]) + Fed(Step(buffer, events[0]), events[1..])
  }

  /** One invocation: head removed and tail added fit together. */
  lemma StepFifo<T>(buffer: seq<T>, e: Event<T>)
    ensures buffer + Accepted(buffer, e) == Taken(buffer, e) + Step(buffer, e)
  {
  }

  /** FIFO order: the samples played, followed by those still buffered, are
      the samples that were buffered, followed by those admitted, in order. */
  lemma {:induction false} FifoOrder<T>(buffer: seq<T>, events: seq<Event<T>>)
    ensures buffer + Fed(buffer, events) == Played(buffer, events) + Run(buffer, events)
    decreases |events|
  {
    if events != [] {
      var e, next := events[0], Step(buffer, events[0]);
      FifoOrder(next, events[1..]);
      StepFifo(buffer, e);
      Splice(buffer, Accepted(buffer, e), Fed(next, events[1..]),
             Taken(buffer, e), next, Played(next, events[1..]), Run(next, events[1..]));
    }
  }
}
