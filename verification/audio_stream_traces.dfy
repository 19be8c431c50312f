/** Properties of the stream worklet over whole runs: a run is the sequence
    of handler invocations (messages delivered to the port and render
    quanta) in the order the worklet executes them. */
module AudioStreamTraces {
  import opened AudioStream
  import opened AudioStreamPush
  import opened Fifo

  /** One handler invocation. */
  datatype Event<T> = Deliver(m: Message<T>) | Tick(frames: nat, channels: nat)

  /** The state after one invocation. */
  function Step<T>(lim: Limits, s: Flow<T>, e: Event<T>): Flow<T> {
    match e
    case Deliver(m) => Receive(lim, s, m)
    case Tick(frames, channels) => Render(lim, s, frames, channels).next
  }

  /** The samples an invocation takes from the head of the buffer. */
  function Taken<T>(lim: Limits, s: Flow<T>, e: Event<T>): seq<T> {
    match e
    case Deliver(_) => []
    case Tick(frames, channels) => s.buffer[..Render(lim, s, frames, channels).copyLength]
  }

  /** The samples an invocation appends at the tail of the buffer. */
  function Accepted<T>(lim: Limits, s: Flow<T>, e: Event<T>): seq<T> {
    if e.Deliver? && e.m.Data? && Admits(lim, s) then e.m.data else []
  }

  /** The state after a run. */
  function Run<T>(lim: Limits, s: Flow<T>, events: seq<Event<T>>): Flow<T>
    decreases |events|
  {
    if events == [] then s else Run(lim, Step(lim, s, events[0]), events[1..])
  }

  /** Everything the render steps of a run copied out, in order. */
  function Played<T>(lim: Limits, s: Flow<T>, events: seq<Event<T>>): seq<T>
    decreases |events|
  {
    if events == [] then []
    else Taken(lim, s, events[0]) + Played(lim, Step(lim, s, events[0]), events[1..])
  }

  /** Everything the messages of a run added to the buffer, in order. */
  function Fed<T>(lim: Limits, s: Flow<T>, events: seq<Event<T>>): seq<T>
    decreases |events|
  {
    if events == [] then []
    else Accepted(lim, s, events[0]) + Fed(lim, Step(lim, s, events[0]), events[1..])
  }

  /** FIFO order: the samples played, followed by those still buffered, are
      the samples that were buffered, followed by those admitted, in order. */
  lemma {:induction false} FifoOrder<T>(lim: Limits, s: Flow<T>, events: seq<Event<T>>)
    ensures s.buffer + Fed(lim, s, events) == Played(lim, s, events) + Run(lim, s, events).buffer
    decreases |events|
  {
    if events != [] {
      var e, s' := events[0], Step(lim, s, events[0]);
      FifoOrder(lim, s', events[1..]);
      StepFifo(lim, s, e);
      var a, t := Accepted(lim, s, e), Taken(lim, s, e);
      var f, p := Fed(lim, s', events[1..]), Played(lim, s', events[1..]);
      assert Fed(lim, s, events) == a + f;
      assert Played(lim, s, events) == t + p;
      assert Run(lim, s, events) == Run(lim, s', events[1..]);
      Splice(s.buffer, a, f, t, s'.buffer, p, Run(lim, s', events[1..]).buffer);
    }
  }

  /** One invocation: head removed and tail added fit together. */
  lemma StepFifo<T>(lim: Limits, s: Flow<T>, e: Event<T>)
    ensures s.buffer + Accepted(lim, s, e) == Taken(lim, s, e) + Step(lim, s, e).buffer
  {
    if e.Tick? {
      var k := Render(lim, s, e.frames, e.channels).copyLength;
      assert s.buffer == s.buffer[..k] + s.buffer[k..];
    }
  }

  /** From a fresh worklet, what is played is always a prefix of what was
      admitted: samples are never reordered, repeated or invented. */
  lemma PlayedIsPrefixOfFed<T>(lim: Limits, events: seq<Event<T>>)
    ensures Played(lim, Initial(), events) <= Fed(lim, Initial(), events)
  {
    FifoOrder(lim, Initial(), events);
    var p, f := Played(lim, Initial<T>(), events), Fed(lim, Initial<T>(), events);
    assert f == p + Run(lim, Initial(), events).buffer;
  }

  predicate NoReset<T>(events: seq<Event<T>>) {
    forall i :: 0 <= i < |events| ==> !(events[i].Deliver? && events[i].m.ResetStat?)
  }

  /** Without a "resetStat" message, neither counter ever decreases. */
  lemma {:induction false} CountersNeverDecrease<T>(lim: Limits, s: Flow<T>, events: seq<Event<T>>)
    requires NoReset(events)
    ensures Run(lim, s, events).exhaustCount >= s.exhaustCount
    ensures Run(lim, s, events).fullCount >= s.fullCount
    decreases |events|
  {
    if events != [] {
      assert !(events[0].Deliver? && events[0].m.ResetStat?);
      assert NoReset(events[1..]) by {
        forall i | 0 <= i < |events[1..]|
          ensures !(events[1..][i].Deliver? && events[1..][i].m.ResetStat?)
        {
          assert events[1..][i] == events[i + 1];
        }
      }
      CountersNeverDecrease(lim, Step(lim, s, events[0]), events[1..]);
    }
  }

  /** Hysteresis: once latched, the worklet plays nothing while the buffer,
      together with everything admitted meanwhile, stays below
      `keepBufferSize`; the latch stays set and every admitted sample stays
      buffered. */
  lemma {:induction false} LatchedPlaysNothing<T>(lim: Limits, s: Flow<T>, events: seq<Event<T>>)
    requires s.isExhaust
    requires |s.buffer| + |Fed(lim, s, events)| < lim.keepBufferSize
    ensures Played(lim, s, events) == []
    ensures Run(lim, s, events).isExhaust
    ensures Run(lim, s, events).buffer == s.buffer + Fed(lim, s, events)
    decreases |events|
  {
    if events != [] {
      var e, s', rest := events[0], Step(lim, s, events[0]), events[1..];
      Unfold(lim, s, events);
      LatchedStep(lim, s, e);
      LatchedPlaysNothing(lim, s', rest);
    }
    FifoOrder(lim, s, events);
  }

  /** The first invocation of a non-empty run. */
  lemma Unfold<T>(lim: Limits, s: Flow<T>, events: seq<Event<T>>)
    requires events != []
    ensures Run(lim, s, events) == Run(lim, Step(lim, s, events[0]), events[1..])
    ensures Played(lim, s, events) == Taken(lim, s, events[0]) + Played(lim, Step(lim, s, events[0]), events[1..])
    ensures Fed(lim, s, events) == Accepted(lim, s, events[0]) + Fed(lim, Step(lim, s, events[0]), events[1..])
  {
  }

  /** One invocation on a latched worklet below the mark plays nothing,
      keeps the latch and keeps what it admits. */
  lemma LatchedStep<T>(lim: Limits, s: Flow<T>, e: Event<T>)
    requires s.isExhaust && |s.buffer| < lim.keepBufferSize
    ensures Taken(lim, s, e) == []
    ensures Step(lim, s, e).isExhaust
    ensures Step(lim, s, e).buffer == s.buffer + Accepted(lim, s, e)
  {
  }

  /** Every "data" message of the run carries at most `StackSize` samples,
      as those posted by `push` do. */
  predicate Chunked<T>(events: seq<Event<T>>) {
    forall i :: 0 <= i < |events| && events[i].Deliver? && events[i].m.Data? ==>
      |events[i].m.data| <= StackSize
  }

  /** With chunked messages the buffer stays below
      `maxBufferSize + StackSize` samples: the gate is checked before the
      append, so the buffer can overshoot `maxBufferSize` by less than one
      message. */
  lemma {:induction false} OccupancyBound<T>(lim: Limits, s: Flow<T>, events: seq<Event<T>>)
    requires |s.buffer| < lim.maxBufferSize + StackSize
    requires Chunked(events)
    ensures |Run(lim, s, events).buffer| < lim.maxBufferSize + StackSize
    decreases |events|
  {
    if events != [] {
      assert Chunked(events[1..]) by {
        forall i | 0 <= i < |events[1..]| && events[1..][i].Deliver? && events[1..][i].m.Data?
          ensures |events[1..][i].m.data| <= StackSize
        {
          assert events[1..][i] == events[i + 1];
        }
      }
      OccupancyBound(lim, Step(lim, s, events[0]), events[1..]);
    }
  }

  /** The messages `push` posts for a payload. */
  function PushEvents<T>(data: seq<T>): (events: seq<Event<T>>)
    ensures |events| == |Chunks(data)|
  {
    seq(|Chunks(data)|, i requires 0 <= i < |Chunks(data)| => Deliver(Data(Chunks(data)[i])))
  }

  /** The messages of a push are chunked. */
  lemma PushIsChunked<T>(data: seq<T>)
    ensures Chunked(PushEvents(data))
  {
    ChunksSizes(data);
  }

  /** A push split in more than one message starts with a full piece. */
  lemma PushEventsUnfold<T>(data: seq<T>)
    requires |data| > StackSize
    ensures PushEvents(data) == [Deliver(Data(data[..StackSize]))] + PushEvents(data[StackSize..])
  {
    var events, rest := PushEvents(data), PushEvents(data[StackSize..]);
    assert |events| == 1 + |rest|;
    forall i | 1 <= i < |events|
      ensures events[i] == rest[i - 1]
    {
      assert Chunks(data)[i] == Chunks(data[StackSize..])[i - 1];
    }
  }

  /** Once the gate is shut, a run of "data" messages changes nothing but
      `fullCount`, which rises by one per message. */
  lemma {:induction false} ShutGateRejectsAll<T>(lim: Limits, s: Flow<T>, events: seq<Event<T>>)
    requires !Admits(lim, s)
    requires forall i :: 0 <= i < |events| ==> events[i].Deliver? && events[i].m.Data?
    ensures Fed(lim, s, events) == []
    ensures Run(lim, s, events) == s.(fullCount := s.fullCount + |events|)
    decreases |events|
  {
    if events != [] {
      assert forall i :: 0 <= i < |events[1..]| ==> events[1..][i] == events[i + 1];
      ShutGateRejectsAll(lim, Step(lim, s, events[0]), events[1..]);
    }
  }

  /** The gate applies to each posted piece, not to the whole push: a push
      is admitted as its first `k` pieces, and each remaining piece counts
      one rejection.  A push that fits below `maxBufferSize` is admitted
      whole. */
  lemma {:induction false} PushAdmitsLeadingPieces<T>(lim: Limits, s: Flow<T>, data: seq<T>) returns (k: nat)
    ensures k <= |Chunks(data)|
    ensures Run(lim, s, PushEvents(data)) ==
              s.(buffer := s.buffer + Flatten(Chunks(data)[..k]), fullCount := s.fullCount + |Chunks(data)| - k)
    ensures Fed(lim, s, PushEvents(data)) == Flatten(Chunks(data)[..k])
    ensures |s.buffer| + |data| < lim.maxBufferSize ==> k == |Chunks(data)|
    decreases |data|
  {
    if !Admits(lim, s) {
      ShutGateRejectsAll(lim, s, PushEvents(data));
      assert Chunks(data)[..0] == [];
      k := 0;
    } else if |data| <= StackSize {
      PushOnePiece(lim, s, data);
      k := 1;
    } else {
      var piece, rest := data[..StackSize], data[StackSize..];
      var s' := s.(buffer := s.buffer + piece);
      PushFirstPiece(lim, s, data);
      var k' := PushAdmitsLeadingPieces(lim, s', rest);
      k := k' + 1;
      assert Chunks(data) == [piece] + Chunks(rest);
      assert |s'.buffer| + |rest| == |s.buffer| + |data|;
      FlattenAfterFirst(Chunks(data), k, piece, Chunks(rest));
      var f' := Flatten(Chunks(rest)[..k']);
      assert s'.buffer + f' == s.buffer + (piece + f');
      assert s'.fullCount + |Chunks(rest)| - k' == s.fullCount + |Chunks(data)| - k;
    }
  }

  /** An admitted push that fits in one piece is appended whole. */
  lemma PushOnePiece<T>(lim: Limits, s: Flow<T>, data: seq<T>)
    requires Admits(lim, s) && |data| <= StackSize
    ensures Chunks(data)[..1] == [data]
    ensures Run(lim, s, PushEvents(data)) == s.(buffer := s.buffer + data)
    ensures Fed(lim, s, PushEvents(data)) == data
  {
    var events := PushEvents(data);
    assert events == [Deliver(Data(data))];
    Unfold(lim, s, events);
  }

  /** An admitted push of more than one piece: the first piece is appended
      and the rest of the push runs from there. */
  lemma PushFirstPiece<T>(lim: Limits, s: Flow<T>, data: seq<T>)
    requires Admits(lim, s) && |data| > StackSize
    ensures var s', rest := s.(buffer := s.buffer + data[..StackSize]), PushEvents(data[StackSize..]);
            Run(lim, s, PushEvents(data)) == Run(lim, s', rest) &&
            Fed(lim, s, PushEvents(data)) == data[..StackSize] + Fed(lim, s', rest)
  {
    var events := PushEvents(data);
    PushEventsUnfold(data);
    assert events[1..] == PushEvents(data[StackSize..]);
    Unfold(lim, s, events);
  }

  /** Dropping the first piece of a list of pieces. */
  lemma FlattenAfterFirst<T>(pieces: seq<seq<T>>, k: nat, first: seq<T>, rest: seq<seq<T>>)
    requires pieces == [first] + rest && 1 <= k <= |pieces|
    ensures Flatten(pieces[..k]) == first + Flatten(rest[..k - 1])
  {
    assert pieces[..k][0] == first && pieces[..k][1..] == rest[..k - 1];
  }

  /** What a push admits is a prefix of its payload. */
  lemma PushAdmitsPrefix<T>(lim: Limits, s: Flow<T>, data: seq<T>)
    ensures Fed(lim, s, PushEvents(data)) <= data
  {
    var k := PushAdmitsLeadingPieces(lim, s, data);
    ChunksFlatten(data);
    FlattenSplit(Chunks(data), k);
  }

  /** A worked run with `maxBufferSize` 4 and `keepBufferSize` 2 on one
      channel: three samples are admitted, a two-frame quantum plays two of
      them, the next plays the last one and latches, and the one after that
      holds, counting a second exhaustion. */
  lemma WorkedRun<T>(a: T, b: T, c: T)
    ensures var lim, events := Limits(4, 2), [Deliver(Data([a, b, c])), Tick(2, 1), Tick(2, 1), Tick(2, 1)];
            Played(lim, Initial(), events) == [a, b, c] &&
            Run(lim, Initial(), events) == Flow([], 2, 0, true)
  {
    var lim, s0 := Limits(4, 2), Initial<T>();
    var s1 := Step(lim, s0, Deliver(Data([a, b, c])));
    assert s1 == Flow([a, b, c], 0, 0, false);
    var s2 := Step(lim, s1, Tick(2, 1));
    assert Taken(lim, s1, Tick(2, 1)) == [a, b] && s2 == Flow([c], 0, 0, false);
    var s3 := Step(lim, s2, Tick(2, 1));
    assert Taken(lim, s2, Tick(2, 1)) == [c] && s3 == Flow([], 1, 0, true);
    assert Taken(lim, s3, Tick(2, 1)) == [] && Step(lim, s3, Tick(2, 1)) == Flow([], 2, 0, true);
    var t: Event<T> := Tick(2, 1);
    var events := [Deliver(Data([a, b, c])), t, t, t];
    assert events[1..] == [t, t, t] && events[1..][1..] == [t, t] && events[1..][1..][1..] == [t] && [t][1..] == [];
    var s4 := Step(lim, s3, t);
    assert Run(lim, s4, []) == s4 == Flow([], 2, 0, true);
    assert [t][0] == t && [t] != [];
    assert Run(lim, s3, [t]) == Run(lim, s4, [t][1..]);
    assert Played(lim, s3, [t]) == [] && Run(lim, s3, [t]) == s4;
    assert Played(lim, s2, [t, t]) == [c] && Run(lim, s2, [t, t]) == Flow([], 2, 0, true);
    assert Played(lim, s1, [t, t, t]) == [a, b, c] && Run(lim, s1, [t, t, t]) == Flow([], 2, 0, true);
  }

  /** The gate looks only at what is already buffered: a message larger
      than `maxBufferSize` is admitted whole into an empty worklet. */
  lemma OversizedMessageAdmitted<T>(a: T, b: T, c: T, d: T, e: T)
    ensures Receive(Limits(4, 2), Initial(), Data([a, b, c, d, e])) == Flow([a, b, c, d, e], 0, 0, false)
  {
  }
}
