/** The main-thread `push` of assets/packages/mp_audio_stream/js/audio_stream.js:
    a payload longer than `StackSize` samples is posted as consecutive
    pieces of `StackSize` samples followed by the remainder, each piece as
    its own "data" message.  Posting is modelled by the list of pieces in
    the order they are posted. */
module AudioStreamPush {

  /** The largest piece posted in one message. */
  const StackSize: nat := 48000

  /** The pieces posted for `data`, in posting order. */
  function Chunks<T>(data: seq<T>): (pieces: seq<seq<T>>)
    ensures |pieces| >= 1
    // a payload that fits is posted as it is, even when empty
    ensures |data| <= StackSize ==> pieces == [data]
    decreases |data|
  {
    if |data| > StackSize then [data[..StackSize]] + Chunks(data[StackSize..])
    else [data]
  }

  /** The concatenation of a list of pieces. */
  function Flatten<T>(pieces: seq<seq<T>>): seq<T> {
    if pieces == [] then [] else pieces[0] + Flatten(pieces[1..])
  }

  /** The pieces, concatenated in posting order, give back the payload. */
  lemma {:induction false} ChunksFlatten<T>(data: seq<T>)
    ensures Flatten(Chunks(data)) == data
    decreases |data|
  {
    if |data| > StackSize {
      var rest := data[StackSize..];
      ChunksFlatten(rest);
      assert Chunks(data)[1..] == Chunks(rest);
      assert data == data[..StackSize] + rest;
    }
  }

  /** Every piece is at most `StackSize` long, every piece but the last is
      exactly `StackSize` long, and the last is empty only for an empty
      payload. */
  lemma {:induction false} ChunksSizes<T>(data: seq<T>)
    ensures forall i :: 0 <= i < |Chunks(data)| ==> |Chunks(data)[i]| <= StackSize
    ensures forall i :: 0 <= i < |Chunks(data)| - 1 ==> |Chunks(data)[i]| == StackSize
    ensures (Chunks(data)[|Chunks(data)| - 1] == []) <==> data == []
    decreases |data|
  {
    if |data| > StackSize {
      var rest := data[StackSize..];
      ChunksSizes(rest);
      var pieces := Chunks(data);
      assert pieces == [data[..StackSize]] + Chunks(rest);
      forall i | 1 <= i < |pieces|
        ensures pieces[i] == Chunks(rest)[i - 1]
      {
      }
    }
  }

  /** The number of messages posted: one for an empty payload, otherwise
      the payload length divided by `StackSize`, rounded up. */
  lemma {:induction false} ChunksCount<T>(data: seq<T>)
    ensures |Chunks(data)| == if data == [] then 1 else (|data| + StackSize - 1) / StackSize
    decreases |data|
  {
    if |data| > StackSize {
      ChunksCount(data[StackSize..]);
    }
  }

  /** Concatenation distributes over splitting the list of pieces. */
  lemma {:induction false} FlattenSplit<T>(pieces: seq<seq<T>>, k: nat)
    requires k <= |pieces|
    ensures Flatten(pieces) == Flatten(pieces[..k]) + Flatten(pieces[k..])
    decreases k
  {
    if k > 0 {
      FlattenSplit(pieces[1..], k - 1);
      assert pieces[..k][1..] == pieces[1..][..k - 1];
      assert pieces[1..][k - 1..] == pieces[k..];
    }
  }
}
