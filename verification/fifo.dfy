/** Sequence facts shared by the FIFO proofs of both worklets. */
module Fifo {

  /** Joining two FIFO steps: if `x + a == t + y` and `y + f == p + z`
      then `x + (a + f) == (t + p) + z`. */
  lemma Splice<T>(x: seq<T>, a: seq<T>, f: seq<T>, t: seq<T>, y: seq<T>, p: seq<T>, z: seq<T>)
    requires x + a == t + y
    requires y + f == p + z
    ensures x + (a + f) == (t + p) + z
  {
    calc {
      x + (a + f);
      (x + a) + f;
      (t + y) + f;
      t + (y + f);
      t + (p + z);
      (t + p) + z;
    }
  }
}
