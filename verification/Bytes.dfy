/** Bytes and the concatenation of chunks, shared by the framers, the codecs and the mixer. */
module Bytes {

  type byte = x: int | 0 <= x < 256

  /** The chunks of a stream put back together, in order. */
  function Flatten<T>(chunks: seq<seq<T>>): seq<T> {
    if |chunks| == 0 then [] else Flatten(chunks[..|chunks| - 1]) + chunks[|chunks| - 1]
  }

  lemma FlattenAppend<T>(chunks: seq<seq<T>>, chunk: seq<T>)
    ensures Flatten(chunks + [chunk]) == Flatten(chunks) + chunk
  {
    assert (chunks + [chunk])[..|chunks|] == chunks;
  }

  lemma {:induction false} FlattenConcat<T>(a: seq<seq<T>>, b: seq<seq<T>>)
    ensures Flatten(a + b) == Flatten(a) + Flatten(b)
  {
    if |b| == 0 {
      assert a + b == a;
    } else {
      var n := |b| - 1;
      FlattenConcat(a, b[..n]);
      assert a + b == (a + b[..n]) + [b[n]];
      FlattenAppend(a + b[..n], b[n]);
    }
  }
}
