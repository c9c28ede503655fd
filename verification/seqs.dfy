/** Small sequence vocabulary shared by the batching and preview models. */
module Seqs {

  function Min(a: int, b: int): int
  {
    if a <= b then a else b
  }

  /** Concatenation of a sequence of sequences, in order. */
  function Flatten<T>(parts: seq<seq<T>>): seq<T>
  {
    if |parts| == 0 then [] else parts[0] + Flatten(parts[1..])
  }

  /** Total length of a sequence of sequences. */
  function TotalLength<T>(parts: seq<seq<T>>): nat
  {
    if |parts| == 0 then 0 else |parts[0]| + TotalLength(parts[1..])
  }

  /** Flattening keeps every element, so its length is the total length of the parts. */
  lemma {:induction false} FlattenLength<T>(parts: seq<seq<T>>)
    ensures |Flatten(parts)| == TotalLength(parts)
    decreases |parts|
  {
    if |parts| > 0 {
      FlattenLength(parts[1..]);
    }
  }
}
