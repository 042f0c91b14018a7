/** Facts about sequences shared by the other modules. */
module Seqs {

  /** Concatenation is associative: a sum of pieces may be regrouped. */
  lemma Assoc<T>(a: seq<T>, b: seq<T>, c: seq<T>)
    ensures a + (b + c) == a + b + c
  {
  }
}
