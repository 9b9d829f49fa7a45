/** Facts about sequences that the loops of the bridge use. */
module Seqs {

  /** Concatenation is associative; the loops that append to an outbox regroup with it. */
  lemma ConcatAssoc<T>(a: seq<T>, b: seq<T>, c: seq<T>)
    ensures a + (b + c) == (a + b) + c
  {
  }
}
