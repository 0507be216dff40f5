/** Facts about sequences that the proofs of the stateful parts use. */
module Sequences {
  /** Appending is associative; stated once so that proofs about logs and queues need not rediscover it. */
  lemma AppendAssociative<T>(a: seq<T>, b: seq<T>, c: seq<T>)
    ensures a + b + c == a + (b + c)
  {
  }
}
