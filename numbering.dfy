/** The stream 0, 1, 2, ... emitted by the two counting sources. */
module Numbering {

  /** The first `n` natural numbers in increasing order. */
  function Naturals(n: nat): (r: seq<nat>)
    ensures |r| == n
    ensures forall i :: 0 <= i < n ==> r[i] == i
  {
    if n == 0 then [] else Naturals(n - 1) + [n - 1]
  }

  /** Every prefix of the stream is itself a stream of naturals. */
  lemma NaturalsPrefix(n: nat, m: nat)
    requires m <= n
    ensures Naturals(n)[..m] == Naturals(m)
  {
  }
}
