/** A step used by the order-preservation proofs of the list filters. */
module Seqs {

  /** Splitting off the last element of the right operand of a concatenation. */
  lemma SplitLast<T>(a: seq<T>, b: seq<T>)
    requires b != []
    ensures a + b == (a + b[..|b| - 1]) + [b[|b| - 1]]
  {
  }

  /** Appending the same tail after a split prefix regroups. */
  lemma RegroupTail<T>(whole: seq<T>, init: seq<T>, left: seq<T>, mid: seq<T>, right: seq<T>, tail: seq<T>)
    requires whole == init + tail
    requires init == left + mid
    requires right == mid + tail
    ensures whole == left + right
  {
  }
}
