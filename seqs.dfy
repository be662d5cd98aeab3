/** Facts about sequences that the effect logs of both firmwares are built on. */
module Seqs {
  /**
   * Appending in two steps is appending once.  Called explicitly where a log
   * grows step by step, so that the solver does not search for it.
   */
  lemma AppendAssoc<T>(log: seq<T>, a: seq<T>, b: seq<T>)
    ensures (log + a) + b == log + (a + b)
  {
  }
}
