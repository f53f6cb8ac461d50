/** What several modules say about sequences. */
module Sequences {
  /** Nothing occurs twice. */
  predicate Distinct<T(==)>(xs: seq<T>) {
    forall i, j | 0 <= i < j < |xs| :: xs[i] != xs[j]
  }
}
