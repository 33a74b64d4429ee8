/** What several modules share: the Some/None datatype used for JavaScript's null, undefined and
    failed reads, and lists without repetition. */
module Wrappers {
  datatype Option<+T> = None | Some(value: T)

  predicate Distinct<T(==)>(items: seq<T>) {
    forall i, k | 0 <= i < k < |items| :: items[i] != items[k]
  }
}
