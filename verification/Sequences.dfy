/** Sequences of indices and offsets. */
module Sequences {
  /** No element occurs twice. */
  ghost predicate NoRepeats(s: seq<nat>) {
    forall i, j :: 0 <= i < j < |s| ==> s[i] != s[j]
  }
}
