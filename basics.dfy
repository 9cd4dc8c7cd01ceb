/** Small shared vocabulary: an optional value and duplicate-free sequences. */
module Basics {

  /** A value that may be absent; stands for a nullable pointer of the C++ code. */
  datatype Option<+T> = None | Some(value: T)

  /** No element occurs twice in `s`. */
  ghost predicate NoDup<T>(s: seq<T>)
  {
    forall i, j :: 0 <= i < j < |s| ==> s[i] != s[j]
  }
}
