/** Facts about sequences shared by the modules that filter lists. */
module Sequences {
  /** `a` is `b` with some elements removed: every element of `a` occurs in `b`, in the
      same relative order. */
  predicate Subsequence<T(==)>(a: seq<T>, b: seq<T>)
    decreases |b|
  {
    if |a| == 0 then true
    else if |b| == 0 then false
    else (a[0] == b[0] && Subsequence(a[1..], b[1..])) || Subsequence(a, b[1..])
  }
}
