/** Order-preserving selection from a sequence, and splitting one at its head. */
module Sequences {

  /** `a` can be obtained from `b` by deleting elements, so `a` lists its elements in `b`'s order. */
  predicate Subsequence<T(==)>(a: seq<T>, b: seq<T>)
    decreases |b|
  {
    || |a| == 0
    || (&& |b| > 0
        && ((a[0] == b[0] && Subsequence(a[1..], b[1..])) || Subsequence(a, b[1..])))
  }

  /** The head and the tail of a non-empty sequence hold its elements between them. */
  lemma SplitHead<T>(s: seq<T>)
    requires |s| > 0
    ensures multiset(s) == multiset{s[0]} + multiset(s[1..])
  {
    assert s == [s[0]] + s[1..];
  }
}
