/** Facts about finite sets and sequences used in several places. */
module Collections {

  lemma {:induction false} SubsetIsNoLarger<T>(a: set<T>, b: set<T>)
    requires a <= b
    ensures |a| <= |b|
  {
    assert b == a + (b - a);
  }

  /** The last element of a concatenation. */
  lemma {:induction false} LastOfConcat<T>(first: seq<T>, second: seq<T>, init: seq<T>, last: T)
    requires |second| > 0 && init == second[..|second| - 1] && last == second[|second| - 1]
    ensures second == init + [last] && first + second == first + init + [last]
  {
  }
}
