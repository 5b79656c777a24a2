/** Facts about finite sets and sequences that several components need. */
module SetFacts {
  function Members<T(==)>(s: seq<T>): set<T> { set x | x in s }

  lemma {:induction false} SubsetSize<T>(a: set<T>, b: set<T>)
    requires a <= b
    ensures |a| <= |b|
    decreases |a|
  {
    if x :| x in a {
      SubsetSize(a - {x}, b - {x});
    }
  }
}
