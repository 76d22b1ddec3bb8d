/**
 * Iteration over Kotlin collections. A `HashMap` or `HashSet` is walked in
 * an order the program does not choose; `Enumerate` models such a walk as
 * some listing of the set's elements, each exactly once.
 */
module Collections {

  /** No element occurs twice in `xs`. */
  predicate Distinct<T(==)>(xs: seq<T>)
  {
    forall i, j :: 0 <= i < j < |xs| ==> xs[i] != xs[j]
  }

  /** Lists the elements of `s`, each exactly once, in an unspecified order. */
  method Enumerate<T(==)>(s: set<T>) returns (xs: seq<T>)
    ensures forall x :: x in xs <==> x in s
    ensures Distinct(xs)
    ensures |xs| == |s|
  {
    xs := [];
    var rest := s;
    while rest != {}
      invariant rest <= s
      invariant forall x :: x in s <==> x in xs || x in rest
      invariant forall x :: x in rest ==> x !in xs
      invariant Distinct(xs)
      invariant |xs| + |rest| == |s|
      decreases rest
    {
      var x :| x in rest;
      xs := xs + [x];
      rest := rest - {x};
    }
  }
}
