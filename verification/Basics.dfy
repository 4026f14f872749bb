/** The result types shared by every module, and one counting fact about lists of distinct ids. */
module Basics {
  datatype Option<+T> = None | Some(value: T)

  datatype Result<+T, +E> = Ok(value: T) | Err(error: E)

  ghost predicate Distinct<T>(xs: seq<T>) {
    forall i, j :: 0 <= i < j < |xs| ==> xs[i] != xs[j]
  }

  /** As many distinct elements as a bound allows are all the elements there are. */
  lemma {:induction false} DistinctFills<T>(xs: seq<T>, bound: set<T>)
    requires Distinct(xs)
    requires forall x :: x in xs ==> x in bound
    ensures |xs| <= |bound|
    ensures |xs| == |bound| ==> forall b :: b in bound ==> b in xs
  {
    if xs != [] {
      var last := xs[|xs| - 1];
      var rest := xs[..|xs| - 1];
      assert xs == rest + [last];
      DistinctFills(rest, bound - {last});
    }
  }
}
