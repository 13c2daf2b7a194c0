/** Optional values, results that carry an error, and lists without repetition. */
module Wrappers {
  datatype Option<+T> = None | Some(value: T)

  datatype Result<+T, +E> = Success(value: T) | Failure(error: E)

  function Elements<T(==)>(xs: seq<T>): set<T> { set x | x in xs }

  ghost predicate Distinct<T>(xs: seq<T>) { forall i, j :: 0 <= i < j < |xs| ==> xs[i] != xs[j] }

  lemma {:induction false} DistinctCount<T>(xs: seq<T>)
    requires Distinct(xs)
    ensures |Elements(xs)| == |xs|
    decreases |xs|
  {
    if xs == [] {
      assert Elements(xs) == {};
    } else {
      DistinctCount(xs[1..]);
      assert Elements(xs) == {xs[0]} + Elements(xs[1..]);
      assert xs[0] !in xs[1..];
    }
  }

  /** The elements of `list` that are among `chosen`, or that are not, in their order. */
  function Select<T(==, !new)>(list: seq<T>, chosen: seq<T>, keep: bool): (r: seq<T>)
    ensures forall x :: x in r <==> x in list && ((x in chosen) == keep)
  {
    if list == [] then []
    else (if (list[0] in chosen) == keep then [list[0]] else []) + Select(list[1..], chosen, keep)
  }

  lemma {:induction false} SelectDistinct<T(!new)>(list: seq<T>, chosen: seq<T>, keep: bool)
    requires Distinct(list)
    ensures Distinct(Select(list, chosen, keep))
    decreases |list|
  {
    if list != [] {
      SelectDistinct(list[1..], chosen, keep);
    }
  }

  lemma SameHeadAndTail<T>(x: T, xs: seq<T>, y: T, ys: seq<T>)
    ensures [x] + xs == [y] + ys <==> x == y && xs == ys
  {
    assert ([x] + xs)[0] == x && ([x] + xs)[1..] == xs && ([y] + ys)[0] == y && ([y] + ys)[1..] == ys;
  }
}
