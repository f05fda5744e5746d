/** The stable sort the call state relies on, as repeated insertion after the last element not preceded. */
module StableSort {

  function Insert<T>(xs: seq<T>, x: T, precedes: (T, T) -> bool): (r: seq<T>)
    ensures |r| == |xs| + 1
    ensures multiset(r) == multiset(xs) + multiset{x}
  {
    if xs == [] then [x]
    else if precedes(x, xs[|xs| - 1]) then
      assert xs == xs[..|xs| - 1] + [xs[|xs| - 1]];
      Insert(xs[..|xs| - 1], x, precedes) + [xs[|xs| - 1]]
    else xs + [x]
  }

  function Sort<T>(xs: seq<T>, precedes: (T, T) -> bool): (r: seq<T>)
    ensures |r| == |xs|
    ensures multiset(r) == multiset(xs)
  {
    if xs == [] then []
    else
      assert xs == xs[..|xs| - 1] + [xs[|xs| - 1]];
      Insert(Sort(xs[..|xs| - 1], precedes), xs[|xs| - 1], precedes)
  }

  ghost predicate Ordered<T>(xs: seq<T>, precedes: (T, T) -> bool) {
    forall i, j :: 0 <= i < j < |xs| ==> !precedes(xs[j], xs[i])
  }

  /** What a comparison key gives: nothing precedes itself, and whatever is not between stays outside. */
  ghost predicate StrictWeak<T(!new)>(precedes: (T, T) -> bool) {
    && (forall a, b :: precedes(a, b) ==> !precedes(b, a))
    && (forall a, b, c :: precedes(a, c) ==> precedes(a, b) || precedes(b, c))
  }

  lemma {:induction false} InsertOrdered<T(!new)>(xs: seq<T>, x: T, precedes: (T, T) -> bool)
    requires StrictWeak(precedes) && Ordered(xs, precedes)
    ensures Ordered(Insert(xs, x, precedes), precedes)
  {
    if xs != [] {
      var last := xs[|xs| - 1];
      if precedes(x, last) {
        var front := Insert(xs[..|xs| - 1], x, precedes);
        InsertOrdered(xs[..|xs| - 1], x, precedes);
        forall i | 0 <= i < |front| ensures !precedes(last, front[i]) {
          assert front[i] in multiset(front);
          if front[i] != x {
            assert front[i] in multiset(xs[..|xs| - 1]);
          }
        }
      }
    }
  }

  lemma {:induction false} SortOrdered<T(!new)>(xs: seq<T>, precedes: (T, T) -> bool)
    requires StrictWeak(precedes)
    ensures Ordered(Sort(xs, precedes), precedes)
  {
    if xs != [] {
      SortOrdered(xs[..|xs| - 1], precedes);
      InsertOrdered(Sort(xs[..|xs| - 1], precedes), xs[|xs| - 1], precedes);
    }
  }

  lemma {:induction false} SortOfOrdered<T>(xs: seq<T>, precedes: (T, T) -> bool)
    requires Ordered(xs, precedes)
    ensures Sort(xs, precedes) == xs
  {
    if xs != [] {
      SortOfOrdered(xs[..|xs| - 1], precedes);
      assert xs == xs[..|xs| - 1] + [xs[|xs| - 1]];
      assert |xs| > 1 ==> !precedes(xs[|xs| - 1], xs[|xs| - 2]);
    }
  }

  /** Adding to an ordered list and sorting is one insertion. */
  lemma {:induction false} SortOfOneMore<T>(xs: seq<T>, x: T, precedes: (T, T) -> bool)
    requires Ordered(xs, precedes)
    ensures Sort(xs + [x], precedes) == Insert(xs, x, precedes)
  {
    assert (xs + [x])[..|xs|] == xs;
    SortOfOrdered(xs, precedes);
  }

  /** How the first `k` of an ordered list change when one element is inserted. */
  lemma {:induction false} InsertPrefix<T(!new)>(xs: seq<T>, x: T, precedes: (T, T) -> bool, k: nat)
    requires StrictWeak(precedes) && Ordered(xs, precedes) && 0 < k <= |xs|
    ensures Insert(xs, x, precedes)[..k]
         == if precedes(x, xs[k - 1]) then Insert(xs[..k - 1], x, precedes) else xs[..k]
  {
    var last := xs[|xs| - 1];
    if k < |xs| {
      if precedes(x, last) {
        InsertPrefix(xs[..|xs| - 1], x, precedes, k);
        assert xs[..|xs| - 1][..k - 1] == xs[..k - 1];
      } else {
        assert !precedes(last, xs[k - 1]);
        assert !precedes(x, xs[k - 1]);
      }
    }
  }

  /** The first of the elements no other comes after: what `min` finds when `precedes` is "greater". */
  function FirstLeast<T>(xs: seq<T>, precedes: (T, T) -> bool): (w: nat)
    requires xs != []
    ensures w < |xs|
  {
    if |xs| == 1 then 0
    else
      var w := FirstLeast(xs[..|xs| - 1], precedes);
      if precedes(xs[w], xs[|xs| - 1]) then |xs| - 1 else w
  }

  lemma {:induction false} FirstLeastIsLeast<T(!new)>(xs: seq<T>, precedes: (T, T) -> bool, i: nat)
    requires StrictWeak(precedes) && i < |xs|
    ensures !precedes(xs[FirstLeast(xs, precedes)], xs[i])
    ensures i < FirstLeast(xs, precedes) ==> precedes(xs[i], xs[FirstLeast(xs, precedes)])
  {
    var last := |xs| - 1;
    if last > 0 {
      var w := FirstLeast(xs[..last], precedes);
      FirstLeastIsLeast(xs[..last], precedes, if i < last then i else w);
      assert precedes(xs[w], xs[last]) && i < last ==> precedes(xs[w], xs[i]) || precedes(xs[i], xs[last]);
    }
  }
}
