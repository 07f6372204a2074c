/** The library sort, and why its result does not depend on how it is computed:
    a total order admits one sorted arrangement of a multiset. */
module Sorting {

  ghost predicate TotalOrder<T(!new)>(leq: (T, T) -> bool) {
    && (forall x, y :: leq(x, y) || leq(y, x))
    && (forall x, y :: leq(x, y) && leq(y, x) ==> x == y)
    && (forall x, y, z :: leq(x, y) && leq(y, z) ==> leq(x, z))
  }

  ghost predicate SortedBy<T>(leq: (T, T) -> bool, xs: seq<T>) {
    forall i, j :: 0 <= i < j < |xs| ==> leq(xs[i], xs[j])
  }

  function Insert<T>(leq: (T, T) -> bool, x: T, xs: seq<T>): (r: seq<T>)
    ensures multiset(r) == multiset(xs) + multiset{x}
  {
    if xs == [] || leq(x, xs[0]) then [x] + xs
    else
      assert xs == [xs[0]] + xs[1..];
      [xs[0]] + Insert(leq, x, xs[1..])
  }

  function Sort<T>(leq: (T, T) -> bool, xs: seq<T>): (r: seq<T>)
    ensures multiset(r) == multiset(xs)
  {
    if xs == [] then []
    else
      assert xs == [xs[0]] + xs[1..];
      Insert(leq, xs[0], Sort(leq, xs[1..]))
  }

  lemma {:induction false} InsertSorted<T(!new)>(leq: (T, T) -> bool, x: T, xs: seq<T>)
    requires TotalOrder(leq) && SortedBy(leq, xs)
    ensures SortedBy(leq, Insert(leq, x, xs))
  {
    if xs != [] && !leq(x, xs[0]) {
      var rest := Insert(leq, x, xs[1..]);
      InsertSorted(leq, x, xs[1..]);
      assert xs == [xs[0]] + xs[1..];
      forall y | y in rest ensures leq(xs[0], y) {
        assert y in multiset(rest);
        if y != x { assert y in xs[1..]; }
      }
    }
  }

  lemma {:induction false} SortSorts<T(!new)>(leq: (T, T) -> bool, xs: seq<T>)
    requires TotalOrder(leq)
    ensures SortedBy(leq, Sort(leq, xs))
  {
    if xs != [] {
      SortSorts(leq, xs[1..]);
      InsertSorted(leq, xs[0], Sort(leq, xs[1..]));
    }
  }

  /** The order in which two elements go in does not matter. */
  lemma {:induction false} InsertCommutes<T(!new)>(leq: (T, T) -> bool, x: T, y: T, xs: seq<T>)
    requires TotalOrder(leq)
    ensures Insert(leq, x, Insert(leq, y, xs)) == Insert(leq, y, Insert(leq, x, xs))
  {
    if xs != [] && !leq(x, xs[0]) && !leq(y, xs[0]) { InsertCommutes(leq, x, y, xs[1..]); }
  }

  function Without<T>(xs: seq<T>, k: nat): seq<T>
    requires k < |xs|
  {
    xs[..k] + xs[k + 1..]
  }

  lemma WithoutLosesOne<T>(xs: seq<T>, k: nat)
    requires k < |xs|
    ensures multiset(xs) == multiset(Without(xs, k)) + multiset{xs[k]}
  {
    assert xs == xs[..k] + [xs[k]] + xs[k + 1..];
  }

  lemma WithoutRest<T>(xs: seq<T>, k: nat)
    requires 0 < k < |xs|
    ensures Without(xs, k) == [xs[0]] + Without(xs[1..], k - 1)
  {
  }

  lemma SortUnfolds<T(!new)>(leq: (T, T) -> bool, x: T, xs: seq<T>)
    ensures Sort(leq, [x] + xs) == Insert(leq, x, Sort(leq, xs))
  {
    hide Insert;
    assert ([x] + xs)[1..] == xs;
  }

  /** Any element may be the first to go in. */
  lemma {:induction false} AnyFirst<T(!new)>(leq: (T, T) -> bool, xs: seq<T>, k: nat)
    requires TotalOrder(leq) && k < |xs|
    ensures Sort(leq, xs) == Insert(leq, xs[k], Sort(leq, Without(xs, k)))
  {
    hide TotalOrder, Sort, Insert, Without;
    assert xs == [xs[0]] + xs[1..];
    SortUnfolds(leq, xs[0], xs[1..]);
    if k == 0 {
      WithoutFirst(xs);
    } else {
      var rest := Without(xs[1..], k - 1);
      AnyFirst(leq, xs[1..], k - 1);
      WithoutRest(xs, k);
      SortUnfolds(leq, xs[0], rest);
      InsertCommutes(leq, xs[0], xs[k], Sort(leq, rest));
    }
  }

  lemma WithoutFirst<T>(xs: seq<T>)
    requires xs != []
    ensures Without(xs, 0) == xs[1..]
  {
  }

  lemma SameRest<T>(xs: seq<T>, ys: seq<T>, k: nat)
    requires k < |xs| && ys != [] && xs[k] == ys[0] && multiset(xs) == multiset(ys)
    ensures multiset(Without(xs, k)) == multiset(Without(ys, 0))
  {
    WithoutLosesOne(xs, k);
    WithoutLosesOne(ys, 0);
    hide Without;
    assert multiset(Without(xs, k)) == multiset(xs) - multiset{xs[k]};
    assert multiset(Without(ys, 0)) == multiset(ys) - multiset{ys[0]};
  }

  lemma {:induction false} Rearranged<T(!new)>(leq: (T, T) -> bool, xs: seq<T>, ys: seq<T>)
    requires TotalOrder(leq) && multiset(xs) == multiset(ys)
    ensures Sort(leq, xs) == Sort(leq, ys)
    decreases |ys|
  {
    if ys == [] {
      assert |multiset(xs)| == 0;
    } else {
      assert ys[0] in multiset(xs);
      var k: nat :| k < |xs| && xs[k] == ys[0];
      SameRest(xs, ys, k);
      AnyFirst(leq, xs, k);
      AnyFirst(leq, ys, 0);
      hide TotalOrder, Sort, Insert;
      Rearranged(leq, Without(xs, k), Without(ys, 0));
    }
  }

  /** Sorting two sequences gives the same result exactly when one is a rearrangement of the other. */
  lemma SortCanonical<T(!new)>(leq: (T, T) -> bool, xs: seq<T>, ys: seq<T>)
    requires TotalOrder(leq)
    ensures Sort(leq, xs) == Sort(leq, ys) <==> multiset(xs) == multiset(ys)
  {
    if multiset(xs) == multiset(ys) { Rearranged(leq, xs, ys); }
  }

  lemma {:induction false} SortedStays<T>(leq: (T, T) -> bool, xs: seq<T>)
    requires SortedBy(leq, xs)
    ensures Sort(leq, xs) == xs
  {
    if xs != [] { SortedStays(leq, xs[1..]); }
  }

  /** However a sort goes about it, stable or not, a sorted rearrangement of `xs` is `Sort(xs)`, and
      nothing else is one. */
  lemma SortIsTheOnlyOne<T(!new)>(leq: (T, T) -> bool, xs: seq<T>, ys: seq<T>)
    requires TotalOrder(leq)
    ensures SortedBy(leq, ys) && multiset(ys) == multiset(xs) <==> ys == Sort(leq, xs)
  {
    SortSorts(leq, xs);
    if SortedBy(leq, ys) && multiset(ys) == multiset(xs) {
      SortedStays(leq, ys);
      SortCanonical(leq, xs, ys);
    }
  }
}
