/** Stable sorting by an integer key, standing in for Go's sort package. */
module Sorting {

  ghost predicate SortedBy<T>(key: T -> int, xs: seq<T>) {
    forall i, j | 0 <= i < j < |xs| :: key(xs[i]) <= key(xs[j])
  }

  /** Inserts x after every element whose key is not greater. */
  function Insert<T>(key: T -> int, xs: seq<T>, x: T): seq<T> {
    if xs == [] || key(xs[|xs| - 1]) <= key(x) then xs + [x]
    else Insert(key, xs[..|xs| - 1], x) + [xs[|xs| - 1]]
  }

  function SortStable<T>(key: T -> int, xs: seq<T>): seq<T> {
    if xs == [] then [] else Insert(key, SortStable(key, xs[..|xs| - 1]), xs[|xs| - 1])
  }

  lemma {:induction false} InsertPermutes<T>(key: T -> int, xs: seq<T>, x: T)
    ensures multiset(Insert(key, xs, x)) == multiset(xs) + multiset{x}
  {
    if xs != [] && key(xs[|xs| - 1]) > key(x) {
      InsertPermutes(key, xs[..|xs| - 1], x);
      assert xs == xs[..|xs| - 1] + [xs[|xs| - 1]];
    }
  }

  lemma {:induction false} InsertSorts<T>(key: T -> int, xs: seq<T>, x: T)
    requires SortedBy(key, xs)
    ensures SortedBy(key, Insert(key, xs, x))
    ensures forall y | y in Insert(key, xs, x) :: y == x || y in xs
  {
    if xs != [] && key(xs[|xs| - 1]) > key(x) {
      var front, last := xs[..|xs| - 1], xs[|xs| - 1];
      InsertSorts(key, front, x);
      forall y | y in front ensures key(y) <= key(last) {
      }
    }
  }

  lemma {:induction false} SortStableSorts<T>(key: T -> int, xs: seq<T>)
    ensures SortedBy(key, SortStable(key, xs))
    ensures multiset(SortStable(key, xs)) == multiset(xs)
  {
    if xs != [] {
      var front, last := xs[..|xs| - 1], xs[|xs| - 1];
      SortStableSorts(key, front);
      InsertSorts(key, SortStable(key, front), last);
      InsertPermutes(key, SortStable(key, front), last);
      assert xs == front + [last];
    }
  }

  // ----- stability -----

  function WithKey<T>(key: T -> int, xs: seq<T>, k: int): seq<T> {
    if xs == [] then []
    else WithKey(key, xs[..|xs| - 1], k) + if key(xs[|xs| - 1]) == k then [xs[|xs| - 1]] else []
  }

  lemma {:induction false} InsertStable<T>(key: T -> int, xs: seq<T>, x: T, k: int)
    requires SortedBy(key, xs)
    ensures WithKey(key, Insert(key, xs, x), k) == WithKey(key, xs, k) + if key(x) == k then [x] else []
  {
    if xs == [] || key(xs[|xs| - 1]) <= key(x) {
      assert (xs + [x])[..|xs|] == xs;
    } else {
      var front, last := xs[..|xs| - 1], xs[|xs| - 1];
      var rest := Insert(key, front, x);
      InsertStable(key, front, x, k);
      assert (rest + [last])[..|rest|] == rest;
    }
  }

  /** Rows with equal keys keep their input order. */
  lemma {:induction false} SortStableStable<T>(key: T -> int, xs: seq<T>, k: int)
    ensures WithKey(key, SortStable(key, xs), k) == WithKey(key, xs, k)
  {
    if xs != [] {
      SortStableStable(key, xs[..|xs| - 1], k);
      SortStableSorts(key, xs[..|xs| - 1]);
      InsertStable(key, SortStable(key, xs[..|xs| - 1]), xs[|xs| - 1], k);
    }
  }
}
