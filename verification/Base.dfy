/** Vocabulary shared by the models. */
module Base {
  datatype Option<+T> = None | Some(value: T)

  // A corpus or database key that is only ever compared for equality.
  datatype Id = Id(name: string)

  function Max(a: real, b: real): real {
    if a < b then b else a
  }

  function Min(a: real, b: real): real {
    if b < a then b else a
  }

  function Abs(x: real): real {
    if x < 0.0 then -x else x
  }

  function Smaller(a: int, b: int): int {
    if a < b then a else b
  }

  predicate Distinct<T(==)>(s: seq<T>) {
    forall i, j :: 0 <= i < j < |s| ==> s[i] != s[j]
  }
}

/** Python's stable sort, by any order. */
module Sorting {
  // `x` goes in after all that it does not come before.
  function InsertBy<T>(before: (T, T) -> bool, xs: seq<T>, x: T): seq<T> {
    if xs == [] || !before(x, xs[|xs| - 1]) then xs + [x]
    else InsertBy(before, xs[..|xs| - 1], x) + [xs[|xs| - 1]]
  }

  function SortBy<T>(before: (T, T) -> bool, xs: seq<T>): seq<T> {
    if xs == [] then [] else InsertBy(before, SortBy(before, xs[..|xs| - 1]), xs[|xs| - 1])
  }

  // Nothing comes before what precedes it.
  ghost predicate SortedBy<T>(before: (T, T) -> bool, xs: seq<T>) {
    forall i, j :: 0 <= i < j < |xs| ==> !before(xs[j], xs[i])
  }

  ghost predicate WeakOrder<T(!new)>(before: (T, T) -> bool) {
    && (forall a, b :: before(a, b) ==> !before(b, a))
    && (forall a, b, c :: before(a, c) ==> before(a, b) || before(b, c))
  }

  lemma LastApart<T>(xs: seq<T>)
    requires xs != []
    ensures multiset(xs) == multiset(xs[..|xs| - 1]) + multiset{xs[|xs| - 1]}
  {
    assert xs == xs[..|xs| - 1] + [xs[|xs| - 1]];
  }

  lemma {:induction false} InsertCounts<T>(before: (T, T) -> bool, xs: seq<T>, x: T)
    ensures multiset(InsertBy(before, xs, x)) == multiset(xs) + multiset{x}
  {
    if xs != [] && before(x, xs[|xs| - 1]) {
      var last, placed := xs[|xs| - 1], InsertBy(before, xs[..|xs| - 1], x);
      InsertCounts(before, xs[..|xs| - 1], x);
      LastApart(xs);
      assert multiset(placed + [last]) == multiset(placed) + multiset{last};
    }
  }

  lemma {:induction false} InsertOrders<T(!new)>(before: (T, T) -> bool, xs: seq<T>, x: T)
    requires WeakOrder(before) && SortedBy(before, xs)
    ensures SortedBy(before, InsertBy(before, xs, x))
    ensures forall y :: y in InsertBy(before, xs, x) ==> y in xs || y == x
  {
    if xs != [] {
      var front, last := xs[..|xs| - 1], xs[|xs| - 1];
      if before(x, last) {
        InsertOrders(before, front, x);
        var placed := InsertBy(before, front, x);
        forall k | 0 <= k < |placed| ensures !before(last, placed[k]) {
          assert placed[k] in placed;
        }
      } else {
        forall k | 0 <= k < |xs| ensures !before(x, xs[k]) {
          assert k < |xs| - 1 ==> !before(last, xs[k]);
        }
      }
    }
  }

  lemma {:induction false} SortPermutes<T>(before: (T, T) -> bool, xs: seq<T>)
    ensures multiset(SortBy(before, xs)) == multiset(xs)
  {
    if xs != [] {
      SortPermutes(before, xs[..|xs| - 1]);
      InsertCounts(before, SortBy(before, xs[..|xs| - 1]), xs[|xs| - 1]);
      LastApart(xs);
    }
  }

  lemma {:induction false} SortSorts<T(!new)>(before: (T, T) -> bool, xs: seq<T>)
    requires WeakOrder(before)
    ensures SortedBy(before, SortBy(before, xs))
  {
    if xs != [] {
      SortSorts(before, xs[..|xs| - 1]);
      InsertOrders(before, SortBy(before, xs[..|xs| - 1]), xs[|xs| - 1]);
    }
  }

  lemma SortMembers<T>(before: (T, T) -> bool, xs: seq<T>)
    ensures forall x :: x in SortBy(before, xs) <==> x in xs
  {
    SortPermutes(before, xs);
    assert forall x :: x in SortBy(before, xs) <==> x in multiset(SortBy(before, xs));
    assert forall x :: x in xs <==> x in multiset(xs);
  }
}
