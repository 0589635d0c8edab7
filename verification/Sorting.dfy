/** The stable sort that `list.sort` and `sorted` promise, for an ordering of keys. */
module Sorting {

  ghost predicate TotalPreorder<T(!new)>(le: (T, T) -> bool) {
    && (forall a, b :: le(a, b) || le(b, a))
    && (forall a, b, c :: le(a, b) && le(b, c) ==> le(a, c))
  }

  ghost predicate Sorted<T(!new)>(le: (T, T) -> bool, xs: seq<T>) {
    forall i, j :: 0 <= i < j < |xs| ==> le(xs[i], xs[j])
  }

  /** Insert before the first item that is not smaller. */
  function Insert<T>(le: (T, T) -> bool, x: T, xs: seq<T>): seq<T> {
    if xs == [] || le(x, xs[0]) then [x] + xs else [xs[0]] + Insert(le, x, xs[1..])
  }

  function StableSort<T>(le: (T, T) -> bool, xs: seq<T>): seq<T> {
    if xs == [] then [] else Insert(le, xs[0], StableSort(le, xs[1..]))
  }

  lemma {:induction false} InsertAdds<T>(le: (T, T) -> bool, x: T, xs: seq<T>)
    ensures multiset(Insert(le, x, xs)) == multiset(xs) + multiset{x}
  {
    if xs != [] && !le(x, xs[0]) {
      InsertAdds(le, x, xs[1..]);
      assert xs == [xs[0]] + xs[1..];
    }
  }

  lemma {:induction false} InsertSorts<T(!new)>(le: (T, T) -> bool, x: T, xs: seq<T>)
    requires TotalPreorder(le) && Sorted(le, xs)
    ensures Sorted(le, Insert(le, x, xs))
  {
    if xs != [] && !le(x, xs[0]) {
      InsertSorts(le, x, xs[1..]);
      InsertAdds(le, x, xs[1..]);
      var rest := Insert(le, x, xs[1..]);
      forall k | 0 <= k < |rest| ensures le(xs[0], rest[k]) {
        assert rest[k] in multiset(rest);
      }
    }
  }

  /** The result is sorted and has the same items. */
  lemma {:induction false} SortSorts<T(!new)>(le: (T, T) -> bool, xs: seq<T>)
    requires TotalPreorder(le)
    ensures Sorted(le, StableSort(le, xs))
    ensures multiset(StableSort(le, xs)) == multiset(xs)
  {
    if xs != [] {
      SortSorts(le, xs[1..]);
      InsertAdds(le, xs[0], StableSort(le, xs[1..]));
      InsertSorts(le, xs[0], StableSort(le, xs[1..]));
      assert xs == [xs[0]] + xs[1..];
    }
  }

  /** Sorting what is sorted changes nothing, so sorting twice is sorting once. */
  lemma {:induction false} SortedIsFixed<T(!new)>(le: (T, T) -> bool, xs: seq<T>)
    requires Sorted(le, xs)
    ensures StableSort(le, xs) == xs
  {
    if xs != [] {
      SortedIsFixed(le, xs[1..]);
      assert |xs| > 1 ==> le(xs[0], xs[1]);
    }
  }

  /** The items that tie with `x`, in order. */
  function Ties<T>(le: (T, T) -> bool, x: T, xs: seq<T>): seq<T> {
    if xs == [] then []
    else (if le(x, xs[0]) && le(xs[0], x) then [xs[0]] else []) + Ties(le, x, xs[1..])
  }

  lemma {:induction false} InsertIsStable<T(!new)>(le: (T, T) -> bool, x: T, y: T, xs: seq<T>)
    requires TotalPreorder(le)
    ensures Ties(le, x, Insert(le, y, xs)) == Ties(le, x, [y] + xs)
  {
    assert ([y] + xs)[1..] == xs;
    if xs != [] && !le(y, xs[0]) {
      InsertIsStable(le, x, y, xs[1..]);
      assert ([y] + xs[1..])[1..] == xs[1..];
    }
  }

  /** Items that tie keep their order. */
  lemma {:induction false} SortIsStable<T(!new)>(le: (T, T) -> bool, x: T, xs: seq<T>)
    requires TotalPreorder(le)
    ensures Ties(le, x, StableSort(le, xs)) == Ties(le, x, xs)
  {
    if xs != [] {
      SortIsStable(le, x, xs[1..]);
      InsertIsStable(le, x, xs[0], StableSort(le, xs[1..]));
      assert ([xs[0]] + StableSort(le, xs[1..]))[1..] == StableSort(le, xs[1..]);
    }
  }
}
