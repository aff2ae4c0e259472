/**
 * `Array.prototype.sort` with a comparator. Since ECMAScript 2019 the sort is
 * stable, so for a consistent comparator its result is the unique ordering that
 * is sorted and keeps equivalent elements in their input order. Insertion sort
 * computes exactly that ordering.
 */
module Sorting {

  /** `le(a, b)` plays the role of `compare(a, b) <= 0` for a consistent comparator. */
  ghost predicate TotalPreorder<T(!new)>(le: (T, T) -> bool) {
    && (forall a, b :: le(a, b) || le(b, a))
    && (forall a, b, c :: le(a, b) && le(b, c) ==> le(a, c))
  }

  ghost predicate SortedBy<T>(s: seq<T>, le: (T, T) -> bool) {
    forall i, j :: 0 <= i < j < |s| ==> le(s[i], s[j])
  }

  /** The elements of `s` that compare equal to `p`, in their order in `s`. */
  function EquivalentTo<T>(s: seq<T>, p: T, le: (T, T) -> bool): seq<T> {
    if s == [] then []
    else (if le(s[0], p) && le(p, s[0]) then [s[0]] else []) + EquivalentTo(s[1..], p, le)
  }

  /** Places `x` before the first element that is not smaller than it. */
  function Insert<T>(x: T, s: seq<T>, le: (T, T) -> bool): (r: seq<T>)
    ensures |r| == |s| + 1
    ensures multiset(r) == multiset(s) + multiset{x}
  {
    if s == [] then [x]
    else if le(x, s[0]) then [x] + s
    else
      assert s == [s[0]] + s[1..];
      [s[0]] + Insert(x, s[1..], le)
  }

  lemma {:induction false} InsertSorted<T(!new)>(x: T, s: seq<T>, le: (T, T) -> bool)
    requires TotalPreorder(le) && SortedBy(s, le)
    ensures SortedBy(Insert(x, s, le), le)
  {
    if s != [] && !le(x, s[0]) {
      InsertSorted(x, s[1..], le);
      var r := Insert(x, s, le);
      var t := Insert(x, s[1..], le);
      assert r == [s[0]] + t;
      forall j | 0 < j < |r|
        ensures le(s[0], r[j])
      {
        assert r[j] in multiset(t);
        assert r[j] == x || r[j] in s[1..];
      }
    }
  }

  /** The stable sort of `s` by `le`. */
  function SortBy<T(!new)>(s: seq<T>, le: (T, T) -> bool): (r: seq<T>)
    requires TotalPreorder(le)
    ensures |r| == |s|
    ensures SortedBy(r, le)
    ensures multiset(r) == multiset(s)
  {
    if s == [] then []
    else
      var t := SortBy(s[1..], le);
      InsertSorted(s[0], t, le);
      assert s == [s[0]] + s[1..];
      Insert(s[0], t, le)
  }

  lemma {:induction false} InsertStable<T(!new)>(x: T, s: seq<T>, p: T, le: (T, T) -> bool)
    requires TotalPreorder(le)
    ensures EquivalentTo(Insert(x, s, le), p, le)
         == (if le(x, p) && le(p, x) then [x] else []) + EquivalentTo(s, p, le)
  {
    if s == [] {
    } else if le(x, s[0]) {
      assert ([x] + s)[1..] == s;
    } else {
      InsertStable(x, s[1..], p, le);
      assert ([s[0]] + Insert(x, s[1..], le))[1..] == Insert(x, s[1..], le);
    }
  }

  /** Sorting keeps every group of equivalent elements in input order (stability). */
  lemma {:induction false} SortStable<T(!new)>(s: seq<T>, p: T, le: (T, T) -> bool)
    requires TotalPreorder(le)
    ensures EquivalentTo(SortBy(s, le), p, le) == EquivalentTo(s, p, le)
  {
    if s != [] {
      SortStable(s[1..], p, le);
      InsertStable(s[0], SortBy(s[1..], le), p, le);
    }
  }
}
