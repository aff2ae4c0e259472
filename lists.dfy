/**
 * The array methods the catalog stores chain together — `map`, `filter`,
 * `find`, `some` and `map(...).flat()` — and the replace-by-id merge
 * `xs.map(x => matches(x) ? d : x)`, with the facts about them that the
 * stores' contracts rely on.
 */
module Lists {
  import opened Wrappers

  /** `xs.map(f)`. */
  function Map<T, U>(xs: seq<T>, f: T -> U): (r: seq<U>)
    ensures |r| == |xs|
    ensures forall i :: 0 <= i < |xs| ==> r[i] == f(xs[i])
  {
    if xs == [] then [] else [f(xs[0])] + Map(xs[1..], f)
  }

  /** `xs.filter(p)`. */
  function Filter<T>(xs: seq<T>, p: T -> bool): (r: seq<T>)
    ensures |r| <= |xs|
    ensures forall k :: 0 <= k < |r| ==> p(r[k])
  {
    if xs == [] then []
    else (if p(xs[0]) then [xs[0]] else []) + Filter(xs[1..], p)
  }

  /** Filtering distributes over concatenation, so the kept elements stay in input order. */
  lemma {:induction false} FilterAppend<T>(a: seq<T>, b: seq<T>, p: T -> bool)
    ensures Filter(a + b, p) == Filter(a, p) + Filter(b, p)
  {
    if a == [] {
      assert a + b == b;
    } else {
      assert (a + b)[0] == a[0];
      assert (a + b)[1..] == a[1..] + b;
      FilterAppend(a[1..], b, p);
    }
  }

  /** The filter keeps exactly the elements that satisfy the predicate. */
  lemma {:induction false} FilterMembers<T>(xs: seq<T>, p: T -> bool, x: T)
    ensures x in Filter(xs, p) <==> x in xs && p(x)
  {
    if xs != [] {
      FilterMembers(xs[1..], p, x);
      assert xs == [xs[0]] + xs[1..];
    }
  }

  lemma {:induction false} FilterAll<T>(xs: seq<T>, p: T -> bool)
    requires forall k :: 0 <= k < |xs| ==> p(xs[k])
    ensures Filter(xs, p) == xs
  {
    if xs != [] {
      FilterAll(xs[1..], p);
      assert xs == [xs[0]] + xs[1..];
    }
  }

  lemma {:induction false} FilterNone<T>(xs: seq<T>, p: T -> bool)
    requires forall k :: 0 <= k < |xs| ==> !p(xs[k])
    ensures Filter(xs, p) == []
  {
    if xs != [] {
      FilterNone(xs[1..], p);
    }
  }

  /** `xs.map(f).flat()`. */
  function FlatMap<T, U>(xs: seq<T>, f: T -> seq<U>): seq<U> {
    if xs == [] then [] else f(xs[0]) + FlatMap(xs[1..], f)
  }

  /** The flattening holds every element of every inner list, each list in place. */
  lemma {:induction false} FlatMapMembers<T, U>(xs: seq<T>, f: T -> seq<U>, u: U)
    ensures u in FlatMap(xs, f) <==> exists i :: 0 <= i < |xs| && u in f(xs[i])
  {
    if xs != [] {
      FlatMapMembers(xs[1..], f, u);
      if u in FlatMap(xs[1..], f) {
        var i :| 0 <= i < |xs[1..]| && u in f(xs[1..][i]);
        assert xs[i + 1] == xs[1..][i];
      }
      if exists i :: 0 <= i < |xs| && u in f(xs[i]) {
        var i :| 0 <= i < |xs| && u in f(xs[i]);
        if i > 0 {
          assert xs[1..][i - 1] == xs[i];
        }
      }
    }
  }

  /** Sum of `|f(x)|` over `xs`. */
  function TotalLength<T, U>(xs: seq<T>, f: T -> seq<U>): nat {
    if xs == [] then 0 else |f(xs[0])| + TotalLength(xs[1..], f)
  }

  lemma {:induction false} FlatMapLength<T, U>(xs: seq<T>, f: T -> seq<U>)
    ensures |FlatMap(xs, f)| == TotalLength(xs, f)
  {
    if xs != [] {
      FlatMapLength(xs[1..], f);
    }
  }

  /**
   * If only the `i`-th inner list holds elements satisfying `p`, and all of its
   * elements do, then filtering the flattening gives back exactly that list.
   */
  lemma {:induction false} FilterFlatMapOne<T, U>(xs: seq<T>, f: T -> seq<U>, p: U -> bool, i: nat)
    requires i < |xs|
    requires forall k :: 0 <= k < |f(xs[i])| ==> p(f(xs[i])[k])
    requires forall j, k :: 0 <= j < |xs| && j != i && 0 <= k < |f(xs[j])| ==> !p(f(xs[j])[k])
    ensures Filter(FlatMap(xs, f), p) == f(xs[i])
  {
    FilterAppend(f(xs[0]), FlatMap(xs[1..], f), p);
    if i == 0 {
      FilterAll(f(xs[0]), p);
      FilterNoneFlatMap(xs[1..], f, p);
    } else {
      assert forall k :: 0 <= k < |f(xs[0])| ==> !p(f(xs[0])[k]);
      FilterNone(f(xs[0]), p);
      assert xs[1..][i - 1] == xs[i];
      forall j, k | 0 <= j < |xs[1..]| && j != i - 1 && 0 <= k < |f(xs[1..][j])|
        ensures !p(f(xs[1..][j])[k])
      {
        assert xs[1..][j] == xs[j + 1];
      }
      FilterFlatMapOne(xs[1..], f, p, i - 1);
    }
  }

  lemma {:induction false} FilterNoneFlatMap<T, U>(xs: seq<T>, f: T -> seq<U>, p: U -> bool)
    requires forall j, k :: 0 <= j < |xs| && 0 <= k < |f(xs[j])| ==> !p(f(xs[j])[k])
    ensures Filter(FlatMap(xs, f), p) == []
  {
    if xs != [] {
      FilterAppend(f(xs[0]), FlatMap(xs[1..], f), p);
      assert forall k :: 0 <= k < |f(xs[0])| ==> !p(f(xs[0])[k]);
      FilterNone(f(xs[0]), p);
      forall j, k | 0 <= j < |xs[1..]| && 0 <= k < |f(xs[1..][j])|
        ensures !p(f(xs[1..][j])[k])
      {
        assert xs[1..][j] == xs[j + 1];
      }
      FilterNoneFlatMap(xs[1..], f, p);
    }
  }

  /** `xs.some(p)`. */
  predicate Any<T>(xs: seq<T>, p: T -> bool) {
    exists k :: 0 <= k < |xs| && p(xs[k])
  }

  /** `xs.findIndex(p)` as an option: the first position satisfying `p`. */
  function FirstIndex<T>(xs: seq<T>, p: T -> bool): (r: Option<nat>)
    ensures r.None? <==> !Any(xs, p)
    ensures r.Some? ==> r.value < |xs| && p(xs[r.value]) && forall j :: 0 <= j < r.value ==> !p(xs[j])
  {
    if xs == [] then None
    else if p(xs[0]) then Some(0)
    else match FirstIndex(xs[1..], p)
      case None =>
        assert forall k :: 1 <= k < |xs| ==> xs[k] == xs[1..][k - 1];
        None
      case Some(i) =>
        assert forall j :: 1 <= j < i + 1 ==> xs[j] == xs[1..][j - 1];
        Some(i + 1)
  }

  /** `xs.find(p)`: the element at the first position satisfying `p`, if any. */
  function FindFirst<T>(xs: seq<T>, p: T -> bool): (r: Option<T>)
    ensures r.None? <==> !Any(xs, p)
    ensures r.Some? ==> p(r.value) && r.value == xs[FirstIndex(xs, p).value]
  {
    match FirstIndex(xs, p)
    case None => None
    case Some(i) => Some(xs[i])
  }

  /** `xs.map(x => matches(x) ? d : x)`: every matching element becomes `d`. */
  function ReplaceWhere<T>(xs: seq<T>, matches: T -> bool, d: T): (r: seq<T>)
    ensures |r| == |xs|
    ensures forall i :: 0 <= i < |xs| ==> r[i] == (if matches(xs[i]) then d else xs[i])
  {
    Map(xs, x => if matches(x) then d else x)
  }

  /** With no matching element the merge changes nothing. */
  lemma ReplaceWhereNone<T>(xs: seq<T>, matches: T -> bool, d: T)
    requires !Any(xs, matches)
    ensures ReplaceWhere(xs, matches, d) == xs
  {
  }

  /** After the merge, looking a matching entry up finds the new value. */
  lemma FindAfterReplace<T>(xs: seq<T>, matches: T -> bool, d: T)
    requires Any(xs, matches) && matches(d)
    ensures FindFirst(ReplaceWhere(xs, matches, d), matches) == Some(d)
  {
    var r := ReplaceWhere(xs, matches, d);
    var k :| 0 <= k < |xs| && matches(xs[k]);
    assert matches(r[k]);
  }

  /**
   * The fallback of a failed fetch: the first cached element satisfying `p`,
   * or the fetch's error rethrown when there is none.
   */
  function FindOrFail<T>(xs: seq<T>, p: T -> bool, error: string): (r: Result<T>)
    ensures r.Ok? <==> Any(xs, p)
    ensures r.Ok? ==> p(r.value) && r.value == xs[FirstIndex(xs, p).value]
    ensures r.Err? ==> r.error == error
  {
    match FindFirst(xs, p)
    case Some(x) => Ok(x)
    case None => Err(error)
  }

  /** Mapping twice is mapping once by the composition. */
  lemma MapMap<T, U, V>(xs: seq<T>, f: T -> U, g: U -> V, h: T -> V)
    requires forall x :: h(x) == g(f(x))
    ensures Map(Map(xs, f), g) == Map(xs, h)
  {
  }

  /** Filtering mapped elements by `p` is mapping the elements whose image satisfies `p`. */
  lemma {:induction false} FilterMap<T, U>(xs: seq<T>, f: T -> U, p: U -> bool, q: T -> bool)
    requires forall x :: q(x) == p(f(x))
    ensures Filter(Map(xs, f), p) == Map(Filter(xs, q), f)
  {
    if xs != [] {
      FilterMap(xs[1..], f, p, q);
      assert Map(xs, f)[1..] == Map(xs[1..], f);
      if q(xs[0]) {
        assert Filter(xs, q) == [xs[0]] + Filter(xs[1..], q);
        assert Map([xs[0]] + Filter(xs[1..], q), f) == [f(xs[0])] + Map(Filter(xs[1..], q), f);
      }
    }
  }
}
