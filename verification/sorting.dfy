/**
 * Sorting by a caller-supplied ordering: the meaning of an SQL `ORDER BY`
 * on a finite relation. The result is ordered and is a permutation of the
 * input; how ties are broken is not part of the contract.
 */
module Sorting {

  /** `le` is total and transitive, so it can order any sequence. */
  ghost predicate TotalPreorder<T(!new)>(le: (T, T) -> bool)
  {
    && (forall a, b :: le(a, b) || le(b, a))
    && (forall a, b, c :: le(a, b) && le(b, c) ==> le(a, c))
  }

  predicate SortedBy<T>(xs: seq<T>, le: (T, T) -> bool)
  {
    forall i, j :: 0 <= i < j < |xs| ==> le(xs[i], xs[j])
  }

  /** Inserts `x` into the ordered sequence `xs`. */
  function InsertBy<T(!new)>(x: T, xs: seq<T>, le: (T, T) -> bool): (r: seq<T>)
    requires TotalPreorder(le)
    requires SortedBy(xs, le)
    ensures SortedBy(r, le)
    ensures multiset(r) == multiset(xs) + multiset{x}
    ensures |r| == |xs| + 1
  {
    if xs == [] then [x]
    else if le(x, xs[0]) then
      ConsSorted(x, xs, le);
      [x] + xs
    else
      var tail := InsertBy(x, xs[1..], le);
      assert xs == [xs[0]] + xs[1..];
      HeadBelowInserted(xs[0], x, xs[1..], tail, le);
      ConsSorted(xs[0], tail, le);
      [xs[0]] + tail
  }

  /** Putting an element in front of a sorted sequence keeps it sorted when it is below every member. */
  lemma ConsSorted<T(!new)>(h: T, xs: seq<T>, le: (T, T) -> bool)
    requires TotalPreorder(le)
    requires SortedBy(xs, le)
    requires xs == [] || le(h, xs[0])
    ensures SortedBy([h] + xs, le)
  {
    var ys := [h] + xs;
    forall i, j | 0 <= i < j < |ys| ensures le(ys[i], ys[j]) {
      if i == 0 && j > 1 {
        assert le(h, xs[0]) && le(xs[0], xs[j - 1]);
      }
    }
  }

  /** The head of a sorted sequence stays below everything once a larger `x` is inserted into its tail. */
  lemma HeadBelowInserted<T(!new)>(h: T, x: T, rest: seq<T>, tail: seq<T>, le: (T, T) -> bool)
    requires TotalPreorder(le)
    requires SortedBy([h] + rest, le)
    requires !le(x, h)
    requires multiset(tail) == multiset(rest) + multiset{x}
    ensures tail == [] || le(h, tail[0])
  {
    if tail != [] {
      assert tail[0] in multiset(tail);
      if tail[0] == x {
        assert le(x, h) || le(h, x);
      } else {
        assert tail[0] in rest;
        var j :| 0 <= j < |rest| && rest[j] == tail[0];
        assert ([h] + rest)[0] == h && ([h] + rest)[j + 1] == rest[j];
        assert le(([h] + rest)[0], ([h] + rest)[j + 1]);
      }
    }
  }

  /** Insertion sort by `le`. */
  function SortBy<T(!new)>(xs: seq<T>, le: (T, T) -> bool): (r: seq<T>)
    requires TotalPreorder(le)
    ensures SortedBy(r, le)
    ensures multiset(r) == multiset(xs)
    ensures |r| == |xs|
  {
    if xs == [] then []
    else
      assert xs == [xs[0]] + xs[1..];
      InsertBy(xs[0], SortBy(xs[1..], le), le)
  }

  /** Applies `f` to every element, keeping the order. */
  function Map<A, B>(xs: seq<A>, f: A -> B): (ys: seq<B>)
    ensures |ys| == |xs|
    ensures forall i {:trigger ys[i]} :: 0 <= i < |xs| ==> ys[i] == f(xs[i])
  {
    if xs == [] then [] else [f(xs[0])] + Map(xs[1..], f)
  }

  lemma {:induction false} MapAppend<A, B>(a: seq<A>, b: seq<A>, f: A -> B)
    ensures Map(a + b, f) == Map(a, f) + Map(b, f)
  {
  }

  /** Reordering the input reorders the mapped output the same way. */
  lemma {:induction false} MapPermutation<A, B>(a: seq<A>, b: seq<A>, f: A -> B)
    requires multiset(a) == multiset(b)
    ensures multiset(Map(a, f)) == multiset(Map(b, f))
    decreases |a|
  {
    if a == [] {
      assert |b| == |multiset(b)| == 0;
    } else {
      var x := a[0];
      assert x in multiset(b);
      var i :| 0 <= i < |b| && b[i] == x;
      var rest := b[..i] + b[i + 1..];
      assert multiset(a[1..]) == multiset(rest) by {
        RemoveAt(b, i);
        assert a == [x] + a[1..];
      }
      MapPermutation(a[1..], rest, f);
      MapRemoveAt(b, i, f);
      MapAppend([x], a[1..], f);
      assert a == [x] + a[1..];
    }
  }

  /** Removing the element at `i` removes one copy of it. */
  lemma RemoveAt<A>(b: seq<A>, i: int)
    requires 0 <= i < |b|
    ensures multiset(b[..i] + b[i + 1..]) == multiset(b) - multiset{b[i]}
  {
    assert b == b[..i] + ([b[i]] + b[i + 1..]);
  }

  /** Mapping `b` gives the image of `b[i]` plus the mapping of the rest. */
  lemma {:induction false} MapRemoveAt<A, B>(b: seq<A>, i: int, f: A -> B)
    requires 0 <= i < |b|
    ensures multiset(Map(b, f)) == multiset{f(b[i])} + multiset(Map(b[..i] + b[i + 1..], f))
  {
    var tail := b[1..];
    assert b == [b[0]] + tail;
    MapConsCount(b[0], tail, f);
    if i == 0 {
      assert b[..i] + b[i + 1..] == tail;
    } else {
      var rest := tail[..i - 1] + tail[i..];
      MapRemoveAt(tail, i - 1, f);
      SliceAround(b, i);
      MapConsCount(b[0], rest, f);
    }
  }

  lemma MapConsCount<A, B>(x: A, xs: seq<A>, f: A -> B)
    ensures multiset(Map([x] + xs, f)) == multiset{f(x)} + multiset(Map(xs, f))
  {
    assert ([x] + xs)[1..] == xs;
  }

  lemma SliceAround<A>(b: seq<A>, i: int)
    requires 0 < i < |b|
    ensures b[..i] + b[i + 1..] == [b[0]] + (b[1..][..i - 1] + b[1..][i..])
    ensures b[1..][i - 1] == b[i]
  {
    assert b[..i] == [b[0]] + b[1..][..i - 1];
    assert b[i + 1..] == b[1..][i..];
  }
}
