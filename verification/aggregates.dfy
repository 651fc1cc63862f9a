/**
 * The SQL aggregate functions the scoring queries use: SUM and AVG over an
 * integer column of a group, MIN and MAX over a nullable DOUBLE column
 * (NULLs are skipped; the result is NULL when no value is present).
 */
module Aggregates {

  import opened Options

  function Sum(xs: seq<int>): int
  {
    if xs == [] then 0 else xs[0] + Sum(xs[1..])
  }

  lemma {:induction false} SumAppend(xs: seq<int>, ys: seq<int>)
    ensures Sum(xs + ys) == Sum(xs) + Sum(ys)
  {
    if xs == [] {
      assert xs + ys == ys;
    } else {
      assert (xs + ys)[1..] == xs[1..] + ys;
      SumAppend(xs[1..], ys);
    }
  }

  /** A sum of |xs| values that are all at most `hi` is at most |xs|*hi. */
  lemma {:induction false} SumAtMost(xs: seq<int>, hi: int)
    requires forall x :: x in xs ==> x <= hi
    ensures Sum(xs) <= |xs| * hi
  {
    if xs != [] {
      assert forall x :: x in xs[1..] ==> x in xs;
      SumAtMost(xs[1..], hi);
      assert xs[0] in xs;
      assert |xs| * hi == |xs[1..]| * hi + hi;
    }
  }

  /** A sum of |xs| values that are all at least `lo` is at least |xs|*lo. */
  lemma {:induction false} SumAtLeast(xs: seq<int>, lo: int)
    requires forall x :: x in xs ==> lo <= x
    ensures |xs| * lo <= Sum(xs)
  {
    if xs != [] {
      assert forall x :: x in xs[1..] ==> x in xs;
      SumAtLeast(xs[1..], lo);
      assert xs[0] in xs;
      assert |xs| * lo == |xs[1..]| * lo + lo;
    }
  }

  /** AVG over a non-empty group: the value that, taken |xs| times, gives the SUM. */
  function Avg(xs: seq<int>): (avg: real)
    requires xs != []
    ensures avg * |xs| as real == Sum(xs) as real
  {
    var n := |xs| as real;
    var s := Sum(xs) as real;
    assert s / n * n == s;
    s / n
  }

  /** The AVG identity, stated for a length `n` known to equal |xs|. */
  lemma AvgOfLength(xs: seq<int>, n: nat)
    requires xs != [] && |xs| == n
    ensures Avg(xs) * n as real == Sum(xs) as real
  {
  }

  /** A quotient by a positive divisor keeps the bounds that hold on the dividend. */
  lemma DivBounds(s: real, n: real, lo: real, hi: real)
    requires n > 0.0 && lo * n <= s <= hi * n
    ensures lo <= s / n <= hi
  {
    assert s / n * n == s;
  }

  /** The average of values in [lo, hi] is in [lo, hi]. */
  lemma AvgBounds(xs: seq<int>, lo: int, hi: int)
    requires xs != []
    requires forall x :: x in xs ==> lo <= x <= hi
    ensures lo as real <= Avg(xs) <= hi as real
  {
    SumAtLeast(xs, lo);
    SumAtMost(xs, hi);
    CastProduct(|xs|, lo);
    CastProduct(|xs|, hi);
    DivBounds(Sum(xs) as real, |xs| as real, lo as real, hi as real);
  }

  lemma CastProduct(a: int, b: int)
    ensures (a * b) as real == b as real * a as real
  {
  }

  /** Values bounded above by `hi` sum to |xs|*hi exactly when all of them equal `hi`. */
  lemma {:induction false} SumReachesUpperBound(xs: seq<int>, hi: int)
    requires forall x :: x in xs ==> x <= hi
    ensures Sum(xs) == |xs| * hi <==> forall x :: x in xs ==> x == hi
  {
    if xs != [] {
      var tail := xs[1..];
      assert forall x :: x in tail ==> x in xs;
      SumReachesUpperBound(tail, hi);
      SumAtMost(tail, hi);
      MulSucc(|tail|, hi);
      assert xs[0] <= hi by {
        assert xs[0] in xs;
      }
      if forall x :: x in xs ==> x == hi {
        assert xs[0] in xs;
      }
      if xs[0] == hi && forall x :: x in tail ==> x == hi {
        forall x | x in xs ensures x == hi {
          HeadTail(xs);
        }
      }
    }
  }

  /** Values bounded below by `lo` sum to |xs|*lo exactly when all of them equal `lo`. */
  lemma {:induction false} SumReachesLowerBound(xs: seq<int>, lo: int)
    requires forall x :: x in xs ==> lo <= x
    ensures Sum(xs) == |xs| * lo <==> forall x :: x in xs ==> x == lo
  {
    if xs != [] {
      var tail := xs[1..];
      assert forall x :: x in tail ==> x in xs;
      SumReachesLowerBound(tail, lo);
      SumAtLeast(tail, lo);
      MulSucc(|tail|, lo);
      assert lo <= xs[0] by {
        assert xs[0] in xs;
      }
      if forall x :: x in xs ==> x == lo {
        assert xs[0] in xs;
      }
      if xs[0] == lo && forall x :: x in tail ==> x == lo {
        forall x | x in xs ensures x == lo {
          HeadTail(xs);
        }
      }
    }
  }

  lemma MulSucc(n: int, v: int)
    ensures (n + 1) * v == n * v + v
  {
  }

  /** A member of a non-empty sequence is its head or a member of its tail. */
  lemma HeadTail(xs: seq<int>)
    requires xs != []
    ensures forall x :: x in xs <==> x == xs[0] || x in xs[1..]
  {
    assert xs == [xs[0]] + xs[1..];
  }

  /** The average of values at most `hi` equals `hi` exactly when every value does. */
  lemma AvgReachesUpperBound(xs: seq<int>, hi: int)
    requires xs != []
    requires forall x :: x in xs ==> x <= hi
    ensures Avg(xs) == hi as real <==> forall x :: x in xs ==> x == hi
  {
    SumReachesUpperBound(xs, hi);
    AvgIsValueIff(xs, hi);
  }

  /** The average of values at least `lo` equals `lo` exactly when every value does. */
  lemma AvgReachesLowerBound(xs: seq<int>, lo: int)
    requires xs != []
    requires forall x :: x in xs ==> lo <= x
    ensures Avg(xs) == lo as real <==> forall x :: x in xs ==> x == lo
  {
    SumReachesLowerBound(xs, lo);
    AvgIsValueIff(xs, lo);
  }

  /** The average is `v` exactly when the sum is |xs| copies of `v`. */
  lemma AvgIsValueIff(xs: seq<int>, v: int)
    requires xs != []
    ensures Avg(xs) == v as real <==> Sum(xs) == |xs| * v
  {
    var n := |xs| as real;
    CastProduct(|xs|, v);
    if Avg(xs) == v as real {
      assert v as real * n == Sum(xs) as real;
    }
    if Sum(xs) == |xs| * v {
      assert Avg(xs) * n == v as real * n;
      DivideOut(Avg(xs), v as real, n);
    }
  }

  lemma DivideOut(a: real, b: real, n: real)
    requires n > 0.0 && a * n == b * n
    ensures a == b
  {
    assert (a - b) * n == 0.0;
  }

  /** MIN over a non-empty integer column: a value of the column no larger than any other. */
  ghost function MinOf(xs: seq<int>): (m: int)
    requires xs != []
    ensures m in xs
    ensures forall x :: x in xs ==> m <= x
  {
    LeastExists(xs);
    var m :| IsLeast(m, xs);
    m
  }

  /** MAX over a non-empty integer column: a value of the column no smaller than any other. */
  ghost function MaxOf(xs: seq<int>): (m: int)
    requires xs != []
    ensures m in xs
    ensures forall x :: x in xs ==> x <= m
  {
    GreatestExists(xs);
    var m :| IsGreatest(m, xs);
    m
  }

  predicate IsLeast(m: int, xs: seq<int>)
  {
    m in xs && forall x :: x in xs ==> m <= x
  }

  predicate IsGreatest(m: int, xs: seq<int>)
  {
    m in xs && forall x :: x in xs ==> x <= m
  }

  lemma {:induction false} LeastExists(xs: seq<int>)
    requires xs != []
    ensures exists m :: IsLeast(m, xs)
  {
    if |xs| == 1 {
      assert forall x :: x in xs ==> x == xs[0];
      assert IsLeast(xs[0], xs);
    } else {
      LeastExists(xs[1..]);
      var m :| IsLeast(m, xs[1..]);
      assert xs == [xs[0]] + xs[1..];
      var least := if xs[0] <= m then xs[0] else m;
      assert IsLeast(least, xs);
    }
  }

  lemma {:induction false} GreatestExists(xs: seq<int>)
    requires xs != []
    ensures exists m :: IsGreatest(m, xs)
  {
    if |xs| == 1 {
      assert forall x :: x in xs ==> x == xs[0];
      assert IsGreatest(xs[0], xs);
    } else {
      GreatestExists(xs[1..]);
      var m :| IsGreatest(m, xs[1..]);
      assert xs == [xs[0]] + xs[1..];
      var greatest := if m <= xs[0] then xs[0] else m;
      assert IsGreatest(greatest, xs);
    }
  }

  /**
   * Both facts about the AVG of a group of `n` values: taken `n` times it
   * gives the SUM, and it lies between the MIN and the MAX.
   */
  lemma AvgBetweenExtremes(xs: seq<int>, n: nat)
    requires xs != [] && |xs| == n
    ensures Avg(xs) * n as real == Sum(xs) as real
    ensures MinOf(xs) as real <= Avg(xs) <= MaxOf(xs) as real
  {
    AvgBounds(xs, MinOf(xs), MaxOf(xs));
  }

  /** SQL MIN over a nullable column: NULLs are skipped; NULL when nothing is present. */
  function MinPresent(xs: seq<Option<real>>): (m: Option<real>)
    ensures m.None? <==> forall i :: 0 <= i < |xs| ==> xs[i].None?
    ensures m.Some? ==> m in xs
    ensures m.Some? ==> forall i :: 0 <= i < |xs| && xs[i].Some? ==> m.value <= xs[i].value
  {
    if xs == [] then None
    else
      var rest := MinPresent(xs[1..]);
      assert xs == [xs[0]] + xs[1..];
      assert forall i :: 1 <= i < |xs| ==> xs[i] == xs[1..][i - 1];
      if xs[0].None? then rest
      else if rest.None? || xs[0].value <= rest.value then xs[0]
      else rest
  }

  /** SQL MAX over a nullable column: NULLs are skipped; NULL when nothing is present. */
  function MaxPresent(xs: seq<Option<real>>): (m: Option<real>)
    ensures m.None? <==> forall i :: 0 <= i < |xs| ==> xs[i].None?
    ensures m.Some? ==> m in xs
    ensures m.Some? ==> forall i :: 0 <= i < |xs| && xs[i].Some? ==> xs[i].value <= m.value
  {
    if xs == [] then None
    else
      var rest := MaxPresent(xs[1..]);
      assert xs == [xs[0]] + xs[1..];
      assert forall i :: 1 <= i < |xs| ==> xs[i] == xs[1..][i - 1];
      if xs[0].None? then rest
      else if rest.None? || rest.value <= xs[0].value then xs[0]
      else rest
  }
}
