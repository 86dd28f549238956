/** Generic helpers shared by the models: an optional value, and the three
    array operations the views are built from: `filter`, `slice(0, n)` and
    a summing `reduce`. */
module Prelude {

  datatype Option<+T> = None | Some(value: T)

  /** The elements of `xs` that satisfy `keep`, in their order, as `filter` returns them. */
  function Filter<T(!new)>(xs: seq<T>, keep: T -> bool): (r: seq<T>)
    ensures |r| <= |xs|
    ensures forall x :: x in r <==> x in xs && keep(x)
  {
    if xs == [] then []
    else
      assert xs == [xs[0]] + xs[1..];
      var rest := Filter(xs[1..], keep);
      if keep(xs[0]) then [xs[0]] + rest else rest
  }

  /** Filtering distributes over concatenation: relative order is kept. */
  lemma {:induction false} FilterConcat<T(!new)>(a: seq<T>, b: seq<T>, keep: T -> bool)
    ensures Filter(a + b, keep) == Filter(a, keep) + Filter(b, keep)
  {
    if a == [] {
      assert a + b == b;
    } else {
      assert (a + b)[0] == a[0] && (a + b)[1..] == a[1..] + b;
      FilterConcat(a[1..], b, keep);
    }
  }

  /** A filter that every element passes returns its input unchanged. */
  lemma {:induction false} FilterKeepsAll<T(!new)>(xs: seq<T>, keep: T -> bool)
    requires forall i :: 0 <= i < |xs| ==> keep(xs[i])
    ensures Filter(xs, keep) == xs
  {
    if xs != [] {
      FilterKeepsAll(xs[1..], keep);
    }
  }

  /** A filter that no element passes returns nothing. */
  lemma {:induction false} FilterKeepsNone<T(!new)>(xs: seq<T>, keep: T -> bool)
    requires forall i :: 0 <= i < |xs| ==> !keep(xs[i])
    ensures Filter(xs, keep) == []
  {
    if xs != [] {
      FilterKeepsNone(xs[1..], keep);
    }
  }

  /** Filtering twice with the same predicate is filtering once. */
  lemma FilterIdempotent<T(!new)>(xs: seq<T>, keep: T -> bool)
    ensures Filter(Filter(xs, keep), keep) == Filter(xs, keep)
  {
    var r := Filter(xs, keep);
    forall i | 0 <= i < |r| ensures keep(r[i]) {
      assert r[i] in r;
    }
    FilterKeepsAll(r, keep);
  }

  /** If `b` is `a` element by element, and an element of `b` is kept only where
      the element of `a` at the same place is kept, `b` keeps no more elements
      than `a`, and strictly fewer when some place is kept in `a` but not in `b`. */
  lemma {:induction false} FilterCountMonotone<T(!new)>(a: seq<T>, b: seq<T>, keep: T -> bool)
    requires |a| == |b|
    requires forall i :: 0 <= i < |b| ==> keep(b[i]) ==> keep(a[i])
    ensures |Filter(b, keep)| <= |Filter(a, keep)|
    ensures (exists i :: 0 <= i < |a| && keep(a[i]) && !keep(b[i])) ==>
              |Filter(b, keep)| < |Filter(a, keep)|
  {
    if a != [] {
      FilterCountMonotone(a[1..], b[1..], keep);
      if exists i :: 0 <= i < |a| && keep(a[i]) && !keep(b[i]) {
        var i :| 0 <= i < |a| && keep(a[i]) && !keep(b[i]);
        if i > 0 {
          assert keep(a[1..][i - 1]) && !keep(b[1..][i - 1]);
        }
      }
    }
  }

  /** `xs.slice(0, n)` for a non-negative `n`: the first `min(n, |xs|)` elements. */
  function Take<T>(xs: seq<T>, n: nat): (r: seq<T>)
    ensures |r| == if n < |xs| then n else |xs|
    ensures forall i :: 0 <= i < |r| ==> r[i] == xs[i]
  {
    if n < |xs| then xs[..n] else xs
  }

  /** The sum of `f` over the elements of `xs`, starting from 0, as a summing `reduce` computes it. */
  function Sum<T>(xs: seq<T>, f: T -> int): (total: int)
    ensures xs == [] ==> total == 0
  {
    if xs == [] then 0 else f(xs[0]) + Sum(xs[1..], f)
  }

  /** A sum of non-negative terms is non-negative. */
  lemma {:induction false} SumNonNegative<T>(xs: seq<T>, f: T -> int)
    requires forall i :: 0 <= i < |xs| ==> f(xs[i]) >= 0
    ensures Sum(xs, f) >= 0
  {
    if xs != [] {
      assert forall i :: 0 <= i < |xs[1..]| ==> f(xs[1..][i]) == f(xs[i + 1]);
      SumNonNegative(xs[1..], f);
      assert f(xs[0]) >= 0;
    }
  }

  lemma {:induction false} SumConcat<T>(a: seq<T>, b: seq<T>, f: T -> int)
    ensures Sum(a + b, f) == Sum(a, f) + Sum(b, f)
  {
    if a == [] {
      assert a + b == b;
    } else {
      assert (a + b)[0] == a[0] && (a + b)[1..] == a[1..] + b;
      SumConcat(a[1..], b, f);
    }
  }
}
