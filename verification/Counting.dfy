/** Counting over lists: the iterator idiom `filter(..).count()` of the source. */
module Counting {

  function Count<T>(xs: seq<T>, p: T -> bool): nat {
    if xs == [] then 0
    else Count(xs[..|xs| - 1], p) + if p(xs[|xs| - 1]) then 1 else 0
  }

  function Sum<T>(xs: seq<T>, g: T -> nat): nat {
    if xs == [] then 0 else Sum(xs[..|xs| - 1], g) + g(xs[|xs| - 1])
  }

  lemma CountAppend<T>(xs: seq<T>, x: T, p: T -> bool)
    ensures Count(xs + [x], p) == Count(xs, p) + if p(x) then 1 else 0
  {
    assert (xs + [x])[..|xs|] == xs;
  }

  lemma {:induction false} SumConcat<T>(xs: seq<T>, ys: seq<T>, g: T -> nat)
    ensures Sum(xs + ys, g) == Sum(xs, g) + Sum(ys, g)
  {
    if ys == [] {
      assert xs + ys == xs;
    } else {
      var y0 := ys[..|ys| - 1];
      assert (xs + ys)[..|xs + ys| - 1] == xs + y0;
      SumConcat(xs, y0, g);
    }
  }

  lemma MultisetCancel<T>(a: multiset<T>, b: multiset<T>, t: multiset<T>)
    requires a + t == b + t
    ensures a == b
  {
    assert a == (a + t) - t;
    assert b == (b + t) - t;
  }

  /** A sum over a list depends only on its multiset. */
  lemma {:induction false} SumPermutation<T>(xs: seq<T>, ys: seq<T>, g: T -> nat)
    requires multiset(xs) == multiset(ys)
    ensures Sum(xs, g) == Sum(ys, g)
  {
    if xs == [] {
      assert |multiset(ys)| == 0;
    } else {
      var x, x0 := xs[|xs| - 1], xs[..|xs| - 1];
      assert xs == x0 + [x];
      assert x in multiset(ys);
      var j :| 0 <= j < |ys| && ys[j] == x;
      assert ys == ys[..j] + [x] + ys[j + 1..];
      var y0 := ys[..j] + ys[j + 1..];
      assert multiset(xs) == multiset(x0) + multiset{x};
      assert multiset(ys) == multiset(y0) + multiset{x};
      MultisetCancel(multiset(x0), multiset(y0), multiset{x});
      SumPermutation(x0, y0, g);
      SumConcat(ys[..j] + [x], ys[j + 1..], g);
      SumConcat(ys[..j], [x], g);
      SumConcat(ys[..j], ys[j + 1..], g);
      assert [x][..0] == [];
    }
  }

  function Indicator<T>(p: T -> bool): T -> nat {
    x => if p(x) then 1 else 0
  }

  lemma {:induction false} CountIsSum<T>(xs: seq<T>, p: T -> bool)
    ensures Count(xs, p) == Sum(xs, Indicator(p))
  {
    if xs != [] { CountIsSum(xs[..|xs| - 1], p); }
  }

  lemma CountConcat<T>(xs: seq<T>, ys: seq<T>, q: T -> bool)
    ensures Count(xs + ys, q) == Count(xs, q) + Count(ys, q)
  {
    CountIsSum(xs, q);
    CountIsSum(ys, q);
    CountIsSum(xs + ys, q);
    SumConcat(xs, ys, Indicator(q));
  }

  lemma CountPermutation<T>(xs: seq<T>, ys: seq<T>, p: T -> bool)
    requires multiset(xs) == multiset(ys)
    ensures Count(xs, p) == Count(ys, p)
  {
    CountIsSum(xs, p);
    CountIsSum(ys, p);
    SumPermutation(xs, ys, Indicator(p));
  }

  lemma {:induction false} CountAtMost<T>(xs: seq<T>, p: T -> bool)
    ensures Count(xs, p) <= |xs|
    ensures Count(xs, p) == |xs| <==> forall i :: 0 <= i < |xs| ==> p(xs[i])
  {
    if xs != [] {
      var x0 := xs[..|xs| - 1];
      CountAtMost(x0, p);
      assert forall i :: 0 <= i < |x0| ==> x0[i] == xs[i];
    }
  }

  lemma {:induction false} CountPositive<T>(xs: seq<T>, p: T -> bool)
    ensures Count(xs, p) > 0 <==> exists i :: 0 <= i < |xs| && p(xs[i])
  {
    if xs != [] {
      var x0 := xs[..|xs| - 1];
      CountPositive(x0, p);
      if i :| 0 <= i < |xs| && p(xs[i]) {
        if i < |x0| { assert x0[i] == xs[i]; }
      }
    }
  }

  /** Weaker predicates count more. */
  lemma {:induction false} CountMonotone<T>(xs: seq<T>, p: T -> bool, q: T -> bool)
    requires forall i :: 0 <= i < |xs| && p(xs[i]) ==> q(xs[i])
    ensures Count(xs, p) <= Count(xs, q)
  {
    if xs != [] {
      var x0 := xs[..|xs| - 1];
      assert forall i :: 0 <= i < |x0| ==> x0[i] == xs[i];
      CountMonotone(x0, p, q);
    }
  }

  ghost function Image<T, K>(xs: seq<T>, p: T -> bool, key: T -> K): set<K> {
    set i | 0 <= i < |xs| && p(xs[i]) :: key(xs[i])
  }

  /** When selected elements at different places have different keys, there are as
      many keys as selected elements. */
  lemma {:induction false} CountDistinct<T, K>(xs: seq<T>, p: T -> bool, key: T -> K)
    requires forall i, j :: 0 <= i < j < |xs| && p(xs[i]) && p(xs[j]) ==> key(xs[i]) != key(xs[j])
    ensures |Image(xs, p, key)| == Count(xs, p)
  {
    if xs == [] {
      assert Image(xs, p, key) == {};
    } else {
      var x0, x := xs[..|xs| - 1], xs[|xs| - 1];
      assert forall i :: 0 <= i < |x0| ==> x0[i] == xs[i];
      CountDistinct(x0, p, key);
      if p(x) {
        assert Image(xs, p, key) == Image(x0, p, key) + {key(x)};
        assert key(x) !in Image(x0, p, key);
      } else {
        assert Image(xs, p, key) == Image(x0, p, key);
      }
    }
  }
}
