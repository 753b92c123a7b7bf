/** Sums over finite sets, independent of the order in which elements are visited. */
module Sums {
  /** The indices from `lo` up to but not including `hi`. */
  function Range(lo: nat, hi: nat): (r: set<nat>)
    ensures forall j: nat :: j in r <==> lo <= j < hi
    decreases hi
  {
    if hi <= lo then {} else Range(lo, hi - 1) + {hi - 1}
  }

  lemma {:induction false} RangeSize(n: nat)
    ensures |Range(0, n)| == n
  {
    if n > 0 { RangeSize(n - 1); }
  }

  ghost function Sum<T(!new)>(s: set<T>, f: T -> int): int {
    if s == {} then 0 else var x :| x in s; f(x) + Sum(s - {x}, f)
  }

  lemma {:induction false} SumSplit<T(!new)>(s: set<T>, f: T -> int, x: T)
    requires x in s
    ensures Sum(s, f) == f(x) + Sum(s - {x}, f)
  {
    var y :| y in s && Sum(s, f) == f(y) + Sum(s - {y}, f);
    if x != y {
      SumSplit(s - {y}, f, x);
      SumSplit(s - {x}, f, y);
      assert s - {y} - {x} == s - {x} - {y};
    }
  }

  lemma SumInsert<T(!new)>(s: set<T>, f: T -> int, x: T)
    requires x !in s
    ensures Sum(s + {x}, f) == f(x) + Sum(s, f)
  {
    SumSplit(s + {x}, f, x);
    assert s + {x} - {x} == s;
  }

  lemma {:induction false} SumCongruent<T(!new)>(s: set<T>, f: T -> int, g: T -> int)
    requires forall x <- s :: f(x) == g(x)
    ensures Sum(s, f) == Sum(s, g)
  {
    if s != {} {
      var x :| x in s;
      SumSplit(s, f, x);
      SumSplit(s, g, x);
      SumCongruent(s - {x}, f, g);
    }
  }

  /** Changing one summand changes the sum by the same amount. */
  lemma SumChange<T(!new)>(s: set<T>, f: T -> int, g: T -> int, x: T)
    requires x in s && forall y <- s :: y != x ==> f(y) == g(y)
    ensures Sum(s, g) == Sum(s, f) + g(x) - f(x)
  {
    SumSplit(s, f, x);
    SumSplit(s, g, x);
    SumCongruent(s - {x}, f, g);
  }

  lemma {:induction false} SumNegated<T(!new)>(s: set<T>, f: T -> int, g: T -> int)
    requires forall x <- s :: g(x) == -f(x)
    ensures Sum(s, g) == -Sum(s, f)
  {
    if s != {} {
      var x :| x in s;
      SumSplit(s, f, x);
      SumSplit(s, g, x);
      SumNegated(s - {x}, f, g);
    }
  }

  lemma {:induction false} SumOfSums<T(!new)>(s: set<T>, f: T -> int, g: T -> int, h: T -> int)
    requires forall x <- s :: h(x) == f(x) + g(x)
    ensures Sum(s, h) == Sum(s, f) + Sum(s, g)
  {
    if s != {} {
      var x :| x in s;
      SumSplit(s, f, x);
      SumSplit(s, g, x);
      SumSplit(s, h, x);
      SumOfSums(s - {x}, f, g, h);
    }
  }

  lemma {:induction false} SumOfZeros<T(!new)>(s: set<T>, f: T -> int)
    requires forall x <- s :: f(x) == 0
    ensures Sum(s, f) == 0
  {
    if s != {} {
      var x :| x in s;
      SumSplit(s, f, x);
      SumOfZeros(s - {x}, f);
    }
  }

  lemma {:induction false} SumScaled<T(!new)>(s: set<T>, f: T -> int, g: T -> int, k: int)
    requires forall x <- s :: g(x) == k * f(x)
    ensures Sum(s, g) == k * Sum(s, f)
  {
    if s != {} {
      var x :| x in s;
      SumSplit(s, f, x);
      SumSplit(s, g, x);
      SumScaled(s - {x}, f, g, k);
      assert k * f(x) + k * Sum(s - {x}, f) == k * (f(x) + Sum(s - {x}, f));
    }
  }

  lemma {:induction false} SumUnion<T(!new)>(s: set<T>, t: set<T>, f: T -> int)
    requires s !! t
    ensures Sum(s + t, f) == Sum(s, f) + Sum(t, f)
  {
    if t == {} {
      assert s + t == s;
    } else {
      var x :| x in t;
      SumUnion(s, t - {x}, f);
      assert s + t == s + (t - {x}) + {x};
      SumInsert(s + (t - {x}), f, x);
      SumSplit(t, f, x);
    }
  }

  /** A sum with one summand that is not zero. */
  lemma SumOfOne<T(!new)>(s: set<T>, f: T -> int, x: T)
    requires x in s && forall y <- s :: y != x ==> f(y) == 0
    ensures Sum(s, f) == f(x)
  {
    SumSplit(s, f, x);
    SumOfZeros(s - {x}, f);
  }

  lemma SubsetSize<T>(a: set<T>, b: set<T>)
    requires a <= b
    ensures |a| <= |b|
  {
    if a != {} {
      var x :| x in a;
      SubsetSize(a - {x}, b - {x});
    }
  }
}
