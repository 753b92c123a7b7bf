/** Sorted copies of integer lists. */
module Sorting {
  predicate Ascending(s: seq<int>) {
    forall i, j :: 0 <= i < j < |s| ==> s[i] <= s[j]
  }

  function Inserted(s: seq<int>, x: int): seq<int> {
    if s == [] || x <= s[0] then [x] + s else [s[0]] + Inserted(s[1..], x)
  }

  function Sorted(s: seq<int>): seq<int> {
    if s == [] then [] else Inserted(Sorted(s[1..]), s[0])
  }

  lemma HeadAndTail(s: seq<int>)
    requires s != []
    ensures s == [s[0]] + s[1..] && multiset(s) == multiset{s[0]} + multiset(s[1..])
  {
    assert s == [s[0]] + s[1..];
  }

  lemma {:induction false} InsertKeepsElements(s: seq<int>, x: int)
    ensures multiset(Inserted(s, x)) == multiset(s) + multiset{x}
  {
    if s == [] || x <= s[0] {
    } else {
      InsertKeepsElements(s[1..], x);
      HeadAndTail(s);
    }
  }

  lemma {:induction false} InsertKeepsOrder(s: seq<int>, x: int)
    requires Ascending(s)
    ensures Ascending(Inserted(s, x)) && forall y <- Inserted(s, x) :: y == x || y in s
  {
    if s == [] || x <= s[0] {
    } else {
      var t := Inserted(s[1..], x);
      InsertKeepsOrder(s[1..], x);
      forall j | 0 <= j < |t| ensures s[0] <= t[j] {
        assert t[j] in t;
      }
    }
  }

  lemma {:induction false} SortSorts(s: seq<int>)
    ensures Ascending(Sorted(s)) && multiset(Sorted(s)) == multiset(s)
  {
    if s == [] {
    } else {
      SortSorts(s[1..]);
      InsertKeepsOrder(Sorted(s[1..]), s[0]);
      InsertKeepsElements(Sorted(s[1..]), s[0]);
      HeadAndTail(s);
    }
  }

  lemma FirstIsLeast(s: seq<int>, x: int)
    requires Ascending(s) && x in multiset(s)
    ensures s != [] && s[0] <= x
  {
    assert x in s;
  }

  lemma SameHead(a: seq<int>, b: seq<int>)
    requires Ascending(a) && Ascending(b) && multiset(a) == multiset(b) && a != [] && b != []
    ensures a[0] == b[0] && Ascending(a[1..]) && Ascending(b[1..])
  {
    assert a[0] in multiset(a) && b[0] in multiset(b);
    FirstIsLeast(a, b[0]);
    FirstIsLeast(b, a[0]);
  }

  lemma {:induction false} SortedFormIsUnique(a: seq<int>, b: seq<int>)
    requires Ascending(a) && Ascending(b) && multiset(a) == multiset(b)
    ensures a == b
  {
    hide Ascending;
    if a == [] || b == [] {
      assert |multiset(a)| == |a| && |multiset(b)| == |b|;
    } else {
      SameHead(a, b);
      HeadAndTail(a);
      HeadAndTail(b);
      SameTails(multiset(a[1..]), multiset(b[1..]), a[0]);
      SortedFormIsUnique(a[1..], b[1..]);
    }
  }

  lemma SameTails(m: multiset<int>, n: multiset<int>, x: int)
    requires multiset{x} + m == multiset{x} + n
    ensures m == n
  {
    assert m == (multiset{x} + m) - multiset{x};
    assert n == (multiset{x} + n) - multiset{x};
  }

  // ---------- Rank ----------

  /** How many elements exceed `x`. */
  function Above(s: seq<int>, x: int): nat {
    if s == [] then 0 else Above(s[1..], x) + (if s[0] > x then 1 else 0)
  }

  lemma {:induction false} AboveInserted(s: seq<int>, y: int, x: int)
    ensures Above(Inserted(s, y), x) == Above(s, x) + (if y > x then 1 else 0)
  {
    if s == [] || y <= s[0] {
      assert ([y] + s)[1..] == s;
    } else {
      AboveInserted(s[1..], y, x);
      assert ([s[0]] + Inserted(s[1..], y))[1..] == Inserted(s[1..], y);
    }
  }

  lemma {:induction false} AboveSorted(s: seq<int>, x: int)
    ensures Above(Sorted(s), x) == Above(s, x)
  {
    if s != [] {
      AboveSorted(s[1..], x);
      AboveInserted(Sorted(s[1..]), s[0], x);
    }
  }

  lemma {:induction false} AboveInOrder(s: seq<int>, i: nat)
    requires Ascending(s) && i < |s|
    ensures Above(s, s[i]) <= |s| - 1 - i
  {
    if i == 0 {
      AboveAtMost(s[1..], s[0]);
    } else {
      assert Ascending(s[1..]) && s[1..][i - 1] == s[i];
      AboveInOrder(s[1..], i - 1);
    }
  }

  lemma {:induction false} AboveOrAtInOrder(s: seq<int>, i: nat)
    requires Ascending(s) && i < |s|
    ensures Above(s, s[i] - 1) >= |s| - i
  {
    if i == 0 {
      AllAbove(s, s[0] - 1);
    } else {
      assert Ascending(s[1..]) && s[1..][i - 1] == s[i];
      AboveOrAtInOrder(s[1..], i - 1);
    }
  }

  lemma {:induction false} AllAbove(s: seq<int>, x: int)
    requires forall i :: 0 <= i < |s| ==> s[i] > x
    ensures Above(s, x) == |s|
  {
    if s != [] { AllAbove(s[1..], x); }
  }

  lemma {:induction false} AboveAtMost(s: seq<int>, x: int)
    ensures Above(s, x) <= |s|
  {
    if s != [] { AboveAtMost(s[1..], x); }
  }

  lemma {:induction false} SortedLength(s: seq<int>)
    ensures |Sorted(s)| == |s|
  {
    SortSorts(s);
    assert |multiset(Sorted(s))| == |multiset(s)|;
  }
}
