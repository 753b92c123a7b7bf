/** Drawing a bracket: the first `B` steps of an in-place shuffle of 0..A-1.  Random numbers are the list
    of places chosen, one per step, each anywhere from the step on. */
module Sampling {
  import opened Options
  import opened Sums

  predicate LegalChoices(total: nat, choices: seq<nat>) {
    |choices| <= total && forall i :: 0 <= i < |choices| ==> i <= choices[i] < total
  }

  /** `count` ids drawn from 0..total-1 without repetition. */
  predicate IsDraw(total: nat, picked: seq<nat>) {
    && |picked| <= total
    && (forall i :: 0 <= i < |picked| ==> picked[i] < total)
    && forall i, j :: 0 <= i < j < |picked| ==> picked[i] != picked[j]
  }

  function Swapped(s: seq<nat>, i: nat, j: nat): seq<nat>
    requires i < |s| && j < |s|
  {
    s[i := s[j]][j := s[i]]
  }

  /** The array after the first `i` steps. */
  function Shuffled(total: nat, choices: seq<nat>, i: nat): (s: seq<nat>)
    requires LegalChoices(total, choices) && i <= |choices|
    ensures |s| == total
  {
    if i == 0 then seq(total, k => k) else Swapped(Shuffled(total, choices, i - 1), i - 1, choices[i - 1])
  }

  function Pick(total: nat, choices: seq<nat>): (picked: seq<nat>)
    requires LegalChoices(total, choices)
    ensures |picked| == |choices|
  {
    Shuffled(total, choices, |choices|)[..|choices|]
  }

  method PickRandomNumbers(total: nat, choices: seq<nat>) returns (picked: seq<nat>)
    requires LegalChoices(total, choices)
    ensures picked == Pick(total, choices)
  {
    var arr := new nat[total](k => k);
    assert arr[..] == Shuffled(total, choices, 0);
    for i := 0 to |choices|
      invariant arr[..] == Shuffled(total, choices, i)
    {
      var j := choices[i];
      arr[i], arr[j] := arr[j], arr[i];
      assert arr[..] == Swapped(Shuffled(total, choices, i), i, j);
    }
    return arr[..|choices|];
  }

  /** Asking for more ids than there are is an error. */
  method GetRandomItemIds(total: nat, roundCount: nat, choices: seq<nat>) returns (picked: Option<seq<nat>>)
    requires |choices| == roundCount && (roundCount <= total ==> LegalChoices(total, choices))
    ensures picked.Some? <==> roundCount <= total
    ensures picked.Some? ==> |picked.value| == roundCount && IsDraw(total, picked.value)
  {
    if total < roundCount { return None; }
    var ids := PickRandomNumbers(total, choices);
    PickIsADraw(total, choices);
    return Some(ids);
  }

  // ---------- Exactness ----------

  predicate IsArrangement(total: nat, s: seq<nat>) {
    |s| == total && IsDraw(total, s)
  }

  lemma {:induction false} StepsArrange(total: nat, choices: seq<nat>, i: nat)
    requires LegalChoices(total, choices) && i <= |choices|
    ensures IsArrangement(total, Shuffled(total, choices, i))
  {
    if i > 0 { StepsArrange(total, choices, i - 1); }
  }

  /** Places before a step are left alone from then on. */
  lemma {:induction false} PrefixIsKept(total: nat, choices: seq<nat>, i: nat, m: nat, k: nat)
    requires LegalChoices(total, choices) && k < i <= m <= |choices|
    ensures Shuffled(total, choices, m)[k] == Shuffled(total, choices, i)[k]
    decreases m
  {
    if i < m { PrefixIsKept(total, choices, i, m - 1, k); }
  }

  lemma PickIsADraw(total: nat, choices: seq<nat>)
    requires LegalChoices(total, choices)
    ensures IsDraw(total, Pick(total, choices))
  {
    StepsArrange(total, choices, |choices|);
  }

  /** Each step fixes the id it moves to the front. */
  lemma PickedAt(total: nat, choices: seq<nat>, k: nat)
    requires LegalChoices(total, choices) && k < |choices|
    ensures Pick(total, choices)[k] == Shuffled(total, choices, k)[choices[k]]
  {
    PrefixIsKept(total, choices, k + 1, |choices|, k);
  }

  lemma {:induction false} ShuffleDependsOnPrefix(total: nat, a: seq<nat>, b: seq<nat>, i: nat)
    requires LegalChoices(total, a) && LegalChoices(total, b) && i <= |a| && i <= |b| && a[..i] == b[..i]
    ensures Shuffled(total, a, i) == Shuffled(total, b, i)
  {
    if i > 0 {
      assert a[i - 1] == a[..i][i - 1] == b[..i][i - 1] == b[i - 1];
      assert a[..i - 1] == a[..i][..i - 1] && b[..i - 1] == b[..i][..i - 1];
      ShuffleDependsOnPrefix(total, a, b, i - 1);
    }
  }

  /** What place `j` holds before step `k`: its own number, unless a step chose it, which leaves there what
      the step's own place held. */
  function Holds(choices: seq<nat>, k: nat, j: nat): nat
    requires k <= |choices|
  {
    if k == 0 then j else if choices[k - 1] == j then Holds(choices, k - 1, k - 1) else Holds(choices, k - 1, j)
  }

  lemma {:induction false} ShuffledHolds(total: nat, choices: seq<nat>, k: nat, j: nat)
    requires LegalChoices(total, choices) && k <= |choices| && k <= j < total
    ensures Shuffled(total, choices, k)[j] == Holds(choices, k, j)
  {
    if k > 0 {
      ShuffledHolds(total, choices, k - 1, k - 1);
      ShuffledHolds(total, choices, k - 1, j);
    }
  }

  /** The k-th id drawn is the one the chosen place holds when the k-th choice is made. */
  lemma PickFollowsChoices(total: nat, choices: seq<nat>, k: nat)
    requires LegalChoices(total, choices) && k < |choices|
    ensures Pick(total, choices)[k] == Holds(choices, k, choices[k])
  {
    PickedAt(total, choices, k);
    ShuffledHolds(total, choices, k, choices[k]);
  }

  /** Different choices draw different brackets. */
  lemma PickIsInjective(total: nat, a: seq<nat>, b: seq<nat>)
    requires LegalChoices(total, a) && LegalChoices(total, b) && Pick(total, a) == Pick(total, b)
    ensures a == b
  {
    SameChoices(total, a, b, |a|);
    assert a[..|a|] == a && b[..|b|] == b;
  }

  lemma {:induction false} SameChoices(total: nat, a: seq<nat>, b: seq<nat>, i: nat)
    requires LegalChoices(total, a) && LegalChoices(total, b) && Pick(total, a) == Pick(total, b) && i <= |a|
    ensures |a| == |b| && a[..i] == b[..i]
  {
    assert |Pick(total, a)| == |Pick(total, b)|;
    if i > 0 {
      SameChoices(total, a, b, i - 1);
      ShuffleDependsOnPrefix(total, a, b, i - 1);
      PickedAt(total, a, i - 1);
      PickedAt(total, b, i - 1);
      StepsArrange(total, a, i - 1);
      assert a[i - 1] == b[i - 1];
      assert a[..i] == a[..i - 1] + [a[i - 1]] && b[..i] == b[..i - 1] + [b[i - 1]];
    }
  }

  /** Every draw is reached: these are the choices that make it. */
  lemma {:induction false} PickIsOnto(total: nat, picked: seq<nat>) returns (choices: seq<nat>)
    requires IsDraw(total, picked)
    ensures LegalChoices(total, choices) && Pick(total, choices) == picked
  {
    if picked == [] {
      choices := [];
    } else {
      var n := |picked| - 1;
      var shorter := PickIsOnto(total, picked[..n]);
      var s := Shuffled(total, shorter, n);
      StepsArrange(total, shorter, n);
      var j := ArrangementHas(total, s, picked[n]);
      assert s[..n] == picked[..n];
      assert forall k :: 0 <= k < n ==> s[k] == s[..n][k] == picked[k];
      assert j >= n;
      choices := shorter + [j];
      assert choices[..n] == shorter[..n];
      ShuffleDependsOnPrefix(total, shorter, choices, n);
      forall k | 0 <= k < |picked| ensures Pick(total, choices)[k] == picked[k] {
        PickedAt(total, choices, k);
        if k < n {
          PickedAt(total, shorter, k);
          assert choices[..k] == shorter[..k];
          ShuffleDependsOnPrefix(total, shorter, choices, k);
        }
      }
    }
  }

  /** An arrangement of 0..total-1 has every number somewhere. */
  lemma ArrangementHas(total: nat, s: seq<nat>, x: nat) returns (at: nat)
    requires IsArrangement(total, s) && x < total
    ensures at < total && s[at] == x
  {
    if x !in s {
      var values := set i | 0 <= i < total :: s[i];
      ValuesCount(s, total);
      RangeSize(total);
      assert values <= Range(0, total) - {x};
      SubsetSize(values, Range(0, total) - {x});
      assert false;
    }
    at :| 0 <= at < total && s[at] == x;
  }

  lemma {:induction false} ValuesCount(s: seq<nat>, n: nat)
    requires n <= |s| && forall i, j :: 0 <= i < j < |s| ==> s[i] != s[j]
    ensures |set i | 0 <= i < n :: s[i]| == n
  {
    var values := set i | 0 <= i < n :: s[i];
    if n == 0 {
      assert values == {};
    } else {
      ValuesCount(s, n - 1);
      assert values == (set i | 0 <= i < n - 1 :: s[i]) + {s[n - 1]};
    }
  }
}
