/** Pari-mutuel rewards in integer arithmetic: 99 percent of the prize, split in proportion to the winning
    bets, each share rounded down. */
module Rewards {
  import opened Options

  /** BigInt division, which truncates toward zero. */
  function TruncDiv(a: int, b: int): int
    requires b > 0
  {
    if a >= 0 then a / b else -(-a / b)
  }

  /** The quotient is the exact one without its fraction. */
  lemma TruncBounds(a: int, b: int)
    requires b > 0
    ensures a >= 0 ==> b * TruncDiv(a, b) <= a < b * TruncDiv(a, b) + b
    ensures a < 0 ==> b * TruncDiv(a, b) - b < a <= b * TruncDiv(a, b)
  {
    if a < 0 {
      var q := -a / b;
      assert b * q <= -a < b * q + b;
      assert b * (-q) == -(b * q);
    }
  }

  /** None stands for the null result; a missing or empty amount is None too.  The reward is the bettor's
      exact part of 99 percent of the prize, without its fraction. */
  function CalculateBettingReward(totalPrize: Option<int>, amount: int,
      winItemTotal: Option<int>): (reward: Option<int>)
    ensures reward.Some? <==> totalPrize.Some? && winItemTotal.Some? && amount > 0 && winItemTotal.value > 0
    ensures reward.Some? ==>
      var exact, d := 99 * totalPrize.value * amount, 100 * winItemTotal.value;
      if exact >= 0 then d * reward.value <= exact < d * reward.value + d
      else d * reward.value - d < exact <= d * reward.value
  {
    if totalPrize.None? || winItemTotal.None? then None
    else if amount <= 0 || winItemTotal.value <= 0 then None
    else
      TruncBounds(99 * totalPrize.value * amount, 100 * winItemTotal.value);
      Some(TruncDiv(99 * totalPrize.value * amount, 100 * winItemTotal.value))
  }

  function Reward(prize: int, bet: int, total: int): int
    requires bet > 0 && total > 0
  {
    CalculateBettingReward(Some(prize), bet, Some(total)).value
  }

  predicate AllPositive(bets: seq<int>) {
    forall i :: 0 <= i < |bets| ==> bets[i] > 0
  }

  function Total(bets: seq<int>): int {
    if bets == [] then 0 else Total(bets[..|bets| - 1]) + bets[|bets| - 1]
  }

  /** What all bets on the winning item are paid. */
  function Rewarded(prize: int, bets: seq<int>, total: int): int
    requires total > 0 && AllPositive(bets)
  {
    if bets == [] then 0 else Rewarded(prize, bets[..|bets| - 1], total) + Reward(prize, bets[|bets| - 1], total)
  }

  lemma Scaled(a: int, b: int, k: int)
    requires k > 0 && a < b
    ensures k * a < k * b
  {
    assert k * b - k * a == k * (b - a);
  }

  lemma Distributes(k: int, a: int, b: int)
    ensures k * (a + b) == k * a + k * b
  {
  }

  /** A share is the whole part of its exact value. */
  lemma ShareBounds(prize: int, bet: int, total: int, n: int, d: int)
    requires prize >= 0 && bet > 0 && total > 0 && n == 99 * prize && d == 100 * total
    ensures var r := Reward(prize, bet, total); d * r <= n * bet < d * r + d
  {
    assert n * bet >= 0;
  }

  lemma {:induction false} SharesBounds(prize: int, bets: seq<int>, total: int, n: int, d: int)
    requires prize >= 0 && total > 0 && AllPositive(bets) && n == 99 * prize && d == 100 * total
    ensures d * Rewarded(prize, bets, total) <= n * Total(bets)
    ensures bets != [] ==> n * Total(bets) < d * (Rewarded(prize, bets, total) + |bets|)
  {
    hide Reward;
    if bets == [] {
    } else {
      var rest, last := bets[..|bets| - 1], bets[|bets| - 1];
      SharesBounds(prize, rest, total, n, d);
      ShareBounds(prize, last, total, n, d);
      var r0, r1 := Rewarded(prize, rest, total), Reward(prize, last, total);
      Distributes(d, r0, r1);
      Distributes(d, r1, 1);
      Distributes(d, r0 + |rest|, r1 + 1);
      Distributes(n, Total(rest), last);
      assert r0 + |rest| + (r1 + 1) == Rewarded(prize, bets, total) + |bets|;
    }
  }

  /** Conservation: when the winning bets make up the item's total, the rewards never exceed 99 percent of
      the prize, and fall short of it by less than one unit per bet. */
  lemma RewardsConservePrize(prize: int, bets: seq<int>)
    requires prize >= 0 && bets != [] && AllPositive(bets)
    ensures Total(bets) > 0
    ensures var paid := Rewarded(prize, bets, Total(bets));
      paid <= 99 * prize / 100 && 99 * prize - 100 * paid < 100 * |bets|
  {
    hide Reward;
    TotalIsPositive(bets);
    var total, n := Total(bets), 99 * prize;
    var paid := Rewarded(prize, bets, total);
    SharesBounds(prize, bets, total, n, 100 * total);
    assert 100 * total * paid == total * (100 * paid) && n * total == total * n;
    assert 100 * total * (paid + |bets|) == total * (100 * (paid + |bets|));
    if n < 100 * paid { Scaled(n, 100 * paid, total); }
    if 100 * (paid + |bets|) < n { Scaled(100 * (paid + |bets|), n, total); }
  }

  lemma {:induction false} TotalIsPositive(bets: seq<int>)
    requires bets != [] && AllPositive(bets)
    ensures Total(bets) > 0
  {
    if |bets| == 1 {
      assert Total(bets) == Total(bets[..0]) + bets[0];
    } else {
      TotalIsPositive(bets[..|bets| - 1]);
    }
  }

  /** Splitting a bet never gains, and loses at most one unit. */
  lemma SplittingNeverGains(prize: int, a: int, b: int, total: int)
    requires prize >= 0 && a > 0 && b > 0 && total > 0
    ensures var whole, parts := Reward(prize, a + b, total), Reward(prize, a, total) + Reward(prize, b, total);
      parts <= whole <= parts + 1
  {
    hide Reward;
    var n, d := 99 * prize, 100 * total;
    var ra, rb, rw := Reward(prize, a, total), Reward(prize, b, total), Reward(prize, a + b, total);
    ShareBounds(prize, a, total, n, d);
    ShareBounds(prize, b, total, n, d);
    ShareBounds(prize, a + b, total, n, d);
    Distributes(n, a, b);
    Distributes(d, ra, rb);
    Distributes(d, rw, 1);
    Distributes(d, ra + rb, 2);
    if rw + 1 < ra + rb { Scaled(rw + 1, ra + rb, d); }
    if ra + rb + 2 < rw { Scaled(ra + rb + 2, rw, d); }
  }
}
