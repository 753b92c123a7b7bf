/** What the replay of a bracket counts, in closed form. */
module BracketLaws {
  import opened Sums
  import opened Bracket

  predicate Distinct(ids: seq<int>) {
    forall i, j :: 0 <= i < j < |ids| ==> ids[i] != ids[j]
  }

  /** The exponent of 2 in `p`. */
  function TwoAdic(p: nat): nat
    requires p > 0
  {
    if p % 2 == 1 then 0 else 1 + TwoAdic(p / 2)
  }

  function Log2(n: nat): nat
    requires IsPowerOfTwo(n)
  {
    if n == 1 then 0 else 1 + Log2(n / 2)
  }

  // ---------- Counting ----------

  lemma {:induction false} CountsOfSum(a: seq<Game>, b: seq<Game>, id: int)
    ensures Wins(a + b, id) == Wins(a, id) + Wins(b, id)
    ensures Losses(a + b, id) == Losses(a, id) + Losses(b, id)
  {
    if b == [] {
      assert a + b == a;
    } else {
      CountsOfSum(a, b[..|b| - 1], id);
      assert (a + b)[..|a + b| - 1] == a + b[..|b| - 1];
    }
  }

  lemma {:induction false} WinsNever(games: seq<Game>, id: int)
    requires forall i :: 0 <= i < |games| ==> games[i].winner != id
    ensures Wins(games, id) == 0
  {
    if games != [] { WinsNever(games[..|games| - 1], id); }
  }

  lemma {:induction false} WinsOnce(games: seq<Game>, id: int, at: nat)
    requires at < |games| && forall i :: 0 <= i < |games| ==> (games[i].winner == id <==> i == at)
    ensures Wins(games, id) == 1
  {
    if at == |games| - 1 {
      WinsNever(games[..|games| - 1], id);
    } else {
      WinsOnce(games[..|games| - 1], id, at);
    }
  }

  lemma {:induction false} LosesNever(games: seq<Game>, id: int)
    requires forall i :: 0 <= i < |games| ==> games[i].loser != id
    ensures Losses(games, id) == 0
  {
    if games != [] { LosesNever(games[..|games| - 1], id); }
  }

  lemma {:induction false} LosesOnce(games: seq<Game>, id: int, at: nat)
    requires at < |games| && forall i :: 0 <= i < |games| ==> (games[i].loser == id <==> i == at)
    ensures Losses(games, id) == 1
  {
    if at == |games| - 1 {
      LosesNever(games[..|games| - 1], id);
    } else {
      LosesOnce(games[..|games| - 1], id, at);
    }
  }

  lemma {:induction false} PlayersAreListed(round: seq<int>)
    ensures forall g <- Games(round) :: g.winner in round && g.loser in round
    decreases |round|
  {
    if |round| > 1 {
      PlayersAreListed(Winners(round));
    }
  }

  lemma HalfIsPowerOfTwo(n: nat)
    requires IsPowerOfTwo(n) && n > 1
    ensures n % 2 == 0 && IsPowerOfTwo(n / 2) && Log2(n) == 1 + Log2(n / 2)
  {
  }

  lemma RoundCounts(round: seq<int>, p: nat)
    requires Distinct(round) && |round| % 2 == 0 && p < |round|
    ensures Wins(RoundGames(round), round[p]) == 1 - p % 2 && Losses(RoundGames(round), round[p]) == p % 2
  {
    var games, id := RoundGames(round), round[p];
    forall i | 0 <= i < |games|
      ensures games[i].winner == id <==> 2 * i == p
      ensures games[i].loser == id <==> 2 * i + 1 == p
    {
    }
    if p % 2 == 0 {
      WinsOnce(games, id, p / 2);
      LosesNever(games, id);
    } else {
      WinsNever(games, id);
      LosesOnce(games, id, p / 2);
    }
  }

  // ---------- The laws ----------

  /** The position law: the item at place p > 0 wins exactly as often as 2 divides p and loses once; the
      item at place 0 wins every round. */
  lemma {:induction false} PositionLaw(ids: seq<int>, p: nat)
    requires IsPowerOfTwo(|ids|) && Distinct(ids) && p < |ids|
    ensures Wins(Games(ids), ids[p]) == if p == 0 then Log2(|ids|) else TwoAdic(p)
    ensures Losses(Games(ids), ids[p]) == if p == 0 then 0 else 1
    decreases |ids|
  {
    if |ids| == 1 {
    } else {
      HalfIsPowerOfTwo(|ids|);
      PositionStep(ids, p);
      if p % 2 == 0 {
        PositionLaw(Winners(ids), p / 2);
      }
    }
  }

  /** The first round settles an odd place's score, and moves an even place on. */
  lemma PositionStep(ids: seq<int>, p: nat)
    requires Distinct(ids) && |ids| % 2 == 0 && p < |ids|
    ensures p % 2 == 1 ==> Wins(Games(ids), ids[p]) == 0 && Losses(Games(ids), ids[p]) == 1
    ensures p % 2 == 0 ==> Wins(Games(ids), ids[p]) == 1 + Wins(Games(Winners(ids)), Winners(ids)[p / 2])
    ensures p % 2 == 0 ==> Losses(Games(ids), ids[p]) == Losses(Games(Winners(ids)), Winners(ids)[p / 2])
  {
    hide Games, Wins, Losses, RoundGames, Winners;
    var next := Winners(ids);
    FirstRound(ids);
    CountsOfSum(RoundGames(ids), Games(next), ids[p]);
    RoundCounts(ids, p);
    if p % 2 == 0 {
      assert next[p / 2] == ids[p];
    } else {
      assert ids[p] !in next;
      PlayersAreListed(next);
      WinsNever(Games(next), ids[p]);
      LosesNever(Games(next), ids[p]);
    }
  }

  /** The last game is the final: the first item against the one in the middle, which are the first and
      second ids an event's bytes are read for. */
  lemma {:induction false} LastGameIsTheFinal(ids: seq<int>)
    requires IsPowerOfTwo(|ids|) && |ids| >= 2
    ensures Games(ids) != [] && Games(ids)[|Games(ids)| - 1] == Game(ids[0], ids[|ids| / 2])
    decreases |ids|
  {
    hide Games, RoundGames, Winners;
    FirstRound(ids);
    HalfIsPowerOfTwo(|ids|);
    if |ids| == 2 {
      NoGames(Winners(ids));
    } else {
      LastGameIsTheFinal(Winners(ids));
    }
  }

  lemma {:induction false} GameCount(ids: seq<int>)
    requires IsPowerOfTwo(|ids|)
    ensures |Games(ids)| == |ids| - 1
    decreases |ids|
  {
    hide Games, RoundGames, Winners;
    if |ids| == 1 {
      NoGames(ids);
    } else {
      FirstRound(ids);
      HalfIsPowerOfTwo(|ids|);
      GameCount(Winners(ids));
    }
  }

  predicate SamePair(g: Game, h: Game) {
    (g.winner == h.winner && g.loser == h.loser) || (g.winner == h.loser && g.loser == h.winner)
  }

  /** Distinct items never meet themselves, and no two of them meet twice. */
  lemma {:induction false} NoPairMeetsTwice(ids: seq<int>, i: nat, j: nat)
    requires Distinct(ids) && i <= j < |Games(ids)|
    ensures Games(ids)[i].winner != Games(ids)[i].loser
    ensures i < j ==> !SamePair(Games(ids)[i], Games(ids)[j])
    decreases |ids|
  {
    hide Games, RoundGames, Winners;
    var first, next := RoundGames(ids), Winners(ids);
    if |ids| <= 1 { NoGames(ids); } else { FirstRound(ids); }
    if i >= |first| {
      NoPairMeetsTwice(next, i - |first|, j - |first|);
    } else if j >= |first| {
      PlayersAreListed(next);
      assert Games(ids)[j] == Games(next)[j - |first|];
      assert ids[2 * i + 1] !in next;
    }
  }

  ghost function WinsBy(items: map<int, ItemUpdate>): int -> int {
    id => if id in items then items[id].wins else 0
  }

  ghost function EntriesBy(items: map<int, ItemUpdate>): int -> int {
    id => if id in items then items[id].totalMatchEntries else 0
  }

  lemma {:induction false} CountsAddUp(games: seq<Game>, ids: set<int>)
    requires forall g <- games :: g.winner in ids && g.loser in ids
    ensures Sum(ids, id => Wins(games, id)) == |games| && Sum(ids, id => Losses(games, id)) == |games|
  {
    if games == [] {
      SumOfZeros(ids, id => Wins(games, id));
      SumOfZeros(ids, id => Losses(games, id));
    } else {
      var rest, g := games[..|games| - 1], games[|games| - 1];
      CountsAddUp(rest, ids);
      SumChange(ids, id => Wins(rest, id), id => Wins(games, id), g.winner);
      SumChange(ids, id => Losses(rest, id), id => Losses(games, id), g.loser);
    }
  }

  function TwoTo(k: nat): nat {
    if k == 0 then 1 else 2 * TwoTo(k - 1)
  }

  /** A bracket replays exactly when its size is two to some power, and then takes that many rounds. */
  lemma {:induction false} PowersOfTwo(n: nat)
    ensures IsPowerOfTwo(n) <==> exists k: nat :: TwoTo(k) == n
    ensures IsPowerOfTwo(n) ==> TwoTo(Log2(n)) == n
  {
    if n <= 1 {
      assert TwoTo(0) == 1;
      if k: nat :| TwoTo(k) == n { NotZero(k); }
    } else {
      PowersOfTwo(n / 2);
      if k: nat :| TwoTo(k) == n { assert k > 0 && TwoTo(k - 1) == n / 2; }
      if n % 2 == 0 {
        if k: nat :| TwoTo(k) == n / 2 { assert TwoTo(k + 1) == n; }
      }
    }
  }

  lemma {:induction false} NotZero(k: nat)
    ensures TwoTo(k) > 0
  {
    if k > 0 { NotZero(k - 1); }
  }

  /** The totals of one replay: n - 1 matches, as many wins, and twice as many entries, all signed. */
  lemma ReplayTotals(ids: seq<int>, t: nat, first: int, second: int, sign: int)
    requires IsPowerOfTwo(|ids|)
    ensures var stats := StatsOf(ids, t, first, second, sign);
      && |stats.matches| == |ids| - 1
      && Sum(stats.items.Keys, WinsBy(stats.items)) == sign * (|ids| - 1)
      && Sum(stats.items.Keys, EntriesBy(stats.items)) == sign * (2 * (|ids| - 1))
  {
    hide Games, Wins, Losses, PairRow, FirstSeen, IsPowerOfTwo;
    var stats := StatsOf(ids, t, first, second, sign);
    GameCount(ids);
    PlayersAreListed(ids);
    TotalsOf(Games(ids), stats.items, sign);
  }

  lemma TotalsOf(games: seq<Game>, items: map<int, ItemUpdate>, sign: int)
    requires forall g <- games :: g.winner in items && g.loser in items
    requires forall id <- items ::
      && items[id].wins == sign * Wins(games, id)
      && items[id].totalMatchEntries == sign * (Wins(games, id) + Losses(games, id))
    ensures Sum(items.Keys, WinsBy(items)) == sign * |games|
    ensures Sum(items.Keys, EntriesBy(items)) == sign * (2 * |games|)
  {
    hide Wins, Losses;
    CountsAddUp(games, items.Keys);
    SumScaled(items.Keys, id => Wins(games, id), WinsBy(items), sign);
    SumOfSums(items.Keys, id => Wins(games, id), id => Losses(games, id), id => Wins(games, id) + Losses(games, id));
    SumScaled(items.Keys, id => Wins(games, id) + Losses(games, id), EntriesBy(items), sign);
  }

  /** The rows of one replay name pairwise different pairs of items, low before high, each with one win. */
  lemma RowsNameEachPairOnce(ids: seq<int>, t: nat, first: int, second: int, sign: int, i: nat, j: nat)
    requires Distinct(ids) && i < j < |Games(ids)|
    ensures var rows := StatsOf(ids, t, first, second, sign).matches;
      && (rows[i].itemLowId, rows[i].itemHighId) != (rows[j].itemLowId, rows[j].itemHighId)
      && rows[i].itemLowId < rows[i].itemHighId
      && rows[i].lowWins + rows[i].highWins == rows[i].totalMatches == sign
  {
    NoPairMeetsTwice(ids, i, j);
  }

  function NegatedItem(r: ItemUpdate): ItemUpdate {
    r.(firstCount := -r.firstCount, secondCount := -r.secondCount, wins := -r.wins,
       tournamentEntries := -r.tournamentEntries, totalMatchEntries := -r.totalMatchEntries)
  }

  function NegatedMatch(r: MatchUpdate): MatchUpdate {
    r.(lowWins := -r.lowWins, highWins := -r.highWins, totalMatches := -r.totalMatches)
  }

  /** The rollback's replay is the negation of the replay it undoes, row by row. */
  lemma RollbackNegates(ids: seq<int>, t: nat, first: int, second: int, sign: int)
    ensures var plus, minus := StatsOf(ids, t, first, second, sign), StatsOf(ids, t, first, second, -sign);
      && minus.items.Keys == plus.items.Keys && (forall id <- plus.items :: minus.items[id] == NegatedItem(plus.items[id]))
      && |minus.matches| == |plus.matches|
      && forall i :: 0 <= i < |plus.matches| ==> minus.matches[i] == NegatedMatch(plus.matches[i])
  {
    hide Games, Wins, Losses, FirstSeen;
    forall id | id in ids
      ensures ItemRow(Games(ids), t, first, second, -sign, id) == NegatedItem(ItemRow(Games(ids), t, first, second, sign, id))
    {
      var w, l := Wins(Games(ids), id), Losses(Games(ids), id);
      assert (-sign) * w == -(sign * w) && (-sign) * (w + l) == -(sign * (w + l));
    }
  }
}
