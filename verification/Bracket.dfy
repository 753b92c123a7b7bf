/** Replaying a bracket: a list of item ids, where in every round the item at an even place beats the one
    after it, folded into counters per item and per pair of items. */
module Bracket {
  import opened Options
  import opened Sums

  datatype Game = Game(winner: int, loser: int)

  datatype ItemUpdate = ItemUpdate(tournamentId: nat, itemId: int, firstCount: int, secondCount: int,
                                   wins: int, tournamentEntries: int, totalMatchEntries: int)

  datatype MatchUpdate = MatchUpdate(tournamentId: nat, itemLowId: int, itemHighId: int,
                                     lowWins: int, highWins: int, totalMatches: int)

  /** The rows per item, with the order their ids were first seen in, and the rows per game. */
  datatype Stats = Stats(order: seq<int>, items: map<int, ItemUpdate>, matches: seq<MatchUpdate>)

  // ---------- What a bracket means ----------

  predicate IsPowerOfTwo(n: nat) {
    n == 1 || (n > 1 && n % 2 == 0 && IsPowerOfTwo(n / 2))
  }

  predicate Replayable(n: nat) {
    n <= 1 || IsPowerOfTwo(n)
  }

  function Winners(round: seq<int>): (next: seq<int>)
    ensures |next| == |round| / 2 && forall i :: 0 <= i < |next| ==> next[i] == round[2 * i]
  {
    seq(|round| / 2, i requires 0 <= i < |round| / 2 => round[2 * i])
  }

  function RoundGames(round: seq<int>): (games: seq<Game>)
    ensures |games| == |round| / 2 && forall i :: 0 <= i < |games| ==> games[i] == Game(round[2 * i], round[2 * i + 1])
  {
    seq(|round| / 2, i requires 0 <= i < |round| / 2 => Game(round[2 * i], round[2 * i + 1]))
  }

  /** All games, round by round. */
  function Games(round: seq<int>): seq<Game>
    decreases |round|
  {
    if |round| <= 1 then [] else RoundGames(round) + Games(Winners(round))
  }

  lemma FirstRound(round: seq<int>)
    requires |round| > 1
    ensures Games(round) == RoundGames(round) + Games(Winners(round))
  {
  }

  lemma NoGames(round: seq<int>)
    requires |round| <= 1
    ensures Games(round) == []
  {
  }

  function Wins(games: seq<Game>, id: int): nat {
    if games == [] then 0
    else Wins(games[..|games| - 1], id) + (if games[|games| - 1].winner == id then 1 else 0)
  }

  function Losses(games: seq<Game>, id: int): nat {
    if games == [] then 0
    else Losses(games[..|games| - 1], id) + (if games[|games| - 1].loser == id then 1 else 0)
  }

  function PairRow(t: nat, sign: int, g: Game): MatchUpdate {
    var low, high := if g.winner < g.loser then g.winner else g.loser, if g.winner < g.loser then g.loser else g.winner;
    MatchUpdate(t, low, high, if g.winner == low then sign else 0, if g.winner == low then 0 else sign, sign)
  }

  function ItemRow(games: seq<Game>, t: nat, first: int, second: int, sign: int, id: int): ItemUpdate {
    ItemUpdate(t, id, if id == first then sign else 0, if id == second then sign else 0,
               sign * Wins(games, id), sign, sign * (Wins(games, id) + Losses(games, id)))
  }

  function FirstSeen(ids: seq<int>): (order: seq<int>)
    ensures forall id :: id in order <==> id in ids
    ensures forall i, j :: 0 <= i < j < |order| ==> order[i] != order[j]
  {
    if ids == [] then []
    else
      var order, last := FirstSeen(ids[..|ids| - 1]), ids[|ids| - 1];
      assert ids == ids[..|ids| - 1] + [last];
      if last in order then order else order + [last]
  }

  /** The counters of a bracket. */
  function StatsOf(ids: seq<int>, t: nat, first: int, second: int, sign: int): Stats {
    Stats(FirstSeen(ids),
          map id | id in ids :: ItemRow(Games(ids), t, first, second, sign, id),
          seq(|Games(ids)|, i requires 0 <= i < |Games(ids)| => PairRow(t, sign, Games(ids)[i])))
  }

  lemma StatsAreListed(ids: seq<int>, t: nat, first: int, second: int, sign: int)
    ensures var stats := StatsOf(ids, t, first, second, sign);
      && (forall id :: id in stats.order <==> id in ids) && (forall id :: id in stats.items <==> id in ids)
      && (forall i :: 0 <= i < |stats.order| ==> stats.order[i] in stats.items)
      && (forall i, j :: 0 <= i < j < |stats.order| ==> stats.order[i] != stats.order[j])
      && forall id <- stats.items :: stats.items[id].itemId == id && stats.items[id].tournamentId == t
  {
  }

  /** The rows of a replay as they are returned: one per item. */
  function ItemRows(stats: Stats): (rows: seq<ItemUpdate>)
    requires forall i :: 0 <= i < |stats.order| ==> stats.order[i] in stats.items
    ensures |rows| == |stats.order| && forall i :: 0 <= i < |rows| ==> rows[i] == stats.items[stats.order[i]]
  {
    seq(|stats.order|, i requires 0 <= i < |stats.order| => stats.items[stats.order[i]])
  }

  // ---------- The program ----------

  method NormalizePairWithWinner(winner: int, loser: int) returns (low: int, high: int, winnerIsLow: bool)
    ensures low <= high && multiset{low, high} == multiset{winner, loser} && winnerIsLow == (winner == low)
  {
    low := if winner < loser then winner else loser;
    high := if winner < loser then loser else winner;
    winnerIsLow := winner == low;
  }

  method ExtractMatchStats(ids: seq<int>, t: nat, first: int, second: int, sign: int) returns (r: Option<Stats>)
    ensures r == if Replayable(|ids|) then Some(StatsOf(ids, t, first, second, sign)) else None
  {
    hide FirstSeen, ItemRow, PairRow, Games, RoundGames, StatsOf;
    var order, items := OpenRows(ids, t, first, second, sign);
    var matches: seq<MatchUpdate> := [];
    var round := ids;
    ghost var played: seq<Game> := [];
    while |round| > 1
      invariant Replayable(|round|) == Replayable(|ids|)
      invariant forall id <- round :: id in ids
      invariant played + Games(round) == Games(ids)
      invariant items.Keys == set id | id in ids
      invariant forall id <- items :: items[id] == ItemRow(played, t, first, second, sign, id)
      invariant |matches| == |played| && forall i :: 0 <= i < |matches| ==> matches[i] == PairRow(t, sign, played[i])
      decreases |round|
    {
      if |round| % 2 != 0 { return None; }
      items, matches := PlayRound(round, items, matches, t, first, second, sign, played);
      FirstRound(round);
      played := played + RoundGames(round);
      round := NextRound(round);
    }
    NoGames(round);
    assert played == Games(ids);
    RowsAreStats(ids, t, first, second, sign, items, matches);
    return Some(Stats(order, items, matches));
  }

  lemma RowsAreStats(ids: seq<int>, t: nat, first: int, second: int, sign: int, items: map<int, ItemUpdate>, matches: seq<MatchUpdate>)
    requires items.Keys == set id | id in ids
    requires forall id <- items :: items[id] == ItemRow(Games(ids), t, first, second, sign, id)
    requires |matches| == |Games(ids)| && forall i :: 0 <= i < |matches| ==> matches[i] == PairRow(t, sign, Games(ids)[i])
    ensures Stats(FirstSeen(ids), items, matches) == StatsOf(ids, t, first, second, sign)
  {
    hide FirstSeen, ItemRow, PairRow, Games;
    assert items == StatsOf(ids, t, first, second, sign).items;
    assert matches == StatsOf(ids, t, first, second, sign).matches;
  }

  /** A row of zeros per item, entered once per replay. */
  method OpenRows(ids: seq<int>, t: nat, first: int, second: int, sign: int)
    returns (order: seq<int>, items: map<int, ItemUpdate>)
    ensures order == FirstSeen(ids)
    ensures items == map id | id in ids :: ItemRow([], t, first, second, sign, id)
  {
    order, items := [], map[];
    for k := 0 to |ids|
      invariant order == FirstSeen(ids[..k])
      invariant items.Keys == set id | id in ids[..k]
      invariant forall id <- items :: items[id] == ItemRow([], t, first, second, sign, id)
    {
      assert ids[..k + 1][..k] == ids[..k];
      if ids[k] !in items { order := order + [ids[k]]; }
      var isFirst, isSecond := if ids[k] == first then sign else 0, if ids[k] == second then sign else 0;
      items := items[ids[k] := ItemUpdate(t, ids[k], isFirst, isSecond, 0, sign, 0)];
      assert ids[..k + 1] == ids[..k] + [ids[k]];
    }
    assert ids[..|ids|] == ids;
  }

  /** A pair row names the two items in order and credits the winner. */
  lemma PairOf(t: nat, sign: int, g: Game, low: int, high: int)
    requires low <= high && multiset{low, high} == multiset{g.winner, g.loser}
    ensures PairRow(t, sign, g)
         == MatchUpdate(t, low, high, if g.winner == low then sign else 0, if g.winner == low then 0 else sign, sign)
  {
    assert multiset{low, high}[low] > 0 && multiset{low, high}[high] > 0;
    assert multiset{g.winner, g.loser}[g.winner] > 0;
  }

  function RowAfter(row: ItemUpdate, g: Game, sign: int, id: int): ItemUpdate {
    row.(wins := row.wins + (if id == g.winner then sign else 0),
         totalMatchEntries := row.totalMatchEntries + (if id == g.winner then sign else 0) + (if id == g.loser then sign else 0))
  }

  lemma OneMoreGame(games: seq<Game>, g: Game, t: nat, first: int, second: int, sign: int, id: int)
    ensures ItemRow(games + [g], t, first, second, sign, id) == RowAfter(ItemRow(games, t, first, second, sign, id), g, sign, id)
  {
    assert (games + [g])[..|games|] == games;
    var w, l := if id == g.winner then 1 else 0, if id == g.loser then 1 else 0;
    assert sign * (Wins(games, id) + w) == sign * Wins(games, id) + sign * w;
    assert sign * (Wins(games, id) + w + Losses(games, id) + l) == sign * (Wins(games, id) + Losses(games, id)) + sign * w + sign * l;
  }

  /** One round of the replay: every pair bumps its two items' counters and adds a row. */
  method PlayRound(round: seq<int>, items0: map<int, ItemUpdate>, matches0: seq<MatchUpdate>,
                   t: nat, first: int, second: int, sign: int, ghost played0: seq<Game>)
    returns (items: map<int, ItemUpdate>, matches: seq<MatchUpdate>)
    requires |round| % 2 == 0 && forall id <- round :: id in items0
    requires forall id <- items0 :: items0[id] == ItemRow(played0, t, first, second, sign, id)
    requires |matches0| == |played0| && forall i :: 0 <= i < |matches0| ==> matches0[i] == PairRow(t, sign, played0[i])
    ensures items.Keys == items0.Keys
    ensures forall id <- items :: items[id] == ItemRow(played0 + RoundGames(round), t, first, second, sign, id)
    ensures |matches| == |played0| + |round| / 2
    ensures forall i :: 0 <= i < |matches| ==> matches[i] == PairRow(t, sign, (played0 + RoundGames(round))[i])
  {
    hide ItemRow, Wins, Losses, PairRow;
    items, matches := items0, matches0;
    ghost var played := played0;
    var i := 0;
    while i < |round|
      invariant 0 <= i <= |round| && i % 2 == 0
      invariant played == played0 + RoundGames(round)[..i / 2]
      invariant items.Keys == items0.Keys
      invariant forall id <- items :: items[id] == ItemRow(played, t, first, second, sign, id)
      invariant |matches| == |played| && forall k :: 0 <= k < |matches| ==> matches[k] == PairRow(t, sign, played[k])
    {
      var winner, loser := round[i], round[i + 1];
      ghost var g := Game(winner, loser);
      assert RoundGames(round)[..i / 2 + 1] == RoundGames(round)[..i / 2] + [g];
      forall id
        ensures ItemRow(played + [g], t, first, second, sign, id)
             == RowAfter(ItemRow(played, t, first, second, sign, id), g, sign, id)
      {
        OneMoreGame(played, g, t, first, second, sign, id);
      }
      items := items[winner := items[winner].(wins := items[winner].wins + sign)];
      items := items[winner := items[winner].(totalMatchEntries := items[winner].totalMatchEntries + sign)];
      items := items[loser := items[loser].(totalMatchEntries := items[loser].totalMatchEntries + sign)];
      var low, high, winnerIsLow := NormalizePairWithWinner(winner, loser);
      PairOf(t, sign, g, low, high);
      matches := matches + [MatchUpdate(t, low, high, if winnerIsLow then sign else 0, if winnerIsLow then 0 else sign, sign)];
      played := played + [g];
      i := i + 2;
    }
    assert RoundGames(round)[..|round| / 2] == RoundGames(round);
  }

  method NextRound(round: seq<int>) returns (next: seq<int>)
    requires |round| % 2 == 0
    ensures next == Winners(round)
  {
    next := [];
    var i := 0;
    while i < |round|
      invariant 0 <= i <= |round| && i % 2 == 0 && |next| == i / 2
      invariant forall k :: 0 <= k < |next| ==> next[k] == round[2 * k]
    {
      next := next + [round[i]];
      i := i + 2;
    }
  }
}
