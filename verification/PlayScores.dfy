/** What one play adds to the stored documents, read off the games of its bracket. */
module PlayScores {
  import opened Sums
  import opened Texts
  import opened HexCodec
  import opened Bracket
  import opened BracketLaws
  import opened StatsIndex
  import opened StatsService

  /** How many of the games the first won against the second. */
  function Beats(games: seq<Game>, winner: int, loser: int): nat {
    if games == [] then 0
    else Beats(games[..|games| - 1], winner, loser) + (if games[|games| - 1] == Game(winner, loser) then 1 else 0)
  }

  // ---------- The documents before and after ----------

  /** The user's points move by the event's points, those of all others stay. */
  predicate PointsScored(db: Db, db': Db, e: Finalized, sign: int) {
    && db'.points.Keys == db.points.Keys
    && forall w <- db.points :: db'.points[w] == db.points[w] + (if w == Lower(e.user) then sign * e.point else 0)
  }

  predicate SelectionsScored(db: Db, db': Db, e: Finalized, sign: int) {
    && db'.selected.Keys == db.selected.Keys
    && forall t <- db.selected :: db'.selected[t] == db.selected[t] + (if t == e.tournamentId then sign else 0)
  }

  /** The document of the item at place `p`: one entry, a win for each factor two of the place, and one
      match more than the wins unless the item won the bracket. */
  predicate PlaceScored(was: ItemDoc, now: ItemDoc, n: nat, p: nat, sign: int)
    requires IsPowerOfTwo(n) && p < n
  {
    var wins := if p == 0 then Log2(n) else TwoAdic(p);
    && now.wins == was.wins + sign * wins
    && now.totalMatchEntries == was.totalMatchEntries + sign * (if p == 0 then wins else wins + 1)
    && now.tournamentEntries == was.tournamentEntries + sign
    && now.firstCount == was.firstCount + (if p == 0 then sign else 0)
    && now.secondCount == was.secondCount + (if p == n / 2 then sign else 0)
  }

  predicate ItemsScored(db: Db, db': Db, e: Finalized, sign: int)
    requires IsPowerOfTwo(|Ids(e)|)
  {
    && db'.items.Keys == db.items.Keys
    && (forall k <- db.items :: k.tournamentId != e.tournamentId || k.itemId !in Ids(e) ==> db'.items[k] == db.items[k])
    && forall p, k :: 0 <= p < |Ids(e)| && k in db.items && k == ItemKey(e.tournamentId, Ids(e)[p]) ==>
         PlaceScored(db.items[k], db'.items[k], |Ids(e)|, p, sign)
  }

  /** A pair's document counts the games either item won against the other; it is created by the pair's
      first game, and a pair that did not meet keeps its document. */
  predicate PairScored(db: Db, db': Db, e: Finalized, sign: int, k: MatchKey) {
    var here := k.tournamentId == e.tournamentId;
    var lowWon := if here then Beats(Games(Ids(e)), k.itemLowId, k.itemHighId) else 0;
    var highWon := if here then Beats(Games(Ids(e)), k.itemHighId, k.itemLowId) else 0;
    && (k in db'.matches <==> k in db.matches || lowWon + highWon > 0)
    && (k in db.matches ==>
          && db'.matches[k].lowWins == db.matches[k].lowWins + sign * lowWon
          && db'.matches[k].highWins == db.matches[k].highWins + sign * highWon
          && db'.matches[k].totalMatches == db.matches[k].totalMatches + sign * (lowWon + highWon))
    && (k in db'.matches && k !in db.matches ==>
          && db'.matches[k].lowWins == sign * lowWon && db'.matches[k].highWins == sign * highWon
          && db'.matches[k].totalMatches == sign * (lowWon + highWon))
  }

  // ---------- The rows of the pairs ----------

  /** The games a pair's counter is about. */
  function Share(games: seq<Game>, t: nat, k: MatchKey, f: MatchField): nat {
    if k.tournamentId != t then 0
    else
      match f
      case LowWins => Beats(games, k.itemLowId, k.itemHighId)
      case HighWins => Beats(games, k.itemHighId, k.itemLowId)
      case TotalMatches => Beats(games, k.itemLowId, k.itemHighId) + Beats(games, k.itemHighId, k.itemLowId)
  }

  lemma OneMoreShare(games: seq<Game>, rows: seq<MatchUpdate>, t: nat, sign: int, k: MatchKey, f: MatchField, n: nat)
    requires n < |games| == |rows| && rows[n] == PairRow(t, sign, games[n]) && k.itemLowId < k.itemHighId
    ensures MatchDelta(rows, k, f)(n) == sign * Share(games[..n + 1], t, k, f) - sign * Share(games[..n], t, k, f)
  {
    assert games[..n + 1][..n] == games[..n];
    var more := Share(games[..n + 1], t, k, f) - Share(games[..n], t, k, f);
    assert MatchDelta(rows, k, f)(n) == sign * more;
  }

  lemma {:induction false} RowsShare(games: seq<Game>, rows: seq<MatchUpdate>, t: nat, sign: int, k: MatchKey, f: MatchField, n: nat)
    requires n <= |games| == |rows| && k.itemLowId < k.itemHighId
    requires forall i :: 0 <= i < |rows| ==> rows[i] == PairRow(t, sign, games[i])
    ensures Sum(Range(0, n), MatchDelta(rows, k, f)) == sign * Share(games[..n], t, k, f)
  {
    hide Share, PairRow, MatchDelta;
    if n == 0 {
      NothingShared(t, k, f);
    } else {
      var m: nat := n - 1;
      RowsShare(games, rows, t, sign, k, f, m);
      SumInsert(Range(0, m), MatchDelta(rows, k, f), m);
      OneMoreShare(games, rows, t, sign, k, f, m);
    }
  }

  lemma NothingShared(t: nat, k: MatchKey, f: MatchField)
    ensures Share([], t, k, f) == 0
  {
  }

  lemma PairEffect(e: Finalized, sign: int, k: MatchKey, f: MatchField)
    requires Ids(e) != [] && k.itemLowId < k.itemHighId
    ensures MatchEffect(e, sign, k, f) == sign * Share(Games(Ids(e)), e.tournamentId, k, f)
  {
    hide Ids, Games, Share, FirstSeen, PairRow;
    var games := Games(Ids(e));
    RowsShare(games, StatsFor(e, sign).matches, e.tournamentId, sign, k, f, |games|);
    assert games[..|games|] == games;
  }

  lemma {:induction false} MetIff(games: seq<Game>, t: nat, sign: int, k: MatchKey)
    requires k.itemLowId < k.itemHighId
    ensures Share(games, t, k, TotalMatches) > 0 <==> exists i :: 0 <= i < |games| && PairOfRow(PairRow(t, sign, games[i])) == k
  {
    if games != [] {
      var rest := games[..|games| - 1];
      MetIff(rest, t, sign, k);
      if i :| 0 <= i < |rest| && PairOfRow(PairRow(t, sign, rest[i])) == k {
        assert games[i] == rest[i];
      }
      if i :| 0 <= i < |games| && PairOfRow(PairRow(t, sign, games[i])) == k {
        assert i < |rest| ==> games[i] == rest[i];
      }
    }
  }

  lemma MetPairs(e: Finalized, sign: int, k: MatchKey)
    requires Ids(e) != [] && k.itemLowId < k.itemHighId
    ensures k in PairKeys(e, sign) <==> Share(Games(Ids(e)), e.tournamentId, k, TotalMatches) > 0
  {
    hide Ids, Games, Share, FirstSeen, PairRow, PairOfRow;
    var games, rows := Games(Ids(e)), StatsFor(e, sign).matches;
    MetIff(games, e.tournamentId, sign, k);
    if i :| 0 <= i < |games| && PairOfRow(PairRow(e.tournamentId, sign, games[i])) == k {
      assert i in Range(0, |rows|) && PairOfRow(rows[i]) == k;
    }
  }

  // ---------- The laws ----------

  lemma PairMoves(db: Db, db': Db, e: Finalized, sign: int, k: MatchKey, f: MatchField)
    requires Moved(db, db', e, sign) && Ids(e) != [] && k.itemLowId < k.itemHighId
    ensures MatchValue(PairDoc(db'.matches, k), f)
         == MatchValue(PairDoc(db.matches, k), f) + sign * Share(Games(Ids(e)), e.tournamentId, k, f)
  {
    hide Ids, Games, MatchEffect, PairKeys, Share, ItemEffect, PairDoc, MatchValue, Lower;
    PairEffect(e, sign, k, f);
    assert Tracked(db, MatchCounter(k, f));
    assert Value(db', MatchCounter(k, f)) == Value(db, MatchCounter(k, f)) + Effect(e, sign, MatchCounter(k, f));
  }

  lemma PairsScored(db: Db, db': Db, e: Finalized, sign: int, k: MatchKey)
    requires Moved(db, db', e, sign) && Ids(e) != [] && k.itemLowId < k.itemHighId
    ensures PairScored(db, db', e, sign, k)
  {
    hide Ids, Games, MatchEffect, PairKeys, Beats, Effect, Value, PairDoc, Share;
    MetPairs(e, sign, k);
    PairMoves(db, db', e, sign, k, LowWins);
    PairMoves(db, db', e, sign, k, HighWins);
    PairMoves(db, db', e, sign, k, TotalMatches);
    SharesAre(Games(Ids(e)), e.tournamentId, k);
    DocumentOf(db.matches, k);
    DocumentOf(db'.matches, k);
  }

  lemma SharesAre(games: seq<Game>, t: nat, k: MatchKey)
    ensures Share(games, t, k, LowWins) == if k.tournamentId == t then Beats(games, k.itemLowId, k.itemHighId) else 0
    ensures Share(games, t, k, HighWins) == if k.tournamentId == t then Beats(games, k.itemHighId, k.itemLowId) else 0
    ensures Share(games, t, k, TotalMatches) == Share(games, t, k, LowWins) + Share(games, t, k, HighWins)
  {
  }

  lemma DocumentOf(matches: map<MatchKey, MatchDoc>, k: MatchKey)
    ensures PairDoc(matches, k) == if k in matches then matches[k] else MatchDoc(0, 0, 0)
  {
  }

  lemma PlaceEffect(e: Finalized, sign: int, p: nat)
    requires Countable(e) && Distinct(Ids(e)) && p < |Ids(e)|
    ensures var k, n := ItemKey(e.tournamentId, Ids(e)[p]), |Ids(e)|;
      var wins := if p == 0 then Log2(n) else TwoAdic(p);
      && ItemEffect(e, sign, k, WinCount) == sign * wins
      && ItemEffect(e, sign, k, MatchEntries) == sign * (if p == 0 then wins else wins + 1)
      && ItemEffect(e, sign, k, TournamentEntries) == sign
      && ItemEffect(e, sign, k, FirstCount) == (if p == 0 then sign else 0)
      && ItemEffect(e, sign, k, SecondCount) == (if p == n / 2 then sign else 0)
  {
    hide Ids, Games, FirstSeen, Wins, Losses, PairRow, TwoAdic, Log2, IsPowerOfTwo;
    PositionLaw(Ids(e), p);
  }

  lemma ItemsAreScored(db: Db, db': Db, e: Finalized, sign: int)
    requires Moved(db, db', e, sign) && Countable(e) && Distinct(Ids(e))
    ensures ItemsScored(db, db', e, sign)
  {
    hide Ids, ItemEffect, TwoAdic, Log2, IsPowerOfTwo, Lower, MatchEffect, PairKeys;
    forall k | k in db.items && (k.tournamentId != e.tournamentId || k.itemId !in Ids(e)) ensures db'.items[k] == db.items[k] {
      NoItemEffect(e, sign, k);
      ItemMoves(db, db', e, sign, k);
    }
    forall p, k | 0 <= p < |Ids(e)| && k in db.items && k == ItemKey(e.tournamentId, Ids(e)[p])
      ensures PlaceScored(db.items[k], db'.items[k], |Ids(e)|, p, sign)
    {
      PlaceEffect(e, sign, p);
      ItemMoves(db, db', e, sign, k);
    }
  }

  lemma NoItemEffect(e: Finalized, sign: int, k: ItemKey)
    requires k.tournamentId != e.tournamentId || k.itemId !in Ids(e)
    ensures forall f :: ItemEffect(e, sign, k, f) == 0
  {
  }

  lemma ItemMoves(db: Db, db': Db, e: Finalized, sign: int, k: ItemKey)
    requires Moved(db, db', e, sign) && k in db.items
    ensures k in db'.items
    ensures var was, now := db.items[k], db'.items[k];
      && now.wins == was.wins + ItemEffect(e, sign, k, WinCount)
      && now.totalMatchEntries == was.totalMatchEntries + ItemEffect(e, sign, k, MatchEntries)
      && now.tournamentEntries == was.tournamentEntries + ItemEffect(e, sign, k, TournamentEntries)
      && now.firstCount == was.firstCount + ItemEffect(e, sign, k, FirstCount)
      && now.secondCount == was.secondCount + ItemEffect(e, sign, k, SecondCount)
  {
    hide ItemEffect, MatchEffect, PairKeys, Lower;
    forall f ensures ItemValue(db'.items[k], f) == ItemValue(db.items[k], f) + ItemEffect(e, sign, k, f) {
      assert Value(db', ItemCounter(k, f)) == Value(db, ItemCounter(k, f)) + Effect(e, sign, ItemCounter(k, f));
    }
    assert ItemValue(db'.items[k], WinCount) == ItemValue(db.items[k], WinCount) + ItemEffect(e, sign, k, WinCount);
    assert ItemValue(db'.items[k], MatchEntries) == ItemValue(db.items[k], MatchEntries) + ItemEffect(e, sign, k, MatchEntries);
    assert ItemValue(db'.items[k], TournamentEntries)
        == ItemValue(db.items[k], TournamentEntries) + ItemEffect(e, sign, k, TournamentEntries);
    assert ItemValue(db'.items[k], FirstCount) == ItemValue(db.items[k], FirstCount) + ItemEffect(e, sign, k, FirstCount);
    assert ItemValue(db'.items[k], SecondCount) == ItemValue(db.items[k], SecondCount) + ItemEffect(e, sign, k, SecondCount);
  }

  lemma UsersAreScored(db: Db, db': Db, e: Finalized, sign: int)
    requires Moved(db, db', e, sign)
    ensures PointsScored(db, db', e, sign) && SelectionsScored(db, db', e, sign)
  {
    hide ItemEffect, MatchEffect, PairKeys, Lower;
    forall w | w in db.points ensures db'.points[w] == db.points[w] + (if w == Lower(e.user) then sign * e.point else 0) {
      assert Value(db', Points(w)) == Value(db, Points(w)) + Effect(e, sign, Points(w));
    }
    forall t | t in db.selected ensures db'.selected[t] == db.selected[t] + (if t == e.tournamentId then sign else 0) {
      assert Value(db', Selected(t)) == Value(db, Selected(t)) + Effect(e, sign, Selected(t));
    }
  }

  /** The ends of a bracket can be read from two whole ids on. */
  lemma EndsRead(e: Finalized)
    ensures FirstAndSecond(e).Some? <==> |Buf(e)| % 2 == 0 && |Buf(e)| >= 4
  {
    hide BufferFrom;
  }

  /** Handling an event counts it exactly when its key is new, it holds at least two whole ids and a power
      of two of them, and it is worth nothing or its user is known; it passes over a key it has as long as
      the ids can be read.  Counted, every document moves by what the
      games of its bracket say, and the play is stored with the first and the middle id. */
  lemma HandlingScoresThePlay(db: Db, db': Db, key: PlayKey, e: Finalized)
    requires Handled(db, db', key, e)
    ensures HandleOutcome(db, key, e) == Applied
       <==> key !in db.plays && Countable(e) && (e.point == 0 || Lower(e.user) in db.points)
    ensures HandleOutcome(db, key, e) == Skipped <==> key in db.plays && |Buf(e)| % 2 == 0 && |Buf(e)| >= 4
    ensures HandleOutcome(db, key, e) != Applied ==> db' == db
    ensures HandleOutcome(db, key, e) == Applied ==>
      && PointsScored(db, db', e, 1) && SelectionsScored(db, db', e, 1)
      && (forall k: MatchKey | k.itemLowId < k.itemHighId :: PairScored(db, db', e, 1, k))
      && (Distinct(Ids(e)) ==> ItemsScored(db, db', e, 1))
      && key in db'.plays && db'.plays - {key} == db.plays
      && db'.plays[key].event == e && db'.plays[key].firstItemId == Ids(e)[0]
      && db'.plays[key].secondItemId == Ids(e)[|Ids(e)| / 2]
  {
    hide Moved, FirstAndSecond, Replayable, Lower, Ids, PointsScored, SelectionsScored, ItemsScored, PairScored;
    CountableIff(e);
    EndsRead(e);
    if HandleOutcome(db, key, e) == Applied {
      UsersAreScored(db, db', e, 1);
      forall k: MatchKey | k.itemLowId < k.itemHighId ensures PairScored(db, db', e, 1, k) { PairsScored(db, db', e, 1, k); }
      if Distinct(Ids(e)) { ItemsAreScored(db, db', e, 1); }
    }
  }

  /** A rollback takes a stored play out exactly when its event reads, replays and its user is known, and
      moves every document back by what the games say. */
  lemma RollingBackScoresThePlay(db: Db, db': Db, key: PlayKey, e: Finalized)
    requires RolledBack(db, db', key, e)
    ensures RollbackOutcome(db, key, e) == Applied
       <==> key in db.plays && Countable(e) && (e.point == 0 || Lower(e.user) in db.points)
    ensures RollbackOutcome(db, key, e) == Skipped <==> key !in db.plays
    ensures RollbackOutcome(db, key, e) != Applied ==> db' == db
    ensures RollbackOutcome(db, key, e) == Applied ==>
      && PointsScored(db, db', e, -1) && SelectionsScored(db, db', e, -1)
      && (forall k: MatchKey | k.itemLowId < k.itemHighId :: PairScored(db, db', e, -1, k))
      && (Distinct(Ids(e)) ==> ItemsScored(db, db', e, -1))
      && db'.plays == db.plays - {key}
  {
    hide Moved, FirstAndSecond, Replayable, Lower, Ids, PointsScored, SelectionsScored, ItemsScored, PairScored;
    CountableIff(e);
    if RollbackOutcome(db, key, e) == Applied {
      UsersAreScored(db, db', e, -1);
      forall k: MatchKey | k.itemLowId < k.itemHighId ensures PairScored(db, db', e, -1, k) { PairsScored(db, db', e, -1, k); }
      if Distinct(Ids(e)) { ItemsAreScored(db, db', e, -1); }
    }
  }
}
