/** The handlers that fold finalize events into the statistics and take them out again, each one
    transaction, and the invariant they keep: every counter equals its recomputation from the live plays. */
module StatsService {
  import opened Options
  import opened Sums
  import opened Texts
  import opened HexCodec
  import opened Bracket
  import opened BracketLaws
  import opened StatsIndex

  // ---------- Reading an event ----------

  function Buf(e: Finalized): seq<Byte> {
    BufferFrom(AfterPrefix(e.data))
  }

  function Ids(e: Finalized): seq<int> {
    Uint16s(Buf(e))
  }

  /** The first and the middle id are read from the bytes; an odd number of bytes makes the second offset a
      fraction, which throws. */
  function FirstAndSecond(e: Finalized): Option<(int, int)> {
    var buf := Buf(e);
    if |buf| % 2 != 0 then None
    else
      var first, second := ReadUInt16BE(buf, 0), ReadUInt16BE(buf, |buf| / 2);
      if first.None? || second.None? then None else Some((first.value, second.value))
  }

  /** An event the handlers can count. */
  predicate Countable(e: Finalized) {
    |Buf(e)| % 2 == 0 && |Ids(e)| >= 2 && IsPowerOfTwo(|Ids(e)|)
  }

  /** Events are countable exactly when they read and replay without an error; the two ids read from the
      bytes are then the finalists. */
  lemma CountableIff(e: Finalized)
    ensures Countable(e) <==> FirstAndSecond(e).Some? && Replayable(|Ids(e)|)
    ensures Countable(e) ==> FirstAndSecond(e) == Some((Ids(e)[0], Ids(e)[|Ids(e)| / 2]))
  {
    hide IsPowerOfTwo, BufferFrom;
    var buf, n := Buf(e), |Ids(e)|;
    if |buf| % 2 == 0 && n >= 2 && IsPowerOfTwo(n) {
      HalfIsPowerOfTwo(n);
      WordAt(buf, 0);
      WordAt(buf, n / 2);
    }
  }

  lemma ReadsFinalists(e: Finalized, first: int, second: int)
    requires FirstAndSecond(e) == Some((first, second)) && Replayable(|Ids(e)|)
    ensures Ids(e) != [] && first == Ids(e)[0] && second == Ids(e)[|Ids(e)| / 2]
  {
    CountableIff(e);
  }

  lemma WordAt(buf: seq<Byte>, i: nat)
    requires i < |buf| / 2
    ensures ReadUInt16BE(buf, 2 * i) == Some(Uint16s(buf)[i])
  {
  }

  function StatsFor(e: Finalized, sign: int): Stats
    requires Ids(e) != []
  {
    StatsOf(Ids(e), e.tournamentId, Ids(e)[0], Ids(e)[|Ids(e)| / 2], sign)
  }

  ghost function ItemEffect(e: Finalized, sign: int, k: ItemKey, f: ItemField): int {
    if k.tournamentId == e.tournamentId && k.itemId in Ids(e) && k.itemId in StatsFor(e, sign).items
    then ItemValue(ItemInc(StatsFor(e, sign).items[k.itemId]), f) else 0
  }

  ghost function MatchEffect(e: Finalized, sign: int, k: MatchKey, f: MatchField): int {
    if Ids(e) == [] then 0
    else Sum(Range(0, |StatsFor(e, sign).matches|), MatchDelta(StatsFor(e, sign).matches, k, f))
  }

  /** What an event adds to one counter, times `sign`. */
  ghost function Effect(e: Finalized, sign: int, c: Counter): int {
    match c
    case Points(wallet) => if wallet == Lower(e.user) then sign * e.point else 0
    case Selected(t) => if t == e.tournamentId then sign else 0
    case ItemCounter(k, f) => ItemEffect(e, sign, k, f)
    case MatchCounter(k, f) => MatchEffect(e, sign, k, f)
  }

  lemma MatchEffectNegates(e: Finalized, k: MatchKey, f: MatchField)
    ensures MatchEffect(e, -1, k, f) == -MatchEffect(e, 1, k, f)
  {
    hide StatsOf, Ids;
    if Ids(e) != [] {
      RollbackNegates(Ids(e), e.tournamentId, Ids(e)[0], Ids(e)[|Ids(e)| / 2], 1);
      var plus, minus := StatsFor(e, 1).matches, StatsFor(e, -1).matches;
      SumNegated(Range(0, |plus|), MatchDelta(plus, k, f), MatchDelta(minus, k, f));
    }
  }

  lemma ItemEffectNegates(e: Finalized, k: ItemKey, f: ItemField)
    ensures ItemEffect(e, -1, k, f) == -ItemEffect(e, 1, k, f)
  {
    hide StatsOf, Ids;
    if Ids(e) != [] {
      RollbackNegates(Ids(e), e.tournamentId, Ids(e)[0], Ids(e)[|Ids(e)| / 2], 1);
      var plus, minus := StatsFor(e, 1).items, StatsFor(e, -1).items;
      assert k.itemId in plus <==> k.itemId in minus.Keys;
      if k.itemId in plus { assert minus[k.itemId] == NegatedItem(plus[k.itemId]); }
    }
  }

  lemma EffectNegates(e: Finalized, c: Counter)
    ensures Effect(e, -1, c) == -Effect(e, 1, c)
  {
    hide ItemEffect, MatchEffect, Lower;
    match c
    case ItemCounter(k, f) => ItemEffectNegates(e, k, f);
    case MatchCounter(k, f) => MatchEffectNegates(e, k, f);
    case _ =>
  }

  /** The pairs that met. */
  ghost function PairKeys(e: Finalized, sign: int): set<MatchKey> {
    if Ids(e) == [] then {} else PairsOf(StatsFor(e, sign).matches, Range(0, |StatsFor(e, sign).matches|))
  }

  // ---------- One event, one transaction ----------

  datatype Outcome = Applied | Skipped | Threw

  predicate UserKnown(db: Db, e: Finalized) {
    e.point == 0 || Lower(e.user) in db.points
  }

  /** Every counter is moved by the event's effect, a document is added for each pair that met first, and
      nothing else in the counters' collections changes. */
  ghost predicate Moved(db: Db, db': Db, e: Finalized, sign: int) {
    && db'.points.Keys == db.points.Keys && db'.selected.Keys == db.selected.Keys && db'.items.Keys == db.items.Keys
    && db'.matches.Keys == db.matches.Keys + PairKeys(e, sign)
    && forall c :: Tracked(db, c) ==> Value(db', c) == Value(db, c) + Effect(e, sign, c)
  }

  function HandleOutcome(db: Db, key: PlayKey, e: Finalized): Outcome {
    if FirstAndSecond(e).None? then Threw
    else if key in db.plays then Skipped
    else if UserKnown(db, e) && Replayable(|Ids(e)|) then Applied
    else Threw
  }

  ghost predicate Handled(db: Db, db': Db, key: PlayKey, e: Finalized) {
    if HandleOutcome(db, key, e) == Applied
    then Moved(db, db', e, 1) && db'.plays == db.plays[key := Play(e, Ids(e)[0], Ids(e)[|Ids(e)| / 2])]
    else db' == db
  }

  function RollbackOutcome(db: Db, key: PlayKey, e: Finalized): Outcome {
    if key !in db.plays then Skipped
    else if UserKnown(db, e) && FirstAndSecond(e).Some? && Replayable(|Ids(e)|) then Applied
    else Threw
  }

  ghost predicate RolledBack(db: Db, db': Db, key: PlayKey, e: Finalized) {
    if RollbackOutcome(db, key, e) == Applied
    then Moved(db, db', e, -1) && db'.plays == db.plays - {key}
    else db' == db
  }

  class FinalizerService {
    var db: Db

    constructor (initial: Db)
      ensures db == initial
    {
      db := initial;
    }

    /** The increment of a user's points; None when no user matches. */
    static method IncrementPoint(points0: map<string, int>, wallet: string, delta: int)
      returns (points: Option<map<string, int>>)
      ensures delta == 0 ==> points == Some(points0)
      ensures delta != 0 && Lower(wallet) !in points0 ==> points == None
      ensures delta != 0 && Lower(wallet) in points0 ==> points == Some(points0[Lower(wallet) := points0[Lower(wallet)] + delta])
    {
      if delta == 0 { return Some(points0); }
      if Lower(wallet) !in points0 { return None; }
      return Some(points0[Lower(wallet) := points0[Lower(wallet)] + delta]);
    }

    static method UpdateTournamentCount(selected0: map<nat, int>, t: nat, delta: int) returns (selected: map<nat, int>)
      ensures selected == if t in selected0 then selected0[t := selected0[t] + delta] else selected0
    {
      selected := selected0;
      if t in selected { selected := selected[t := selected[t] + delta]; }
    }

    /** Points, selections, items and pairs of one event, on the transaction's view; None when a step throws. */
    static method CountEvent(tx0: Db, e: Finalized, first: int, second: int, sign: int) returns (tx: Option<Db>)
      requires FirstAndSecond(e) == Some((first, second)) && (sign == 1 || sign == -1)
      ensures tx.Some? <==> UserKnown(tx0, e) && Replayable(|Ids(e)|)
      ensures tx.Some? ==> Moved(tx0, tx.value, e, sign) && tx.value.plays == tx0.plays
    {
      hide StatsOf, Moved, Ids, Lower, ItemsBumped, MatchesBumped, Replayable, Value, FirstAndSecond, Countable;
      var points := IncrementPoint(tx0.points, e.user, sign * e.point);
      if points.None? { return None; }
      var selected := UpdateTournamentCount(tx0.selected, e.tournamentId, sign);
      var stats := ExtractMatchStats(Ids(e), e.tournamentId, first, second, sign);
      if stats.None? { return None; }
      ReadsFinalists(e, first, second);
      StatsAreListed(Ids(e), e.tournamentId, first, second, sign);
      var items := UpdateBulkItem(tx0.items, ItemRows(stats.value));
      var matches := UpdateBulkMatch(tx0.matches, stats.value.matches);
      tx := Some(Db(tx0.plays, points.value, selected, items, matches));
      CountsMove(tx0, tx.value, e, sign);
    }

    method HandleTournamentFinalized(key: PlayKey, e: Finalized) returns (outcome: Outcome)
      modifies this
      ensures outcome == HandleOutcome(old(db), key, e) && Handled(old(db), db, key, e)
    {
      hide Moved;
      CountableIff(e);
      var ends := FirstAndSecond(e);
      if ends.None? { return Threw; }
      if key in db.plays { return Skipped; }
      var tx := db.(plays := db.plays[key := Play(e, ends.value.0, ends.value.1)]);
      var counted := CountEvent(tx, e, ends.value.0, ends.value.1, 1);
      if counted.None? { return Threw; }
      PlaysDoNotCount(db, tx, counted.value, e, 1);
      db := counted.value;
      return Applied;
    }

    method RollbackTournamentFinalized(key: PlayKey, e: Finalized) returns (outcome: Outcome)
      modifies this
      ensures outcome == RollbackOutcome(old(db), key, e) && RolledBack(old(db), db, key, e)
    {
      hide Moved;
      if key !in db.plays { return Skipped; }
      var tx := db.(plays := db.plays - {key});
      var ends := FirstAndSecond(e);
      if ends.None? { return Threw; }
      var counted := CountEvent(tx, e, ends.value.0, ends.value.1, -1);
      if counted.None? { return Threw; }
      PlaysDoNotCount(db, tx, counted.value, e, -1);
      db := counted.value;
      return Applied;
    }
  }

  lemma PlaysDoNotCount(db: Db, tx: Db, db': Db, e: Finalized, sign: int)
    requires tx == db.(plays := tx.plays) && Moved(tx, db', e, sign)
    ensures Moved(db, db', e, sign)
  {
    hide Effect;
    forall c | Tracked(db, c) ensures Value(db', c) == Value(db, c) + Effect(e, sign, c) {
      assert Tracked(tx, c) && Value(tx, c) == Value(db, c);
    }
  }

  /** The rows of one replay name each item once, so their increments add up to its row. */
  lemma ItemRowsAddUp(e: Finalized, sign: int, k: ItemKey, f: ItemField)
    requires Ids(e) != [] && forall i :: 0 <= i < |StatsFor(e, sign).order| ==> StatsFor(e, sign).order[i] in StatsFor(e, sign).items
    ensures var rows := ItemRows(StatsFor(e, sign)); Sum(Range(0, |rows|), ItemDelta(rows, k, f)) == ItemEffect(e, sign, k, f)
  {
    hide StatsOf, Ids;
    StatsAreListed(Ids(e), e.tournamentId, Ids(e)[0], Ids(e)[|Ids(e)| / 2], sign);
    var stats := StatsFor(e, sign);
    var rows := ItemRows(stats);
    if k.tournamentId == e.tournamentId && k.itemId in Ids(e) {
      var at: nat :| at < |stats.order| && stats.order[at] == k.itemId;
      SumOfOne(Range(0, |rows|), ItemDelta(rows, k, f), at);
    } else {
      forall j: nat | j < |rows| ensures ItemKey(rows[j].tournamentId, rows[j].itemId) != k {
        var id := stats.order[j];
        assert id in stats.order && rows[j].itemId == id && rows[j].tournamentId == e.tournamentId;
      }
      SumOfZeros(Range(0, |rows|), ItemDelta(rows, k, f));
    }
  }

  lemma CountsMove(tx0: Db, tx: Db, e: Finalized, sign: int)
    requires Ids(e) != [] && UserKnown(tx0, e)
    requires forall i :: 0 <= i < |StatsFor(e, sign).order| ==> StatsFor(e, sign).order[i] in StatsFor(e, sign).items
    requires var rows := ItemRows(StatsFor(e, sign)); ItemsBumped(tx0.items, tx.items, rows, Range(0, |rows|))
    requires var rows := StatsFor(e, sign).matches; MatchesBumped(tx0.matches, tx.matches, rows, Range(0, |rows|))
    requires tx.selected == if e.tournamentId in tx0.selected then tx0.selected[e.tournamentId := tx0.selected[e.tournamentId] + sign]
                            else tx0.selected
    requires tx.points == if e.point == 0 then tx0.points else tx0.points[Lower(e.user) := tx0.points[Lower(e.user)] + sign * e.point]
    ensures Moved(tx0, tx, e, sign)
  {
    hide StatsOf, Lower, Ids, ItemEffect, ItemRows;
    forall c | Tracked(tx0, c) ensures Tracked(tx, c) && Value(tx, c) == Value(tx0, c) + Effect(e, sign, c) {
      if c.ItemCounter? {
        ItemRowsAddUp(e, sign, c.item, c.itemField);
      }
    }
  }

  // ---------- The move exists ----------

  /** The database after an event, counter by counter. */
  ghost function Counted(db: Db, e: Finalized, sign: int): Db {
    Db(db.plays,
       map w | w in db.points :: db.points[w] + Effect(e, sign, Points(w)),
       map t | t in db.selected :: db.selected[t] + Effect(e, sign, Selected(t)),
       map k | k in db.items :: ItemPlus(db.items[k],
         ItemDoc(ItemEffect(e, sign, k, FirstCount), ItemEffect(e, sign, k, SecondCount), ItemEffect(e, sign, k, WinCount),
                 ItemEffect(e, sign, k, TournamentEntries), ItemEffect(e, sign, k, MatchEntries))),
       map k | k in db.matches.Keys + PairKeys(e, sign) :: MatchPlus(PairDoc(db.matches, k),
         MatchDoc(MatchEffect(e, sign, k, LowWins), MatchEffect(e, sign, k, HighWins), MatchEffect(e, sign, k, TotalMatches))))
  }

  lemma NoRowNoEffect(e: Finalized, sign: int, k: MatchKey, f: MatchField)
    requires k !in PairKeys(e, sign)
    ensures MatchEffect(e, sign, k, f) == 0
  {
    hide StatsOf, Ids;
    if Ids(e) != [] {
      var rows := StatsFor(e, sign).matches;
      forall j: nat | j in Range(0, |rows|) ensures MatchDelta(rows, k, f)(j) == 0 {
        assert PairOfRow(rows[j]) in PairKeys(e, sign);
      }
      SumOfZeros(Range(0, |rows|), MatchDelta(rows, k, f));
    }
  }

  lemma CountedMoves(db: Db, e: Finalized, sign: int)
    ensures Moved(db, Counted(db, e, sign), e, sign)
  {
    hide MatchEffect, ItemEffect, PairKeys, Lower;
    var db' := Counted(db, e, sign);
    forall c | Tracked(db, c) ensures Value(db', c) == Value(db, c) + Effect(e, sign, c) {
      if c.MatchCounter? && c.pair !in db.matches && c.pair !in PairKeys(e, sign) {
        NoRowNoEffect(e, sign, c.pair, c.matchField);
      }
    }
  }

  lemma PlaysAreNotCounters(db: Db, counted: Db, db': Db, e: Finalized, sign: int)
    requires Moved(db, counted, e, sign) && db' == counted.(plays := db'.plays)
    ensures Moved(db, db', e, sign)
  {
    hide Effect;
    forall c | Tracked(db, c) ensures Value(db', c) == Value(counted, c) {
    }
  }

  /** An event that can be applied leads to a database in which it is. */
  lemma EventApplies(db: Db, key: PlayKey, e: Finalized) returns (db': Db)
    requires HandleOutcome(db, key, e) == Applied
    ensures Handled(db, db', key, e) && key in db'.plays
    ensures db'.plays[key].event == e && db'.plays.Keys == db.plays.Keys + {key}
  {
    hide Moved, Counted, Effect, Lower, FirstAndSecond, Replayable, UserKnown;
    CountableIff(e);
    CountedMoves(db, e, 1);
    db' := Counted(db, e, 1).(plays := db.plays[key := Play(e, Ids(e)[0], Ids(e)[|Ids(e)| / 2])]);
    PlaysAreNotCounters(db, Counted(db, e, 1), db', e, 1);
  }
}
