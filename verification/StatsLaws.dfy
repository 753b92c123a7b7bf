/** The statistics agree with the plays: over every sequence of events, replays and rollbacks, each counter
    is the sum of the live plays' effects. */
module StatsLaws {
  import opened Texts
  import opened Sums
  import opened StatsIndex
  import opened StatsService

  ghost function EffectOn(plays: map<PlayKey, Play>, c: Counter): PlayKey -> int {
    (k: PlayKey) => if k in plays then Effect(plays[k].event, 1, c) else 0
  }

  /** The recomputation of one counter from scratch. */
  ghost function Recomputed(plays: map<PlayKey, Play>, c: Counter): int {
    Sum(plays.Keys, EffectOn(plays, c))
  }

  ghost predicate Agrees(db: Db) {
    forall c :: Tracked(db, c) ==> Value(db, c) == Recomputed(db.plays, c)
  }

  predicate PlayOk(db: Db, p: Play) {
    Countable(p.event) && UserKnown(db, p.event) && p.firstItemId == Ids(p.event)[0] && p.secondItemId == Ids(p.event)[|Ids(p.event)| / 2]
  }

  predicate PlaysOk(db: Db) {
    forall k <- db.plays :: PlayOk(db, db.plays[k])
  }

  // ---------- Steps and runs ----------

  datatype Action =
    | Handle(key: PlayKey, event: Finalized)
    | Rollback(key: PlayKey, event: Finalized)
    | AddUser(wallet: string)

  /** A rollback carries the event it undoes; users start without points. */
  predicate Allowed(db: Db, a: Action) {
    match a
    case Handle(_, _) => true
    case Rollback(key, e) => key in db.plays ==> db.plays[key].event == e
    case AddUser(wallet) => wallet !in db.points
  }

  ghost predicate Steps(db: Db, a: Action, db': Db) {
    match a
    case Handle(key, e) => Handled(db, db', key, e)
    case Rollback(key, e) => RolledBack(db, db', key, e)
    case AddUser(wallet) => db' == db.(points := db.points[wallet := 0])
  }

  /** The catalogue of tournaments and items is fixed, nobody has played, and every counter is zero. */
  ghost predicate IsFresh(db: Db) {
    db.plays == map[] && forall c :: Tracked(db, c) ==> Value(db, c) == 0
  }

  ghost predicate IsRun(states: seq<Db>, actions: seq<Action>) {
    && |states| == |actions| + 1 && IsFresh(states[0])
    && forall i :: 0 <= i < |actions| ==> Allowed(states[i], actions[i]) && Steps(states[i], actions[i], states[i + 1])
  }

  // ---------- One step ----------

  lemma AddedPlay(plays: map<PlayKey, Play>, key: PlayKey, p: Play, c: Counter)
    requires key !in plays
    ensures Recomputed(plays[key := p], c) == Recomputed(plays, c) + Effect(p.event, 1, c)
  {
    hide Effect;
    var plays' := plays[key := p];
    assert plays'.Keys == plays.Keys + {key};
    SumInsert(plays.Keys, EffectOn(plays', c), key);
    SumCongruent(plays.Keys, EffectOn(plays', c), EffectOn(plays, c));
  }

  lemma RemovedPlay(plays: map<PlayKey, Play>, key: PlayKey, c: Counter)
    requires key in plays
    ensures Recomputed(plays - {key}, c) == Recomputed(plays, c) - Effect(plays[key].event, 1, c)
  {
    AddedPlay(plays - {key}, key, plays[key], c);
    assert (plays - {key})[key := plays[key]] == plays;
  }

  lemma NewUserHasNothing(db: Db, wallet: string)
    requires PlaysOk(db) && wallet !in db.points
    ensures Recomputed(db.plays, Points(wallet)) == 0
  {
    hide Lower, Ids, Countable;
    SumOfZeros(db.plays.Keys, EffectOn(db.plays, Points(wallet)));
  }

  lemma MovedAgrees(db: Db, db': Db, e: Finalized, sign: int)
    requires Agrees(db) && Moved(db, db', e, sign)
    requires forall c :: Recomputed(db'.plays, c) == Recomputed(db.plays, c) + Effect(e, sign, c)
    ensures Agrees(db')
  {
    hide Effect, Recomputed, Value;
    forall c | Tracked(db', c) ensures Value(db', c) == Recomputed(db'.plays, c) {
      assert Tracked(db, c);
    }
  }

  lemma StepAgrees(db: Db, a: Action, db': Db)
    requires Agrees(db) && PlaysOk(db) && Allowed(db, a) && Steps(db, a, db')
    ensures Agrees(db')
  {
    hide PlaysOk, Recomputed, Effect, Moved, Ids, UserKnown;
    match a
    case AddUser(wallet) =>
      NewUserHasNothing(db, wallet);
      forall c | Tracked(db', c) ensures Value(db', c) == Recomputed(db'.plays, c) {
        if c != Points(wallet) { assert Tracked(db, c) && Value(db', c) == Value(db, c); }
      }
    case Handle(key, e) =>
      if db' != db {
        forall c ensures Recomputed(db'.plays, c) == Recomputed(db.plays, c) + Effect(e, 1, c) {
          AddedPlay(db.plays, key, db'.plays[key], c);
        }
        MovedAgrees(db, db', e, 1);
      }
    case Rollback(key, e) =>
      if db' != db {
        forall c ensures Recomputed(db'.plays, c) == Recomputed(db.plays, c) + Effect(e, -1, c) {
          RemovedPlay(db.plays, key, c);
          EffectNegates(e, c);
        }
        MovedAgrees(db, db', e, -1);
      }
  }

  lemma StepKeepsPlays(db: Db, a: Action, db': Db)
    requires PlaysOk(db) && Allowed(db, a) && Steps(db, a, db')
    ensures PlaysOk(db')
  {
    hide Effect, Value, Ids, Lower, Countable;
    if a.Handle? && db' != db {
      CountableIff(a.event);
    }
  }

  // ---------- The laws ----------

  /** After any events, replays and rollbacks, each user's points, each tournament's selections, each
      counter of each item and each counter of each pair equal their recomputation from the live plays. */
  lemma {:induction false} StatisticsAgree(states: seq<Db>, actions: seq<Action>, n: nat)
    requires IsRun(states, actions) && n <= |actions|
    ensures Agrees(states[n]) && PlaysOk(states[n])
  {
    hide Value, Effect, Steps, PlaysOk, Recomputed, Allowed;
    if n == 0 {
      NoPlays(states[0]);
    } else {
      StatisticsAgree(states, actions, n - 1);
      StepAgrees(states[n - 1], actions[n - 1], states[n]);
      StepKeepsPlays(states[n - 1], actions[n - 1], states[n]);
    }
  }

  lemma NoPlays(db: Db)
    requires IsFresh(db)
    ensures Agrees(db) && PlaysOk(db)
  {
    hide Effect, Value;
  }

  /** A play, once counted, stays until it is rolled back. */
  lemma {:induction false} PlaysStay(states: seq<Db>, actions: seq<Action>, m: nat, n: nat, key: PlayKey)
    requires IsRun(states, actions) && m <= n <= |actions| && key in states[m].plays
    requires forall k :: m <= k < n && actions[k].Rollback? ==> actions[k].key != key
    ensures key in states[n].plays && states[n].plays[key] == states[m].plays[key]
    decreases n
  {
    hide Moved, IsFresh, Ids, HandleOutcome, RollbackOutcome;
    if m < n {
      PlaysStay(states, actions, m, n - 1, key);
      StepKeepsPlay(states[n - 1], actions[n - 1], states[n], key);
    }
  }

  lemma StepKeepsPlay(db: Db, a: Action, db': Db, key: PlayKey)
    requires Steps(db, a, db') && key in db.plays && (a.Rollback? ==> a.key != key)
    ensures key in db'.plays && db'.plays[key] == db.plays[key]
  {
    hide Moved, Ids;
  }

  /** Delivered again at any later time, under the same key, even altered, an event changes nothing until
      its play is rolled back: over a whole run it is counted once. */
  lemma ReplayIsIgnored(states: seq<Db>, actions: seq<Action>, m: nat, n: nat)
    requires IsRun(states, actions) && m < n < |actions| && actions[m].Handle?
    requires actions[n].Handle? && actions[n].key == actions[m].key
    requires HandleOutcome(states[m], actions[m].key, actions[m].event) == Applied
    requires forall k :: m < k < n && actions[k].Rollback? ==> actions[k].key != actions[m].key
    ensures states[n + 1] == states[n] && actions[m].key in states[n].plays
    ensures states[n].plays[actions[m].key].event == actions[m].event
  {
    hide Moved, IsFresh, Ids;
    var key := actions[m].key;
    assert Steps(states[m], actions[m], states[m + 1]) && Steps(states[n], actions[n], states[n + 1]);
    PlaysStay(states, actions, m + 1, n, key);
  }

  /** Rolling an event back restores every document, up to pairs left with zeros. */
  lemma RollbackUndoes(db: Db, db1: Db, db2: Db, key: PlayKey, e: Finalized)
    requires Handled(db, db1, key, e) && HandleOutcome(db, key, e) == Applied && RolledBack(db1, db2, key, e)
    ensures RollbackOutcome(db1, key, e) == Applied
    ensures db2 == db.(matches := db2.matches) && forall k :: PairDoc(db2.matches, k) == PairDoc(db.matches, k)
  {
    hide Effect, Ids, Lower;
    forall c | Tracked(db, c) ensures Tracked(db2, c) && Value(db2, c) == Value(db, c) {
      EffectNegates(e, c);
      assert Tracked(db1, c);
    }
    assert db2.plays == db.plays;
    SameCounters(db, db2);
  }

  lemma SameCounters(db: Db, db': Db)
    requires db'.points.Keys == db.points.Keys && db'.selected.Keys == db.selected.Keys
    requires db'.items.Keys == db.items.Keys
    requires forall c :: Tracked(db, c) ==> Tracked(db', c) && Value(db', c) == Value(db, c)
    ensures db'.points == db.points && db'.selected == db.selected && db'.items == db.items
    ensures forall k :: PairDoc(db'.matches, k) == PairDoc(db.matches, k)
  {
    forall w | w in db.points ensures db'.points[w] == db.points[w] {
      assert Value(db', Points(w)) == Value(db, Points(w));
    }
    forall t | t in db.selected ensures db'.selected[t] == db.selected[t] {
      assert Value(db', Selected(t)) == Value(db, Selected(t));
    }
    forall k | k in db.items ensures db'.items[k] == db.items[k] {
      forall f ensures ItemValue(db'.items[k], f) == ItemValue(db.items[k], f) {
        assert Value(db', ItemCounter(k, f)) == Value(db, ItemCounter(k, f));
      }
      SameItem(db'.items[k], db.items[k]);
    }
    forall k ensures PairDoc(db'.matches, k) == PairDoc(db.matches, k) {
      forall f ensures MatchValue(PairDoc(db'.matches, k), f) == MatchValue(PairDoc(db.matches, k), f) {
        assert Value(db', MatchCounter(k, f)) == Value(db, MatchCounter(k, f));
      }
      SamePairDoc(PairDoc(db'.matches, k), PairDoc(db.matches, k));
    }
  }

  lemma SameItem(a: ItemDoc, b: ItemDoc)
    requires forall f :: ItemValue(a, f) == ItemValue(b, f)
    ensures a == b
  {
    assert ItemValue(a, FirstCount) == ItemValue(b, FirstCount) && ItemValue(a, SecondCount) == ItemValue(b, SecondCount);
    assert ItemValue(a, WinCount) == ItemValue(b, WinCount) && ItemValue(a, TournamentEntries) == ItemValue(b, TournamentEntries);
    assert ItemValue(a, MatchEntries) == ItemValue(b, MatchEntries);
  }

  lemma SamePairDoc(a: MatchDoc, b: MatchDoc)
    requires forall f :: MatchValue(a, f) == MatchValue(b, f)
    ensures a == b
  {
    assert MatchValue(a, LowWins) == MatchValue(b, LowWins) && MatchValue(a, HighWins) == MatchValue(b, HighWins);
    assert MatchValue(a, TotalMatches) == MatchValue(b, TotalMatches);
  }

  /** In a run, a rollback of a live play is never refused: the user it credited is still there and its
      bracket still replays. */
  lemma RollbackIsAlwaysPossible(states: seq<Db>, actions: seq<Action>, n: nat, key: PlayKey)
    requires IsRun(states, actions) && n <= |actions| && key in states[n].plays
    ensures RollbackOutcome(states[n], key, states[n].plays[key].event) == Applied
  {
    hide Ids, Lower, Steps, Agrees;
    StatisticsAgree(states, actions, n);
    CountableIff(states[n].plays[key].event);
  }
}
