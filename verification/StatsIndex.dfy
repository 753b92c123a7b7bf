/** The statistics database: what a finalize event adds to it, what a rollback takes away again, and the
    chunked, unordered bulk increments both are made of. */
module StatsIndex {
  import opened Options
  import opened Sums
  import opened HexCodec
  import opened Bracket
  import opened BracketLaws

  datatype PlayKey = PlayKey(chainId: nat, txHash: string, logIndex: nat)

  /** A finalize event; `data` is the bracket as prefixed hex. */
  datatype Finalized = Finalized(user: string, tournamentId: nat, data: string, point: int)

  datatype Play = Play(event: Finalized, firstItemId: int, secondItemId: int)

  datatype ItemDoc = ItemDoc(firstCount: int, secondCount: int, wins: int, tournamentEntries: int, totalMatchEntries: int)

  datatype MatchDoc = MatchDoc(lowWins: int, highWins: int, totalMatches: int)

  datatype ItemKey = ItemKey(tournamentId: nat, itemId: int)
  datatype MatchKey = MatchKey(tournamentId: nat, itemLowId: int, itemHighId: int)

  /** The collections: plays, user points by lower-case wallet, selections per tournament, items, pairs. */
  datatype Db = Db(plays: map<PlayKey, Play>, points: map<string, int>, selected: map<nat, int>,
                   items: map<ItemKey, ItemDoc>, matches: map<MatchKey, MatchDoc>)

  // ---------- Counters ----------

  datatype ItemField = FirstCount | SecondCount | WinCount | TournamentEntries | MatchEntries
  datatype MatchField = LowWins | HighWins | TotalMatches

  /** One number of the database. */
  datatype Counter =
    | Points(wallet: string)
    | Selected(tournamentId: nat)
    | ItemCounter(item: ItemKey, itemField: ItemField)
    | MatchCounter(pair: MatchKey, matchField: MatchField)

  function ItemValue(d: ItemDoc, f: ItemField): int {
    match f
    case FirstCount => d.firstCount
    case SecondCount => d.secondCount
    case WinCount => d.wins
    case TournamentEntries => d.tournamentEntries
    case MatchEntries => d.totalMatchEntries
  }

  function MatchValue(d: MatchDoc, f: MatchField): int {
    match f
    case LowWins => d.lowWins
    case HighWins => d.highWins
    case TotalMatches => d.totalMatches
  }

  /** A pair without a document counts zero. */
  function PairDoc(matches: map<MatchKey, MatchDoc>, k: MatchKey): MatchDoc {
    if k in matches then matches[k] else MatchDoc(0, 0, 0)
  }

  predicate Tracked(db: Db, c: Counter) {
    match c
    case Points(wallet) => wallet in db.points
    case Selected(t) => t in db.selected
    case ItemCounter(k, _) => k in db.items
    case MatchCounter(_, _) => true
  }

  function Value(db: Db, c: Counter): int
    requires Tracked(db, c)
  {
    match c
    case Points(wallet) => db.points[wallet]
    case Selected(t) => db.selected[t]
    case ItemCounter(k, f) => ItemValue(db.items[k], f)
    case MatchCounter(k, f) => MatchValue(PairDoc(db.matches, k), f)
  }

  // ---------- Bulk increments ----------

  const CHUNK_SIZE := 500

  function ItemInc(r: ItemUpdate): ItemDoc {
    ItemDoc(r.firstCount, r.secondCount, r.wins, r.tournamentEntries, r.totalMatchEntries)
  }

  function MatchInc(r: MatchUpdate): MatchDoc {
    MatchDoc(r.lowWins, r.highWins, r.totalMatches)
  }

  function ItemPlus(a: ItemDoc, b: ItemDoc): ItemDoc {
    ItemDoc(a.firstCount + b.firstCount, a.secondCount + b.secondCount, a.wins + b.wins,
            a.tournamentEntries + b.tournamentEntries, a.totalMatchEntries + b.totalMatchEntries)
  }

  function MatchPlus(a: MatchDoc, b: MatchDoc): MatchDoc {
    MatchDoc(a.lowWins + b.lowWins, a.highWins + b.highWins, a.totalMatches + b.totalMatches)
  }

  /** What row `j` adds to one field of one item. */
  ghost function ItemDelta(rows: seq<ItemUpdate>, k: ItemKey, f: ItemField): nat -> int {
    (j: nat) => if j < |rows| && ItemKey(rows[j].tournamentId, rows[j].itemId) == k then ItemValue(ItemInc(rows[j]), f) else 0
  }

  ghost function MatchDelta(rows: seq<MatchUpdate>, k: MatchKey, f: MatchField): nat -> int {
    (j: nat) =>
      if j < |rows| && PairOfRow(rows[j]) == k
      then MatchValue(MatchInc(rows[j]), f) else 0
  }

  ghost predicate ItemsBumped(items0: map<ItemKey, ItemDoc>, items: map<ItemKey, ItemDoc>,
      rows: seq<ItemUpdate>, done: set<nat>) {
    && items.Keys == items0.Keys
    && forall k, f :: k in items ==> ItemValue(items[k], f) == ItemValue(items0[k], f) + Sum(done, ItemDelta(rows, k, f))
  }

  function PairOfRow(r: MatchUpdate): MatchKey {
    MatchKey(r.tournamentId, r.itemLowId, r.itemHighId)
  }

  /** The pairs of some rows. */
  ghost function PairsOf(rows: seq<MatchUpdate>, done: set<nat>): set<MatchKey> {
    set j | j in done && j < |rows| :: PairOfRow(rows[j])
  }

  ghost predicate MatchesBumped(matches0: map<MatchKey, MatchDoc>, matches: map<MatchKey, MatchDoc>,
      rows: seq<MatchUpdate>, done: set<nat>) {
    && matches.Keys == matches0.Keys + PairsOf(rows, done)
    && forall k, f :: MatchValue(PairDoc(matches, k), f) == MatchValue(PairDoc(matches0, k), f) + Sum(done, MatchDelta(rows, k, f))
  }

  /** One unordered bulk write: the rows of a chunk reach the items in any order; a row without an item is
      dropped. */
  method BulkWriteItems(items0: map<ItemKey, ItemDoc>, rows: seq<ItemUpdate>, lo: nat, hi: nat)
    returns (items: map<ItemKey, ItemDoc>)
    requires lo <= hi <= |rows|
    ensures ItemsBumped(items0, items, rows, Range(lo, hi))
  {
    items := items0;
    var pending := Range(lo, hi);
    ghost var done: set<nat> := {};
    while pending != {}
      invariant pending <= Range(lo, hi) && done == Range(lo, hi) - pending
      invariant ItemsBumped(items0, items, rows, done)
      decreases |pending|
    {
      var j :| j in pending;
      var k := ItemKey(rows[j].tournamentId, rows[j].itemId);
      ghost var before := items;
      if k in items { items := items[k := ItemPlus(items[k], ItemInc(rows[j]))]; }
      OneItemRow(items0, before, items, rows, done, j);
      pending := pending - {j};
      done := done + {j};
    }
    assert done == Range(lo, hi);
  }

  lemma OneItemRow(items0: map<ItemKey, ItemDoc>, before: map<ItemKey, ItemDoc>, items: map<ItemKey, ItemDoc>,
      rows: seq<ItemUpdate>, done: set<nat>, j: nat)
    requires ItemsBumped(items0, before, rows, done) && j !in done && j < |rows|
    requires var k := ItemKey(rows[j].tournamentId, rows[j].itemId);
      items == if k in before then before[k := ItemPlus(before[k], ItemInc(rows[j]))] else before
    ensures ItemsBumped(items0, items, rows, done + {j})
  {
    forall k, f | k in items
      ensures ItemValue(items[k], f) == ItemValue(items0[k], f) + Sum(done + {j}, ItemDelta(rows, k, f))
    {
      SumInsert(done, ItemDelta(rows, k, f), j);
    }
  }

  method UpdateBulkItem(items0: map<ItemKey, ItemDoc>, rows: seq<ItemUpdate>) returns (items: map<ItemKey, ItemDoc>)
    ensures ItemsBumped(items0, items, rows, Range(0, |rows|))
  {
    items := items0;
    var i := 0;
    assert ItemsBumped(items0, items, rows, {}) && Range(0, 0) == {};
    while i < |rows|
      invariant 0 <= i && ItemsBumped(items0, items, rows, Range(0, if i < |rows| then i else |rows|))
    {
      var to := if i + CHUNK_SIZE < |rows| then i + CHUNK_SIZE else |rows|;
      ghost var before := items;
      items := BulkWriteItems(items, rows, i, to);
      forall k, f | k in items
        ensures ItemValue(items[k], f) == ItemValue(items0[k], f) + Sum(Range(0, to), ItemDelta(rows, k, f))
      {
        SumUnion(Range(0, i), Range(i, to), ItemDelta(rows, k, f));
        assert Range(0, i) + Range(i, to) == Range(0, to);
      }
      i := i + CHUNK_SIZE;
    }
  }

  /** The same for pairs, which are created on first use. */
  method BulkWriteMatches(matches0: map<MatchKey, MatchDoc>, rows: seq<MatchUpdate>, lo: nat, hi: nat)
    returns (matches: map<MatchKey, MatchDoc>)
    requires lo <= hi <= |rows|
    ensures MatchesBumped(matches0, matches, rows, Range(lo, hi))
  {
    matches := matches0;
    var pending := Range(lo, hi);
    ghost var done: set<nat> := {};
    while pending != {}
      invariant pending <= Range(lo, hi) && done == Range(lo, hi) - pending
      invariant MatchesBumped(matches0, matches, rows, done)
      decreases |pending|
    {
      var j :| j in pending;
      var k := PairOfRow(rows[j]);
      ghost var before := matches;
      matches := matches[k := MatchPlus(PairDoc(matches, k), MatchInc(rows[j]))];
      OneMatchRow(matches0, before, matches, rows, done, j);
      pending := pending - {j};
      done := done + {j};
    }
    assert done == Range(lo, hi);
  }

  lemma OneMatchRow(matches0: map<MatchKey, MatchDoc>, before: map<MatchKey, MatchDoc>,
      matches: map<MatchKey, MatchDoc>, rows: seq<MatchUpdate>, done: set<nat>, j: nat)
    requires MatchesBumped(matches0, before, rows, done) && j !in done && j < |rows|
    requires var k := PairOfRow(rows[j]);
      matches == before[k := MatchPlus(PairDoc(before, k), MatchInc(rows[j]))]
    ensures MatchesBumped(matches0, matches, rows, done + {j})
  {
    assert PairsOf(rows, done + {j}) == PairsOf(rows, done) + {PairOfRow(rows[j])};
    forall k, f
      ensures MatchValue(PairDoc(matches, k), f) == MatchValue(PairDoc(matches0, k), f) + Sum(done + {j}, MatchDelta(rows, k, f))
    {
      assert MatchValue(PairDoc(matches, k), f) == MatchValue(PairDoc(before, k), f) + MatchDelta(rows, k, f)(j);
      SumInsert(done, MatchDelta(rows, k, f), j);
    }
  }

  lemma RangesJoin(i: nat, to: nat)
    requires i <= to
    ensures Range(0, i) + Range(i, to) == Range(0, to) && Range(0, i) !! Range(i, to)
  {
    hide Range;
  }

  lemma PairsJoin(rows: seq<MatchUpdate>, a: set<nat>, b: set<nat>)
    ensures PairsOf(rows, a + b) == PairsOf(rows, a) + PairsOf(rows, b)
  {
    hide PairOfRow;
  }

  lemma OneMoreChunk(matches0: map<MatchKey, MatchDoc>, before: map<MatchKey, MatchDoc>, matches: map<MatchKey, MatchDoc>,
      rows: seq<MatchUpdate>, i: nat, to: nat)
    requires i <= to <= |rows|
    requires MatchesBumped(matches0, before, rows, Range(0, i)) && MatchesBumped(before, matches, rows, Range(i, to))
    ensures MatchesBumped(matches0, matches, rows, Range(0, to))
  {
    hide MatchValue, PairDoc, MatchDelta, PairsOf, Range;
    RangesJoin(i, to);
    PairsJoin(rows, Range(0, i), Range(i, to));
    forall k, f
      ensures MatchValue(PairDoc(matches, k), f) == MatchValue(PairDoc(matches0, k), f) + Sum(Range(0, to), MatchDelta(rows, k, f))
    {
      SumUnion(Range(0, i), Range(i, to), MatchDelta(rows, k, f));
    }
  }

  method UpdateBulkMatch(matches0: map<MatchKey, MatchDoc>, rows: seq<MatchUpdate>)
    returns (matches: map<MatchKey, MatchDoc>)
    ensures MatchesBumped(matches0, matches, rows, Range(0, |rows|))
  {
    hide PairDoc, MatchValue, MatchDelta;
    matches := matches0;
    var i := 0;
    assert MatchesBumped(matches0, matches, rows, {}) && Range(0, 0) == {};
    while i < |rows|
      invariant 0 <= i && MatchesBumped(matches0, matches, rows, Range(0, if i < |rows| then i else |rows|))
    {
      var to := if i + CHUNK_SIZE < |rows| then i + CHUNK_SIZE else |rows|;
      ghost var before := matches;
      matches := BulkWriteMatches(matches, rows, i, to);
      OneMoreChunk(matches0, before, matches, rows, i, to);
      i := i + CHUNK_SIZE;
    }
  }
}
