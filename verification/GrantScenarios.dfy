/** Runs of the grant path that exist: grants issued and confirmed, and a counted grant replaced by one for
    another bracket. */
module GrantScenarios {
  import opened Options
  import opened Texts
  import opened Digests
  import opened Ledger
  import opened HexCodec
  import opened Bracket
  import opened BracketLaws
  import opened ServedBrackets
  import opened StatsIndex
  import opened StatsService
  import StatsLaws
  import opened Grants
  import opened GrantLaws

  // ---------- Paths ----------

  /** A path on which only known transactions are confirmed. */
  ghost predicate IsPath(cfg: Config, known: set<string>, states: seq<System>, actions: seq<Action>) {
    && |states| == |actions| + 1
    && forall i :: 0 <= i < |actions| ==>
         Enabled(states[i], actions[i]) && Knows(known, actions[i]) && Steps(cfg, states[i], actions[i], states[i + 1])
  }

  predicate Knows(known: set<string>, a: Action) {
    a.Confirm? && a.tx.Some? && a.tx.value.callsContract ==> a.txId in known
  }

  ghost predicate Leads(cfg: Config, known: set<string>, s: System, t: System) {
    exists states, actions :: IsPath(cfg, known, states, actions) && states[0] == s && states[|actions|] == t
  }

  lemma LeadsHere(cfg: Config, known: set<string>, s: System)
    ensures Leads(cfg, known, s, s)
  {
    var none: seq<Action> := [];
    assert IsPath(cfg, known, [s], none) && [s][|none|] == s;
  }

  lemma LeadsOn(cfg: Config, known: set<string>, s: System, t: System, a: Action, t': System)
    requires Leads(cfg, known, s, t) && Enabled(t, a) && Knows(known, a) && Steps(cfg, t, a, t')
    ensures Leads(cfg, known, s, t')
  {
    hide Enabled, Steps, Knows;
    var states, actions :| IsPath(cfg, known, states, actions) && states[0] == s && states[|actions|] == t;
    assert IsPath(cfg, known, states + [t'], actions + [a]);
  }

  // ---------- Texts of brackets ----------

  predicate AreIds(ids: seq<nat>) {
    forall i :: 0 <= i < |ids| ==> ids[i] < 65536
  }

  function BytesOf(ids: seq<nat>): (bytes: seq<Byte>)
    requires AreIds(ids)
    ensures |bytes| == 2 * |ids|
  {
    seq(2 * |ids|, i requires 0 <= i < 2 * |ids| => if i % 2 == 0 then ids[i / 2] / 256 else ids[i / 2] % 256)
  }

  function DataOf(ids: seq<nat>): string
    requires AreIds(ids)
  {
    "0x" + ToHex(BytesOf(ids))
  }

  lemma WordsOfBytes(ids: seq<nat>)
    requires AreIds(ids)
    ensures Uint16s(BytesOf(ids)) == ids
  {
    forall i | 0 <= i < |ids| ensures Uint16s(BytesOf(ids))[i] == ids[i] {
      assert BytesOf(ids)[2 * i] == ids[i] / 256 && BytesOf(ids)[2 * i + 1] == ids[i] % 256;
    }
  }

  lemma DigitsAreLower(v: nat)
    requires v < 16
    ensures LowerChar(HexDigit(v)) == HexDigit(v)
  {
  }

  /** Every list of ids has a text: in lower case, well formed, and read back alike by both decoders. */
  lemma DataSpells(ids: seq<nat>)
    requires AreIds(ids) && ids != []
    ensures WellFormed(DataOf(ids)) && Lower(DataOf(ids)) == DataOf(ids) && IdsIn(DataOf(ids)) == ids
    ensures HexBytes(Stripped(DataOf(ids))) == Some(BytesOf(ids))
    ensures BufferFrom(AfterPrefix(DataOf(ids))) == BytesOf(ids)
  {
    hide BytesOf, HexDigit, LowerChar, Uint16s;
    var data, digits := DataOf(ids), ToHex(BytesOf(ids));
    assert AfterPrefix(data) == digits && Stripped(data) == digits;
    HexRoundTrip(BytesOf(ids));
    PrintedIsStrict(BytesOf(ids));
    DecodersAgreeIff(data);
    WordsOfBytes(ids);
    LowerOfDigits(BytesOf(ids));
    assert Lower(data) == data;
  }

  lemma LowerOfDigits(bytes: seq<Byte>)
    ensures Lower("0x" + ToHex(bytes)) == "0x" + ToHex(bytes)
  {
    hide HexDigit, LowerChar;
    var digits := ToHex(bytes);
    forall i | 0 <= i < |digits| ensures LowerChar(digits[i]) == digits[i] {
      DigitsAreLower(if i % 2 == 0 then bytes[i / 2] / 16 else bytes[i / 2] % 16);
    }
    LowerOfPrefix();
  }

  lemma LowerOfPrefix()
    ensures LowerChar('0') == '0' && LowerChar('x') == 'x'
  {
  }

  /** A list a grant can be issued for. */
  predicate IsGrantable(ids: seq<nat>) {
    AreIds(ids) && BracketSizeOk(|ids|) && Distinct(ids)
  }

  lemma GrantableSpells(ids: seq<nat>)
    requires IsGrantable(ids)
    ensures WellFormed(DataOf(ids)) && Lower(DataOf(ids)) == DataOf(ids)
    ensures IdsIn(DataOf(ids)) == ids && SpellsBracket(DataOf(ids))
    ensures HexBytes(Stripped(DataOf(ids))) == Some(BytesOf(ids))
    ensures BufferFrom(AfterPrefix(DataOf(ids))) == BytesOf(ids)
  {
    hide DataOf, BytesOf, WellFormed, Lower, IsStrictHex;
    DataSpells(ids);
    assert IsPowerOfTwo(2) && IsPowerOfTwo(4) && IsPowerOfTwo(8) && IsPowerOfTwo(16);
    assert IsPowerOfTwo(32) && IsPowerOfTwo(64);
  }

  // ---------- A grant on record ----------

  /** A tournament whose points are configured, and a key of 32 bytes. */
  predicate IsOpenTo(cfg: Config, key: GrantKey, userPk: string) {
    (key.tournamentId in cfg.eventPoints ==> cfg.eventPoints[key.tournamentId].Some?) && Bytes32Of(userPk).Some?
  }

  function PointDue(cfg: Config, key: GrantKey, ids: seq<nat>): nat
    requires key.tournamentId in cfg.eventPoints ==> cfg.eventPoints[key.tournamentId].Some?
  {
    if key.tournamentId in cfg.eventPoints then cfg.eventPoints[key.tournamentId].value else |ids|
  }

  function FreshGrant(cfg: Config, key: GrantKey, userPk: string, ids: seq<nat>, now: nat): GrantData
    requires IsGrantable(ids) && IsOpenTo(cfg, key, userPk)
  {
    var point := PointDue(cfg, key, ids);
    GrantData(userPk, DataOf(ids), point, now + cfg.ttlSeconds,
              EligibilityLeaf(cfg.tag, cfg.asBytes32(Bytes32Of(userPk).value), key.tournamentId, point, now + cfg.ttlSeconds,
                              HashBracket(ids)))
  }

  /** The wallet is known, nothing was counted, and these ids were the last it was served. */
  predicate Plays(s: System, key: GrantKey, ids: seq<nat>) {
    && s.db.plays == map[] && Lower(key.wallet) in s.db.points
    && (key.wallet, key.tournamentId) in s.served && s.served[(key.wallet, key.tournamentId)] == ids
  }

  lemma PlayerServed(cfg: Config, known: set<string>, s0: System, s1: System, key: GrantKey, ids: seq<nat>)
    returns (s: System)
    requires Leads(cfg, known, s0, s1) && s1.db.plays == map[]
    ensures Leads(cfg, known, s0, s) && Plays(s, key, ids) && s.pending == s1.pending && s.records == s1.records
    ensures s.submitted == s1.submitted
  {
    hide Leads, StatsLaws.IsFresh, Lower;
    s := s1;
    if Lower(key.wallet) !in s.db.points {
      var user := StatsLaws.AddUser(Lower(key.wallet));
      var s' := s.(db := s.db.(points := s.db.points[Lower(key.wallet) := 0]));
      LeadsOn(cfg, known, s0, s, Tally(user), s');
      s := s';
    }
    LeadsOn(cfg, known, s0, s, Serve(key.wallet, key.tournamentId, ids), Serving(s, key.wallet, key.tournamentId, ids));
    s := Serving(s, key.wallet, key.tournamentId, ids);
  }

  /** A request for a bracket of the served ids that no standing grant answers is granted. */
  lemma RequestIsGranted(cfg: Config, s: System, key: GrantKey, userPk: string, served: seq<nat>,
      ids: seq<nat>, now: nat)
    requires IsGrantable(ids) && IsOpenTo(cfg, key, userPk) && Plays(s, key, served) && key.wallet !in s.pending
    requires multiset(AsIds(ids)) == multiset(AsIds(served))
    requires key in s.records ==> s.records[key].finalizeTxId.None? && s.records[key].data.entryItemHexes != DataOf(ids)
    ensures Decide(cfg, s, Request(key, DataOf(ids), Some(userPk)), World(now, Unreachable))
         == Submitting(FreshGrant(cfg, key, userPk, ids, now))
  {
    hide DataOf, SpellsBracket, IdsIn, Lower, WellFormed, BufferFrom, IsStrictHex;
    GrantableSpells(ids);
    NothingPlayed(s.db, key.wallet, key.tournamentId);
    GrantableLeaf(cfg, key, userPk, ids, now);
  }

  lemma NothingPlayed(db: Db, wallet: string, t: nat)
    requires db.plays == map[]
    ensures !AlreadyPlayed(db, wallet, t)
  {
  }

  lemma GrantableLeaf(cfg: Config, key: GrantKey, userPk: string, ids: seq<nat>, now: nat)
    requires IsGrantable(ids) && IsOpenTo(cfg, key, userPk)
    ensures var d := FreshGrant(cfg, key, userPk, ids, now);
      LeafFor(cfg, userPk, key.tournamentId, d.point, d.deadline, DataOf(ids)) == Some(d.leaf)
  {
    hide DataOf, BytesOf, WellFormed, Lower, BufferFrom, IsStrictHex;
    GrantableSpells(ids);
    WordsOfBytes(ids);
  }

  lemma GrantRecorded(cfg: Config, known: set<string>, s0: System, s1: System, key: GrantKey, userPk: string,
      ids: seq<nat>, now: nat, txId: string)
    returns (s: System)
    requires Leads(cfg, known, s0, s1) && s1.db.plays == map[] && s1.pending == map[] && key !in s1.records
    requires IsGrantable(ids) && IsOpenTo(cfg, key, userPk)
    ensures Leads(cfg, known, s0, s) && Plays(s, key, ids) && s.pending == map[]
    ensures var d := FreshGrant(cfg, key, userPk, ids, now);
      s.records == s1.records[key := GrantRecord(d, txId, now, None)] && s.submitted == s1.submitted + [Pending(key, d)]
  {
    hide Leads, FreshGrant, DataOf, Decide, IsOpenTo;
    s := PlayerServed(cfg, known, s0, s1, key, ids);
    s := RequestUnderWay(cfg, known, s0, s, key, userPk, ids, ids, now);
    var s' := Closed(s, key.wallet, Submitted(txId, now));
    LeadsOn(cfg, known, s0, s, Close(key.wallet, Submitted(txId, now)), s');
    s := s';
    assert s.pending == map[];
  }

  lemma FreshStart(cfg: Config, known: set<string>, s: System)
    requires IsInitial(s)
    ensures Leads(cfg, known, s, s) && s.db.plays == map[] && s.pending == map[] && s.records == map[]
  {
    hide Leads;
    LeadsHere(cfg, known, s);
  }

  lemma RequestUnderWay(cfg: Config, known: set<string>, s0: System, s1: System, key: GrantKey, userPk: string,
      served: seq<nat>,
      ids: seq<nat>, now: nat)
    returns (s: System)
    requires Leads(cfg, known, s0, s1) && IsGrantable(ids) && IsOpenTo(cfg, key, userPk)
    requires Plays(s1, key, served) && s1.pending == map[]
    requires multiset(AsIds(ids)) == multiset(AsIds(served))
    requires key in s1.records ==> s1.records[key].finalizeTxId.None? && s1.records[key].data.entryItemHexes != DataOf(ids)
    ensures Leads(cfg, known, s0, s)
    ensures s == s1.(pending := map[key.wallet := Pending(key, FreshGrant(cfg, key, userPk, ids, now))])
  {
    hide Leads, FreshGrant, DataOf, Decide, IsOpenTo, Plays, SpellsBracket, IdsIn, BufferFrom;
    GrantableSpells(ids);
    RequestIsGranted(cfg, s1, key, userPk, served, ids, now);
    var r, w := Request(key, DataOf(ids), Some(userPk)), World(now, Unreachable);
    s := Opened(s1, key, Decide(cfg, s1, r, w));
    LeadsOn(cfg, known, s0, s1, Open(r, w), s);
  }

  // ---------- Confirmations ----------

  /** Any transaction that calls the contract confirms an open grant, and its play is counted. */
  lemma CallConfirms(cfg: Config, known: set<string>, s0: System, s1: System, key: GrantKey, ids: seq<nat>,
      txId: string)
    returns (s: System)
    requires Leads(cfg, known, s0, s1) && IsGrantable(ids) && s1.db.plays == map[] && Lower(key.wallet) in s1.db.points
    requires key in s1.records && s1.records[key].finalizeTxId.None? && txId in known
    requires s1.records[key].data.entryItemHexes == DataOf(ids)
    ensures Leads(cfg, known, s0, s) && s.pending == s1.pending && s.submitted == s1.submitted && key in s.records
    ensures s.records[key] == s1.records[key].(finalizeTxId := Some(txId))
    ensures FinalizedPlay(key, txId) in s.db.plays
    ensures s.db.plays[FinalizedPlay(key, txId)].event == EventOf(key, s1.records[key])
  {
    hide Leads, DataOf, Handled, Lower, FirstAndSecond, Replayable, Ids;
    var g, tx := s1.records[key], Some(IndexerTx(Success, true));
    var e, play := EventOf(key, g), FinalizedPlay(key, txId);
    EventIsCountable(e, ids);
    var db := EventApplies(s1.db, play, e);
    s := s1.(db := db, records := s1.records[key := g.(finalizeTxId := Some(txId))]);
    LeadsOn(cfg, known, s0, s1, Confirm(key, txId, tx), s);
  }

  lemma EventIsCountable(e: Finalized, ids: seq<nat>)
    requires IsGrantable(ids) && e.data == DataOf(ids)
    ensures Ids(e) == ids && FirstAndSecond(e).Some? && Replayable(|Ids(e)|) && Ids(e) != []
  {
    hide DataOf, BytesOf, BufferFrom, Distinct;
    GrantableSpells(ids);
    WordsOfBytes(ids);
    CountableIff(e);
  }

  /** The text of a list determines it. */
  lemma DataIsInjective(a: seq<nat>, b: seq<nat>)
    requires AreIds(a) && AreIds(b) && a != [] && b != [] && DataOf(a) == DataOf(b)
    ensures a == b
  {
    hide DataOf;
    DataSpells(a);
    DataSpells(b);
  }

  /** The overlap, from every start: the wallet asks for a second arrangement of its ids while the grant for
      the first is confirmed and counted; the write that follows leaves a record, marked as confirmed, for
      a bracket that was never counted. */
  lemma OverlapIsReached(cfg: Config, known: set<string>, s0: System, key: GrantKey, userPk: string, ids: seq<nat>,
      other: seq<nat>, now: nat, later: nat,
      grantTx: string, voteTx: string, newTx: string) returns (s: System)
    requires IsInitial(s0) && IsGrantable(ids) && IsGrantable(other) && IsOpenTo(cfg, key, userPk) && voteTx in known
    requires ids != other && multiset(AsIds(other)) == multiset(AsIds(ids))
    ensures Leads(cfg, known, s0, s) && key in s.records && s.records[key].finalizeTxId == Some(voteTx)
    ensures FinalizedPlay(key, voteTx) in s.db.plays
    ensures s.db.plays[FinalizedPlay(key, voteTx)].event.data == DataOf(ids)
    ensures s.records[key].data.entryItemHexes == DataOf(other) != DataOf(ids)
  {
    hide Leads, DataOf, IsOpenTo, Plays;
    FreshStart(cfg, known, s0);
    s := GrantRecorded(cfg, known, s0, s0, key, userPk, ids, now, grantTx);
    if DataOf(ids) == DataOf(other) { DataIsInjective(ids, other); }
    PlaysMeans(s, key, ids);
    s := RequestUnderWay(cfg, known, s0, s, key, userPk, ids, other, later);
    s := CallConfirms(cfg, known, s0, s, key, ids, voteTx);
    var s' := Closed(s, key.wallet, Submitted(newTx, later));
    LeadsOn(cfg, known, s0, s, Close(key.wallet, Submitted(newTx, later)), s');
    s := s';
  }

  lemma PlaysMeans(s: System, key: GrantKey, ids: seq<nat>)
    requires Plays(s, key, ids)
    ensures s.db.plays == map[] && Lower(key.wallet) in s.db.points
  {
  }

  /** Such lists exist: sixteen ids, and the same with the first two exchanged. */
  lemma ArrangementsExist() returns (ids: seq<nat>, other: seq<nat>)
    ensures IsGrantable(ids) && IsGrantable(other) && ids != other && multiset(AsIds(other)) == multiset(AsIds(ids))
  {
    ids := seq(16, i => i);
    other := ids[0 := ids[1]][1 := ids[0]];
    assert other[0] == 1 && ids[0] == 0;
  }
}
