/** Issuing eligibility grants: the checks of a grant request, the record kept of what was put on the
    chain, the decision to submit it again, and the confirmation that joins it to the statistics.

    A request reads the record when it opens and writes it when its transaction was submitted; the
    confirmation takes no lock and may fall in between. */
module Grants {
  import opened Options
  import opened Texts
  import opened Digests
  import opened Ledger
  import opened HexCodec
  import opened Bracket
  import opened ServedBrackets
  import opened StatsIndex
  import opened StatsService

  datatype GrantKey = GrantKey(chainId: nat, wallet: string, tournamentId: nat)

  /** A grant's fields; the user's key is kept as the hex text the client sent. */
  datatype GrantData = GrantData(userPk: string, entryItemHexes: string, point: nat, deadline: nat, leaf: Bytes32)

  datatype GrantRecord = GrantRecord(data: GrantData, txId: string, updatedAt: nat, finalizeTxId: Option<string>)

  /** The cached tag, the time limits, the event tournaments with the points they are worth, and how 32
      bytes are read as a key or digest. */
  datatype Config = Config(tag: Bytes32, ttlSeconds: nat, graceSeconds: nat, livenessThresholdSeconds: nat,
                           eventPoints: map<nat, Option<nat>>, asBytes32: seq<Byte> -> Bytes32)

  datatype Pending = Pending(key: GrantKey, data: GrantData)

  /** A list of item ids served to a wallet for a tournament. */
  datatype Served = Served(wallet: string, tournamentId: nat, ids: seq<nat>)

  /** The records, the requests between reading and writing (one per wallet: the lock), every grant handed
      to the network, the lists served (the latest per wallet and tournament, and all of them), and the
      statistics. */
  datatype System = System(records: map<GrantKey, GrantRecord>, pending: map<string, Pending>, submitted: seq<Pending>,
                           served: map<(string, nat), seq<nat>>, everServed: set<Served>, db: Db)

  // ---------- The probe ----------

  datatype TxStatus = Success | PartialSuccess | Failure | UnknownStatus

  datatype IndexerTx = IndexerTx(status: TxStatus, callsContract: bool)

  /** What asking the indexer for a transaction can come to. */
  datatype Response = Unreachable | HttpError | GraphqlErrors | Malformed | Transactions(txs: seq<IndexerTx>)

  datatype Liveness = Alive | Dead | Absent | Inconclusive

  function ProbeGrantLiveness(r: Response): Liveness {
    if !r.Transactions? then Inconclusive
    else if r.txs == [] then Absent
    else
      match r.txs[0].status
      case UnknownStatus => Inconclusive
      case Success => if r.txs[0].callsContract then Alive else Dead
      case _ => Dead
  }

  // ---------- The leaf ----------

  function KeyOf(cfg: Config, userPk: string): Option<Bytes32> {
    if Bytes32Of(userPk).Some? then Some(cfg.asBytes32(Bytes32Of(userPk).value)) else None
  }

  function LeafFor(cfg: Config, userPk: string, tournamentId: nat, point: nat, deadline: nat,
      hexes: string): Option<Bytes32> {
    var bytes := HexBytes(Stripped(hexes));
    if bytes.None? || |bytes.value| % 2 != 0 || !BracketSizeOk(|Uint16s(bytes.value)|) || KeyOf(cfg, userPk).None? then None
    else Some(EligibilityLeaf(cfg.tag, KeyOf(cfg, userPk).value, tournamentId, point, deadline, HashBracket(Uint16s(bytes.value))))
  }

  method EligibilityLeafHex(cfg: Config, userPk: string, tournamentId: nat, point: nat, deadline: nat, hexes: string)
    returns (leaf: Option<Bytes32>)
    ensures leaf == LeafFor(cfg, userPk, tournamentId, point, deadline, hexes)
  {
    var bytes := FromHex(hexes);
    if bytes.None? || |bytes.value| % 2 != 0 { return None; }
    var count := |bytes.value| / 2;
    if !BracketSizeOk(count) { return None; }
    var bracket: seq<nat> := [];
    for i := 0 to count
      invariant |bracket| == i && forall k :: 0 <= k < i ==> bracket[k] == Uint16s(bytes.value)[k]
    {
      bracket := bracket + [256 * (bytes.value[2 * i] as int) + bytes.value[2 * i + 1]];
    }
    assert bracket == Uint16s(bytes.value);
    var key := Bytes32Of(userPk);
    if key.None? { return None; }
    return Some(EligibilityLeaf(cfg.tag, cfg.asBytes32(key.value), tournamentId, point, deadline, HashBracket(bracket)));
  }

  // ---------- A request ----------

  datatype Request = Request(key: GrantKey, data: string, userPk: Option<string>)

  /** What a request reads from outside: the clock and the indexer's answer. */
  datatype World = World(now: nat, response: Response)

  datatype Refusal = NoUserPk | Busy | BadBracket | NotServed | NoPoint | AlreadyConfirmed | BadLeaf

  datatype Decision = Refused(why: Refusal) | Kept(grant: GrantRecord) | Submitting(data: GrantData)

  /** The bracket rearranges the ids last served to the wallet for the tournament. */
  predicate IsServed(s: System, key: GrantKey, data: string) {
    && (key.wallet, key.tournamentId) in s.served && SpellsBracket(data)
    && multiset(AsIds(IdsIn(data))) == multiset(AsIds(s.served[(key.wallet, key.tournamentId)]))
  }

  predicate AlreadyPlayed(db: Db, wallet: string, tournamentId: nat) {
    exists k <- db.plays :: db.plays[k].event.user == wallet && db.plays[k].event.tournamentId == tournamentId
  }

  /** A play is worth points once: an event tournament's own, which may be missing, or one per item. */
  function ResolvePoint(cfg: Config, s: System, key: GrantKey, itemCount: nat): Option<nat> {
    if AlreadyPlayed(s.db, key.wallet, key.tournamentId) then Some(0)
    else if key.tournamentId in cfg.eventPoints then cfg.eventPoints[key.tournamentId]
    else Some(itemCount)
  }

  /** The record still stands for this very request. */
  predicate Matches(cfg: Config, g: GrantRecord, userPk: string, data: string, now: nat) {
    g.finalizeTxId.None? && g.data.userPk == userPk && g.data.entryItemHexes == data && now < g.data.deadline + cfg.graceSeconds
  }

  /** Seen alive, in doubt, or absent but young: keep it.  Dead, or absent for too long: submit it again. */
  function ReuseOrReplace(cfg: Config, g: GrantRecord, w: World): Decision {
    match ProbeGrantLiveness(w.response)
    case Alive => Kept(g)
    case Inconclusive => Kept(g)
    case Absent => if w.now - g.updatedAt < cfg.livenessThresholdSeconds then Kept(g) else Submitting(g.data)
    case Dead => Submitting(g.data)
  }

  function Decide(cfg: Config, s: System, r: Request, w: World): Decision {
    var data := Lower(r.data);
    if r.userPk.None? then Refused(NoUserPk)
    else if r.key.wallet in s.pending then Refused(Busy)
    else if !SpellsBracket(data) then Refused(BadBracket)
    else if !IsServed(s, r.key, data) then Refused(NotServed)
    else if ResolvePoint(cfg, s, r.key, |IdsIn(data)|).None? then Refused(NoPoint)
    else if r.key in s.records && Matches(cfg, s.records[r.key], r.userPk.value, data, w.now)
    then ReuseOrReplace(cfg, s.records[r.key], w)
    else if r.key in s.records && s.records[r.key].finalizeTxId.Some? then Refused(AlreadyConfirmed)
    else
      var point, deadline := ResolvePoint(cfg, s, r.key, |IdsIn(data)|).value, w.now + cfg.ttlSeconds;
      var leaf := LeafFor(cfg, r.userPk.value, r.key.tournamentId, point, deadline, data);
      if leaf.None? then Refused(BadLeaf) else Submitting(GrantData(r.userPk.value, data, point, deadline, leaf.value))
  }

  function Opened(s: System, key: GrantKey, d: Decision): System {
    if d.Submitting? then s.(pending := s.pending[key.wallet := Pending(key, d.data)]) else s
  }

  function Serving(s: System, wallet: string, tournamentId: nat, ids: seq<nat>): System {
    s.(served := s.served[(wallet, tournamentId) := ids], everServed := s.everServed + {Served(wallet, tournamentId, ids)})
  }

  // ---------- The submission ----------

  /** The call returns a transaction id; or it throws, before or after the transaction went out. */
  datatype Submission = Submitted(txId: string, at: nat) | NotSubmitted | SubmittedButLost

  /** The update sets the grant's fields and no others: the confirmation's mark stays. */
  function Upserted(records: map<GrantKey, GrantRecord>, key: GrantKey, data: GrantData, txId: string,
      at: nat): map<GrantKey, GrantRecord> {
    records[key := if key in records then records[key].(data := data, txId := txId, updatedAt := at)
                   else GrantRecord(data, txId, at, None)]
  }

  function Closed(s: System, wallet: string, reply: Submission): System
    requires wallet in s.pending
  {
    var p := s.pending[wallet];
    var s' := s.(pending := s.pending - {wallet});
    match reply
    case NotSubmitted => s'
    case SubmittedButLost => s'.(submitted := s.submitted + [p])
    case Submitted(txId, at) => s'.(submitted := s.submitted + [p], records := Upserted(s.records, p.key, p.data, txId, at))
  }

  // ---------- The confirmation ----------

  function FinalizedPlay(key: GrantKey, txId: string): PlayKey {
    PlayKey(key.chainId, txId, 0)
  }

  function EventOf(key: GrantKey, g: GrantRecord): Finalized {
    Finalized(key.wallet, key.tournamentId, g.data.entryItemHexes, g.data.point)
  }

  /** There is an open grant, and the indexer knows the transaction as a call of the contract. */
  predicate Confirmable(s: System, key: GrantKey, tx: Option<IndexerTx>) {
    key in s.records && s.records[key].finalizeTxId.None? && tx.Some? && tx.value.callsContract
  }

  ghost predicate Confirmed(s: System, s': System, key: GrantKey, txId: string, tx: Option<IndexerTx>) {
    if !Confirmable(s, key, tx) then s' == s
    else
      var g, play := s.records[key], FinalizedPlay(key, txId);
      && Handled(s.db, s'.db, play, EventOf(key, g))
      && s' == if HandleOutcome(s.db, play, EventOf(key, g)) == Threw then s
               else s.(db := s'.db, records := s.records[key := g.(finalizeTxId := Some(txId))])
  }

  // ---------- The services ----------

  class GrantService {
    const cfg: Config
    const stats: FinalizerService
    var records: map<GrantKey, GrantRecord>
    var pending: map<string, Pending>
    ghost var submitted: seq<Pending>
    var served: map<(string, nat), seq<nat>>
    ghost var everServed: set<Served>

    constructor (cfg: Config, stats: FinalizerService)
      ensures this.cfg == cfg && this.stats == stats && Sys() == System(map[], map[], [], map[], {}, stats.db)
    {
      this.cfg, this.stats := cfg, stats;
      records, pending, submitted, served, everServed := map[], map[], [], map[], {};
    }

    ghost function Sys(): System
      reads this, stats
    {
      System(records, pending, submitted, served, everServed, stats.db)
    }

    method ReuseOrReplaceGrant(existing: GrantRecord, w: World) returns (d: Decision)
      ensures d == ReuseOrReplace(cfg, existing, w)
    {
      var age := w.now - existing.updatedAt;
      match ProbeGrantLiveness(w.response) {
        case Alive => return Kept(existing);
        case Inconclusive => return Kept(existing);
        case Absent =>
          if age < cfg.livenessThresholdSeconds { return Kept(existing); }
        case Dead =>
      }
      return Submitting(existing.data);
    }

    /** The ids drawn for a play are served, and remembered as the wallet's for the tournament. */
    method Serve(wallet: string, tournamentId: nat, ids: seq<nat>)
      modifies this`served, this`everServed
      ensures Sys() == Serving(old(Sys()), wallet, tournamentId, ids)
    {
      served := served[(wallet, tournamentId) := ids];
      everServed := everServed + {Served(wallet, tournamentId, ids)};
    }

    /** A grant request up to its submission. */
    method GetMidnightFinalizeGrant(r: Request, w: World) returns (d: Decision)
      requires WellFormed(r.data)
      modifies this`pending
      ensures d == Decide(cfg, old(Sys()), r, w) && Sys() == Opened(old(Sys()), r.key, d)
    {
      hide SpellsBracket, IdsIn, LeafFor, Lower, ReuseOrReplace, WellFormed;
      if r.userPk.None? { return Refused(NoUserPk); }
      if r.key.wallet in pending { return Refused(Busy); }
      var data := Lower(r.data);
      LowerKeepsForm(r.data);
      var ids := DecodeAndValidateData(data);
      if ids.None? { return Refused(BadBracket); }
      if (r.key.wallet, r.key.tournamentId) !in served { return Refused(NotServed); }
      var accepted := AcceptBracket(data, served[(r.key.wallet, r.key.tournamentId)]);
      if accepted.None? { return Refused(NotServed); }
      var point := ResolvePoint(cfg, System(records, pending, [], served, {}, stats.db), r.key, |ids.value|);
      if point.None? { return Refused(NoPoint); }
      if r.key in records && Matches(cfg, records[r.key], r.userPk.value, data, w.now) {
        d := ReuseOrReplaceGrant(records[r.key], w);
      } else if r.key in records && records[r.key].finalizeTxId.Some? {
        return Refused(AlreadyConfirmed);
      } else {
        var deadline := w.now + cfg.ttlSeconds;
        var leaf := EligibilityLeafHex(cfg, r.userPk.value, r.key.tournamentId, point.value, deadline, data);
        if leaf.None? { return Refused(BadLeaf); }
        d := Submitting(GrantData(r.userPk.value, data, point.value, deadline, leaf.value));
      }
      if d.Submitting? { pending := pending[r.key.wallet := Pending(r.key, d.data)]; }
    }

    /** The rest of it: the answer to the submission, the record, the release of the lock. */
    method Close(wallet: string, reply: Submission)
      requires wallet in pending
      modifies this
      ensures Sys() == Closed(old(Sys()), wallet, reply)
    {
      var p := pending[wallet];
      if !reply.NotSubmitted? { submitted := submitted + [p]; }
      if reply.Submitted? { records := Upserted(records, p.key, p.data, reply.txId, reply.at); }
      pending := pending - {wallet};
    }

    method ConfirmFinalize(key: GrantKey, txId: string, tx: Option<IndexerTx>) returns (confirmed: bool)
      modifies this`records, stats
      ensures Confirmed(old(Sys()), Sys(), key, txId, tx)
      ensures confirmed <==> key in records && records[key].finalizeTxId.Some?
    {
      hide Moved;
      if key !in records { return false; }
      var g := records[key];
      if g.finalizeTxId.Some? { return true; }
      if tx.None? || !tx.value.callsContract { return false; }
      var outcome := stats.HandleTournamentFinalized(FinalizedPlay(key, txId), EventOf(key, g));
      if outcome == Threw { return false; }
      records := records[key := g.(finalizeTxId := Some(txId))];
      return true;
    }
  }

  /** Lower-casing keeps a well-formed bracket well formed. */
  lemma LowerKeepsForm(data: string)
    requires WellFormed(data)
    ensures WellFormed(Lower(data))
  {
    var low := Lower(data);
    forall i | 0 <= i < |AfterPrefix(low)| ensures IsHex(AfterPrefix(low)[i]) {
      assert IsHex(AfterPrefix(data)[i]);
    }
  }
}
