/** What a grant request comes to, read off the state, the clock and the indexer's answer. */
module GrantDecisions {
  import opened Options
  import opened Texts
  import opened HexCodec
  import opened ServedBrackets
  import opened StatsIndex
  import opened Grants

  /** The points due for a play: nothing once some play of the wallet in the tournament is counted, else an
      event tournament's own points, else one per item. */
  predicate PointIsDue(cfg: Config, plays: map<PlayKey, Play>, key: GrantKey, point: nat, itemCount: nat) {
    if exists k <- plays :: plays[k].event.user == key.wallet && plays[k].event.tournamentId == key.tournamentId then point == 0
    else if key.tournamentId in cfg.eventPoints then cfg.eventPoints[key.tournamentId] == Some(point)
    else point == itemCount
  }

  /** An event tournament without points, not played before. */
  predicate NoPointIsSet(cfg: Config, plays: map<PlayKey, Play>, key: GrantKey) {
    && (forall k <- plays :: plays[k].event.user != key.wallet || plays[k].event.tournamentId != key.tournamentId)
    && key.tournamentId in cfg.eventPoints && cfg.eventPoints[key.tournamentId] == None
  }

  /** The wallet's lock is free, and the bracket rearranges the ids last served. */
  predicate Admissible(s: System, r: Request) {
    && r.userPk.Some? && r.key.wallet !in s.pending && SpellsBracket(Lower(r.data))
    && (r.key.wallet, r.key.tournamentId) in s.served
    && multiset(AsIds(IdsIn(Lower(r.data)))) == multiset(AsIds(s.served[(r.key.wallet, r.key.tournamentId)]))
  }

  /** An open record of the same key and bracket, whose deadline is not over by more than the grace. */
  predicate Stands(cfg: Config, s: System, r: Request, w: World) {
    && r.userPk.Some? && r.key in s.records
    && var g := s.records[r.key];
      && g.finalizeTxId == None && g.data.userPk == r.userPk.value && g.data.entryItemHexes == Lower(r.data)
      && w.now < g.data.deadline + cfg.graceSeconds
  }

  /** The indexer answered, and knows no live transaction of the grant: none at all once the grace is over,
      or one that failed or missed the contract. */
  predicate IsDead(cfg: Config, g: GrantRecord, w: World) {
    w.response.Transactions? &&
    if w.response.txs == [] then w.now >= g.updatedAt + cfg.livenessThresholdSeconds
    else
      var tx := w.response.txs[0];
      tx.status == Failure || tx.status == PartialSuccess || (tx.status == Success && !tx.callsContract)
  }

  /** A grant made for this request: its key and bracket, the points due now, a deadline counted from now. */
  predicate IsNewGrant(cfg: Config, s: System, r: Request, w: World, d: GrantData) {
    && r.userPk == Some(d.userPk) && d.entryItemHexes == Lower(r.data) && d.deadline == w.now + cfg.ttlSeconds
    && PointIsDue(cfg, s.db.plays, r.key, d.point, |IdsIn(d.entryItemHexes)|)
  }

  predicate LeafExists(r: Request) {
    var n := |IdsIn(Lower(r.data))|;
    (n == 16 || n == 32 || n == 64) && r.userPk.Some? && Bytes32Of(r.userPk.value).Some?
  }

  /** Why a request is refused, in the order of the checks. */
  predicate IsRefused(cfg: Config, s: System, r: Request, w: World, why: Refusal) {
    match why
    case NoUserPk => r.userPk.None?
    case Busy => r.userPk.Some? && r.key.wallet in s.pending
    case BadBracket => r.userPk.Some? && r.key.wallet !in s.pending && !SpellsBracket(Lower(r.data))
    case NotServed => r.userPk.Some? && r.key.wallet !in s.pending && SpellsBracket(Lower(r.data)) && !Admissible(s, r)
    case NoPoint => Admissible(s, r) && NoPointIsSet(cfg, s.db.plays, r.key)
    case AlreadyConfirmed =>
      && Admissible(s, r) && !NoPointIsSet(cfg, s.db.plays, r.key)
      && r.key in s.records && s.records[r.key].finalizeTxId.Some?
    case BadLeaf =>
      && Admissible(s, r) && !NoPointIsSet(cfg, s.db.plays, r.key) && !Stands(cfg, s, r, w)
      && !(r.key in s.records && s.records[r.key].finalizeTxId.Some?) && !LeafExists(r)
  }

  /** Each answer in terms of what the request found. */
  predicate Means(cfg: Config, s: System, r: Request, w: World, d: Decision) {
    match d
    case Refused(why) => IsRefused(cfg, s, r, w, why)
    case Kept(g) =>
      && Admissible(s, r) && !NoPointIsSet(cfg, s.db.plays, r.key) && Stands(cfg, s, r, w)
      && g == s.records[r.key] && !IsDead(cfg, g, w)
    case Submitting(data) =>
      && Admissible(s, r) && !NoPointIsSet(cfg, s.db.plays, r.key)
      && if Stands(cfg, s, r, w) then data == s.records[r.key].data && IsDead(cfg, s.records[r.key], w)
         else !(r.key in s.records && s.records[r.key].finalizeTxId.Some?) && LeafExists(r) && IsNewGrant(cfg, s, r, w, data)
  }

  lemma ServedIff(s: System, key: GrantKey, data: string)
    ensures IsServed(s, key, data) <==>
      && SpellsBracket(data) && (key.wallet, key.tournamentId) in s.served
      && multiset(AsIds(IdsIn(data))) == multiset(AsIds(s.served[(key.wallet, key.tournamentId)]))
  {
    hide SpellsBracket, IdsIn;
  }

  lemma PointNow(cfg: Config, s: System, key: GrantKey, itemCount: nat)
    ensures var point := ResolvePoint(cfg, s, key, itemCount);
      && (point.None? <==> NoPointIsSet(cfg, s.db.plays, key))
      && (point.Some? ==> PointIsDue(cfg, s.db.plays, key, point.value, itemCount))
  {
  }

  lemma LeafExistsIff(cfg: Config, r: Request, point: nat, deadline: nat)
    requires WellFormed(r.data) && r.userPk.Some?
    ensures LeafFor(cfg, r.userPk.value, r.key.tournamentId, point, deadline, Lower(r.data)).Some?
       <==> |BufferFrom(AfterPrefix(Lower(r.data)))| % 2 == 0 && LeafExists(r)
  {
    hide BufferFrom, Lower, WellFormed;
    LowerKeepsForm(r.data);
    WellFormedDecodes(Lower(r.data));
  }

  lemma WellFormedDecodes(data: string)
    requires WellFormed(data)
    ensures HexBytes(Stripped(data)) == Some(BufferFrom(AfterPrefix(data)))
  {
    hide BufferFrom;
    DecodersAgreeIff(data);
  }

  /** A key's text is 64 hex digits, with or without the prefix, and stands for what its 32 bytes do. */
  lemma KeyOfReads(cfg: Config, userPk: string)
    ensures KeyOf(cfg, userPk).Some? <==> IsStrictHex(Stripped(userPk)) && |Stripped(userPk)| == 64
    ensures KeyOf(cfg, userPk).Some? ==> KeyOf(cfg, userPk).value == cfg.asBytes32(HexBytes(Stripped(userPk)).value)
  {
  }

  lemma ReuseMeans(cfg: Config, g: GrantRecord, w: World)
    ensures ReuseOrReplace(cfg, g, w) == if IsDead(cfg, g, w) then Submitting(g.data) else Kept(g)
  {
  }

  /** Every answer of the grant request is the one the state, the clock and the indexer call for: the first
      check that fails decides a refusal; an open record of the same request is kept unless it is dead, and
      then submitted again as it is; anything else gets a new grant with the points due at that moment. */
  lemma DecisionsMean(cfg: Config, s: System, r: Request, w: World)
    requires WellFormed(r.data)
    ensures Means(cfg, s, r, w, Decide(cfg, s, r, w))
  {
    hide SpellsBracket, IdsIn, LeafFor, Lower, WellFormed, IsServed, ResolvePoint, NoPointIsSet, PointIsDue, LeafExists;
    hide IsDead, ReuseOrReplace;
    var data := Lower(r.data);
    ServedIff(s, r.key, data);
    PointNow(cfg, s, r.key, |IdsIn(data)|);
    if r.userPk.Some? && SpellsBracket(data) {
      EvenBytes(data);
      forall point, deadline ensures LeafFor(cfg, r.userPk.value, r.key.tournamentId, point, deadline, data).Some? <==> LeafExists(r) {
        LeafExistsIff(cfg, r, point, deadline);
      }
    }
    if r.key in s.records { ReuseMeans(cfg, s.records[r.key], w); }
  }

  lemma EvenBytes(data: string)
    requires SpellsBracket(data)
    ensures |BufferFrom(AfterPrefix(data))| % 2 == 0
  {
    hide IdsIn, BufferFrom;
  }
}
