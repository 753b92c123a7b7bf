/** What the grant records are worth: over every interleaving of requests, submissions, confirmations and
    statistics updates, and on the chain. */
module GrantLaws {
  import opened Options
  import opened Texts
  import opened Digests
  import opened MerkleTree
  import opened Ledger
  import opened LedgerInvariants
  import opened LedgerTheorems
  import opened HexCodec
  import opened ServedBrackets
  import opened StatsIndex
  import opened StatsService
  import StatsLaws
  import opened Grants
  import opened GrantDecisions

  // ---------- Runs ----------

  datatype Action =
    | Open(request: Request, world: World)
    | Close(wallet: string, reply: Submission)
    | Confirm(key: GrantKey, txId: string, tx: Option<IndexerTx>)
    | Crash
    | Serve(player: string, tournamentId: nat, ids: seq<nat>)
    | Tally(change: StatsLaws.Action)

  /** Confirmed plays are not rolled back: only the log scanner of the other chains rolls back. */
  predicate Enabled(s: System, a: Action) {
    match a
    case Open(r, _) => WellFormed(r.data)
    case Close(wallet, _) => wallet in s.pending
    case Tally(c) =>
      && StatsLaws.Allowed(s.db, c)
      && (c.Rollback? ==>
            forall k <- s.records :: s.records[k].finalizeTxId.Some? ==> c.key != FinalizedPlay(k, s.records[k].finalizeTxId.value))
    case _ => true
  }

  ghost predicate Steps(cfg: Config, s: System, a: Action, s': System) {
    match a
    case Open(r, w) => s' == Opened(s, r.key, Decide(cfg, s, r, w))
    case Close(wallet, reply) => wallet in s.pending && s' == Closed(s, wallet, reply)
    case Confirm(key, txId, tx) => Confirmed(s, s', key, txId, tx)
    case Crash => s' == s.(pending := map[])
    case Serve(player, t, ids) => s' == Serving(s, player, t, ids)
    case Tally(c) => StatsLaws.Steps(s.db, c, s'.db) && s' == s.(db := s'.db)
  }

  ghost predicate IsInitial(s: System) {
    s == System(map[], map[], [], map[], {}, s.db) && StatsLaws.IsFresh(s.db)
  }

  ghost predicate IsRun(cfg: Config, states: seq<System>, actions: seq<Action>) {
    && |states| == |actions| + 1
    && IsInitial(states[0])
    && forall i :: 0 <= i < |actions| ==> Enabled(states[i], actions[i]) && Steps(cfg, states[i], actions[i], states[i + 1])
  }

  // ---------- The records agree with their leaves ----------

  /** Some list served to the wallet for the tournament has exactly the bracket's ids. */
  predicate WasServed(everServed: set<Served>, key: GrantKey, hexes: string) {
    exists v <- everServed ::
      && v.wallet == key.wallet && v.tournamentId == key.tournamentId
      && multiset(AsIds(IdsIn(hexes))) == multiset(AsIds(v.ids))
  }

  /** A grant fit to be submitted: a bracket of served ids, and the leaf that is the digest
      of exactly these fields under the configured tag. */
  predicate DataOk(cfg: Config, everServed: set<Served>, key: GrantKey, d: GrantData) {
    && WellFormed(d.entryItemHexes) && SpellsBracket(d.entryItemHexes)
    && LeafFor(cfg, d.userPk, key.tournamentId, d.point, d.deadline, d.entryItemHexes) == Some(d.leaf)
    && WasServed(everServed, key, d.entryItemHexes)
  }

  predicate RecordOk(key: GrantKey, g: GrantRecord, submitted: seq<Pending>, plays: map<PlayKey, Play>) {
    && Pending(key, g.data) in submitted
    && (g.finalizeTxId.Some? ==> FinalizedPlay(key, g.finalizeTxId.value) in plays)
  }

  predicate GrantsOk(cfg: Config, s: System) {
    && (forall k <- s.records :: RecordOk(k, s.records[k], s.submitted, s.db.plays))
    && (forall w <- s.pending :: s.pending[w].key.wallet == w && DataOk(cfg, s.everServed, s.pending[w].key, s.pending[w].data))
    && (forall p <- s.submitted :: DataOk(cfg, s.everServed, p.key, p.data))
    && (forall k <- s.served :: Served(k.0, k.1, s.served[k]) in s.everServed)
  }

  lemma RecordDataOk(cfg: Config, s: System, key: GrantKey)
    requires GrantsOk(cfg, s) && key in s.records
    ensures DataOk(cfg, s.everServed, key, s.records[key].data)
  {
    hide DataOk;
    assert RecordOk(key, s.records[key], s.submitted, s.db.plays);
    assert Pending(key, s.records[key].data) in s.submitted;
  }

  lemma DecidedDataOk(cfg: Config, s: System, r: Request, w: World)
    requires GrantsOk(cfg, s) && WellFormed(r.data)
    ensures Decide(cfg, s, r, w).Submitting? ==> DataOk(cfg, s.everServed, r.key, Decide(cfg, s, r, w).data)
  {
    hide SpellsBracket, LeafFor, Lower, IdsIn, WellFormed, WasServed, ResolvePoint, GrantsOk;
    LowerKeepsForm(r.data);
    ServedNow(cfg, s, r.key, Lower(r.data));
    if r.key in s.records { RecordDataOk(cfg, s, r.key); }
  }

  lemma ServedNow(cfg: Config, s: System, key: GrantKey, data: string)
    requires GrantsOk(cfg, s)
    ensures IsServed(s, key, data) ==> WasServed(s.everServed, key, data)
  {
    hide SpellsBracket, IdsIn, DataOk, RecordOk;
    if IsServed(s, key, data) {
      var at := (key.wallet, key.tournamentId);
      assert Served(at.0, at.1, s.served[at]) in s.everServed;
    }
  }

  lemma ConfirmKeepsGrants(cfg: Config, s: System, s': System, key: GrantKey, txId: string, tx: Option<IndexerTx>)
    requires GrantsOk(cfg, s) && Confirmed(s, s', key, txId, tx)
    ensures GrantsOk(cfg, s')
  {
    hide DataOk, Moved;
  }

  lemma StatsKeepGrants(cfg: Config, s: System, s': System, c: StatsLaws.Action)
    requires GrantsOk(cfg, s) && Enabled(s, Tally(c)) && StatsLaws.Steps(s.db, c, s'.db) && s' == s.(db := s'.db)
    ensures GrantsOk(cfg, s')
  {
    hide DataOk, Moved;
  }

  lemma ServeKeepsGrants(cfg: Config, s: System, s': System, player: string, t: nat, ids: seq<nat>)
    requires GrantsOk(cfg, s) && s' == Serving(s, player, t, ids)
    ensures GrantsOk(cfg, s')
  {
    hide DataOk;
    forall key, d | DataOk(cfg, s.everServed, key, d) ensures DataOk(cfg, s'.everServed, key, d) {
      ServedStays(cfg, s.everServed, s'.everServed, key, d);
    }
  }

  lemma ServedStays(cfg: Config, everServed: set<Served>, later: set<Served>, key: GrantKey, d: GrantData)
    requires DataOk(cfg, everServed, key, d) && everServed <= later
    ensures DataOk(cfg, later, key, d)
  {
    hide SpellsBracket, LeafFor, IdsIn, WellFormed;
  }

  lemma CloseKeepsGrants(cfg: Config, s: System, s': System, wallet: string, reply: Submission)
    requires GrantsOk(cfg, s) && wallet in s.pending && s' == Closed(s, wallet, reply)
    ensures GrantsOk(cfg, s')
  {
    hide DataOk;
  }

  lemma StepKeepsGrants(cfg: Config, s: System, a: Action, s': System)
    requires GrantsOk(cfg, s) && Enabled(s, a) && Steps(cfg, s, a, s')
    ensures GrantsOk(cfg, s')
  {
    hide DataOk, Confirmed, Decide, StatsLaws.Steps, StatsLaws.Allowed;
    match a
    case Serve(player, t, ids) => ServeKeepsGrants(cfg, s, s', player, t, ids);
    case Close(wallet, reply) => CloseKeepsGrants(cfg, s, s', wallet, reply);
    case Open(r, w) => DecidedDataOk(cfg, s, r, w);
    case Confirm(key, txId, tx) => ConfirmKeepsGrants(cfg, s, s', key, txId, tx);
    case Tally(c) => StatsKeepGrants(cfg, s, s', c);
    case _ =>
  }

  /** In every reachable state each grant ever handed to the network is a rearrangement of ids served to
      its wallet for its tournament, and its leaf is the digest of exactly its own
      fields under the tag; each stored grant is one of those; and each confirmed one has a play in the
      statistics. */
  lemma {:induction false} RecordsMatchTheirLeaves(cfg: Config, states: seq<System>, actions: seq<Action>, n: nat)
    requires IsRun(cfg, states, actions) && n <= |actions|
    ensures GrantsOk(cfg, states[n])
  {
    hide RecordOk, DataOk, Enabled, Steps;
    if n > 0 {
      RecordsMatchTheirLeaves(cfg, states, actions, n - 1);
      StepKeepsGrants(cfg, states[n - 1], actions[n - 1], states[n]);
    }
  }

  // ---------- The points due ----------

  /** The grant was made anew for this request, with the points due at that moment. */
  predicate MadeAnew(cfg: Config, s: System, a: Action, p: Pending) {
    a.Open? && a.request.key == p.key && IsNewGrant(cfg, s, a.request, a.world, p.data)
  }

  predicate IsRequested(s: System, p: Pending) {
    p.key.wallet in s.pending && s.pending[p.key.wallet] == p
  }

  /** A step requests a grant only if it was requested or submitted before, or by making it anew. */
  lemma RequestsComeFrom(cfg: Config, s: System, a: Action, s': System, p: Pending)
    requires GrantsOk(cfg, s) && Enabled(s, a) && Steps(cfg, s, a, s')
    requires IsRequested(s', p) || p in s'.submitted
    ensures IsRequested(s, p) || p in s.submitted || MadeAnew(cfg, s, a, p)
  {
    hide Decide, DataOk, Handled, StatsLaws.Steps, StatsLaws.Allowed, WellFormed, IsNewGrant;
    if a.Open? && p !in s'.submitted { OpeningMakesAnew(cfg, s, a, s', p); }
  }

  lemma OpeningMakesAnew(cfg: Config, s: System, a: Action, s': System, p: Pending)
    requires GrantsOk(cfg, s) && a.Open? && Enabled(s, a) && Steps(cfg, s, a, s') && IsRequested(s', p)
    ensures IsRequested(s, p) || p in s.submitted || MadeAnew(cfg, s, a, p)
  {
    hide Decide, DataOk, WellFormed, IsNewGrant, Stands, IsDead, NoPointIsSet, LeafExists, SpellsBracket;
    var r := a.request;
    DecisionsMean(cfg, s, r, a.world);
    if Stands(cfg, s, r, a.world) { StandingIsStored(cfg, s, r, a.world); }
  }

  lemma StandingIsStored(cfg: Config, s: System, r: Request, w: World)
    requires GrantsOk(cfg, s) && Stands(cfg, s, r, w)
    ensures r.key in s.records && Pending(r.key, s.records[r.key].data) in s.submitted
  {
    hide DataOk;
    assert RecordOk(r.key, s.records[r.key], s.submitted, s.db.plays);
  }

  /** Every grant ever requested or submitted was made anew by one earlier request, with the points due at
      that moment: nothing if a play of the wallet in the tournament was counted by then, else the event
      tournament's own points or one per item. */
  lemma {:induction false} PointsWereDue(cfg: Config, states: seq<System>, actions: seq<Action>, n: nat, p: Pending)
    returns (k: nat)
    requires IsRun(cfg, states, actions) && n <= |actions| && (IsRequested(states[n], p) || p in states[n].submitted)
    ensures k < n && MadeAnew(cfg, states[k], actions[k], p)
    ensures PointIsDue(cfg, states[k].db.plays, p.key, p.data.point, |IdsIn(p.data.entryItemHexes)|)
  {
    hide Enabled, Steps, IsNewGrant, PointIsDue, GrantsOk;
    if n == 0 {
      assert false;
    } else {
      RecordsMatchTheirLeaves(cfg, states, actions, n - 1);
      RequestsComeFrom(cfg, states[n - 1], actions[n - 1], states[n], p);
      if IsRequested(states[n - 1], p) || p in states[n - 1].submitted {
        k := PointsWereDue(cfg, states, actions, n - 1, p);
      } else {
        k := n - 1;
        NewIsDue(cfg, states[k], actions[k], p);
      }
    }
  }

  /** The same of every stored record, whatever was submitted again, confirmed or counted since. */
  lemma RecordedPointsWereDue(cfg: Config, states: seq<System>, actions: seq<Action>, n: nat, key: GrantKey)
    returns (k: nat)
    requires IsRun(cfg, states, actions) && n <= |actions| && key in states[n].records
    ensures var d := states[n].records[key].data;
      && k < n && MadeAnew(cfg, states[k], actions[k], Pending(key, d))
      && PointIsDue(cfg, states[k].db.plays, key, d.point, |IdsIn(d.entryItemHexes)|)
  {
    hide Enabled, Steps, IsNewGrant, PointIsDue, DataOk;
    RecordsMatchTheirLeaves(cfg, states, actions, n);
    assert RecordOk(key, states[n].records[key], states[n].submitted, states[n].db.plays);
    k := PointsWereDue(cfg, states, actions, n, Pending(key, states[n].records[key].data));
  }

  lemma NewIsDue(cfg: Config, s: System, a: Action, p: Pending)
    requires MadeAnew(cfg, s, a, p)
    ensures PointIsDue(cfg, s.db.plays, p.key, p.data.point, |IdsIn(p.data.entryItemHexes)|)
  {
    hide PointIsDue;
  }

  // ---------- Submitting again ----------

  /** A request is the reason for a submission: it was decided so, and a grant that stood for it was dead. */
  predicate IsReason(cfg: Config, s: System, a: Action, p: Pending) {
    && a.Open? && a.request.key == p.key && Decide(cfg, s, a.request, a.world) == Submitting(p.data)
    && (Stands(cfg, s, a.request, a.world) ==> IsDead(cfg, s.records[p.key], a.world) && p.data == s.records[p.key].data)
  }

  lemma DecisionIsReason(cfg: Config, s: System, a: Action, p: Pending)
    requires a.Open? && a.request.key == p.key && Decide(cfg, s, a.request, a.world) == Submitting(p.data)
    requires WellFormed(a.request.data)
    ensures a.request.userPk.Some? && IsReason(cfg, s, a, p)
  {
    hide Decide, Stands, IsDead, NoPointIsSet, LeafExists, IsNewGrant, SpellsBracket, WellFormed;
    DecisionsMean(cfg, s, a.request, a.world);
  }

  /** Whatever is under way was decided by an earlier request of its wallet, and if a grant stood for that
      request, the indexer had shown it dead: no answer, a live transaction or a young absence never makes
      the backend submit. */
  lemma {:induction false} SubmissionsHaveReasons(cfg: Config, states: seq<System>, actions: seq<Action>,
      n: nat, wallet: string)
    returns (k: nat)
    requires IsRun(cfg, states, actions) && n <= |actions| && wallet in states[n].pending
    ensures k < n && actions[k].Open? && actions[k].request.userPk.Some?
    ensures IsReason(cfg, states[k], actions[k], states[n].pending[wallet])
    ensures forall j :: k < j <= n ==> wallet in states[j].pending && states[j].pending[wallet] == states[n].pending[wallet]
  {
    hide Enabled, Decide, IsReason, IsInitial, Handled, StatsLaws.Steps;
    if n == 0 {
      NothingPending(states[0], wallet);
    } else if wallet in states[n - 1].pending && states[n].pending[wallet] == states[n - 1].pending[wallet] {
      k := SubmissionsHaveReasons(cfg, states, actions, n - 1, wallet);
    } else {
      k := n - 1;
      OpenIsWellFormed(states[k], actions[k]);
      DecisionIsReason(cfg, states[k], actions[k], states[n].pending[wallet]);
    }
  }

  lemma OpenIsWellFormed(s: System, a: Action)
    requires Enabled(s, a) && a.Open?
    ensures WellFormed(a.request.data)
  {
  }

  lemma NothingPending(s: System, wallet: string)
    requires IsInitial(s)
    ensures wallet !in s.pending
  {
  }

  /** While a request of a wallet is under way, nobody else changes the record it is for. */
  lemma StepKeepsData(cfg: Config, s: System, a: Action, s': System, wallet: string)
    requires Enabled(s, a) && Steps(cfg, s, a, s') && forall w <- s.pending :: s.pending[w].key.wallet == w
    requires wallet in s.pending && wallet in s'.pending && s'.pending[wallet] == s.pending[wallet]
    ensures SameGrant(s, s', s.pending[wallet].key)
  {
    hide Decide, Handled, StatsLaws.Steps, StatsLaws.Allowed, WellFormed;
  }

  /** The record is there as before, but for the confirmation's mark. */
  predicate SameGrant(s: System, s': System, key: GrantKey) {
    && (key in s.records <==> key in s'.records)
    && (key in s.records ==> s'.records[key] == s.records[key].(finalizeTxId := s'.records[key].finalizeTxId))
  }

  lemma {:induction false} DataStaysWhilePending(cfg: Config, states: seq<System>, actions: seq<Action>,
      k: nat, n: nat, wallet: string)
    requires IsRun(cfg, states, actions) && k < n <= |actions| && actions[k].Open? && wallet in states[n].pending
    requires forall j :: k < j <= n ==> wallet in states[j].pending && states[j].pending[wallet] == states[n].pending[wallet]
    ensures SameGrant(states[k], states[n], states[n].pending[wallet].key)
    decreases n
  {
    hide Enabled, Decide, DataOk, RecordOk, IsInitial, StatsLaws.Steps, Handled;
    if n > k + 1 {
      assert states[n - 1].pending[wallet] == states[n].pending[wallet];
      DataStaysWhilePending(cfg, states, actions, k, n - 1, wallet);
      RecordsMatchTheirLeaves(cfg, states, actions, n - 1);
      StepKeepsData(cfg, states[n - 1], actions[n - 1], states[n], wallet);
    }
  }

  /** A grant submitted again keeps its leaf, deadline, point and bracket.  In every run, when a submission is
      written for which the record stood at the request, the indexer had shown that record dead, and only
      its transaction and time change. */
  lemma ResubmittingKeepsTheGrant(cfg: Config, states: seq<System>, actions: seq<Action>, n: nat,
      wallet: string, txId: string, at: nat)
    returns (k: nat)
    requires IsRun(cfg, states, actions) && n < |actions| && actions[n] == Close(wallet, Submitted(txId, at))
    ensures wallet in states[n].pending && k < n && actions[k].Open? && actions[k].request.userPk.Some?
    ensures var key, r, w := states[n].pending[wallet].key, actions[k].request, actions[k].world;
      && r.key == key
      && (Stands(cfg, states[k], r, w) ==>
            && IsDead(cfg, states[k].records[key], w)
            && key in states[n].records && key in states[n + 1].records
            && states[n].records[key].data == states[k].records[key].data
            && states[n + 1].records[key] == states[n].records[key].(txId := txId, updatedAt := at))
  {
    hide Decide, IsDead, IsInitial, Handled, StatsLaws.Steps;
    assert Enabled(states[n], actions[n]) && Steps(cfg, states[n], actions[n], states[n + 1]);
    k := SubmissionsHaveReasons(cfg, states, actions, n, wallet);
    DataStaysWhilePending(cfg, states, actions, k, n, wallet);
  }

  // ---------- The confirmation's mark ----------

  /** One step changes a confirmed record exactly when it writes a request that had read the record before
      the confirmation, and even then the mark stays. */
  lemma ConfirmedRecordChangesIff(cfg: Config, s: System, a: Action, s': System, key: GrantKey)
    requires Enabled(s, a) && Steps(cfg, s, a, s') && key in s.records && s.records[key].finalizeTxId.Some?
    ensures key in s'.records && s'.records[key].finalizeTxId == s.records[key].finalizeTxId
    ensures s'.records[key] != s.records[key] <==>
      && a.Close? && a.reply.Submitted? && s.pending[a.wallet].key == key
      && (s.pending[a.wallet].data, a.reply.txId, a.reply.at) != (s.records[key].data, s.records[key].txId, s.records[key].updatedAt)
  {
    hide Decide, Handled, StatsLaws.Steps, StatsLaws.Allowed, WellFormed;
  }

  predicate InFlight(s: System, key: GrantKey) {
    exists w <- s.pending :: s.pending[w].key == key
  }

  /** No request for a confirmed grant gets as far as a submission. */
  lemma ConfirmedGrantsAreRefused(cfg: Config, s: System, r: Request, w: World)
    requires r.key in s.records && s.records[r.key].finalizeTxId.Some?
    ensures Decide(cfg, s, r, w).Refused?
  {
    hide SpellsBracket, IdsIn, Lower, IsServed, LeafFor, AlreadyPlayed;
  }

  lemma NothingNewInFlight(cfg: Config, s: System, a: Action, s': System, key: GrantKey)
    requires Enabled(s, a) && Steps(cfg, s, a, s') && key in s.records
    requires s.records[key].finalizeTxId.Some? && !InFlight(s, key)
    ensures !InFlight(s', key)
  {
    hide Decide, Handled, StatsLaws.Steps, StatsLaws.Allowed, WellFormed;
    if a.Open? && a.request.key == key {
      ConfirmedGrantsAreRefused(cfg, s, a.request, a.world);
    }
  }

  /** A grant confirmed while none of its requests is under way never changes again, in no field. */
  lemma {:induction false} ConfirmedGrantsAreFinal(cfg: Config, states: seq<System>, actions: seq<Action>,
      m: nat, n: nat, key: GrantKey)
    requires IsRun(cfg, states, actions) && m <= n <= |actions|
    requires key in states[m].records && states[m].records[key].finalizeTxId.Some? && !InFlight(states[m], key)
    ensures key in states[n].records && states[n].records[key] == states[m].records[key] && !InFlight(states[n], key)
    decreases n
  {
    hide Enabled, Steps;
    if m < n {
      ConfirmedGrantsAreFinal(cfg, states, actions, m, n - 1, key);
      ConfirmedStep(cfg, states[n - 1], actions[n - 1], states[n], key);
    }
  }

  lemma ConfirmedStep(cfg: Config, s: System, a: Action, s': System, key: GrantKey)
    requires Enabled(s, a) && Steps(cfg, s, a, s') && key in s.records
    requires s.records[key].finalizeTxId.Some? && !InFlight(s, key)
    ensures key in s'.records && s'.records[key] == s.records[key] && !InFlight(s', key)
  {
    hide Steps;
    ConfirmedRecordChangesIff(cfg, s, a, s', key);
    NothingNewInFlight(cfg, s, a, s', key);
  }

  /** The mark itself is never taken back, whatever overlaps. */
  lemma {:induction false} MarksStay(cfg: Config, states: seq<System>, actions: seq<Action>, m: nat, n: nat,
      key: GrantKey)
    requires IsRun(cfg, states, actions) && m <= n <= |actions|
    requires key in states[m].records && states[m].records[key].finalizeTxId.Some?
    ensures key in states[n].records && states[n].records[key].finalizeTxId == states[m].records[key].finalizeTxId
    decreases n
  {
    hide Enabled, Steps;
    if m < n {
      MarksStay(cfg, states, actions, m, n - 1, key);
      ConfirmedRecordChangesIff(cfg, states[n - 1], actions[n - 1], states[n], key);
    }
  }

  // ---------- The confirmation and the statistics ----------

  /** A stored grant's bracket always replays: its confirmation fails only for a user nobody knows. */
  lemma ConfirmationFailsIff(cfg: Config, s: System, key: GrantKey, play: PlayKey)
    requires GrantsOk(cfg, s) && key in s.records
    ensures HandleOutcome(s.db, play, EventOf(key, s.records[key])) == Threw
       <==> play !in s.db.plays && !UserKnown(s.db, EventOf(key, s.records[key]))
  {
    hide Lower, LeafFor, WasServed;
    RecordDataOk(cfg, s, key);
    var e := EventOf(key, s.records[key]);
    assert SpellsBracket(e.data) && Ids(e) == IdsIn(e.data);
    CountableIff(e);
  }

  /** A confirmation moves the statistics exactly when its transaction was not counted before; confirming
      a second grant with the same transaction marks it without counting it. */
  lemma ConfirmationCountsIffNew(cfg: Config, s: System, s': System, key: GrantKey, txId: string, tx: Option<IndexerTx>)
    requires GrantsOk(cfg, s) && Confirmable(s, key, tx) && Confirmed(s, s', key, txId, tx)
    requires UserKnown(s.db, EventOf(key, s.records[key]))
    ensures s'.records[key].finalizeTxId == Some(txId)
    ensures var play := FinalizedPlay(key, txId);
      if play in s.db.plays then s'.db == s.db
      else play in s'.db.plays && s'.db.plays[play].event == EventOf(key, s.records[key])
  {
    hide Moved, UserKnown, Ids, Lower;
    ConfirmationFailsIff(cfg, s, key, FinalizedPlay(key, txId));
  }

  // ---------- The record and the chain ----------

  /** Under the tag, a grant's leaf fits one ballot: this voter, tournament, point, deadline and bracket. */
  lemma GrantFitsOneBallot(cfg: Config, everServed: set<Served>, key: GrantKey, d: GrantData, b: Ballot)
    requires DataOk(cfg, everServed, key, d)
    ensures BallotLeaf(cfg.tag, b) == d.leaf <==>
      && KeyOf(cfg, d.userPk) == Some(UserPublicKey(b.secret)) && b.tournamentId == key.tournamentId
      && b.point == d.point && b.deadline == d.deadline && b.bracket == IdsIn(d.entryItemHexes)
  {
    hide BufferFrom, SpellsBracket, WasServed, KeyOf;
    DecodersAgreeIff(d.entryItemHexes);
  }

  /** The tag is part of the leaf, so a vote with a grant's leaf was sealed under the tag of the grant. */
  lemma SameTag(cfg: Config, everServed: set<Served>, key: GrantKey, d: GrantData, v: Vote)
    requires DataOk(cfg, everServed, key, d) && d.leaf == LeafOf(v)
    ensures v.tag == cfg.tag && BallotLeaf(cfg.tag, v.ballot) == d.leaf
  {
    hide BufferFrom, SpellsBracket, KeyOf, WasServed, WellFormed;
  }

  /** A stored grant that reached the chain is good for its vote: the holder of the key, voting in time
      and for the first time with the granted bracket, is accepted. */
  lemma GrantedVoteIsAccepted(cfg: Config, everServed: set<Served>, key: GrantKey, d: GrantData, ch: Chain,
      b: Ballot, blockTime: nat)
    requires Inv(ch) && ch.cells.domainTag == cfg.tag && DataOk(cfg, everServed, key, d)
    requires d.leaf in ch.cells.eligibility.leaves
    requires BallotLeaf(cfg.tag, b) == d.leaf && blockTime <= d.deadline
    requires b.path == PathFor(ch.cells.eligibility.leaves, TREE_DEPTH, IndexOf(ch.cells.eligibility.leaves, d.leaf))
    requires forall v <- ch.votes :: !SameVoter(v, Vote(b, cfg.tag))
    ensures FinalizeTournament(ch.cells, blockTime, b).Accepted?
  {
    hide Inv, FinalizeTournament, SpellsBracket, BufferFrom, PathEntriesFor, IdsIn, WasServed, KeyOf;
    GrantFitsOneBallot(cfg, everServed, key, d, b);
    GrantedSizeOk(cfg, everServed, key, d);
    var leaves := ch.cells.eligibility.leaves;
    assert leaves[..|leaves|] == leaves;
    FinalizeAcceptedIff(ch, blockTime, b);
  }

  lemma GrantedSizeOk(cfg: Config, everServed: set<Served>, key: GrantKey, d: GrantData)
    requires DataOk(cfg, everServed, key, d)
    ensures BracketSizeOk(|IdsIn(d.entryItemHexes)|)
  {
    hide BufferFrom, SpellsBracket, WasServed, KeyOf;
    DecodersAgreeIff(d.entryItemHexes);
  }
}
