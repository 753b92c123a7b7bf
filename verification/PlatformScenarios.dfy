/** Runs of the whole platform that exist: a grant confirmed by its own transaction, on a chain without any
    vote, and one confirmed by each other kind of call. */
module PlatformScenarios {
  import opened Options
  import opened Digests
  import opened Texts
  import opened MerkleTree
  import opened Ledger
  import opened LedgerInvariants
  import opened LedgerTheorems
  import opened Orders
  import opened HexCodec
  import opened StatsService
  import opened Grants
  import opened GrantLaws
  import opened Platform
  import opened ConfirmedVotes
  import Fulfilment
  import FulfilmentInvariants
  import StatsLaws
  import TerminalOrders
  import Scenarios
  import GrantScenarios

  // ---------- Paths ----------

  ghost predicate IsPlatformPath(cfg: Config, states: seq<State>, events: seq<Event>) {
    && |states| == |events| + 1
    && forall i :: 0 <= i < |events| ==> Moves(cfg, states[i], events[i], states[i + 1])
  }

  /** Some events lead from `s` to `t`. */
  ghost predicate Leads(cfg: Config, s: State, t: State) {
    exists states, events :: IsPlatformPath(cfg, states, events) && states[0] == s && states[|events|] == t
  }

  lemma LeadsHere(cfg: Config, s: State)
    ensures Leads(cfg, s, s)
  {
    var none: seq<Event> := [];
    assert IsPlatformPath(cfg, [s], none) && [s][|none|] == s;
  }

  lemma LeadsOn(cfg: Config, s: State, t: State, e: Event, t': State)
    requires Leads(cfg, s, t) && Moves(cfg, t, e, t')
    ensures Leads(cfg, s, t')
  {
    hide Moves;
    var states, events :| IsPlatformPath(cfg, states, events) && states[0] == s && states[|events|] == t;
    assert IsPlatformPath(cfg, states + [t'], events + [e]);
  }

  lemma {:induction false} PathKeepsOk(cfg: Config, states: seq<State>, events: seq<Event>, n: nat)
    requires IsPlatformPath(cfg, states, events) && n <= |events| && PlatformOk(cfg, states[0])
    ensures PlatformOk(cfg, states[n])
  {
    hide PlatformOk, Moves;
    if n > 0 {
      PathKeepsOk(cfg, states, events, n - 1);
      MoveKeepsOk(cfg, states[n - 1], events[n - 1], states[n]);
    }
  }

  lemma LeadsKeepsOk(cfg: Config, s: State, t: State)
    requires Leads(cfg, s, t) && PlatformOk(cfg, s)
    ensures PlatformOk(cfg, t)
  {
    hide PlatformOk, Moves;
    var states, events :| IsPlatformPath(cfg, states, events) && states[0] == s && states[|events|] == t;
    PathKeepsOk(cfg, states, events, |events|);
  }

  // ---------- Grants in the platform ----------

  /** A path of the grant service is one of the platform. */
  lemma {:induction false} PlaysEmbed(cfg: Config, s0: State, s: State, states: seq<Grants.System>,
      plays: seq<GrantLaws.Action>, n: nat)
    returns (t: State)
    requires GrantScenarios.IsPath(cfg, s.ids.Keys, states, plays)
    requires n <= |plays| && states[0] == s.grants && Leads(cfg, s0, s)
    ensures Leads(cfg, s0, t) && t == s.(grants := states[n], issued := t.issued) && s.issued <= t.issued
  {
    hide Leads, GrantLaws.Steps, GrantLaws.Enabled, GrantScenarios.Knows;
    if n == 0 {
      t := s;
    } else {
      var t0 := PlaysEmbed(cfg, s0, s, states, plays, n - 1);
      t := t0.(grants := states[n], issued := t0.issued + Requested(states[n]));
      LeadsOn(cfg, s0, t0, Event.Play(plays[n - 1]), t);
    }
  }

  lemma PlayedOn(cfg: Config, s0: State, s: State, g: Grants.System) returns (t: State)
    requires Leads(cfg, s0, s) && GrantScenarios.Leads(cfg, s.ids.Keys, s.grants, g)
    ensures Leads(cfg, s0, t) && t == s.(grants := g, issued := t.issued) && s.issued <= t.issued
  {
    hide Leads, GrantLaws.Steps, GrantLaws.Enabled, GrantScenarios.Knows;
    var states, plays :| GrantScenarios.IsPath(cfg, s.ids.Keys, states, plays) && states[0] == s.grants && states[|plays|] == g;
    t := PlaysEmbed(cfg, s0, s, states, plays, |plays|);
  }

  // ---------- Sales in the platform ----------

  lemma {:induction false} LongerThanAll(ids: set<string>) returns (n: nat)
    ensures forall id <- ids :: |id| < n
  {
    if ids == {} {
      n := 0;
    } else {
      var id :| id in ids;
      var m := LongerThanAll(ids - {id});
      n := if m > |id| then m else |id| + 1;
    }
  }

  lemma FreshId(ids: set<string>) returns (id: string)
    ensures id !in ids
  {
    var n := LongerThanAll(ids);
    id := seq(n, _ => '0');
  }

  /** One step of a sale, or a call that reaches the chain, under a new transaction. */
  lemma SoldOn(cfg: Config, s0: State, s: State, a: Fulfilment.Action) returns (t: State)
    requires Leads(cfg, s0, s) && Fulfilment.Enabled(s.sales, a)
    requires s.sales.past != [] && (OnChain(a).Some? ==> GrantIsOurs(s, OnChain(a).value))
    ensures Leads(cfg, s0, t) && t == s.(sales := Fulfilment.Next(s.sales, a), calls := t.calls, ids := t.ids)
    ensures s.calls <= t.calls
  {
    hide Leads, Fulfilment.Enabled, Fulfilment.Next, GrantIsOurs;
    var id := FreshId(s.ids.Keys);
    t := Sold(s, a, id);
    LeadsOn(cfg, s0, s, Sell(a, id), t);
  }

  /** A call the chain accepts of its signer grants a leaf that stays on the chain. */
  lemma AcceptedGrantStays(ch: Chain, call: Call, later: Chain)
    requires call.Grant? && Ledger.GrantEligibility(ch.cells, call.caller, call.leaf).Accepted?
    requires Grew(Step(ch, call), later)
    ensures call.leaf in later.cells.eligibility.leaves
  {
    hide TreeRoot;
    var leaves := ch.cells.eligibility.leaves + [call.leaf];
    assert Step(ch, call).cells.eligibility.leaves == leaves && leaves[|leaves| - 1] == call.leaf;
    assert later.cells.eligibility.leaves[|leaves| - 1] == call.leaf;
  }

  /** A path of the fulfilment process is one of the platform, if only issued leaves are on its last chain. */
  lemma {:induction false} SalesEmbed(cfg: Config, s0: State, s: State, states: seq<Fulfilment.System>,
      sells: seq<Fulfilment.Action>, n: nat)
    returns (t: State)
    requires Fulfilment.IsPath(states, sells) && n <= |sells|
    requires states[0] == s.sales && FulfilmentInvariants.SysInv(s.sales)
    requires states[|sells|].past != [] && LeavesOk(s.issued, Fulfilment.Now(states[|sells|])) && Leads(cfg, s0, s)
    ensures Leads(cfg, s0, t) && t == s.(sales := states[n], calls := t.calls, ids := t.ids) && s.calls <= t.calls
  {
    hide Leads, Fulfilment.Next, Fulfilment.Enabled, FulfilmentInvariants.SysInv, LeavesOk, GrantIsOurs;
    if n == 0 {
      t := s;
    } else {
      var t0 := SalesEmbed(cfg, s0, s, states, sells, n - 1);
      PathKeepsInv(states, sells, n - 1);
      FulfilmentInvariants.ChainIsSound(states[n - 1]);
      if OnChain(sells[n - 1]).Some? {
        CallIsOurs(s.issued, t0, states, sells, n - 1);
      }
      t := SoldOn(cfg, s0, t0, sells[n - 1]);
    }
  }

  lemma {:induction false} PathKeepsInv(states: seq<Fulfilment.System>, sells: seq<Fulfilment.Action>, n: nat)
    requires Fulfilment.IsPath(states, sells) && n <= |sells| && FulfilmentInvariants.SysInv(states[0])
    ensures FulfilmentInvariants.SysInv(states[n])
  {
    hide FulfilmentInvariants.SysInv, Fulfilment.Next, Fulfilment.Enabled;
    if n > 0 {
      PathKeepsInv(states, sells, n - 1);
      FulfilmentInvariants.NextKeepsInv(states[n - 1], sells[n - 1]);
    }
  }

  lemma NextGrows(s: Fulfilment.System, a: Fulfilment.Action)
    requires Fulfilment.Enabled(s, a) && s.past != []
    ensures Fulfilment.Next(s, a).past != [] && Grew(Fulfilment.Now(s), Fulfilment.Now(Fulfilment.Next(s, a)))
  {
    hide Fulfilment.Next, Fulfilment.Enabled, Grew, Step;
    ChainMovesByCalls(s, a);
    if OnChain(a).Some? {
      StepGrows(Fulfilment.Now(s), OnChain(a).value);
    } else {
      FulfilmentInvariants.GrewRefl(Fulfilment.Now(s));
    }
  }

  /** What a path's chain grew to still knows every earlier state. */
  lemma {:induction false} PathGrows(states: seq<Fulfilment.System>, sells: seq<Fulfilment.Action>, m: nat, n: nat)
    requires Fulfilment.IsPath(states, sells) && m <= n <= |sells| && states[m].past != []
    ensures states[n].past != [] && Grew(Fulfilment.Now(states[m]), Fulfilment.Now(states[n]))
    decreases n - m
  {
    hide Fulfilment.Next, Fulfilment.Enabled, Grew, Step;
    if m == n {
      FulfilmentInvariants.GrewRefl(Fulfilment.Now(states[n]));
    } else {
      PathGrows(states, sells, m, n - 1);
      NextGrows(states[n - 1], sells[n - 1]);
      FulfilmentInvariants.GrewTrans(Fulfilment.Now(states[m]), Fulfilment.Now(states[n - 1]), Fulfilment.Now(states[n]));
    }
  }

  lemma CallIsOurs(issued: set<Pending>, t: State, states: seq<Fulfilment.System>,
      sells: seq<Fulfilment.Action>, k: nat)
    requires Fulfilment.IsPath(states, sells) && k < |sells|
    requires states[|sells|].past != [] && LeavesOk(issued, Fulfilment.Now(states[|sells|]))
    requires t.sales == states[k] && t.issued == issued && OnChain(sells[k]).Some? && states[k].past != []
    ensures GrantIsOurs(t, OnChain(sells[k]).value)
  {
    hide Fulfilment.Next, Fulfilment.Enabled, Grew, Step, IsIssued, Ledger.GrantEligibility;
    var call, ch := OnChain(sells[k]).value, Fulfilment.Now(states[k]);
    ChainMovesByCalls(states[k], sells[k]);
    PathGrows(states, sells, k + 1, |sells|);
    if call.Grant? && Ledger.GrantEligibility(ch.cells, call.caller, call.leaf).Accepted? {
      AcceptedGrantStays(ch, call, Fulfilment.Now(states[|sells|]));
    }
  }

  lemma SalesDone(cfg: Config, s0: State, s: State, sales: Fulfilment.System) returns (t: State)
    requires Leads(cfg, s0, s) && TerminalOrders.Leads(s.sales, sales) && FulfilmentInvariants.SysInv(s.sales)
    requires sales.past != [] && LeavesOk(s.issued, Fulfilment.Now(sales))
    ensures Leads(cfg, s0, t) && t == s.(sales := sales, calls := t.calls, ids := t.ids)
  {
    hide Leads, Fulfilment.Next, Fulfilment.Enabled, FulfilmentInvariants.SysInv, LeavesOk, TerminalOrders.Clean;
    var states, sells :| TerminalOrders.CleanPath(states, sells) && states[0] == s.sales && states[|sells|] == sales;
    t := SalesEmbed(cfg, s0, s, states, sells, |sells|);
  }

  // ---------- A grant confirmed by its own transaction ----------

  lemma StartKnows(cfg: Config, s: State)
    requires IsStart(s)
    ensures Leads(cfg, s, s) && GrantLaws.IsInitial(s.grants) && s.grants.records == map[] && s.grants.submitted == []
    ensures |s.sales.past| == 1 && s.ids.Keys == {} && s.issued == {} && Fulfilment.IsInitial(s.sales)
  {
    hide StatsLaws.IsFresh, Fulfilment.IsInitial, Moves;
    hide Leads;
    LeadsHere(cfg, s);
    GenesisAlone(s.sales);
  }

  lemma GenesisAlone(s: Fulfilment.System)
    requires Fulfilment.IsInitial(s)
    ensures |s.past| == 1
  {
  }

  lemma SubmittedIsIssued(cfg: Config, s: State, p: Pending)
    requires PlatformOk(cfg, s) && p in s.grants.submitted
    ensures IsIssued(s.issued, p.data.leaf)
  {
    hide GrantsOk, DataOk, FulfilmentInvariants.SysInv, HistoryOk, LeavesOk;
  }

  /** The first grant of all is recorded under a transaction id. */
  lemma FirstGrant(cfg: Config, s0: State, key: GrantKey, userPk: string, ids: seq<nat>, now: nat, txId: string)
    returns (s: State)
    requires IsStart(s0) && GrantScenarios.IsGrantable(ids) && GrantScenarios.IsOpenTo(cfg, key, userPk)
    ensures Leads(cfg, s0, s) && PlatformOk(cfg, s) && s.sales == s0.sales && s.calls == [] && s.ids == map[]
    ensures var d := GrantScenarios.FreshGrant(cfg, key, userPk, ids, now);
      && s.grants.records == map[key := GrantRecord(d, txId, now, None)] && s.grants.submitted == [Pending(key, d)]
      && GrantScenarios.Plays(s.grants, key, ids) && s.grants.pending == map[] && IsIssued(s.issued, d.leaf)
  {
    hide Leads, PlatformOk, GrantScenarios.Leads, GrantScenarios.FreshGrant;
    hide GrantScenarios.Plays, GrantLaws.IsInitial, IsIssued;
    StartKnows(cfg, s0);
    StartIsOk(cfg, s0);
    GrantScenarios.FreshStart(cfg, {}, s0.grants);
    var g := GrantScenarios.GrantRecorded(cfg, {}, s0.grants, s0.grants, key, userPk, ids, now, txId);
    s := PlayedOn(cfg, s0, s0, g);
    LeadsKeepsOk(cfg, s0, s);
    SubmittedIsIssued(cfg, s, Pending(key, GrantScenarios.FreshGrant(cfg, key, userPk, ids, now)));
  }

  /** The operator's grant is handed over and reaches an empty chain. */
  lemma GrantLands(cfg: Config, s0: State, s1: State, leaf: Bytes32, txId: string) returns (s: State)
    requires Leads(cfg, s0, s1) && Fulfilment.IsInitial(s1.sales)
    requires s1.calls == [] && s1.ids == map[] && IsIssued(s1.issued, leaf)
    requires s1.sales.operator == s1.sales.past[0].cells.finalizeSigner
    ensures Leads(cfg, s0, s)
    ensures s == s1.(sales := s.sales, calls := [Grant(s1.sales.operator, leaf)], ids := map[txId := 0])
    ensures s.sales.past != [] && Fulfilment.Now(s.sales).votes == []
    ensures Fulfilment.Now(s.sales).cells.eligibility.leaves == [leaf]
  {
    hide Leads, IsIssued, SellRowsTo, FinalizeTournament, TreeRoot, Fulfilment.BodyStep, Fulfilment.StartNext;
    var handed := Sold(s1, Fulfilment.SubmitGrant(leaf), txId);
    LeadsOn(cfg, s0, s1, Sell(Fulfilment.SubmitGrant(leaf), txId), handed);
    var landing := Fulfilment.Land(Grant(s1.sales.operator, leaf));
    s := Sold(handed, landing, txId);
    LeadsOn(cfg, s0, handed, Sell(landing, txId), s);
    assert [] + [leaf] == [leaf];
  }

  /** One grant on record and on the chain, and nothing else. */
  lemma GrantAlone(cfg: Config, s0: State, key: GrantKey, userPk: string, ids: seq<nat>, now: nat, txId: string)
    returns (s: State)
    requires IsStart(s0) && s0.sales.operator == s0.sales.past[0].cells.finalizeSigner
    requires GrantScenarios.IsGrantable(ids) && GrantScenarios.IsOpenTo(cfg, key, userPk)
    ensures Leads(cfg, s0, s) && PlatformOk(cfg, s) && IsOpen(s, key, txId)
    ensures s.grants.records[key].txId == txId && s.grants.submitted == [Pending(key, s.grants.records[key].data)]
    ensures s.sales.past != [] && Fulfilment.Now(s.sales).votes == []
    ensures Fulfilment.Now(s.sales).cells.eligibility.leaves == [s.grants.records[key].data.leaf]
  {
    hide Leads, PlatformOk, GrantScenarios.FreshGrant, GrantLaws.IsInitial, Fulfilment.IsInitial, IsIssued;
    var d := GrantScenarios.FreshGrant(cfg, key, userPk, ids, now);
    StartKnows(cfg, s0);
    StartIsOk(cfg, s0);
    s := FirstGrant(cfg, s0, key, userPk, ids, now, txId);
    s := GrantLands(cfg, s0, s, d.leaf, txId);
    LeadsKeepsOk(cfg, s0, s);
  }

  /** The grant is open to a confirmation by the transaction that would be counted. */
  predicate IsOpen(s: State, key: GrantKey, txId: string) {
    && key in s.grants.records && s.grants.records[key].finalizeTxId.None? && UserKnown(s.grants.db, EventOf(key, s.grants.records[key]))
    && txId in s.ids && FinalizedPlay(key, txId) !in s.grants.db.plays
  }

  lemma ConfirmedOn(cfg: Config, s0: State, s1: State, key: GrantKey, txId: string) returns (s: State)
    requires Leads(cfg, s0, s1) && PlatformOk(cfg, s1) && IsOpen(s1, key, txId)
    requires s1.sales.past != [] && !HasLeaf(Fulfilment.Now(s1.sales), s1.grants.records[key].data.leaf)
    ensures Leads(cfg, s0, s) && PlatformOk(cfg, s) && Confirms(s1, s, key, txId)
    ensures s == s1.(grants := s.grants) && s.grants.submitted == s1.grants.submitted
    ensures !Voted(cfg, key, s1.grants.records[key].data, Fulfilment.Now(s.sales))
  {
    hide Leads, PlatformOk, Moves, EventOf, Voted, UserKnown, HasLeaf, DataOk, GrantsOk;
    RecordIsSound(cfg, s1, key);
    LeafTellsIfVoted(cfg, s1.grants.everServed, key, s1.grants.records[key].data, Fulfilment.Now(s1.sales));
    s := AnyCallConfirms(cfg, s1, key, txId);
    LeadsOn(cfg, s0, s1, Event.Play(Confirm(key, txId, Some(IndexerTx(Success, true)))), s);
    MoveKeepsOk(cfg, s1, Event.Play(Confirm(key, txId, Some(IndexerTx(Success, true)))), s);
  }

  /** The confirmation takes a grant's own transaction for its vote.  From every start a run submits one grant
      and nothing else; its transaction reaches the chain, which then holds this one leaf and no vote; and
      the play is counted and the record marked all the same. */
  lemma OwnGrantConfirms(cfg: Config, s0: State, key: GrantKey, userPk: string, ids: seq<nat>, now: nat, txId: string)
    returns (s: State)
    requires IsStart(s0) && s0.sales.operator == s0.sales.past[0].cells.finalizeSigner
    requires GrantScenarios.IsGrantable(ids) && GrantScenarios.IsOpenTo(cfg, key, userPk)
    ensures Leads(cfg, s0, s) && key in s.grants.records && s.grants.records[key].txId == txId
    ensures s.grants.records[key].finalizeTxId == Some(txId) && FinalizedPlay(key, txId) in s.grants.db.plays
    ensures s.grants.db.plays[FinalizedPlay(key, txId)].event == EventOf(key, s.grants.records[key])
    ensures s.grants.submitted == [Pending(key, s.grants.records[key].data)]
    ensures s.sales.past != [] && Inv(Fulfilment.Now(s.sales)) && Fulfilment.Now(s.sales).votes == []
    ensures Fulfilment.Now(s.sales).cells.eligibility.leaves == [s.grants.records[key].data.leaf]
    ensures !Voted(cfg, key, s.grants.records[key].data, Fulfilment.Now(s.sales))
  {
    hide Leads, PlatformOk, GrantScenarios.FreshGrant, Moves, Voted, Inv, IsStart;
    s := GrantAlone(cfg, s0, key, userPk, ids, now, txId);
    s := ConfirmedOn(cfg, s0, s, key, txId);
    HistoryAt(cfg, s, |s.calls|);
  }

  // ---------- A grant confirmed by any other kind of call ----------

  datatype Kind = Granting | Voting | Registering | Selling | Resigning | Retagging

  function KindOf(call: Call): Kind {
    match call
    case Grant(_, _) => Granting
    case Finalize(_, _, _) => Voting
    case RegisterBuyer(_, _) => Registering
    case SellRows(_, _) => Selling
    case SetFinalizeSigner(_, _) => Resigning
    case SetDomainTag(_, _) => Retagging
  }

  /** What only one kind of call changes is as it was. */
  predicate Untouched(kind: Kind, ch: Chain, later: Chain) {
    match kind
    case Granting => later.cells.eligibility.leaves == ch.cells.eligibility.leaves
    case Voting => later.votes == ch.votes
    case Registering => later.cells.buyers == ch.cells.buyers
    case Selling => later.sales == ch.sales
    case Resigning => later.cells.finalizeSigner == ch.cells.finalizeSigner
    case Retagging => later.cells.domainTag == ch.cells.domainTag
  }

  predicate IsAccepted(ch: Chain, call: Call) {
    Apply(ch.cells, call).Accepted?
  }

  lemma StepTouchesItsKind(ch: Chain, call: Call, kind: Kind)
    ensures KindOf(call) != kind || !IsAccepted(ch, call) ==> Untouched(kind, ch, Step(ch, call))
  {
    hide CheckRows, PresentCount, PathRoot, BallotLeaf, BallotRow;
  }

  /** A change has its call in the history. */
  lemma {:induction false} ChangeHasItsCall(past: seq<Chain>, calls: seq<Call>, kind: Kind, n: nat) returns (k: nat)
    requires IsHistory(past, calls) && n <= |calls| && !Untouched(kind, past[0], past[n])
    ensures k < n && KindOf(calls[k]) == kind && IsAccepted(past[k], calls[k])
  {
    hide Step, IsAccepted, KindOf;
    if n == 0 {
      assert false;
    } else if KindOf(calls[n - 1]) == kind && IsAccepted(past[n - 1], calls[n - 1]) {
      k := n - 1;
    } else {
      StepTouchesItsKind(past[n - 1], calls[n - 1], kind);
      k := ChangeHasItsCall(past, calls, kind, n - 1);
    }
  }

  /** The voter's ballot for a row, as granted. */
  function BallotOf(secret: Bytes32, d: GrantData, row: PinnedRow): (b: Ballot)
    ensures Scenarios.Seals(b, row)
  {
    Ballot(secret, row.tournamentId, d.point, d.deadline, row.bracket, SegmentBytes(row.segment), MerklePath(ZERO, []),
           SaltBytes(row.salt))
  }

  lemma GrantedBallotLeaf(cfg: Config, key: GrantKey, userPk: string, row: PinnedRow, now: nat, secret: Bytes32)
    requires GrantScenarios.IsGrantable(row.bracket) && GrantScenarios.IsOpenTo(cfg, key, userPk)
    requires KeyOf(cfg, userPk) == Some(UserPublicKey(secret)) && row.tournamentId == key.tournamentId
    ensures var d := GrantScenarios.FreshGrant(cfg, key, userPk, row.bracket, now);
      BallotLeaf(cfg.tag, BallotOf(secret, d, row)) == d.leaf
  {
    hide GrantScenarios.DataOf, Bytes32Of;
  }

  /** Two players, of whom the first is about to vote. */
  datatype Players = Players(first: GrantKey, firstPk: string, secret: Bytes32, row: PinnedRow,
                             second: GrantKey, secondPk: string, ids: seq<nat>)

  predicate ArePlayers(cfg: Config, p: Players) {
    && GrantScenarios.IsGrantable(p.row.bracket) && GrantScenarios.IsOpenTo(cfg, p.first, p.firstPk)
    && KeyOf(cfg, p.firstPk) == Some(UserPublicKey(p.secret))
    && Scenarios.IsVoteRow(p.row) && p.row.tournamentId == p.first.tournamentId
    && GrantScenarios.IsGrantable(p.ids) && GrantScenarios.IsOpenTo(cfg, p.second, p.secondPk)
    && p.second.tournamentId != p.first.tournamentId
  }

  /** There are such players, under every tag. */
  lemma PlayersExist(tag: Bytes32) returns (cfg: Config, p: Players)
    ensures cfg.tag == tag && ArePlayers(cfg, p)
  {
    var ids, other := GrantScenarios.ArrangementsExist();
    var digits := seq(64, _ => '0');
    cfg := Config(tag, 0, 0, 0, map[], _ => UserPublicKey(ZERO));
    p := Players(GrantKey(0, "a", 0), digits, ZERO, PinnedRow(0, ids[0], ids, "", digits), GrantKey(0, "b", 1), digits, other);
    assert Stripped(digits) == digits && IsStrictHex(digits);
    assert |Utf8("")| == 0;
  }

  function FirstGrantOf(cfg: Config, p: Players, now: nat): GrantData
    requires ArePlayers(cfg, p)
  {
    GrantScenarios.FreshGrant(cfg, p.first, p.firstPk, p.row.bracket, now)
  }

  function SecondGrantOf(cfg: Config, p: Players, now: nat): GrantData
    requires ArePlayers(cfg, p)
  {
    GrantScenarios.FreshGrant(cfg, p.second, p.secondPk, p.ids, now)
  }

  lemma LeavesDiffer(cfg: Config, p: Players, now: nat)
    requires ArePlayers(cfg, p)
    ensures FirstGrantOf(cfg, p, now).leaf != SecondGrantOf(cfg, p, now).leaf
  {
    hide GrantScenarios.DataOf, Bytes32Of, RowEncodes;
  }

  /** Both grants are on record. */
  lemma BothGranted(cfg: Config, s0: State, p: Players, now: nat) returns (s: State)
    requires IsStart(s0) && ArePlayers(cfg, p)
    ensures Leads(cfg, s0, s) && PlatformOk(cfg, s) && s.sales == s0.sales && s.calls == [] && s.ids == map[]
    ensures p.second in s.grants.records && s.grants.records[p.second].data == SecondGrantOf(cfg, p, now)
    ensures s.grants.records[p.second].finalizeTxId.None?
    ensures UserKnown(s.grants.db, EventOf(p.second, s.grants.records[p.second]))
    ensures s.grants.db.plays == map[] && IsIssued(s.issued, FirstGrantOf(cfg, p, now).leaf)
  {
    hide Leads, PlatformOk, GrantScenarios.Leads, GrantScenarios.FreshGrant;
    hide GrantScenarios.Plays, GrantLaws.IsInitial, IsIssued;
    hide Scenarios.IsVoteRow, KeyOf, Bytes32Of, GrantScenarios.IsOpenTo;
    StartKnows(cfg, s0);
    StartIsOk(cfg, s0);
    GrantScenarios.FreshStart(cfg, {}, s0.grants);
    var g := GrantScenarios.GrantRecorded(cfg, {}, s0.grants, s0.grants, p.first, p.firstPk, p.row.bracket, now, "");
    GrantScenarios.PlaysMeans(g, p.first, p.row.bracket);
    g := GrantScenarios.GrantRecorded(cfg, {}, s0.grants, g, p.second, p.secondPk, p.ids, now, "");
    GrantScenarios.PlaysMeans(g, p.second, p.ids);
    s := PlayedOn(cfg, s0, s0, g);
    LeadsKeepsOk(cfg, s0, s);
    SubmittedIsIssued(cfg, s, Pending(p.first, FirstGrantOf(cfg, p, now)));
  }

  /** The first player's vote is cast, and sold: one call of four kinds. */
  lemma VoteSold(cfg: Config, s0: State, s1: State, p: Players, now: nat) returns (s: State)
    requires Leads(cfg, s0, s1) && PlatformOk(cfg, s0) && PlatformOk(cfg, s1)
    requires ArePlayers(cfg, p) && IsIssued(s1.issued, FirstGrantOf(cfg, p, now).leaf)
    requires Fulfilment.IsInitial(s1.sales) && s1.sales.operator == s1.sales.past[0].cells.finalizeSigner
    requires s1.sales.past[0].cells.domainTag == cfg.tag
    ensures Leads(cfg, s0, s) && PlatformOk(cfg, s) && s == s1.(sales := s.sales, calls := s.calls, ids := s.ids)
    ensures s.sales.past != [] && s.sales.past[0] == s1.sales.past[0] && Scenarios.SameRulers(s.sales)
    ensures var ch := Fulfilment.Now(s.sales);
      && ch.sales != map[] && ch.cells.buyers != {} && ch.cells.eligibility.leaves == [FirstGrantOf(cfg, p, now).leaf]
      && |ch.votes| == 1 && LeafOf(ch.votes[0]) == FirstGrantOf(cfg, p, now).leaf
  {
    hide Leads, PlatformOk, Fulfilment.IsInitial, IsIssued;
    hide GrantScenarios.FreshGrant, BallotOf, Scenarios.Seals, Scenarios.IsVoteRow;
    hide TerminalOrders.Leads, FulfilmentInvariants.SysInv, OrderLicenseId, Scenarios.Works;
    hide KeyOf, GrantScenarios.IsOpenTo, BallotLeaf;
    var d := FirstGrantOf(cfg, p, now);
    var b := BallotOf(p.secret, d, p.row);
    GrantedBallotLeaf(cfg, p.first, p.firstPk, p.row, now, p.secret);
    Scenarios.StartIsSafe(s1.sales);
    var sales, hash := Scenarios.SaleOnChain(s1.sales, 0, 0, "", p.row, b);
    SealedLeaf(Fulfilment.Now(sales).cells.domainTag, b);
    s := SalesDone(cfg, s0, s1, sales);
    LeadsKeepsOk(cfg, s0, s);
  }

  lemma SealedLeaf(tag: Bytes32, b: Ballot)
    ensures BallotLeaf(tag, Scenarios.Sealed(tag, b)) == BallotLeaf(tag, b)
    ensures LeafOf(Vote(Scenarios.Sealed(tag, b), tag)) == BallotLeaf(tag, b)
  {
  }

  /** The owner changes tag and signer. */
  lemma RulersChanged(cfg: Config, s0: State, s1: State) returns (s: State)
    requires Leads(cfg, s0, s1) && PlatformOk(cfg, s0) && PlatformOk(cfg, s1)
    requires s1.sales.past != [] && Scenarios.SameRulers(s1.sales)
    ensures Leads(cfg, s0, s) && PlatformOk(cfg, s) && s == s1.(sales := s.sales, calls := s.calls, ids := s.ids)
    ensures s.sales.past != [] && s.sales.past[0] == s1.sales.past[0]
    ensures var was, ch := Fulfilment.Now(s1.sales), Fulfilment.Now(s.sales);
      && ch == Chain(was.cells.(domainTag := ch.cells.domainTag, finalizeSigner := ch.cells.finalizeSigner), was.votes, was.sales)
      && ch.cells.domainTag != was.cells.domainTag && ch.cells.finalizeSigner != was.cells.finalizeSigner
  {
    hide Leads, PlatformOk, SellRowsTo, FinalizeTournament, Ledger.GrantEligibility;
    var was := Fulfilment.Now(s1.sales);
    var tag := if was.cells.domainTag == ZERO then Sha256Text("") else ZERO;
    s := SoldOn(cfg, s0, s1, Fulfilment.Outside(SetDomainTag(was.cells.owner, tag)));
    var signer := if was.cells.finalizeSigner == Sha256Text("") then Sha256Text("a") else Sha256Text("");
    s := SoldOn(cfg, s0, s, Fulfilment.Outside(SetFinalizeSigner(was.cells.owner, signer)));
    LeadsKeepsOk(cfg, s0, s);
  }

  /** Every kind of call confirms.  From every start whose operator is the signer, and for each of the six
      circuits, a run has an accepted call of it confirm the grant of a player who has not voted: the play
      is counted, and no vote of the player is on the chain. */
  lemma EveryKindConfirms(cfg: Config, s0: State, p: Players, now: nat, kind: Kind)
    returns (s: State, k: nat, txId: string)
    requires IsStart(s0) && ArePlayers(cfg, p) && s0.sales.past != [] && s0.sales.past[0].cells.domainTag == cfg.tag
    requires s0.sales.operator == s0.sales.past[0].cells.finalizeSigner
    ensures Leads(cfg, s0, s) && txId in s.ids && s.ids[txId] == k < |s.calls| < |s.sales.past|
    ensures KindOf(s.calls[k]) == kind && IsAccepted(s.sales.past[k], s.calls[k])
    ensures p.second in s.grants.records && s.grants.records[p.second].finalizeTxId == Some(txId)
    ensures FinalizedPlay(p.second, txId) in s.grants.db.plays
    ensures s.grants.db.plays[FinalizedPlay(p.second, txId)].event == EventOf(p.second, s.grants.records[p.second])
    ensures !Voted(cfg, p.second, s.grants.records[p.second].data, Fulfilment.Now(s.sales))
  {
    hide Leads, PlatformOk, IsStart, ArePlayers, Moves, Voted, IsIssued, Fulfilment.IsInitial, UserKnown, HasLeaf;
    hide FirstGrantOf, SecondGrantOf, IsHistory, IsAccepted, KindOf, LeafOf;
    StartIsPlain(s0);
    StartIsOk(cfg, s0);
    LeavesDiffer(cfg, p, now);
    s := BothGranted(cfg, s0, p, now);
    s := VoteSold(cfg, s0, s, p, now);
    s := RulersChanged(cfg, s0, s);
    CallsAreHistory(cfg, s);
    HistoryLength(s.sales.past, s.calls);
    EverythingChanged(s.sales.past[0], Fulfilment.Now(s.sales));
    k := AcceptedCallOf(s.sales.past, s.calls, kind);
    txId := IdOf(cfg, s, k);
    OneVoteOneLeaf(Fulfilment.Now(s.sales), SecondGrantOf(cfg, p, now).leaf);
    s := ConfirmedOn(cfg, s0, s, p.second, txId);
  }

  lemma StartIsPlain(s: State)
    requires IsStart(s)
    ensures Fulfilment.IsInitial(s.sales) && s.sales.past != []
    ensures var ch := s.sales.past[0];
      ch.votes == [] && ch.sales == map[] && ch.cells.buyers == {} && ch.cells.eligibility.leaves == []
  {
    hide StatsLaws.IsFresh;
  }

  lemma EverythingChanged(ch: Chain, later: Chain)
    requires ch.votes == [] && ch.sales == map[] && ch.cells.buyers == {} && ch.cells.eligibility.leaves == []
    requires later.votes != [] && later.sales != map[]
    requires later.cells.buyers != {} && later.cells.eligibility.leaves != []
    requires later.cells.domainTag != ch.cells.domainTag && later.cells.finalizeSigner != ch.cells.finalizeSigner
    ensures forall kind :: !Untouched(kind, ch, later)
  {
  }

  lemma AcceptedCallOf(past: seq<Chain>, calls: seq<Call>, kind: Kind) returns (k: nat)
    requires IsHistory(past, calls) && forall kind :: !Untouched(kind, past[0], past[|calls|])
    ensures k < |calls| < |past| && KindOf(calls[k]) == kind && IsAccepted(past[k], calls[k])
  {
    hide IsAccepted, KindOf, Untouched;
    k := ChangeHasItsCall(past, calls, kind, |calls|);
    HistoryLength(past, calls);
  }

  lemma HistoryLength(past: seq<Chain>, calls: seq<Call>)
    requires IsHistory(past, calls)
    ensures |past| == |calls| + 1
  {
  }

  lemma IdOf(cfg: Config, s: State, k: nat) returns (txId: string)
    requires PlatformOk(cfg, s) && k < |s.calls|
    ensures txId in s.ids && s.ids[txId] == k
  {
    hide IssuedOk, LeavesOk, FulfilmentInvariants.SysInv, Step, IsGenesis;
    assert HasId(s.ids, k);
    txId :| txId in s.ids && s.ids[txId] == k;
  }

  lemma OneVoteOneLeaf(ch: Chain, leaf: Bytes32)
    requires |ch.votes| == 1 && LeafOf(ch.votes[0]) != leaf
    ensures !HasLeaf(ch, leaf)
  {
    hide LeafOf;
  }
}
