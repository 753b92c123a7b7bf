/** Grants, votes and sales together: the grant service with its statistics, the fulfilment process, and the
    one chain both act on, with the transactions an indexer can find on it. */
module Platform {
  import opened Options
  import opened Digests
  import opened MerkleTree
  import opened Ledger
  import opened Grants
  import opened GrantLaws
  import StatsService
  import StatsLaws
  import GrantScenarios
  import Fulfilment
  import FulfilmentInvariants
  import FulfilmentTheorems

  /** `issued` are the grants any request ever got as far as submitting; `calls[k]` led from the k-th state
      of the chain to the next; `ids` finds a call by its transaction. */
  datatype State = State(grants: Grants.System, issued: set<Pending>, sales: Fulfilment.System, calls: seq<Call>, ids: map<string, nat>)

  datatype Event = Play(play: GrantLaws.Action) | Sell(sell: Fulfilment.Action, txId: string)

  /** The call an action brings onto the chain, if any. */
  function OnChain(a: Fulfilment.Action): Option<Call> {
    match a
    case Outside(call) => Some(call)
    case Land(call) => Some(call)
    case _ => None
  }

  predicate IsIssued(issued: set<Pending>, leaf: Bytes32) {
    exists p <- issued :: p.data.leaf == leaf
  }

  /** Nobody but the grant service has grants accepted. */
  predicate GrantIsOurs(s: State, call: Call)
    requires s.sales.past != []
  {
    call.Grant? && Ledger.GrantEligibility(Fulfilment.Now(s.sales).cells, call.caller, call.leaf).Accepted? ==>
      IsIssued(s.issued, call.leaf)
  }

  /** The indexer finds only what is on the chain; each transaction has its own id. */
  predicate Happens(s: State, e: Event) {
    match e
    case Play(a) => GrantLaws.Enabled(s.grants, a) && GrantScenarios.Knows(s.ids.Keys, a)
    case Sell(a, txId) =>
      && Fulfilment.Enabled(s.sales, a)
      && (OnChain(a).Some? ==> txId !in s.ids && GrantIsOurs(s, OnChain(a).value))
  }

  function Requested(g: Grants.System): set<Pending> {
    set w | w in g.pending :: g.pending[w]
  }

  ghost predicate Moves(cfg: Config, s: State, e: Event, s': State) {
    Happens(s, e) &&
    match e
    case Play(a) =>
      GrantLaws.Steps(cfg, s.grants, a, s'.grants) && s' == s.(grants := s'.grants, issued := s.issued + Requested(s'.grants))
    case Sell(a, txId) => s' == Sold(s, a, txId)
  }

  function Sold(s: State, a: Fulfilment.Action, txId: string): State
    requires Fulfilment.Enabled(s.sales, a)
  {
    var sales := Fulfilment.Next(s.sales, a);
    if OnChain(a).None? then s.(sales := sales)
    else s.(sales := sales, calls := s.calls + [OnChain(a).value], ids := s.ids[txId := |s.calls|])
  }

  ghost predicate IsStart(s: State) {
    GrantLaws.IsInitial(s.grants) && Fulfilment.IsInitial(s.sales) && s.issued == {} && s.calls == [] && s.ids == map[]
  }

  ghost predicate IsPlatformRun(cfg: Config, states: seq<State>, events: seq<Event>) {
    && |states| == |events| + 1 && IsStart(states[0])
    && forall i :: 0 <= i < |events| ==> Moves(cfg, states[i], events[i], states[i + 1])
  }

  // ---------- What every run keeps ----------

  /** Every grant that left the service is sound, and so is every record. */
  ghost predicate IssuedOk(cfg: Config, s: State) {
    && GrantsOk(cfg, s.grants) && Requested(s.grants) <= s.issued && (forall p <- s.grants.submitted :: p in s.issued)
    && (forall p <- s.issued :: DataOk(cfg, s.grants.everServed, p.key, p.data))
  }

  /** The leaves on the chain are the service's. */
  ghost predicate LeavesOk(issued: set<Pending>, ch: Chain) {
    forall leaf <- ch.cells.eligibility.leaves :: IsIssued(issued, leaf)
  }

  predicate HasId(ids: map<string, nat>, k: int) {
    exists id <- ids :: ids[id] == k
  }

  /** The calls lead through the states of the chain, and each has its transaction. */
  ghost predicate HistoryOk(s: State) {
    && |s.sales.past| == |s.calls| + 1 && s.sales.past[0] == Chain(s.sales.past[0].cells, [], map[])
    && IsGenesis(s.sales.past[0].cells)
    && (forall k :: 0 <= k < |s.calls| ==> s.sales.past[k + 1] == Step(s.sales.past[k], s.calls[k]))
    && (forall id <- s.ids :: s.ids[id] < |s.calls|)
    && (forall k :: 0 <= k < |s.calls| ==> HasId(s.ids, k))
  }

  ghost predicate PlatformOk(cfg: Config, s: State) {
    && IssuedOk(cfg, s) && FulfilmentInvariants.SysInv(s.sales) && HistoryOk(s)
    && s.sales.past != [] && LeavesOk(s.issued, Fulfilment.Now(s.sales))
  }

  lemma PlayKeepsOk(cfg: Config, s: State, a: GrantLaws.Action, s': State)
    requires PlatformOk(cfg, s) && Moves(cfg, s, Play(a), s')
    ensures PlatformOk(cfg, s')
  {
    hide GrantsOk, DataOk, HistoryOk, FulfilmentInvariants.SysInv;
    hide GrantLaws.Steps, GrantLaws.Enabled, GrantScenarios.Knows;
    StepKeepsGrants(cfg, s.grants, a, s'.grants);
    ServedGrows(cfg, s.grants, a, s'.grants);
    SubmittedWasRequested(cfg, s.grants, a, s'.grants);
    HistoryFrame(s, s');
    forall p | p in s'.issued ensures DataOk(cfg, s'.grants.everServed, p.key, p.data) {
      if p in s.issued {
        ServedStays(cfg, s.grants.everServed, s'.grants.everServed, p.key, p.data);
      } else {
        PendingDataOk(cfg, s'.grants, p);
      }
    }
    forall leaf | leaf in Fulfilment.Now(s'.sales).cells.eligibility.leaves ensures IsIssued(s'.issued, leaf) {
      assert IsIssued(s.issued, leaf);
    }
  }

  lemma ServedGrows(cfg: Config, s: Grants.System, a: GrantLaws.Action, s': Grants.System)
    requires GrantLaws.Steps(cfg, s, a, s')
    ensures s.everServed <= s'.everServed
  {
    hide Decide, StatsService.Handled, StatsLaws.Steps;
  }

  lemma SubmittedWasRequested(cfg: Config, s: Grants.System, a: GrantLaws.Action, s': Grants.System)
    requires GrantLaws.Steps(cfg, s, a, s')
    ensures forall p <- s'.submitted :: p in s.submitted || p in Requested(s)
  {
    hide Decide, StatsService.Handled, StatsLaws.Steps;
  }

  lemma PendingDataOk(cfg: Config, g: Grants.System, p: Pending)
    requires GrantsOk(cfg, g) && p in Requested(g)
    ensures DataOk(cfg, g.everServed, p.key, p.data)
  {
    hide DataOk;
  }

  lemma SellKeepsOk(cfg: Config, s: State, a: Fulfilment.Action, txId: string, s': State)
    requires PlatformOk(cfg, s) && Moves(cfg, s, Sell(a, txId), s')
    ensures PlatformOk(cfg, s')
  {
    hide IssuedOk, HistoryOk, FulfilmentInvariants.SysInv, Fulfilment.Next, Fulfilment.Enabled, LeavesOk, GrantIsOurs;
    FulfilmentInvariants.NextKeepsInv(s.sales, a);
    FulfilmentInvariants.ChainIsSound(s'.sales);
    IssuedFrame(cfg, s, s');
    SoldKeepsHistory(s, a, txId);
  }

  lemma SoldKeepsHistory(s: State, a: Fulfilment.Action, txId: string)
    requires HistoryOk(s) && s.sales.past != []
    requires LeavesOk(s.issued, Fulfilment.Now(s.sales)) && Happens(s, Sell(a, txId))
    ensures var s' := Sold(s, a, txId);
      HistoryOk(s') && s'.sales.past != [] && LeavesOk(s'.issued, Fulfilment.Now(s'.sales))
  {
    hide HistoryOk, Fulfilment.Next, Fulfilment.Enabled, LeavesOk, GrantIsOurs, Step;
    var s' := Sold(s, a, txId);
    ChainMovesByCalls(s.sales, a);
    if OnChain(a).Some? {
      HistoryGrows(s, s', OnChain(a).value, txId);
      LeavesAfterCall(s, OnChain(a).value);
    } else {
      HistoryFrame(s, s');
    }
  }

  lemma IssuedFrame(cfg: Config, s: State, s': State)
    requires IssuedOk(cfg, s) && s'.grants == s.grants && s'.issued == s.issued
    ensures IssuedOk(cfg, s')
  {
    hide GrantsOk, DataOk;
  }

  lemma ChainMovesByCalls(s: Fulfilment.System, a: Fulfilment.Action)
    requires Fulfilment.Enabled(s, a)
    ensures var s' := Fulfilment.Next(s, a);
      s'.past == if OnChain(a).Some? then s.past + [Step(Fulfilment.Now(s), OnChain(a).value)] else s.past
  {
    hide Step, Fulfilment.BodyStep, Fulfilment.StartNext;
    if a.Await? { BodyKeepsPast(s, a.reply); }
    if a.Start? { StartKeepsPast(s, a.readOk); }
  }

  lemma BodyKeepsPast(s: Fulfilment.System, reply: Fulfilment.Reply)
    requires s.body.Some?
    ensures Fulfilment.BodyStep(s, reply).past == s.past
  {
    hide Fulfilment.CallStep, Fulfilment.Caught, Fulfilment.Patched, Fulfilment.AfterWrite;
    if Fulfilment.WriteAt(s.body.value.pc).None? { FulfilmentTheorems.CallsKeepConfig(s, reply); }
  }

  lemma StartKeepsPast(s: Fulfilment.System, readOk: bool)
    requires s.queue != []
    ensures Fulfilment.StartNext(s, readOk).past == s.past
  {
  }

  lemma HistoryGrows(s: State, s': State, call: Call, txId: string)
    requires HistoryOk(s) && txId !in s.ids && s'.sales.past == s.sales.past + [Step(Fulfilment.Now(s.sales), call)]
    requires s'.calls == s.calls + [call] && s'.ids == s.ids[txId := |s.calls|]
    ensures HistoryOk(s')
  {
    hide Step, IsGenesis;
    forall k | 0 <= k < |s'.calls| ensures HasId(s'.ids, k) {
      if k < |s.calls| {
        assert HasId(s.ids, k);
        var id :| id in s.ids && s.ids[id] == k;
        assert id in s'.ids && s'.ids[id] == k;
      } else {
        assert txId in s'.ids && s'.ids[txId] == k;
      }
    }
  }

  lemma HistoryFrame(s: State, s': State)
    requires HistoryOk(s) && s'.sales.past == s.sales.past && s'.calls == s.calls && s'.ids == s.ids
    ensures HistoryOk(s')
  {
    hide Step, IsGenesis, HasId;
  }

  lemma LeavesAfterCall(s: State, call: Call)
    requires s.sales.past != [] && LeavesOk(s.issued, Fulfilment.Now(s.sales)) && GrantIsOurs(s, call)
    ensures LeavesOk(s.issued, Step(Fulfilment.Now(s.sales), call))
  {
    hide CheckRows, PresentCount, PathRoot, BallotLeaf, BallotRow, IsIssued;
  }

  lemma StartIsOk(cfg: Config, s: State)
    requires IsStart(s)
    ensures PlatformOk(cfg, s)
  {
    hide FulfilmentInvariants.SysInv, DataOk, StatsLaws.IsFresh;
    FulfilmentInvariants.InitialInv(s.sales);
  }

  lemma MoveKeepsOk(cfg: Config, s: State, e: Event, s': State)
    requires PlatformOk(cfg, s) && Moves(cfg, s, e, s')
    ensures PlatformOk(cfg, s')
  {
    hide PlatformOk, Moves;
    match e
    case Play(a) => PlayKeepsOk(cfg, s, a, s');
    case Sell(a, txId) => SellKeepsOk(cfg, s, a, txId, s');
  }

  lemma {:induction false} RunKeepsOk(cfg: Config, states: seq<State>, events: seq<Event>, n: nat)
    requires IsPlatformRun(cfg, states, events) && n <= |events|
    ensures PlatformOk(cfg, states[n])
  {
    hide PlatformOk, Moves, IsStart;
    if n == 0 {
      StartIsOk(cfg, states[0]);
    } else {
      RunKeepsOk(cfg, states, events, n - 1);
      MoveKeepsOk(cfg, states[n - 1], events[n - 1], states[n]);
    }
  }
}
