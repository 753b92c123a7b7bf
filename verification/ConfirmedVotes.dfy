/** What a confirmed play proves about the chain.  The confirmation asks whether a transaction calls the
    contract; a vote of the grant's holder is behind it exactly when the call is the vote itself. */
module ConfirmedVotes {
  import opened Options
  import opened Digests
  import opened Ledger
  import opened LedgerInvariants
  import opened LedgerTheorems
  import opened HexCodec
  import opened Bracket
  import opened ServedBrackets
  import opened StatsService
  import opened Grants
  import opened GrantLaws
  import opened Platform
  import Fulfilment
  import FulfilmentInvariants
  import GrantScenarios

  // ---------- The vote of a grant ----------

  /** The vote a grant was issued for: cast by the holder of its key, under the tag, in its tournament, with
      its point, deadline and bracket. */
  predicate IsVoteOf(cfg: Config, key: GrantKey, d: GrantData, v: Vote) {
    && v.tag == cfg.tag && KeyOf(cfg, d.userPk) == Some(UserPublicKey(v.ballot.secret))
    && v.ballot.tournamentId == key.tournamentId && v.ballot.point == d.point && v.ballot.deadline == d.deadline
    && v.ballot.bracket == IdsIn(d.entryItemHexes)
  }

  predicate Voted(cfg: Config, key: GrantKey, d: GrantData, ch: Chain) {
    exists v <- ch.votes :: IsVoteOf(cfg, key, d, v)
  }

  /** What a caller can check of a transaction: the circuit called, that it was accepted, and the leaf. */
  predicate IsVoteCall(ch: Chain, call: Call, leaf: Bytes32) {
    && call.Finalize? && FinalizeTournament(ch.cells, call.blockTime, call.ballot).Accepted?
    && BallotLeaf(ch.cells.domainTag, call.ballot) == leaf
  }

  predicate HasLeaf(ch: Chain, leaf: Bytes32) {
    exists v <- ch.votes :: LeafOf(v) == leaf
  }

  lemma LeafTellsTheVote(cfg: Config, everServed: set<Served>, key: GrantKey, d: GrantData, v: Vote)
    requires DataOk(cfg, everServed, key, d)
    ensures LeafOf(v) == d.leaf <==> IsVoteOf(cfg, key, d, v)
  {
    hide DataOk, KeyOf, IdsIn;
    GrantFitsOneBallot(cfg, everServed, key, d, v.ballot);
    if LeafOf(v) == d.leaf { SameTag(cfg, everServed, key, d, v); }
  }

  lemma LeafTellsIfVoted(cfg: Config, everServed: set<Served>, key: GrantKey, d: GrantData, ch: Chain)
    requires DataOk(cfg, everServed, key, d)
    ensures HasLeaf(ch, d.leaf) <==> Voted(cfg, key, d, ch)
  {
    hide DataOk, IsVoteOf, LeafOf;
    forall v | v in ch.votes ensures LeafOf(v) == d.leaf <==> IsVoteOf(cfg, key, d, v) {
      LeafTellsTheVote(cfg, everServed, key, d, v);
    }
  }

  // ---------- One call ----------

  lemma VoteCallIsTheFirst(ch: Chain, call: Call, leaf: Bytes32)
    requires Inv(ch) && IsVoteCall(ch, call, leaf)
    ensures !HasLeaf(ch, leaf)
  {
    hide Inv, FinalizeTournament;
    FinalizeAcceptedIff(ch, call.blockTime, call.ballot);
    forall v | v in ch.votes ensures LeafOf(v) != leaf {
      assert !SameVoter(v, Vote(call.ballot, ch.cells.domainTag));
    }
  }

  lemma StepAddsItsVote(ch: Chain, call: Call)
    ensures Step(ch, call).votes ==
      if call.Finalize? && FinalizeTournament(ch.cells, call.blockTime, call.ballot).Accepted?
      then ch.votes + [Vote(call.ballot, ch.cells.domainTag)] else ch.votes
  {
    hide FinalizeTournament, SellRowsTo;
  }

  lemma OneMoreVote(ch: Chain, ch': Chain, v: Vote, leaf: Bytes32)
    requires ch'.votes == ch.votes + [v]
    ensures HasLeaf(ch', leaf) <==> HasLeaf(ch, leaf) || LeafOf(v) == leaf
  {
    hide LeafOf;
    assert v in ch'.votes;
    forall w | w in ch.votes ensures w in ch'.votes {
    }
  }

  lemma StepHasLeafIff(ch: Chain, call: Call, leaf: Bytes32)
    ensures HasLeaf(Step(ch, call), leaf) <==> HasLeaf(ch, leaf) || IsVoteCall(ch, call, leaf)
  {
    hide FinalizeTournament, Step, HasLeaf, BallotLeaf;
    StepAddsItsVote(ch, call);
    if call.Finalize? && FinalizeTournament(ch.cells, call.blockTime, call.ballot).Accepted? {
      OneMoreVote(ch, Step(ch, call), Vote(call.ballot, ch.cells.domainTag), leaf);
    } else {
      SameVotes(ch, Step(ch, call), leaf);
    }
  }

  lemma SameVotes(ch: Chain, ch': Chain, leaf: Bytes32)
    requires ch'.votes == ch.votes
    ensures HasLeaf(ch', leaf) <==> HasLeaf(ch, leaf)
  {
  }

  /** A call brings the vote of a leaf exactly when it is that vote: any other call of the contract, accepted
      or not, leaves a chain without it. */
  lemma CallBringsVoteIff(ch: Chain, call: Call, leaf: Bytes32)
    requires Inv(ch)
    ensures !HasLeaf(ch, leaf) && HasLeaf(Step(ch, call), leaf) <==> IsVoteCall(ch, call, leaf)
  {
    hide Inv, Step, HasLeaf, IsVoteCall;
    StepHasLeafIff(ch, call, leaf);
    if IsVoteCall(ch, call, leaf) { VoteCallIsTheFirst(ch, call, leaf); }
  }

  // ---------- The history ----------

  lemma HistoryAt(cfg: Config, s: State, k: nat)
    requires PlatformOk(cfg, s) && k <= |s.calls|
    ensures k < |s.sales.past| == |s.calls| + 1 && Inv(s.sales.past[k]) && s.sales.past[0].votes == []
    ensures k < |s.calls| ==> s.sales.past[k + 1] == Step(s.sales.past[k], s.calls[k])
  {
    hide IssuedOk, LeavesOk, FulfilmentInvariants.SysInv, Step, Inv;
    FulfilmentInvariants.PastIsSound(s.sales, k);
  }

  /** Each call leads from one state of the chain to the next, and there are no votes at first. */
  ghost predicate IsHistory(past: seq<Chain>, calls: seq<Call>) {
    && |past| == |calls| + 1 && past[0].votes == []
    && forall k :: 0 <= k < |calls| ==> past[k + 1] == Step(past[k], calls[k])
  }

  lemma CallsAreHistory(cfg: Config, s: State)
    requires PlatformOk(cfg, s)
    ensures IsHistory(s.sales.past, s.calls)
  {
    hide IssuedOk, LeavesOk, FulfilmentInvariants.SysInv, Step, IsGenesis, HasId;
  }

  /** The chain has a leaf's vote exactly when its call is among the calls so far. */
  lemma {:induction false} HasLeafIff(past: seq<Chain>, calls: seq<Call>, leaf: Bytes32, n: nat)
    requires IsHistory(past, calls) && n <= |calls|
    ensures HasLeaf(past[n], leaf) <==> exists k :: 0 <= k < n && IsVoteCall(past[k], calls[k], leaf)
  {
    hide Step, IsVoteCall, HasLeaf;
    if n == 0 {
      NoVotesNoLeaf(past[0], leaf);
    } else {
      HasLeafIff(past, calls, leaf, n - 1);
      StepHasLeafIff(past[n - 1], calls[n - 1], leaf);
    }
  }

  lemma NoVotesNoLeaf(ch: Chain, leaf: Bytes32)
    requires ch.votes == []
    ensures !HasLeaf(ch, leaf)
  {
  }

  /** In every run, a recorded grant's own vote is on the chain exactly when some transaction of the history
      is an accepted vote with the record's leaf. */
  lemma PlayHasItsVoteIff(cfg: Config, states: seq<State>, events: seq<Event>, n: nat, key: GrantKey)
    requires IsPlatformRun(cfg, states, events) && n <= |events| && key in states[n].grants.records
    ensures var s, d := states[n], states[n].grants.records[key].data;
      && |s.sales.past| == |s.calls| + 1
      && (Voted(cfg, key, d, Fulfilment.Now(s.sales)) <==>
            exists k :: 0 <= k < |s.calls| && IsVoteCall(s.sales.past[k], s.calls[k], d.leaf))
  {
    hide Moves, IsStart, PlatformOk, IsVoteCall, Voted, HasLeaf, DataOk;
    RunKeepsOk(cfg, states, events, n);
    VotedIff(cfg, states[n], key);
  }

  lemma RecordIsSound(cfg: Config, s: State, key: GrantKey)
    requires PlatformOk(cfg, s) && key in s.grants.records
    ensures DataOk(cfg, s.grants.everServed, key, s.grants.records[key].data) && GrantsOk(cfg, s.grants)
  {
    hide GrantsOk, DataOk, FulfilmentInvariants.SysInv, HistoryOk, LeavesOk;
    RecordDataOk(cfg, s.grants, key);
  }

  lemma VotedIff(cfg: Config, s: State, key: GrantKey)
    requires PlatformOk(cfg, s) && key in s.grants.records
    ensures var d := s.grants.records[key].data;
      && |s.sales.past| == |s.calls| + 1
      && (Voted(cfg, key, d, Fulfilment.Now(s.sales)) <==>
            exists k :: 0 <= k < |s.calls| && IsVoteCall(s.sales.past[k], s.calls[k], d.leaf))
  {
    hide PlatformOk, IsVoteCall, Voted, HasLeaf, DataOk, GrantsOk;
    var d := s.grants.records[key].data;
    CallsAreHistory(cfg, s);
    HasLeafIff(s.sales.past, s.calls, d.leaf, |s.calls|);
    RecordIsSound(cfg, s, key);
    LeafTellsIfVoted(cfg, s.grants.everServed, key, d, Fulfilment.Now(s.sales));
  }

  /** A transaction of the history brings the vote of a recorded grant, on a chain that had it not, exactly
      when its call is the accepted vote with the record's leaf. */
  lemma TransactionBringsVoteIff(cfg: Config, s: State, key: GrantKey, txId: string)
    requires PlatformOk(cfg, s) && key in s.grants.records && txId in s.ids
    ensures var k, d, past := s.ids[txId], s.grants.records[key].data, s.sales.past;
      && k < |s.calls| && |past| == |s.calls| + 1
      && (!Voted(cfg, key, d, past[k]) && Voted(cfg, key, d, past[k + 1]) <==> IsVoteCall(past[k], s.calls[k], d.leaf))
  {
    hide GrantsOk, DataOk, FulfilmentInvariants.SysInv, LeavesOk, IsVoteCall, Voted, HasLeaf, Step, HasId, Inv;
    var k, d := s.ids[txId], s.grants.records[key].data;
    HistoryAt(cfg, s, k);
    RecordIsSound(cfg, s, key);
    LeafTellsIfVoted(cfg, s.grants.everServed, key, d, s.sales.past[k]);
    LeafTellsIfVoted(cfg, s.grants.everServed, key, d, s.sales.past[k + 1]);
    CallBringsVoteIff(s.sales.past[k], s.calls[k], d.leaf);
  }

  // ---------- Confirmations ----------

  /** The confirmation counts the record's play, and marks the record. */
  predicate Confirms(s: State, s': State, key: GrantKey, txId: string) {
    var play := FinalizedPlay(key, txId);
    && key in s.grants.records && key in s'.grants.records
    && s'.grants.records[key] == s.grants.records[key].(finalizeTxId := Some(txId))
    && play !in s.grants.db.plays && play in s'.grants.db.plays
    && s'.grants.db.plays[play].event == EventOf(key, s.grants.records[key])
  }

  /** A play confirmed by the transaction of its vote has that vote for good: cast by the holder of the
      granted key, for the counted tournament and points, of exactly the counted ids. */
  lemma ConfirmedByItsVote(cfg: Config, states: seq<State>, events: seq<Event>, m: nat, n: nat, key: GrantKey,
      txId: string)
    returns (v: Vote)
    requires IsPlatformRun(cfg, states, events) && m < n <= |events|
    requires Confirms(states[m], states[m + 1], key, txId) && txId in states[m].ids
    requires var s, k := states[m], states[m].ids[txId];
      k < |s.calls| < |s.sales.past| && IsVoteCall(s.sales.past[k], s.calls[k], s.grants.records[key].data.leaf)
    ensures states[n].sales.past != [] && v in Fulfilment.Now(states[n].sales).votes
    ensures IsVoteOf(cfg, key, states[m].grants.records[key].data, v)
    ensures var e := states[m + 1].grants.db.plays[FinalizedPlay(key, txId)].event;
      e.user == key.wallet && e.tournamentId == v.ballot.tournamentId && e.point == v.ballot.point && Ids(e) == v.ballot.bracket
  {
    hide Moves, IsStart, PlatformOk, IsVoteCall, IsVoteOf, DataOk;
    RunKeepsOk(cfg, states, events, m);
    VotedIff(cfg, states[m], key);
    v :| v in Fulfilment.Now(states[m].sales).votes && IsVoteOf(cfg, key, states[m].grants.records[key].data, v);
    VotesStay(cfg, states, events, m, n);
    VoteMatchesEvent(cfg, key, states[m].grants.records[key], v);
  }

  lemma VoteMatchesEvent(cfg: Config, key: GrantKey, g: GrantRecord, v: Vote)
    requires IsVoteOf(cfg, key, g.data, v)
    ensures var e := EventOf(key, g);
      e.user == key.wallet && e.tournamentId == v.ballot.tournamentId && e.point == v.ballot.point && Ids(e) == v.ballot.bracket
  {
    hide BufferFrom, KeyOf;
  }

  lemma {:induction false} VotesStay(cfg: Config, states: seq<State>, events: seq<Event>, m: nat, n: nat)
    requires IsPlatformRun(cfg, states, events) && m <= n <= |events|
    ensures states[m].sales.past != [] && states[n].sales.past != []
    ensures Fulfilment.Now(states[m].sales).votes <= Fulfilment.Now(states[n].sales).votes
    decreases n - m
  {
    hide Moves, IsStart, PlatformOk, Fulfilment.Now;
    RunKeepsOk(cfg, states, events, n);
    ChainIsThere(cfg, states[n]);
    if m < n {
      VotesStay(cfg, states, events, m, n - 1);
      MoveKeepsVotes(cfg, states[n - 1], events[n - 1], states[n]);
    }
  }

  lemma ChainIsThere(cfg: Config, s: State)
    requires PlatformOk(cfg, s)
    ensures s.sales.past != []
  {
    hide IssuedOk, LeavesOk, FulfilmentInvariants.SysInv, HistoryOk;
  }

  lemma MoveKeepsVotes(cfg: Config, s: State, e: Event, s': State)
    requires Moves(cfg, s, e, s') && s.sales.past != [] && s'.sales.past != []
    ensures Fulfilment.Now(s.sales).votes <= Fulfilment.Now(s'.sales).votes
  {
    hide GrantLaws.Steps, GrantLaws.Enabled, GrantScenarios.Knows, Fulfilment.Next;
    hide Fulfilment.Enabled, Step, GrantIsOurs;
    if e.Sell? {
      ChainMovesByCalls(s.sales, e.sell);
      if OnChain(e.sell).Some? { StepAddsItsVote(Fulfilment.Now(s.sales), OnChain(e.sell).value); }
    }
  }

  /** Any other transaction does as well.  In every reachable state with an open grant whose vote is not on
      the chain, whatever call a transaction of the history made, accepted or not: it confirms the grant, the
      play is counted, and still no vote of the holder is there. */
  lemma AnyCallConfirms(cfg: Config, s: State, key: GrantKey, txId: string) returns (s': State)
    requires PlatformOk(cfg, s) && key in s.grants.records && s.grants.records[key].finalizeTxId.None?
    requires UserKnown(s.grants.db, EventOf(key, s.grants.records[key]))
    requires txId in s.ids && FinalizedPlay(key, txId) !in s.grants.db.plays
    requires s.sales.past != [] && !Voted(cfg, key, s.grants.records[key].data, Fulfilment.Now(s.sales))
    ensures Moves(cfg, s, Event.Play(Confirm(key, txId, Some(IndexerTx(Success, true)))), s')
    ensures Confirms(s, s', key, txId)
    ensures s' == s.(grants := s'.grants) && s'.grants.submitted == s.grants.submitted
    ensures !Voted(cfg, key, s.grants.records[key].data, Fulfilment.Now(s'.sales))
  {
    hide PlatformOk, Voted, UserKnown, DataOk, GrantsOk, Handled, Decide, EventOf;
    RecordIsSound(cfg, s, key);
    var grants := GrantConfirms(cfg, s.grants, key, txId);
    PendingIsIssued(cfg, s);
    s' := s.(grants := grants, issued := s.issued + Requested(grants));
  }

  lemma PendingIsIssued(cfg: Config, s: State)
    requires PlatformOk(cfg, s)
    ensures s.issued + Requested(s.grants) == s.issued
  {
    hide GrantsOk, DataOk, FulfilmentInvariants.SysInv, HistoryOk, LeavesOk, Requested;
  }

  lemma GrantConfirms(cfg: Config, g: Grants.System, key: GrantKey, txId: string) returns (g': Grants.System)
    requires GrantsOk(cfg, g) && key in g.records && g.records[key].finalizeTxId.None?
    requires UserKnown(g.db, EventOf(key, g.records[key])) && FinalizedPlay(key, txId) !in g.db.plays
    ensures Confirmed(g, g', key, txId, Some(IndexerTx(Success, true))) && g'.pending == g.pending
    ensures g'.submitted == g.submitted
    ensures key in g'.records && g'.records[key] == g.records[key].(finalizeTxId := Some(txId))
    ensures var play := FinalizedPlay(key, txId);
      play in g'.db.plays && g'.db.plays[play].event == EventOf(key, g.records[key])
  {
    hide GrantsOk, UserKnown, Handled, FirstAndSecond, Ids, Replayable;
    var e, play := EventOf(key, g.records[key]), FinalizedPlay(key, txId);
    ConfirmationFailsIff(cfg, g, key, play);
    var db := EventApplies(g.db, play, e);
    g' := g.(db := db, records := g.records[key := g.records[key].(finalizeTxId := Some(txId))]);
  }
}
