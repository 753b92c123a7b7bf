/** From the served ids to the sold row: votes, and the rows sold later, are arrangements of ids the backend
    had served, in every run of the platform. */
module ServedVotes {
  import opened Options
  import opened Digests
  import opened Ledger
  import opened LedgerInvariants
  import opened LedgerTheorems
  import opened Orders
  import opened HexCodec
  import opened ServedBrackets
  import opened Grants
  import opened GrantDecisions
  import opened GrantLaws
  import opened Platform
  import GrantScenarios
  import Fulfilment
  import FulfilmentInvariants
  import FulfilmentTheorems

  /** The bracket rearranges, without repeats, a list of ids served to the wallet for the tournament. */
  predicate ArrangesServed(g: Grants.System, wallet: string, tournamentId: nat, bracket: seq<nat>) {
    && ValidBracket(bracket)
    && exists v <- g.everServed ::
         && v.wallet == wallet && v.tournamentId == tournamentId
         && multiset(AsIds(bracket)) == multiset(AsIds(v.ids))
  }

  /** The ballot is the one an issued grant was made for. */
  predicate IsGrantsBallot(cfg: Config, s: State, p: Pending, b: Ballot) {
    && p in s.issued
    && KeyOf(cfg, p.data.userPk) == Some(UserPublicKey(b.secret)) && b.tournamentId == p.key.tournamentId
    && ArrangesServed(s.grants, p.key.wallet, b.tournamentId, b.bracket)
    && b.bracket == IdsIn(p.data.entryItemHexes) && b.point == p.data.point && b.deadline == p.data.deadline
  }

  /** A move issues a grant only by making it anew. */
  lemma MoveMakesAnew(cfg: Config, s: State, e: Event, s': State, p: Pending)
    requires PlatformOk(cfg, s) && Moves(cfg, s, e, s') && p in s'.issued && p !in s.issued
    ensures e.Play? && MadeAnew(cfg, s.grants, e.play, p)
  {
    hide GrantsOk, DataOk, HistoryOk, FulfilmentInvariants.SysInv, LeavesOk;
    hide GrantLaws.Steps, GrantLaws.Enabled, GrantScenarios.Knows, MadeAnew, Fulfilment.Next, Fulfilment.Enabled;
    if e.Play? {
      StepKeepsGrants(cfg, s.grants, e.play, s'.grants);
      LockIsTheWallets(cfg, s'.grants, p);
      RequestsComeFrom(cfg, s.grants, e.play, s'.grants, p);
    }
  }

  lemma LockIsTheWallets(cfg: Config, g: Grants.System, p: Pending)
    requires GrantsOk(cfg, g) && p in Requested(g)
    ensures IsRequested(g, p)
  {
    hide DataOk, RecordOk;
  }

  /** Every grant issued in a run of the platform was made anew by one earlier request. */
  lemma {:induction false} IssuedWasMadeAnew(cfg: Config, states: seq<State>, events: seq<Event>, n: nat, p: Pending)
    returns (k: nat)
    requires IsPlatformRun(cfg, states, events) && n <= |events| && p in states[n].issued
    ensures k < n && events[k].Play? && MadeAnew(cfg, states[k].grants, events[k].play, p)
  {
    hide Moves, MadeAnew, PlatformOk;
    if n == 0 {
      assert false;
    } else if p in states[n - 1].issued {
      k := IssuedWasMadeAnew(cfg, states, events, n - 1, p);
    } else {
      k := n - 1;
      RunKeepsOk(cfg, states, events, k);
      MoveMakesAnew(cfg, states[k], events[k], states[n], p);
    }
  }

  /** Every vote the chain accepted is a ballot the backend had granted: by the holder of the granted key,
      of a bracket that rearranges ids served to the grant's wallet, with the points that were due when the
      grant was made. */
  lemma VotesWereServed(cfg: Config, states: seq<State>, events: seq<Event>, n: nat, i: nat)
    returns (p: Pending, k: nat)
    requires IsPlatformRun(cfg, states, events) && n <= |events|
    requires states[n].sales.past != [] && i < |Fulfilment.Now(states[n].sales).votes|
    ensures IsGrantsBallot(cfg, states[n], p, Fulfilment.Now(states[n].sales).votes[i].ballot)
    ensures k < n && events[k].Play? && MadeAnew(cfg, states[k].grants, events[k].play, p)
    ensures var b := Fulfilment.Now(states[n].sales).votes[i].ballot;
      PointIsDue(cfg, states[k].grants.db.plays, p.key, b.point, |b.bracket|)
  {
    hide Moves, IsStart, PlatformOk, MadeAnew, ArrangesServed, PointIsDue;
    RunKeepsOk(cfg, states, events, n);
    p := VoteWasServed(cfg, states[n], i);
    k := IssuedWasMadeAnew(cfg, states, events, n, p);
    NewIsDue(cfg, states[k].grants, events[k].play, p);
  }

  lemma VoteWasServed(cfg: Config, s: State, i: nat) returns (p: Pending)
    requires PlatformOk(cfg, s) && i < |Fulfilment.Now(s.sales).votes|
    ensures IsGrantsBallot(cfg, s, p, Fulfilment.Now(s.sales).votes[i].ballot)
  {
    hide DataOk, TreesOk, SalesOk, IsGrantsBallot, GrantsOk;
    hide NullifiersOk, SamplesOk, HistoryOk, FulfilmentInvariants.SysInv;
    FulfilmentInvariants.ChainIsSound(s.sales);
    var ch := Fulfilment.Now(s.sales);
    assert VoteOk(ch.cells, ch.votes[i], i);
    var v := ch.votes[i];
    assert IsIssued(s.issued, LeafOf(v));
    p :| p in s.issued && p.data.leaf == LeafOf(v);
    GrantedBallot(cfg, s, p, v);
  }

  lemma GrantedBallot(cfg: Config, s: State, p: Pending, v: Vote)
    requires p in s.issued && DataOk(cfg, s.grants.everServed, p.key, p.data) && p.data.leaf == LeafOf(v)
    ensures IsGrantsBallot(cfg, s, p, v.ballot)
  {
    hide LeafFor, BufferFrom, KeyOf, WellFormed;
    SameTag(cfg, s.grants.everServed, p.key, p.data, v);
    GrantFitsOneBallot(cfg, s.grants.everServed, p.key, p.data, v.ballot);
  }

  /** Every row of a delivered dataset is an arrangement of ids served to some wallet for the order's
      tournament, which the holder of that wallet's granted key voted for before the sale. */
  lemma SoldRowsWereServed(cfg: Config, states: seq<State>, events: seq<Event>, n: nat, id: nat, r: PinnedRow)
    returns (p: Pending)
    requires IsPlatformRun(cfg, states, events) && n <= |events|
    requires id in states[n].sales.orders && states[n].sales.orders[id].status == FULFILLED
    requires r in states[n].sales.orders[id].pinnedRows
    ensures p in states[n].issued && r.tournamentId == states[n].sales.orders[id].tournamentId
    ensures ArrangesServed(states[n].grants, p.key.wallet, r.tournamentId, r.bracket)
    ensures r.bracket != [] && r.itemId == r.bracket[0]
  {
    hide Moves, IsStart, PlatformOk;
    RunKeepsOk(cfg, states, events, n);
    p := SoldRowWasServed(cfg, states[n], id, r);
  }

  lemma SoldRowWasServed(cfg: Config, s: State, id: nat, r: PinnedRow) returns (p: Pending)
    requires PlatformOk(cfg, s) && id in s.sales.orders && s.sales.orders[id].status == FULFILLED
    requires r in s.sales.orders[id].pinnedRows
    ensures p in s.issued && r.tournamentId == s.sales.orders[id].tournamentId
    ensures ArrangesServed(s.grants, p.key.wallet, r.tournamentId, r.bracket)
    ensures r.bracket != [] && r.itemId == r.bracket[0]
  {
    hide FulfilmentInvariants.SysInv, ArrangesServed, HistoryOk, IssuedOk, LeavesOk;
    FulfilmentTheorems.SoldAsDelivered(s.sales, id);
    var o, ch := s.sales.orders[id], Fulfilment.Now(s.sales);
    var before := ch.sales[OrderLicenseId(o)].votesBefore;
    assert FulfilmentTheorems.RowWasVoted(r, ch.votes, before, o.tournamentId);
    var i := VoteOfRow(r, ch.votes, before, o.tournamentId);
    p := VoteWasServed(cfg, s, i);
  }

  /** A sold row is the row of its vote: same bracket, and the item is the bracket's winner. */
  lemma VoteOfRow(r: PinnedRow, votes: seq<Vote>, before: nat, t: nat) returns (i: nat)
    requires before <= |votes| && FulfilmentTheorems.RowWasVoted(r, votes, before, t)
    ensures i < before && votes[i].ballot.bracket == r.bracket != []
    ensures votes[i].ballot.tournamentId == r.tournamentId == t && r.itemId == r.bracket[0]
  {
    i :| 0 <= i < before && FulfilmentTheorems.Opens(r, votes[i].ballot);
  }
}
