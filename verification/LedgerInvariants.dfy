/** What every run of the contract keeps: each accepted vote spends its own grant and is counted once,
    and each license was minted for rows that open votes accepted earlier. */
module LedgerInvariants {
  import opened Digests
  import opened MerkleTree
  import opened Ledger
  import opened Sums

  function VoteRowOf(v: Vote): VoteRow
    requires v.ballot.bracket != []
  {
    BallotRow(v.ballot)
  }

  function VoteCommit(v: Vote): Bytes32
    requires v.ballot.bracket != []
  {
    VoteCommitment(BallotRow(v.ballot), v.ballot.salt)
  }

  /** How many of the first `n` votes are for tournament `t`. */
  function VotesFor(votes: seq<Vote>, t: nat, n: nat): (r: nat)
    requires n <= |votes|
  {
    if n == 0 then 0 else VotesFor(votes, t, n - 1) + if votes[n - 1].ballot.tournamentId == t then 1 else 0
  }

  lemma {:induction false} VotesForPrefix(votes: seq<Vote>, v: Vote, t: nat, n: nat)
    requires n <= |votes|
    ensures VotesFor(votes + [v], t, n) == VotesFor(votes, t, n)
  {
    if n > 0 {
      VotesForPrefix(votes, v, t, n - 1);
    }
  }

  // ---------- The invariant ----------

  ghost predicate TreesOk(c: Cells) {
    && c.eligibility.Valid() && c.eligibility.depth == TREE_DEPTH
    && c.voteCommits.Valid() && c.voteCommits.depth == TREE_DEPTH
    && c.grantedCount == |c.eligibility.leaves|
  }

  /** Vote number `i` holds a granted leaf of its own and its commitment is leaf `i` of the vote tree. */
  ghost predicate VoteOk(c: Cells, v: Vote, i: nat) {
    && BracketSizeOk(|v.ballot.bracket|)
    && BallotLeaf(v.tag, v.ballot) in c.eligibility.leaves
    && NullifierOf(v) in c.nullifiers
    && i < |c.voteCommits.leaves| && c.voteCommits.leaves[i] == VoteCommit(v)
  }

  function NullifierOf(v: Vote): Bytes32 {
    VoteNullifier(v.ballot.secret, v.ballot.tournamentId)
  }

  predicate SameVoter(v: Vote, w: Vote) {
    v.ballot.secret == w.ballot.secret && v.ballot.tournamentId == w.ballot.tournamentId
  }

  ghost predicate BallotsOk(c: Cells, votes: seq<Vote>) {
    && |c.voteCommits.leaves| == |votes| == c.finalizedCount == |c.nullifiers|
    && (forall i :: 0 <= i < |votes| ==> VoteOk(c, votes[i], i))
    && (forall i, j :: 0 <= i < j < |votes| ==> !SameVoter(votes[i], votes[j]))
  }

  ghost predicate NullifiersOk(c: Cells, votes: seq<Vote>) {
    forall n <- c.nullifiers :: exists i :: 0 <= i < |votes| && n == NullifierOf(votes[i])
  }

  ghost predicate SamplesOk(c: Cells, votes: seq<Vote>) {
    && (forall t: nat :: SampleOf(c, t) == VotesFor(votes, t, |votes|))
    && SumOfSamples(c) == |votes|
  }

  ghost predicate VotesOk(c: Cells, votes: seq<Vote>) {
    BallotsOk(c, votes) && NullifiersOk(c, votes) && SamplesOk(c, votes)
  }

  ghost function SumOfSamples(c: Cells): int {
    Sum(c.sampleCount.Keys, (t: nat) => SampleOf(c, t))
  }

  /** A present row of a sale opens the commitment of one of the first `n` votes. */
  ghost predicate OpensVote(r: EscrowRow, votes: seq<Vote>, n: nat)
    requires n <= |votes|
  {
    exists i :: 0 <= i < n && votes[i].ballot.bracket != [] && VoteRowOf(votes[i]) == r.row && votes[i].ballot.salt == r.salt
  }

  ghost predicate SaleOk(c: Cells, votes: seq<Vote>, id: Bytes32, s: Sale) {
    && id == SaleKey(s.order)
    && s.order.buyerPk in c.buyers
    && RowsTypeOk(s.order.rows)
    && s.votesBefore <= |votes|
    && (forall r <- s.order.rows :: r.present ==>
          && r.row.tournamentId == s.order.tournamentId
          && r.path.leaf == VoteCommitment(r.row, r.salt)
          && OpensVote(r, votes, s.votesBefore))
    && PresentCount(s.order.rows, ROW_SLOTS) > 0
    && id in c.licenses
    && c.licenses[id] == License(s.order.buyerPk, s.order.tournamentId, s.order.specHash, s.order.datasetHash,
         HashVector(RowLeaves(s.order.rows)), PresentCount(s.order.rows, ROW_SLOTS),
         VotesFor(votes, s.order.tournamentId, s.votesBefore))
  }

  ghost predicate SalesOk(ch: Chain) {
    && ch.cells.licenses.Keys == ch.sales.Keys
    && ch.cells.licenseCount == |ch.cells.licenses|
    && forall id <- ch.sales :: SaleOk(ch.cells, ch.votes, id, ch.sales[id])
  }

  ghost predicate Inv(ch: Chain) {
    TreesOk(ch.cells) && VotesOk(ch.cells, ch.votes) && SalesOk(ch)
  }

  // ---------- Preservation ----------

  lemma GenesisInv(c: Cells)
    requires IsGenesis(c)
    ensures Inv(Chain(c, [], map[]))
  {
  }

  /** Steps that only add granted leaves and touch no vote cell keep the vote part. */
  lemma VotesFrame(c: Cells, c': Cells, votes: seq<Vote>)
    requires VotesOk(c, votes)
    requires c.eligibility.leaves <= c'.eligibility.leaves
    requires c'.voteCommits == c.voteCommits && c'.nullifiers == c.nullifiers
    requires c'.sampleCount == c.sampleCount && c'.finalizedCount == c.finalizedCount
    ensures VotesOk(c', votes)
  {
    assert forall i :: 0 <= i < |votes| ==> VoteOk(c, votes[i], i) ==> VoteOk(c', votes[i], i);
    assert forall t: nat :: SampleOf(c', t) == SampleOf(c, t);
    SumCongruent(c.sampleCount.Keys, (t: nat) => SampleOf(c, t), (t: nat) => SampleOf(c', t));
  }

  /** Steps that only add buyers and votes keep the sale part. */
  lemma SalesFrame(ch: Chain, c': Cells)
    requires SalesOk(ch)
    requires ch.cells.buyers <= c'.buyers && c'.licenses == ch.cells.licenses
    requires c'.licenseCount == ch.cells.licenseCount
    ensures SalesOk(Chain(c', ch.votes, ch.sales))
  {
    forall id | id in ch.sales ensures SaleOk(c', ch.votes, id, ch.sales[id]) {
      assert SaleOk(ch.cells, ch.votes, id, ch.sales[id]);
    }
  }

  lemma GrantKeepsInv(ch: Chain, caller: Bytes32, leaf: Bytes32)
    requires Inv(ch)
    ensures Inv(Step(ch, Grant(caller, leaf)))
  {
    hide VotesOk, SalesOk, TreeRoot;
    if GrantEligibility(ch.cells, caller, leaf).Accepted? {
      var c' := Step(ch, Grant(caller, leaf)).cells;
      InsertKeepsValid(ch.cells.eligibility, leaf);
      VotesFrame(ch.cells, c', ch.votes);
      SalesFrame(ch, c');
    }
  }

  lemma AdminKeepsInv(ch: Chain, call: Call)
    requires Inv(ch)
    requires call.RegisterBuyer? || call.SetFinalizeSigner? || call.SetDomainTag?
    ensures Inv(Step(ch, call))
  {
    hide VotesOk, SalesOk;
    var c' := Step(ch, call).cells;
    VotesFrame(ch.cells, c', ch.votes);
    SalesFrame(ch, c');
  }

  /** A ballot that passes the circuit's checks holds a leaf granted under the current domain tag. */
  lemma AcceptedBallotIsGranted(c: Cells, blockTime: nat, b: Ballot)
    requires TreesOk(c) && FinalizeTournament(c, blockTime, b).Accepted?
    ensures BallotLeaf(c.domainTag, b) in c.eligibility.leaves
  {
    assert c.eligibility.Accepts(b.path);
    AcceptedLeafWasInserted(c.eligibility, b.path);
  }

  lemma SamplesAfterVote(c: Cells, votes: seq<Vote>, c': Cells, v: Vote)
    requires SamplesOk(c, votes)
    requires c'.sampleCount == c.sampleCount[v.ballot.tournamentId := SampleOf(c, v.ballot.tournamentId) + 1]
    ensures SamplesOk(c', votes + [v])
  {
    var t0 := v.ballot.tournamentId;
    forall t: nat ensures SampleOf(c', t) == VotesFor(votes + [v], t, |votes| + 1) {
      VotesForPrefix(votes, v, t, |votes|);
    }
    var f, g := (t: nat) => SampleOf(c, t), (t: nat) => SampleOf(c', t);
    if t0 in c.sampleCount {
      assert c'.sampleCount.Keys == c.sampleCount.Keys;
      SumChange(c.sampleCount.Keys, f, g, t0);
    } else {
      assert c'.sampleCount.Keys == c.sampleCount.Keys + {t0};
      SumInsert(c.sampleCount.Keys, g, t0);
      SumCongruent(c.sampleCount.Keys, f, g);
    }
  }

  lemma SaleSurvivesVote(c: Cells, votes: seq<Vote>, c': Cells, v: Vote, id: Bytes32, s: Sale)
    requires SaleOk(c, votes, id, s)
    requires c.licenses == c'.licenses && c.buyers == c'.buyers
    ensures SaleOk(c', votes + [v], id, s)
  {
    VotesForPrefix(votes, v, s.order.tournamentId, s.votesBefore);
    forall r | r in s.order.rows && r.present ensures OpensVote(r, votes + [v], s.votesBefore) {
      var i :| 0 <= i < s.votesBefore && votes[i].ballot.bracket != [] && VoteRowOf(votes[i]) == r.row && votes[i].ballot.salt == r.salt;
      assert (votes + [v])[i] == votes[i];
    }
  }

  lemma BallotsAfterVote(c: Cells, votes: seq<Vote>, c': Cells, v: Vote)
    requires BallotsOk(c, votes)
    requires BracketSizeOk(|v.ballot.bracket|) && BallotLeaf(v.tag, v.ballot) in c.eligibility.leaves
    requires NullifierOf(v) !in c.nullifiers
    requires c'.eligibility == c.eligibility
    requires c'.nullifiers == c.nullifiers + {NullifierOf(v)}
    requires c'.voteCommits.leaves == c.voteCommits.leaves + [VoteCommit(v)]
    requires c'.finalizedCount == c.finalizedCount + 1
    ensures BallotsOk(c', votes + [v])
  {
    var votes' := votes + [v];
    forall i | 0 <= i < |votes'| ensures VoteOk(c', votes'[i], i) && (i < |votes| ==> !SameVoter(votes[i], v)) {
      if i < |votes| {
        assert VoteOk(c, votes[i], i);
      }
    }
  }

  lemma NullifiersAfterVote(c: Cells, votes: seq<Vote>, c': Cells, v: Vote)
    requires NullifiersOk(c, votes)
    requires c'.nullifiers == c.nullifiers + {NullifierOf(v)}
    ensures NullifiersOk(c', votes + [v])
  {
    forall n | n in c'.nullifiers ensures exists i :: 0 <= i < |votes + [v]| && n == NullifierOf((votes + [v])[i]) {
      if n in c.nullifiers {
        var i :| 0 <= i < |votes| && n == NullifierOf(votes[i]);
        assert (votes + [v])[i] == votes[i];
      } else {
        assert (votes + [v])[|votes|] == v;
      }
    }
  }

  lemma FinalizeKeepsVotes(ch: Chain, blockTime: nat, b: Ballot)
    requires TreesOk(ch.cells) && VotesOk(ch.cells, ch.votes) && FinalizeTournament(ch.cells, blockTime, b).Accepted?
    ensures VotesOk(FinalizeTournament(ch.cells, blockTime, b).cells, ch.votes + [Vote(b, ch.cells.domainTag)])
  {
    hide BallotsOk, NullifiersOk, SamplesOk, TreesOk, PathRoot, TreeRoot;
    var c, c' := ch.cells, FinalizeTournament(ch.cells, blockTime, b).cells;
    var v := Vote(b, c.domainTag);
    AcceptedBallotIsGranted(c, blockTime, b);
    BallotsAfterVote(c, ch.votes, c', v);
    NullifiersAfterVote(c, ch.votes, c', v);
    SamplesAfterVote(c, ch.votes, c', v);
  }

  lemma SalesSurviveVote(ch: Chain, c': Cells, v: Vote)
    requires SalesOk(ch)
    requires ch.cells.buyers == c'.buyers && c'.licenses == ch.cells.licenses
    requires c'.licenseCount == ch.cells.licenseCount
    ensures SalesOk(Chain(c', ch.votes + [v], ch.sales))
  {
    forall id | id in ch.sales ensures SaleOk(c', ch.votes + [v], id, ch.sales[id]) {
      SaleSurvivesVote(ch.cells, ch.votes, c', v, id, ch.sales[id]);
    }
  }

  lemma FinalizeKeepsInv(ch: Chain, caller: Bytes32, blockTime: nat, b: Ballot)
    requires Inv(ch)
    ensures Inv(Step(ch, Finalize(caller, blockTime, b)))
  {
    hide VotesOk, SalesOk, HistoricTree.Valid, PathRoot, TreeRoot;
    if FinalizeTournament(ch.cells, blockTime, b).Accepted? {
      var ch' := Step(ch, Finalize(caller, blockTime, b));
      InsertKeepsValid(ch.cells.voteCommits, VoteCommitment(BallotRow(b), b.salt));
      FinalizeKeepsVotes(ch, blockTime, b);
      SalesSurviveVote(ch, ch'.cells, Vote(b, ch.cells.domainTag));
    }
  }

  /** A row that passes the circuit's check opens a vote accepted so far. */
  lemma CheckedRowOpensVote(ch: Chain, r: EscrowRow, t: nat)
    requires TreesOk(ch.cells) && VotesOk(ch.cells, ch.votes)
    requires |r.path.entries| == TREE_DEPTH && CheckRow(ch.cells, r, t).Pass? && r.present
    ensures r.row.tournamentId == t
    ensures r.path.leaf == VoteCommitment(r.row, r.salt)
    ensures OpensVote(r, ch.votes, |ch.votes|)
  {
    hide HistoricTree.Valid, PathRoot, SumOfSamples, VotesFor;
    assert ch.cells.voteCommits.Accepts(r.path);
    AcceptedLeafWasInserted(ch.cells.voteCommits, r.path);
    var k := PathIndex(r.path);
    assert VoteOk(ch.cells, ch.votes[k], k);
  }

  lemma {:induction false} EachRowChecked(c: Cells, rows: seq<EscrowRow>, t: nat, n: nat, i: nat)
    requires i < n <= |rows| && CheckRows(c, rows, t, n).Pass?
    ensures CheckRow(c, rows[i], t).Pass?
  {
    if i < n - 1 {
      EachRowChecked(c, rows, t, n - 1, i);
    }
  }

  lemma CheckedRowsOpenVotes(ch: Chain, rows: seq<EscrowRow>, t: nat)
    requires TreesOk(ch.cells) && VotesOk(ch.cells, ch.votes) && RowsTypeOk(rows)
    requires CheckRows(ch.cells, rows, t, |rows|).Pass?
    ensures forall r <- rows :: r.present ==>
      r.row.tournamentId == t && r.path.leaf == VoteCommitment(r.row, r.salt) && OpensVote(r, ch.votes, |ch.votes|)
  {
    hide TreesOk, VotesOk, OpensVote, CheckRow;
    forall r | r in rows && r.present
      ensures r.row.tournamentId == t && r.path.leaf == VoteCommitment(r.row, r.salt)
      ensures OpensVote(r, ch.votes, |ch.votes|)
    {
      var i :| 0 <= i < |rows| && rows[i] == r;
      EachRowChecked(ch.cells, rows, t, |rows|, i);
      CheckedRowOpensVote(ch, r, t);
    }
  }

  lemma AcceptedSaleOk(ch: Chain, caller: Bytes32, s: SaleOrder)
    requires TreesOk(ch.cells) && VotesOk(ch.cells, ch.votes) && SellRowsTo(ch.cells, caller, s).Accepted?
    ensures SaleOk(SellRowsTo(ch.cells, caller, s).cells, ch.votes, SaleKey(s), Sale(s, |ch.votes|))
  {
    hide TreesOk, BallotsOk, NullifiersOk, OpensVote, CheckRows, PresentCount, VotesFor;
    CheckedRowsOpenVotes(ch, s.rows, s.tournamentId);
  }

  lemma SaleFrame(c: Cells, c': Cells, votes: seq<Vote>, id: Bytes32, s: Sale)
    requires SaleOk(c, votes, id, s)
    requires c.buyers <= c'.buyers && id in c'.licenses && c'.licenses[id] == c.licenses[id]
    ensures SaleOk(c', votes, id, s)
  {
  }

  lemma SalesAfterSale(ch: Chain, c': Cells, s: Sale, lic: License)
    requires SalesOk(ch) && SaleKey(s.order) !in ch.cells.licenses
    requires SaleOk(c', ch.votes, SaleKey(s.order), s)
    requires c'.buyers == ch.cells.buyers && c'.licenseCount == ch.cells.licenseCount + 1
    requires c'.licenses == ch.cells.licenses[SaleKey(s.order) := lic]
    ensures SalesOk(Chain(c', ch.votes, ch.sales[SaleKey(s.order) := s]))
  {
    hide SaleOk;
    var key := SaleKey(s.order);
    var sales' := ch.sales[key := s];
    forall id | id in sales' ensures SaleOk(c', ch.votes, id, sales'[id]) {
      if id != key {
        assert SaleOk(ch.cells, ch.votes, id, ch.sales[id]);
        assert id in ch.cells.licenses;
        SaleFrame(ch.cells, c', ch.votes, id, ch.sales[id]);
      }
    }
  }

  lemma SellKeepsInv(ch: Chain, caller: Bytes32, s: SaleOrder)
    requires Inv(ch)
    ensures Inv(Step(ch, SellRows(caller, s)))
  {
    hide TreesOk, VotesOk, SalesOk, SaleOk, CheckRows, PresentCount;
    if SellRowsTo(ch.cells, caller, s).Accepted? {
      AcceptedSaleOk(ch, caller, s);
      var c' := SellRowsTo(ch.cells, caller, s).cells;
      TreesFrame(ch.cells, c');
      VotesFrame(ch.cells, c', ch.votes);
      SalesAfterSale(ch, c', Sale(s, |ch.votes|), MintedLicense(ch.cells, s));
    }
  }

  lemma TreesFrame(c: Cells, c': Cells)
    requires TreesOk(c)
    requires c'.eligibility == c.eligibility && c'.voteCommits == c.voteCommits && c'.grantedCount == c.grantedCount
    ensures TreesOk(c')
  {
  }

  lemma StepKeepsInv(ch: Chain, call: Call)
    requires Inv(ch)
    ensures Inv(Step(ch, call))
  {
    hide Inv, Step;
    match call
    case Grant(caller, leaf) => GrantKeepsInv(ch, caller, leaf);
    case Finalize(caller, blockTime, ballot) => FinalizeKeepsInv(ch, caller, blockTime, ballot);
    case SellRows(caller, sale) => SellKeepsInv(ch, caller, sale);
    case _ => AdminKeepsInv(ch, call);
  }

  lemma {:induction false} RunKeepsInv(genesis: Cells, calls: seq<Call>, n: nat)
    requires IsGenesis(genesis) && n <= |calls|
    ensures Inv(Run(genesis, calls, n))
  {
    hide Inv, Step, IsGenesis;
    if n == 0 {
      GenesisInv(genesis);
    } else {
      RunKeepsInv(genesis, calls, n - 1);
      StepKeepsInv(Run(genesis, calls, n - 1), calls[n - 1]);
    }
  }
}
