/** The contract's promises over all runs, for every sequence of calls from deployment on. */
module LedgerTheorems {
  import opened Digests
  import opened MerkleTree
  import opened Ledger
  import opened LedgerInvariants
  import opened Sums

  // ---------- Votes ----------

  function LeafOf(v: Vote): Bytes32 {
    BallotLeaf(v.tag, v.ballot)
  }

  /** The granted leaves used by the first `n` votes. */
  ghost function UsedLeaves(votes: seq<Vote>, n: nat): set<Bytes32>
    requires n <= |votes|
  {
    set i | 0 <= i < n :: LeafOf(votes[i])
  }

  lemma {:induction false} UsedLeavesCount(votes: seq<Vote>, n: nat)
    requires n <= |votes|
    requires forall i, j :: 0 <= i < j < |votes| ==> !SameVoter(votes[i], votes[j])
    ensures |UsedLeaves(votes, n)| == n
  {
    if n > 0 {
      UsedLeavesCount(votes, n - 1);
      assert UsedLeaves(votes, n) == UsedLeaves(votes, n - 1) + {LeafOf(votes[n - 1])};
      assert LeafOf(votes[n - 1]) !in UsedLeaves(votes, n - 1);
    }
  }

  ghost function GrantedLeaves(c: Cells): set<Bytes32> {
    set l | l in c.eligibility.leaves
  }

  lemma {:induction false} DistinctAtMostLength(xs: seq<Bytes32>)
    ensures |set x | x in xs| <= |xs|
  {
    if xs != [] {
      DistinctAtMostLength(xs[1..]);
      assert (set x | x in xs) == (set x | x in xs[1..]) + {xs[0]};
    } else {
      assert (set x | x in xs) == {};
    }
  }

  lemma VotesFitGrants(ch: Chain)
    requires Inv(ch)
    ensures |ch.votes| <= |GrantedLeaves(ch.cells)| <= |ch.cells.eligibility.leaves|
  {
    hide TreesOk, SalesOk, NullifiersOk, SamplesOk, UsedLeaves, GrantedLeaves;
    UsedLeavesCount(ch.votes, |ch.votes|);
    UsedWereGranted(ch.cells, ch.votes);
    GrantedAtMostLeaves(ch.cells);
    SubsetSize(UsedLeaves(ch.votes, |ch.votes|), GrantedLeaves(ch.cells));
  }

  lemma UsedWereGranted(c: Cells, votes: seq<Vote>)
    requires BallotsOk(c, votes)
    ensures UsedLeaves(votes, |votes|) <= GrantedLeaves(c)
    ensures forall i, j :: 0 <= i < j < |votes| ==> !SameVoter(votes[i], votes[j])
  {
    hide LeafOf, SameVoter;
    forall l | l in UsedLeaves(votes, |votes|) ensures l in GrantedLeaves(c) {
      var i :| 0 <= i < |votes| && l == LeafOf(votes[i]);
      BallotWasGranted(c, votes, i);
    }
  }

  lemma BallotWasGranted(c: Cells, votes: seq<Vote>, i: nat)
    requires BallotsOk(c, votes) && i < |votes|
    ensures LeafOf(votes[i]) in c.eligibility.leaves
  {
    assert VoteOk(c, votes[i], i);
  }

  lemma GrantedAtMostLeaves(c: Cells)
    ensures |GrantedLeaves(c)| <= |c.eligibility.leaves|
  {
    DistinctAtMostLength(c.eligibility.leaves);
  }

  /** Votes are counted alike by the counter, the nullifier set, the vote tree and the per-tournament
      samples, and never exceed the distinct leaves granted, let alone the grants made. */
  lemma VoteAccounting(genesis: Cells, calls: seq<Call>, n: nat)
    requires IsGenesis(genesis) && n <= |calls|
    ensures var c := Run(genesis, calls, n).cells;
      && c.finalizedCount == |c.nullifiers| == |c.voteCommits.leaves| == SumOfSamples(c)
      && c.finalizedCount <= |GrantedLeaves(c)| <= c.grantedCount == |c.eligibility.leaves| <= Pow2(TREE_DEPTH)
  {
    RunKeepsInv(genesis, calls, n);
    VotesFitGrants(Run(genesis, calls, n));
  }

  /** Each accepted vote owns a granted leaf nobody else votes with, and no (secret, tournament) pair
      votes twice; its commitment sits at its own index of the vote tree. */
  lemma VotesOwnTheirGrants(genesis: Cells, calls: seq<Call>, n: nat, i: nat, j: nat)
    requires IsGenesis(genesis) && n <= |calls|
    requires i < j < |Run(genesis, calls, n).votes|
    ensures var ch := Run(genesis, calls, n);
      && LeafOf(ch.votes[i]) in ch.cells.eligibility.leaves
      && LeafOf(ch.votes[i]) != LeafOf(ch.votes[j])
      && NullifierOf(ch.votes[i]) != NullifierOf(ch.votes[j])
      && !SameVoter(ch.votes[i], ch.votes[j])
      && ch.votes[i].ballot.bracket != [] && i < |ch.cells.voteCommits.leaves|
      && ch.cells.voteCommits.leaves[i] == VoteCommit(ch.votes[i])
  {
    RunKeepsInv(genesis, calls, n);
    var ch := Run(genesis, calls, n);
    assert VoteOk(ch.cells, ch.votes[i], i);
  }

  /** Every recorded vote is a finalize call of the history, accepted in the state it met and sealed
      under the domain tag of that state. */
  lemma {:induction false} VotesWereCast(genesis: Cells, calls: seq<Call>, n: nat, i: nat) returns (k: nat)
    requires n <= |calls| && i < |Run(genesis, calls, n).votes|
    ensures k < n && calls[k].Finalize? && |Run(genesis, calls, k).votes| == i
    ensures Run(genesis, calls, n).votes[i] == Vote(calls[k].ballot, Run(genesis, calls, k).cells.domainTag)
    ensures Apply(Run(genesis, calls, k).cells, calls[k]).Accepted?
  {
    hide Apply;
    if i < |Run(genesis, calls, n - 1).votes| {
      k := VotesWereCast(genesis, calls, n - 1, i);
    } else {
      k := n - 1;
    }
  }

  /** In a reachable state a vote is accepted exactly when its bracket has a legal size, it is in time,
      its path is one the eligibility tree gave out for its own leaf, and its voter has not voted in
      this tournament.  The vote tree is never too full for such a vote. */
  lemma FinalizeAcceptedIff(ch: Chain, blockTime: nat, b: Ballot)
    requires Inv(ch)
    ensures FinalizeTournament(ch.cells, blockTime, b).Accepted? <==>
      && BracketSizeOk(|b.bracket|)
      && blockTime <= b.deadline
      && b.path.leaf == BallotLeaf(ch.cells.domainTag, b)
      && (exists k, i: nat ::
            i < k <= |ch.cells.eligibility.leaves| && b.path == PathFor(ch.cells.eligibility.leaves[..k], TREE_DEPTH, i))
      && (forall v <- ch.votes :: !SameVoter(v, Vote(b, ch.cells.domainTag)))
  {
    hide TreeRoot, PathFor, PathRoot, SamplesOk, SalesOk, HistoricTree.Valid;
    AcceptsExactlyGenuinePaths(ch.cells.eligibility, b.path);
    NullifierSpentIff(ch, b);
    if FinalizeTournament(ch.cells, blockTime, b) == Rejected(TreeFull) {
      FreshVoteFits(ch, blockTime, b);
    }
  }

  lemma NullifierSpentIff(ch: Chain, b: Ballot)
    requires BallotsOk(ch.cells, ch.votes) && NullifiersOk(ch.cells, ch.votes)
    ensures VoteNullifier(b.secret, b.tournamentId) in ch.cells.nullifiers
       <==> exists v <- ch.votes :: SameVoter(v, Vote(b, ch.cells.domainTag))
  {
    forall i | 0 <= i < |ch.votes| ensures NullifierOf(ch.votes[i]) in ch.cells.nullifiers {
      assert VoteOk(ch.cells, ch.votes[i], i);
    }
    SpentByAVote(ch.votes, ch.cells.nullifiers, Vote(b, ch.cells.domainTag));
  }

  lemma SpentByAVote(votes: seq<Vote>, nullifiers: set<Bytes32>, w: Vote)
    requires forall i :: 0 <= i < |votes| ==> NullifierOf(votes[i]) in nullifiers
    requires forall n <- nullifiers :: exists i :: 0 <= i < |votes| && n == NullifierOf(votes[i])
    ensures NullifierOf(w) in nullifiers <==> exists v <- votes :: SameVoter(v, w)
  {
    if NullifierOf(w) in nullifiers {
      var i :| 0 <= i < |votes| && NullifierOf(w) == NullifierOf(votes[i]);
      assert votes[i] in votes;
    }
  }

  /** A vote that passes every other check always finds room: it holds a granted leaf no earlier vote
      used, and the eligibility tree is no larger than the vote tree. */
  lemma FreshVoteFits(ch: Chain, blockTime: nat, b: Ballot)
    requires Inv(ch)
    ensures FinalizeTournament(ch.cells, blockTime, b) != Rejected(TreeFull)
  {
    hide TreeRoot, PathRoot, SamplesOk, SalesOk;
    if FinalizeTournament(ch.cells, blockTime, b) == Rejected(TreeFull) {
      assert ch.cells.eligibility.Accepts(b.path);
      AcceptedLeafWasInserted(ch.cells.eligibility, b.path);
      var v := Vote(b, ch.cells.domainTag);
      NullifierSpentIff(ch, b);
      MoreLeavesThanVotes(ch, v);
    }
  }

  lemma MoreLeavesThanVotes(ch: Chain, v: Vote)
    requires BallotsOk(ch.cells, ch.votes)
    requires LeafOf(v) in ch.cells.eligibility.leaves && forall w <- ch.votes :: !SameVoter(w, v)
    ensures |ch.votes| < |ch.cells.eligibility.leaves|
  {
    var used := UsedLeaves(ch.votes, |ch.votes|);
    UsedWereGranted(ch.cells, ch.votes);
    UsedLeavesCount(ch.votes, |ch.votes|);
    GrantedAtMostLeaves(ch.cells);
    forall i | 0 <= i < |ch.votes| ensures LeafOf(ch.votes[i]) != LeafOf(v) {
      assert ch.votes[i] in ch.votes;
    }
    SubsetSize(used + {LeafOf(v)}, GrantedLeaves(ch.cells));
  }

  /** Every recorded sale is a sell call of the history, accepted in the state it met, and counted the
      votes of that state. */
  lemma {:induction false} SalesWereMade(genesis: Cells, calls: seq<Call>, n: nat, id: Bytes32) returns (k: nat)
    requires n <= |calls| && id in Run(genesis, calls, n).sales
    ensures k < n && calls[k].SellRows?
    ensures Run(genesis, calls, n).sales[id] == Sale(calls[k].sale, |Run(genesis, calls, k).votes|)
    ensures Apply(Run(genesis, calls, k).cells, calls[k]).Accepted?
  {
    hide Apply, SaleKey;
    var before, last := Run(genesis, calls, n - 1), calls[n - 1];
    if last.SellRows? && Apply(before.cells, last).Accepted? && id == SaleKey(last.sale) {
      k := n - 1;
    } else {
      k := SalesWereMade(genesis, calls, n - 1, id);
    }
  }

  // ---------- Growth ----------

  /** `later` knows everything `ch` knew: trees, votes, buyers and licenses only grow. */
  ghost predicate Grew(ch: Chain, later: Chain) {
    && Extends(later.cells.eligibility, ch.cells.eligibility)
    && Extends(later.cells.voteCommits, ch.cells.voteCommits)
    && ch.cells.buyers <= later.cells.buyers
    && ch.cells.nullifiers <= later.cells.nullifiers
    && ch.votes <= later.votes
    && (forall id <- ch.cells.licenses :: id in later.cells.licenses && later.cells.licenses[id] == ch.cells.licenses[id])
  }

  lemma StepGrows(ch: Chain, call: Call)
    ensures Grew(ch, Step(ch, call))
  {
    hide TreeRoot, CheckRows, PresentCount, PathRoot;
  }

  /** Licenses are write-once and nothing the contract recorded is ever lost. */
  lemma {:induction false} RunGrows(genesis: Cells, calls: seq<Call>, m: nat, n: nat)
    requires m <= n <= |calls|
    ensures Grew(Run(genesis, calls, m), Run(genesis, calls, n))
    decreases n - m
  {
    hide Step;
    if m < n {
      RunGrows(genesis, calls, m + 1, n);
      StepGrows(Run(genesis, calls, m), calls[m]);
    }
  }

  /** A path a voter fetched once keeps working: as long as the tag is unchanged, the deadline has not
      passed and the voter has not voted, the ballot is accepted in every later state. */
  lemma GrantStaysUsable(genesis: Cells, calls: seq<Call>, m: nat, n: nat, i: nat, blockTime: nat, b: Ballot)
    requires IsGenesis(genesis) && m <= n <= |calls|
    requires i < |Run(genesis, calls, m).cells.eligibility.leaves| <= Pow2(TREE_DEPTH)
    requires b.path == PathFor(Run(genesis, calls, m).cells.eligibility.leaves, TREE_DEPTH, i)
    requires b.path.leaf == BallotLeaf(Run(genesis, calls, n).cells.domainTag, b)
    requires BracketSizeOk(|b.bracket|) && blockTime <= b.deadline
    requires forall v <- Run(genesis, calls, n).votes :: !SameVoter(v, Vote(b, Run(genesis, calls, n).cells.domainTag))
    ensures FinalizeTournament(Run(genesis, calls, n).cells, blockTime, b).Accepted?
  {
    hide Run, PathFor, FinalizeTournament, Inv, BallotLeaf, SameVoter, BracketSizeOk, IsGenesis, Pow2;
    RunKeepsInv(genesis, calls, n);
    RunGrows(genesis, calls, m, n);
    var early, late := Run(genesis, calls, m).cells.eligibility.leaves, Run(genesis, calls, n).cells.eligibility.leaves;
    assert late[..|early|] == early;
    FinalizeAcceptedIff(Run(genesis, calls, n), blockTime, b);
  }

  // ---------- Sales ----------

  /** The distinct commitments among the rows a sale presents. */
  ghost function SoldCommits(rows: seq<EscrowRow>, n: nat): set<Bytes32>
    requires n <= |rows|
  {
    set i | 0 <= i < n && rows[i].present :: VoteCommitment(rows[i].row, rows[i].salt)
  }

  ghost function CommitsFor(votes: seq<Vote>, t: nat, n: nat): set<Bytes32>
    requires n <= |votes|
  {
    set i | 0 <= i < n && votes[i].ballot.bracket != [] && votes[i].ballot.tournamentId == t :: VoteCommit(votes[i])
  }

  lemma {:induction false} CommitsForCount(votes: seq<Vote>, t: nat, n: nat)
    requires n <= |votes|
    ensures |CommitsFor(votes, t, n)| <= VotesFor(votes, t, n)
  {
    hide CommitsFor, VoteCommit;
    NoCommitsYet(votes, t);
    if n > 0 {
      CommitsForCount(votes, t, n - 1);
      OneMoreCommit(votes, t, n - 1);
    }
  }

  lemma NoCommitsYet(votes: seq<Vote>, t: nat)
    ensures CommitsFor(votes, t, 0) == {}
  {
  }

  lemma OneMoreCommit(votes: seq<Vote>, t: nat, n: nat)
    requires n < |votes|
    ensures CommitsFor(votes, t, n + 1) == CommitsFor(votes, t, n)
      + (if votes[n].ballot.bracket != [] && votes[n].ballot.tournamentId == t then {VoteCommit(votes[n])} else {})
  {
    hide VoteCommit;
  }

  lemma SoldCommitsAreVotes(c: Cells, votes: seq<Vote>, id: Bytes32, s: Sale)
    requires SaleOk(c, votes, id, s)
    ensures SoldCommits(s.order.rows, ROW_SLOTS) <= CommitsFor(votes, s.order.tournamentId, s.votesBefore)
  {
    forall x | x in SoldCommits(s.order.rows, ROW_SLOTS)
      ensures x in CommitsFor(votes, s.order.tournamentId, s.votesBefore)
    {
      var k :| 0 <= k < ROW_SLOTS && s.order.rows[k].present && x == VoteCommitment(s.order.rows[k].row, s.order.rows[k].salt);
      var r := s.order.rows[k];
      assert r in s.order.rows;
      var i :| 0 <= i < s.votesBefore && votes[i].ballot.bracket != [] && VoteRowOf(votes[i]) == r.row && votes[i].ballot.salt == r.salt;
      assert VoteCommit(votes[i]) == x;
    }
  }

  lemma {:induction false} SomeRowIsSold(rows: seq<EscrowRow>, n: nat)
    requires n <= |rows| && PresentCount(rows, n) > 0
    ensures SoldCommits(rows, n) != {}
  {
    if rows[n - 1].present {
      assert VoteCommitment(rows[n - 1].row, rows[n - 1].salt) in SoldCommits(rows, n);
    } else {
      SomeRowIsSold(rows, n - 1);
      assert SoldCommits(rows, n) == SoldCommits(rows, n - 1);
    }
  }

  /** The slots of a sale that hold a row. */
  ghost function PresentSlots(rows: seq<EscrowRow>, n: nat): set<int>
    requires n <= |rows|
  {
    set i | 0 <= i < n && rows[i].present
  }

  /** The votes for a tournament among the first `n`. */
  ghost function VotesIn(votes: seq<Vote>, t: nat, n: nat): set<int>
    requires n <= |votes|
  {
    set i | 0 <= i < n && votes[i].ballot.tournamentId == t
  }

  lemma {:induction false} SlotsCount(rows: seq<EscrowRow>, n: nat)
    requires n <= |rows|
    ensures PresentCount(rows, n) == |PresentSlots(rows, n)|
  {
    if n > 0 {
      SlotsCount(rows, n - 1);
      assert PresentSlots(rows, n) == PresentSlots(rows, n - 1) + (if rows[n - 1].present then {n - 1} else {});
    }
  }

  lemma {:induction false} VotesCount(votes: seq<Vote>, t: nat, n: nat)
    requires n <= |votes|
    ensures VotesFor(votes, t, n) == |VotesIn(votes, t, n)|
  {
    if n > 0 {
      VotesCount(votes, t, n - 1);
      assert VotesIn(votes, t, n) == VotesIn(votes, t, n - 1) + (if votes[n - 1].ballot.tournamentId == t then {n - 1} else {});
    }
  }

  /** What a license on the chain means.  It holds its sale's fields under the identifier of three of them,
      for a registered buyer; it counts the slots that hold a row, between 1 and 8, and the tournament's
      votes at the time of sale; the distinct votes sold never exceed these, which are at least one, so the
      "no sample" default never reaches a license; and its digest hashes the leaves of the eight slots, slot
      by slot. */
  lemma LicenseMeaning(genesis: Cells, calls: seq<Call>, n: nat, id: Bytes32)
    requires IsGenesis(genesis) && n <= |calls| && id in Run(genesis, calls, n).cells.licenses
    ensures var ch := Run(genesis, calls, n); var lic := ch.cells.licenses[id];
      && id == LicenseId(lic.buyerPk, lic.tournamentId, lic.querySpecHash)
      && lic.buyerPk in ch.cells.buyers
      && ch.cells.licenseCount == |ch.cells.licenses|
      && id in ch.sales && RowsTypeOk(ch.sales[id].order.rows) && ch.sales[id].votesBefore <= |ch.votes|
      && lic.buyerPk == ch.sales[id].order.buyerPk && lic.tournamentId == ch.sales[id].order.tournamentId
      && lic.querySpecHash == ch.sales[id].order.specHash && lic.datasetHash == ch.sales[id].order.datasetHash
      && 1 <= lic.rowCount == |PresentSlots(ch.sales[id].order.rows, ROW_SLOTS)| <= ROW_SLOTS
      && lic.commitDigest.HashVector? && |lic.commitDigest.parts| == ROW_SLOTS
      && (forall i :: 0 <= i < ROW_SLOTS ==> lic.commitDigest.parts[i] == ch.sales[id].order.rows[i].path.leaf)
      && 1 <= |SoldCommits(ch.sales[id].order.rows, ROW_SLOTS)| <= lic.sampleAtSale
      && lic.sampleAtSale == |VotesIn(ch.votes, lic.tournamentId, ch.sales[id].votesBefore)|
  {
    hide Run, TreesOk, VotesOk, SaleOk, SoldCommits, VotesFor, RowsTypeOk, VotesIn, PresentSlots;
    RunKeepsInv(genesis, calls, n);
    var ch := Run(genesis, calls, n);
    assert SaleOk(ch.cells, ch.votes, id, ch.sales[id]);
    LicenseSays(ch, id);
    LicenseIsBacked(ch, id);
    VotesCount(ch.votes, ch.cells.licenses[id].tournamentId, ch.sales[id].votesBefore);
  }

  lemma LicenseSays(ch: Chain, id: Bytes32)
    requires id in ch.sales && SaleOk(ch.cells, ch.votes, id, ch.sales[id])
    ensures id in ch.cells.licenses
    ensures var lic, order := ch.cells.licenses[id], ch.sales[id].order;
      && id == LicenseId(lic.buyerPk, lic.tournamentId, lic.querySpecHash) && lic.buyerPk in ch.cells.buyers
      && lic.buyerPk == order.buyerPk && lic.querySpecHash == order.specHash && lic.datasetHash == order.datasetHash
      && RowsTypeOk(order.rows) && ch.sales[id].votesBefore <= |ch.votes|
      && 1 <= lic.rowCount == |PresentSlots(order.rows, ROW_SLOTS)| <= ROW_SLOTS
      && lic.commitDigest.HashVector? && |lic.commitDigest.parts| == ROW_SLOTS
      && (forall i :: 0 <= i < ROW_SLOTS ==> lic.commitDigest.parts[i] == order.rows[i].path.leaf)
      && lic.tournamentId == order.tournamentId
      && lic.sampleAtSale == VotesFor(ch.votes, order.tournamentId, ch.sales[id].votesBefore)
  {
    hide OpensVote, VotesFor, PresentCount, PresentSlots;
    SlotsCount(ch.sales[id].order.rows, ROW_SLOTS);
  }

  lemma LicenseIsBacked(ch: Chain, id: Bytes32)
    requires id in ch.sales && SaleOk(ch.cells, ch.votes, id, ch.sales[id])
    ensures 1 <= |SoldCommits(ch.sales[id].order.rows, ROW_SLOTS)|
              <= VotesFor(ch.votes, ch.sales[id].order.tournamentId, ch.sales[id].votesBefore)
  {
    var s := ch.sales[id];
    SoldCommitsAreVotes(ch.cells, ch.votes, id, s);
    SubsetSize(SoldCommits(s.order.rows, ROW_SLOTS), CommitsFor(ch.votes, s.order.tournamentId, s.votesBefore));
    CommitsForCount(ch.votes, s.order.tournamentId, s.votesBefore);
    SomeRowIsSold(s.order.rows, ROW_SLOTS);
  }

  /** No two of the present rows share a commitment. */
  predicate DistinctRows(rows: seq<EscrowRow>, n: nat)
    requires n <= |rows|
  {
    forall i, j :: 0 <= i < j < n && rows[i].present && rows[j].present ==>
      VoteCommitment(rows[i].row, rows[i].salt) != VoteCommitment(rows[j].row, rows[j].salt)
  }

  lemma NoRowsSold(rows: seq<EscrowRow>)
    ensures SoldCommits(rows, 0) == {} && DistinctRows(rows, 0)
  {
  }

  lemma OneMoreSoldRow(rows: seq<EscrowRow>, n: nat)
    requires n < |rows|
    ensures var commit := VoteCommitment(rows[n].row, rows[n].salt);
      && SoldCommits(rows, n + 1) == SoldCommits(rows, n) + (if rows[n].present then {commit} else {})
      && (DistinctRows(rows, n + 1) <==> DistinctRows(rows, n) && (rows[n].present ==> commit !in SoldCommits(rows, n)))
  {
    hide VoteCommitment;
  }

  /** A license counts row slots, not votes: its row count is the number of distinct commitments sold
      exactly when no two present rows share a commitment. */
  lemma {:induction false} RowCountIsDistinctIff(rows: seq<EscrowRow>, n: nat)
    requires n <= |rows|
    ensures |SoldCommits(rows, n)| <= PresentCount(rows, n)
    ensures PresentCount(rows, n) == |SoldCommits(rows, n)| <==> DistinctRows(rows, n)
  {
    hide VoteCommitment, SoldCommits, DistinctRows;
    NoRowsSold(rows);
    if n > 0 {
      RowCountIsDistinctIff(rows, n - 1);
      OneMoreSoldRow(rows, n - 1);
    }
  }

  /** So the row count can exceed the sample: the contract accepts one good row in all eight slots. */
  lemma RepeatedRowIsAccepted(ch: Chain, s: SaleOrder, r: EscrowRow)
    requires Inv(ch)
    requires s.rows == [r, r, r, r, r, r, r, r] && s.buyerPk in ch.cells.buyers && SaleKey(s) !in ch.cells.licenses
    requires r.present && |r.path.entries| == TREE_DEPTH && CheckRow(ch.cells, r, s.tournamentId).Pass?
    ensures SellRowsTo(ch.cells, ch.cells.finalizeSigner, s).Accepted?
    ensures MintedLicense(ch.cells, s).rowCount == 8 && |SoldCommits(s.rows, ROW_SLOTS)| == 1
  {
    hide CheckRow, SalesOk, TreeRoot;
    RepeatedRow(ch.cells, s.rows, r, s.tournamentId, 8);
    SamplesFitCast(ch, s.tournamentId);
    assert SoldCommits(s.rows, ROW_SLOTS) == {VoteCommitment(r.row, r.salt)} by {
      assert s.rows[0] == r;
    }
  }

  lemma {:induction false} RepeatedRow(c: Cells, rows: seq<EscrowRow>, r: EscrowRow, t: nat, n: nat)
    requires n <= |rows| && (forall i :: 0 <= i < n ==> rows[i] == r) && r.present && CheckRow(c, r, t).Pass?
    ensures CheckRows(c, rows, t, n).Pass? && PresentCount(rows, n) == n
  {
    hide CheckRow;
    if n > 0 {
      RepeatedRow(c, rows, r, t, n - 1);
    }
  }

  lemma {:induction false} VotesForAtMost(votes: seq<Vote>, t: nat, n: nat)
    requires n <= |votes|
    ensures VotesFor(votes, t, n) <= n
  {
    if n > 0 {
      VotesForAtMost(votes, t, n - 1);
    }
  }

  lemma VotesFitTree(ch: Chain)
    requires TreesOk(ch.cells) && BallotsOk(ch.cells, ch.votes)
    ensures |ch.votes| <= 65536
  {
    assert Pow2(8) == 256;
    assert Pow2(16) == 65536;
  }

  /** The 32-bit cast of the sample count never fails: there are at most 65536 votes in all. */
  lemma SamplesFitCast(ch: Chain, t: nat)
    requires Inv(ch)
    ensures SampleOf(ch.cells, t) <= 65536 < UINT32_MAX
  {
    hide TreesOk, SalesOk, BallotsOk, NullifiersOk;
    VotesForAtMost(ch.votes, t, |ch.votes|);
    VotesFitTree(ch);
  }
}
