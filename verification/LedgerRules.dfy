/** Who may change which cell of the contract, and for which reason a vote or a sale is refused: each cell
    and each refusal read off the calls, over all histories. */
module LedgerRules {
  import opened Digests
  import opened MerkleTree
  import opened Ledger
  import opened LedgerInvariants
  import opened LedgerTheorems
  import SaleTheorems

  // ---------- Deployment ----------

  /** A deployment fails exactly for the zero signer, and yields the given rulers and nothing else: no leaf,
      no vote, no buyer, no license, and the empty tree as the only root ever seen. */
  lemma DeployedEmptyIff(deployer: Bytes32, signer: Bytes32, tag: Bytes32)
    ensures Deploy(deployer, signer, tag).Accepted? <==> signer != ZERO
    ensures Deploy(deployer, signer, tag).Accepted? ==>
      var c := Deploy(deployer, signer, tag).cells;
      && IsGenesis(c) && c.owner == deployer && c.finalizeSigner == signer && c.domainTag == tag
      && c.eligibility.leaves == c.voteCommits.leaves == []
      && c.eligibility.history == c.voteCommits.history == {TreeRoot([], TREE_DEPTH)}
      && c.nullifiers == c.buyers == {} && c.sampleCount == map[] && c.licenses == map[]
      && c.grantedCount == c.finalizedCount == c.licenseCount == 0
    ensures signer == ZERO ==> Deploy(deployer, signer, tag) == Rejected(ZeroAddress)
  {
    hide HistoricTree.Valid, TreeRoot, Pow2;
    NothingIsBlank();
  }

  lemma NothingIsBlank()
    ensures TreeRoot([], TREE_DEPTH) == Blank
  {
  }

  // ---------- One call, cell by cell ----------

  /** The cells that rule: the owner's never changes, and only the owner sets the other two. */
  predicate RulersAfter(c: Cells, call: Call, c': Cells) {
    && c'.owner == c.owner
    && c'.finalizeSigner == (if call.SetFinalizeSigner? && call.caller == c.owner && call.signer != ZERO then call.signer
                             else c.finalizeSigner)
    && c'.domainTag == (if call.SetDomainTag? && call.caller == c.owner then call.tag else c.domainTag)
  }

  /** Leaves and buyers are added by the signer alone, while there is room and for keys that are not zero. */
  predicate EntriesAfter(c: Cells, call: Call, c': Cells) {
    && c'.eligibility.leaves == c.eligibility.leaves
         + (if call.Grant? && call.caller == c.finalizeSigner && |c.eligibility.leaves| < 65536 then [call.leaf] else [])
    && c'.buyers == c.buyers
         + (if call.RegisterBuyer? && call.caller == c.finalizeSigner && call.buyerPk != ZERO then {call.buyerPk} else {})
  }

  lemma CallChangesCells(ch: Chain, call: Call)
    requires Inv(ch)
    ensures RulersAfter(ch.cells, call, Step(ch, call).cells)
    ensures EntriesAfter(ch.cells, call, Step(ch, call).cells)
  {
    hide Inv, SellRowsTo, FinalizeTournament, TreeRoot, SaleKey, Pow2;
    TreeHolds();
    RoomIsLeft(ch);
    match call
    case Finalize(_, blockTime, ballot) => VoteFrame(ch.cells, blockTime, ballot);
    case SellRows(caller, sale) => SaleFrame(ch.cells, caller, sale);
    case _ =>
  }

  lemma RoomIsLeft(ch: Chain)
    requires Inv(ch)
    ensures ch.cells.eligibility.IsFull() <==> |ch.cells.eligibility.leaves| >= Pow2(TREE_DEPTH)
  {
    hide VotesOk, SalesOk, HistoricTree.Valid;
  }

  lemma VoteFrame(c: Cells, blockTime: nat, b: Ballot)
    ensures var o := FinalizeTournament(c, blockTime, b);
      o.Accepted? ==>
        o.cells == c.(nullifiers := o.cells.nullifiers, voteCommits := o.cells.voteCommits, sampleCount := o.cells.sampleCount,
                      finalizedCount := o.cells.finalizedCount)
  {
    hide BallotLeaf, BallotRow, PathRoot, HistoricTree.Insert, HistoricTree.IsFull;
  }

  lemma SaleFrame(c: Cells, caller: Bytes32, s: SaleOrder)
    ensures var o := SellRowsTo(c, caller, s);
      o.Accepted? ==> o.cells == c.(licenses := o.cells.licenses, licenseCount := o.cells.licenseCount)
  {
    hide CheckRows, PresentCount, MintedLicense, RowsTypeOk;
  }

  lemma TreeHolds()
    ensures Pow2(TREE_DEPTH) == 65536
  {
    assert Pow2(8) == 256;
    assert Pow2(16) == 65536;
  }

  /** Why the owner's and the signer's own calls are refused. */
  predicate AdminRefused(c: Cells, call: Call, why: Rejection) {
    match call
    case Grant(caller, _) =>
      if caller != c.finalizeSigner then why == NotSigner else |c.eligibility.leaves| >= 65536 && why == TreeFull
    case RegisterBuyer(caller, key) => if caller != c.finalizeSigner then why == NotSigner else key == ZERO && why == ZeroAddress
    case SetFinalizeSigner(caller, signer) =>
      if caller != c.owner then why == NotOwner
      else if signer == ZERO then why == ZeroAddress
      else signer == c.finalizeSigner && why == ValueUnchanged
    case SetDomainTag(caller, tag) => if caller != c.owner then why == NotOwner else tag == c.domainTag && why == ValueUnchanged
    case _ => false
  }

  /** These calls are refused for a reason exactly when it is the first that applies, and then change nothing. */
  lemma AdminRefusedIff(ch: Chain, call: Call, why: Rejection)
    requires Inv(ch) && !call.Finalize? && !call.SellRows?
    ensures Apply(ch.cells, call) == Rejected(why) <==> AdminRefused(ch.cells, call, why)
    ensures AdminRefused(ch.cells, call, why) ==> Step(ch, call) == ch
  {
    hide Inv, TreeRoot, Pow2;
    TreeHolds();
    RoomIsLeft(ch);
  }

  // ---------- Rulers ----------

  /** Over every history the owner is the deployer; the signer differs from an earlier one only if the owner
      set it since, and then it is not zero; and so for the domain tag. */
  lemma {:induction false} OnlyTheOwnerRules(genesis: Cells, calls: seq<Call>, m: nat, n: nat)
    requires IsGenesis(genesis) && m <= n <= |calls|
    ensures var was, now := Run(genesis, calls, m).cells, Run(genesis, calls, n).cells;
      && now.owner == was.owner == genesis.owner && now.finalizeSigner != ZERO
      && (now.finalizeSigner != was.finalizeSigner ==>
            exists k :: m <= k < n && calls[k] == SetFinalizeSigner(genesis.owner, now.finalizeSigner))
      && (now.domainTag != was.domainTag ==> exists k :: m <= k < n && calls[k] == SetDomainTag(genesis.owner, now.domainTag))
    decreases n
  {
    hide Inv, Step;
    if m < n {
      OnlyTheOwnerRules(genesis, calls, m, n - 1);
      RunKeepsInv(genesis, calls, n - 1);
      CallChangesCells(Run(genesis, calls, n - 1), calls[n - 1]);
    } else if n > 0 {
      OnlyTheOwnerRules(genesis, calls, n - 1, n - 1);
      RunKeepsInv(genesis, calls, n - 1);
      CallChangesCells(Run(genesis, calls, n - 1), calls[n - 1]);
    }
  }

  // ---------- Entries ----------

  /** The registered buyers are the keys, other than zero, that a call of the signer of that moment
      registered. */
  lemma {:induction false} BuyersAreTheRegistered(genesis: Cells, calls: seq<Call>, n: nat, key: Bytes32)
    requires IsGenesis(genesis) && n <= |calls|
    ensures key in Run(genesis, calls, n).cells.buyers <==> exists k :: 0 <= k < n && WasRegistered(genesis, calls, k, key)
  {
    hide Inv, Step;
    if n > 0 {
      BuyersAreTheRegistered(genesis, calls, n - 1, key);
      RunKeepsInv(genesis, calls, n - 1);
      CallChangesCells(Run(genesis, calls, n - 1), calls[n - 1]);
      assert key in Run(genesis, calls, n).cells.buyers
        <==> key in Run(genesis, calls, n - 1).cells.buyers || WasRegistered(genesis, calls, n - 1, key);
    }
  }

  predicate WasRegistered(genesis: Cells, calls: seq<Call>, k: nat, key: Bytes32)
    requires k < |calls|
  {
    key != ZERO && calls[k] == RegisterBuyer(Run(genesis, calls, k).cells.finalizeSigner, key)
  }

  /** The leaves of the eligibility tree are the grants of the signers of their moments, in their order. */
  lemma {:induction false} LeavesAreTheGranted(genesis: Cells, calls: seq<Call>, n: nat, i: nat, leaf: Bytes32)
    requires IsGenesis(genesis) && n <= |calls|
    ensures var leaves := Run(genesis, calls, n).cells.eligibility.leaves;
      i < |leaves| && leaves[i] == leaf <==> exists k :: 0 <= k < n && WasGranted(genesis, calls, k, i, leaf)
  {
    hide Inv, Step;
    if n > 0 {
      LeavesAreTheGranted(genesis, calls, n - 1, i, leaf);
      RunKeepsInv(genesis, calls, n - 1);
      CallChangesCells(Run(genesis, calls, n - 1), calls[n - 1]);
      var before, after := Run(genesis, calls, n - 1).cells.eligibility.leaves, Run(genesis, calls, n).cells.eligibility.leaves;
      assert i < |after| && after[i] == leaf <==> (i < |before| && before[i] == leaf) || WasGranted(genesis, calls, n - 1, i, leaf);
    }
  }

  /** The k-th call is the signer's grant of this leaf, the i-th and not beyond the capacity. */
  predicate WasGranted(genesis: Cells, calls: seq<Call>, k: nat, i: nat, leaf: Bytes32)
    requires k < |calls|
  {
    var c := Run(genesis, calls, k).cells;
    calls[k] == Grant(c.finalizeSigner, leaf) && i == |c.eligibility.leaves| < 65536
  }

  // ---------- Refusals of a vote ----------

  /** The path is one the tree gave out for one of its leaves. */
  ghost predicate IsGenuine(leaves: seq<Bytes32>, p: MerklePath)
    requires |leaves| <= Pow2(TREE_DEPTH)
  {
    exists k, i: nat :: i < k <= |leaves| && p == PathFor(leaves[..k], TREE_DEPTH, i)
  }

  ghost predicate HasVoted(ch: Chain, b: Ballot) {
    exists v <- ch.votes :: v.ballot.secret == b.secret && v.ballot.tournamentId == b.tournamentId
  }

  predicate IsBracketSize(n: nat) {
    n == 16 || n == 32 || n == 64
  }

  /** Why a vote is refused; nothing else ever refuses one. */
  ghost predicate VoteRefused(ch: Chain, blockTime: nat, b: Ballot, why: Rejection)
    requires |ch.cells.eligibility.leaves| <= Pow2(TREE_DEPTH)
  {
    var ours := b.path.leaf == BallotLeaf(ch.cells.domainTag, b) && IsGenuine(ch.cells.eligibility.leaves, b.path);
    match why
    case TypeError => !IsBracketSize(|b.bracket|) || (blockTime <= b.deadline && |b.path.entries| != 16)
    case ExpiredSignature => IsBracketSize(|b.bracket|) && b.deadline < blockTime
    case InvalidSigner => IsBracketSize(|b.bracket|) && blockTime <= b.deadline && |b.path.entries| == 16 && !ours
    case AlreadyFinalized => IsBracketSize(|b.bracket|) && blockTime <= b.deadline && ours && HasVoted(ch, b)
    case _ => false
  }

  lemma GenuinePathsPass(t: HistoricTree, p: MerklePath)
    requires t.Valid() && t.depth == TREE_DEPTH
    ensures |p.entries| == 16 && PathRoot(p) in t.history <==> IsGenuine(t.leaves, p)
  {
    hide PathFor, PathRoot, HistoricTree.Valid;
    AcceptsExactlyGenuinePaths(t, p);
  }

  /** In a reachable state a vote is refused for a reason exactly when the reason applies, and no earlier
      check failed; a vote refused for none is accepted. */
  lemma VoteRefusedIff(ch: Chain, blockTime: nat, b: Ballot, why: Rejection)
    requires Inv(ch)
    ensures |ch.cells.eligibility.leaves| <= Pow2(TREE_DEPTH)
    ensures FinalizeTournament(ch.cells, blockTime, b) == Rejected(why) <==> VoteRefused(ch, blockTime, b, why)
  {
    hide PathFor, PathRoot, BallotLeaf, SalesOk, SamplesOk, TreeRoot, IsGenuine, Pow2;
    GenuinePathsPass(ch.cells.eligibility, b.path);
    SpentIff(ch, b);
    FreshVoteFits(ch, blockTime, b);
  }

  lemma SpentIff(ch: Chain, b: Ballot)
    requires BallotsOk(ch.cells, ch.votes) && NullifiersOk(ch.cells, ch.votes)
    ensures VoteNullifier(b.secret, b.tournamentId) in ch.cells.nullifiers <==> HasVoted(ch, b)
  {
    hide BallotsOk, NullifiersOk, VoteNullifier;
    NullifierSpentIff(ch, b);
  }

  // ---------- Refusals of a sale ----------

  /** The row is absent, or of the tournament with a genuine path to its own commitment. */
  ghost predicate RowPasses(c: Cells, r: EscrowRow, t: nat)
    requires |c.voteCommits.leaves| <= Pow2(TREE_DEPTH)
  {
    r.present ==>
      r.row.tournamentId == t && r.path.leaf == VoteCommitment(r.row, r.salt) && IsGenuine(c.voteCommits.leaves, r.path)
  }

  /** The first row that does not pass, and whether it is of the tournament. */
  ghost predicate FirstBadRow(c: Cells, rows: seq<EscrowRow>, t: nat, i: nat)
    requires |c.voteCommits.leaves| <= Pow2(TREE_DEPTH) && i < |rows|
  {
    !RowPasses(c, rows[i], t) && forall j :: 0 <= j < i ==> RowPasses(c, rows[j], t)
  }

  predicate HasSlots(rows: seq<EscrowRow>) {
    |rows| == 8 && forall r <- rows :: |r.path.entries| == 16
  }

  /** The checks before the rows. */
  predicate MayBeSold(c: Cells, caller: Bytes32, s: SaleOrder) {
    && caller == c.finalizeSigner && s.buyerPk in c.buyers
    && LicenseId(s.buyerPk, s.tournamentId, s.specHash) !in c.licenses && HasSlots(s.rows)
  }

  /** Why a sale is refused; nothing else ever refuses one. */
  ghost predicate SaleRefused(c: Cells, caller: Bytes32, s: SaleOrder, why: Rejection)
    requires |c.voteCommits.leaves| <= Pow2(TREE_DEPTH)
  {
    var held := LicenseId(s.buyerPk, s.tournamentId, s.specHash) in c.licenses;
    match why
    case NotSigner => caller != c.finalizeSigner
    case BuyerNotRegistered => caller == c.finalizeSigner && s.buyerPk !in c.buyers
    case LicenseExists => caller == c.finalizeSigner && s.buyerPk in c.buyers && held
    case TypeError => caller == c.finalizeSigner && s.buyerPk in c.buyers && !held && !HasSlots(s.rows)
    case WrongTournament =>
      && MayBeSold(c, caller, s)
      && exists i: nat :: i < 8 && FirstBadRow(c, s.rows, s.tournamentId, i) && s.rows[i].row.tournamentId != s.tournamentId
    case RowNotOnChain =>
      && MayBeSold(c, caller, s)
      && exists i: nat :: i < 8 && FirstBadRow(c, s.rows, s.tournamentId, i) && s.rows[i].row.tournamentId == s.tournamentId
    case EmptyDataset => MayBeSold(c, caller, s) && forall r <- s.rows :: !r.present
    case _ => false
  }

  lemma RowVerdict(c: Cells, r: EscrowRow, t: nat)
    requires TreesOk(c) && |r.path.entries| == TREE_DEPTH
    ensures |c.voteCommits.leaves| <= Pow2(TREE_DEPTH)
    ensures CheckRow(c, r, t) == if RowPasses(c, r, t) then Pass
                                 else if r.row.tournamentId != t then Fault(WrongTournament) else Fault(RowNotOnChain)
  {
    hide IsGenuine, PathRoot, Pow2, VoteCommitment;
    GenuinePathsPass(c.voteCommits, r.path);
  }

  lemma RowsVerdict(c: Cells, rows: seq<EscrowRow>, t: nat)
    requires TreesOk(c) && HasSlots(rows)
    ensures |c.voteCommits.leaves| <= Pow2(TREE_DEPTH)
    ensures CheckRows(c, rows, t, 8).Pass? <==> forall i :: 0 <= i < 8 ==> RowPasses(c, rows[i], t)
    ensures CheckRows(c, rows, t, 8) == Fault(WrongTournament)
       <==> exists i: nat :: i < 8 && FirstBadRow(c, rows, t, i) && rows[i].row.tournamentId != t
    ensures CheckRows(c, rows, t, 8) == Fault(RowNotOnChain)
       <==> exists i: nat :: i < 8 && FirstBadRow(c, rows, t, i) && rows[i].row.tournamentId == t
    ensures CheckRows(c, rows, t, 8) in {Pass, Fault(WrongTournament), Fault(RowNotOnChain)}
  {
    hide CheckRow, CheckRows, RowPasses, TreesOk;
    RowVerdict(c, rows[0], t);
    forall i | 0 <= i < 8
      ensures CheckRow(c, rows[i], t) == if RowPasses(c, rows[i], t) then Pass
                                         else if rows[i].row.tournamentId != t then Fault(WrongTournament) else Fault(RowNotOnChain)
    {
      RowVerdict(c, rows[i], t);
    }
    SaleTheorems.ChecksOfRows(c, rows, t, 8);
    if CheckRows(c, rows, t, 8).Fault? {
      var i: nat :| SaleTheorems.IsFirstFault(c, rows, t, 8, i);
      assert FirstBadRow(c, rows, t, i);
      forall j: nat | j < 8 && FirstBadRow(c, rows, t, j) ensures j == i {
      }
    }
  }

  lemma {:induction false} NonePresentIff(rows: seq<EscrowRow>, n: nat)
    requires n <= |rows|
    ensures PresentCount(rows, n) == 0 <==> forall i :: 0 <= i < n ==> !rows[i].present
  {
    if n > 0 { NonePresentIff(rows, n - 1); }
  }

  /** Past the first checks the rows decide. */
  lemma RowsDecide(ch: Chain, caller: Bytes32, s: SaleOrder)
    requires Inv(ch) && MayBeSold(ch.cells, caller, s)
    ensures var verdict := CheckRows(ch.cells, s.rows, s.tournamentId, 8);
      SellRowsTo(ch.cells, caller, s) ==
        if verdict.Fault? then Rejected(verdict.why) else if (forall r <- s.rows :: !r.present) then Rejected(EmptyDataset)
        else SellRowsTo(ch.cells, caller, s)
    ensures SellRowsTo(ch.cells, caller, s).Rejected? ==>
      CheckRows(ch.cells, s.rows, s.tournamentId, 8).Fault? || forall r <- s.rows :: !r.present
  {
    hide CheckRows, PresentCount, Inv, LicenseId, MintedLicense, SampleOf;
    SamplesFitCast(ch, s.tournamentId);
    NonePresentIff(s.rows, 8);
  }

  lemma SlotsRefusedIff(ch: Chain, caller: Bytes32, s: SaleOrder, why: Rejection)
    requires Inv(ch) && MayBeSold(ch.cells, caller, s)
    ensures |ch.cells.voteCommits.leaves| <= Pow2(TREE_DEPTH)
    ensures SellRowsTo(ch.cells, caller, s) == Rejected(why) <==> SaleRefused(ch.cells, caller, s, why)
  {
    hide CheckRows, FirstBadRow, RowPasses, Pow2, VotesOk, SalesOk, LicenseId, TreesOk, SellRowsTo;
    RowsDecide(ch, caller, s);
    RowsVerdict(ch.cells, s.rows, s.tournamentId);
    if forall r <- s.rows :: !r.present { AbsentRowsPass(ch.cells, s.rows, s.tournamentId); }
  }

  /** In a reachable state a sale is refused for a reason exactly when the reason applies, and no earlier
      check failed; a sale refused for none is accepted. */
  lemma SaleRefusedIff(ch: Chain, caller: Bytes32, s: SaleOrder, why: Rejection)
    requires Inv(ch)
    ensures |ch.cells.voteCommits.leaves| <= Pow2(TREE_DEPTH)
    ensures SellRowsTo(ch.cells, caller, s) == Rejected(why) <==> SaleRefused(ch.cells, caller, s, why)
  {
    hide CheckRows, FirstBadRow, RowPasses, PresentCount, Pow2, VotesOk, SalesOk, LicenseId, TreesOk, MintedLicense, SampleOf;
    TreeFits(ch.cells);
    if MayBeSold(ch.cells, caller, s) { SlotsRefusedIff(ch, caller, s, why); }
  }

  lemma AbsentRowsPass(c: Cells, rows: seq<EscrowRow>, t: nat)
    requires |c.voteCommits.leaves| <= Pow2(TREE_DEPTH) && forall r <- rows :: !r.present
    ensures forall i :: 0 <= i < |rows| ==> RowPasses(c, rows[i], t)
  {
    hide IsGenuine;
  }

  lemma TreeFits(c: Cells)
    requires TreesOk(c)
    ensures |c.voteCommits.leaves| <= Pow2(TREE_DEPTH)
  {
  }
}
