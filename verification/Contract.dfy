/** The contract object: twelve cells that its circuits rewrite in place.  Each circuit is proved
    against its effect on the ledger; a rejected call changes no cell. */
module Contract {
  import opened Digests
  import opened MerkleTree
  import opened Ledger

  /** A circuit's result follows `spec`: accepted with exactly those cells, or rejected for that reason
      with every cell as before. */
  ghost predicate Follows(spec: Outcome, before: Cells, after: Cells, verdict: Verdict) {
    match spec
    case Accepted(cells) => verdict == Pass && after == cells
    case Rejected(why) => verdict == Fault(why) && after == before
  }

  class TournamentFinalizer {
    var owner: Bytes32
    var finalizeSigner: Bytes32
    var domainTag: Bytes32
    var eligibility: HistoricTree
    var nullifiers: set<Bytes32>
    var voteCommits: HistoricTree
    var sampleCount: map<nat, nat>
    var grantedCount: nat
    var finalizedCount: nat
    var buyers: set<Bytes32>
    var licenses: map<Bytes32, License>
    var licenseCount: nat

    ghost function State(): Cells
      reads this
    {
      Cells(owner, finalizeSigner, domainTag, eligibility, nullifiers, voteCommits, sampleCount,
            grantedCount, finalizedCount, buyers, licenses, licenseCount)
    }

    constructor (deployer: Bytes32, signer: Bytes32, tag: Bytes32)
      requires signer != ZERO
      ensures Deploy(deployer, signer, tag) == Accepted(State())
    {
      owner, finalizeSigner, domainTag := deployer, signer, tag;
      eligibility, voteCommits := EmptyTree(TREE_DEPTH), EmptyTree(TREE_DEPTH);
      nullifiers, buyers := {}, {};
      sampleCount, licenses := map[], map[];
      grantedCount, finalizedCount, licenseCount := 0, 0, 0;
    }

    /** Deployment: a contract, or the reason there is none. */
    static method InitialState(deployer: Bytes32, signer: Bytes32, tag: Bytes32)
      returns (contract: TournamentFinalizer?, verdict: Verdict)
      ensures match Deploy(deployer, signer, tag)
              case Accepted(cells) => contract != null && fresh(contract) && contract.State() == cells && verdict == Pass
              case Rejected(why) => contract == null && verdict == Fault(why)
    {
      if signer == ZERO { return null, Fault(ZeroAddress); }
      contract := new TournamentFinalizer(deployer, signer, tag);
      return contract, Pass;
    }

    method GrantEligibility(caller: Bytes32, leaf: Bytes32) returns (verdict: Verdict)
      modifies this
      ensures Follows(Ledger.GrantEligibility(old(State()), caller, leaf), old(State()), State(), verdict)
    {
      if caller != finalizeSigner { return Fault(NotSigner); }
      if eligibility.IsFull() { return Fault(TreeFull); }
      eligibility := eligibility.Insert(leaf);
      grantedCount := grantedCount + 1;
      return Pass;
    }

    method FinalizeTournament(blockTime: nat, b: Ballot) returns (verdict: Verdict)
      modifies this
      ensures Follows(Ledger.FinalizeTournament(old(State()), blockTime, b), old(State()), State(), verdict)
    {
      hide TreeRoot, PathRoot, HistoricTree.Insert, BallotLeaf, VoteCommitment, VoteNullifier;
      if !BracketSizeOk(|b.bracket|) { return Fault(TypeError); }
      if b.deadline < blockTime { return Fault(ExpiredSignature); }
      if |b.path.entries| != TREE_DEPTH { return Fault(TypeError); }
      if b.path.leaf != BallotLeaf(domainTag, b) { return Fault(InvalidSigner); }
      var root := MerkleTreePathRoot(b.path);
      if root !in eligibility.history { return Fault(InvalidSigner); }
      var nul := VoteNullifier(b.secret, b.tournamentId);
      if nul in nullifiers { return Fault(AlreadyFinalized); }
      // The runtime refuses a leaf beyond capacity and drops the whole call, so the test may come first.
      if voteCommits.IsFull() { return Fault(TreeFull); }
      nullifiers := nullifiers + {nul};
      voteCommits := voteCommits.Insert(VoteCommitment(BallotRow(b), b.salt));
      if b.tournamentId !in sampleCount {
        sampleCount := sampleCount[b.tournamentId := 0];
      }
      sampleCount := sampleCount[b.tournamentId := sampleCount[b.tournamentId] + 1];
      finalizedCount := finalizedCount + 1;
      return Pass;
    }

    method RegisterBuyer(caller: Bytes32, buyerPk: Bytes32) returns (verdict: Verdict)
      modifies this
      ensures Follows(RegisterBuyerKey(old(State()), caller, buyerPk), old(State()), State(), verdict)
    {
      if caller != finalizeSigner { return Fault(NotSigner); }
      if buyerPk == ZERO { return Fault(ZeroAddress); }
      buyers := buyers + {buyerPk};
      return Pass;
    }

    method CheckEscrowRows(rows: seq<EscrowRow>, tournamentId: nat) returns (verdict: Verdict)
      ensures verdict == CheckRows(State(), rows, tournamentId, |rows|)
    {
      for i := 0 to |rows|
        invariant CheckRows(State(), rows, tournamentId, i) == Pass
      {
        var r := rows[i];
        var root := MerkleTreePathRoot(r.path);
        var fault :=
          if r.present && r.row.tournamentId != tournamentId then Fault(WrongTournament)
          else if r.present && r.path.leaf != VoteCommitment(r.row, r.salt) then Fault(RowNotOnChain)
          else if r.present && root !in voteCommits.history then Fault(RowNotOnChain)
          else Pass;
        if fault.Fault? {
          FaultStays(State(), rows, tournamentId, i + 1, |rows|);
          return fault;
        }
      }
      return Pass;
    }

    method CountPresent(rows: seq<EscrowRow>) returns (n: nat)
      ensures n == PresentCount(rows, |rows|)
    {
      n := 0;
      for i := 0 to |rows|
        invariant n == PresentCount(rows, i)
      {
        if rows[i].present {
          n := n + 1;
        }
      }
    }

    method CollectLeaves(rows: seq<EscrowRow>) returns (leaves: seq<Bytes32>)
      ensures leaves == RowLeaves(rows)
    {
      leaves := [];
      for i := 0 to |rows|
        invariant |leaves| == i
        invariant forall k :: 0 <= k < i ==> leaves[k] == rows[k].path.leaf
      {
        leaves := leaves + [rows[i].path.leaf];
      }
    }

    method SellRows(caller: Bytes32, s: SaleOrder) returns (verdict: Verdict)
      modifies this
      ensures Follows(SellRowsTo(old(State()), caller, s), old(State()), State(), verdict)
    {
      if caller != finalizeSigner { return Fault(NotSigner); }
      if s.buyerPk !in buyers { return Fault(BuyerNotRegistered); }
      var id := LicenseId(s.buyerPk, s.tournamentId, s.specHash);
      if id in licenses { return Fault(LicenseExists); }
      if !RowsTypeOk(s.rows) { return Fault(TypeError); }
      verdict := CheckEscrowRows(s.rows, s.tournamentId);
      if verdict.Fault? { return; }
      var n := CountPresent(s.rows);
      if n == 0 { return Fault(EmptyDataset); }
      var leaves := CollectLeaves(s.rows);
      var sample := if s.tournamentId in sampleCount then sampleCount[s.tournamentId] else 0;
      if sample > UINT32_MAX { return Fault(CastOverflow); }
      licenses := licenses[id := License(s.buyerPk, s.tournamentId, s.specHash, s.datasetHash, HashVector(leaves), n, sample)];
      licenseCount := licenseCount + 1;
    }

    method SetFinalizeSigner(caller: Bytes32, signer: Bytes32) returns (verdict: Verdict)
      modifies this
      ensures Follows(ChangeSigner(old(State()), caller, signer), old(State()), State(), verdict)
    {
      if caller != owner { return Fault(NotOwner); }
      if signer == ZERO { return Fault(ZeroAddress); }
      if signer == finalizeSigner { return Fault(ValueUnchanged); }
      finalizeSigner := signer;
      return Pass;
    }

    method SetDomainTag(caller: Bytes32, tag: Bytes32) returns (verdict: Verdict)
      modifies this
      ensures Follows(ChangeDomainTag(old(State()), caller, tag), old(State()), State(), verdict)
    {
      if caller != owner { return Fault(NotOwner); }
      if tag == domainTag { return Fault(ValueUnchanged); }
      domainTag := tag;
      return Pass;
    }
  }

  /** A fault among the first rows is the verdict on all of them. */
  lemma {:induction false} FaultStays(c: Cells, rows: seq<EscrowRow>, t: nat, m: nat, n: nat)
    requires m <= n <= |rows| && CheckRows(c, rows, t, m).Fault?
    ensures CheckRows(c, rows, t, n) == CheckRows(c, rows, t, m)
  {
    if m < n {
      FaultStays(c, rows, t, m, n - 1);
    }
  }
}
