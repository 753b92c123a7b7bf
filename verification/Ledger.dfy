/** The twelve ledger cells of the TournamentFinalizer contract and the effect of its circuits.

    A circuit either yields the new ledger or is rejected, and a rejected call leaves the chain as it
    was.  Private witnesses (secret, salt, paths, escrow rows) are part of the call: nothing is
    assumed about who computed them. */
module Ledger {
  import opened Digests
  import opened MerkleTree

  const TREE_DEPTH: nat := 16
  const ROW_SLOTS: nat := 8
  const UINT32_MAX: nat := 0xFFFF_FFFF

  datatype License = License(
    buyerPk: Bytes32, tournamentId: nat, querySpecHash: Bytes32, datasetHash: Bytes32,
    commitDigest: Bytes32, rowCount: nat, sampleAtSale: nat)

  datatype EscrowRow = EscrowRow(present: bool, row: VoteRow, salt: Bytes32, path: MerklePath)

  datatype Cells = Cells(
    owner: Bytes32,
    finalizeSigner: Bytes32,
    domainTag: Bytes32,
    eligibility: HistoricTree,
    nullifiers: set<Bytes32>,
    voteCommits: HistoricTree,
    sampleCount: map<nat, nat>,
    grantedCount: nat,
    finalizedCount: nat,
    buyers: set<Bytes32>,
    licenses: map<Bytes32, License>,
    licenseCount: nat)

  datatype Rejection =
    | NotOwner | NotSigner | ZeroAddress | ValueUnchanged
    | ExpiredSignature | InvalidSigner | AlreadyFinalized
    | BuyerNotRegistered | LicenseExists
    | WrongTournament | RowNotOnChain | EmptyDataset
    | TypeError | TreeFull | CastOverflow

  datatype Outcome = Accepted(cells: Cells) | Rejected(why: Rejection)

  /** The verdict of a check that runs before anything is written. */
  datatype Verdict = Pass | Fault(why: Rejection)

  /** The arguments and witnesses of one vote. */
  datatype Ballot = Ballot(
    secret: Bytes32, tournamentId: nat, point: nat, deadline: nat,
    bracket: seq<nat>, segment: Bytes32, path: MerklePath, salt: Bytes32)

  /** The arguments and witnesses of one sale. */
  datatype SaleOrder = SaleOrder(
    buyerPk: Bytes32, tournamentId: nat, specHash: Bytes32, datasetHash: Bytes32, rows: seq<EscrowRow>)

  /** A circuit call together with the public key of the wallet that submits it. */
  datatype Call =
    | Grant(caller: Bytes32, leaf: Bytes32)
    | Finalize(caller: Bytes32, blockTime: nat, ballot: Ballot)
    | RegisterBuyer(caller: Bytes32, buyerPk: Bytes32)
    | SellRows(caller: Bytes32, sale: SaleOrder)
    | SetFinalizeSigner(caller: Bytes32, signer: Bytes32)
    | SetDomainTag(caller: Bytes32, tag: Bytes32)

  // ---------- Deployment ----------

  function Deploy(deployer: Bytes32, signer: Bytes32, tag: Bytes32): Outcome {
    if signer == ZERO then Rejected(ZeroAddress)
    else Accepted(Cells(deployer, signer, tag, EmptyTree(TREE_DEPTH), {}, EmptyTree(TREE_DEPTH),
                        map[], 0, 0, {}, map[], 0))
  }

  // ---------- Circuits ----------

  function GrantEligibility(c: Cells, caller: Bytes32, leaf: Bytes32): Outcome {
    if caller != c.finalizeSigner then Rejected(NotSigner)
    else if c.eligibility.IsFull() then Rejected(TreeFull)
    else Accepted(c.(eligibility := c.eligibility.Insert(leaf), grantedCount := c.grantedCount + 1))
  }

  /** The leaf a ballot must prove to be granted under the domain tag `tag`. */
  function BallotLeaf(tag: Bytes32, b: Ballot): Bytes32 {
    EligibilityLeaf(tag, UserPublicKey(b.secret), b.tournamentId, b.point, b.deadline, HashBracket(b.bracket))
  }

  function BallotRow(b: Ballot): VoteRow
    requires b.bracket != []
  {
    VoteRow(b.tournamentId, b.bracket[0], HashBracket(b.bracket), b.segment)
  }

  predicate BracketSizeOk(n: nat) {
    n == 16 || n == 32 || n == 64
  }

  function FinalizeTournament(c: Cells, blockTime: nat, b: Ballot): Outcome {
    if !BracketSizeOk(|b.bracket|) then Rejected(TypeError)
    else if b.deadline < blockTime then Rejected(ExpiredSignature)
    else if |b.path.entries| != TREE_DEPTH then Rejected(TypeError)
    else if b.path.leaf != BallotLeaf(c.domainTag, b) then Rejected(InvalidSigner)
    else if PathRoot(b.path) !in c.eligibility.history then Rejected(InvalidSigner)
    else if VoteNullifier(b.secret, b.tournamentId) in c.nullifiers then Rejected(AlreadyFinalized)
    else if c.voteCommits.IsFull() then Rejected(TreeFull)
    else
      var seen := if b.tournamentId in c.sampleCount then c.sampleCount[b.tournamentId] else 0;
      Accepted(c.(
        nullifiers := c.nullifiers + {VoteNullifier(b.secret, b.tournamentId)},
        voteCommits := c.voteCommits.Insert(VoteCommitment(BallotRow(b), b.salt)),
        sampleCount := c.sampleCount[b.tournamentId := seen + 1],
        finalizedCount := c.finalizedCount + 1))
  }

  function RegisterBuyerKey(c: Cells, caller: Bytes32, buyerPk: Bytes32): Outcome {
    if caller != c.finalizeSigner then Rejected(NotSigner)
    else if buyerPk == ZERO then Rejected(ZeroAddress)
    else Accepted(c.(buyers := c.buyers + {buyerPk}))
  }

  /** The sale circuit's check of one escrow row. */
  function CheckRow(c: Cells, r: EscrowRow, tournamentId: nat): Verdict {
    if r.present && r.row.tournamentId != tournamentId then Fault(WrongTournament)
    else if r.present && r.path.leaf != VoteCommitment(r.row, r.salt) then Fault(RowNotOnChain)
    else if r.present && PathRoot(r.path) !in c.voteCommits.history then Fault(RowNotOnChain)
    else Pass
  }

  /** The first fault among the first `n` rows. */
  function CheckRows(c: Cells, rows: seq<EscrowRow>, tournamentId: nat, n: nat): Verdict
    requires n <= |rows|
    decreases n, |rows|
  {
    if n == 0 then Pass
    else
      var before := CheckRows(c, rows, tournamentId, n - 1);
      if before.Fault? then before else CheckRow(c, rows[n - 1], tournamentId)
  }

  function PresentCount(rows: seq<EscrowRow>, n: nat): (r: nat)
    requires n <= |rows|
    ensures r <= n
    decreases n, |rows|
  {
    if n == 0 then 0 else PresentCount(rows, n - 1) + if rows[n - 1].present then 1 else 0
  }

  function RowLeaves(rows: seq<EscrowRow>): seq<Bytes32> {
    seq(|rows|, i requires 0 <= i < |rows| => rows[i].path.leaf)
  }

  predicate RowsTypeOk(rows: seq<EscrowRow>) {
    |rows| == ROW_SLOTS && forall r <- rows :: |r.path.entries| == TREE_DEPTH
  }

  function SampleOf(c: Cells, tournamentId: nat): nat {
    if tournamentId in c.sampleCount then c.sampleCount[tournamentId] else 0
  }

  function MintedLicense(c: Cells, s: SaleOrder): License {
    License(s.buyerPk, s.tournamentId, s.specHash, s.datasetHash, HashVector(RowLeaves(s.rows)),
            PresentCount(s.rows, |s.rows|), SampleOf(c, s.tournamentId))
  }

  function SaleKey(s: SaleOrder): Bytes32 {
    LicenseId(s.buyerPk, s.tournamentId, s.specHash)
  }

  function SellRowsTo(c: Cells, caller: Bytes32, s: SaleOrder): Outcome {
    if caller != c.finalizeSigner then Rejected(NotSigner)
    else if s.buyerPk !in c.buyers then Rejected(BuyerNotRegistered)
    else if SaleKey(s) in c.licenses then Rejected(LicenseExists)
    else if !RowsTypeOk(s.rows) then Rejected(TypeError)
    else if CheckRows(c, s.rows, s.tournamentId, |s.rows|).Fault? then
      Rejected(CheckRows(c, s.rows, s.tournamentId, |s.rows|).why)
    else if PresentCount(s.rows, |s.rows|) == 0 then Rejected(EmptyDataset)
    else if SampleOf(c, s.tournamentId) > UINT32_MAX then Rejected(CastOverflow)
    else Accepted(c.(licenses := c.licenses[SaleKey(s) := MintedLicense(c, s)],
                     licenseCount := c.licenseCount + 1))
  }

  function ChangeSigner(c: Cells, caller: Bytes32, signer: Bytes32): Outcome {
    if caller != c.owner then Rejected(NotOwner)
    else if signer == ZERO then Rejected(ZeroAddress)
    else if signer == c.finalizeSigner then Rejected(ValueUnchanged)
    else Accepted(c.(finalizeSigner := signer))
  }

  function ChangeDomainTag(c: Cells, caller: Bytes32, tag: Bytes32): Outcome {
    if caller != c.owner then Rejected(NotOwner)
    else if tag == c.domainTag then Rejected(ValueUnchanged)
    else Accepted(c.(domainTag := tag))
  }

  function Apply(c: Cells, call: Call): Outcome {
    match call
    case Grant(caller, leaf) => GrantEligibility(c, caller, leaf)
    case Finalize(_, blockTime, ballot) => FinalizeTournament(c, blockTime, ballot)
    case RegisterBuyer(caller, buyerPk) => RegisterBuyerKey(c, caller, buyerPk)
    case SellRows(caller, sale) => SellRowsTo(c, caller, sale)
    case SetFinalizeSigner(caller, signer) => ChangeSigner(c, caller, signer)
    case SetDomainTag(caller, tag) => ChangeDomainTag(c, caller, tag)
  }

  // ---------- Runs ----------

  /** A vote the chain accepted, with the domain tag that was in force. */
  datatype Vote = Vote(ballot: Ballot, tag: Bytes32)

  /** A sale the chain accepted, and how many votes had been accepted before it. */
  datatype Sale = Sale(order: SaleOrder, votesBefore: nat)

  /** The chain together with the record of what it accepted; the record is not stored on chain. */
  datatype Chain = Chain(cells: Cells, votes: seq<Vote>, sales: map<Bytes32, Sale>)

  function Step(ch: Chain, call: Call): Chain {
    match Apply(ch.cells, call)
    case Rejected(_) => ch
    case Accepted(cells) =>
      match call
      case Finalize(_, _, ballot) => Chain(cells, ch.votes + [Vote(ballot, ch.cells.domainTag)], ch.sales)
      case SellRows(_, sale) => Chain(cells, ch.votes, ch.sales[SaleKey(sale) := Sale(sale, |ch.votes|)])
      case _ => Chain(cells, ch.votes, ch.sales)
  }

  /** The chain after the first `n` calls of a history. */
  function Run(genesis: Cells, calls: seq<Call>, n: nat): Chain
    requires n <= |calls|
  {
    if n == 0 then Chain(genesis, [], map[]) else Step(Run(genesis, calls, n - 1), calls[n - 1])
  }

  predicate IsGenesis(c: Cells) {
    c.finalizeSigner != ZERO && Deploy(c.owner, c.finalizeSigner, c.domainTag) == Accepted(c)
  }
}
