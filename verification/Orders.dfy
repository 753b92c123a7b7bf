/** Data-market orders, the dataset file built from escrowed vote rows, and the witness rows a sale
    proof reads. */
module Orders {
  import opened Options
  import opened Texts
  import opened Digests
  import opened MerkleTree
  import opened Ledger
  import opened HexCodec

  const ESCROW_BATCH: nat := 8

  datatype Status = CREATED | PAID | FULFILLING | FULFILLED | FAILED
  datatype Stage = QUEUED | REGISTERING | BUILDING | PROVING | CONFIRMING | DONE

  /** An escrowed vote row as pinned at sale time: `bracket` is the preimage of the row's bracket hash,
      segment and salt are texts. */
  datatype PinnedRow = PinnedRow(tournamentId: nat, itemId: nat, bracket: seq<nat>, segment: string, salt: string)

  datatype Order = Order(
    orderId: nat,
    chainId: nat,
    buyerAddress: string,
    buyerPk: Bytes32,
    tournamentId: nat,
    specHash: Bytes32,
    status: Status,
    stage: Stage,
    attempts: nat,
    datasetJson: Option<Dataset>,
    datasetHash: Option<Bytes32>,
    pinnedRows: seq<PinnedRow>,
    licenseId: Option<Bytes32>,
    deliveredRowCount: Option<nat>,
    sampleAtSale: Option<nat>)

  function BuyerPk(wallet: string): Bytes32 {
    Sha256Text(Lower(wallet))
  }

  function NewOrder(orderId: nat, chainId: nat, wallet: string, tournamentId: nat): Order {
    Order(orderId, chainId, wallet, BuyerPk(wallet), tournamentId, Sha256Spec(tournamentId, orderId), CREATED, QUEUED, 0,
          None, None, [], None, None, None)
  }

  function OrderLicenseId(o: Order): Bytes32 {
    LicenseId(o.buyerPk, o.tournamentId, o.specHash)
  }

  /** What identifies an order and never changes. */
  predicate SameIdentity(o: Order, p: Order) {
    && o.orderId == p.orderId && o.chainId == p.chainId && o.buyerAddress == p.buyerAddress
    && o.buyerPk == p.buyerPk && o.tournamentId == p.tournamentId && o.specHash == p.specHash
  }

  predicate SamePins(o: Order, p: Order) {
    o.datasetJson == p.datasetJson && o.datasetHash == p.datasetHash && o.pinnedRows == p.pinnedRows
  }

  /** An earlier attempt has fixed the file, its hash and the rows. */
  predicate IsPinned(o: Order) {
    o.datasetJson.Some? && o.datasetHash.Some? && o.pinnedRows != []
  }

  /** The first rows of a list, as many as a sale can hold. */
  function Batch(rows: seq<PinnedRow>): (r: seq<PinnedRow>)
    ensures |r| <= ESCROW_BATCH
  {
    if |rows| <= ESCROW_BATCH then rows else rows[..ESCROW_BATCH]
  }

  // ---------- The dataset file ----------

  function NameOf(names: map<nat, string>, id: nat): string {
    if id in names then names[id] else "#" + Decimal(id)
  }

  function NamesOf(names: map<nat, string>, ids: seq<nat>): seq<string> {
    seq(|ids|, i requires 0 <= i < |ids| => NameOf(names, ids[i]))
  }

  function ResolveRow(r: PinnedRow, names: map<nat, string>): DatasetRow {
    DatasetRow(r.tournamentId, r.itemId, NameOf(names, r.itemId), r.bracket, NamesOf(names, r.bracket), r.segment, r.salt)
  }

  function ResolveItemNames(rows: seq<PinnedRow>, names: map<nat, string>): seq<DatasetRow> {
    seq(|rows|, i requires 0 <= i < |rows| => ResolveRow(rows[i], names))
  }

  function CanonicalDataset(tournamentId: nat, title: string, orderId: nat, rows: seq<DatasetRow>): Dataset {
    Dataset(tournamentId, title, orderId, rows)
  }

  /** The witness rows a reader of the file gets back by dropping the display names. */
  function RowsOfFile(file: Dataset): seq<PinnedRow> {
    seq(|file.rows|, i requires 0 <= i < |file.rows| =>
      PinnedRow(file.rows[i].tournamentId, file.rows[i].itemId, file.rows[i].bracket, file.rows[i].segment, file.rows[i].salt))
  }

  /** Whatever the names, the file carries exactly the rows it was built from. */
  lemma FileCarriesRows(tournamentId: nat, title: string, orderId: nat, rows: seq<PinnedRow>, names: map<nat, string>)
    ensures RowsOfFile(CanonicalDataset(tournamentId, title, orderId, ResolveItemNames(rows, names))) == rows
  {
  }

  // ---------- The sale witness ----------

  function AsBytes32(bytes: Option<seq<Byte>>): Bytes32 {
    if bytes.Some? then Raw(BytesValue(bytes.value)) else ZERO
  }

  function SegmentBytes(segment: string): Bytes32 {
    AsBytes32(Padded(segment))
  }

  function SaltBytes(salt: string): Bytes32 {
    AsBytes32(Bytes32Of(salt))
  }

  function VoteRowOfPin(r: PinnedRow): VoteRow {
    VoteRow(r.tournamentId, r.itemId, HashBracket(r.bracket), SegmentBytes(r.segment))
  }

  /** A row the witness can encode: a hashable bracket, a segment that fits 32 bytes, a salt of 32 bytes. */
  predicate RowEncodes(r: PinnedRow) {
    BracketSizeOk(|r.bracket|) && Padded(r.segment).Some? && Bytes32Of(r.salt).Some?
  }

  /** A path that proves nothing, for slots without a row and rows not found in the tree. */
  function EmptyPath(leaf: Bytes32): MerklePath {
    MerklePath(leaf, seq(TREE_DEPTH, _ => PathEntry(Blank, false)))
  }

  function WitnessRow(r: PinnedRow, tree: HistoricTree): EscrowRow {
    var commit := VoteCommitment(VoteRowOfPin(r), SaltBytes(r.salt));
    var found := FindPathForLeaf(tree, commit);
    EscrowRow(true, VoteRowOfPin(r), SaltBytes(r.salt), if found == [] then EmptyPath(commit) else found[0])
  }

  const ABSENT_ROW := EscrowRow(false, VoteRow(0, 0, ZERO, ZERO), ZERO, EmptyPath(ZERO))

  /** The rows presented to the circuit hold the pinned rows in order, then absent slots. */
  ghost predicate Presents(rows: seq<EscrowRow>, pins: seq<PinnedRow>) {
    && |pins| <= |rows| == ROW_SLOTS
    && (forall i :: 0 <= i < |pins| ==>
          rows[i].present && rows[i].row == VoteRowOfPin(pins[i]) && rows[i].salt == SaltBytes(pins[i].salt))
    && (forall i :: |pins| <= i < |rows| ==> !rows[i].present && rows[i].path.leaf == ZERO)
  }

  predicate RowsEncode(pins: seq<PinnedRow>) {
    forall r <- pins :: RowEncodes(r)
  }

  function WitnessRows(pins: seq<PinnedRow>, tree: HistoricTree): (rows: seq<EscrowRow>)
    requires |pins| <= ROW_SLOTS
    ensures Presents(rows, pins)
  {
    seq(|pins|, i requires 0 <= i < |pins| => WitnessRow(pins[i], tree)) + seq(ROW_SLOTS - |pins|, _ => ABSENT_ROW)
  }

  lemma {:induction false} PresentsCount(rows: seq<EscrowRow>, pins: seq<PinnedRow>, n: nat)
    requires Presents(rows, pins) && n <= |rows|
    ensures PresentCount(rows, n) == if n <= |pins| then n else |pins|
  {
    if n > 0 {
      PresentsCount(rows, pins, n - 1);
    }
  }

  // ---------- The proof ----------

  /** What proving a sale comes to: the sale to submit, the circuit's refusal, or a witness that throws. */
  datatype Proof = Proven(sale: SaleOrder) | Refused(why: Rejection) | WitnessThrew

  /** The refusals the backend takes as final. */
  predicate IsFinal(why: Rejection) {
    why == EmptyDataset || why == WrongTournament || why == RowNotOnChain
  }

  /** The sale of these rows, with each path read from the given state of the ledger. */
  function SaleFrom(c: Cells, o: Order, hash: Bytes32, rows: seq<PinnedRow>): SaleOrder
    requires |rows| <= ROW_SLOTS
  {
    SaleOrder(o.buyerPk, o.tournamentId, o.specHash, hash, WitnessRows(rows, c.voteCommits))
  }

  /** To prove a sale the circuit is run on one state of the ledger: caller, buyer and license are looked
      up there before the witness is asked, and the witness reads its paths from the same state. */
  function ProveSale(c: Cells, caller: Bytes32, o: Order, hash: Bytes32, pin: Option<seq<PinnedRow>>): Proof {
    if caller != c.finalizeSigner then Refused(NotSigner)
    else if o.buyerPk !in c.buyers then Refused(BuyerNotRegistered)
    else if OrderLicenseId(o) in c.licenses then Refused(LicenseExists)
    else if pin.None? || pin.value == [] || !RowsEncode(Batch(pin.value)) then WitnessThrew
    else
      var sale := SaleFrom(c, o, hash, Batch(pin.value));
      match SellRowsTo(c, caller, sale)
      case Accepted(_) => Proven(sale)
      case Rejected(why) => Refused(why)
  }
}
