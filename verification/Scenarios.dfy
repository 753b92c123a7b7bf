/** Runs that exist: a sale that goes well, sales refused for good for a view that lags or a row that is
    junk, and the three ways an ended order is reopened. */
module Scenarios {
  import opened Options
  import opened Digests
  import opened Texts
  import opened MerkleTree
  import opened HexCodec
  import opened Ledger
  import opened LedgerInvariants
  import opened LedgerTheorems
  import opened Orders
  import opened SaleTheorems
  import opened Fulfilment
  import opened FulfilmentInvariants
  import opened TerminalOrders

  // ---------- The chain before the sale ----------

  lemma OutsideLeads(s: System, t: System, call: Call) returns (t': System)
    requires Leads(s, t) && t.past != [] && !call.SellRows?
    ensures t' == OnChain(t, call) && Leads(s, t')
  {
    hide Leads, OnChain;
    LeadsOn(s, t, Outside(call));
    t' := Next(t, Outside(call));
  }

  /** The ballot with its path in the tree that holds its leaf alone. */
  function Sealed(tag: Bytes32, b: Ballot): Ballot {
    b.(path := PathFor([BallotLeaf(tag, b)], TREE_DEPTH, 0))
  }

  /** Signer, owner and tag are as at the start. */
  ghost predicate SameRulers(s: System) {
    && s.past != [] && Now(s).cells.finalizeSigner == s.past[0].cells.finalizeSigner
    && Now(s).cells.domainTag == s.past[0].cells.domainTag && Now(s).cells.owner == s.past[0].cells.owner
  }

  /** One leaf was granted, and its one vote was cast. */
  ghost predicate OneVote(ch: Chain, b: Ballot) {
    && ch.votes == [Vote(Sealed(ch.cells.domainTag, b), ch.cells.domainTag)]
    && ch.cells.eligibility.leaves == [BallotLeaf(ch.cells.domainTag, b)]
  }

  /** A chain fit for selling `row` to the wallet: nothing has been sold yet. */
  ghost predicate Offers(s: System, wallet: string, row: PinnedRow, b: Ballot) {
    && s.past != [] && Now(s).cells.finalizeSigner == s.operator && Now(s).cells.licenses == map[]
    && BuyerPk(wallet) in Now(s).cells.buyers && Now(s).cells.voteCommits.leaves == [CommitOf(row)]
    && OneVote(Now(s), b) && SameRulers(s)
  }

  /** The second state of the chain knows the buyer, and no vote yet. */
  ghost predicate Lags(s: System, wallet: string) {
    && |s.past| >= 2 && s.past[1].cells.finalizeSigner == s.operator && s.past[1].cells.licenses == map[]
    && BuyerPk(wallet) in s.past[1].cells.buyers && s.past[1].cells.voteCommits.leaves == []
  }

  /** Nothing but the chain has moved. */
  predicate Idle(s0: System, s: System) {
    s == s0.(past := s.past) && s0.past != [] && s0.past <= s.past
  }

  lemma BuyerRegistered(s0: System, wallet: string) returns (s: System)
    requires IsInitial(s0)
    ensures Leads(s0, s) && Idle(s0, s) && |s.past| == 2
    ensures Now(s) == Chain(s0.past[0].cells.(buyers := {BuyerPk(wallet)}), [], map[])
    ensures s0.operator == s0.past[0].cells.finalizeSigner ==> Lags(s, wallet)
  {
    hide Leads, SellRowsTo, FinalizeTournament, Ledger.GrantEligibility;
    LeadsHere(s0);
    s := OutsideLeads(s0, s0, RegisterBuyer(s0.past[0].cells.finalizeSigner, BuyerPk(wallet)));
  }

  /** A row of a real vote: its bracket can be hashed, its texts encoded, and its item is the winner. */
  predicate IsVoteRow(row: PinnedRow) {
    RowEncodes(row) && row.bracket != [] && row.itemId == row.bracket[0]
  }

  /** The ballot, whoever casts it, seals the row. */
  predicate Seals(b: Ballot, row: PinnedRow) {
    && b.tournamentId == row.tournamentId && b.bracket == row.bracket
    && b.segment == SegmentBytes(row.segment) && b.salt == SaltBytes(row.salt)
  }

  function SomeBallot(row: PinnedRow): (b: Ballot)
    ensures Seals(b, row)
  {
    Ballot(ZERO, row.tournamentId, 0, 0, row.bracket, SegmentBytes(row.segment), MerklePath(ZERO, []), SaltBytes(row.salt))
  }

  /** The first vote of all: granted, cast and sealed. */
  lemma VoteSealed(s0: System, s1: System, wallet: string, row: PinnedRow, b: Ballot) returns (s: System)
    requires IsInitial(s0) && s0.operator == s0.past[0].cells.finalizeSigner && IsVoteRow(row) && Seals(b, row)
    requires Leads(s0, s1) && Idle(s0, s1)
    requires Now(s1) == Chain(s0.past[0].cells.(buyers := {BuyerPk(wallet)}), [], map[])
    ensures Leads(s0, s) && Idle(s0, s) && s1.past <= s.past && Offers(s, wallet, row, b)
  {
    hide Leads, SellRowsTo, FinalizeTournament, SysInv, PathEntriesFor, Padded, Bytes32Of;
    var tag := Now(s1).cells.domainTag;
    s := GrantedLeaf(s0, s1, BallotLeaf(tag, b));
    StartIsSafe(s0);
    LeadsKeepsTerminals(s0, s);
    ChainIsSound(s);
    FirstBallotIsAccepted(Now(s), b, row);
    s := CastBallot(s0, s, b, wallet, row);
  }

  lemma StartIsSafe(s: System)
    requires IsInitial(s)
    ensures SysInv(s) && BodyCannotReopen(s)
  {
    hide SysInv;
    InitialInv(s);
  }

  lemma GrantedLeaf(s0: System, s1: System, leaf: Bytes32) returns (s: System)
    requires Leads(s0, s1) && Idle(s0, s1) && Now(s1).cells.finalizeSigner == s0.operator
    requires Now(s1).cells.eligibility == EmptyTree(TREE_DEPTH)
    ensures Leads(s0, s) && Idle(s0, s) && s1.past <= s.past
    ensures Now(s).votes == Now(s1).votes && Now(s).sales == Now(s1).sales
    ensures Now(s).cells ==
      Now(s1).cells.(eligibility := Now(s).cells.eligibility, grantedCount := Now(s1).cells.grantedCount + 1)
    ensures Now(s).cells.eligibility.leaves == [leaf]
  {
    hide Leads, SellRowsTo, FinalizeTournament, TreeRoot;
    s := OutsideLeads(s0, s1, Grant(s0.operator, leaf));
    assert [] + [leaf] == [leaf];
  }

  lemma FirstBallotIsAccepted(ch: Chain, b: Ballot, row: PinnedRow)
    requires Inv(ch) && ch.votes == [] && Seals(b, row) && IsVoteRow(row)
    requires ch.cells.eligibility.leaves == [BallotLeaf(ch.cells.domainTag, b)]
    ensures FinalizeTournament(ch.cells, 0, Sealed(ch.cells.domainTag, b)).Accepted?
  {
    hide Inv, FinalizeTournament, PathEntriesFor, Padded, Bytes32Of;
    var leaves, ballot := ch.cells.eligibility.leaves, Sealed(ch.cells.domainTag, b);
    assert leaves[..1] == leaves;
    assert ballot.path == PathFor(leaves[..1], TREE_DEPTH, 0);
    FinalizeAcceptedIff(ch, 0, ballot);
  }

  lemma CastBallot(s0: System, s1: System, b: Ballot, wallet: string, row: PinnedRow) returns (s: System)
    requires Leads(s0, s1) && Idle(s0, s1) && IsVoteRow(row) && Seals(b, row) && Now(s1).votes == []
    requires FinalizeTournament(Now(s1).cells, 0, Sealed(Now(s1).cells.domainTag, b)).Accepted?
    requires Now(s1).cells.finalizeSigner == s0.operator == s0.past[0].cells.finalizeSigner
    requires Now(s1).cells.domainTag == s0.past[0].cells.domainTag
    requires Now(s1).cells.owner == s0.past[0].cells.owner
    requires Now(s1).cells.eligibility.leaves == [BallotLeaf(Now(s1).cells.domainTag, b)]
    requires Now(s1).cells.licenses == map[] && BuyerPk(wallet) in Now(s1).cells.buyers
    requires Now(s1).cells.voteCommits.leaves == []
    ensures Leads(s0, s) && Idle(s0, s) && s1.past <= s.past && Offers(s, wallet, row, b)
  {
    hide Leads, SellRowsTo, PathFor, PathRoot, Padded, Bytes32Of, TreeRoot, BallotLeaf;
    s := OutsideLeads(s0, s1, Finalize(ZERO, 0, Sealed(Now(s1).cells.domainTag, b)));
  }

  // ---------- An order in hand ----------

  /** A body works on the order, standing at `pc`; chain and network are as they were at `base`. */
  predicate Works(base: System, s: System, o: Order, pc: Pc) {
    && s.body == Some(Body(o, pc)) && o.orderId in s.orders && s.past == base.past && s.past != []
    && s.operator == base.operator && s.maxAttempts == base.maxAttempts && s.submitted == base.submitted
  }

  function PaidOrder(id: nat, chainId: nat, wallet: string, t: nat): Order {
    NewOrder(id, chainId, wallet, t).(status := PAID, stage := QUEUED)
  }

  lemma OrderPaid(s0: System, base: System, id: nat, chainId: nat, wallet: string, t: nat) returns (s: System)
    requires IsInitial(s0) && Leads(s0, base) && Idle(s0, base)
    ensures Leads(s0, s) && s.body.None? && s.queue == [id] && id in s.orders
    ensures s.orders[id] == PaidOrder(id, chainId, wallet, t) && id in s.payReads
    ensures s.past == base.past && s.operator == s0.operator && s.maxAttempts == s0.maxAttempts && s.submitted == {}
  {
    hide Leads, BodyStep, Step;
    LeadsOn(s0, base, CreateOrder(id, chainId, wallet, t));
    s := Next(base, CreateOrder(id, chainId, wallet, t));
    LeadsOn(s0, s, PayRead(id));
    s := Next(s, PayRead(id));
    LeadsOn(s0, s, PayRead(id));
    s := Next(s, PayRead(id));
    LeadsOn(s0, s, PayWrite(id));
    s := Next(s, PayWrite(id));
  }

  lemma BodyStarted(s0: System, s1: System, id: nat) returns (s: System)
    requires Leads(s0, s1) && s1.past != [] && s1.body.None? && s1.queue == [id] && id in s1.orders
    requires s1.orders[id].status == PAID && s1.orders[id].orderId == id
    ensures Leads(s0, s) && Works(s1, s, s1.orders[id], Claim) && s.payReads == s1.payReads
  {
    hide Leads, BodyStep, Step;
    LeadsOn(s0, s1, Start(true));
    s := Next(s1, Start(true));
  }

  /** An acknowledged write that keeps the body at work. */
  lemma Onward(s0: System, base: System, s1: System, o: Order, pc: Pc, next: Pc) returns (s: System)
    requires Leads(s0, s1) && Works(base, s1, o, pc) && WriteAt(pc).Some?
    requires AfterWrite(Body(o, pc), s1.maxAttempts) == Some(next)
    ensures Leads(s0, s) && Works(base, s, o, next) && s.payReads == s1.payReads
    ensures s.orders == s1.orders[o.orderId := Patched(s1.orders[o.orderId], WriteAt(pc).value)]
  {
    hide Leads, CallStep, Patched;
    s := AwaitLeads(s0, s1, Stored);
  }

  /** The buyer is seen at once, in whatever view the indexer answers from. */
  lemma ToTheBuild(s0: System, base: System, s1: System, view: nat, o: Order) returns (s: System)
    requires Leads(s0, s1) && Works(base, s1, o, Claim)
    requires view < |base.past| && o.buyerPk in base.past[view].cells.buyers
    ensures Leads(s0, s) && Works(base, s, o, Build) && s.payReads == s1.payReads
  {
    hide Leads, Works, BodyStep;
    s := Onward(s0, base, s1, o, Claim, ToRegistering);
    s := Onward(s0, base, s, o, ToRegistering, CheckBuyer);
    s := BuyerSeenAtOnce(s0, base, s, view, o);
    s := Onward(s0, base, s, o, ToBuilding, Build);
  }

  lemma BuyerSeenAtOnce(s0: System, base: System, s1: System, view: nat, o: Order) returns (s: System)
    requires Leads(s0, s1) && Works(base, s1, o, CheckBuyer)
    requires view < |base.past| && o.buyerPk in base.past[view].cells.buyers
    ensures Leads(s0, s) && Works(base, s, o, ToBuilding) && s.payReads == s1.payReads
  {
    hide Leads;
    s := AwaitLeads(s0, s1, Seen(view));
  }

  // ---------- Up to the proof ----------

  lemma DatasetPinned(s0: System, base: System, s1: System, o: Order, rows: seq<PinnedRow>)
    returns (s: System, hash: Bytes32)
    requires Leads(s0, s1) && Works(base, s1, o, Build) && !IsPinned(o) && 0 < |rows| <= ESCROW_BATCH
    ensures Leads(s0, s) && Works(base, s, o, Prove(rows, hash)) && s.orders[o.orderId].pinnedRows == rows
  {
    hide Leads, BodyStep;
    var file;
    s, file := FileBuilt(s0, base, s1, o, rows);
    hash := Sha256File(file);
    s := Onward(s0, base, s, o, Pin(file, rows), ToProving(rows, hash));
    s := Onward(s0, base, s, o, ToProving(rows, hash), Prove(rows, hash));
  }

  lemma FileBuilt(s0: System, base: System, s1: System, o: Order, rows: seq<PinnedRow>)
    returns (s: System, file: Dataset)
    requires Leads(s0, s1) && Works(base, s1, o, Build) && !IsPinned(o) && 0 < |rows| <= ESCROW_BATCH
    ensures Leads(s0, s) && Works(base, s, o, Pin(file, rows))
  {
    hide Leads, CanonicalDataset, ResolveItemNames;
    s := AwaitLeads(s0, s1, Escrow(rows));
    assert Works(base, s, o, Resolve(rows));
    s := AwaitLeads(s0, s, Names("", map[]));
    file := s.body.value.pc.json;
  }

  /** Up to the proof for any rows found in escrow: the chain holds the vote of `row`, while every answer of
      the indexer came from the state just before the vote was granted. */
  lemma AboutToProve(s0: System, id: nat, chainId: nat, wallet: string, row: PinnedRow, b: Ballot, rows: seq<PinnedRow>)
    returns (base: System, s: System, hash: Bytes32)
    requires IsInitial(s0) && s0.operator == s0.past[0].cells.finalizeSigner && IsVoteRow(row) && Seals(b, row)
    requires 0 < |rows| <= ESCROW_BATCH
    ensures Leads(s0, s) && Works(base, s, PaidOrder(id, chainId, wallet, row.tournamentId), Prove(rows, hash))
    ensures Offers(base, wallet, row, b) && Lags(base, wallet) && base.submitted == {} && base.operator == s0.operator
    ensures s.orders[id].pinnedRows == rows && s.maxAttempts == s0.maxAttempts && s.past[0] == s0.past[0]
  {
    hide Leads, Works, Offers, SysInv, IsInitial, BodyStep, WitnessRows, IsVoteRow, Seals, OrderLicenseId, Lags;
    var o := PaidOrder(id, chainId, wallet, row.tournamentId);
    var early := BuyerRegistered(s0, wallet);
    var chain := VoteSealed(s0, early, wallet, row, b);
    s := OrderPaid(s0, chain, id, chainId, wallet, row.tournamentId);
    base := s;
    OffersFrame(chain, base, wallet, row, b);
    LagsFrame(early, base, wallet);
    s := BodyStarted(s0, s, id);
    LaggingBuyer(base, wallet);
    s := ToTheBuild(s0, base, s, 1, o);
    s, hash := DatasetPinned(s0, base, s, o, rows);
    WorksKnows(base, s, o, Prove(rows, hash));
  }

  lemma OffersFrame(s: System, s': System, wallet: string, row: PinnedRow, b: Ballot)
    requires Offers(s, wallet, row, b) && s'.past == s.past && s'.operator == s.operator
    ensures Offers(s', wallet, row, b)
  {
  }

  lemma LagsFrame(s: System, s': System, wallet: string)
    requires Lags(s, wallet) && s.past <= s'.past && s'.operator == s.operator
    ensures Lags(s', wallet)
  {
  }

  lemma LaggingBuyer(s: System, wallet: string)
    requires Lags(s, wallet)
    ensures |s.past| >= 2 && BuyerPk(wallet) in s.past[1].cells.buyers
  {
  }

  lemma WorksKnows(base: System, s: System, o: Order, pc: Pc)
    requires Works(base, s, o, pc)
    ensures s.body == Some(Body(o, pc)) && s.past != [] && s.past == base.past && o.orderId in s.orders
    ensures s.operator == base.operator && s.maxAttempts == base.maxAttempts && s.submitted == base.submitted
  {
  }

  lemma WorksHere(s: System, o: Order, pc: Pc)
    requires s.body == Some(Body(o, pc)) && s.past != [] && o.orderId in s.orders
    ensures Works(s, s, o, pc)
  {
  }

  // ---------- A sale that goes well ----------

  lemma SaleSent(s0: System, base: System, s1: System, o: Order, rows: seq<PinnedRow>, hash: Bytes32)
    returns (s: System, sale: SaleOrder)
    requires Leads(s0, s1) && Works(base, s1, o, Prove(rows, hash))
    requires base.past != [] && ProveSale(Now(base).cells, base.operator, o, hash, Some(rows)).Proven?
    ensures sale == ProveSale(Now(base).cells, base.operator, o, hash, Some(rows)).sale
    ensures Leads(s0, s) && s.body == Some(Body(o, Sent(rows, hash))) && s.past == s1.past && s.operator == s1.operator
    ensures s.orders == s1.orders && s.maxAttempts == s1.maxAttempts && SellRows(s.operator, sale) in s.submitted
  {
    hide Leads, ProveSale;
    s := AwaitLeads(s0, s1, Ok);
    assert Works(base, s, o, Proving(rows, hash)) && s.pin == Some(rows);
    sale := ProveSale(Now(base).cells, base.operator, o, hash, Some(rows)).sale;
    s := AwaitLeads(s0, s, Seen(|s.past| - 1));
  }

  /** On a chain fit for it the sale is proved, and accepted. */
  lemma OfferIsProven(s: System, wallet: string, row: PinnedRow, b: Ballot, o: Order, hash: Bytes32)
    requires SysInv(s) && Offers(s, wallet, row, b) && IsVoteRow(row)
    requires o.buyerPk == BuyerPk(wallet) && o.tournamentId == row.tournamentId
    ensures var proof := ProveSale(Now(s).cells, s.operator, o, hash, Some([row]));
      proof.Proven? && SellRowsTo(Now(s).cells, s.operator, proof.sale).Accepted? && SaleKey(proof.sale) == OrderLicenseId(o)
  {
    hide SysInv, Inv, ProveSale, SellRowsTo, CommitOf, RowEncodes;
    ChainIsSound(s);
    NothingLost(Now(s));
    SellableIff(row, Now(s).cells.voteCommits, o.tournamentId);
    SaleAcceptedIff(Now(s), s.operator, Now(s), o, hash, [row]);
    ProofExistsIff(Now(s), s.operator, o, hash, [row]);
  }

  lemma SellableIff(row: PinnedRow, tree: HistoricTree, t: nat)
    ensures Sellable([row], tree, t) <==> row.tournamentId == t && CommitOf(row) in tree.leaves
  {
    assert [row][0] == row;
  }

  lemma SaleLanded(s0: System, s1: System, sale: SaleOrder, wallet: string, row: PinnedRow, b: Ballot)
    returns (s: System)
    requires Leads(s0, s1) && Offers(s1, wallet, row, b) && SellRows(s1.operator, sale) in s1.submitted
    requires SellRowsTo(Now(s1).cells, s1.operator, sale).Accepted?
    ensures Leads(s0, s) && s.body == s1.body && s.past != [] && s.orders == s1.orders && s.operator == s1.operator
    ensures s.maxAttempts == s1.maxAttempts && SaleKey(sale) in Now(s).cells.licenses && s1.past <= s.past
    ensures OneVote(Now(s), b) && Now(s).sales != map[] && SameRulers(s) && BuyerPk(wallet) in Now(s).cells.buyers
  {
    hide Leads, CommitOf, CheckRows, PresentCount, RowsTypeOk, BallotLeaf, PathFor;
    LeadsOn(s0, s1, Land(SellRows(s1.operator, sale)));
    s := Next(s1, Land(SellRows(s1.operator, sale)));
    assert SaleKey(sale) in Now(s).sales;
  }

  /** Up to the landing of a sale of any vote row to any wallet. */
  lemma SaleOnChain(s0: System, id: nat, chainId: nat, wallet: string, row: PinnedRow, b: Ballot)
    returns (s: System, hash: Bytes32)
    requires IsInitial(s0) && s0.operator == s0.past[0].cells.finalizeSigner && IsVoteRow(row) && Seals(b, row)
    ensures var o := PaidOrder(id, chainId, wallet, row.tournamentId);
      && Leads(s0, s) && Works(s, s, o, Sent([row], hash)) && s.past != [] && OrderLicenseId(o) in Now(s).cells.licenses
    ensures id in s.orders && s.orders[id].pinnedRows == [row] && s.maxAttempts == s0.maxAttempts
    ensures OneVote(Now(s), b) && Now(s).sales != map[] && SameRulers(s) && s.past[0] == s0.past[0]
    ensures BuyerPk(wallet) in Now(s).cells.buyers
  {
    hide Leads, Works, Offers, SysInv, IsInitial, BodyStep, WitnessRows, IsVoteRow, Seals;
    hide OrderLicenseId, ProveSale, SellRowsTo, OneVote, SaleKey;
    var o := PaidOrder(id, chainId, wallet, row.tournamentId);
    var base, sale;
    base, s, hash := AboutToProve(s0, id, chainId, wallet, row, b, [row]);
    WorksKnows(base, s, o, Prove([row], hash));
    StartIsSafe(s0);
    LeadsKeepsTerminals(s0, s);
    OffersFrame(base, s, wallet, row, b);
    OfferIsProven(s, wallet, row, b, o, hash);
    s, sale := SaleSent(s0, base, s, o, [row], hash);
    OffersFrame(base, s, wallet, row, b);
    s := SaleLanded(s0, s, sale, wallet, row, b);
    WorksHere(s, o, Sent([row], hash));
  }

  lemma SaleReturned(s0: System, s1: System, o: Order, row: PinnedRow, hash: Bytes32) returns (s: System)
    requires Leads(s0, s1) && Works(s1, s1, o, Sent([row], hash))
    ensures Leads(s0, s) && Works(s1, s, o, NoteSold) && s.orders == s1.orders
  {
    hide Leads, ProvenSale;
    s := AwaitLeads(s0, s1, Ok);
  }

  lemma ReadyToDeliver(s0: System, base: System, s1: System, o: Order) returns (s: System, lic: License)
    requires Leads(s0, s1) && Works(base, s1, o, NoteSold) && base.past != []
    requires OrderLicenseId(o) in Now(base).cells.licenses
    ensures Leads(s0, s) && Works(base, s, o, Deliver(lic, None))
    ensures s.orders[o.orderId].pinnedRows == s1.orders[o.orderId].pinnedRows
  {
    hide Leads;
    lic := Now(s1).cells.licenses[OrderLicenseId(o)];
    s := NotedAndConfirming(s0, base, s1, o);
    s := AwaitLeads(s0, s, Seen(|s.past| - 1));
  }

  lemma NotedAndConfirming(s0: System, base: System, s1: System, o: Order) returns (s: System)
    requires Leads(s0, s1) && Works(base, s1, o, NoteSold)
    ensures Leads(s0, s) && Works(base, s, o, Confirm(0, None))
    ensures s.orders[o.orderId].pinnedRows == s1.orders[o.orderId].pinnedRows
  {
    hide Leads, BodyStep;
    s := Onward(s0, base, s1, o, NoteSold, ToConfirming);
    s := Onward(s0, base, s, o, ToConfirming, Confirm(0, None));
  }

  /** Up to the delivery of any vote row to any wallet. */
  lemma AboutToDeliver(s0: System, id: nat, chainId: nat, wallet: string, row: PinnedRow)
    returns (base: System, s: System, lic: License)
    requires IsInitial(s0) && s0.operator == s0.past[0].cells.finalizeSigner && IsVoteRow(row)
    ensures Leads(s0, s) && Works(base, s, PaidOrder(id, chainId, wallet, row.tournamentId), Deliver(lic, None))
    ensures s.orders[id].pinnedRows == [row] && s.maxAttempts == s0.maxAttempts && s.orders[id].orderId == id
  {
    hide Leads, Works, SysInv, IsInitial, BodyStep, IsVoteRow, OrderLicenseId, OneVote, Seals, SomeBallot;
    var o := PaidOrder(id, chainId, wallet, row.tournamentId);
    var hash;
    base, hash := SaleOnChain(s0, id, chainId, wallet, row, SomeBallot(row));
    s := SaleReturned(s0, base, o, row, hash);
    WorksKnows(base, s, o, NoteSold);
    s, lic := ReadyToDeliver(s0, base, s, o);
    StartIsSafe(s0);
    LeadsKeepsTerminals(s0, s);
    KeysAreIds(s);
    WorksKnows(base, s, o, Deliver(lic, None));
  }

  /** Sales happen: from every start whose operator is the signer, for every wallet and every row a vote can
      have, a run delivers an order that holds exactly this row. */
  lemma OrdersGetFulfilled(s0: System, id: nat, chainId: nat, wallet: string, row: PinnedRow) returns (s: System)
    requires IsInitial(s0) && s0.operator == s0.past[0].cells.finalizeSigner && IsVoteRow(row)
    ensures Leads(s0, s) && id in s.orders && s.orders[id].status == FULFILLED && s.orders[id].pinnedRows == [row]
    ensures s.orders[id].buyerAddress == wallet && s.orders[id].chainId == chainId
  {
    hide Leads, IsVoteRow, IsInitial, BodyStep, Works, SysInv;
    var o := PaidOrder(id, chainId, wallet, row.tournamentId);
    var base, s1, lic := AboutToDeliver(s0, id, chainId, wallet, row);
    StartIsSafe(s0);
    LeadsKeepsTerminals(s0, s1);
    WorksKnows(base, s1, o, Deliver(lic, None));
    BodysOrderIsStored(s1);
    s := DeliveryStored(s0, base, s1, o, lic);
  }

  lemma DeliveryStored(s0: System, base: System, s1: System, o: Order, lic: License) returns (s: System)
    requires Leads(s0, s1) && Works(base, s1, o, Deliver(lic, None))
    ensures Leads(s0, s) && o.orderId in s.orders && s.orders[o.orderId].status == FULFILLED
    ensures s.orders[o.orderId].pinnedRows == s1.orders[o.orderId].pinnedRows
    ensures SameIdentity(s1.orders[o.orderId], s.orders[o.orderId])
  {
    hide Leads, CallStep;
    s := AwaitLeads(s0, s1, Stored);
  }

  lemma BodysOrderIsStored(s: System)
    requires SysInv(s) && s.body.Some?
    ensures s.body.value.order.orderId in s.orders
    ensures SameIdentity(s.body.value.order, s.orders[s.body.value.order.orderId])
  {
    hide DurableInv;
    BodyHasOrder(s.orders, Now(s), s.body.value);
  }

  /** There are such rows, in every tournament. */
  lemma VoteRowsExist(t: nat) returns (row: PinnedRow)
    ensures IsVoteRow(row) && row.tournamentId == t
  {
    row := PinnedRow(t, 7, seq(16, _ => 7), "", seq(64, _ => '0'));
    assert |Utf8(row.segment)| == 0;
    assert Stripped(row.salt) == row.salt && IsStrictHex(row.salt);
  }

  // ---------- Sales refused for good ----------

  /** The run of the circuit refuses a row, and the order ends at this attempt with nothing submitted. */
  lemma RefusedAtProof(s0: System, base: System, s1: System, view: nat, o: Order, rows: seq<PinnedRow>, hash: Bytes32)
    returns (s: System)
    requires Leads(s0, s1) && Works(base, s1, o, Prove(rows, hash)) && view < |base.past|
    requires ProveSale(base.past[view].cells, base.operator, o, hash, Some(rows)) == Refused(RowNotOnChain)
    ensures Leads(s0, s) && s.past == base.past && s.submitted == base.submitted && s.body.None?
    ensures o.orderId in s.orders && s.orders[o.orderId] == s1.orders[o.orderId].(status := FAILED)
  {
    hide Leads, ProveSale;
    s := AwaitLeads(s0, s1, Ok);
    assert Works(base, s, o, Proving(rows, hash)) && s.pin == Some(rows);
    s := AwaitLeads(s0, s, Seen(view));
    assert Works(base, s, o, Failing(Err(false, true)));
    s := GivenUp(s0, base, s, o);
  }

  lemma GivenUp(s0: System, base: System, s1: System, o: Order) returns (s: System)
    requires Leads(s0, s1) && Works(base, s1, o, Failing(Err(false, true)))
    ensures Leads(s0, s) && s.past == base.past && s.submitted == base.submitted && s.body.None?
    ensures o.orderId in s.orders && s.orders[o.orderId] == s1.orders[o.orderId].(status := FAILED)
  {
    hide Leads;
    s := AwaitLeads(s0, s1, Ok);
    assert s.body == Some(Body(o, GiveUp));
    hide CallStep;
    s := AwaitLeads(s0, s, Stored);
  }

  /** From every start: the indexer answers every question from one past state of the chain, which knows the
      buyer but not yet the vote.  The circuit, run on that state, refuses a row that is on the chain, and
      the order ends at its first attempt, with nothing ever submitted; proved on the chain as it is, the
      same row passes. */
  lemma LaggingViewFailsTheOrder(s0: System, id: nat, chainId: nat, wallet: string, row: PinnedRow)
    returns (s: System, hash: Bytes32)
    requires IsInitial(s0) && s0.operator == s0.past[0].cells.finalizeSigner && IsVoteRow(row)
    ensures Leads(s0, s) && s.past != [] && s.submitted == {} && id in s.orders && s.orders[id].status == FAILED
    ensures s.orders[id].pinnedRows == [row] && CommitOf(row) in Now(s).cells.voteCommits.leaves
    ensures ProveSale(Now(s).cells, s0.operator, PaidOrder(id, chainId, wallet, row.tournamentId), hash, Some([row])).Proven?
  {
    hide Leads, Works, Offers, SysInv, Inv, IsInitial, BodyStep, IsVoteRow, Seals, SomeBallot, Lags;
    hide OrderLicenseId, CommitOf, ProveSale, SellRowsTo;
    var o, base := PaidOrder(id, chainId, wallet, row.tournamentId), s0;
    base, s, hash := AboutToProve(s0, id, chainId, wallet, row, SomeBallot(row), [row]);
    WorksKnows(base, s, o, Prove([row], hash));
    StartIsSafe(s0);
    LeadsKeepsTerminals(s0, s);
    LaggingBuyer(base, wallet);
    LagRefuses(base, s, wallet, row, SomeBallot(row), o, hash);
    s := RefusedAtProof(s0, base, s, 1, o, [row], hash);
  }

  lemma LagRefuses(base: System, s: System, wallet: string, row: PinnedRow, b: Ballot, o: Order, hash: Bytes32)
    requires SysInv(s) && s.past == base.past && s.operator == base.operator && IsVoteRow(row)
    requires Offers(base, wallet, row, b) && Lags(base, wallet)
    requires o.buyerPk == BuyerPk(wallet) && o.tournamentId == row.tournamentId
    ensures ProveSale(base.past[1].cells, base.operator, o, hash, Some([row])) == Refused(RowNotOnChain)
    ensures ProveSale(Now(base).cells, base.operator, o, hash, Some([row])).Proven?
    ensures CommitOf(row) in Now(base).cells.voteCommits.leaves
  {
    hide SysInv, Inv, Grew, CommitOf, ProveSale, OrderLicenseId, RowEncodes;
    PastIsSound(s, 1);
    ChainIsSound(s);
    SellableIff(row, Now(s).cells.voteCommits, o.tournamentId);
    SellableIff(row, s.past[1].cells.voteCommits, o.tournamentId);
    LaggingViewIsRefused(Now(s), s.operator, s.past[1], o, hash, [row]);
  }

  /** From every start: one row in escrow that encodes but opens no vote ends the order at its first attempt,
      however fresh the indexer is and however good the other rows are. */
  lemma JunkRowFailsTheOrder(s0: System, id: nat, chainId: nat, wallet: string, row: PinnedRow, rows: seq<PinnedRow>)
    returns (s: System)
    requires IsInitial(s0) && s0.operator == s0.past[0].cells.finalizeSigner && IsVoteRow(row)
    requires 0 < |rows| <= ESCROW_BATCH && RowsEncode(rows) && forall r <- rows :: r.tournamentId == row.tournamentId
    requires exists r <- rows :: CommitOf(r) != CommitOf(row)
    ensures Leads(s0, s) && s.past != [] && s.submitted == {} && id in s.orders && s.orders[id].status == FAILED
    ensures s.orders[id].pinnedRows == rows && CommitOf(row) in Now(s).cells.voteCommits.leaves
  {
    hide Leads, Works, Offers, SysInv, Inv, IsInitial, BodyStep, IsVoteRow, Seals, SomeBallot, Lags;
    hide OrderLicenseId, CommitOf, ProveSale, RowsEncode;
    var o, base, hash := PaidOrder(id, chainId, wallet, row.tournamentId), s0, ZERO;
    base, s, hash := AboutToProve(s0, id, chainId, wallet, row, SomeBallot(row), rows);
    WorksKnows(base, s, o, Prove(rows, hash));
    StartIsSafe(s0);
    LeadsKeepsTerminals(s0, s);
    JunkIsRefused(base, s, wallet, row, SomeBallot(row), o, hash, rows);
    s := RefusedAtProof(s0, base, s, |base.past| - 1, o, rows, hash);
  }

  lemma JunkIsRefused(base: System, s: System, wallet: string, row: PinnedRow, b: Ballot, o: Order, hash: Bytes32,
      rows: seq<PinnedRow>)
    requires SysInv(s) && s.past == base.past && s.operator == base.operator && Offers(base, wallet, row, b)
    requires o.buyerPk == BuyerPk(wallet) && o.tournamentId == row.tournamentId
    requires 0 < |rows| <= ESCROW_BATCH && RowsEncode(rows) && forall r <- rows :: r.tournamentId == row.tournamentId
    requires exists r <- rows :: CommitOf(r) != CommitOf(row)
    ensures base.past != [] && ProveSale(Now(base).cells, base.operator, o, hash, Some(rows)) == Refused(RowNotOnChain)
    ensures CommitOf(row) in Now(base).cells.voteCommits.leaves
  {
    hide SysInv, Inv, CommitOf, ProveSale, OrderLicenseId, RowsEncode, Misses;
    ChainIsSound(s);
    var r :| r in rows && CommitOf(r) != CommitOf(row);
    var i: nat :| i < |rows| && rows[i] == r;
    assert !Sellable(rows, Now(s).cells.voteCommits, o.tournamentId);
    MissedIsUnsellable(rows, Now(s).cells.voteCommits, o.tournamentId);
    ProofExistsIff(Now(s), s.operator, o, hash, rows);
  }

  // ---------- Ended orders reopened ----------

  /** Up to the report that there is nothing to sell. */
  lemma AboutToReportEmpty(s0: System, id: nat, chainId: nat, wallet: string, t: nat) returns (base: System, s: System)
    requires IsInitial(s0)
    ensures Leads(s0, s) && Works(base, s, PaidOrder(id, chainId, wallet, t), ReportEmpty) && id in s.payReads
    ensures s.maxAttempts == s0.maxAttempts
  {
    hide Leads, IsInitial, BodyStep, Step, Lags;
    var o := PaidOrder(id, chainId, wallet, t);
    base := BuyerRegistered(s0, wallet);
    s := OrderPaid(s0, base, id, chainId, wallet, t);
    base := s;
    s := BodyStarted(s0, s, id);
    s := ToTheBuild(s0, base, s, |base.past| - 1, o);
    s := NothingFound(s0, base, s, o);
  }

  lemma NothingFound(s0: System, base: System, s1: System, o: Order) returns (s: System)
    requires Leads(s0, s1) && Works(base, s1, o, Build) && !IsPinned(o)
    ensures Leads(s0, s) && Works(base, s, o, ReportEmpty) && s.payReads == s1.payReads
  {
    hide Leads;
    s := AwaitLeads(s0, s1, Escrow([]));
  }

  /** A pay request that read its order unpaid and writes late reopens it after it failed for want of rows. */
  lemma StalePayReopens(s0: System, id: nat, chainId: nat, wallet: string, t: nat) returns (s: System)
    requires IsInitial(s0)
    ensures Leads(s0, s) && Enabled(s, PayWrite(id)) && !Clean(s, PayWrite(id))
    ensures s.orders[id].status == FAILED && Next(s, PayWrite(id)).orders[id].status == PAID
  {
    hide Leads, IsInitial, BodyStep, Step;
    var base;
    base, s := AboutToReportEmpty(s0, id, chainId, wallet, t);
    s := EmptyReported(s0, base, s, PaidOrder(id, chainId, wallet, t));
  }

  lemma EmptyReported(s0: System, base: System, s1: System, o: Order) returns (s: System)
    requires Leads(s0, s1) && Works(base, s1, o, ReportEmpty)
    ensures Leads(s0, s) && s.past != [] && s.payReads == s1.payReads
    ensures o.orderId in s.orders && s.orders[o.orderId].status == FAILED
  {
    hide Leads, CallStep;
    s := AwaitLeads(s0, s1, Stored);
  }

  /** The handler of an error that is neither final nor a sign of success queues the order again. */
  lemma RetriesAgain(s: System, id: nat) returns (t: System)
    requires s.past != [] && s.body.Some? && s.body.value.pc == Failing(Err(false, false))
    requires s.body.value.order.orderId == id
    requires id in s.orders && s.body.value.order.attempts + 1 < s.maxAttempts
    ensures Leads(s, t) && id in t.orders && t.orders[id].status == PAID
  {
    hide Leads;
    LeadsHere(s);
    t := AwaitLeads(s, s, Ok);
    assert t.body == Some(s.body.value.(pc := CountAttempt)) && t.orders == s.orders && t.maxAttempts == s.maxAttempts;
    hide CallStep;
    t := AwaitLeads(s, t, Stored);
    t := GoesBack(s, t, id);
  }

  lemma GoesBack(s: System, t0: System, id: nat) returns (t: System)
    requires Leads(s, t0) && t0.past != [] && t0.body.Some?
    requires t0.body.value.pc.NoteError? && t0.body.value.order.orderId == id
    requires id in t0.orders && t0.body.value.order.attempts + 1 < t0.maxAttempts
    ensures Leads(s, t) && id in t.orders && t.orders[id].status == PAID
  {
    hide Leads, CallStep;
    t := AwaitLeads(s, t0, Stored);
    t := AwaitLeads(s, t, Stored);
  }

  /** The acknowledgement of an ending write is lost, and the ended order is queued again. */
  lemma LostEndReopens(s: System, id: nat) returns (reopened: System)
    requires s.past != [] && s.body.Some? && s.body.value.order.orderId == id
    requires id in s.orders && s.body.value.order.attempts + 1 < s.maxAttempts
    requires s.body.value.pc.ReportEmpty? || (s.body.value.pc.Deliver? && s.body.value.pc.rescue.None?)
    ensures var a := Await(StoredButLost(Err(false, false))); var ended := Next(s, a);
      && Enabled(s, a) && !Clean(s, a)
      && id in ended.orders && ended.orders[id].status == (if s.body.value.pc.Deliver? then FULFILLED else FAILED)
      && Leads(ended, reopened) && id in reopened.orders && reopened.orders[id].status == PAID
  {
    hide Leads, CallStep;
    reopened := RetriesAgain(Next(s, Await(StoredButLost(Err(false, false)))), id);
  }

  /** A lost acknowledgement of the report of nothing to sell is reached from every start. */
  lemma LostReportReopens(s0: System, id: nat, chainId: nat, wallet: string, t: nat)
    returns (s: System, reopened: System)
    requires IsInitial(s0) && s0.maxAttempts > 1
    ensures Leads(s0, s) && Enabled(s, Await(StoredButLost(Err(false, false))))
    ensures var failed := Next(s, Await(StoredButLost(Err(false, false))));
      && id in failed.orders && failed.orders[id].status == FAILED
      && Leads(failed, reopened) && id in reopened.orders && reopened.orders[id].status == PAID
  {
    hide Leads, IsInitial, BodyStep, Step, Next, Clean;
    var base;
    base, s := AboutToReportEmpty(s0, id, chainId, wallet, t);
    reopened := LostEndReopens(s, id);
  }

  /** So is a lost acknowledgement of a delivery: a fulfilled order goes back to paid. */
  lemma LostDeliveryReopens(s0: System, id: nat, chainId: nat, wallet: string, row: PinnedRow)
    returns (s: System, reopened: System)
    requires IsInitial(s0) && s0.operator == s0.past[0].cells.finalizeSigner && s0.maxAttempts > 1 && IsVoteRow(row)
    ensures Leads(s0, s) && Enabled(s, Await(StoredButLost(Err(false, false))))
    ensures var fulfilled := Next(s, Await(StoredButLost(Err(false, false))));
      && id in fulfilled.orders && fulfilled.orders[id].status == FULFILLED
      && Leads(fulfilled, reopened) && id in reopened.orders && reopened.orders[id].status == PAID
  {
    hide Leads, IsInitial, BodyStep, Step, Next, Clean, IsVoteRow, Works;
    var base, lic;
    base, s, lic := AboutToDeliver(s0, id, chainId, wallet, row);
    WorksKnows(base, s, PaidOrder(id, chainId, wallet, row.tournamentId), Deliver(lic, None));
    reopened := LostEndReopens(s, id);
  }
}
