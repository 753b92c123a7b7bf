/** The promises of the data market, over every run of chain, backend and environment together. */
module FulfilmentTheorems {
  import opened Options
  import opened HexCodec
  import opened Texts
  import opened Digests
  import opened Ledger
  import opened LedgerInvariants
  import opened LedgerTheorems
  import opened Orders
  import opened Fulfilment
  import opened FulfilmentInvariants

  // ---------- End to end ----------

  /** The 32 bytes a text stands for. */
  predicate Reads(bytes: Option<seq<Byte>>, value: Bytes32) {
    bytes.Some? && value == Raw(BytesValue(bytes.value))
  }

  /** The vote a row opens: same tournament, bracket, segment and salt, and the row's item is the winner. */
  predicate Opens(r: PinnedRow, b: Ballot) {
    && b.tournamentId == r.tournamentId && b.bracket == r.bracket != [] && r.itemId == r.bracket[0]
    && Reads(Padded(r.segment), b.segment) && Reads(Bytes32Of(r.salt), b.salt)
  }

  /** A pinned row opens a vote accepted before the sale, in the order's tournament. */
  ghost predicate RowWasVoted(r: PinnedRow, votes: seq<Vote>, before: nat, tournamentId: nat)
    requires before <= |votes|
  {
    r.tournamentId == tournamentId && exists i :: 0 <= i < before && Opens(r, votes[i].ballot)
  }

  /** The commitment anybody can compute from a row of the file. */
  predicate IsCommitOf(r: PinnedRow, leaf: Bytes32) {
    && leaf.RowCommit? && leaf.row.tournamentId == r.tournamentId && leaf.row.itemId == r.itemId
    && leaf.row.bracketHash == HashBracket(r.bracket)
    && Reads(Padded(r.segment), leaf.row.segment) && Reads(Bytes32Of(r.salt), leaf.salt)
  }

  /** A license's digest hashes eight leaves: the rows' commitments in the order of the file, then zeros. */
  predicate DigestOf(rows: seq<PinnedRow>, digest: Bytes32) {
    && digest.HashVector? && |digest.parts| == 8 && |rows| <= 8
    && (forall i :: 0 <= i < |rows| ==> IsCommitOf(rows[i], digest.parts[i]))
    && (forall i :: |rows| <= i < 8 ==> digest.parts[i] == ZERO)
  }

  /** What a buyer of a fulfilled order holds. */
  ghost predicate Delivered(o: Order, ch: Chain) {
    var id := OrderLicenseId(o);
    && o.licenseId == Some(id) && id in ch.cells.licenses && id in ch.sales
    && ch.sales[id].votesBefore <= |ch.votes|
    && IsPinned(o) && RowsOfFile(o.datasetJson.value) == o.pinnedRows
    && ch.cells.licenses[id].datasetHash == Sha256File(o.datasetJson.value)
    && ch.cells.licenses[id].buyerPk == o.buyerPk
    && ch.cells.licenses[id].tournamentId == o.tournamentId
    && o.deliveredRowCount == Some(|o.pinnedRows|)
    && ch.cells.licenses[id].rowCount == |o.pinnedRows|
    && DigestOf(o.pinnedRows, ch.cells.licenses[id].commitDigest)
    && o.sampleAtSale == Some(ch.cells.licenses[id].sampleAtSale)
    && forall r <- o.pinnedRows :: RowWasVoted(r, ch.votes, ch.sales[id].votesBefore, o.tournamentId)
  }

  /** In every reachable state, through crashes, lost replies, retries and late transactions: the file a
      fulfilled order serves hashes to the license on the chain, the license counts the file's rows, and
      each row opens a vote the chain had accepted before the sale. */
  lemma EndToEndSale(states: seq<System>, actions: seq<Action>, n: nat, id: nat)
    requires IsRun(states, actions) && n <= |actions|
    requires id in states[n].orders && states[n].orders[id].status == FULFILLED
    ensures states[n].past != [] && Delivered(states[n].orders[id], Now(states[n]))
  {
    hide IsInitial, Next, Enabled, SysInv, Delivered;
    SystemRunKeepsInv(states, actions, n);
    SoldAsDelivered(states[n], id);
  }

  lemma SoldAsDelivered(s: System, id: nat)
    requires SysInv(s) && id in s.orders && s.orders[id].status == FULFILLED
    ensures s.past != [] && Delivered(s.orders[id], Now(s))
  {
    hide Inv, Grew, AllSubmittedOk, SalesAreOurs, PinsOk, BodyOk, SaleOk, RowsOfFile, Delivered, Presents;
    var o, ch := s.orders[id], Now(s);
    StoredOrderOk(s.orders, ch, id);
    var lid := OrderLicenseId(o);
    SaleRecorded(ch, lid);
    var sale := ch.sales[lid].order;
    SaleWasSubmitted(s.orders, ch, s.submitted, lid);
    assert SaleMatches(o, sale);
    MatchedSaleDelivers(o, id, ch, ch.sales[lid]);
  }

  lemma SaleRecorded(ch: Chain, lid: Bytes32)
    requires Inv(ch) && lid in ch.cells.licenses
    ensures lid in ch.sales && SaleOk(ch.cells, ch.votes, lid, ch.sales[lid]) && lid == SaleKey(ch.sales[lid].order)
  {
    hide TreesOk, VotesOk;
  }

  lemma SaleWasSubmitted(orders: map<nat, Order>, ch: Chain, submitted: set<Call>, lid: Bytes32)
    requires lid in ch.sales && SalesAreOurs(ch, submitted) && AllSubmittedOk(orders, submitted)
    ensures exists caller :: SubmittedOk(orders, SellRows(caller, ch.sales[lid].order))
  {
    var caller :| SellRows(caller, ch.sales[lid].order) in submitted;
    assert SubmittedOk(orders, SellRows(caller, ch.sales[lid].order));
  }

  lemma MatchedSaleDelivers(o: Order, id: nat, ch: Chain, sale: Sale)
    requires o.status == FULFILLED && OrderOk(o, id, ch) && SaleMatches(o, sale.order)
    requires OrderLicenseId(o) in ch.sales && sale == ch.sales[OrderLicenseId(o)]
    requires SaleOk(ch.cells, ch.votes, OrderLicenseId(o), sale)
    ensures Delivered(o, ch)
  {
    hide RowWasVoted, Presents, OpensVote, RowLeaves, RowsOfFile, VotesFor, DigestOf, RowsEncode;
    PresentsCount(sale.order.rows, o.pinnedRows, ROW_SLOTS);
    DigestOfPins(ch, sale, o.pinnedRows);
    PresentedRowsWereVoted(ch, sale, o.pinnedRows);
  }

  lemma PresentedRowsWereVoted(ch: Chain, sale: Sale, pins: seq<PinnedRow>)
    requires SaleOk(ch.cells, ch.votes, SaleKey(sale.order), sale) && Presents(sale.order.rows, pins) && RowsEncode(pins)
    ensures forall r <- pins :: RowWasVoted(r, ch.votes, sale.votesBefore, sale.order.tournamentId)
  {
    hide RowWasVoted, Presents, RowLeaves, RowEncodes;
    forall r | r in pins ensures RowWasVoted(r, ch.votes, sale.votesBefore, sale.order.tournamentId) {
      var k: nat :| k < |pins| && pins[k] == r;
      PresentedRowWasVoted(ch, sale, pins, k);
    }
  }

  lemma PresentedRowWasVoted(ch: Chain, sale: Sale, pins: seq<PinnedRow>, k: nat)
    requires SaleOk(ch.cells, ch.votes, SaleKey(sale.order), sale) && Presents(sale.order.rows, pins)
    requires k < |pins| && RowEncodes(pins[k])
    ensures RowWasVoted(pins[k], ch.votes, sale.votesBefore, sale.order.tournamentId)
  {
    hide Padded, Bytes32Of, RowLeaves;
    var row := sale.order.rows[k];
    assert row in sale.order.rows;
    var i :| 0 <= i < sale.votesBefore && ch.votes[i].ballot.bracket != []
             && VoteRowOf(ch.votes[i]) == row.row && ch.votes[i].ballot.salt == row.salt;
    assert Opens(pins[k], ch.votes[i].ballot);
  }

  lemma DigestOfPins(ch: Chain, sale: Sale, pins: seq<PinnedRow>)
    requires SaleOk(ch.cells, ch.votes, SaleKey(sale.order), sale) && Presents(sale.order.rows, pins) && RowsEncode(pins)
    ensures DigestOf(pins, ch.cells.licenses[SaleKey(sale.order)].commitDigest)
  {
    hide Padded, Bytes32Of, OpensVote, VotesFor, PresentCount;
    forall i | 0 <= i < |pins| ensures IsCommitOf(pins[i], sale.order.rows[i].path.leaf) {
      assert pins[i] in pins && sale.order.rows[i] in sale.order.rows;
    }
  }

  // ---------- The write-once pin ----------

  lemma CallsWriteNothing(s: System, reply: Reply)
    requires s.body.Some?
    ensures CallStep(s, reply).orders == s.orders
  {
    hide ProvenSale, LicenseSeen, BuyerSeen, Caught, CanonicalDataset, ResolveItemNames, IsPinned, Batch;
  }

  lemma CallsKeepConfig(s: System, reply: Reply)
    requires s.body.Some?
    ensures CallStep(s, reply).maxAttempts == s.maxAttempts
    ensures CallStep(s, reply).past == s.past && CallStep(s, reply).queue == s.queue
  {
    hide ProvenSale, LicenseSeen, BuyerSeen, Caught, CanonicalDataset, ResolveItemNames, IsPinned, Batch;
  }

  lemma WritesAtMostThePatch(s: System, p: Patch, reply: Reply)
    requires s.body.Some?
    ensures WriteStep(s, p, reply).orders == Store(s, p).orders || WriteStep(s, p, reply).orders == s.orders
  {
    hide Store, AfterWrite, Caught;
  }

  lemma KeptAsTheyAre(orders: map<nat, Order>)
    ensures OrdersKept(orders, orders)
  {
  }

  lemma BodyStepKeepsOrders(s: System, reply: Reply)
    requires SysInv(s) && s.body.Some?
    ensures OrdersKept(s.orders, BodyStep(s, reply).orders)
  {
    hide SysInv, CallStep, WriteAt, WriteStep, Store, OrdersKept;
    KeptAsTheyAre(s.orders);
    if WriteAt(s.body.value.pc).Some? {
      StoreKeepsDurable(s);
      WritesAtMostThePatch(s, WriteAt(s.body.value.pc).value, reply);
    } else {
      CallsWriteNothing(s, reply);
    }
  }

  lemma NextKeepsOrders(s: System, a: Action)
    requires SysInv(s) && Enabled(s, a)
    ensures OrdersKept(s.orders, Next(s, a).orders)
  {
    hide SysInv, BodyStep, Step;
    if a.Await? {
      BodyStepKeepsOrders(s, a.reply);
    }
  }

  /** Orders are never lost, and once an order's file, hash and rows are stored they never change. */
  lemma {:induction false} PinsAreWriteOnce(states: seq<System>, actions: seq<Action>, m: nat, n: nat, id: nat)
    requires IsRun(states, actions) && m <= n <= |actions| && id in states[m].orders
    ensures id in states[n].orders && SameIdentity(states[m].orders[id], states[n].orders[id])
    ensures IsPinned(states[m].orders[id]) ==> SamePins(states[m].orders[id], states[n].orders[id])
    decreases n - m
  {
    hide SysInv, Next, Enabled, IsInitial;
    if m < n {
      SystemRunKeepsInv(states, actions, m);
      NextKeepsOrders(states[m], actions[m]);
      PinsAreWriteOnce(states, actions, m + 1, n, id);
    }
  }

  /** A row that opens no vote is never sold: whatever is in escrow beside it, an order that has pinned it is
      not fulfilled as long as nobody casts that very vote. */
  lemma JunkRowIsNeverSold(states: seq<System>, actions: seq<Action>, m: nat, n: nat, id: nat, r: PinnedRow)
    requires IsRun(states, actions) && m <= n <= |actions| && id in states[m].orders && IsPinned(states[m].orders[id])
    requires r in states[m].orders[id].pinnedRows && states[n].past != []
    requires !RowWasVoted(r, Now(states[n]).votes, |Now(states[n]).votes|, states[m].orders[id].tournamentId)
    ensures id in states[n].orders && states[n].orders[id].status != FULFILLED
  {
    hide IsInitial, Next, Enabled, SysInv;
    PinsAreWriteOnce(states, actions, m, n, id);
    if states[n].orders[id].status == FULFILLED {
      EndToEndSale(states, actions, n, id);
    }
  }

  /** Every sale ever submitted, in whatever attempt, is some order's and carries exactly that order's
      stored hash and rows, now and for good. */
  lemma SubmittedSalesCarryThePins(states: seq<System>, actions: seq<Action>, n: nat, call: Call)
    requires IsRun(states, actions) && n <= |actions| && call in states[n].submitted && call.SellRows?
    ensures call.sale.specHash.Sha256Spec? && call.sale.specHash.specOrder in states[n].orders
    ensures SaleMatches(states[n].orders[call.sale.specHash.specOrder], call.sale)
  {
    hide IsInitial, Next, Enabled, ChainOk, OrdersOk, SalesAreOurs, BodyOk, SaleMatches;
    SystemRunKeepsInv(states, actions, n);
    assert SubmittedOk(states[n].orders, call);
  }

  /** The witness's in-memory rows are set only while the running body's proof call is open, and are then
      that order's stored rows. */
  lemma MemoryPinIsTheOrders(states: seq<System>, actions: seq<Action>, n: nat)
    requires IsRun(states, actions) && n <= |actions| && states[n].pin.Some?
    ensures states[n].body.Some? && (states[n].body.value.pc.Proving? || states[n].body.value.pc.Sent?)
    ensures var id := states[n].body.value.order.orderId;
      id in states[n].orders && states[n].pin == Some(states[n].orders[id].pinnedRows) && IsPinned(states[n].orders[id])
  {
    hide IsInitial, Next, Enabled, DurableInv;
    SystemRunKeepsInv(states, actions, n);
  }

  /** A download: the stored bytes of a fulfilled order, for its own buyer on its own chain. */
  function GetDatasetJson(s: System, chainId: nat, wallet: string, id: nat): Option<Dataset> {
    if id !in s.orders || s.orders[id].chainId != chainId then None        // not found
    else if s.orders[id].buyerAddress != wallet then None                  // not your order
    else if s.orders[id].status != FULFILLED then None                     // not fulfilled yet
    else s.orders[id].datasetJson
  }

  /** A download succeeds exactly for the buyer of a fulfilled order, and the file it serves hashes to the
      license the chain holds for that buyer, row for row: its digest can be computed from the file. */
  lemma DownloadMatchesLicense(states: seq<System>, actions: seq<Action>, n: nat, chainId: nat, wallet: string, id: nat)
    requires IsRun(states, actions) && n <= |actions|
    ensures var s := states[n];
      && (GetDatasetJson(s, chainId, wallet, id).Some? <==>
            id in s.orders && s.orders[id].chainId == chainId && s.orders[id].buyerAddress == wallet && s.orders[id].status == FULFILLED)
      && (GetDatasetJson(s, chainId, wallet, id).Some? ==>
            var file, lid := GetDatasetJson(s, chainId, wallet, id).value, OrderLicenseId(s.orders[id]);
            && s.past != [] && lid in Now(s).cells.licenses
            && Now(s).cells.licenses[lid].buyerPk == BuyerPk(wallet)
            && Now(s).cells.licenses[lid].datasetHash == Sha256File(file)
            && Now(s).cells.licenses[lid].rowCount == |file.rows|
            && DigestOf(RowsOfFile(file), Now(s).cells.licenses[lid].commitDigest))
  {
    hide IsInitial, Next, Enabled, SysInv, RowWasVoted, BuyerPk, DigestOf;
    if id in states[n].orders && states[n].orders[id].status == FULFILLED {
      EndToEndSale(states, actions, n, id);
      OrderBuyers(states, actions, n, id);
    }
  }

  lemma OrderBuyers(states: seq<System>, actions: seq<Action>, n: nat, id: nat)
    requires IsRun(states, actions) && n <= |actions| && id in states[n].orders
    ensures states[n].orders[id].buyerPk == BuyerPk(states[n].orders[id].buyerAddress)
  {
    hide IsInitial, Next, Enabled, ChainOk, AllSubmittedOk, SalesAreOurs, BodyOk, PinsOk, DeliveryOk;
    SystemRunKeepsInv(states, actions, n);
  }

  /** However long ago, an order's downloads serve the same file. */
  lemma DownloadsNeverChange(states: seq<System>, actions: seq<Action>, m: nat, n: nat, chainId: nat,
      wallet: string, id: nat)
    requires IsRun(states, actions) && m <= n <= |actions|
    requires GetDatasetJson(states[m], chainId, wallet, id).Some?
    requires GetDatasetJson(states[n], chainId, wallet, id).Some?
    ensures GetDatasetJson(states[n], chainId, wallet, id) == GetDatasetJson(states[m], chainId, wallet, id)
  {
    hide IsInitial, Next, Enabled, SysInv, IsPath;
    PinsAreWriteOnce(states, actions, m, n, id);
    FulfilledIsPinned(states, actions, m, id);
  }

  lemma FulfilledIsPinned(states: seq<System>, actions: seq<Action>, n: nat, id: nat)
    requires IsRun(states, actions) && n <= |actions| && id in states[n].orders
    requires states[n].orders[id].status == FULFILLED
    ensures IsPinned(states[n].orders[id])
  {
    hide IsInitial, Next, Enabled, SysInv, IsPath, RowWasVoted;
    EndToEndSale(states, actions, n, id);
  }
}
