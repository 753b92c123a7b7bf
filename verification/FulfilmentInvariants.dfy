/** What every run of the fulfilment protocol keeps, whatever the environment does. */
module FulfilmentInvariants {
  import opened Options
  import opened Digests
  import opened Ledger
  import opened LedgerInvariants
  import opened LedgerTheorems
  import opened Orders
  import opened Fulfilment

  // ---------- The invariant ----------

  ghost predicate ChainOk(past: seq<Chain>)
    requires past != []
  {
    && (forall k :: 0 <= k < |past| ==> Inv(past[k]))
    && (forall k :: 0 <= k < |past| ==> Grew(past[k], past[|past| - 1]))
  }

  /** Either nothing is pinned, or file, hash and rows are, and they agree. */
  ghost predicate PinsOk(o: Order) {
    if IsPinned(o) then
      && o.datasetHash.value == Sha256File(o.datasetJson.value)
      && FileFits(o.datasetJson.value, o.pinnedRows, o)
    else o.datasetJson == None && o.datasetHash == None && o.pinnedRows == []
  }

  /** The file is this order's and carries exactly these rows. */
  ghost predicate FileFits(json: Dataset, rows: seq<PinnedRow>, o: Order) {
    && RowsOfFile(json) == rows && rows != [] && |rows| <= ESCROW_BATCH
    && json.orderId == o.orderId && json.tournamentId == o.tournamentId
  }

  /** A fulfilled order names its license on the chain and repeats what the license says. */
  ghost predicate DeliveryOk(o: Order, ch: Chain) {
    o.status == FULFILLED ==>
      && o.licenseId == Some(OrderLicenseId(o))
      && OrderLicenseId(o) in ch.cells.licenses
      && o.deliveredRowCount == Some(ch.cells.licenses[OrderLicenseId(o)].rowCount)
      && o.sampleAtSale == Some(ch.cells.licenses[OrderLicenseId(o)].sampleAtSale)
  }

  ghost predicate OrderOk(o: Order, id: nat, ch: Chain) {
    && o.orderId == id && o.specHash == Sha256Spec(o.tournamentId, id) && o.buyerPk == BuyerPk(o.buyerAddress)
    && PinsOk(o) && DeliveryOk(o, ch)
  }

  ghost predicate OrdersOk(orders: map<nat, Order>, ch: Chain) {
    forall id <- orders :: OrderOk(orders[id], id, ch)
  }

  /** A sale submitted for an order carries the order's hash and presents the order's pinned rows. */
  ghost predicate SaleMatches(o: Order, sale: SaleOrder) {
    && sale.buyerPk == o.buyerPk && sale.tournamentId == o.tournamentId && sale.specHash == o.specHash
    && IsPinned(o) && sale.datasetHash == o.datasetHash.value
    && Presents(sale.rows, o.pinnedRows) && RowsEncode(o.pinnedRows)
  }

  ghost predicate SubmittedOk(orders: map<nat, Order>, call: Call) {
    call.SellRows? ==>
      call.sale.specHash.Sha256Spec? && call.sale.specHash.specOrder in orders
      && SaleMatches(orders[call.sale.specHash.specOrder], call.sale)
  }

  ghost predicate AllSubmittedOk(orders: map<nat, Order>, submitted: set<Call>) {
    forall call <- submitted :: SubmittedOk(orders, call)
  }

  /** Every sale on the chain was submitted by the backend. */
  ghost predicate SalesAreOurs(ch: Chain, submitted: set<Call>) {
    forall id <- ch.sales :: exists caller :: SellRows(caller, ch.sales[id].order) in submitted
  }

  /** The body's snapshot still describes the stored order; before the pins are written it also knows
      the order's pins, and afterwards the body works with exactly the stored ones. */
  ghost predicate BodyOk(orders: map<nat, Order>, ch: Chain, b: Body) {
    var id := b.order.orderId;
    && id in orders && SameIdentity(b.order, orders[id])
    && match b.pc
       case Claim | ToRegistering | CheckBuyer | Register | NoteRegistered | AwaitBuyer(_) | ToBuilding | Build =>
         SamePins(b.order, orders[id])
       case ReportEmpty => !IsPinned(orders[id])
       case Resolve(found) => !IsPinned(orders[id]) && found != [] && |found| <= ESCROW_BATCH
       case Pin(json, chosen) => !IsPinned(orders[id]) && FileFits(json, chosen, b.order)
       case ToProving(rows, hash) => HoldsPins(orders[id], rows, hash)
       case Prove(rows, hash) => HoldsPins(orders[id], rows, hash)
       case Proving(rows, hash) => HoldsPins(orders[id], rows, hash)
       case Sent(rows, hash) => HoldsPins(orders[id], rows, hash)
       case Deliver(license, _) =>
         OrderLicenseId(b.order) in ch.cells.licenses && ch.cells.licenses[OrderLicenseId(b.order)] == license
       case _ => true
  }

  ghost predicate HoldsPins(o: Order, rows: seq<PinnedRow>, hash: Bytes32) {
    IsPinned(o) && o.pinnedRows == rows && o.datasetHash == Some(hash)
  }

  /** The in-memory pin is set exactly while a proof call is open, and then holds that order's rows. */
  function PinOf(body: Option<Body>): Option<seq<PinnedRow>> {
    match body
    case Some(Body(_, Proving(rows, _))) => Some(rows)
    case Some(Body(_, Sent(rows, _))) => Some(rows)
    case _ => None
  }

  /** The part of the invariant that survives a crash. */
  ghost predicate DurableInv(orders: map<nat, Order>, past: seq<Chain>, submitted: set<Call>) {
    && past != [] && ChainOk(past) && OrdersOk(orders, past[|past| - 1])
    && AllSubmittedOk(orders, submitted) && SalesAreOurs(past[|past| - 1], submitted)
  }

  ghost predicate SysInv(s: System) {
    && s.past != [] && DurableInv(s.orders, s.past, s.submitted)
    && s.pin == PinOf(s.body)
    && (s.body.Some? ==> BodyOk(s.orders, Now(s), s.body.value))
  }

  lemma ChainIsSound(s: System)
    requires SysInv(s)
    ensures s.past != [] && Inv(Now(s))
  {
    hide Inv, Grew, OrdersOk, AllSubmittedOk, SalesAreOurs, BodyOk;
  }

  lemma PastIsSound(s: System, k: nat)
    requires SysInv(s) && k < |s.past|
    ensures Inv(s.past[k]) && Grew(s.past[k], Now(s))
  {
    hide Inv, Grew, OrdersOk, AllSubmittedOk, SalesAreOurs, BodyOk;
  }

  // ---------- The chain moves ----------

  lemma GrewRefl(ch: Chain)
    ensures Grew(ch, ch)
  {
  }

  lemma GrewTrans(a: Chain, b: Chain, c: Chain)
    requires Grew(a, b) && Grew(b, c)
    ensures Grew(a, c)
  {
  }

  lemma ChainAfterCall(past: seq<Chain>, call: Call)
    requires past != [] && ChainOk(past)
    ensures ChainOk(past + [Step(past[|past| - 1], call)]) && Grew(past[|past| - 1], Step(past[|past| - 1], call))
  {
    hide Step, Inv, Grew;
    var now := past[|past| - 1];
    var next := Step(now, call);
    StepKeepsInv(now, call);
    StepGrows(now, call);
    forall k | 0 <= k < |past| + 1 ensures Grew((past + [next])[k], next) {
      if k < |past| {
        GrewTrans(past[k], now, next);
      } else {
        GrewRefl(next);
      }
    }
  }

  lemma OrdersAfterCall(orders: map<nat, Order>, ch: Chain, ch': Chain)
    requires OrdersOk(orders, ch) && Grew(ch, ch')
    ensures OrdersOk(orders, ch')
  {
    forall id | id in orders ensures OrderOk(orders[id], id, ch') {
      assert OrderOk(orders[id], id, ch);
    }
  }

  lemma BodyAfterCall(orders: map<nat, Order>, ch: Chain, ch': Chain, b: Body)
    requires BodyOk(orders, ch, b) && Grew(ch, ch')
    ensures BodyOk(orders, ch', b)
  {
  }

  /** Only an accepted sale adds to the record of sales. */
  lemma NewSaleIsTheCall(ch: Chain, call: Call, id: Bytes32)
    requires id in Step(ch, call).sales
    ensures (id in ch.sales && Step(ch, call).sales[id] == ch.sales[id])
         || (call.SellRows? && call.caller == ch.cells.finalizeSigner && Step(ch, call).sales[id].order == call.sale)
  {
    hide CheckRows, PresentCount, Ledger.GrantEligibility, FinalizeTournament;
  }

  lemma SalesAfterCall(ch: Chain, submitted: set<Call>, call: Call)
    requires SalesAreOurs(ch, submitted)
    requires call in submitted || (call.SellRows? ==> call.caller != ch.cells.finalizeSigner)
    ensures SalesAreOurs(Step(ch, call), submitted)
  {
    hide Step;
    var ch' := Step(ch, call);
    forall id | id in ch'.sales ensures exists caller :: SellRows(caller, ch'.sales[id].order) in submitted {
      NewSaleIsTheCall(ch, call, id);
      if id in ch.sales && ch'.sales[id] == ch.sales[id] {
        var caller :| SellRows(caller, ch.sales[id].order) in submitted;
      } else {
        assert call == SellRows(call.caller, ch'.sales[id].order);
      }
    }
  }

  lemma OnChainKeepsInv(s: System, call: Call)
    requires SysInv(s)
    requires call in s.submitted || (call.SellRows? ==> call.caller != Now(s).cells.finalizeSigner)
    ensures SysInv(OnChain(s, call))
  {
    hide ChainOk, OrdersOk, SalesAreOurs, AllSubmittedOk, BodyOk, Step, Grew;
    var s' := OnChain(s, call);
    ChainAfterCall(s.past, call);
    OrdersAfterCall(s.orders, Now(s), Now(s'));
    SalesAfterCall(Now(s), s.submitted, call);
    if s.body.Some? {
      BodyAfterCall(s.orders, Now(s), Now(s'), s.body.value);
    }
  }

  // ---------- The store moves ----------

  /** Orders are only added, keep their identity, and once pinned keep their pins. */
  ghost predicate OrdersKept(orders: map<nat, Order>, orders': map<nat, Order>) {
    forall id <- orders ::
      && id in orders' && SameIdentity(orders[id], orders'[id])
      && (IsPinned(orders[id]) ==> SamePins(orders[id], orders'[id]))
  }

  /** The same, and orders without pins stay without. */
  ghost predicate PinsKept(orders: map<nat, Order>, orders': map<nat, Order>) {
    forall id <- orders :: id in orders' && SameIdentity(orders[id], orders'[id]) && SamePins(orders[id], orders'[id])
  }

  lemma SubmittedFramed(orders: map<nat, Order>, orders': map<nat, Order>, submitted: set<Call>)
    requires AllSubmittedOk(orders, submitted) && OrdersKept(orders, orders')
    ensures AllSubmittedOk(orders', submitted)
  {
    forall call | call in submitted ensures SubmittedOk(orders', call) {
      assert SubmittedOk(orders, call);
    }
  }

  lemma BodyFramed(orders: map<nat, Order>, orders': map<nat, Order>, ch: Chain, b: Body)
    requires BodyOk(orders, ch, b) && PinsKept(orders, orders')
    ensures BodyOk(orders', ch, b)
  {
  }

  /** Writing one order keeps the durable invariant if the new order is fine and keeps its pins. */
  lemma WriteKeepsDurable(orders: map<nat, Order>, past: seq<Chain>, submitted: set<Call>, id: nat, o: Order)
    requires DurableInv(orders, past, submitted)
    requires OrderOk(o, id, past[|past| - 1])
    requires id in orders ==> SameIdentity(orders[id], o) && (IsPinned(orders[id]) ==> SamePins(orders[id], o))
    ensures DurableInv(orders[id := o], past, submitted)
  {
    hide ChainOk, SalesAreOurs, AllSubmittedOk, OrderOk;
    SubmittedFramed(orders, orders[id := o], submitted);
  }

  lemma StoredOrderOk(orders: map<nat, Order>, ch: Chain, id: nat)
    requires OrdersOk(orders, ch) && id in orders
    ensures OrderOk(orders[id], id, ch)
  {
  }

  lemma StatusKeepsInv(s: System, id: nat, status: Status, stage: Stage)
    requires SysInv(s) && id in s.orders && status != FULFILLED
    ensures SysInv(SetOrderStatus(s, id, status, stage))
  {
    hide ChainOk, OrdersOk, SalesAreOurs, AllSubmittedOk, BodyOk;
    StoredOrderOk(s.orders, Now(s), id);
    var s' := SetOrderStatus(s, id, status, stage);
    WriteKeepsDurable(s.orders, s.past, s.submitted, id, s'.orders[id]);
    if s.body.Some? {
      BodyFramed(s.orders, s'.orders, Now(s), s.body.value);
    }
  }

  lemma CreateKeepsInv(s: System, id: nat, chainId: nat, wallet: string, t: nat)
    requires SysInv(s) && id !in s.orders
    ensures SysInv(s.(orders := s.orders[id := NewOrder(id, chainId, wallet, t)]))
  {
    hide ChainOk, OrdersOk, SalesAreOurs, AllSubmittedOk, BodyOk;
    var s' := s.(orders := s.orders[id := NewOrder(id, chainId, wallet, t)]);
    WriteKeepsDurable(s.orders, s.past, s.submitted, id, s'.orders[id]);
    if s.body.Some? {
      BodyFramed(s.orders, s'.orders, Now(s), s.body.value);
    }
  }

  lemma SubmitKeepsDurable(orders: map<nat, Order>, past: seq<Chain>, submitted: set<Call>, call: Call)
    requires DurableInv(orders, past, submitted) && SubmittedOk(orders, call)
    ensures DurableInv(orders, past, submitted + {call})
  {
    hide ChainOk, OrdersOk, SubmittedOk;
    var ch := past[|past| - 1];
    forall id | id in ch.sales ensures exists caller :: SellRows(caller, ch.sales[id].order) in submitted + {call} {
      var caller :| SellRows(caller, ch.sales[id].order) in submitted;
    }
  }

  lemma StartKeepsInv(s: System, readOk: bool)
    requires SysInv(s) && s.body.None? && s.queue != []
    ensures SysInv(StartNext(s, readOk))
  {
    hide ChainOk, SalesAreOurs, AllSubmittedOk, PinsOk, DeliveryOk;
  }

  // ---------- The body moves ----------

  /** Positions the body may take with no knowledge about its order. */
  predicate IsFree(pc: Pc) {
    pc.NoteSold? || pc.ToConfirming? || pc.Confirm? || pc.Failing?
    || pc.CountAttempt? || pc.NoteError? || pc.GiveUp? || pc.Requeue?
  }

  lemma CaughtIsFree(pc: Pc, err: Err)
    ensures Caught(pc, err).Some? ==> IsFree(Caught(pc, err).value)
  {
  }

  lemma ThrowKeepsInv(s: System, err: Err)
    requires s.past != [] && DurableInv(s.orders, s.past, s.submitted)
    requires s.body.Some? && s.body.value.order.orderId in s.orders
    requires SameIdentity(s.body.value.order, s.orders[s.body.value.order.orderId])
    ensures SysInv(Throw(s, err))
  {
    hide DurableInv, Caught;
    CaughtIsFree(s.body.value.pc, err);
  }

  /** A write other than the pins keeps every order's pins; one other than delivery fulfils nothing. */
  lemma PatchedOk(o: Order, id: nat, ch: Chain, p: Patch)
    requires OrderOk(o, id, ch)
    requires p.SetStage? ==> p.status != FULFILLED
    requires p.SetStatus? ==> p.newStatus != FULFILLED
    requires p.SetPins? ==> FileFits(p.json, p.rows, o)
    requires p.SetDelivered? ==> OrderLicenseId(o) in ch.cells.licenses && ch.cells.licenses[OrderLicenseId(o)] == p.license
    ensures OrderOk(Patched(o, p), id, ch) && SameIdentity(o, Patched(o, p)) && (!p.SetPins? ==> SamePins(o, Patched(o, p)))
  {
  }

  lemma BodyWriteFits(orders: map<nat, Order>, ch: Chain, b: Body)
    requires BodyOk(orders, ch, b) && WriteAt(b.pc).Some?
    ensures var p, o := WriteAt(b.pc).value, orders[b.order.orderId];
      && (p.SetStage? ==> p.status != FULFILLED) && (p.SetStatus? ==> p.newStatus != FULFILLED)
      && (p.SetPins? ==> !IsPinned(o) && FileFits(p.json, p.rows, o))
      && (p.SetDelivered? ==> OrderLicenseId(o) in ch.cells.licenses && ch.cells.licenses[OrderLicenseId(o)] == p.license)
  {
  }

  lemma StoreKeepsDurable(s: System)
    requires SysInv(s) && s.body.Some? && WriteAt(s.body.value.pc).Some?
    ensures var s' := Store(s, WriteAt(s.body.value.pc).value);
      && DurableInv(s'.orders, s'.past, s'.submitted) && OrdersKept(s.orders, s'.orders)
      && s'.past == s.past && s'.submitted == s.submitted && s'.body == s.body && s'.pin == s.pin
  {
    hide ChainOk, SalesAreOurs, AllSubmittedOk, OrderOk, WriteAt, Patched, FileFits;
    var b, ch := s.body.value, Now(s);
    var id := b.order.orderId;
    var p := WriteAt(b.pc).value;
    BodyWriteFits(s.orders, ch, b);
    PatchedOk(s.orders[id], id, ch, p);
    WriteKeepsDurable(s.orders, s.past, s.submitted, id, Patched(s.orders[id], p));
  }

  /** After an acknowledged write the body's next position fits the store it has just written. */
  lemma BodyAfterWrite(orders: map<nat, Order>, ch: Chain, b: Body, maxAttempts: int)
    requires BodyOk(orders, ch, b) && WriteAt(b.pc).Some? && AfterWrite(b, maxAttempts).Some?
    ensures var id := b.order.orderId;
      BodyOk(orders[id := Patched(orders[id], WriteAt(b.pc).value)], ch, b.(pc := AfterWrite(b, maxAttempts).value))
  {
  }

  lemma WriteKeepsInv(s: System, reply: Reply)
    requires SysInv(s) && s.body.Some? && WriteAt(s.body.value.pc).Some?
    ensures SysInv(BodyStep(s, reply))
  {
    hide DurableInv, BodyOk, WriteAt, AfterWrite, Patched, Caught, Grew, CallStep;
    var b := s.body.value;
    BodyHasOrder(s.orders, Now(s), b);
    WritePinsNothing(b, s.maxAttempts);
    match reply
    case Stored =>
      StoreKeepsDurable(s);
      if AfterWrite(b, s.maxAttempts).Some? {
        BodyAfterWrite(s.orders, Now(s), b, s.maxAttempts);
      }
    case StoredButLost(err) =>
      StoreKeepsDurable(s);
      KeptHasOrder(s.orders, Store(s, WriteAt(b.pc).value).orders, b);
      ThrowKeepsInv(Store(s, WriteAt(b.pc).value), err);
    case Threw(err) => ThrowKeepsInv(s, err);
    case _ =>
  }

  lemma BodyHasOrder(orders: map<nat, Order>, ch: Chain, b: Body)
    requires BodyOk(orders, ch, b)
    ensures b.order.orderId in orders && SameIdentity(b.order, orders[b.order.orderId])
  {
  }

  lemma KeptHasOrder(orders: map<nat, Order>, orders': map<nat, Order>, b: Body)
    requires b.order.orderId in orders && SameIdentity(b.order, orders[b.order.orderId]) && OrdersKept(orders, orders')
    ensures b.order.orderId in orders' && SameIdentity(b.order, orders'[b.order.orderId])
  {
  }

  lemma WritePinsNothing(b: Body, maxAttempts: int)
    requires WriteAt(b.pc).Some?
    ensures PinOf(Some(b)) == None
    ensures AfterWrite(b, maxAttempts).Some? ==> PinOf(Some(b.(pc := AfterWrite(b, maxAttempts).value))) == None
  {
  }

  // ---------- Reads, calls and decisions ----------

  lemma ThrowInBody(s: System, err: Err)
    requires SysInv(s) && s.body.Some?
    ensures SysInv(Throw(s, err))
  {
    hide DurableInv, BodyOk, Throw;
    BodyHasOrder(s.orders, Now(s), s.body.value);
    ThrowKeepsInv(s, err);
  }

  lemma SubmitInBody(s: System, call: Call)
    requires SysInv(s) && s.body.Some? && SubmittedOk(s.orders, call)
    ensures SysInv(Submit(s, call))
  {
    hide DurableInv, BodyOk, SubmittedOk;
    SubmitKeepsDurable(s.orders, s.past, s.submitted, call);
  }

  /** Registering the buyer: whatever the indexer shows, the body keeps knowing its order's pins. */
  lemma RegisterKeepsInv(s: System, reply: Reply)
    requires SysInv(s) && s.body.Some?
    requires s.body.value.pc.CheckBuyer? || s.body.value.pc.Register? || s.body.value.pc.AwaitBuyer?
    ensures SysInv(CallStep(s, reply))
  {
    hide DurableInv, SubmittedOk, Throw, ProvenSale, Grew;
    var b := s.body.value;
    var call := RegisterBuyer(s.operator, b.order.buyerPk);
    RegisterIsNoSale(s.orders, call);
    SubmitInBody(s, call);
    ThrowInBody(s, Err(false, false));
    match reply
    case Threw(err) => ThrowInBody(s, err);
    case OkButLost(err) => ThrowInBody(Submit(s, call), err);
    case _ =>
  }

  lemma RegisterIsNoSale(orders: map<nat, Order>, call: Call)
    requires !call.SellRows?
    ensures SubmittedOk(orders, call)
  {
  }

  /** Building: an order that has pins reuses them; one without builds a file that fits. */
  lemma BuildKeepsInv(s: System, reply: Reply)
    requires SysInv(s) && s.body.Some?
    requires s.body.value.pc.Build? || s.body.value.pc.Resolve? || s.body.value.pc.Prove?
    ensures SysInv(CallStep(s, reply))
  {
    hide DurableInv, SubmittedOk, Throw, ProvenSale, Grew, RowsOfFile, CanonicalDataset, ResolveItemNames;
    var b := s.body.value;
    match reply
    case Threw(err) => ThrowInBody(s, err);
    case Names(title, names) =>
      if b.pc.Resolve? {
        BuiltFileFits(b.order, title, b.pc.found, names);
      }
    case _ =>
  }

  lemma BuiltFileFits(o: Order, title: string, rows: seq<PinnedRow>, names: map<nat, string>)
    requires rows != [] && |rows| <= ESCROW_BATCH
    ensures FileFits(CanonicalDataset(o.tournamentId, title, o.orderId, ResolveItemNames(rows, names)), rows, o)
  {
    hide ResolveItemNames, RowsOfFile;
    FileCarriesRows(o.tournamentId, title, o.orderId, rows, names);
  }

  /** The proof reads the in-memory pin, which holds this order's rows, so the sale it yields matches
      the order. */
  lemma ProvenSaleMatches(s: System, view: nat)
    requires SysInv(s) && s.body.Some? && s.body.value.pc.Proving? && view < |s.past|
    ensures var proof := ProvenSale(s, view, s.body.value.order, s.body.value.pc.hash);
      proof.Proven? ==> SubmittedOk(s.orders, SellRows(s.operator, proof.sale))
  {
    hide DurableInv, Presents, WitnessRows, PinsOk, DeliveryOk, Batch, RowsEncode, SellRowsTo;
    var o := s.orders[s.body.value.order.orderId];
    BodyOrderOk(s);
    assert |o.pinnedRows| <= ESCROW_BATCH && IsPinned(o) by {
      PinnedFits(o, Now(s));
    }
    assert Batch(o.pinnedRows) == o.pinnedRows by {
      WholeBatch(o.pinnedRows);
    }
  }

  lemma BodyOrderOk(s: System)
    requires SysInv(s) && s.body.Some? && s.body.value.order.orderId in s.orders
    ensures OrderOk(s.orders[s.body.value.order.orderId], s.body.value.order.orderId, Now(s))
  {
    hide ChainOk, AllSubmittedOk, SalesAreOurs, BodyOk, OrderOk;
  }

  lemma PinnedFits(o: Order, ch: Chain)
    requires OrderOk(o, o.orderId, ch) && IsPinned(o)
    ensures |o.pinnedRows| <= ESCROW_BATCH
  {
  }

  lemma WholeBatch(rows: seq<PinnedRow>)
    requires |rows| <= ESCROW_BATCH
    ensures Batch(rows) == rows
  {
  }

  lemma ProvingKeepsInv(s: System, reply: Reply)
    requires SysInv(s) && s.body.Some?
    requires s.body.value.pc.Proving? || s.body.value.pc.Sent?
    ensures SysInv(CallStep(s, reply))
  {
    hide DurableInv, SubmittedOk, Throw, ProvenSale, Grew;
    var b := s.body.value;
    ThrowInBody(s, Err(false, false));
    match reply
    case Threw(err) => ThrowInBody(s, err);
    case Seen(view) =>
      if b.pc.Proving? && view < |s.past| {
        ProvenSaleMatches(s, view);
        match ProvenSale(s, view, b.order, b.pc.hash) {
          case Proven(sale) => SubmitInBody(s, SellRows(s.operator, sale));
          case Refused(why) => ThrowInBody(s, RefusalError(why));
          case WitnessThrew =>
        }
      }
    case _ =>
  }

  /** Confirming: a license any past state showed is on the chain for good. */
  lemma SeenLicenseStays(s: System, view: nat, o: Order)
    requires DurableInv(s.orders, s.past, s.submitted) && view < |s.past| && LicenseSeen(s, view, o).Some?
    ensures OrderLicenseId(o) in Now(s).cells.licenses
    ensures Now(s).cells.licenses[OrderLicenseId(o)] == LicenseSeen(s, view, o).value
  {
    hide Inv, OrdersOk, AllSubmittedOk, SalesAreOurs;
    assert Grew(s.past[view], Now(s));
  }

  lemma ConfirmKeepsInv(s: System, reply: Reply)
    requires SysInv(s) && s.body.Some?
    requires s.body.value.pc.Confirm? || s.body.value.pc.Failing?
    ensures SysInv(CallStep(s, reply))
  {
    hide DurableInv, SubmittedOk, Throw, ProvenSale, Grew, LicenseSeen;
    ThrowInBody(s, Err(false, false));
    match reply
    case Threw(err) => ThrowInBody(s, err);
    case Seen(view) =>
      if view < |s.past| && LicenseSeen(s, view, s.body.value.order).Some? {
        SeenLicenseStays(s, view, s.body.value.order);
      }
    case _ =>
  }

  lemma BodyStepKeepsInv(s: System, reply: Reply)
    requires SysInv(s) && s.body.Some?
    ensures SysInv(BodyStep(s, reply))
  {
    hide SysInv, WriteStep, CallStep;
    match s.body.value.pc
    case CheckBuyer | Register | AwaitBuyer(_) => RegisterKeepsInv(s, reply);
    case Build | Resolve(_) | Prove(_, _) => BuildKeepsInv(s, reply);
    case Proving(_, _) | Sent(_, _) => ProvingKeepsInv(s, reply);
    case Confirm(_, _) | Failing(_) => ConfirmKeepsInv(s, reply);
    case _ => WriteKeepsInv(s, reply);
  }

  // ---------- All steps, all runs ----------

  lemma QueueKeepsInv(s: System, s': System)
    requires SysInv(s) && s'.orders == s.orders && s'.past == s.past && s'.submitted == s.submitted
    requires (s'.body == s.body && s'.pin == s.pin) || (s'.body == None && s'.pin == None)
    ensures SysInv(s')
  {
    hide DurableInv, BodyOk;
  }

  lemma GrantKeepsInv(s: System, leaf: Bytes32)
    requires SysInv(s)
    ensures SysInv(Submit(s, Grant(s.operator, leaf)))
  {
    hide DurableInv, BodyOk, SubmittedOk;
    RegisterIsNoSale(s.orders, Grant(s.operator, leaf));
    SubmitKeepsDurable(s.orders, s.past, s.submitted, Grant(s.operator, leaf));
  }

  lemma NextKeepsInv(s: System, a: Action)
    requires SysInv(s) && Enabled(s, a)
    ensures SysInv(Next(s, a))
  {
    hide SysInv, BodyStep, OnChain, StartNext, SetOrderStatus, Submit;
    match a
    case Outside(call) => OnChainKeepsInv(s, call);
    case Land(call) => OnChainKeepsInv(s, call);
    case SubmitGrant(leaf) => GrantKeepsInv(s, leaf);
    case CreateOrder(id, chainId, wallet, t) => CreateKeepsInv(s, id, chainId, wallet, t);
    case PayWrite(id) =>
      StatusKeepsInv(s, id, PAID, QUEUED);
      StatusOnly(s, id);
      QueueKeepsInv(SetOrderStatus(s, id, PAID, QUEUED), Next(s, a));
    case Start(readOk) => StartKeepsInv(s, readOk);
    case Await(reply) => BodyStepKeepsInv(s, reply);
    case Recover(id) => StatusKeepsInv(s, id, PAID, QUEUED);
    case _ => QueueKeepsInv(s, Next(s, a));
  }

  lemma StatusOnly(s: System, id: nat)
    requires id in s.orders
    ensures var s' := SetOrderStatus(s, id, PAID, QUEUED);
      s'.past == s.past && s'.submitted == s.submitted && s'.body == s.body && s'.pin == s.pin
  {
  }

  lemma InitialInv(s: System)
    requires IsInitial(s)
    ensures SysInv(s)
  {
    hide Inv, Grew;
    GenesisInv(s.past[0].cells);
    GrewRefl(s.past[0]);
  }

  lemma {:induction false} SystemRunKeepsInv(states: seq<System>, actions: seq<Action>, n: nat)
    requires IsRun(states, actions) && n <= |actions|
    ensures SysInv(states[n])
  {
    hide SysInv, Next, Enabled, IsInitial;
    if n == 0 {
      InitialInv(states[0]);
    } else {
      SystemRunKeepsInv(states, actions, n - 1);
      NextKeepsInv(states[n - 1], actions[n - 1]);
    }
  }
}
