/** The fulfilment protocol read off the orders and bodies it leaves behind: which step gives an order which
    status, what a body has done by the time it stands where it does, and how its errors are handled. */
module OrderRules {
  import opened Options
  import opened Texts
  import opened Digests
  import opened Ledger
  import opened LedgerInvariants
  import opened LedgerTheorems
  import opened Orders
  import opened Fulfilment
  import opened FulfilmentInvariants
  import opened FulfilmentTheorems
  import TerminalOrders

  // ---------- Status, stage and attempts ----------

  /** The write the body of order `id` waits for takes effect, whether or not that is reported. */
  predicate IsWritten(s: System, a: Action, id: nat) {
    s.body.Some? && s.body.value.order.orderId == id && a.Await? && (a.reply.Stored? || a.reply.StoredButLost?)
  }

  predicate Stays(o: Order, o': Order) {
    o'.status == o.status && o'.stage == o.stage && o'.attempts == o.attempts
  }

  predicate Becomes(o: Order, o': Order, status: Status, stage: Stage) {
    o'.status == status && o'.stage == stage && o'.attempts == o.attempts
  }

  /** What a step makes of an order: payments and recoveries queue it as paid; the writes of its body lead it
      through the stages to its end; nothing else touches status, stage or the count of failures. */
  predicate Follows(s: System, a: Action, id: nat, o: Order, o': Order) {
    if a == PayWrite(id) || a == Recover(id) then Becomes(o, o', PAID, QUEUED)
    else if !IsWritten(s, a, id) then Stays(o, o')
    else
      match s.body.value.pc
      case Claim => Becomes(o, o', FULFILLING, QUEUED)
      case ToRegistering => Becomes(o, o', FULFILLING, REGISTERING)
      case ToBuilding => Becomes(o, o', FULFILLING, BUILDING)
      case ToProving(_, _) => Becomes(o, o', FULFILLING, PROVING)
      case ToConfirming => Becomes(o, o', FULFILLING, CONFIRMING)
      case Deliver(_, _) => Becomes(o, o', FULFILLED, DONE)
      case ReportEmpty => Becomes(o, o', FAILED, o.stage)
      case GiveUp => Becomes(o, o', FAILED, o.stage)
      case Requeue => Becomes(o, o', PAID, QUEUED)
      case CountAttempt => o'.status == o.status && o'.stage == o.stage && o'.attempts == o.attempts + 1
      case _ => Stays(o, o')
  }

  lemma WriteFollows(s: System, reply: Reply, id: nat)
    requires s.body.Some? && WriteAt(s.body.value.pc).Some? && id in s.orders
    ensures var s' := BodyStep(s, reply); id in s'.orders && Follows(s, Await(reply), id, s.orders[id], s'.orders[id])
  {
    hide AfterWrite, Caught, CallStep;
  }

  lemma OrderFollows(s: System, a: Action, id: nat)
    requires Enabled(s, a) && id in s.orders
    ensures id in Next(s, a).orders && Follows(s, a, id, s.orders[id], Next(s, a).orders[id])
  {
    hide BodyStep, Step, Follows;
    if a.Await? {
      if WriteAt(s.body.value.pc).Some? { WriteFollows(s, a.reply, id); } else { CallFollows(s, a.reply, id); }
    } else {
      OthersFollow(s, a, id);
    }
  }

  lemma OthersFollow(s: System, a: Action, id: nat)
    requires Enabled(s, a) && id in s.orders && !a.Await?
    ensures id in Next(s, a).orders && Follows(s, a, id, s.orders[id], Next(s, a).orders[id])
  {
    hide Step, BodyStep, NewOrder, StartNext;
    if a.Start? { StartKeepsOrders(s, a.readOk); }
  }

  lemma StartKeepsOrders(s: System, readOk: bool)
    requires s.queue != []
    ensures StartNext(s, readOk).orders == s.orders
  {
  }

  lemma CallFollows(s: System, reply: Reply, id: nat)
    requires s.body.Some? && WriteAt(s.body.value.pc).None? && id in s.orders
    ensures var s' := BodyStep(s, reply); id in s'.orders && Follows(s, Await(reply), id, s.orders[id], s'.orders[id])
  {
    hide CallStep;
    CallsWriteNothing(s, reply);
  }

  /** A stage fits its status. */
  predicate Fits(o: Order) {
    match o.status
    case CREATED => o.stage == QUEUED
    case PAID => o.stage == QUEUED
    case FULFILLING => o.stage != DONE
    case FULFILLED => o.stage == DONE
    case FAILED => true
  }

  /** In every run a waiting order stands at the first stage, one being worked on before the last, and a
      fulfilled one at the last. */
  lemma {:induction false} StagesFit(states: seq<System>, actions: seq<Action>, n: nat, id: nat)
    requires IsRun(states, actions) && n <= |actions| && id in states[n].orders
    ensures Fits(states[n].orders[id])
  {
    hide Next, Enabled, Follows;
    if n == 0 {
      assert false;
    } else if id in states[n - 1].orders {
      StagesFit(states, actions, n - 1, id);
      OrderFollows(states[n - 1], actions[n - 1], id);
      FollowsFits(states[n - 1], actions[n - 1], id, states[n - 1].orders[id], states[n].orders[id]);
    } else {
      OnlyNewOrders(states[n - 1], actions[n - 1], id);
    }
  }

  lemma FollowsFits(s: System, a: Action, id: nat, o: Order, o': Order)
    requires Fits(o) && Follows(s, a, id, o, o')
    ensures Fits(o')
  {
  }

  /** An order enters as created: nothing paid, tried, pinned or delivered, for the buyer whose key is the hash
      of the lower-case wallet, with a specification of its own. */
  lemma OnlyNewOrders(s: System, a: Action, id: nat)
    requires Enabled(s, a) && id !in s.orders && id in Next(s, a).orders
    ensures a.CreateOrder? && a.orderId == id
    ensures var o := Next(s, a).orders[id];
      && o.orderId == id && o.chainId == a.chainId && o.buyerAddress == a.wallet && o.tournamentId == a.tournamentId
      && o.buyerPk == Sha256Text(Lower(a.wallet)) && o.specHash == Sha256Spec(a.tournamentId, id)
      && o.status == CREATED && o.stage == QUEUED && o.attempts == 0 && o.pinnedRows == []
      && o.datasetJson == None && o.datasetHash == None && o.licenseId == None && o.deliveredRowCount == None && o.sampleAtSale == None
  {
    hide BodyStep, Step, Lower;
    if a.Await? { AwaitAddsNothing(s, a.reply, id); }
  }

  lemma AwaitAddsNothing(s: System, reply: Reply, id: nat)
    requires s.body.Some? && id !in s.orders
    ensures id !in BodyStep(s, reply).orders
  {
    hide CallStep, AfterWrite, Caught, Patched;
    CallsWriteNothing(s, reply);
  }

  /** The queue: payments, timers and boots append an order, a start takes the head, whether or not the order
      can be read and is still paid, and only a crash loses the rest. */
  lemma QueueFollows(s: System, a: Action)
    requires Enabled(s, a)
    ensures var s' := Next(s, a);
      match a
      case PayWrite(id) => s'.queue == s.queue + [id]
      case Enqueue(id) => s'.queue == s.queue + [id]
      case Start(readOk) =>
        && s'.queue == s.queue[1..]
        && s'.body == (if readOk && s.queue[0] in s.orders && s.orders[s.queue[0]].status == PAID
                       then Some(Body(s.orders[s.queue[0]], Claim)) else None)
      case Crash => s'.queue == [] && s'.body == None && s'.orders == s.orders && s'.past == s.past && s'.submitted == s.submitted
      case _ => s'.queue == s.queue
  {
    hide BodyStep, Step;
    if a.Await? { AwaitKeepsQueue(s, a.reply); }
  }

  lemma AwaitKeepsQueue(s: System, reply: Reply)
    requires s.body.Some?
    ensures BodyStep(s, reply).queue == s.queue
  {
    hide CallStep, AfterWrite, Caught, Patched;
    if WriteAt(s.body.value.pc).None? { CallsKeepConfig(s, reply); }
  }

  // ---------- What a body has done ----------

  /** Positions after the registration, of a body whose work is not over. */
  predicate IsPastRegistering(pc: Pc) {
    match pc
    case ToBuilding | Build | Resolve(_) | Pin(_, _) | ReportEmpty | ToProving(_, _) | Prove(_, _) | Proving(_, _) => true
    case _ => IsPastProving(pc)
  }

  predicate IsPastProving(pc: Pc) {
    match pc
    case Sent(_, _) | NoteSold | ToConfirming => true
    case Confirm(_, rescue) => rescue == None
    case Deliver(_, rescue) => rescue == None
    case _ => false
  }

  /** The backend has handed over a sale of this order. */
  predicate SaleIsOut(s: System, o: Order) {
    exists call <- s.submitted :: call.SellRows? && call.caller == s.operator && call.sale.specHash == o.specHash
  }

  /** A body that waits for its buyer has registered it. */
  predicate HasRegistered(s: System, b: Body) {
    b.pc.NoteRegistered? || b.pc.AwaitBuyer? ==> RegisterBuyer(s.operator, b.order.buyerPk) in s.submitted
  }

  /** One past registering has its buyer on the chain. */
  ghost predicate HasBuyer(s: System, b: Body)
    requires s.past != []
  {
    IsPastRegistering(b.pc) ==> b.order.buyerPk in Now(s).cells.buyers
  }

  /** One past proving has its sale submitted. */
  predicate HasSold(s: System, b: Body) {
    IsPastProving(b.pc) ==> SaleIsOut(s, b.order)
  }

  ghost predicate HasDone(s: System) {
    s.past != [] && s.body.Some? ==> HasRegistered(s, s.body.value) && HasBuyer(s, s.body.value) && HasSold(s, s.body.value)
  }

  lemma WritesKeepDone(s: System, reply: Reply)
    requires HasDone(s) && s.past != [] && s.body.Some? && WriteAt(s.body.value.pc).Some?
    ensures HasDone(BodyStep(s, reply))
  {
    hide Patched, CallStep, SaleIsOut;
    var s' := BodyStep(s, reply);
    assert s'.past == s.past && s'.submitted == s.submitted && s'.operator == s.operator;
    SaleStaysOut(s, s', s.body.value.order);
  }

  lemma SaleStaysOut(s: System, s': System, o: Order)
    requires s.submitted <= s'.submitted && s'.operator == s.operator
    ensures SaleIsOut(s, o) ==> SaleIsOut(s', o)
  {
  }

  lemma SaleGoesOut(s: System, o: Order, sale: SaleOrder)
    requires SellRows(s.operator, sale) in s.submitted && sale.specHash == o.specHash
    ensures SaleIsOut(s, o)
  {
  }

  lemma BuyersSeenStay(s: System, view: nat, o: Order)
    requires SysInv(s) && view < |s.past| && BuyerSeen(s, view, o)
    ensures o.buyerPk in Now(s).cells.buyers
  {
    hide SysInv, Inv;
    PastIsSound(s, view);
  }

  lemma ProvenSaleIsTheOrders(s: System, view: nat, o: Order, hash: Bytes32)
    requires view < |s.past| && ProvenSale(s, view, o, hash).Proven?
    ensures ProvenSale(s, view, o, hash).sale.specHash == o.specHash
  {
    hide SellRowsTo, WitnessRows, RowsEncode;
  }

  lemma CallsRegister(s: System, reply: Reply)
    requires s.body.Some? && HasRegistered(s, s.body.value) && CallStep(s, reply).body.Some?
    ensures HasRegistered(CallStep(s, reply), CallStep(s, reply).body.value)
  {
    hide ProvenSale, LicenseSeen, BuyerSeen, IsPinned, CanonicalDataset, ResolveItemNames, Batch, RefusalError;
  }

  lemma SeenBeforeBuilding(s: System, reply: Reply)
    requires s.body.Some? && !IsPastRegistering(s.body.value.pc)
    requires CallStep(s, reply).body.Some? && IsPastRegistering(CallStep(s, reply).body.value.pc)
    ensures reply.Seen? && reply.view < |s.past| && BuyerSeen(s, reply.view, s.body.value.order)
  {
    hide ProvenSale, LicenseSeen, BuyerSeen, RefusalError;
  }

  lemma CallsFindBuyer(s: System, reply: Reply)
    requires SysInv(s) && s.body.Some? && HasBuyer(s, s.body.value) && CallStep(s, reply).body.Some?
    ensures CallStep(s, reply).past == s.past && HasBuyer(CallStep(s, reply), CallStep(s, reply).body.value)
  {
    hide SysInv, CallStep, IsPastRegistering, BuyerSeen;
    CallsKeepConfig(s, reply);
    TerminalOrders.CallsKeepTheBodysOrder(s, reply);
    if !IsPastRegistering(s.body.value.pc) && IsPastRegistering(CallStep(s, reply).body.value.pc) {
      SeenBeforeBuilding(s, reply);
      BuyersSeenStay(s, reply.view, s.body.value.order);
    }
  }

  lemma CallsSell(s: System, reply: Reply)
    requires s.body.Some? && HasSold(s, s.body.value) && CallStep(s, reply).body.Some?
    ensures HasSold(CallStep(s, reply), CallStep(s, reply).body.value)
  {
    hide ProvenSale, LicenseSeen, BuyerSeen, IsPinned, CanonicalDataset, ResolveItemNames, Batch, RefusalError, SaleIsOut;
    var s', b := CallStep(s, reply), s.body.value;
    if b.pc.Proving? {
      if reply.Seen? && reply.view < |s.past| { ProvingSells(s, reply.view); }
    } else {
      SaleStaysOut(s, s', b.order);
    }
  }

  lemma ProvingSells(s: System, view: nat)
    requires s.body.Some? && s.body.value.pc.Proving? && view < |s.past|
    ensures var s' := CallStep(s, Seen(view)); s'.body.Some? && HasSold(s', s'.body.value)
  {
    hide ProvenSale, RefusalError, SaleIsOut;
    var s', b := CallStep(s, Seen(view)), s.body.value;
    var proof := ProvenSale(s, view, b.order, b.pc.hash);
    if proof.Proven? {
      ProvenSaleIsTheOrders(s, view, b.order, b.pc.hash);
      SaleGoesOut(s', b.order, proof.sale);
    }
  }

  lemma CallsKeepDone(s: System, reply: Reply)
    requires SysInv(s) && HasDone(s) && s.past != [] && s.body.Some? && WriteAt(s.body.value.pc).None?
    ensures HasDone(CallStep(s, reply))
  {
    hide SysInv, CallStep, HasRegistered, HasBuyer, HasSold;
    if CallStep(s, reply).body.Some? {
      CallsRegister(s, reply);
      CallsFindBuyer(s, reply);
      CallsSell(s, reply);
    }
  }

  lemma StepKeepsDone(s: System, a: Action)
    requires SysInv(s) && HasDone(s) && Enabled(s, a)
    ensures HasDone(Next(s, a))
  {
    hide SysInv, CallStep, WriteStep, Step, SaleIsOut;
    var s' := Next(s, a);
    if a.Await? {
      if WriteAt(s.body.value.pc).Some? { WritesKeepDone(s, a.reply); } else { CallsKeepDone(s, a.reply); }
    } else if s.body.Some? {
      SaleStaysOut(s, s', s.body.value.order);
      if a.Outside? || a.Land? { StepGrows(Now(s), a.call); }
    }
  }

  /** In every run a body goes through its stages in earnest: it builds only when its buyer is on the chain,
      and confirms only a sale it has submitted. */
  lemma {:induction false} BodiesDoTheirWork(states: seq<System>, actions: seq<Action>, n: nat)
    requires IsRun(states, actions) && n <= |actions|
    ensures HasDone(states[n])
  {
    hide Next, Enabled, SysInv, IsPastRegistering, IsPastProving, SaleIsOut;
    if n > 0 {
      BodiesDoTheirWork(states, actions, n - 1);
      SystemRunKeepsInv(states, actions, n - 1);
      StepKeepsDone(states[n - 1], actions[n - 1]);
    }
  }

  // ---------- Errors ----------

  /** Where an error leaves a body: the claim and the handler itself end by it, the rescue goes back to the
      error it set out from, and anywhere else the handler is entered. */
  predicate CaughtAt(pc: Pc, err: Err, next: Option<Pc>) {
    match pc
    case Claim | CountAttempt | NoteError | GiveUp | Requeue => next == None
    case Confirm(_, rescue) => if rescue.Some? then Resumes(rescue.value, next) else next == Some(Failing(err))
    case Deliver(_, rescue) => if rescue.Some? then Resumes(rescue.value, next) else next == Some(Failing(err))
    case _ => next == Some(Failing(err))
  }

  /** A final refusal gives up at once, any other error is counted. */
  predicate Resumes(err: Err, next: Option<Pc>) {
    next == Some(if err.fatal then GiveUp else CountAttempt)
  }

  /** Every error, thrown by a call or by a write, leaves the body where it is caught; one saying that the
      license exists is first answered by looking for the license; a counted one fails the order when the
      attempts are used up and else queues it again. */
  lemma ErrorsAreHandled(s: System, err: Err)
    requires s.body.Some?
    ensures var b := s.body.value;
      && (!b.pc.Failing? ==> var s' := BodyStep(s, Threw(err));
            s'.orders == s.orders && CaughtAt(b.pc, err, if s'.body.Some? then Some(s'.body.value.pc) else None))
      && (WriteAt(b.pc).Some? ==> var s' := BodyStep(s, StoredButLost(err));
            CaughtAt(b.pc, err, if s'.body.Some? then Some(s'.body.value.pc) else None))
      && (b.pc.Failing? ==> var s' := BodyStep(s, Ok);
            s'.body.Some? && if b.pc.err.licenseExists then s'.body.value.pc == Confirm(0, Some(b.pc.err))
                             else Resumes(b.pc.err, Some(s'.body.value.pc)))
      && (b.pc.CountAttempt? ==> BodyStep(s, Stored).body == Some(b.(pc := NoteError)))
      && (b.pc.NoteError? ==>
            BodyStep(s, Stored).body == Some(b.(pc := if b.order.attempts + 1 >= s.maxAttempts then GiveUp else Requeue)))
  {
    hide Patched;
  }

  /** Twenty unsuccessful looks for the buyer's key, or five for the license, are an error; the first
      successful one leads on. */
  lemma LooksAreCounted(s: System, view: nat)
    requires s.body.Some? && view < |s.past|
    ensures var b, cells := s.body.value, s.past[view].cells;
      var lid := LicenseId(b.order.buyerPk, b.order.tournamentId, b.order.specHash);
      && (b.pc.AwaitBuyer? && b.pc.polls < 20 ==> var s' := BodyStep(s, Seen(view));
            s'.body == Some(b.(pc := if b.order.buyerPk in cells.buyers then ToBuilding
                                     else if b.pc.polls == 19 then Failing(Err(false, false)) else AwaitBuyer(b.pc.polls + 1))))
      && (b.pc.Confirm? && b.pc.polls < 5 ==> var s' := BodyStep(s, Seen(view));
            && s'.body.Some? && s'.body.value.order == b.order
            && if lid in cells.licenses then s'.body.value.pc == Deliver(cells.licenses[lid], b.pc.rescue)
               else if b.pc.polls < 4 then s'.body.value.pc == Confirm(b.pc.polls + 1, b.pc.rescue)
               else CaughtAt(b.pc, Err(false, false), Some(s'.body.value.pc)))
  {
  }
}
