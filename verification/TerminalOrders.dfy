/** When fulfilled and failed orders are final.

    A step is clean unless it is one of the two kinds that can reopen an order; the condition is exact: an
    unclean step changes an ended order at once, or leaves a body behind that can. */
module TerminalOrders {
  import opened Digests
  import opened Ledger
  import opened LedgerInvariants
  import opened LedgerTheorems
  import opened Orders
  import opened Fulfilment
  import opened FulfilmentInvariants
  import opened FulfilmentTheorems

  predicate Terminal(o: Order) {
    o.status == FULFILLED || o.status == FAILED
  }

  /** Every step but the late half of a pay request whose order has ended meanwhile, and an ending write
      whose acknowledgement is lost.  A lost report of nothing to sell is harmless when the error the
      program sees reads like a final refusal: it then fails the order once more. */
  predicate Clean(s: System, a: Action) {
    && (a.PayWrite? && a.orderId in s.orders ==> !Terminal(s.orders[a.orderId]))
    && (a.Await? && a.reply.StoredButLost? && s.body.Some? ==>
          !s.body.value.pc.Deliver? && (s.body.value.pc.ReportEmpty? ==> a.reply.err.fatal))
  }

  predicate Live(o: Order) {
    o.status == PAID || o.status == FULFILLING
  }

  predicate BodyIsLive(s: System) {
    s.body.Some? ==> s.body.value.order.orderId in s.orders && Live(s.orders[s.body.value.order.orderId])
  }

  /** The body is about to fail an order that has failed, and has nothing to deliver. */
  predicate GivingUp(o: Order, pc: Pc) {
    && o.status == FAILED && !IsPinned(o)
    && match pc
       case Failing(err) => err.fatal
       case Confirm(_, rescue) => rescue.Some? && rescue.value.fatal
       case GiveUp => true
       case _ => false
  }

  /** The running body works on an order that has not ended, or can only repeat its end. */
  predicate BodyCannotReopen(s: System) {
    s.body.Some? ==>
      var id := s.body.value.order.orderId;
      id in s.orders && (Live(s.orders[id]) || GivingUp(s.orders[id], s.body.value.pc))
  }

  predicate TerminalsKept(orders: map<nat, Order>, orders': map<nat, Order>) {
    forall id <- orders :: Terminal(orders[id]) ==> id in orders' && orders'[id] == orders[id]
  }

  // ---------- An order without pins has no license ----------

  lemma UnpinnedHasNoLicense(s: System, id: nat, view: nat)
    requires SysInv(s) && id in s.orders && !IsPinned(s.orders[id]) && view < |s.past|
    ensures OrderLicenseId(s.orders[id]) !in s.past[view].cells.licenses
  {
    hide Inv, PinsOk, DeliveryOk, BodyOk, Grew, AllSubmittedOk, SalesAreOurs, SubmittedOk;
    var lid := OrderLicenseId(s.orders[id]);
    if lid in s.past[view].cells.licenses {
      GrownLicenses(s.past[view], Now(s), lid);
      SaleRecorded(Now(s), lid);
      SaleWasSubmitted(s.orders, Now(s), s.submitted, lid);
      var caller :| SubmittedOk(s.orders, SellRows(caller, Now(s).sales[lid].order));
      SoldOrderIsPinned(s.orders, caller, Now(s).sales[lid].order, id);
      assert false;
    }
  }

  lemma GrownLicenses(ch: Chain, later: Chain, lid: Bytes32)
    requires Grew(ch, later) && lid in ch.cells.licenses
    ensures lid in later.cells.licenses
  {
  }

  lemma SoldOrderIsPinned(orders: map<nat, Order>, caller: Bytes32, sale: SaleOrder, id: nat)
    requires SubmittedOk(orders, SellRows(caller, sale))
    requires id in orders && orders[id].specHash == Sha256Spec(orders[id].tournamentId, id)
    requires SaleKey(sale) == OrderLicenseId(orders[id])
    ensures IsPinned(orders[id])
  {
    hide Presents;
  }

  // ---------- Clean steps ----------

  lemma KeysAreIds(s: System)
    requires SysInv(s)
    ensures forall id <- s.orders :: s.orders[id].orderId == id
  {
    hide ChainOk, AllSubmittedOk, SalesAreOurs, BodyOk, PinsOk, DeliveryOk;
  }

  lemma CallsKeepTheBodysOrder(s: System, reply: Reply)
    requires s.body.Some?
    ensures var s' := CallStep(s, reply); s'.body.Some? ==> s'.body.value.order == s.body.value.order
  {
    hide ProvenSale, LicenseSeen, BuyerSeen, Caught, CanonicalDataset, ResolveItemNames, IsPinned, Batch;
  }

  /** Store writes: a clean one leaves a live order live, or its end to be repeated. */
  lemma CleanWrite(s: System, reply: Reply)
    requires BodyCannotReopen(s) && s.body.Some? && WriteAt(s.body.value.pc).Some? && Clean(s, Await(reply))
    requires s.body.value.pc.ReportEmpty? ==> !IsPinned(s.orders[s.body.value.order.orderId])
    ensures TerminalsKept(s.orders, BodyStep(s, reply).orders) && BodyCannotReopen(BodyStep(s, reply))
    ensures BodyIsLive(s) && !reply.StoredButLost? ==> BodyIsLive(BodyStep(s, reply))
  {
    hide CallStep, BodyIsLive, BodyCannotReopen, WriteAt;
    match reply
    case Stored => AcknowledgedWrite(s);
    case StoredButLost(err) => LostWrite(s, err);
    case _ => FailedWrite(s, reply);
  }

  lemma AcknowledgedWrite(s: System)
    requires BodyCannotReopen(s) && s.body.Some? && WriteAt(s.body.value.pc).Some?
    ensures TerminalsKept(s.orders, BodyStep(s, Stored).orders) && BodyCannotReopen(BodyStep(s, Stored))
    ensures BodyIsLive(s) ==> BodyIsLive(BodyStep(s, Stored))
  {
    hide CallStep, Throw;
  }

  lemma LostWrite(s: System, err: Err)
    requires BodyCannotReopen(s) && s.body.Some? && WriteAt(s.body.value.pc).Some?
    requires Clean(s, Await(StoredButLost(err)))
    requires s.body.value.pc.ReportEmpty? ==> !IsPinned(s.orders[s.body.value.order.orderId])
    ensures TerminalsKept(s.orders, BodyStep(s, StoredButLost(err)).orders)
    ensures BodyCannotReopen(BodyStep(s, StoredButLost(err)))
  {
    hide CallStep, AfterWrite;
  }

  lemma FailedWrite(s: System, reply: Reply)
    requires BodyCannotReopen(s) && s.body.Some? && WriteAt(s.body.value.pc).Some?
    requires !reply.Stored? && !reply.StoredButLost?
    ensures TerminalsKept(s.orders, BodyStep(s, reply).orders) && BodyCannotReopen(BodyStep(s, reply))
    ensures BodyIsLive(s) ==> BodyIsLive(BodyStep(s, reply))
  {
    hide CallStep, AfterWrite, Store;
  }

  lemma CleanCall(s: System, reply: Reply)
    requires SysInv(s) && BodyCannotReopen(s) && s.body.Some? && WriteAt(s.body.value.pc).None?
    ensures TerminalsKept(s.orders, BodyStep(s, reply).orders) && BodyCannotReopen(BodyStep(s, reply))
    ensures BodyIsLive(s) ==> BodyIsLive(BodyStep(s, reply))
  {
    hide CallStep, WriteStep, SysInv;
    CallsWriteNothing(s, reply);
    CallsKeepTheBodysOrder(s, reply);
    var id := s.body.value.order.orderId;
    if !Live(s.orders[id]) {
      if s.body.value.pc.Confirm? && reply.Seen? && reply.view < |s.past| {
        NoLicenseToDeliver(s, id, reply.view);
      }
      GivingUpGoesOn(s, reply);
    }
  }

  lemma NoLicenseToDeliver(s: System, id: nat, view: nat)
    requires SysInv(s) && s.body.Some? && s.body.value.order.orderId == id
    requires id in s.orders && !IsPinned(s.orders[id]) && view < |s.past|
    ensures LicenseSeen(s, view, s.body.value.order).None?
  {
    hide DurableInv, IsPinned;
    UnpinnedHasNoLicense(s, id, view);
    BodyHasOrder(s.orders, Now(s), s.body.value);
  }

  lemma GivingUpGoesOn(s: System, reply: Reply)
    requires s.body.Some? && s.body.value.order.orderId in s.orders
    requires GivingUp(s.orders[s.body.value.order.orderId], s.body.value.pc) && !s.body.value.pc.GiveUp?
    requires s.body.value.pc.Confirm? && reply.Seen? && reply.view < |s.past| ==> LicenseSeen(s, reply.view, s.body.value.order).None?
    ensures var s' := CallStep(s, reply);
      s'.body.Some? ==> GivingUp(s.orders[s.body.value.order.orderId], s'.body.value.pc)
  {
    hide LicenseSeen, IsPinned, ProvenSale;
  }

  lemma EmptyReportIsUnpinned(s: System)
    requires SysInv(s) && s.body.Some? && s.body.value.pc.ReportEmpty? && s.body.value.order.orderId in s.orders
    ensures !IsPinned(s.orders[s.body.value.order.orderId])
  {
    hide DurableInv, IsPinned;
  }

  /** Under clean steps a fulfilled or failed order is final: not one of its fields changes. */
  lemma CleanStep(s: System, a: Action)
    requires SysInv(s) && BodyCannotReopen(s) && Enabled(s, a) && Clean(s, a)
    ensures TerminalsKept(s.orders, Next(s, a).orders) && BodyCannotReopen(Next(s, a))
  {
    hide BodyStep, Step, SysInv, IsPinned;
    KeysAreIds(s);
    if a.Await? {
      if WriteAt(s.body.value.pc).Some? {
        if s.body.value.pc.ReportEmpty? { EmptyReportIsUnpinned(s); }
        CleanWrite(s, a.reply);
      } else {
        CleanCall(s, a.reply);
      }
    }
  }

  lemma {:induction false} BodyStaysHarmless(states: seq<System>, actions: seq<Action>, n: nat)
    requires IsRun(states, actions) && n <= |actions|
    requires forall k :: 0 <= k < n ==> Clean(states[k], actions[k])
    ensures BodyCannotReopen(states[n])
  {
    hide Next, Enabled, Clean, SysInv;
    if n > 0 {
      BodyStaysHarmless(states, actions, n - 1);
      SystemRunKeepsInv(states, actions, n - 1);
      CleanStep(states[n - 1], actions[n - 1]);
    }
  }

  lemma {:induction false} TerminalIsFinal(states: seq<System>, actions: seq<Action>, m: nat, n: nat, id: nat)
    requires IsRun(states, actions) && m <= n <= |actions|
    requires forall k :: 0 <= k < n ==> Clean(states[k], actions[k])
    requires id in states[m].orders && Terminal(states[m].orders[id])
    ensures id in states[n].orders && states[n].orders[id] == states[m].orders[id]
    decreases n
  {
    hide Next, Enabled, Clean, SysInv, IsInitial, BodyCannotReopen;
    if m < n {
      TerminalIsFinal(states, actions, m, n - 1, id);
      BodyStaysHarmless(states, actions, n - 1);
      SystemRunKeepsInv(states, actions, n - 1);
      CleanStep(states[n - 1], actions[n - 1]);
    }
  }

  // ---------- Paths of clean steps ----------

  ghost predicate CleanPath(states: seq<System>, actions: seq<Action>) {
    IsPath(states, actions) && forall i :: 0 <= i < |actions| ==> Clean(states[i], actions[i])
  }

  /** Some clean steps lead from `s` to `t`. */
  ghost predicate Leads(s: System, t: System) {
    exists states, actions :: CleanPath(states, actions) && states[0] == s && states[|actions|] == t
  }

  lemma LeadsHere(s: System)
    ensures Leads(s, s)
  {
    var none: seq<Action> := [];
    assert CleanPath([s], none) && [s][|none|] == s;
  }

  lemma LeadsOn(s: System, t: System, a: Action)
    requires Leads(s, t) && Enabled(t, a) && Clean(t, a)
    ensures Leads(s, Next(t, a))
  {
    hide Next, Enabled, Clean;
    var states, actions :| CleanPath(states, actions) && states[0] == s && states[|actions|] == t;
    assert CleanPath(states + [Next(t, a)], actions + [a]);
  }

  lemma {:induction false} PathKeepsTerminals(states: seq<System>, actions: seq<Action>, n: nat)
    requires CleanPath(states, actions) && n <= |actions| && SysInv(states[0]) && BodyCannotReopen(states[0])
    ensures SysInv(states[n]) && BodyCannotReopen(states[n]) && TerminalsKept(states[0].orders, states[n].orders)
  {
    hide Next, Enabled, Clean, SysInv, BodyCannotReopen;
    if n > 0 {
      PathKeepsTerminals(states, actions, n - 1);
      CleanStep(states[n - 1], actions[n - 1]);
      NextKeepsInv(states[n - 1], actions[n - 1]);
    }
  }

  lemma LeadsKeepsTerminals(s: System, t: System)
    requires Leads(s, t) && SysInv(s) && BodyCannotReopen(s)
    ensures SysInv(t) && BodyCannotReopen(t) && TerminalsKept(s.orders, t.orders)
  {
    hide SysInv, BodyCannotReopen, Next, Enabled, Clean, TerminalsKept;
    var states, actions :| CleanPath(states, actions) && states[0] == s && states[|actions|] == t;
    PathKeepsTerminals(states, actions, |actions|);
  }

  lemma AwaitLeads(s: System, t: System, reply: Reply) returns (t': System)
    requires Leads(s, t) && t.body.Some? && t.past != [] && !reply.StoredButLost?
    ensures t' == BodyStep(t, reply) && Leads(s, t')
  {
    hide BodyStep, Leads;
    LeadsOn(s, t, Await(reply));
    t' := Next(t, Await(reply));
  }

  // ---------- The condition is exact ----------

  /** Past the rescue, an ended order is failed when it was fulfilled, or has another attempt counted. */
  lemma EndIsOverwritten(s: System, s1: System, id: nat, err: Err) returns (t: System)
    requires Leads(s, s1) && s1.past != [] && s1.body.Some? && s1.body.value.order.orderId == id && id in s1.orders
    requires s1.body.value.pc == AfterRescue(err) && Terminal(s1.orders[id]) && (err.fatal ==> s1.orders[id].status == FULFILLED)
    ensures Leads(s, t) && id in t.orders && t.orders[id] != s1.orders[id]
  {
    hide Leads, CallStep;
    t := AwaitLeads(s, s1, Stored);
  }

  lemma HandlerOverwritesEnd(s: System, id: nat, err: Err) returns (t: System)
    requires s.past != [] && s.body.Some? && s.body.value.order.orderId == id && id in s.orders
    requires s.body.value.pc == Failing(err) && Terminal(s.orders[id]) && (err.fatal ==> s.orders[id].status == FULFILLED)
    ensures Leads(s, t) && id in t.orders && t.orders[id] != s.orders[id]
  {
    hide Leads, WriteStep, LicenseSeen, ProvenSale;
    LeadsHere(s);
    t := AwaitLeads(s, s, Ok);
    if err.licenseExists {
      t := AwaitLeads(s, t, Threw(Err(false, false)));
    }
    t := EndIsOverwritten(s, t, id, err);
  }

  /** A lost acknowledgement of an ending write leaves a body behind that overwrites the end. */
  lemma LostEndIsOverwritten(s: System, err: Err) returns (t: System)
    requires s.past != [] && s.body.Some? && s.body.value.order.orderId in s.orders
    requires !Clean(s, Await(StoredButLost(err)))
    ensures var s1, id := BodyStep(s, StoredButLost(err)), s.body.value.order.orderId;
      && Leads(s1, t) && id in s1.orders && Terminal(s1.orders[id]) && id in t.orders && t.orders[id] != s1.orders[id]
  {
    hide Leads, CallStep;
    var s1, pc := BodyStep(s, StoredButLost(err)), s.body.value.pc;
    if pc.Deliver? && pc.rescue.Some? {
      LeadsHere(s1);
      t := EndIsOverwritten(s1, s1, s.body.value.order.orderId, pc.rescue.value);
    } else {
      t := HandlerOverwritesEnd(s1, s.body.value.order.orderId, err);
    }
  }

  /** Clean is exactly what keeps ended orders: a step is clean if and only if neither it nor any clean
      continuation of it changes a field of a fulfilled or failed order. */
  lemma CleanIsExact(s: System, a: Action)
    requires SysInv(s) && BodyCannotReopen(s) && Enabled(s, a)
    ensures Clean(s, a) <==>
      && TerminalsKept(s.orders, Next(s, a).orders)
      && forall t :: Leads(Next(s, a), t) ==> TerminalsKept(Next(s, a).orders, t.orders)
  {
    hide SysInv, Leads, BodyStep, Step;
    if Clean(s, a) {
      NextKeepsInv(s, a);
      CleanStep(s, a);
      forall t | Leads(Next(s, a), t) ensures TerminalsKept(Next(s, a).orders, t.orders) {
        LeadsKeepsTerminals(Next(s, a), t);
      }
    } else if a.PayWrite? {
      assert Next(s, a).orders[a.orderId].status == PAID;
    } else {
      var t := LostEndIsOverwritten(s, a.reply.err);
    }
  }
}
