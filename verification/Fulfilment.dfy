/** The order fulfilment protocol as a state machine: one backend process, its order store, the chain,
    and an environment that may lose replies, delay transactions, lag behind or crash the process at
    every point where the program awaits something. */
module Fulfilment {
  import opened Options
  import opened Digests
  import opened MerkleTree
  import opened Ledger
  import opened LedgerInvariants
  import opened LedgerTheorems
  import opened Orders

  const BUYER_POLLS: nat := 20
  const LICENSE_POLLS: nat := 5

  /** What the program looks for in an error's text. */
  datatype Err = Err(licenseExists: bool, fatal: bool)

  /** A circuit's refusal carries its name: three of them are final for the program. */
  function RefusalError(why: Rejection): Err {
    Err(why == LicenseExists, IsFinal(why))
  }

  /** Where a fulfil body stands: the await it is about to perform. */
  datatype Pc =
    | Claim
    | ToRegistering
    | CheckBuyer
    | Register
    | NoteRegistered
    | AwaitBuyer(polls: nat)
    | ToBuilding
    | Build
    | Resolve(found: seq<PinnedRow>)
    | Pin(json: Dataset, chosen: seq<PinnedRow>)
    | ReportEmpty
    | ToProving(rows: seq<PinnedRow>, hash: Bytes32)
    | Prove(rows: seq<PinnedRow>, hash: Bytes32)
    | Proving(rows: seq<PinnedRow>, hash: Bytes32)
    | Sent(rows: seq<PinnedRow>, hash: Bytes32)
    | NoteSold
    | ToConfirming
    | Confirm(polls: nat, rescue: Option<Err>)
    | Deliver(license: License, rescue: Option<Err>)
    | Failing(err: Err)
    | CountAttempt
    | NoteError
    | GiveUp
    | Requeue

  /** A running fulfil body: the order as read when it started, and its position. */
  datatype Body = Body(order: Order, pc: Pc)

  datatype System = System(
    orders: map<nat, Order>,          // the store
    past: seq<Chain>,                 // every state of the chain so far; the last one is current
    submitted: set<Call>,             // every transaction the backend ever handed to the network
    operator: Bytes32,                // the backend's key
    maxAttempts: int,
    queue: seq<nat>,                  // fulfil bodies waiting behind the running one
    body: Option<Body>,
    pin: Option<seq<PinnedRow>>,      // the rows the witness will read
    payReads: multiset<nat>)          // pay requests that have read CREATED and not yet written

  /** How the outside world answers the await. */
  datatype Reply =
    | Stored                                    // the write took effect and was acknowledged
    | StoredButLost(err: Err)                   // the write took effect, the caller saw an error
    | Seen(view: nat)                           // the indexer answered from past state `view`
    | Escrow(rows: seq<PinnedRow>)
    | Names(title: string, names: map<nat, string>)
    | Ok                                        // the call returned
    | OkButLost(err: Err)                       // the transaction went out, the caller saw an error
    | Threw(err: Err)                           // the call threw without effect

  datatype Action =
    | Outside(call: Call)                       // anybody else's call reaches the chain
    | Land(call: Call)                          // a submitted transaction reaches the chain
    | SubmitGrant(leaf: Bytes32)                // the grant path shares the operator wallet
    | CreateOrder(orderId: nat, chainId: nat, wallet: string, tournamentId: nat)
    | PayRead(orderId: nat)
    | PayWrite(orderId: nat)
    | Enqueue(orderId: nat)                     // pay, retry timer or boot
    | Start(readOk: bool)
    | Await(reply: Reply)
    | Crash
    | Recover(orderId: nat)                     // boot recovery of a stalled order

  // ---------- Store writes ----------

  datatype Patch =
    | SetStage(status: Status, stage: Stage)
    | SetStatus(newStatus: Status)
    | SetPins(json: Dataset, rows: seq<PinnedRow>)
    | SetDelivered(license: License)
    | AddAttempt
    | SetNote

  function Patched(o: Order, p: Patch): Order {
    match p
    case SetStage(status, stage) => o.(status := status, stage := stage)
    case SetStatus(status) => o.(status := status)
    case SetPins(json, rows) => o.(datasetJson := Some(json), datasetHash := Some(Sha256File(json)), pinnedRows := rows)
    case SetDelivered(lic) => o.(status := FULFILLED, stage := DONE, licenseId := Some(OrderLicenseId(o)),
                                 deliveredRowCount := Some(lic.rowCount), sampleAtSale := Some(lic.sampleAtSale))
    case AddAttempt => o.(attempts := o.attempts + 1)
    case SetNote => o
  }

  /** The store write a body performs at `pc`, if that await is one. */
  function WriteAt(pc: Pc): Option<Patch> {
    match pc
    case Claim => Some(SetStage(FULFILLING, QUEUED))
    case ToRegistering => Some(SetStage(FULFILLING, REGISTERING))
    case NoteRegistered => Some(SetNote)
    case ToBuilding => Some(SetStage(FULFILLING, BUILDING))
    case Pin(json, chosen) => Some(SetPins(json, chosen))
    case ReportEmpty => Some(SetStatus(FAILED))
    case ToProving(_, _) => Some(SetStage(FULFILLING, PROVING))
    case NoteSold => Some(SetNote)
    case ToConfirming => Some(SetStage(FULFILLING, CONFIRMING))
    case Deliver(license, _) => Some(SetDelivered(license))
    case CountAttempt => Some(AddAttempt)
    case NoteError => Some(SetNote)
    case GiveUp => Some(SetStatus(FAILED))
    case Requeue => Some(SetStage(PAID, QUEUED))
    case _ => None
  }

  /** Where the body goes once that write is acknowledged; None when the body is over. */
  function AfterWrite(b: Body, maxAttempts: int): Option<Pc> {
    match b.pc
    case Claim => Some(ToRegistering)
    case ToRegistering => Some(CheckBuyer)
    case NoteRegistered => Some(AwaitBuyer(0))
    case ToBuilding => Some(Build)
    case Pin(json, chosen) => Some(ToProving(chosen, Sha256File(json)))
    case ToProving(rows, hash) => Some(Prove(rows, hash))
    case NoteSold => Some(ToConfirming)
    case ToConfirming => Some(Confirm(0, None))
    case CountAttempt => Some(NoteError)
    case NoteError => Some(if b.order.attempts + 1 >= maxAttempts then GiveUp else Requeue)
    case _ => None
  }

  /** Where an error thrown at `pc` is caught: inside the try block it goes to the failure handler; the
      rescue confirmation swallows it; in the claim and in the handler itself it ends the body. */
  function Caught(pc: Pc, err: Err): Option<Pc> {
    match pc
    case Claim | CountAttempt | NoteError | GiveUp | Requeue => None
    case Confirm(_, rescue) => Some(ConfirmHandler(rescue, err))
    case Deliver(_, rescue) => Some(ConfirmHandler(rescue, err))
    case _ => Some(Failing(err))
  }

  /** The rescue confirmation resumes handling the original error. */
  function ConfirmHandler(rescue: Option<Err>, err: Err): Pc {
    if rescue.Some? then AfterRescue(rescue.value) else Failing(err)
  }

  function AfterRescue(err: Err): Pc {
    if err.fatal then GiveUp else CountAttempt
  }

  // ---------- Body steps ----------

  function Now(s: System): Chain
    requires s.past != []
  {
    s.past[|s.past| - 1]
  }

  function Goto(s: System, pc: Option<Pc>): System
    requires s.body.Some?
  {
    s.(body := if pc.Some? then Some(s.body.value.(pc := pc.value)) else None)
  }

  /** An error ends the proof call, which drops the in-memory pin, and moves to its handler. */
  function Throw(s: System, err: Err): System
    requires s.body.Some?
  {
    Goto(s.(pin := None), Caught(s.body.value.pc, err))
  }

  function Store(s: System, p: Patch): System
    requires s.body.Some?
  {
    var id := s.body.value.order.orderId;
    if id in s.orders then s.(orders := s.orders[id := Patched(s.orders[id], p)]) else s
  }

  function Submit(s: System, call: Call): System {
    s.(submitted := s.submitted + {call})
  }

  function WriteStep(s: System, p: Patch, reply: Reply): System
    requires s.body.Some?
  {
    match reply
    case Stored => Goto(Store(s, p), AfterWrite(s.body.value, s.maxAttempts))
    case StoredButLost(err) => Throw(Store(s, p), err)
    case Threw(err) => Throw(s, err)
    case _ => s
  }

  /** Polling the indexer for the buyer's key or the license; `polls` answers have been negative. */
  function PollStep(s: System, found: Option<Pc>, again: Pc, polls: nat, limit: nat): System
    requires s.body.Some?
  {
    if found.Some? then Goto(s, found)
    else if polls + 1 < limit then Goto(s, Some(again))
    else Throw(s, Err(false, false))
  }

  function LicenseSeen(s: System, view: nat, o: Order): Option<License>
    requires view < |s.past|
  {
    var licenses := s.past[view].cells.licenses;
    if OrderLicenseId(o) in licenses then Some(licenses[OrderLicenseId(o)]) else None
  }

  function BuyerSeen(s: System, view: nat, o: Order): bool
    requires view < |s.past|
  {
    o.buyerPk in s.past[view].cells.buyers
  }

  /** Proving runs the sale on one view of the ledger, and the witness reads the in-memory pin. */
  function ProvenSale(s: System, view: nat, o: Order, hash: Bytes32): Proof
    requires view < |s.past|
  {
    ProveSale(s.past[view].cells, s.operator, o, hash, s.pin)
  }

  /** The reads, calls and local decisions of a body. */
  function CallStep(s: System, reply: Reply): System
    requires s.body.Some?
  {
    var b := s.body.value;
    match (b.pc, reply)
    case (CheckBuyer, Seen(view)) =>
      if view >= |s.past| then s
      else Goto(s, Some(if BuyerSeen(s, view, b.order) then ToBuilding else Register))
    case (Register, Ok) => Goto(Submit(s, RegisterBuyer(s.operator, b.order.buyerPk)), Some(NoteRegistered))
    case (Register, OkButLost(err)) => Throw(Submit(s, RegisterBuyer(s.operator, b.order.buyerPk)), err)
    case (AwaitBuyer(polls), Seen(view)) =>
      if view >= |s.past| then s
      else PollStep(s, if BuyerSeen(s, view, b.order) then Some(ToBuilding) else None, AwaitBuyer(polls + 1), polls, BUYER_POLLS)
    case (Build, Escrow(rows)) =>
      if IsPinned(b.order) then Goto(s, Some(ToProving(b.order.pinnedRows, b.order.datasetHash.value)))
      else Goto(s, Some(if rows == [] then ReportEmpty else Resolve(Batch(rows))))
    case (Resolve(found), Names(title, names)) =>
      Goto(s, Some(Pin(CanonicalDataset(b.order.tournamentId, title, b.order.orderId, ResolveItemNames(found, names)), found)))
    case (Prove(rows, hash), Ok) => Goto(s.(pin := Some(rows)), Some(Proving(rows, hash)))
    case (Proving(rows, hash), Seen(view)) =>
      if view >= |s.past| then s
      else
        (match ProvenSale(s, view, b.order, hash)
         case Proven(sale) => Goto(Submit(s, SellRows(s.operator, sale)), Some(Sent(rows, hash)))
         case Refused(why) => Throw(s, RefusalError(why))
         case WitnessThrew => Throw(s, Err(false, false)))
    case (Sent(_, _), Ok) => Goto(s.(pin := None), Some(NoteSold))
    case (Confirm(polls, rescue), Seen(view)) =>
      if view >= |s.past| then s
      else
        var lic := LicenseSeen(s, view, b.order);
        PollStep(s, if lic.Some? then Some(Deliver(lic.value, rescue)) else None, Confirm(polls + 1, rescue), polls, LICENSE_POLLS)
    case (Failing(err), Ok) => Goto(s, Some(if err.licenseExists then Confirm(0, Some(err)) else AfterRescue(err)))
    case (Failing(_), _) => s
    case (_, Threw(err)) => Throw(s, err)
    case _ => s
  }

  function BodyStep(s: System, reply: Reply): System
    requires s.body.Some?
  {
    var p := WriteAt(s.body.value.pc);
    if p.Some? then WriteStep(s, p.value, reply) else CallStep(s, reply)
  }

  // ---------- All steps ----------

  function OnChain(s: System, call: Call): System
    requires s.past != []
  {
    s.(past := s.past + [Step(Now(s), call)])
  }

  function SetOrderStatus(s: System, id: nat, status: Status, stage: Stage): System
    requires id in s.orders
  {
    s.(orders := s.orders[id := s.orders[id].(status := status, stage := stage)])
  }

  function StartNext(s: System, readOk: bool): System
    requires s.queue != []
  {
    var id := s.queue[0];
    var rest := s.(queue := s.queue[1..]);
    if readOk && id in s.orders && s.orders[id].status == PAID
    then rest.(body := Some(Body(s.orders[id], Claim)))
    else rest
  }

  /** When an action can happen.  Only the backend sells with the signer's key; order ids are fresh;
      recovery resets orders that no running body works on. */
  predicate Enabled(s: System, a: Action) {
    s.past != [] &&
    match a
    case Outside(call) => call.SellRows? ==> call.caller != Now(s).cells.finalizeSigner
    case Land(call) => call in s.submitted
    case SubmitGrant(_) => true
    case CreateOrder(id, _, _, _) => id !in s.orders
    case PayRead(id) => id in s.orders && s.orders[id].status == CREATED
    case PayWrite(id) => id in s.orders && id in s.payReads
    case Enqueue(_) => true
    case Start(_) => s.body.None? && s.queue != []
    case Await(_) => s.body.Some?
    case Crash => true
    case Recover(id) => id in s.orders && s.orders[id].status == FULFILLING && (s.body.Some? ==> s.body.value.order.orderId != id)
  }

  function Next(s: System, a: Action): System
    requires Enabled(s, a)
  {
    match a
    case Outside(call) => OnChain(s, call)
    case Land(call) => OnChain(s, call)
    case SubmitGrant(leaf) => Submit(s, Grant(s.operator, leaf))
    case CreateOrder(id, chainId, wallet, t) => s.(orders := s.orders[id := NewOrder(id, chainId, wallet, t)])
    case PayRead(id) => s.(payReads := s.payReads + multiset{id})
    case PayWrite(id) => SetOrderStatus(s, id, PAID, QUEUED).(payReads := s.payReads - multiset{id}, queue := s.queue + [id])
    case Enqueue(id) => s.(queue := s.queue + [id])
    case Start(readOk) => StartNext(s, readOk)
    case Await(reply) => BodyStep(s, reply)
    case Crash => s.(queue := [], body := None, pin := None, payReads := multiset{})
    case Recover(id) => SetOrderStatus(s, id, PAID, QUEUED)
  }

  predicate IsInitial(s: System) {
    s.orders == map[] && s.submitted == {} && s.queue == [] && s.body == None && s.pin == None && s.payReads == multiset{}
    && |s.past| == 1 && IsGenesis(s.past[0].cells) && s.past[0] == Chain(s.past[0].cells, [], map[])
  }

  /** Each action is enabled in the state it meets and leads to the next one. */
  ghost predicate IsPath(states: seq<System>, actions: seq<Action>) {
    && |states| == |actions| + 1
    && forall i :: 0 <= i < |actions| ==> Enabled(states[i], actions[i]) && states[i + 1] == Next(states[i], actions[i])
  }

  /** A run is a path from a start state. */
  ghost predicate IsRun(states: seq<System>, actions: seq<Action>) {
    IsPath(states, actions) && IsInitial(states[0])
  }
}
