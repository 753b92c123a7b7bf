/** The fulfil program itself: the straight-line body with its try block, polling loops and failure
    handler, run against the protocol state machine.

    Every await is one step of the machine, and each method requires and ensures the machine position it
    stands at, so the program's control flow is proved to be the protocol's.  Before every await anything
    else may happen, any number of times: transactions land, other orders are placed, paid, queued and
    recovered.  Here calls return or throw and store writes are acknowledged; crashes and lost replies are
    the protocol's business. */
module FulfilService {
  import opened Options
  import opened Digests
  import opened MerkleTree
  import opened Ledger
  import opened Orders
  import opened HexCodec
  import opened Fulfilment
  import opened FulfilmentInvariants
  import opened FulfilmentTheorems
  import opened TerminalOrders
  import opened Retries

  /** The operator's sale witness: pinned rows, padded with absent slots. */
  method EscrowRows(pinned: Option<seq<PinnedRow>>, tree: HistoricTree) returns (rows: Option<seq<EscrowRow>>)
    ensures rows.Some? <==> pinned.Some? && pinned.value != [] && RowsEncode(Batch(pinned.value))
    ensures rows.Some? ==> rows.value == WitnessRows(Batch(pinned.value), tree)
  {
    hide WitnessRow, Bytes32Of, Padded;
    if pinned.None? || pinned.value == [] { return None; }
    var batch := Batch(pinned.value);
    var out: seq<EscrowRow> := [];
    for i := 0 to |batch|
      invariant |out| == i
      invariant forall k :: 0 <= k < i ==> RowEncodes(batch[k]) && out[k] == WitnessRow(batch[k], tree)
    {
      assert batch[i] in batch;
      if !BracketSizeOk(|batch[i].bracket|) { return None; }
      var segment := Pad32(batch[i].segment);
      if segment.None? { return None; }
      var salt := Bytes32Of(batch[i].salt);
      if salt.None? { return None; }
      out := out + [WitnessRow(batch[i], tree)];
    }
    while |out| < ROW_SLOTS
      invariant |batch| <= |out| <= ROW_SLOTS
      invariant forall k :: 0 <= k < |batch| ==> out[k] == WitnessRow(batch[k], tree)
      invariant forall k :: |batch| <= k < |out| ==> out[k] == ABSENT_ROW
    {
      out := out + [ABSENT_ROW];
    }
    return Some(out);
  }

  /** Thirty seconds, two minutes, eight minutes. */
  const BACKOFF_MS: seq<nat> := [30_000, 120_000, 480_000]

  /** What the world does while the program waits: no step of a body, no start, no crash. */
  predicate ByOthers(s: System, a: Action) {
    Clean(s, a) && !a.Await? && !a.Start? && !a.Crash?
  }

  /** Nobody but the body disturbs an order: those that wait as paid, other than the body's own, keep
      waiting, and the queue only grows. */
  ghost predicate Elsewhere(s: System, s': System, busy: Option<nat>) {
    && s'.maxAttempts == s.maxAttempts && s.queue <= s'.queue
    && forall i <- s.orders :: s.orders[i].status == PAID && busy != Some(i) ==>
         i in s'.orders && s'.orders[i].status == PAID && s'.orders[i].attempts == s.orders[i].attempts
  }

  lemma ElsewhereHere(s: System, busy: Option<nat>)
    ensures Elsewhere(s, s, busy)
  {
  }

  lemma ElsewhereTrans(s: System, s1: System, s2: System, busy: Option<nat>)
    requires Elsewhere(s, s1, busy) && Elsewhere(s1, s2, busy)
    ensures Elsewhere(s, s2, busy)
  {
  }

  lemma OthersAreElsewhere(s: System, a: Action, busy: Option<nat>)
    requires Enabled(s, a) && ByOthers(s, a) && SysInv(s) && BodyIsLive(s)
    ensures var s' := Next(s, a);
      && Elsewhere(s, s', busy) && s'.maxAttempts == s.maxAttempts && SysInv(s') && BodyIsLive(s') && s'.body == s.body && s'.past != []
      && (s.body.Some? ==> var id := s.body.value.order.orderId;
            id in s'.orders && s'.orders[id].attempts == s.orders[id].attempts)
  {
    hide Next, SysInv, Enabled, Clean;
    NextKeepsInv(s, a);
    PastIsThere(Next(s, a));
    forall i | i in s.orders ensures OthersLeave(s, a, i) {
      OthersTouchLittle(s, a, i);
    }
    if s.body.Some? { assert OthersLeave(s, a, s.body.value.order.orderId); }
    QueueGrows(s, a);
  }

  predicate OthersLeave(s: System, a: Action, i: nat)
    requires Enabled(s, a) && i in s.orders
  {
    var s' := Next(s, a);
    && s'.body == s.body && i in s'.orders && s'.orders[i].attempts == s.orders[i].attempts
    && (s'.orders[i].status == s.orders[i].status || (s'.orders[i].status == PAID && !Terminal(s.orders[i])))
  }

  lemma PastIsThere(s: System)
    requires SysInv(s)
    ensures s.past != []
  {
    hide DurableInv, BodyOk;
  }

  lemma QueueGrows(s: System, a: Action)
    requires Enabled(s, a) && ByOthers(s, a)
    ensures s.queue <= Next(s, a).queue && Next(s, a).maxAttempts == s.maxAttempts && Next(s, a).body == s.body
  {
    hide Step;
  }

  /** A step of the body is seen by its own order only. */
  lemma BodyIsElsewhere(s: System, reply: Reply)
    requires s.body.Some? && s.body.value.order.orderId in s.orders
    ensures Elsewhere(s, BodyStep(s, reply), Some(s.body.value.order.orderId))
  {
    hide CallStep, Patched, WriteAt, AfterWrite, Caught;
    if WriteAt(s.body.value.pc).None? {
      CallsWriteNothing(s, reply);
      CallsKeepConfig(s, reply);
    }
  }

  class FulfillService {
    var sys: System

    constructor (s: System)
      ensures sys == s
    {
      sys := s;
    }

    ghost predicate Valid()
      reads this
    {
      SysInv(sys) && BodyIsLive(sys) && sys.past != []
    }

    /** The running body stands at `pc`, with `order` as its snapshot and `attempts` failures stored. */
    ghost predicate Stands(order: Order, pc: Pc, attempts: nat)
      reads this
    {
      && Valid() && sys.body == Some(Body(order, pc))
      && order.orderId in sys.orders && sys.orders[order.orderId].attempts == attempts
    }

    /** The same before the body counts a failure. */
    ghost predicate At(order: Order, pc: Pc)
      reads this
    {
      Stands(order, pc, order.attempts)
    }

    /** The body is over and left its order at `status` after `attempts` counted failures. */
    ghost predicate Left(order: Order, status: Status, attempts: nat)
      reads this
    {
      && Valid() && sys.body == None
      && order.orderId in sys.orders && sys.orders[order.orderId].attempts == attempts
      && sys.orders[order.orderId].status == status
    }

    // ---------- Waiting ----------

    /** Any number of other things happen while the body waits. */
    method Meanwhile(ghost order: Order, ghost pc: Pc, ghost attempts: nat)
      requires Stands(order, pc, attempts)
      modifies this
      ensures Stands(order, pc, attempts) && sys.maxAttempts == old(sys.maxAttempts)
      ensures Elsewhere(old(sys), sys, Some(order.orderId))
    {
      hide SysInv, BodyIsLive, ByOthers, Elsewhere, Next, Enabled;
      ghost var s0 := sys;
      ElsewhereHere(sys, Some(order.orderId));
      var steps: int := *;
      while steps > 0
        invariant Stands(order, pc, attempts) && sys.maxAttempts == s0.maxAttempts
        invariant Elsewhere(s0, sys, Some(order.orderId))
      {
        var a: Action := *;
        if Enabled(sys, a) && ByOthers(sys, a) {
          OthersAreElsewhere(sys, a, Some(order.orderId));
          ElsewhereTrans(s0, sys, Next(sys, a), Some(order.orderId));
          sys := Next(sys, a);
        }
        steps := steps - 1;
      }
    }

    /** The same while no body runs. */
    method Wait()
      requires Valid() && sys.body.None?
      modifies this
      ensures Valid() && sys.body.None? && sys.maxAttempts == old(sys.maxAttempts) && Elsewhere(old(sys), sys, None)
    {
      hide SysInv, BodyIsLive, ByOthers, Elsewhere, Next, Enabled;
      ghost var s0 := sys;
      ElsewhereHere(sys, None);
      var steps: int := *;
      while steps > 0
        invariant Valid() && sys.body.None? && sys.maxAttempts == s0.maxAttempts && Elsewhere(s0, sys, None)
      {
        var a: Action := *;
        if Enabled(sys, a) && ByOthers(sys, a) {
          OthersAreElsewhere(sys, a, None);
          ElsewhereTrans(s0, sys, Next(sys, a), None);
          sys := Next(sys, a);
        }
        steps := steps - 1;
      }
    }

    // ---------- Single awaits ----------

    /** A store write at a position the body does not leave by it. */
    method Write(ghost order: Order, ghost pc: Pc, ghost next: Pc)
      requires WriteAt(pc).Some? && !pc.CountAttempt? && AfterWrite(Body(order, pc), sys.maxAttempts) == Some(next)
      requires At(order, pc)
      modifies this
      ensures At(order, next) && sys.maxAttempts == old(sys.maxAttempts)
      ensures Elsewhere(old(sys), sys, Some(order.orderId))
    {
      hide SysInv, CallStep, Elsewhere, BodyIsLive;
      ghost var s0 := sys;
      Meanwhile(order, pc, order.attempts);
      BodyActs(s0, sys, Stored);
      sys := BodyStep(sys, Stored);
    }

    /** The last store write of a body. */
    method LastWrite(ghost order: Order, ghost pc: Pc, ghost attempts: nat)
      requires Stands(order, pc, attempts) && (pc.ReportEmpty? || pc.Deliver? || pc.GiveUp? || pc.Requeue?)
      modifies this
      ensures Left(order, if pc.Deliver? then FULFILLED else if pc.Requeue? then PAID else FAILED, attempts)
      ensures sys.maxAttempts == old(sys.maxAttempts) && Elsewhere(old(sys), sys, Some(order.orderId))
    {
      hide SysInv, CallStep, Elsewhere, BodyIsLive;
      ghost var s0 := sys;
      Meanwhile(order, pc, attempts);
      BodyActs(s0, sys, Stored);
      sys := BodyStep(sys, Stored);
    }

    /** The failure handler's count of this attempt. */
    method CountTheAttempt(ghost order: Order)
      requires At(order, CountAttempt)
      modifies this
      ensures Stands(order, NoteError, order.attempts + 1)
      ensures sys.maxAttempts == old(sys.maxAttempts) && Elsewhere(old(sys), sys, Some(order.orderId))
    {
      hide SysInv, CallStep, Elsewhere, BodyIsLive;
      ghost var s0 := sys;
      Meanwhile(order, CountAttempt, order.attempts);
      BodyActs(s0, sys, Stored);
      sys := BodyStep(sys, Stored);
    }

    method NoteTheError(ghost order: Order)
      requires Stands(order, NoteError, order.attempts + 1)
      modifies this
      ensures Stands(order, if order.attempts + 1 >= sys.maxAttempts then GiveUp else Requeue, order.attempts + 1)
      ensures sys.maxAttempts == old(sys.maxAttempts) && Elsewhere(old(sys), sys, Some(order.orderId))
    {
      hide SysInv, CallStep, Elsewhere, BodyIsLive;
      ghost var s0 := sys;
      Meanwhile(order, NoteError, order.attempts + 1);
      BodyActs(s0, sys, Stored);
      sys := BodyStep(sys, Stored);
    }

    /** A call answers or throws any error. */
    method Respond(plain: Reply) returns (reply: Reply)
      ensures reply == plain || reply.Threw?
    {
      if * {
        var licenseExists: bool, fatal: bool := *, *;
        return Threw(Err(licenseExists, fatal));
      }
      return plain;
    }

    /** The indexer answers from any past state of the chain, or the read throws. */
    method Ask() returns (reply: Reply)
      requires sys.past != []
      ensures reply.Threw? || (reply.Seen? && reply.view < |sys.past|)
    {
      var view :| 0 <= view < |sys.past|;
      reply := Respond(Seen(view));
    }

    /** A read, call or decision of the body, with no wait of its own. */
    method Call(ghost order: Order, ghost pc: Pc, reply: Reply)
      requires At(order, pc) && WriteAt(pc).None? && !reply.StoredButLost?
      modifies this
      ensures sys == CallStep(old(sys), reply) && Valid()
      ensures sys.body.Some? ==> At(order, sys.body.value.pc)
      ensures sys.maxAttempts == old(sys.maxAttempts) && Elsewhere(old(sys), sys, Some(order.orderId))
    {
      hide SysInv, CallStep, WriteStep, Elsewhere, BodyIsLive;
      ElsewhereHere(sys, Some(order.orderId));
      BodyActs(sys, sys, reply);
      CallsWriteNothing(sys, reply);
      CallsKeepTheBodysOrder(sys, reply);
      CallsKeepConfig(sys, reply);
      sys := BodyStep(sys, reply);
    }

    // ---------- The stages of a body ----------

    /** Registering: done when the indexer shows the buyer's key, at once or within twenty polls. */
    method RegisterIfNeeded(ghost order: Order) returns (thrown: Option<Err>)
      requires At(order, CheckBuyer)
      modifies this
      ensures thrown.None? ==> At(order, ToBuilding)
      ensures thrown.Some? ==> At(order, Failing(thrown.value))
      ensures sys.maxAttempts == old(sys.maxAttempts) && Elsewhere(old(sys), sys, Some(order.orderId))
    {
      hide SysInv, CallStep, BodyIsLive, Elsewhere;
      ghost var s0 := sys;
      var reply := AskFor(order, CheckBuyer);
      ghost var s1 := sys;
      RegisterMoves(sys, reply);
      Call(order, CheckBuyer, reply);
      ElsewhereTrans(s0, s1, sys, Some(order.orderId));
      if reply.Threw? { return Some(reply.err); }
      if sys.body.value.pc.ToBuilding? { return None; }
      s1 := sys;
      thrown := RegisterAndWait(order);
      ElsewhereTrans(s0, s1, sys, Some(order.orderId));
    }

    /** Waiting, then asking the indexer. */
    method AskFor(ghost order: Order, ghost pc: Pc) returns (reply: Reply)
      requires At(order, pc)
      modifies this
      ensures At(order, pc) && (reply.Threw? || (reply.Seen? && reply.view < |sys.past|))
      ensures sys.maxAttempts == old(sys.maxAttempts) && Elsewhere(old(sys), sys, Some(order.orderId))
    {
      hide SysInv, BodyIsLive, Elsewhere;
      Meanwhile(order, pc, order.attempts);
      reply := Ask();
    }

    method RegisterAndWait(ghost order: Order) returns (thrown: Option<Err>)
      requires At(order, Register)
      modifies this
      ensures thrown.None? ==> At(order, ToBuilding)
      ensures thrown.Some? ==> At(order, Failing(thrown.value))
      ensures sys.maxAttempts == old(sys.maxAttempts) && Elsewhere(old(sys), sys, Some(order.orderId))
    {
      hide SysInv, CallStep, BodyIsLive, Elsewhere;
      ghost var s0 := sys;
      Meanwhile(order, Register, order.attempts);
      ghost var s1 := sys;
      var reply := Respond(Ok);
      RegisterMoves(sys, reply);
      Call(order, Register, reply);
      ElsewhereTrans(s0, s1, sys, Some(order.orderId));
      if reply.Threw? { return Some(reply.err); }
      s1 := sys;
      Write(order, NoteRegistered, AwaitBuyer(0));
      ElsewhereTrans(s0, s1, sys, Some(order.orderId));
      for i: nat := 0 to 20
        invariant sys.maxAttempts == s0.maxAttempts && Elsewhere(s0, sys, Some(order.orderId))
        invariant At(order, if i < 20 then AwaitBuyer(i) else Failing(Err(false, false)))
      {
        s1 := sys;
        reply := AskFor(order, AwaitBuyer(i));
        ElsewhereTrans(s0, s1, sys, Some(order.orderId));
        s1 := sys;
        RegisterMoves(sys, reply);
        Call(order, AwaitBuyer(i), reply);
        ElsewhereTrans(s0, s1, sys, Some(order.orderId));
        if reply.Threw? { return Some(reply.err); }
        if sys.body.value.pc.ToBuilding? { return None; }
      }
      return Some(Err(false, false));
    }

    /** Building: reuse the pins of an earlier attempt, or pin what the store holds now; nothing to sell
        fails the order. */
    method BuildOrReuseDataset(order: Order) returns (thrown: Option<Err>)
      requires At(order, Build)
      modifies this
      ensures thrown.Some? ==> At(order, Failing(thrown.value))
      ensures thrown.None? && sys.body.None? ==> Left(order, FAILED, order.attempts)
      ensures thrown.None? && sys.body.Some? ==> sys.body.value.pc.ToProving? && At(order, sys.body.value.pc)
      ensures sys.maxAttempts == old(sys.maxAttempts) && Elsewhere(old(sys), sys, Some(order.orderId))
    {
      hide SysInv, CallStep, BodyIsLive, Elsewhere;
      ghost var s0 := sys;
      Meanwhile(order, Build, order.attempts);
      ghost var s1 := sys;
      var escrow: seq<PinnedRow> := *;
      var reply := Respond(Escrow(escrow));
      BuildMoves(sys, reply);
      Call(order, Build, reply);
      ElsewhereTrans(s0, s1, sys, Some(order.orderId));
      if reply.Threw? { return Some(reply.err); }
      s1 := sys;
      if sys.body.value.pc.ReportEmpty? {
        LastWrite(order, ReportEmpty, order.attempts);
        ElsewhereTrans(s0, s1, sys, Some(order.orderId));
        return None;
      }
      if sys.body.value.pc.ToProving? { return None; }
      thrown := ResolveAndPin(order);
      ElsewhereTrans(s0, s1, sys, Some(order.orderId));
    }

    method ResolveAndPin(ghost order: Order) returns (thrown: Option<Err>)
      requires sys.body.Some? && sys.body.value.pc.Resolve? && At(order, sys.body.value.pc)
      modifies this
      ensures thrown.Some? ==> At(order, Failing(thrown.value))
      ensures thrown.None? ==> sys.body.Some? && sys.body.value.pc.ToProving? && At(order, sys.body.value.pc)
      ensures sys.maxAttempts == old(sys.maxAttempts) && Elsewhere(old(sys), sys, Some(order.orderId))
    {
      hide SysInv, CallStep, BodyIsLive, Elsewhere;
      ghost var s0, pc := sys, sys.body.value.pc;
      Meanwhile(order, pc, order.attempts);
      ghost var s1 := sys;
      var title: string, names: map<nat, string> := *, *;
      var reply := Respond(Names(title, names));
      BuildMoves(sys, reply);
      Call(order, pc, reply);
      ElsewhereTrans(s0, s1, sys, Some(order.orderId));
      if reply.Threw? { return Some(reply.err); }
      s1 := sys;
      pc := sys.body.value.pc;
      Write(order, pc, ToProving(pc.chosen, Sha256File(pc.json)));
      ElsewhereTrans(s0, s1, sys, Some(order.orderId));
      return None;
    }

    /** Proving: the in-memory pin is set for the proof call and gone after it, however it ends. */
    method SellRows(ghost order: Order) returns (thrown: Option<Err>)
      requires sys.body.Some? && sys.body.value.pc.Prove? && At(order, sys.body.value.pc)
      modifies this
      ensures sys.pin == None
      ensures thrown.None? ==> At(order, NoteSold)
      ensures thrown.Some? ==> At(order, Failing(thrown.value))
      ensures sys.maxAttempts == old(sys.maxAttempts) && Elsewhere(old(sys), sys, Some(order.orderId))
    {
      hide CallStep, BodyIsLive, DurableInv, BodyOk, Elsewhere;
      ghost var s0 := sys;
      Meanwhile(order, sys.body.value.pc, order.attempts);
      ghost var s1 := sys;
      var reply := Respond(Ok);
      SellMoves(sys, reply);
      Call(order, sys.body.value.pc, reply);
      ElsewhereTrans(s0, s1, sys, Some(order.orderId));
      if reply.Threw? { return Some(reply.err); }
      s1 := sys;
      thrown := Prove(order);
      ElsewhereTrans(s0, s1, sys, Some(order.orderId));
    }

    /** The circuit is run on one view of the ledger, at any time during the call; what it refuses ends the
        call, and the sale it proves may land while the call is open. */
    method Prove(ghost order: Order) returns (thrown: Option<Err>)
      requires sys.body.Some? && sys.body.value.pc.Proving? && At(order, sys.body.value.pc)
      modifies this
      ensures sys.pin == None
      ensures thrown.None? ==> At(order, NoteSold)
      ensures thrown.Some? ==> At(order, Failing(thrown.value))
      ensures sys.maxAttempts == old(sys.maxAttempts) && Elsewhere(old(sys), sys, Some(order.orderId))
    {
      hide CallStep, BodyIsLive, DurableInv, BodyOk, Elsewhere;
      ghost var s0 := sys;
      var reply := AskFor(order, sys.body.value.pc);
      ghost var s1 := sys;
      SellMoves(sys, reply);
      Call(order, sys.body.value.pc, reply);
      ElsewhereTrans(s0, s1, sys, Some(order.orderId));
      if sys.body.value.pc.Failing? { return Some(sys.body.value.pc.err); }
      s1 := sys;
      Meanwhile(order, sys.body.value.pc, order.attempts);
      ElsewhereTrans(s0, s1, sys, Some(order.orderId));
      s1 := sys;
      reply := Respond(Ok);
      SellMoves(sys, reply);
      Call(order, sys.body.value.pc, reply);
      ElsewhereTrans(s0, s1, sys, Some(order.orderId));
      if reply.Threw? { return Some(reply.err); }
      return None;
    }

    method ConfirmLicense(ghost order: Order, ghost rescue: Option<Err>) returns (thrown: Option<Err>)
      requires At(order, Confirm(0, rescue))
      modifies this
      ensures thrown.None? ==> Left(order, FULFILLED, order.attempts)
      ensures thrown.Some? ==> At(order, ConfirmHandler(rescue, thrown.value))
      ensures sys.maxAttempts == old(sys.maxAttempts) && Elsewhere(old(sys), sys, Some(order.orderId))
    {
      hide SysInv, CallStep, BodyIsLive, Elsewhere;
      ghost var s0 := sys;
      ElsewhereHere(s0, Some(order.orderId));
      for i: nat := 0 to 5
        invariant sys.maxAttempts == s0.maxAttempts && Elsewhere(s0, sys, Some(order.orderId))
        invariant At(order, if i < 5 then Confirm(i, rescue) else ConfirmHandler(rescue, Err(false, false)))
      {
        ghost var s1 := sys;
        var reply := AskFor(order, Confirm(i, rescue));
        ElsewhereTrans(s0, s1, sys, Some(order.orderId));
        s1 := sys;
        ConfirmMoves(sys, reply);
        Call(order, Confirm(i, rescue), reply);
        ElsewhereTrans(s0, s1, sys, Some(order.orderId));
        if reply.Threw? { return Some(reply.err); }
        if sys.body.value.pc.Deliver? {
          s1 := sys;
          LastWrite(order, sys.body.value.pc, order.attempts);
          ElsewhereTrans(s0, s1, sys, Some(order.orderId));
          return None;
        }
      }
      return Some(Err(false, false));
    }

    method SellAndConfirm(ghost order: Order) returns (thrown: Option<Err>)
      requires sys.body.Some? && sys.body.value.pc.ToProving? && At(order, sys.body.value.pc)
      modifies this
      ensures thrown.None? ==> Left(order, FULFILLED, order.attempts)
      ensures thrown.Some? ==> At(order, Failing(thrown.value))
      ensures sys.maxAttempts == old(sys.maxAttempts) && Elsewhere(old(sys), sys, Some(order.orderId))
    {
      hide SysInv, CallStep, BodyIsLive, Elsewhere;
      ghost var s0, pc := sys, sys.body.value.pc;
      Write(order, pc, Fulfilment.Prove(pc.rows, pc.hash));
      ghost var s1 := sys;
      thrown := SellRows(order);
      ElsewhereTrans(s0, s1, sys, Some(order.orderId));
      if thrown.Some? { return; }
      s1 := sys;
      Write(order, NoteSold, ToConfirming);
      ElsewhereTrans(s0, s1, sys, Some(order.orderId));
      s1 := sys;
      Write(order, ToConfirming, Confirm(0, None));
      ElsewhereTrans(s0, s1, sys, Some(order.orderId));
      s1 := sys;
      thrown := ConfirmLicense(order, None);
      ElsewhereTrans(s0, s1, sys, Some(order.orderId));
    }

    /** The try block of the body. */
    method TryFulfill(order: Order) returns (thrown: Option<Err>)
      requires At(order, ToRegistering)
      modifies this
      ensures thrown.None? ==> Left(order, FULFILLED, order.attempts) || Left(order, FAILED, order.attempts)
      ensures thrown.Some? ==> At(order, Failing(thrown.value))
      ensures sys.maxAttempts == old(sys.maxAttempts) && Elsewhere(old(sys), sys, Some(order.orderId))
    {
      hide SysInv, CallStep, BodyIsLive, Elsewhere;
      ghost var s0 := sys;
      Write(order, ToRegistering, CheckBuyer);
      ghost var s1 := sys;
      thrown := RegisterIfNeeded(order);
      ElsewhereTrans(s0, s1, sys, Some(order.orderId));
      if thrown.Some? { return; }
      s1 := sys;
      Write(order, ToBuilding, Build);
      ElsewhereTrans(s0, s1, sys, Some(order.orderId));
      s1 := sys;
      thrown := BuildOrReuseDataset(order);
      ElsewhereTrans(s0, s1, sys, Some(order.orderId));
      if thrown.Some? || sys.body.None? { return; }
      s1 := sys;
      thrown := SellAndConfirm(order);
      ElsewhereTrans(s0, s1, sys, Some(order.orderId));
    }

    /** The catch block: an existing license is this order's own earlier success; a circuit's refusal is
        final; anything else is counted and retried until the attempts are used up. */
    method HandleFailure(order: Order, err: Err) returns (retryIn: Option<nat>)
      requires At(order, Failing(err))
      modifies this
      ensures Answered(order, err, retryIn)
      ensures sys.maxAttempts == old(sys.maxAttempts) && Elsewhere(old(sys), sys, Some(order.orderId))
    {
      hide SysInv, CallStep, BodyIsLive, Elsewhere;
      ghost var s0 := sys;
      FailingMoves(sys);
      Call(order, Failing(err), Ok);
      if err.licenseExists {
        ghost var s1 := sys;
        var thrown := ConfirmLicense(order, Some(err));
        ElsewhereTrans(s0, s1, sys, Some(order.orderId));
        if thrown.None? { return None; }
      }
      ghost var s1 := sys;
      retryIn := CountOrGiveUp(order, err);
      ElsewhereTrans(s0, s1, sys, Some(order.orderId));
    }

    method CountOrGiveUp(order: Order, err: Err) returns (retryIn: Option<nat>)
      requires At(order, AfterRescue(err))
      modifies this
      ensures Answered(order, err, retryIn)
      ensures sys.maxAttempts == old(sys.maxAttempts) && Elsewhere(old(sys), sys, Some(order.orderId))
    {
      hide SysInv, CallStep, BodyIsLive, Elsewhere;
      ghost var s0 := sys;
      if err.fatal {
        LastWrite(order, GiveUp, order.attempts);
        return None;
      }
      CountTheAttempt(order);
      ghost var s1 := sys;
      NoteTheError(order);
      ElsewhereTrans(s0, s1, sys, Some(order.orderId));
      s1 := sys;
      var attempts := order.attempts + 1;
      if attempts >= sys.maxAttempts {
        LastWrite(order, GiveUp, attempts);
        ElsewhereTrans(s0, s1, sys, Some(order.orderId));
        return None;
      }
      LastWrite(order, Requeue, attempts);
      ElsewhereTrans(s0, s1, sys, Some(order.orderId));
      return Some(BACKOFF_MS[if attempts - 1 < |BACKOFF_MS| - 1 then attempts - 1 else |BACKOFF_MS| - 1]);
    }

    /** What an error comes to.  A final one fails the order uncounted; any other is counted, and queues the
        order again after half a minute, two minutes or eight if attempts are left; an order whose license was
        said to exist may turn out fulfilled. */
    ghost predicate Answered(order: Order, err: Err, retryIn: Option<nat>)
      reads this
    {
      match retryIn
      case Some(ms) =>
        && !err.fatal && Left(order, PAID, order.attempts + 1) && order.attempts + 1 < sys.maxAttempts
        && ms == (if order.attempts == 0 then 30_000 else if order.attempts == 1 then 120_000 else 480_000)
      case None =>
        || (err.licenseExists && Left(order, FULFILLED, order.attempts))
        || (err.fatal && Left(order, FAILED, order.attempts))
        || (!err.fatal && Left(order, FAILED, order.attempts + 1) && order.attempts + 1 >= sys.maxAttempts)
    }

    /** A body ends with its order fulfilled or failed, or queued again with one more attempt counted and
        attempts to spare; it sets a retry timer exactly in the last case. */
    ghost predicate Settled(order: Order, retryIn: Option<nat>)
      reads this
    {
      if retryIn.Some? then
        && Left(order, PAID, order.attempts + 1) && order.attempts + 1 < sys.maxAttempts
        && retryIn.value == (if order.attempts == 0 then 30_000 else if order.attempts == 1 then 120_000 else 480_000)
      else
        || Left(order, FULFILLED, order.attempts) || Left(order, FAILED, order.attempts)
        || (Left(order, FAILED, order.attempts + 1) && order.attempts + 1 >= sys.maxAttempts)
    }

    /** One fulfil body, from its claim on. */
    method Fulfill(order: Order) returns (retryIn: Option<nat>)
      requires At(order, Claim)
      modifies this
      ensures Settled(order, retryIn)
      ensures sys.maxAttempts == old(sys.maxAttempts) && Elsewhere(old(sys), sys, Some(order.orderId))
    {
      hide SysInv, CallStep, BodyIsLive, Elsewhere;
      ghost var s0 := sys;
      Write(order, Claim, ToRegistering);
      ghost var s1 := sys;
      var thrown := TryFulfill(order);
      ElsewhereTrans(s0, s1, sys, Some(order.orderId));
      if thrown.None? { return None; }
      s1 := sys;
      retryIn := HandleFailure(order, thrown.value);
      ElsewhereTrans(s0, s1, sys, Some(order.orderId));
    }

    // ---------- The queue ----------

    /** Takes the head of the queue; starts a body if its order can be read and is paid. */
    method TakeHead(readOk: bool) returns (order: Option<Order>)
      requires Valid() && sys.body.None? && sys.queue != []
      modifies this
      ensures sys == StartNext(old(sys), readOk) && Valid()
      ensures order.Some? ==> At(order.value, Claim) && order.value.orderId == old(sys.queue[0])
      ensures order.None? ==> sys.body.None?
      ensures order.Some? <==> readOk && old(sys.queue[0]) in old(sys.orders) && old(sys.orders)[old(sys.queue[0])].status == PAID
      ensures order.Some? ==> order.value == old(sys.orders)[old(sys.queue[0])]
    {
      hide SysInv;
      StartKeepsInv(sys, readOk);
      KeysAreIds(sys);
      sys := StartNext(sys, readOk);
      return if sys.body.Some? then Some(sys.body.value.order) else None;
    }

    /** Serves the queue until a given waiting order is at its head: whatever is in front of it is dropped,
        or worked on to its end, and the order keeps waiting. */
    method ServeUpTo(id: nat)
      requires Valid() && sys.body.None? && id in sys.queue && id in sys.orders && sys.orders[id].status == PAID
      modifies this
      ensures Valid() && sys.body.None? && sys.queue != []
      ensures sys.queue[0] == id && sys.maxAttempts == old(sys.maxAttempts)
      ensures id in sys.orders && sys.orders[id].status == PAID
      ensures sys.orders[id].attempts == old(sys.orders[id].attempts)
    {
      hide SysInv, BodyIsLive;
      ghost var attempts := sys.orders[id].attempts;
      ghost var at: nat :| at < |sys.queue| && sys.queue[at] == id;
      while sys.queue[0] != id
        invariant Valid() && sys.body.None? && at < |sys.queue|
        invariant sys.queue[at] == id && sys.maxAttempts == old(sys.maxAttempts)
        invariant id in sys.orders && sys.orders[id].status == PAID && sys.orders[id].attempts == attempts
        decreases at
      {
        var readOk: bool := *;
        var order := TakeHead(readOk);
        at := at - 1;
        if order.Some? {
          var _ := Fulfill(order.value);
        }
        assert sys.queue[at] == id;
        Wait();
        assert sys.queue[at] == id;
      }
    }

    /** A paid order is fulfilled or failed after at most max(1, attempts left) bodies of its own, with any
        others in between: it is queued by its payment or its retry timer, and served in turn. */
    method FulfillUntilSettled(id: nat) returns (bodies: nat)
      requires Valid() && sys.body.None? && id in sys.orders && sys.orders[id].status == PAID
      modifies this
      ensures Valid() && sys.body.None? && id in sys.orders && Terminal(sys.orders[id])
      ensures 1 <= bodies <= AtLeast(sys.maxAttempts - old(sys.orders[id]).attempts, 1)
      ensures sys.maxAttempts == old(sys.maxAttempts)
    {
      hide SysInv, BodyIsLive;
      bodies := 0;
      while sys.orders[id].status == PAID
        invariant Valid() && sys.body.None? && id in sys.orders && sys.maxAttempts == old(sys.maxAttempts)
        invariant sys.orders[id].status == PAID || Terminal(sys.orders[id])
        invariant sys.orders[id].status == PAID ==> sys.orders[id].attempts == old(sys.orders[id].attempts) + bodies
        invariant sys.orders[id].status == PAID && bodies > 0 ==> sys.orders[id].attempts < sys.maxAttempts
        invariant bodies > 0 ==> bodies <= AtLeast(sys.maxAttempts - old(sys.orders[id]).attempts, 1)
        invariant bodies == 0 ==> sys.orders[id].status == PAID
        decreases if sys.orders[id].status == PAID then 1 else 0, sys.maxAttempts - sys.orders[id].attempts
      {
        Wait();
        Enqueue(id);
        ServeUpTo(id);
        var order := TakeHead(true);
        var _ := Fulfill(order.value);
        bodies := bodies + 1;
      }
    }

    /** The payment, the retry timer or the boot queues the order. */
    method Enqueue(id: nat)
      requires Valid() && sys.body.None?
      modifies this
      ensures Valid() && sys == old(sys).(queue := old(sys).queue + [id])
    {
      hide DurableInv, BodyOk;
      QueueKeepsInv(sys, sys.(queue := sys.queue + [id]));
      sys := sys.(queue := sys.queue + [id]);
    }
  }

  /** After anything else, the body's own step: it keeps the invariant and its order alive. */
  lemma BodyActs(s0: System, s: System, reply: Reply)
    requires SysInv(s) && BodyIsLive(s) && s.body.Some? && !reply.StoredButLost?
    requires Elsewhere(s0, s, Some(s.body.value.order.orderId))
    ensures var s' := BodyStep(s, reply);
      SysInv(s') && BodyIsLive(s') && s'.past == s.past && s'.maxAttempts == s.maxAttempts
      && Elsewhere(s0, s', Some(s.body.value.order.orderId))
  {
    hide SysInv, BodyStep, Elsewhere;
    BodyStepKeepsInv(s, reply);
    BodyStepKeepsLife(s, reply);
    BodyIsElsewhere(s, reply);
    ElsewhereTrans(s0, s, BodyStep(s, reply), Some(s.body.value.order.orderId));
  }

  lemma BodyStepKeepsLife(s: System, reply: Reply)
    requires SysInv(s) && BodyIsLive(s) && s.body.Some? && !reply.StoredButLost?
    ensures BodyIsLive(BodyStep(s, reply)) && BodyStep(s, reply).past == s.past
    ensures BodyStep(s, reply).maxAttempts == s.maxAttempts
  {
    hide SysInv, CallStep, IsPinned;
    if WriteAt(s.body.value.pc).Some? {
      if s.body.value.pc.ReportEmpty? { EmptyReportIsUnpinned(s); }
      CleanWrite(s, reply);
    } else {
      CleanCall(s, reply);
      CallsKeepConfig(s, reply);
    }
  }

  /** One poll of the license ends with delivery, the next poll, or the handler of its error. */
  lemma ConfirmMoves(s: System, reply: Reply)
    requires s.body.Some? && s.body.value.pc.Confirm? && s.body.value.pc.polls < 5
    requires reply.Threw? || (reply.Seen? && reply.view < |s.past|)
    ensures var pc, s' := s.body.value.pc, CallStep(s, reply);
      && s'.body.Some?
      && if reply.Threw? then s'.body.value.pc == ConfirmHandler(pc.rescue, reply.err)
         else || s'.body.value.pc.Deliver?
              || s'.body.value.pc == (if pc.polls + 1 < 5 then Confirm(pc.polls + 1, pc.rescue)
                                      else ConfirmHandler(pc.rescue, Err(false, false)))
  {
    hide LicenseSeen;
  }

  lemma RegisterMoves(s: System, reply: Reply)
    requires s.body.Some? && (s.body.value.pc.CheckBuyer? || s.body.value.pc.Register? || s.body.value.pc.AwaitBuyer?)
    requires reply.Threw? || (if s.body.value.pc.Register? then reply.Ok? else reply.Seen? && reply.view < |s.past|)
    ensures var pc, s' := s.body.value.pc, CallStep(s, reply);
      && s'.body.Some?
      && if reply.Threw? then s'.body.value.pc == Failing(reply.err)
         else match pc
              case CheckBuyer => s'.body.value.pc.ToBuilding? || s'.body.value.pc.Register?
              case Register => s'.body.value.pc == NoteRegistered
              case AwaitBuyer(polls) =>
                || s'.body.value.pc.ToBuilding?
                || s'.body.value.pc == (if polls + 1 < 20 then AwaitBuyer(polls + 1) else Failing(Err(false, false)))
  {
    hide BuyerSeen;
  }

  lemma BuildMoves(s: System, reply: Reply)
    requires s.body.Some? && (s.body.value.pc.Build? || s.body.value.pc.Resolve?)
    requires reply.Threw? || (if s.body.value.pc.Build? then reply.Escrow? else reply.Names?)
    ensures var pc, s' := s.body.value.pc, CallStep(s, reply);
      && s'.body.Some?
      && if reply.Threw? then s'.body.value.pc == Failing(reply.err)
         else if pc.Build? then s'.body.value.pc.ReportEmpty? || s'.body.value.pc.ToProving? || s'.body.value.pc.Resolve?
         else s'.body.value.pc.Pin?
  {
    hide IsPinned, Batch, CanonicalDataset, ResolveItemNames;
  }

  lemma SellMoves(s: System, reply: Reply)
    requires s.body.Some? && (s.body.value.pc.Prove? || s.body.value.pc.Proving? || s.body.value.pc.Sent?)
    requires reply.Threw? || (if s.body.value.pc.Proving? then reply.Seen? && reply.view < |s.past| else reply.Ok?)
    ensures var pc, s' := s.body.value.pc, CallStep(s, reply);
      && s'.body.Some?
      && if reply.Threw? then s'.body.value.pc == Failing(reply.err)
         else if pc.Prove? then s'.body.value.pc.Proving?
         else if pc.Proving? then s'.body.value.pc.Sent? || s'.body.value.pc.Failing?
         else s'.body.value.pc == NoteSold
  {
    hide ProvenSale;
  }

  lemma FailingMoves(s: System)
    requires s.body.Some? && s.body.value.pc.Failing?
    ensures var err, s' := s.body.value.pc.err, CallStep(s, Ok);
      s'.body.Some? && s'.body.value.pc == if err.licenseExists then Confirm(0, Some(err)) else AfterRescue(err)
  {
  }
}
