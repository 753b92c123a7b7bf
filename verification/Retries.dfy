/** How often an order is worked on: over every interleaving of bodies, payments, other orders, chain and
    timers, at most as many bodies as attempts are left, and none without a reason. */
module Retries {
  import opened Ledger
  import opened Orders
  import opened Fulfilment
  import opened FulfilmentInvariants
  import opened FulfilmentTheorems
  import opened TerminalOrders

  predicate BodyOn(s: System, id: nat) {
    s.body.Some? && s.body.value.order.orderId == id
  }

  /** The step takes this order from the queue and starts a body for it. */
  predicate Opens(s: System, a: Action, id: nat) {
    a.Start? && a.readOk && s.body.None? && s.queue != [] && s.queue[0] == id && id in s.orders && s.orders[id].status == PAID
  }

  lemma OpensIff(s: System, a: Action, id: nat)
    requires Enabled(s, a) && !BodyOn(s, id) && forall i <- s.orders :: s.orders[i].orderId == i
    ensures Opens(s, a, id) <==> BodyOn(Next(s, a), id)
  {
    hide BodyStep, Step;
    if a.Await? { StepKeepsBodysOrder(s, a.reply); }
  }

  lemma StepKeepsBodysOrder(s: System, reply: Reply)
    requires s.body.Some?
    ensures var s' := BodyStep(s, reply); s'.body.Some? ==> s'.body.value.order == s.body.value.order
  {
    hide CallStep, AfterWrite, Caught, Patched;
    if WriteAt(s.body.value.pc).None? { CallsKeepTheBodysOrder(s, reply); }
  }

  // ---------- A second body needs a reason ----------

  /** What lets an order be worked on again: a payment, boot recovery, the handler's write back to paid, a
      claim that threw, or a crash before the claim. */
  predicate Reopens(s: System, a: Action, id: nat) {
    || a == PayWrite(id) || a == Recover(id)
    || (a.Await? && BodyOn(s, id) && s.body.value.pc.Requeue? && (a.reply.Stored? || a.reply.StoredButLost?))
    || (a.Await? && BodyOn(s, id) && s.body.value.pc.Claim? && a.reply.Threw?)
    || (a.Crash? && BodyOn(s, id) && s.body.value.pc.Claim?)
  }

  /** No body can start for the order. */
  predicate Taken(s: System, id: nat) {
    id in s.orders && (s.orders[id].status != PAID || (BodyOn(s, id) && s.body.value.pc.Claim?))
  }

  lemma TakenAfterWrite(s: System, id: nat, reply: Reply)
    requires s.body.Some? && WriteAt(s.body.value.pc).Some? && Taken(s, id) && !Reopens(s, Await(reply), id)
    ensures Taken(BodyStep(s, reply), id)
  {
    hide CallStep;
  }

  lemma CallsNeverClaim(s: System, reply: Reply)
    requires s.body.Some? && WriteAt(s.body.value.pc).None?
    ensures var s' := CallStep(s, reply); s'.orders == s.orders && (s'.body.Some? ==> s'.body.value.order == s.body.value.order)
  {
    hide CallStep;
    CallsKeepTheBodysOrder(s, reply);
    CallsWriteNothing(s, reply);
  }

  lemma TakenStays(s: System, a: Action, id: nat)
    requires Enabled(s, a) && Taken(s, id) && !Reopens(s, a, id) && forall i <- s.orders :: s.orders[i].orderId == i
    ensures Taken(Next(s, a), id)
  {
    hide Step, CallStep, WriteStep, IsPinned;
    if a.Await? {
      if WriteAt(s.body.value.pc).Some? {
        TakenAfterWrite(s, id, a.reply);
      } else {
        CallsNeverClaim(s, a.reply);
      }
    }
  }

  /** A body for the order appears. */
  predicate Begins(s: System, s': System, id: nat) {
    !BodyOn(s, id) && BodyOn(s', id)
  }

  /** An order enqueued twice is worked on once: between two bodies that appear for the same order it was
      paid, recovered or queued again, or the first body never claimed it. */
  lemma {:induction false} SecondBodyNeedsReason(states: seq<System>, actions: seq<Action>, i: nat, j: nat, id: nat)
    returns (k: nat)
    requires IsRun(states, actions) && i < j < |actions|
    requires Begins(states[i], states[i + 1], id) && Begins(states[j], states[j + 1], id)
    ensures i < k < j && Reopens(states[k], actions[k], id)
  {
    hide Next, Enabled, IsInitial, SysInv, Reopens, Taken, Opens;
    BeginningOpens(states, actions, i, id);
    BeginningOpens(states, actions, j, id);
    OpenedIsTaken(states[i], actions[i], id);
    k := i + 1;
    while k < j && !Reopens(states[k], actions[k], id)
      invariant i < k <= j && Taken(states[k], id)
    {
      SystemRunKeepsInv(states, actions, k);
      KeysAreIds(states[k]);
      TakenStays(states[k], actions[k], id);
      k := k + 1;
    }
    TakenDoesNotOpen(states[j], actions[j], id);
  }

  lemma BeginningOpens(states: seq<System>, actions: seq<Action>, i: nat, id: nat)
    requires IsRun(states, actions) && i < |actions| && Begins(states[i], states[i + 1], id)
    ensures Opens(states[i], actions[i], id) && forall k <- states[i].orders :: states[i].orders[k].orderId == k
  {
    hide Next, Enabled, IsInitial, SysInv, Opens;
    SystemRunKeepsInv(states, actions, i);
    KeysAreIds(states[i]);
    OpensIff(states[i], actions[i], id);
  }

  lemma OpenedIsTaken(s: System, a: Action, id: nat)
    requires Enabled(s, a) && Opens(s, a, id) && forall i <- s.orders :: s.orders[i].orderId == i
    ensures Taken(Next(s, a), id)
  {
  }

  lemma TakenDoesNotOpen(s: System, a: Action, id: nat)
    requires Opens(s, a, id)
    ensures !Taken(s, id)
  {
  }

  // ---------- As many bodies as attempts ----------

  /** Nothing is lost: no crash, no write acknowledged to nobody, and the writes that claim an order or
      count its failure do not throw. */
  predicate Reliable(s: System, a: Action) {
    && Clean(s, a) && !a.Crash?
    && (a.Await? && s.body.Some? ==>
          !a.reply.StoredButLost?
          && (a.reply.Threw? ==> !(s.body.value.pc.Claim? || s.body.value.pc.CountAttempt? || s.body.value.pc.NoteError?
                                   || s.body.value.pc.GiveUp? || s.body.value.pc.Requeue?)))
  }

  /** The stored count of failures is the body's own, plus one once it has counted this one. */
  predicate CountOk(s: System, b: Body) {
    var id := b.order.orderId;
    && id in s.orders
    && match b.pc
       case NoteError => s.orders[id].attempts == b.order.attempts + 1
       case Requeue => s.orders[id].attempts == b.order.attempts + 1 && b.order.attempts + 1 < s.maxAttempts
       case GiveUp => b.order.attempts <= s.orders[id].attempts <= b.order.attempts + 1
       case _ => s.orders[id].attempts == b.order.attempts
  }

  predicate CountsOk(s: System) {
    s.body.Some? ==> CountOk(s, s.body.value)
  }

  lemma CallsNeverCount(s: System, reply: Reply)
    requires CountsOk(s) && s.body.Some? && WriteAt(s.body.value.pc).None?
    ensures CountsOk(CallStep(s, reply))
  {
    hide ProvenSale, LicenseSeen, BuyerSeen, CanonicalDataset, ResolveItemNames, IsPinned, Batch;
  }

  lemma WritesKeepCounts(s: System, reply: Reply)
    requires CountsOk(s) && s.body.Some? && WriteAt(s.body.value.pc).Some?
    ensures CountsOk(BodyStep(s, reply))
  {
    hide CallStep;
    match reply
    case Stored => AcknowledgedCount(s);
    case StoredButLost(err) => ThrownCount(s, Store(s, WriteAt(s.body.value.pc).value), err);
    case Threw(err) => ThrownCount(s, s, err);
    case _ =>
  }

  lemma AcknowledgedCount(s: System)
    requires CountsOk(s) && s.body.Some? && WriteAt(s.body.value.pc).Some?
    ensures CountsOk(BodyStep(s, Stored))
  {
    hide CallStep, Throw;
  }

  lemma ThrownCount(s: System, s1: System, err: Err)
    requires CountsOk(s) && s.body.Some? && s1.body == s.body
    requires WriteAt(s.body.value.pc).Some? && s1.maxAttempts == s.maxAttempts
    requires s1.orders == s.orders || s1 == Store(s, WriteAt(s.body.value.pc).value)
    ensures CountsOk(Throw(s1, err))
  {
    hide AfterWrite;
  }

  lemma StepKeepsCounts(s: System, a: Action)
    requires CountsOk(s) && Enabled(s, a) && forall i <- s.orders :: s.orders[i].orderId == i
    ensures CountsOk(Next(s, a))
  {
    hide Step, CallStep, WriteStep, IsPinned;
    if a.Await? {
      if WriteAt(s.body.value.pc).Some? {
        WritesKeepCounts(s, a.reply);
      } else {
        CallsNeverCount(s, a.reply);
      }
    }
  }

  /** In every run, crashes and lost replies included, an order's stored failures are those its bodies
      counted, and a body puts its order back to paid only with an attempt left. */
  lemma {:induction false} FailuresAreCounted(states: seq<System>, actions: seq<Action>, n: nat)
    requires IsRun(states, actions) && n <= |actions|
    ensures CountsOk(states[n])
  {
    hide Next, Enabled, CountOk, SysInv;
    if n > 0 {
      FailuresAreCounted(states, actions, n - 1);
      SystemRunKeepsInv(states, actions, n - 1);
      KeysAreIds(states[n - 1]);
      StepKeepsCounts(states[n - 1], actions[n - 1]);
    }
  }

  function AtLeast(n: int, least: int): (r: int)
    ensures r >= n && r >= least && (r == n || r == least)
  {
    if n < least then least else n
  }

  /** An order that was paid and is waited for, worked on or done with: reliable steps never leave one in
      fulfilment without a body. */
  predicate Attended(s: System, id: nat) {
    id in s.orders && s.orders[id].status != CREATED && (s.orders[id].status == FULFILLING ==> BodyOn(s, id))
  }

  /** How many more bodies the order can get. */
  function Remaining(s: System, id: nat): (n: nat)
    requires id in s.orders
  {
    var o := s.orders[id];
    if BodyOn(s, id) then
      match s.body.value.pc
      case GiveUp => 0
      case NoteError => AtLeast(s.maxAttempts - o.attempts, 0)
      case Requeue => AtLeast(s.maxAttempts - o.attempts, 0)
      case _ => AtLeast(s.maxAttempts - o.attempts - 1, 0)
    else if Terminal(o) then 0
    else AtLeast(s.maxAttempts - o.attempts, 1)
  }

  /** A call writes nothing, so only the body's position matters: it never goes back past its count. */
  lemma RemainingAfterCall(s: System, id: nat, reply: Reply)
    requires CountsOk(s) && BodyIsLive(s) && s.body.Some? && WriteAt(s.body.value.pc).None? && Attended(s, id)
    ensures var s' := CallStep(s, reply);
      Attended(s', id) && Remaining(s', id) <= Remaining(s, id)
  {
    hide CallStep, CountsOk, BodyIsLive;
    CallsNeverClaim(s, reply);
    CallPositions(s, reply);
  }

  predicate IsCallPosition(pc: Pc) {
    !pc.NoteError? && !pc.Requeue?
  }

  lemma CallPositions(s: System, reply: Reply)
    requires s.body.Some? && WriteAt(s.body.value.pc).None?
    ensures var s' := CallStep(s, reply);
      s'.maxAttempts == s.maxAttempts && s'.body.Some? && IsCallPosition(s'.body.value.pc)
  {
    if reply.Seen? {
      hide CallStep;
      ViewPositions(s, reply);
    } else {
      hide ProvenSale, BuyerSeen, LicenseSeen, PollStep, CanonicalDataset, ResolveItemNames, IsPinned, Batch;
    }
  }

  lemma ViewPositions(s: System, reply: Reply)
    requires s.body.Some? && WriteAt(s.body.value.pc).None? && reply.Seen?
    ensures var s' := CallStep(s, reply);
      s'.maxAttempts == s.maxAttempts && s'.body.Some? && IsCallPosition(s'.body.value.pc)
  {
    hide ProvenSale, LicenseSeen, BuyerSeen, CanonicalDataset, ResolveItemNames, IsPinned, Batch;
  }

  lemma RemainingAfterWrite(s: System, id: nat, reply: Reply)
    requires CountsOk(s) && BodyIsLive(s) && s.body.Some? && WriteAt(s.body.value.pc).Some? && Attended(s, id)
    requires Reliable(s, Await(reply))
    ensures var s' := BodyStep(s, reply);
      Attended(s', id) && Remaining(s', id) <= Remaining(s, id)
  {
    hide CallStep;
    match reply
    case Stored => RemainingAfterStored(s, id);
    case Threw(err) => RemainingAfterThrow(s, id, err);
    case _ =>
  }

  lemma RemainingAfterStored(s: System, id: nat)
    requires CountsOk(s) && BodyIsLive(s) && s.body.Some? && WriteAt(s.body.value.pc).Some? && Attended(s, id)
    ensures var s' := BodyStep(s, Stored);
      Attended(s', id) && Remaining(s', id) <= Remaining(s, id)
  {
    hide CallStep, Throw;
  }

  lemma RemainingAfterThrow(s: System, id: nat, err: Err)
    requires CountsOk(s) && BodyIsLive(s) && s.body.Some? && WriteAt(s.body.value.pc).Some? && Attended(s, id)
    requires Reliable(s, Await(Threw(err)))
    ensures var s' := BodyStep(s, Threw(err));
      Attended(s', id) && Remaining(s', id) <= Remaining(s, id)
  {
    hide CallStep, AfterWrite, Store;
  }

  /** Starting a body uses up one of the remaining ones, and no other reliable step adds any. */
  lemma RemainingDrops(s: System, a: Action, id: nat)
    requires CountsOk(s) && BodyIsLive(s) && Enabled(s, a) && Reliable(s, a) && Attended(s, id)
    requires forall i <- s.orders :: s.orders[i].orderId == i
    ensures Attended(Next(s, a), id)
    ensures Remaining(Next(s, a), id) + (if Opens(s, a, id) then 1 else 0) <= Remaining(s, id)
  {
    hide Attended, Remaining, CountsOk, BodyIsLive, Reliable;
    if a.Await? {
      hide CallStep, WriteStep;
      if WriteAt(s.body.value.pc).Some? {
        RemainingAfterWrite(s, id, a.reply);
      } else {
        RemainingAfterCall(s, id, a.reply);
      }
    } else {
      hide Next;
      OthersKeepRemaining(s, a, id);
    }
  }

  lemma OthersKeepRemaining(s: System, a: Action, id: nat)
    requires CountsOk(s) && BodyIsLive(s) && Enabled(s, a) && Reliable(s, a) && Attended(s, id) && !a.Await?
    requires forall i <- s.orders :: s.orders[i].orderId == i
    ensures Attended(Next(s, a), id)
    ensures Remaining(Next(s, a), id) + (if Opens(s, a, id) then 1 else 0) <= Remaining(s, id)
  {
    hide Next, CountsOk, Step;
    if a.Start? {
      StartUsesOne(s, a.readOk, id);
    } else {
      hide Opens, Enabled;
      NotAStart(s, a, id);
      OthersTouchLittle(s, a, id);
    }
  }

  lemma NotAStart(s: System, a: Action, id: nat)
    requires !a.Start?
    ensures !Opens(s, a, id)
  {
  }

  lemma StartUsesOne(s: System, readOk: bool, id: nat)
    requires Enabled(s, Start(readOk)) && Attended(s, id) && forall i <- s.orders :: s.orders[i].orderId == i
    ensures Attended(Next(s, Start(readOk)), id)
    ensures Remaining(Next(s, Start(readOk)), id) + (if Opens(s, Start(readOk), id) then 1 else 0) <= Remaining(s, id)
  {
  }

  /** Whatever is neither the body's nor a start nor a crash leaves the body alone, and changes no existing
      order but from unpaid, or from fulfilment without a body, to paid. */
  lemma OthersTouchLittle(s: System, a: Action, id: nat)
    requires Enabled(s, a) && Clean(s, a) && !a.Await? && !a.Start? && !a.Crash? && id in s.orders
    ensures var s' := Next(s, a);
      && s'.body == s.body && s'.maxAttempts == s.maxAttempts && s'.operator == s.operator && s'.pin == s.pin
      && s.queue <= s'.queue && s.past <= s'.past && id in s'.orders
      && s'.orders[id].attempts == s.orders[id].attempts && s'.orders[id].orderId == s.orders[id].orderId
      && (s'.orders[id].status == s.orders[id].status || (s'.orders[id].status == PAID && !Terminal(s.orders[id])))
      && (Terminal(s.orders[id]) ==> s'.orders[id] == s.orders[id])
  {
    hide Step;
  }

  lemma ReliableStepKeepsLive(s: System, a: Action)
    requires SysInv(s) && BodyIsLive(s) && Enabled(s, a) && Reliable(s, a)
    ensures BodyIsLive(Next(s, a))
  {
    hide BodyStep, Step, SysInv, IsPinned;
    KeysAreIds(s);
    if a.Await? {
      if WriteAt(s.body.value.pc).Some? {
        if s.body.value.pc.ReportEmpty? { EmptyReportIsUnpinned(s); }
        CleanWrite(s, a.reply);
      } else {
        CleanCall(s, a.reply);
      }
    }
  }

  /** The bodies started for an order from step `m` to step `n`. */
  function Bodies(states: seq<System>, actions: seq<Action>, id: nat, m: nat, n: nat): nat
    requires m <= n <= |actions| && |states| == |actions| + 1
    decreases n - m
  {
    if m == n then 0
    else Bodies(states, actions, id, m, n - 1) + (if Opens(states[n - 1], actions[n - 1], id) then 1 else 0)
  }

  /** Retries end: from any state on, whatever other orders, payers, timers and the chain do in between,
      an order that is paid gets at most as many bodies as it has attempts left, and at least one; and as
      long as it has not ended, it is waiting as paid, or a body works on it. */
  lemma {:induction false} BodiesAreBounded(states: seq<System>, actions: seq<Action>, id: nat, m: nat, n: nat)
    requires IsRun(states, actions) && m <= n <= |actions|
    requires BodyIsLive(states[m]) && Attended(states[m], id)
    requires forall k :: m <= k < n ==> Reliable(states[k], actions[k])
    ensures BodyIsLive(states[n]) && Attended(states[n], id)
    ensures Bodies(states, actions, id, m, n) + Remaining(states[n], id) <= Remaining(states[m], id)
    decreases n - m
  {
    hide Next, Enabled, SysInv, Attended, Remaining, Reliable, Opens, BodyIsLive, CountsOk;
    if m < n {
      BodiesAreBounded(states, actions, id, m, n - 1);
      SystemRunKeepsInv(states, actions, n - 1);
      KeysAreIds(states[n - 1]);
      FailuresAreCounted(states, actions, n - 1);
      RemainingDrops(states[n - 1], actions[n - 1], id);
      ReliableStepKeepsLive(states[n - 1], actions[n - 1]);
    }
  }

  /** The same for a paid order no body works on yet: it gets at most max(1, attempts left) bodies, and as
      long as it waits again as paid it has not had the last of them. */
  lemma PaidOrderIsSettled(states: seq<System>, actions: seq<Action>, id: nat, m: nat, n: nat)
    requires IsRun(states, actions) && m <= n <= |actions|
    requires BodyIsLive(states[m]) && id in states[m].orders
    requires states[m].orders[id].status == PAID && !BodyOn(states[m], id)
    requires forall k :: m <= k < n ==> Reliable(states[k], actions[k])
    ensures Bodies(states, actions, id, m, n) <= AtLeast(states[m].maxAttempts - states[m].orders[id].attempts, 1)
    ensures id in states[n].orders && (Terminal(states[n].orders[id]) || BodyOn(states[n], id) || states[n].orders[id].status == PAID)
    ensures states[n].orders[id].status == PAID && !BodyOn(states[n], id) ==>
      Bodies(states, actions, id, m, n) < AtLeast(states[m].maxAttempts - states[m].orders[id].attempts, 1)
  {
    hide Reliable, BodyIsLive, Bodies;
    BodiesAreBounded(states, actions, id, m, n);
  }

  // ---------- Bodies end ----------

  /** An answer the body was waiting for. */
  predicate Answers(s: System, pc: Pc, reply: Reply) {
    match pc
    case CheckBuyer | AwaitBuyer(_) | Proving(_, _) | Confirm(_, _) => reply.Threw? || (reply.Seen? && reply.view < |s.past|)
    case Register => reply.Ok? || reply.OkButLost? || reply.Threw?
    case Build => reply.Escrow? || reply.Threw?
    case Resolve(_) => reply.Names? || reply.Threw?
    case Prove(_, _) | Sent(_, _) => reply.Ok? || reply.Threw?
    case Failing(_) => reply.Ok?
    case _ => reply.Stored? || reply.StoredButLost? || reply.Threw?
  }

  const LONGEST: nat := 75

  /** An upper bound on the answers a body still waits for. */
  function Rank(pc: Pc): (r: nat)
    ensures r <= LONGEST
  {
    match pc
    case Claim => 75
    case ToRegistering => 74
    case CheckBuyer => 73
    case Register => 72
    case NoteRegistered => 71
    case AwaitBuyer(polls) => 50 + AtLeast(BUYER_POLLS - polls, 0)
    case ToBuilding => 49
    case Build => 48
    case Resolve(_) => 47
    case Pin(_, _) => 46
    case ReportEmpty => 45
    case ToProving(_, _) => 45
    case Prove(_, _) => 44
    case Proving(_, _) => 43
    case Sent(_, _) => 42
    case NoteSold => 41
    case ToConfirming => 40
    case Confirm(polls, rescue) => (if rescue.Some? then 10 else 30) + AtLeast(LICENSE_POLLS - polls, 0)
    case Deliver(_, rescue) => if rescue.Some? then 9 else 29
    case Failing(_) => 20
    case CountAttempt => 8
    case NoteError => 7
    case GiveUp => 6
    case Requeue => 6
  }

  lemma AnswerLowersRank(s: System, reply: Reply)
    requires s.body.Some? && Answers(s, s.body.value.pc, reply)
    ensures var s' := BodyStep(s, reply); s'.body.Some? ==> Rank(s'.body.value.pc) < Rank(s.body.value.pc)
  {
    hide CallStep, Rank, WriteStep, Answers;
    if WriteAt(s.body.value.pc).None? {
      AnsweredCallLowersRank(s, reply);
    } else if reply.Stored? {
      StoredLowersRank(s);
    } else {
      FailedWriteLowersRank(s, reply);
    }
  }

  lemma StoredLowersRank(s: System)
    requires s.body.Some? && WriteAt(s.body.value.pc).Some?
    ensures var s' := BodyStep(s, Stored); s'.body.Some? ==> Rank(s'.body.value.pc) < Rank(s.body.value.pc)
  {
    hide CallStep, Patched, Throw;
  }

  lemma FailedWriteLowersRank(s: System, reply: Reply)
    requires s.body.Some? && WriteAt(s.body.value.pc).Some? && Answers(s, s.body.value.pc, reply) && !reply.Stored?
    ensures var s' := BodyStep(s, reply); s'.body.Some? ==> Rank(s'.body.value.pc) < Rank(s.body.value.pc)
  {
    hide CallStep, Patched, AfterWrite;
  }

  lemma AnsweredCallLowersRank(s: System, reply: Reply)
    requires s.body.Some? && WriteAt(s.body.value.pc).None? && Answers(s, s.body.value.pc, reply)
    ensures var s' := CallStep(s, reply); s'.body.Some? ==> Rank(s'.body.value.pc) < Rank(s.body.value.pc)
  {
    hide Rank, CallStep;
    if reply.Threw? {
      ThrowLowersRank(s, reply);
    } else if reply.Seen? {
      ViewLowersRank(s, reply);
    } else {
      ReturnLowersRank(s, reply);
    }
  }

  lemma ThrowLowersRank(s: System, reply: Reply)
    requires s.body.Some? && WriteAt(s.body.value.pc).None? && Answers(s, s.body.value.pc, reply) && reply.Threw?
    ensures var s' := CallStep(s, reply); s'.body.Some? ==> Rank(s'.body.value.pc) < Rank(s.body.value.pc)
  {
    hide ProvenSale, LicenseSeen, BuyerSeen, CanonicalDataset, ResolveItemNames, IsPinned, Batch, PollStep;
  }

  lemma ViewLowersRank(s: System, reply: Reply)
    requires s.body.Some? && WriteAt(s.body.value.pc).None? && Answers(s, s.body.value.pc, reply) && reply.Seen?
    ensures var s' := CallStep(s, reply); s'.body.Some? ==> Rank(s'.body.value.pc) < Rank(s.body.value.pc)
  {
    hide CallStep;
    if s.body.value.pc.Confirm? || s.body.value.pc.AwaitBuyer? {
      PollLowersRank(s, reply);
    } else {
      OneViewLowersRank(s, reply);
    }
  }

  lemma OneViewLowersRank(s: System, reply: Reply)
    requires s.body.Some? && WriteAt(s.body.value.pc).None? && Answers(s, s.body.value.pc, reply) && reply.Seen?
    requires !s.body.value.pc.Confirm? && !s.body.value.pc.AwaitBuyer?
    ensures var s' := CallStep(s, reply); s'.body.Some? ==> Rank(s'.body.value.pc) < Rank(s.body.value.pc)
  {
    hide ProvenSale, LicenseSeen, BuyerSeen, PollStep, WriteAt, CanonicalDataset, ResolveItemNames, IsPinned, Batch, RefusalError;
  }

  lemma PollLowersRank(s: System, reply: Reply)
    requires s.body.Some? && Answers(s, s.body.value.pc, reply) && reply.Seen?
    requires (s.body.value.pc.Confirm? || s.body.value.pc.AwaitBuyer?)
    ensures var s' := CallStep(s, reply); s'.body.Some? ==> Rank(s'.body.value.pc) < Rank(s.body.value.pc)
  {
    hide ProvenSale, LicenseSeen, BuyerSeen, CanonicalDataset, ResolveItemNames, IsPinned, Batch;
  }

  lemma ReturnLowersRank(s: System, reply: Reply)
    requires s.body.Some? && WriteAt(s.body.value.pc).None?
    requires Answers(s, s.body.value.pc, reply) && !reply.Seen? && !reply.Threw?
    ensures var s' := CallStep(s, reply); s'.body.Some? ==> Rank(s'.body.value.pc) < Rank(s.body.value.pc)
  {
    hide ProvenSale, LicenseSeen, BuyerSeen, CanonicalDataset, ResolveItemNames, IsPinned, Batch, PollStep;
  }

  lemma OtherReplyWaits(s: System, reply: Reply)
    requires s.body.Some? && !Answers(s, s.body.value.pc, reply)
    ensures BodyStep(s, reply) == s
  {
    hide ProvenSale, LicenseSeen, BuyerSeen, CanonicalDataset, ResolveItemNames, IsPinned, Batch, Caught, AfterWrite;
  }

  /** The work an order can still cause: the answers its body waits for, and a full body for each that may
      follow. */
  function Work(s: System, id: nat): nat
    requires id in s.orders
  {
    (LONGEST + 1) * Remaining(s, id) + (if BodyOn(s, id) then Rank(s.body.value.pc) else 0)
  }

  /** The step starts a body for the order or answers its body. */
  predicate WorksOn(s: System, a: Action, id: nat) {
    Opens(s, a, id) || (a.Await? && BodyOn(s, id) && Answers(s, s.body.value.pc, a.reply))
  }

  lemma WorkDrops(s: System, a: Action, id: nat)
    requires CountsOk(s) && BodyIsLive(s) && Enabled(s, a) && Reliable(s, a) && Attended(s, id)
    requires forall i <- s.orders :: s.orders[i].orderId == i
    ensures id in Next(s, a).orders && Work(Next(s, a), id) + (if WorksOn(s, a, id) then 1 else 0) <= Work(s, id)
  {
    hide Remaining, Answers, Reliable, CountsOk, BodyIsLive;
    RemainingDrops(s, a, id);
    if a.Await? && s.body.Some? {
      hide BodyStep;
      if Answers(s, s.body.value.pc, a.reply) {
        AnswerLowersRank(s, a.reply);
      } else {
        OtherReplyWaits(s, a.reply);
      }
      StepKeepsBodysOrder(s, a.reply);
    } else {
      hide Step, Rank;
      OtherStepsLeaveBody(s, a, id);
    }
  }

  lemma OtherStepsLeaveBody(s: System, a: Action, id: nat)
    requires Enabled(s, a) && Reliable(s, a) && !a.Await? && id in s.orders
    requires forall i <- s.orders :: s.orders[i].orderId == i
    ensures !Opens(s, a, id) ==> (BodyOn(Next(s, a), id) ==> Next(s, a).body == s.body)
  {
    hide Step, IsPinned;
  }

  function WorkDone(states: seq<System>, actions: seq<Action>, id: nat, m: nat, n: nat): nat
    requires m <= n <= |actions| && |states| == |actions| + 1
    decreases n - m
  {
    if m == n then 0
    else WorkDone(states, actions, id, m, n - 1) + (if WorksOn(states[n - 1], actions[n - 1], id) then 1 else 0)
  }

  /** Fulfilment ends: in runs without crashes and lost or failing claims, the starts and answered awaits of
      all bodies of an order together are bounded from any state on. */
  lemma {:induction false} WorkIsBounded(states: seq<System>, actions: seq<Action>, id: nat, m: nat, n: nat)
    requires IsRun(states, actions) && m <= n <= |actions|
    requires BodyIsLive(states[m]) && Attended(states[m], id)
    requires forall k :: m <= k < n ==> Reliable(states[k], actions[k])
    ensures id in states[n].orders && WorkDone(states, actions, id, m, n) + Work(states[n], id) <= Work(states[m], id)
    decreases n - m
  {
    hide Next, Enabled, SysInv, Remaining, Work, Reliable, WorksOn, BodyIsLive, CountsOk;
    if m < n {
      WorkIsBounded(states, actions, id, m, n - 1);
      BodiesAreBounded(states, actions, id, m, n - 1);
      SystemRunKeepsInv(states, actions, n - 1);
      KeysAreIds(states[n - 1]);
      FailuresAreCounted(states, actions, n - 1);
      WorkDrops(states[n - 1], actions[n - 1], id);
    }
  }
}
