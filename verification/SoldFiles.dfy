/** Where the file a buyer downloads comes from: the escrow rows and the names its order's body read, in every
    run and through all retries. */
module SoldFiles {
  import opened Options
  import opened Texts
  import opened Digests
  import opened Ledger
  import opened Orders
  import opened Fulfilment
  import opened FulfilmentTheorems
  import opened TerminalOrders

  // ---------- What a file says ----------

  /** The catalogue's name of an item, or its number. */
  predicate IsNameOf(names: map<nat, string>, id: nat, name: string) {
    name == if id in names then names[id] else "#" + Decimal(id)
  }

  /** A row of the file repeats the row found, and names its item and each id of its bracket. */
  predicate TellsOf(row: DatasetRow, r: PinnedRow, names: map<nat, string>) {
    && row.tournamentId == r.tournamentId && row.itemId == r.itemId && row.bracket == r.bracket
    && row.segment == r.segment && row.salt == r.salt && IsNameOf(names, r.itemId, row.itemName)
    && |row.bracketNames| == |r.bracket|
    && forall i :: 0 <= i < |r.bracket| ==> IsNameOf(names, r.bracket[i], row.bracketNames[i])
  }

  /** The first rows found, no more than eight. */
  predicate AreFirstOf(chosen: seq<PinnedRow>, found: seq<PinnedRow>) {
    chosen <= found && |chosen| == if |found| < 8 then |found| else 8
  }

  predicate IsFileOf(file: Dataset, tournamentId: nat, orderId: nat, title: string, names: map<nat, string>, chosen: seq<PinnedRow>) {
    && file.tournamentId == tournamentId && file.orderId == orderId && file.title == title && |file.rows| == |chosen|
    && forall i :: 0 <= i < |chosen| ==> TellsOf(file.rows[i], chosen[i], names)
  }

  // ---------- Where it comes from ----------

  /** A body of the order read these rows from escrow. */
  predicate Found(s: System, a: Action, id: nat, chosen: seq<PinnedRow>) {
    s.body.Some? && s.body.value.order.orderId == id && a.Await? && a.reply.Escrow? && AreFirstOf(chosen, a.reply.rows)
  }

  /** A body of the order read title and names, and the file was built from them. */
  predicate Named(s: System, a: Action, id: nat, chosen: seq<PinnedRow>, file: Dataset) {
    && s.body.Some? && s.body.value.order.orderId == id && a.Await? && a.reply.Names?
    && IsFileOf(file, s.body.value.order.tournamentId, id, a.reply.title, a.reply.names, chosen)
  }

  lemma BodyMovesByAwaits(s: System, a: Action)
    requires Enabled(s, a) && Next(s, a).body.Some? && Next(s, a).body != s.body
    ensures a.Await? || Next(s, a).body.value.pc.Claim?
  {
    hide BodyStep, Step;
  }

  lemma AwaitKeepsOrder(s: System, reply: Reply)
    requires s.body.Some? && BodyStep(s, reply).body.Some?
    ensures BodyStep(s, reply).body.value.order == s.body.value.order
  {
    hide CallStep, AfterWrite, Caught, Patched;
    if WriteAt(s.body.value.pc).None? { CallsKeepTheBodysOrder(s, reply); }
  }

  /** The answer that put the body where it holds rows it has not stored yet. */
  predicate Explains(reply: Reply, b: Body, b': Body) {
    match b'.pc
    case Resolve(found) => reply.Escrow? && AreFirstOf(found, reply.rows)
    case Pin(json, chosen) =>
      && b.pc == Resolve(chosen) && reply.Names?
      && IsFileOf(json, b.order.tournamentId, b.order.orderId, reply.title, reply.names, chosen)
    case _ => true
  }

  lemma EntersByReply(s: System, reply: Reply)
    requires s.body.Some? && BodyStep(s, reply).body.Some? && BodyStep(s, reply).body != s.body
    ensures Explains(reply, s.body.value, BodyStep(s, reply).body.value)
  {
    hide CallStep, Patched, Explains, WriteStep;
    if WriteAt(s.body.value.pc).Some? {
      WritesEnterNeither(s, reply);
    } else {
      CallsEnterByReply(s, reply);
    }
  }

  lemma WritesEnterNeither(s: System, reply: Reply)
    requires s.body.Some? && WriteAt(s.body.value.pc).Some?
    requires var s' := BodyStep(s, reply); s'.body.Some? && s'.body != s.body
    ensures Explains(reply, s.body.value, BodyStep(s, reply).body.value)
  {
    hide CallStep, Patched, IsFileOf;
  }

  lemma CallsEnterByReply(s: System, reply: Reply)
    requires s.body.Some? && CallStep(s, reply).body.Some? && CallStep(s, reply).body != s.body
    ensures Explains(reply, s.body.value, CallStep(s, reply).body.value)
  {
    hide ProvenSale, LicenseSeen, BuyerSeen, IsPinned, IsFileOf, CanonicalDataset, ResolveItemNames;
    if s.body.value.pc.Resolve? && reply.Names? {
      BuiltFile(s.body.value.order, reply.title, s.body.value.pc.found, reply.names);
    }
  }

  lemma BuiltFile(o: Order, title: string, rows: seq<PinnedRow>, names: map<nat, string>)
    ensures IsFileOf(CanonicalDataset(o.tournamentId, title, o.orderId, ResolveItemNames(rows, names)),
                     o.tournamentId, o.orderId, title, names, rows)
  {
  }

  lemma {:induction false} RowsWereFound(states: seq<System>, actions: seq<Action>, n: nat) returns (j: nat)
    requires IsRun(states, actions) && n <= |actions| && states[n].body.Some? && states[n].body.value.pc.Resolve?
    ensures j < n && Found(states[j], actions[j], states[n].body.value.order.orderId, states[n].body.value.pc.found)
  {
    hide Next, Enabled, BodyStep;
    if states[n].body == states[n - 1].body {
      j := RowsWereFound(states, actions, n - 1);
    } else {
      j := n - 1;
      LastMove(states, actions, n);
    }
  }

  /** A body that stands somewhere new, past its claim, got there by the answer to its await. */
  lemma LastMove(states: seq<System>, actions: seq<Action>, n: nat)
    requires IsRun(states, actions) && 0 < n <= |actions| && states[n].body.Some? && states[n].body != states[n - 1].body
    requires !states[n].body.value.pc.Claim?
    ensures actions[n - 1].Await? && states[n - 1].body.Some?
    ensures states[n].body.value.order == states[n - 1].body.value.order
    ensures Explains(actions[n - 1].reply, states[n - 1].body.value, states[n].body.value)
  {
    hide BodyStep, Step, Explains;
    var s, a := states[n - 1], actions[n - 1];
    assert Enabled(s, a) && states[n] == Next(s, a);
    BodyMovesByAwaits(s, a);
    EntersByReply(s, a.reply);
    AwaitKeepsOrder(s, a.reply);
  }

  /** The rows were found first, and title and names read afterwards, by bodies of the order. */
  ghost predicate WasBuilt(states: seq<System>, actions: seq<Action>, n: nat, id: nat, file: Dataset, j: nat, k: nat)
    requires n <= |actions| < |states|
  {
    j < k < n && exists chosen :: Found(states[j], actions[j], id, chosen) && Named(states[k], actions[k], id, chosen, file)
  }

  lemma {:induction false} PinWasBuilt(states: seq<System>, actions: seq<Action>, n: nat) returns (j: nat, k: nat)
    requires IsRun(states, actions) && n <= |actions| && states[n].body.Some? && states[n].body.value.pc.Pin?
    ensures WasBuilt(states, actions, n, states[n].body.value.order.orderId, states[n].body.value.pc.json, j, k)
  {
    hide Next, Enabled, BodyStep, IsFileOf, AreFirstOf;
    if states[n].body == states[n - 1].body {
      j, k := PinWasBuilt(states, actions, n - 1);
    } else {
      LastMove(states, actions, n);
      k := n - 1;
      j := RowsWereFound(states, actions, k);
      var b := states[n].body.value;
      assert Named(states[k], actions[k], b.order.orderId, b.pc.chosen, b.pc.json);
    }
  }

  /** Only the pinning write stores a file. */
  lemma FileStored(s: System, a: Action, id: nat)
    requires Enabled(s, a) && id in Next(s, a).orders && Next(s, a).orders[id].datasetJson.Some?
    requires id in s.orders ==> s.orders[id].datasetJson != Next(s, a).orders[id].datasetJson
    ensures s.body.Some? && s.body.value.pc.Pin? && s.body.value.order.orderId == id
    ensures Some(s.body.value.pc.json) == Next(s, a).orders[id].datasetJson
  {
    hide CallStep, AfterWrite, Caught, Step;
    if a.Await? && WriteAt(s.body.value.pc).None? { CallsWriteNothing(s, a.reply); }
  }

  /** In every run, the file stored for an order was built by a body of the order from the first eight rows
      it had found in escrow and from the title and names it then read: every item and every id of every
      bracket is called by its name in the catalogue, or by its number. */
  lemma {:induction false} FileWasBuilt(states: seq<System>, actions: seq<Action>, n: nat, id: nat, file: Dataset)
    returns (j: nat, k: nat)
    requires IsRun(states, actions) && n <= |actions| && id in states[n].orders && states[n].orders[id].datasetJson == Some(file)
    ensures WasBuilt(states, actions, n, id, file, j, k)
  {
    hide Next, Enabled, Found, Named;
    if n > 0 && id in states[n - 1].orders && states[n - 1].orders[id].datasetJson == Some(file) {
      j, k := FileWasBuilt(states, actions, n - 1, id, file);
    } else if n > 0 {
      FileStored(states[n - 1], actions[n - 1], id);
      j, k := PinWasBuilt(states, actions, n - 1);
    }
  }

  /** So was every file a download serves. */
  lemma DownloadWasBuilt(states: seq<System>, actions: seq<Action>, n: nat, chainId: nat, wallet: string, id: nat)
    returns (j: nat, k: nat)
    requires IsRun(states, actions) && n <= |actions| && GetDatasetJson(states[n], chainId, wallet, id).Some?
    ensures WasBuilt(states, actions, n, id, GetDatasetJson(states[n], chainId, wallet, id).value, j, k)
  {
    hide Next, Enabled, IsInitial, WasBuilt;
    j, k := FileWasBuilt(states, actions, n, id, GetDatasetJson(states[n], chainId, wallet, id).value);
  }
}
