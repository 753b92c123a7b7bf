/** When the chain accepts the sale a proof yields: the witness reads its paths from a view of the ledger,
    which may lag behind the chain that checks them. */
module SaleTheorems {
  import opened Options
  import opened Digests
  import opened MerkleTree
  import opened Ledger
  import opened LedgerInvariants
  import opened LedgerTheorems
  import opened Orders
  import opened HexCodec
  import opened Texts
  import Fulfilment

  /** No tree gives out a path whose top sibling is a blank left half: a leaf to the right has leaves to
      its left. */
  lemma BlankLeftHalfIsNoPath(p: MerklePath, leaves: seq<Bytes32>, depth: nat)
    requires depth > 0 && |p.entries| == depth && p.entries[depth - 1] == PathEntry(Blank, false)
    ensures PathRoot(p) != TreeRoot(leaves, depth)
  {
    hide Climb;
    if PathRoot(p) == TreeRoot(leaves, depth) {
      VerifyingPathIsGenuine(p, leaves, 0, depth);
      TopEntry(leaves, depth, PathIndex(p));
    }
  }

  lemma TopEntry(leaves: seq<Bytes32>, depth: nat, i: nat)
    requires depth > 0 && i < Pow2(depth) && i < |leaves|
    ensures PathEntriesFor(leaves, 0, depth, i)[depth - 1] != PathEntry(Blank, false)
  {
  }

  lemma EmptyPathIsNeverAccepted(t: HistoricTree, leaf: Bytes32)
    requires t.Valid() && t.depth == TREE_DEPTH
    ensures !t.Accepts(EmptyPath(leaf))
  {
    hide PathRoot, TreeRoot;
    forall k | 0 <= k <= |t.leaves| ensures PathRoot(EmptyPath(leaf)) != t.Version(k) {
      BlankLeftHalfIsNoPath(EmptyPath(leaf), t.leaves[..k], TREE_DEPTH);
    }
  }

  function CommitOf(r: PinnedRow): Bytes32 {
    VoteCommitment(VoteRowOfPin(r), SaltBytes(r.salt))
  }

  /** A path found in a view is accepted by the tree the view grew into. */
  lemma FoundPathStaysAccepted(tree: HistoricTree, later: HistoricTree, leaf: Bytes32)
    requires tree.Valid() && later.Valid() && Extends(later, tree) && leaf in tree.leaves
    ensures FindPathForLeaf(tree, leaf) != [] && later.Accepts(FindPathForLeaf(tree, leaf)[0])
  {
    hide HistoricTree.Accepts, HistoricTree.Version, PathEntriesFor, FindPathForLeaf;
    var p := FindPathForLeaf(tree, leaf)[0];
    AcceptsExactlyGenuinePaths(tree, p);
    var k, i: nat :| i < k <= |tree.leaves| && p == PathFor(tree.leaves[..k], tree.depth, i);
    OldPathsStayAccepted(tree, later, k, i);
  }

  /** One row of the witness passes the circuit exactly when it is of the sale's tournament and the view
      already had its commitment; one the view had not is refused as not on the chain. */
  lemma WitnessRowPassesIff(c: Cells, tree: HistoricTree, r: PinnedRow, t: nat)
    requires c.voteCommits.Valid() && tree.Valid() && Extends(c.voteCommits, tree) && tree.depth == TREE_DEPTH
    ensures CheckRow(c, WitnessRow(r, tree), t) ==
      if r.tournamentId != t then Fault(WrongTournament)
      else if CommitOf(r) in tree.leaves then Pass
      else Fault(RowNotOnChain)
  {
    hide HistoricTree.Valid, PathRoot, FindPathForLeaf, EmptyPath, SegmentBytes, SaltBytes;
    EmptyPathEntries(CommitOf(r));
    if CommitOf(r) in tree.leaves {
      FoundPathStaysAccepted(tree, c.voteCommits, CommitOf(r));
    } else {
      EmptyPathIsNeverAccepted(c.voteCommits, CommitOf(r));
    }
  }

  lemma EmptyPathEntries(leaf: Bytes32)
    ensures EmptyPath(leaf).leaf == leaf && |EmptyPath(leaf).entries| == TREE_DEPTH
  {
  }

  lemma WitnessIsWellTyped(pins: seq<PinnedRow>, tree: HistoricTree)
    requires |pins| <= ROW_SLOTS && tree.depth == TREE_DEPTH
    ensures RowsTypeOk(WitnessRows(pins, tree))
  {
    hide FindPathForLeaf, EmptyPath, SegmentBytes, SaltBytes;
    var rows := WitnessRows(pins, tree);
    forall i | 0 <= i < |rows| ensures |rows[i].path.entries| == TREE_DEPTH {
      WitnessAt(pins, tree, i);
      EmptyPathEntries(ZERO);
      if i < |pins| { EmptyPathEntries(CommitOf(pins[i])); }
    }
  }

  lemma WitnessAt(pins: seq<PinnedRow>, tree: HistoricTree, i: nat)
    requires |pins| <= ROW_SLOTS && i < ROW_SLOTS
    ensures |WitnessRows(pins, tree)| == ROW_SLOTS
    ensures WitnessRows(pins, tree)[i] == if i < |pins| then WitnessRow(pins[i], tree) else ABSENT_ROW
  {
    hide WitnessRow;
  }

  /** Every row is of the tournament, and its commitment was already in the view. */
  predicate Sellable(pins: seq<PinnedRow>, tree: HistoricTree, t: nat) {
    forall i :: 0 <= i < |pins| ==> pins[i].tournamentId == t && CommitOf(pins[i]) in tree.leaves
  }

  /** The first row that fails is of the tournament, but the view has not its commitment. */
  predicate Misses(pins: seq<PinnedRow>, tree: HistoricTree, t: nat) {
    exists i :: 0 <= i < |pins| && pins[i].tournamentId == t && CommitOf(pins[i]) !in tree.leaves && Sellable(pins[..i], tree, t)
  }

  /** The rows' check passes when each row's does, and otherwise answers with the first fault. */
  lemma {:induction false} ChecksOfRows(c: Cells, rows: seq<EscrowRow>, t: nat, n: nat)
    requires n <= |rows|
    ensures CheckRows(c, rows, t, n).Pass? <==> forall i :: 0 <= i < n ==> CheckRow(c, rows[i], t).Pass?
    ensures CheckRows(c, rows, t, n).Fault? ==> exists i :: IsFirstFault(c, rows, t, n, i)
  {
    hide CheckRow;
    if n > 0 {
      ChecksOfRows(c, rows, t, n - 1);
      if CheckRows(c, rows, t, n - 1).Fault? {
        var i :| IsFirstFault(c, rows, t, n - 1, i);
        assert IsFirstFault(c, rows, t, n, i);
      } else if CheckRows(c, rows, t, n).Fault? {
        assert IsFirstFault(c, rows, t, n, n - 1);
      }
    }
  }

  predicate IsFirstFault(c: Cells, rows: seq<EscrowRow>, t: nat, n: nat, i: int)
    requires n <= |rows|
  {
    && 0 <= i < n && CheckRow(c, rows[i], t) == CheckRows(c, rows, t, n)
    && forall j :: 0 <= j < i ==> CheckRow(c, rows[j], t).Pass?
  }

  /** What the check of one slot of the witness comes to. */
  function SlotVerdict(pins: seq<PinnedRow>, tree: HistoricTree, t: nat, i: nat): Verdict {
    if i >= |pins| then Pass
    else if pins[i].tournamentId != t then Fault(WrongTournament)
    else if CommitOf(pins[i]) in tree.leaves then Pass
    else Fault(RowNotOnChain)
  }

  lemma SlotChecks(c: Cells, pins: seq<PinnedRow>, tree: HistoricTree, t: nat, i: nat)
    requires c.voteCommits.Valid() && tree.Valid() && Extends(c.voteCommits, tree)
    requires tree.depth == TREE_DEPTH && |pins| <= ROW_SLOTS && i < ROW_SLOTS
    ensures |WitnessRows(pins, tree)| == ROW_SLOTS
    ensures CheckRow(c, WitnessRows(pins, tree)[i], t) == SlotVerdict(pins, tree, t, i)
  {
    hide HistoricTree.Valid, WitnessRow, CheckRow, CommitOf, WitnessRows;
    WitnessAt(pins, tree, i);
    AbsentRowPasses(c, t);
    if i < |pins| { WitnessRowPassesIff(c, tree, pins[i], t); }
  }

  /** The witness of pinned rows passes the check exactly when all of them are sellable, and otherwise the
      first row that is not says why. */
  lemma WitnessChecks(c: Cells, pins: seq<PinnedRow>, tree: HistoricTree, t: nat)
    requires c.voteCommits.Valid() && tree.Valid() && Extends(c.voteCommits, tree)
    requires tree.depth == TREE_DEPTH && |pins| <= ROW_SLOTS
    ensures |WitnessRows(pins, tree)| == ROW_SLOTS
    ensures CheckRows(c, WitnessRows(pins, tree), t, ROW_SLOTS) ==
      if Sellable(pins, tree, t) then Pass
      else if Misses(pins, tree, t) then Fault(RowNotOnChain)
      else Fault(WrongTournament)
  {
    hide HistoricTree.Valid, CheckRow, CheckRows, CommitOf, WitnessRows;
    var rows := WitnessRows(pins, tree);
    SlotChecks(c, pins, tree, t, 0);
    forall i | 0 <= i < ROW_SLOTS ensures CheckRow(c, rows[i], t) == SlotVerdict(pins, tree, t, i) {
      SlotChecks(c, pins, tree, t, i);
    }
    ChecksOfRows(c, rows, t, ROW_SLOTS);
    if CheckRows(c, rows, t, ROW_SLOTS).Fault? {
      var i :| IsFirstFault(c, rows, t, ROW_SLOTS, i);
      FirstFaultSays(pins, tree, t, i);
    } else {
      forall i | 0 <= i < |pins| ensures pins[i].tournamentId == t && CommitOf(pins[i]) in tree.leaves {
        assert CheckRow(c, rows[i], t).Pass?;
      }
    }
  }

  lemma FirstFaultSays(pins: seq<PinnedRow>, tree: HistoricTree, t: nat, i: nat)
    requires SlotVerdict(pins, tree, t, i).Fault? && forall j :: 0 <= j < i ==> SlotVerdict(pins, tree, t, j).Pass?
    ensures !Sellable(pins, tree, t)
    ensures SlotVerdict(pins, tree, t, i) == if Misses(pins, tree, t) then Fault(RowNotOnChain) else Fault(WrongTournament)
  {
    hide CommitOf;
    forall j | 0 <= j < i ensures pins[j].tournamentId == t && CommitOf(pins[j]) in tree.leaves {
      assert SlotVerdict(pins, tree, t, j).Pass?;
    }
    assert Sellable(pins[..i], tree, t);
    if Misses(pins, tree, t) {
      var k: nat :| k < |pins| && pins[k].tournamentId == t && CommitOf(pins[k]) !in tree.leaves && Sellable(pins[..k], tree, t);
      if i < k { PrefixPasses(pins, tree, t, k, i); }
      if k < i { PrefixPasses(pins, tree, t, i, k); }
    }
  }

  lemma PrefixPasses(pins: seq<PinnedRow>, tree: HistoricTree, t: nat, k: nat, i: nat)
    requires i < k <= |pins| && Sellable(pins[..k], tree, t)
    ensures SlotVerdict(pins, tree, t, i).Pass?
  {
    assert pins[..k][i] == pins[i];
  }

  lemma AbsentRowPasses(c: Cells, t: nat)
    ensures CheckRow(c, ABSENT_ROW, t) == Pass
  {
  }

  lemma SaleGuards(ch: Chain, view: Chain, pins: seq<PinnedRow>, t: nat)
    requires Inv(ch) && Inv(view) && Grew(view, ch) && 0 < |pins| <= ROW_SLOTS
    ensures var rows := WitnessRows(pins, view.cells.voteCommits);
      && RowsTypeOk(rows) && PresentCount(rows, |rows|) == |pins| && SampleOf(ch.cells, t) <= UINT32_MAX
      && CheckRows(ch.cells, rows, t, |rows|) ==
           if Sellable(pins, view.cells.voteCommits, t) then Pass
           else if Misses(pins, view.cells.voteCommits, t) then Fault(RowNotOnChain)
           else Fault(WrongTournament)
  {
    hide VotesOk, SalesOk, CheckRows, HistoricTree.Valid, CommitOf, WitnessRows, Misses, Sellable;
    WitnessIsWellTyped(pins, view.cells.voteCommits);
    PresentsCount(WitnessRows(pins, view.cells.voteCommits), pins, ROW_SLOTS);
    SamplesFitCast(ch, t);
    WitnessChecks(ch.cells, pins, view.cells.voteCommits, t);
  }

  lemma NothingLost(ch: Chain)
    ensures Grew(ch, ch)
  {
  }

  // ---------- The proof ----------

  /** The circuit gets as far as the rows: the signer calls, the buyer is registered, the license is new,
      and the witness can encode every row. */
  predicate ReachesRows(c: Cells, caller: Bytes32, o: Order, pins: seq<PinnedRow>) {
    caller == c.finalizeSigner && o.buyerPk in c.buyers && OrderLicenseId(o) !in c.licenses && RowsEncode(pins)
  }

  lemma RowsDecide(view: Chain, caller: Bytes32, o: Order, hash: Bytes32, pins: seq<PinnedRow>)
    requires Inv(view) && 0 < |pins| <= ROW_SLOTS && ReachesRows(view.cells, caller, o, pins)
    ensures var run, tree := SellRowsTo(view.cells, caller, SaleFrom(view.cells, o, hash, pins)), view.cells.voteCommits;
      if Sellable(pins, tree, o.tournamentId) then run.Accepted?
      else run == Rejected(if Misses(pins, tree, o.tournamentId) then RowNotOnChain else WrongTournament)
  {
    hide Inv, CheckRows, WitnessRows, PresentCount, CommitOf, Grew, RowsTypeOk, Misses, Sellable, RowsEncode;
    NothingLost(view);
    SaleGuards(view, view, pins, o.tournamentId);
  }

  /** A row somebody can encode: a bracket of a legal size, a segment of at most 32 bytes, a salt of 64 digits. */
  predicate CanBeEncoded(r: PinnedRow) {
    && (|r.bracket| == 16 || |r.bracket| == 32 || |r.bracket| == 64)
    && |Utf8(r.segment)| <= 32 && IsStrictHex(Stripped(r.salt)) && |Stripped(r.salt)| == 64
  }

  /** What stops a proof before the rows are checked, in this order: a caller that is not the signer, a buyer
      or license the view decides on, a witness without rows or with one it cannot encode.  Of the circuit's
      refusals an existing license is a sign of success, and a fault of the rows is final. */
  lemma ProofStopsIff(view: Chain, caller: Bytes32, o: Order, hash: Bytes32, pin: Option<seq<PinnedRow>>)
    ensures var proof, c := ProveSale(view.cells, caller, o, hash, pin), view.cells;
      var held := LicenseId(o.buyerPk, o.tournamentId, o.specHash) in c.licenses;
      && (proof == Refused(NotSigner) <==> caller != c.finalizeSigner)
      && (proof == Refused(BuyerNotRegistered) <==> caller == c.finalizeSigner && o.buyerPk !in c.buyers)
      && (proof == Refused(LicenseExists) <==> caller == c.finalizeSigner && o.buyerPk in c.buyers && held)
      && (proof.WitnessThrew? <==>
            && caller == c.finalizeSigner && o.buyerPk in c.buyers && !held
            && (pin.None? || pin.value == [] || exists i :: 0 <= i < |pin.value| && i < 8 && !CanBeEncoded(pin.value[i])))
    ensures forall why :: Fulfilment.RefusalError(why).licenseExists <==> why == LicenseExists
    ensures forall why :: Fulfilment.RefusalError(why).fatal <==> why in {EmptyDataset, WrongTournament, RowNotOnChain}
  {
    hide SellRowsTo, WitnessRows, LicenseId, RowsEncode, CanBeEncoded, Batch;
    if pin.Some? {
      EncodedIff(pin.value);
      PastTheGuards(view.cells, caller, SaleFrom(view.cells, o, hash, Batch(pin.value)), o);
    }
  }

  lemma {:induction false} RowFaults(c: Cells, rows: seq<EscrowRow>, t: nat, n: nat)
    requires n <= |rows|
    ensures CheckRows(c, rows, t, n) in {Pass, Fault(WrongTournament), Fault(RowNotOnChain)}
  {
    if n > 0 { RowFaults(c, rows, t, n - 1); }
  }

  lemma PastTheGuards(c: Cells, caller: Bytes32, s: SaleOrder, o: Order)
    requires s.buyerPk == o.buyerPk && s.tournamentId == o.tournamentId && s.specHash == o.specHash
    ensures caller == c.finalizeSigner && o.buyerPk in c.buyers && OrderLicenseId(o) !in c.licenses ==>
      SellRowsTo(c, caller, s) !in {Rejected(NotSigner), Rejected(BuyerNotRegistered), Rejected(LicenseExists)}
  {
    hide CheckRows, PresentCount, RowsTypeOk, SampleOf, MintedLicense, LicenseId;
    RowFaults(c, s.rows, s.tournamentId, |s.rows|);
  }

  lemma EncodedIff(pins: seq<PinnedRow>)
    ensures RowsEncode(Batch(pins)) <==> forall i :: 0 <= i < |pins| && i < 8 ==> CanBeEncoded(pins[i])
  {
    hide Stripped;
    var batch := Batch(pins);
    if RowsEncode(batch) {
      forall i | 0 <= i < |pins| && i < 8 ensures CanBeEncoded(pins[i]) {
        assert batch[i] in batch;
      }
    }
    forall i | 0 <= i < |batch| ensures batch[i] == pins[i] && (RowEncodes(batch[i]) <==> CanBeEncoded(pins[i])) {
    }
  }

  /** Exactly when there is a proof, and what the circuit refuses otherwise: everything is looked up in the
      one view the circuit is run on. */
  lemma ProofExistsIff(view: Chain, caller: Bytes32, o: Order, hash: Bytes32, pins: seq<PinnedRow>)
    requires Inv(view) && 0 < |pins| <= ROW_SLOTS
    ensures var proof, tree := ProveSale(view.cells, caller, o, hash, Some(pins)), view.cells.voteCommits;
      && (proof.Proven? <==> ReachesRows(view.cells, caller, o, pins) && Sellable(pins, tree, o.tournamentId))
      && (proof.Proven? ==> proof.sale == SaleFrom(view.cells, o, hash, pins))
      && (proof == Refused(RowNotOnChain) <==>
            ReachesRows(view.cells, caller, o, pins) && Misses(pins, tree, o.tournamentId) && !Sellable(pins, tree, o.tournamentId))
      && (proof.Refused? && IsFinal(proof.why) <==>
            ReachesRows(view.cells, caller, o, pins) && !Sellable(pins, tree, o.tournamentId))
  {
    hide Inv, SellRowsTo, SaleFrom, CommitOf, Misses, Sellable, RowsEncode;
    assert Batch(pins) == pins;
    if ReachesRows(view.cells, caller, o, pins) { RowsDecide(view, caller, o, hash, pins); }
  }

  /** A row that misses is not sellable. */
  lemma MissedIsUnsellable(pins: seq<PinnedRow>, tree: HistoricTree, t: nat)
    ensures Misses(pins, tree, t) ==> !Sellable(pins, tree, t)
    ensures (forall r <- pins :: r.tournamentId == t) && !Sellable(pins, tree, t) ==> Misses(pins, tree, t)
  {
    hide CommitOf;
    if !Sellable(pins, tree, t) && forall r <- pins :: r.tournamentId == t {
      var i: nat :| i < |pins| && CommitOf(pins[i]) !in tree.leaves;
      FirstMiss(pins, tree, t, i);
    }
  }

  lemma {:induction false} FirstMiss(pins: seq<PinnedRow>, tree: HistoricTree, t: nat, i: nat)
    requires i < |pins| && CommitOf(pins[i]) !in tree.leaves && forall r <- pins :: r.tournamentId == t
    ensures Misses(pins, tree, t)
  {
    hide CommitOf;
    if !Sellable(pins[..i], tree, t) {
      var j: nat :| j < i && CommitOf(pins[j]) !in tree.leaves;
      FirstMiss(pins, tree, t, j);
    }
  }

  /** A proof once made is accepted by every later chain, unless the signer changed or the license was
      minted meanwhile. */
  lemma ProvenSaleStands(ch: Chain, caller: Bytes32, view: Chain, o: Order, hash: Bytes32, pins: seq<PinnedRow>)
    requires Inv(ch) && Inv(view) && Grew(view, ch) && 0 < |pins| <= ROW_SLOTS
    requires ProveSale(view.cells, caller, o, hash, Some(pins)).Proven?
    ensures var sale := ProveSale(view.cells, caller, o, hash, Some(pins)).sale;
      SellRowsTo(ch.cells, caller, sale).Accepted? <==>
        caller == ch.cells.finalizeSigner && OrderLicenseId(o) !in ch.cells.licenses
  {
    hide Inv, CheckRows, WitnessRows, PresentCount, CommitOf, RowsTypeOk, Misses, Sellable, RowsEncode, ProveSale;
    ProofExistsIff(view, caller, o, hash, pins);
    SaleGuards(ch, view, pins, o.tournamentId);
  }

  /** The sale of pinned rows, proved on any view of the ledger, is accepted exactly when the signer of view
      and chain sends it, the view knows the buyer, the chain has no such license, and each row encodes, is
      of the tournament and was already in the view. */
  lemma SaleAcceptedIff(ch: Chain, caller: Bytes32, view: Chain, o: Order, hash: Bytes32, pins: seq<PinnedRow>)
    requires Inv(ch) && Inv(view) && Grew(view, ch) && 0 < |pins| <= ROW_SLOTS
    ensures var proof := ProveSale(view.cells, caller, o, hash, Some(pins));
      proof.Proven? && SellRowsTo(ch.cells, caller, proof.sale).Accepted? <==>
        && caller == view.cells.finalizeSigner == ch.cells.finalizeSigner
        && o.buyerPk in view.cells.buyers && OrderLicenseId(o) !in ch.cells.licenses
        && RowsEncode(pins) && Sellable(pins, view.cells.voteCommits, o.tournamentId)
  {
    hide Inv, SellRowsTo, CommitOf, Sellable, RowsEncode, ProveSale, OrderLicenseId;
    ProofExistsIff(view, caller, o, hash, pins);
    if ProveSale(view.cells, caller, o, hash, Some(pins)).Proven? {
      ProvenSaleStands(ch, caller, view, o, hash, pins);
    }
  }

  /** Rows that are all on the chain are refused for good exactly when the view they are proved on lags: it
      knows the buyer and no such license, but not yet every commitment.  Proved on the chain as it is the
      same rows pass, as long as signer and license are as they were. */
  lemma LaggingViewIsRefused(ch: Chain, caller: Bytes32, view: Chain, o: Order, hash: Bytes32, pins: seq<PinnedRow>)
    requires Inv(ch) && Inv(view) && Grew(view, ch) && 0 < |pins| <= ROW_SLOTS
    requires Sellable(pins, ch.cells.voteCommits, o.tournamentId)
    ensures ProveSale(view.cells, caller, o, hash, Some(pins)) == Refused(RowNotOnChain) <==>
      ReachesRows(view.cells, caller, o, pins) && !Sellable(pins, view.cells.voteCommits, o.tournamentId)
    ensures ReachesRows(view.cells, caller, o, pins) && caller == ch.cells.finalizeSigner && OrderLicenseId(o) !in ch.cells.licenses ==>
      ProveSale(ch.cells, caller, o, hash, Some(pins)).Proven?
  {
    hide Inv, CommitOf, Misses, RowsEncode, ProveSale, OrderLicenseId;
    ProofExistsIff(view, caller, o, hash, pins);
    ProofExistsIff(ch, caller, o, hash, pins);
    forall r | r in pins ensures r.tournamentId == o.tournamentId {
      var i: nat :| i < |pins| && pins[i] == r;
    }
    MissedIsUnsellable(pins, view.cells.voteCommits, o.tournamentId);
  }
}
