/** Historic Merkle trees: append-only leaf lists that remember every root they ever had.

    The contract checks membership by folding a caller-supplied path and looking the result up in
    that history.  The lemmas say which paths can pass the check: exactly the ones read off a past
    or present version of the tree. */
module MerkleTree {
  import opened Digests

  datatype PathEntry = PathEntry(sibling: Digest, goesLeft: bool)
  datatype MerklePath = MerklePath(leaf: Bytes32, entries: seq<PathEntry>)

  function Pow2(n: nat): (r: nat)
    ensures r > 0
  {
    if n == 0 then 1 else 2 * Pow2(n - 1)
  }

  // ---------- Folding a path ----------

  function EntryRoot(d: Digest, e: PathEntry): Digest {
    if e.goesLeft then Node(d, e.sibling) else Node(e.sibling, d)
  }

  /** The digest reached from `d` after the first `n` entries, the lowest level coming first. */
  function Climb(d: Digest, entries: seq<PathEntry>, n: nat): Digest
    requires n <= |entries|
    decreases n, |entries|
  {
    if n == 0 then d else EntryRoot(Climb(d, entries, n - 1), entries[n - 1])
  }

  function PathRoot(p: MerklePath): Digest {
    Climb(LeafHash(p.leaf), p.entries, |p.entries|)
  }

  /** The leaf index the first `n` direction bits spell, lowest level first. */
  function Position(entries: seq<PathEntry>, n: nat): nat
    requires n <= |entries|
    decreases n, |entries|
  {
    if n == 0 then 0
    else Position(entries, n - 1) + if entries[n - 1].goesLeft then 0 else Pow2(n - 1)
  }

  function PathIndex(p: MerklePath): nat {
    Position(p.entries, |p.entries|)
  }

  lemma LowerEntries(d: Digest, lower: seq<PathEntry>, e: PathEntry, n: nat)
    requires n <= |lower|
    ensures Climb(d, lower + [e], n) == Climb(d, lower, n)
    ensures Position(lower + [e], n) == Position(lower, n)
  {
  }

  method MerkleTreePathRoot(p: MerklePath) returns (root: Digest)
    ensures root == PathRoot(p)
  {
    root := LeafHash(p.leaf);
    for i := 0 to |p.entries|
      invariant root == Climb(LeafHash(p.leaf), p.entries, i)
    {
      root := EntryRoot(root, p.entries[i]);
    }
  }

  // ---------- Roots of leaf lists ----------

  /** The digest of the subtree of height `depth` whose first leaf has index `lo`. */
  function Subtree(leaves: seq<Bytes32>, lo: nat, depth: nat): Digest
    decreases depth, |leaves|
  {
    if lo >= |leaves| then Blank
    else if depth == 0 then LeafHash(leaves[lo])
    else Node(Subtree(leaves, lo, depth - 1), Subtree(leaves, lo + Pow2(depth - 1), depth - 1))
  }

  /** The path the tree itself gives out for leaf number `i`. */
  function PathEntriesFor(leaves: seq<Bytes32>, lo: nat, depth: nat, i: nat): (r: seq<PathEntry>)
    requires lo <= i < lo + Pow2(depth)
    ensures |r| == depth
    decreases depth, |leaves|
  {
    if depth == 0 then []
    else
      var mid := lo + Pow2(depth - 1);
      if i < mid then PathEntriesFor(leaves, lo, depth - 1, i) + [PathEntry(Subtree(leaves, mid, depth - 1), true)]
      else PathEntriesFor(leaves, mid, depth - 1, i) + [PathEntry(Subtree(leaves, lo, depth - 1), false)]
  }

  function TreeRoot(leaves: seq<Bytes32>, depth: nat): Digest {
    Subtree(leaves, 0, depth)
  }

  function PathFor(leaves: seq<Bytes32>, depth: nat, i: nat): MerklePath
    requires i < |leaves| <= Pow2(depth)
  {
    MerklePath(leaves[i], PathEntriesFor(leaves, 0, depth, i))
  }

  /** A path handed out by a subtree folds back to its digest and spells the index it was asked for. */
  lemma {:induction false} PathForVerifies(leaves: seq<Bytes32>, lo: nat, depth: nat, i: nat)
    requires lo <= i < lo + Pow2(depth) && i < |leaves|
    ensures Climb(LeafHash(leaves[i]), PathEntriesFor(leaves, lo, depth, i), depth) == Subtree(leaves, lo, depth)
    ensures Position(PathEntriesFor(leaves, lo, depth, i), depth) == i - lo
    decreases depth
  {
    if depth > 0 {
      var mid := lo + Pow2(depth - 1);
      var first, other := if i < mid then lo else mid, if i < mid then mid else lo;
      PathForVerifies(leaves, first, depth - 1, i);
      LowerEntries(LeafHash(leaves[i]), PathEntriesFor(leaves, first, depth - 1, i),
        PathEntry(Subtree(leaves, other, depth - 1), i < mid), depth - 1);
    }
  }

  /** Conversely, any path that folds to a subtree's digest is the path the subtree gives out, for the
      leaf at the position its direction bits spell. */
  lemma {:induction false} VerifyingPathIsGenuine(p: MerklePath, leaves: seq<Bytes32>, lo: nat, depth: nat)
    requires |p.entries| == depth
    requires PathRoot(p) == Subtree(leaves, lo, depth)
    ensures PathIndex(p) < Pow2(depth) && lo + PathIndex(p) < |leaves|
    ensures p.leaf == leaves[lo + PathIndex(p)]
    ensures p.entries == PathEntriesFor(leaves, lo, depth, lo + PathIndex(p))
    decreases depth
  {
    if depth > 0 {
      var last := p.entries[depth - 1];
      var lower := MerklePath(p.leaf, p.entries[..depth - 1]);
      assert p.entries == lower.entries + [last];
      LowerEntries(LeafHash(p.leaf), lower.entries, last, depth - 1);
      VerifyingPathIsGenuine(lower, leaves, if last.goesLeft then lo else lo + Pow2(depth - 1), depth - 1);
    }
  }

  // ---------- Trees with history ----------

  datatype HistoricTree = HistoricTree(depth: nat, leaves: seq<Bytes32>, history: set<Digest>) {

    /** The history holds the root of every version of the tree, from the empty one on, and no other. */
    ghost predicate Valid() {
      && |leaves| <= Pow2(depth)
      && (forall k :: 0 <= k <= |leaves| ==> Version(k) in history)
      && (forall d <- history :: exists k :: 0 <= k <= |leaves| && d == Version(k))
    }

    ghost function Version(k: nat): Digest
      requires k <= |leaves|
    {
      TreeRoot(leaves[..k], depth)
    }

    predicate IsFull() {
      |leaves| >= Pow2(depth)
    }

    /** Appends at the first free index and remembers the new root. */
    function Insert(leaf: Bytes32): (t: HistoricTree)
      requires !IsFull()
    {
      HistoricTree(depth, leaves + [leaf], history + {TreeRoot(leaves + [leaf], depth)})
    }

    /** The ledger's membership test: the recomputed root was at some time this tree's root. */
    predicate Accepts(p: MerklePath) {
      |p.entries| == depth && PathRoot(p) in history
    }
  }

  function EmptyTree(depth: nat): (t: HistoricTree)
    ensures t.Valid()
  {
    var t := HistoricTree(depth, [], {Blank});
    assert t.Version(0) == Blank;
    t
  }

  lemma InsertKeepsValid(t: HistoricTree, leaf: Bytes32)
    requires t.Valid() && !t.IsFull()
    ensures t.Insert(leaf).Valid()
    ensures t.history <= t.Insert(leaf).history
  {
    var u := t.Insert(leaf);
    forall k | 0 <= k <= |t.leaves| ensures u.leaves[..k] == t.leaves[..k] {
    }
    assert u.leaves[..|u.leaves|] == u.leaves;
    forall k | 0 <= k <= |u.leaves| ensures u.Version(k) in u.history {
      if k <= |t.leaves| {
        assert t.Version(k) in t.history;
      }
    }
    forall d | d in u.history ensures exists k :: 0 <= k <= |u.leaves| && d == u.Version(k) {
      if d in t.history {
        var k :| 0 <= k <= |t.leaves| && d == t.Version(k);
        assert d == u.Version(k);
      } else {
        assert d == u.Version(|u.leaves|);
      }
    }
  }

  /** The membership test accepts a path if and only if it is the path some version of the tree gave
      out for one of its leaves. */
  lemma AcceptsExactlyGenuinePaths(t: HistoricTree, p: MerklePath)
    requires t.Valid()
    ensures t.Accepts(p) <==> exists k, i: nat :: i < k <= |t.leaves| && p == PathFor(t.leaves[..k], t.depth, i)
  {
    if t.Accepts(p) {
      var k :| 0 <= k <= |t.leaves| && PathRoot(p) == t.Version(k);
      VerifyingPathIsGenuine(p, t.leaves[..k], 0, t.depth);
      assert p == PathFor(t.leaves[..k], t.depth, PathIndex(p));
    }
    if k, i: nat :| i < k <= |t.leaves| && p == PathFor(t.leaves[..k], t.depth, i) {
      PathForVerifies(t.leaves[..k], 0, t.depth, i);
      assert t.Version(k) in t.history;
    }
  }

  /** An accepted path proves that its leaf was inserted, at the index its direction bits spell. */
  lemma AcceptedLeafWasInserted(t: HistoricTree, p: MerklePath)
    requires t.Valid() && t.Accepts(p)
    ensures PathIndex(p) < |t.leaves| && t.leaves[PathIndex(p)] == p.leaf
  {
    var k :| 0 <= k <= |t.leaves| && PathRoot(p) == t.Version(k);
    VerifyingPathIsGenuine(p, t.leaves[..k], 0, t.depth);
  }

  /** `later` is `t` after any number of further insertions. */
  ghost predicate Extends(later: HistoricTree, t: HistoricTree) {
    later.depth == t.depth && t.leaves <= later.leaves
  }

  /** A path taken from any past version keeps verifying in every later state. */
  lemma OldPathsStayAccepted(t: HistoricTree, later: HistoricTree, k: nat, i: nat)
    requires t.Valid() && later.Valid() && Extends(later, t)
    requires i < k <= |t.leaves|
    ensures later.Accepts(PathFor(t.leaves[..k], t.depth, i))
  {
    assert t.leaves[..k] == later.leaves[..k];
    PathForVerifies(later.leaves[..k], 0, later.depth, i);
    assert later.Version(k) in later.history;
  }

  /** The path the ledger object offers for a leaf: that of its first occurrence, if there is one. */
  function FindPathForLeaf(t: HistoricTree, leaf: Bytes32): (r: seq<MerklePath>)
    ensures t.Valid() ==> (r == [] <==> leaf !in t.leaves)
    ensures |r| <= 1 && (r != [] ==> r[0].leaf == leaf && |r[0].entries| == t.depth)
    ensures r != [] && t.Valid() ==> t.Accepts(r[0])
  {
    if leaf !in t.leaves || |t.leaves| > Pow2(t.depth) then []
    else
      var i := IndexOf(t.leaves, leaf);
      assert t.Valid() ==> t.Accepts(PathFor(t.leaves, t.depth, i)) by {
        if t.Valid() {
          assert t.leaves[..|t.leaves|] == t.leaves;
          OldPathsStayAccepted(t, t, |t.leaves|, i);
        }
      }
      [PathFor(t.leaves, t.depth, i)]
  }

  function IndexOf(leaves: seq<Bytes32>, leaf: Bytes32): (i: nat)
    requires leaf in leaves
    ensures i < |leaves| && leaves[i] == leaf && leaf !in leaves[..i]
  {
    if leaves[0] == leaf then 0 else
      assert leaves == [leaves[0]] + leaves[1..];
      var j := IndexOf(leaves[1..], leaf);
      assert leaves[..j + 1] == [leaves[0]] + leaves[1..][..j];
      j + 1
  }
}
