/** The 32-byte values and field digests of the TournamentFinalizer contract, kept symbolic.

    Every hash is a constructor, so two hashes agree exactly when their preimages do.  `Raw` stands
    for any 32 bytes that were not produced by one of the hashes: keys, tags, encoded numbers. */
module Digests {

  datatype VoteRow = VoteRow(tournamentId: nat, itemId: nat, bracketHash: Bytes32, segment: Bytes32)

  /** One row of a sold dataset file, with the display names resolved at sale time. */
  datatype DatasetRow = DatasetRow(
    tournamentId: nat, itemId: nat, itemName: string,
    bracket: seq<nat>, bracketNames: seq<string>, segment: string, salt: string)

  /** The content of the JSON file a buyer downloads; its printer is taken to be injective. */
  datatype Dataset = Dataset(tournamentId: nat, title: string, orderId: nat, rows: seq<DatasetRow>)

  datatype Bytes32 =
    | Raw(value: nat)
    | Hash2(p0: Bytes32, p1: Bytes32)
    | Hash3(q0: Bytes32, q1: Bytes32, q2: Bytes32)
    | Hash6(r0: Bytes32, r1: Bytes32, r2: Bytes32, r3: Bytes32, r4: Bytes32, r5: Bytes32)
    | HashVector(parts: seq<Bytes32>)
    | HashBracket(items: seq<nat>)
    | RowCommit(row: VoteRow, salt: Bytes32)
    | Sha256Spec(specTournament: nat, specOrder: nat)
    | Sha256File(file: Dataset)
    | Sha256Text(text: string)

  /** Digests of the Merkle trees: field elements, not bytes.  `Blank` is the digest of a subtree
      without leaves, at every height. */
  datatype Digest = Blank | LeafHash(data: Bytes32) | Node(left: Digest, right: Digest)

  const ZERO := Raw(0)

  /** Domain separators: the ASCII bytes of "pnyx:user:pk" and "pnyx:nullifier", padded to 32. */
  const USER_PK_TAG := Raw(0x706e79783a757365723a706b_0000000000000000000000000000000000000000)
  const NULLIFIER_TAG := Raw(0x706e79783a6e756c6c6966696572_000000000000000000000000000000000000)

  function UserPublicKey(secret: Bytes32): Bytes32 {
    Hash2(USER_PK_TAG, secret)
  }

  function EligibilityLeaf(tag: Bytes32, userPk: Bytes32, tournamentId: nat, point: nat, deadline: nat,
      bracketHash: Bytes32): Bytes32 {
    Hash6(tag, userPk, Raw(tournamentId), Raw(point), Raw(deadline), bracketHash)
  }

  function VoteNullifier(secret: Bytes32, tournamentId: nat): Bytes32 {
    Hash3(NULLIFIER_TAG, secret, Raw(tournamentId))
  }

  function VoteCommitment(row: VoteRow, salt: Bytes32): Bytes32 {
    RowCommit(row, salt)
  }

  function LicenseId(buyerPk: Bytes32, tournamentId: nat, specHash: Bytes32): Bytes32 {
    Hash3(buyerPk, Raw(tournamentId), specHash)
  }
}
