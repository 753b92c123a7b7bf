# Verified model of the tournament ledger and its backend

The system lets players vote by finishing a bracket tournament, seals each vote on a ledger contract, counts the
plays in a statistics database, and sells licensed datasets of sealed votes. The project models four parts of it and
the joints between them, and proves what holds over all of their runs.

- **The contract.** `Digests`, `MerkleTree`, `Ledger` model the twelve ledger cells and the circuits' effect on them;
  `Contract` writes the circuits as methods of a class with those cells as fields, each proved against its effect.
  `LedgerInvariants`, `LedgerTheorems` and `LedgerRules` hold for every sequence of calls by anybody.
- **The data market.** `Orders`, `Fulfilment` model one backend process, its order store, the chain and an environment
  that may lose replies, delay or repeat transactions, answer from any past state of the chain, or crash the process
  at every await. `FulfilmentInvariants` and `FulfilmentTheorems` cover every such run, `OrderRules` says what its
  steps make of an order and what a body has done where it stands, `SoldFiles` what a sold file was built from.
  `SaleTheorems` says when a sale is proved on a view of the ledger and which proven sales the chain accepts,
  `TerminalOrders` when an ended order is final, `Retries` how often an order is worked on; `Scenarios` builds runs
  that reach a delivery, a wrong final refusal, and each way an ended order is reopened.
- **Its program text.** `FulfilService` is the body with its polling loops and its failure handler, each await of
  which is one step of the machine with any number of other steps before it; `SerialQueue` derives the queue the
  machine takes for granted from the promise chain it is written as.
- **Grants.** `HexCodec`, `ServedBrackets`, `Grants`, `GrantDecisions`, `GrantLaws`, `GrantRules`: decoding and
  checking a bracket, what a request is answered, the grant record under an unreliable probe, its confirmation, and
  what the record is worth on the chain; `GrantScenarios` builds runs of it.
- **All together.** `Platform` joins the grant service, the fulfilment process and the chain both act on, with the
  transactions an indexer finds on it. `ServedVotes` follows a served list of ids through grant and vote to the row
  that is sold; `ConfirmedVotes` says what a confirmed play proves about the chain; `PlatformScenarios` builds runs in
  which it proves nothing.
- **Statistics and the rest.** `Bracket`, `BracketLaws` replay a bracket; `StatsIndex`, `StatsService`, `StatsLaws`
  fold replays into the database and out of it, `PlayScores` says what one play adds to each document. `Sampling`,
  `Rewards`, `Limiter`, `FanOut` are self-contained algorithms. `Sums`, `Sorting`, `Options`, `Texts` are shared
  helpers.

Where the source works in place the model does too: classes with fields and `modifies` for the contract, the fulfil
service, the statistics service, the grant service, the limiter with its metrics and the notification sender; loops
over arrays for the shuffle and the hex decoders. Each such method is proved equal to a specification function or
relation, and the laws are proved of that.

`dafny verify dfyconfig.toml` checks the whole project.

## Assumptions

- Hashes are constructors of a datatype, so equal digests have equal preimages; this covers the contract's hashes,
  SHA-256 (section 6.2 of FIPS 180-4) and the JSON printers. An empty subtree has the digest `Blank`. Which key or
  digest a string of 32 bytes is read as is a function of the configuration.
- Only the backend submits sales with the signer's key; one backend process runs at a time; order ids are fresh.
- In `Platform` the chain accepts no grant but those the grant service has handed over, and the indexer finds a
  transaction as a call of the contract only when the call is on the chain, accepted or not.
- Proving a sale runs the circuit on one view of the ledger, from which the witness reads its paths as well; the view
  is any past state of the chain.
- Store writes are atomic. In `Fulfilment` a write may take effect and still be reported as failed.
- A payment request reads and writes the order in two steps, as written. Its write is acknowledged and the order is
  queued; a lost acknowledgement there would leave the order paid and unqueued until the boot. A confirmation of a vote
  is one step.
- The bound on retries is for runs without a crash, without a lost acknowledgement, and in which the writes that claim
  an order or count its failure do not throw (`Retries.Reliable`); a throw there leaves the order to the boot recovery.
  In `FulfilService` the order of a start can be read as well.
- A rollback carries the event it undoes; the catalogue of tournaments and items is fixed; users start with no points.
- A lock is per wallet and held until its request ends; the clock, the network, the indexer and random numbers are
  parameters.
- Rates are real numbers, and the index 0.95 n of the percentile is exact, as it is in floating point for the 400
  samples the window holds at most.

## Findings

- A license counts row slots: one good row in all eight slots is sold as eight rows. The row count equals the number
  of distinct votes sold exactly when no two present rows share a commitment (`LedgerTheorems.RowCountIsDistinctIff`,
  `RepeatedRowIsAccepted`).
- A fulfilled or failed order is final exactly under steps of one kind: a step is clean if and only if neither it nor
  any clean continuation changes an ended order (`TerminalOrders.CleanIsExact`). Unclean are a payment request that
  read the order unpaid and writes late, a delivery whose acknowledgement is lost, and a report of nothing to sell
  whose acknowledgement is lost, unless the error then seen reads like a final refusal. Each reopens an order in a run
  from every start (`Scenarios.StalePayReopens`, `LostDeliveryReopens`, `LostReportReopens`). The end-to-end promise
  holds in all runs, clean or not.
- A sale whose rows are all on the chain is refused for good exactly when the view it is proved on already knows the
  buyer and no such license, but not yet every row (`SaleTheorems.LaggingViewIsRefused`). A run reaches this with all
  answers of the indexer from one past state and nothing submitted (`Scenarios.LaggingViewFailsTheOrder`); proved on the
  present state the same rows pass.
- Escrow takes any row from the holder of a grant. One that encodes but opens no vote, among the first eight of a
  tournament, ends each order that pins it (`Scenarios.JunkRowFailsTheOrder`), and no such order is ever fulfilled
  (`FulfilmentTheorems.JunkRowIsNeverSold`).
- A counted play need not have a vote. The confirmation looks for any call of the contract, while the vote of a grant
  is on the chain exactly when some call of the history is an accepted vote with the record's leaf
  (`ConfirmedVotes.PlayHasItsVoteIff`), and a transaction brings it exactly when it is that call
  (`TransactionBringsVoteIff`). Confirmed by that call, the play and the vote agree for good (`ConfirmedByItsVote`); any
  other call confirms as well, in every state (`AnyCallConfirms`). Runs reach it with the grant's own transaction on a
  chain without votes (`PlatformScenarios.OwnGrantConfirms`) and with an accepted call of each circuit
  (`EveryKindConfirms`). The missing guard is the circuit called and its leaf.
- A second grant confirmed with an already counted transaction is marked but not counted
  (`GrantLaws.ConfirmationCountsIffNew`).
- A grant confirmed while one of its requests is under way can still be replaced by that request, so that a record
  marked as confirmed is for a bracket that was never counted (`GrantScenarios.OverlapIsReached`); otherwise a
  confirmed grant is final (`GrantLaws.ConfirmedGrantsAreFinal`).
- The two hex decoders read the same bytes exactly on whole pairs of hex digits (`HexCodec.DecodersAgreeIff`,
  `DecodersDisagree`); the request's format check is what makes them agree.
- The served ids survive their stored form exactly when there are any (`ServedBrackets.JoinSplitRoundTrip`).

## Model

| member | source | states |
|---|---|---|
| MerkleTree.MerkleTreePathRoot | midnight-contract/TournamentFinalizer/contract/index.js:985-1001 | the fold over a path's entries yields the path's root |
| MerkleTree.PathForVerifies | midnight-contract/TournamentFinalizer/contract/index.js:985-1001 | at every depth, a path handed out by a tree folds back to that tree's root and spells the index it was asked for |
| MerkleTree.VerifyingPathIsGenuine | midnight-contract/TournamentFinalizer/contract/index.js:985-1001 | at every depth, a path that folds to a tree's root is the path the tree gives out for the index spelled by the path's directions, and carries the leaf stored there |
| MerkleTree.AcceptsExactlyGenuinePaths | midnight-contract/TournamentFinalizer/contract/index.js:1390-1444 | the history check accepts exactly the paths read off some past version of the tree |
| MerkleTree.AcceptedLeafWasInserted | midnight-contract/TournamentFinalizer/contract/index.js:1390-1444 | an accepted path's leaf was inserted, at the index the path spells |
| MerkleTree.OldPathsStayAccepted | midnight-contract/TournamentFinalizer/contract/index.js:1207-1259 | a path from any past version is accepted in every later state |
| Contract.TournamentFinalizer.InitialState | midnight-contract/TournamentFinalizer/contract/index.js:712-975 | deployment refuses the zero signer and otherwise starts with empty trees, sets and counters |
| Contract.TournamentFinalizer.GrantEligibility | midnight-contract/TournamentFinalizer/contract/index.js:1203-1277 | the signer appends one leaf and one root and counts it; any other call is rejected and changes no cell |
| Contract.TournamentFinalizer.FinalizeTournament | midnight-contract/TournamentFinalizer/contract/index.js:1278-1576 | the circuit's guards in order, and the whole new ledger of an accepted vote; a rejected vote changes no cell |
| Contract.TournamentFinalizer.RegisterBuyer | midnight-contract/TournamentFinalizer/contract/index.js:1577-1595 | only the signer registers, never the zero key; nothing else changes |
| Contract.TournamentFinalizer.CheckEscrowRows | midnight-contract/TournamentFinalizer/contract/index.js:1637-1674 | the first fault among the rows, in row order, or none |
| Contract.TournamentFinalizer.SellRows | midnight-contract/TournamentFinalizer/contract/index.js:1675-1806 | the sale's guards in order, and the whole new ledger with the license it mints |
| Contract.TournamentFinalizer.SetFinalizeSigner | midnight-contract/TournamentFinalizer/contract/index.js:1807-1836 | only the owner changes the signer, to a different non-zero key |
| Contract.TournamentFinalizer.SetDomainTag | midnight-contract/TournamentFinalizer/contract/index.js:1837-1864 | only the owner changes the tag, to a different one |
| LedgerRules.DeployedEmptyIff | midnight-contract/TournamentFinalizer/contract/index.js:712-975 | a deployment fails exactly for the zero signer, and otherwise yields the given rulers, empty sets and maps, counters at zero and trees that have only been empty |
| LedgerRules.OnlyTheOwnerRules | midnight-contract/TournamentFinalizer/contract/index.js:1807-1864 | over all runs the owner is the deployer, and signer and domain tag differ from earlier ones only by a call of the owner in between, never to the zero key |
| LedgerRules.BuyersAreTheRegistered | midnight-contract/TournamentFinalizer/contract/index.js:1577-1595 | over all runs a key is a registered buyer exactly when it is not zero and some call of the signer of that moment registered it |
| LedgerRules.LeavesAreTheGranted | midnight-contract/TournamentFinalizer/contract/index.js:1203-1277 | over all runs the i-th eligibility leaf is the i-th grant made by the signer of its moment, up to 65536 of them |
| LedgerRules.AdminRefusedIff | midnight-contract/TournamentFinalizer/contract/index.js:1203-1864 | a call other than a vote or a sale is refused for a reason exactly when it is the first that applies, and then changes nothing |
| LedgerRules.VoteRefusedIff | midnight-contract/TournamentFinalizer/contract/index.js:1278-1516 | in reachable states a vote is refused for a reason exactly when no earlier check fails and the size is not 16, 32 or 64 or the path not of 16 entries, or the deadline is past, or leaf or path are not the tree's for this ballot, or the voter has voted; nothing else refuses one |
| LedgerRules.SaleRefusedIff | midnight-contract/TournamentFinalizer/contract/index.js:1637-1806 | in reachable states a sale is refused for a reason exactly when no earlier check fails and the caller, the buyer, an existing license, the shape of the rows, the first row that does not pass, or the want of any row is that reason; nothing else refuses one |
| LedgerTheorems.VoteAccounting | midnight-contract/TournamentFinalizer/contract/index.js:1203-1516 | over all runs the vote counter, the nullifiers, the vote tree and the sum of the samples agree, and never exceed the distinct granted leaves, which never exceed the grant counter |
| LedgerTheorems.VotesOwnTheirGrants | midnight-contract/TournamentFinalizer/contract/index.js:1278-1516 | any two accepted votes own different granted leaves, have different nullifiers and are not of the same secret and tournament; each one's commitment sits at its own index |
| LedgerTheorems.VotesWereCast | midnight-contract/TournamentFinalizer/contract/index.js:1278-1505 | every recorded vote is an accepted call of the history, sealed under the tag of the state it met |
| LedgerTheorems.FinalizeAcceptedIff | midnight-contract/TournamentFinalizer/contract/index.js:1278-1516 | in reachable states a vote is accepted exactly when it is in time, of a legal size, with a path the eligibility tree gave out for its own leaf, by a voter who has not voted in the tournament |
| LedgerTheorems.RunGrows | midnight-contract/TournamentFinalizer/contract/index.js:1698-1806 | trees, votes, buyers and nullifiers only grow and licenses are write-once |
| LedgerTheorems.GrantStaysUsable | midnight-contract/TournamentFinalizer/contract/index.js:1278-1444 | a path fetched once is accepted in every later state under the same tag, in time and before the vote |
| LedgerTheorems.SalesWereMade | midnight-contract/TournamentFinalizer/contract/index.js:1675-1806 | every license comes from an accepted sale call of the history |
| LedgerTheorems.LicenseMeaning | midnight-contract/TournamentFinalizer/contract/index.js:1596-1806 | over all runs each license holds its sale's fields at the id of three of them, for a registered buyer; its row count is the number of slots that hold a row, 1 to 8, its sample the number of votes for the tournament before the sale, no less than the distinct votes sold; its digest is a hash of exactly eight parts, part i being the leaf of slot i; the counter counts the licenses |
| LedgerTheorems.RowCountIsDistinctIff | midnight-contract/TournamentFinalizer/contract/index.js:1698-1806 | the row count is at least the number of distinct commitments sold, and equal to it exactly when no two present rows share one |
| LedgerTheorems.RepeatedRowIsAccepted | midnight-contract/TournamentFinalizer/contract/index.js:1675-1806 | one good row in all eight slots is accepted and sold as eight rows, one commitment |
| LedgerTheorems.SamplesFitCast | midnight-contract/TournamentFinalizer/contract/index.js:1698-1806 | the 32-bit cast of a sample count never fails |
| Orders.FileCarriesRows | src/module/midnight/lib/market.ts:54-95 | whatever the item names, the dataset file carries exactly the rows it was built from |
| SoldFiles.FileWasBuilt | src/module/midnight/midnight-fulfill.service.ts:211-257 | in every run the file stored for an order was built by a body of that order from the first eight rows it had found in escrow and the title and names it then read: each row's item and each id of its bracket, in place, is called by its name in the catalogue, or by # and its number |
| SoldFiles.DownloadWasBuilt | src/module/midnight/lib/market.ts:48-95 | the same of every file a download serves |
| Texts.DecimalSpells | src/module/midnight/lib/market.ts:49-52 | the digits of a number in a name are its decimal ones, no more than it takes |
| FulfilService.EscrowRows | src/module/midnight/midnight.service.ts:238-289 | the witness succeeds exactly with pinned rows whose first eight have a legal bracket size, a segment of at most 32 bytes and a salt of 32 bytes, and then yields those in order, each with the path found in the tree or an empty one, padded to eight absent slots |
| HexCodec.Pad32 | src/module/midnight/lib/bytes.ts:18-23 | a text of at most 32 bytes followed by zeros, and an error for a longer one |
| Texts.Utf8Decodes | src/module/midnight/lib/bytes.ts:18-20 | a character's bytes tell their number by the first and hold the character's number, six bits in each further byte |
| Texts.Utf8Joins | src/module/midnight/lib/bytes.ts:18-20 | the bytes of a text are those of its parts in their order |
| HexCodec.BytesValueTellsBytes | src/module/midnight/lib/bytes.ts:11-15 | the number that stands for 32 bytes tells them from any other 32 |
| Texts.LowerLetters | src/module/midnight/lib/market.ts:13-15 | lower-casing replaces capitals by their letters, place by place, and nothing else |
| SaleTheorems.EmptyPathIsNeverAccepted | src/module/midnight/midnight.service.ts:270-275 | the path put in for a row that is not found is refused in every state of the contract |
| SaleTheorems.WitnessRowPassesIff | midnight-contract/TournamentFinalizer/contract/index.js:1637-1674 | a row of the witness passes the circuit exactly when it is of the sale's tournament and the view its path was read from already had its commitment |
| SaleTheorems.WitnessChecks | midnight-contract/TournamentFinalizer/contract/index.js:1637-1699 | the circuit refuses a witness for its first row that is of another tournament or not in the view, and passes it exactly when there is none |
| SaleTheorems.ProofStopsIff | src/module/midnight/midnight-fulfill.service.ts:355-379 | a proof stops before the rows exactly for a caller, buyer or license the view decides on, or for a witness without rows or with one of the first eight that cannot be encoded; an existing license is the sign of an earlier success, and exactly the refusals for rows are final |
| SaleTheorems.ProofExistsIff | midnight-contract/TournamentFinalizer/contract/index.js:1675-1726 | run on one view of the ledger, the sale is proved exactly when the signer calls, the view knows the buyer and no such license, and every row encodes, is of the tournament and in the view; the refusals the backend takes as final are exactly those for a row, and it is refused as not on the chain exactly when the first bad row only misses in the view |
| SaleTheorems.ProvenSaleStands | midnight-contract/TournamentFinalizer/contract/index.js:1675-1806 | a proof once made is accepted by every later chain unless the signer changed or the license was minted meanwhile |
| SaleTheorems.SaleAcceptedIff | midnight-contract/TournamentFinalizer/contract/index.js:1675-1806 | a sale proved on a view is accepted by a later chain exactly when the caller is signer of both, the view knows the buyer, the chain has no such license, and every row encodes, is of the tournament and was in the view |
| SaleTheorems.LaggingViewIsRefused | midnight-contract/TournamentFinalizer/contract/index.js:1675-1699 | rows that are all on the chain are refused as not on the chain exactly when the view proved on knows the buyer and no such license but not every row; on the present chain the same rows are then proved unless signer or license changed |
| Scenarios.LaggingViewFailsTheOrder | src/module/midnight/midnight-fulfill.service.ts:375-379 | from every start with the signer as operator, for every vote row: with every answer from one past state, which knows the buyer but not the vote, a run ends an order as failed, with nothing submitted, although its row is on the chain and would be proved there |
| Scenarios.JunkRowFailsTheOrder | src/module/midnight/midnight-finalize.service.ts:56-60 | from every such start, one row in escrow that encodes but opens no vote ends an order as failed with nothing submitted, however fresh the view and whatever the other rows |
| FulfilmentTheorems.JunkRowIsNeverSold | src/module/midnight/midnight-fulfill.service.ts:187-257 | in every run, an order that has pinned a row no accepted vote opens is not fulfilled |
| FulfilmentTheorems.EndToEndSale | src/module/midnight/midnight-fulfill.service.ts:94-315 | in every reachable state, through crashes, lost replies and retries, a fulfilled order's file hashes to its on-chain license, the license counts the file's rows, part i of its digest is the commitment of row i and zero after the last row, and every row opens a vote accepted before the sale in that tournament: same bracket, segment and salt, with the winner as its item |
| FulfilmentTheorems.PinsAreWriteOnce | src/module/midnight/midnight-fulfill.service.ts:187-257 | orders are never lost or renamed, and a stored file, hash and row list never change in any run |
| FulfilmentTheorems.SubmittedSalesCarryThePins | src/module/midnight/midnight.service.ts:698-721 | every sale ever submitted, in whatever attempt, carries the stored hash and rows of its order |
| FulfilmentTheorems.MemoryPinIsTheOrders | src/module/midnight/midnight.service.ts:698-721 | the in-memory rows are set only during the running body's proof call and are then its order's stored rows |
| FulfilmentTheorems.DownloadMatchesLicense | src/module/midnight/midnight-market.service.ts:270-310 | a download succeeds exactly for a fulfilled order of that wallet on that chain, and serves a file whose hash and row count the license states that the chain holds for that buyer, and from whose rows the license's digest can be computed |
| FulfilmentTheorems.DownloadsNeverChange | src/module/midnight/midnight-market.service.ts:270-290 | any two downloads of an order, at any times, serve the same file |
| OrderRules.OnlyNewOrders | src/module/midnight/midnight-market.service.ts:143-157 | an order enters as created, with nothing paid, tried, pinned or delivered, under the hash of the lower-case wallet and a specification of its own |
| OrderRules.OrderFollows | src/module/midnight/midnight-fulfill.service.ts:94-405 | a step changes status, stage and count of failures of an order exactly as its payment, its recovery or the write its body waits for demands, whether or not the write is acknowledged, and no step does otherwise |
| OrderRules.StagesFit | src/module/midnight/midnight-fulfill.service.ts:94-405 | in every run a waiting order stands at the first stage, one being worked on before the last, and a fulfilled one at the last |
| OrderRules.QueueFollows | src/module/midnight/midnight-fulfill.service.ts:84-102 | payments, timers and boots append an order, a start takes the head and works on it exactly if it can be read and is still paid, and only a crash loses the queue, and nothing else |
| OrderRules.BodiesDoTheirWork | src/module/midnight/midnight-fulfill.service.ts:103-175 | in every run a body that waits for its buyer has registered it, one past registering has its buyer on the chain, and one past proving has submitted its sale |
| OrderRules.ErrorsAreHandled | src/module/midnight/midnight-fulfill.service.ts:355-397 | every error leaves a body where it is caught: the rescue returns to the error it set out from, an existing license is looked for first, a final error gives up uncounted, any other is counted and ends the order or queues it again by the attempts left |
| OrderRules.LooksAreCounted | src/module/midnight/midnight-fulfill.service.ts:118-142 | exactly the twentieth look without the buyer's key and the fifth without the license are errors; a successful look leads on with the license it saw |
| TerminalOrders.CleanIsExact | src/module/midnight/midnight-fulfill.service.ts:355-405 | a step is clean exactly when neither it nor any continuation by clean steps changes a field of a fulfilled or failed order |
| TerminalOrders.TerminalIsFinal | src/module/midnight/midnight-market.service.ts:180-200 | in runs of clean steps a fulfilled or failed order never changes in any field |
| Scenarios.StalePayReopens | src/module/midnight/midnight-market.service.ts:169-204 | from every start a state is reached in which a late payment write moves an order that failed for want of rows back to paid |
| Scenarios.LostReportReopens | src/module/midnight/midnight-fulfill.service.ts:355-405 | from every start, with attempts left, a state is reached in which the lost acknowledgement of the report of nothing to sell leads from failed back to paid |
| Scenarios.LostDeliveryReopens | src/module/midnight/midnight-fulfill.service.ts:303-315 | the same for the lost acknowledgement of a delivery: a fulfilled order goes back to paid |
| Scenarios.OrdersGetFulfilled | src/module/midnight/midnight-fulfill.service.ts:94-315 | from every start with the signer as operator, for every wallet and every row a vote can have (there is one in every tournament), a run delivers an order of exactly this row |
| Retries.BodiesAreBounded | src/module/midnight/midnight-fulfill.service.ts:355-397 | over every reliable stretch of every run, whatever other orders, payers, timers and the chain do, the bodies started for an order and those it can still get never exceed its attempts left, and an unended order is waiting as paid or worked on |
| Retries.PaidOrderIsSettled | src/module/midnight/midnight-fulfill.service.ts:381-396 | a paid order gets at most max(1, attempts left) bodies, and one that waits again as paid has not had the last of them |
| Retries.WorkIsBounded | src/module/midnight/midnight-fulfill.service.ts:94-397 | all starts and answered awaits of an order together are bounded from any state on |
| Retries.FailuresAreCounted | src/module/midnight/midnight-fulfill.service.ts:381-396 | in every run, with crashes and lost replies, the stored count of failures is the one the bodies counted, and an order is queued again only with an attempt left |
| Retries.SecondBodyNeedsReason | src/module/midnight/midnight-fulfill.service.ts:94-102 | in every run, between two bodies that appear for one order it was paid, recovered or queued again by the handler, or the first never claimed it |
| FulfilService.FulfillService.RegisterIfNeeded | src/module/midnight/midnight-fulfill.service.ts:103-142 | registration ends with the buyer's key seen on the chain or an error, within twenty polls, whatever else happens between them |
| FulfilService.FulfillService.BuildOrReuseDataset | src/module/midnight/midnight-fulfill.service.ts:187-257 | ends with the pins of an earlier attempt or fresh ones, with a failed order when there is nothing to sell, or with an error; what a fresh file holds is SoldFiles.FileWasBuilt |
| FulfilService.FulfillService.SellRows | src/module/midnight/midnight.service.ts:698-721 | the in-memory pin is gone after the call, however it ends |
| FulfilService.FulfillService.ConfirmLicense | src/module/midnight/midnight-fulfill.service.ts:289-315 | within five polls, between which the sale may land, the order is fulfilled, or the error goes to the handler of the attempt |
| FulfilService.FulfillService.HandleFailure | src/module/midnight/midnight-fulfill.service.ts:355-397 | a final error fails the order uncounted; any other is counted and, with attempts to spare, queues the order again after 30, 120 or 480 seconds by the failures before, else fails it; only an error that says the license exists may end in a fulfilled order; orders that wait are not disturbed |
| FulfilService.FulfillService.FulfillUntilSettled | src/module/midnight/midnight-fulfill.service.ts:94-175 | with any other steps before every await and other orders' bodies in between, a paid order is fulfilled or failed after at most max(1, attempts left) bodies of its own |
| FulfilService.FulfillService.ServeUpTo | src/module/midnight/midnight-fulfill.service.ts:84-102 | the bodies in front of a waiting order end, and it gets its turn unchanged |
| SerialQueue.OneBodyAtATime | src/module/midnight/midnight-fulfill.service.ts:84-92 | in every order of handlers at most one body is live |
| SerialQueue.StartsInOrder | src/module/midnight/midnight-fulfill.service.ts:84-92 | bodies start in the order of the enqueues, none twice and none skipped |
| SerialQueue.FailuresNeverBlock | src/module/midnight/midnight-fulfill.service.ts:84-92 | while an enqueued body has not started some event is ready, and every event reduces the work owed, whichever bodies fail |
| SerialQueue.ChainIsAQueue | src/module/midnight/midnight-fulfill.service.ts:84-92 | the promise chain refines a first-in first-out queue with one worker |
| Bracket.ExtractMatchStats | src/scanner/module/event/contract/tournament-finalizer/tournament-finalizer.util.ts:25-92 | it throws exactly when the length exceeds one and is no power of two; otherwise it returns a row per item in order of first appearance and a row per game, as counted by the games of the bracket |
| Bracket.NormalizePairWithWinner | src/scanner/module/event/contract/tournament-finalizer/tournament-finalizer.util.ts:94-101 | the two ids in ascending order, and whether the winner is the lower |
| BracketLaws.PositionLaw | src/scanner/module/event/contract/tournament-finalizer/tournament-finalizer.util.ts:49-84 | the item at place p > 0 wins as often as 2 divides p and loses once; the item at place 0 wins every round and never loses |
| BracketLaws.LastGameIsTheFinal | src/scanner/module/event/contract/tournament-finalizer/tournament-finalizer.service.ts:53-57 | the last game is the first item against the middle one, the two ids the service reads from the bytes |
| BracketLaws.NoPairMeetsTwice | src/scanner/module/event/contract/tournament-finalizer/tournament-finalizer.util.ts:49-84 | distinct items never meet themselves and no unordered pair meets twice |
| BracketLaws.RowsNameEachPairOnce | src/scanner/module/event/contract/tournament-finalizer/tournament-finalizer.util.ts:67-80 | the rows of a replay name different pairs, low before high, with one win each |
| BracketLaws.ReplayTotals | src/scanner/module/event/contract/tournament-finalizer/tournament-finalizer.util.ts:49-92 | n ids give n - 1 games, as many wins and twice as many entries, all times the sign |
| BracketLaws.RollbackNegates | src/scanner/module/event/contract/tournament-finalizer/tournament-finalizer.util.ts:25-92 | the run with the opposite sign is the negation, row by row |
| StatsIndex.UpdateBulkItem | src/scanner/module/event/domain/item/item.repository.ts:21-57 | whatever the order inside chunks of 500, each field of each stored item grows by the sum of its rows, and no item is created |
| StatsIndex.UpdateBulkMatch | src/scanner/module/event/domain/match/match.repository.ts:16-52 | the same for pairs; exactly the pairs of the rows are added to those that had a document |
| StatsService.FinalizerService.HandleTournamentFinalized | src/scanner/module/event/contract/tournament-finalizer/tournament-finalizer.service.ts:29-116 | applied exactly for a new, readable, replayable event of a known user (or without points), and then every counter moves by the event's effect; otherwise nothing changes; what the effect is on each document is PlayScores.HandlingScoresThePlay |
| StatsService.FinalizerService.RollbackTournamentFinalized | src/scanner/module/event/contract/tournament-finalizer/tournament-finalizer.service.ts:118-187 | the same for a rollback, with the opposite effect and the play removed |
| PlayScores.HandlingScoresThePlay | src/scanner/module/event/contract/tournament-finalizer/tournament-finalizer.service.ts:29-116 | on the stored documents: a counted play adds the event's points to its user and one selection to its tournament; the pair's low and high wins grow by the games either won against the other and its matches by both, a pair's document appears with its first game, pairs that did not meet stay; of a bracket without repeats the item at each place gets its wins, matches and entry, the first and the middle one their count, and every other item stays; when it counts, and when it passes over |
| PlayScores.RollingBackScoresThePlay | src/scanner/module/event/contract/tournament-finalizer/tournament-finalizer.service.ts:118-187 | the same with every sign reversed, exactly for a stored play whose event reads, replays and has a known user |
| BracketLaws.PowersOfTwo | src/scanner/module/event/contract/tournament-finalizer/tournament-finalizer.util.ts:49-58 | the sizes that replay are the powers of two, in as many rounds as the exponent says |
| StatsService.CountableIff | src/scanner/module/event/contract/tournament-finalizer/tournament-finalizer.service.ts:52-57 | an event reads and replays without an error exactly for a power of two of at least two ids; the ids read are then the first and the middle one |
| StatsLaws.StatisticsAgree | src/scanner/module/event/contract/tournament-finalizer/tournament-finalizer.service.ts:29-187 | after any events, replays and rollbacks every counter of users, tournaments, items and pairs equals its recomputation from the live plays |
| StatsLaws.ReplayIsIgnored | src/scanner/module/event/contract/tournament-finalizer/tournament-finalizer.service.ts:59-80 | in every run, once an event was applied, whatever is delivered under its key at any later time changes nothing until its play is rolled back |
| StatsLaws.RollbackUndoes | src/scanner/module/event/contract/tournament-finalizer/tournament-finalizer.service.ts:118-187 | rolling an applied event back succeeds and restores every document, up to pairs left with zeros |
| StatsLaws.RollbackIsAlwaysPossible | src/scanner/module/event/contract/tournament-finalizer/tournament-finalizer.service.ts:118-187 | in every run the rollback of a live play is never refused |
| HexCodec.TournamentDataToUint16Array | src/util/hex-conversion.util.ts:1-15 | the big-endian ids of the leading valid pairs, or an error for an odd number of bytes |
| HexCodec.IdsAreFourDigits | src/util/hex-conversion.util.ts:4-14 | the i-th id is the number its four hex digits spell, the first one most significant |
| HexCodec.FromHex | src/module/midnight/lib/bytes.ts:3-9 | the bytes of whole pairs of hex digits, prefixed or not, and an error for anything else |
| HexCodec.DigitsCount | src/module/midnight/lib/bytes.ts:3-9 | a hex digit of either case counts its place in the row of digits, and nothing else is one |
| HexCodec.Bytes32Of | src/module/midnight/lib/bytes.ts:11-15 | exactly the strict strings of 64 digits pass |
| HexCodec.HexRoundTrip | src/module/midnight/lib/bytes.ts:1-9 | printing and decoding give the bytes back, with and without the prefix |
| HexCodec.DecodersAgreeIff | src/util/hex-conversion.util.ts:4-14 | on prefixed data the two decoders read the same bytes exactly when the rest is whole pairs of hex digits |
| ServedBrackets.LowestBitTest | src/module/api/signature/signature.util.ts:6-8 | clearing the lowest bit leaves zero exactly for the powers of two |
| ServedBrackets.DuplicatesFound | src/module/api/signature/signature.util.ts:10-12 | the size of the set differs from the length exactly when an id repeats |
| ServedBrackets.SortedEqualIsMultisetEquality | src/module/api/signature/signature.util.ts:14-19 | comparing sorted copies is comparing multisets |
| ServedBrackets.JoinSplitRoundTrip | src/module/api/tournament/tournament.service.ts:143-147 | the stored text gives the served ids back exactly when there are any |
| ServedBrackets.AcceptBracket | src/module/api/signature/signature.service.ts:240-283 | a bracket passes exactly when it spells 2 to 1024 distinct ids, a power of two of them, that rearrange the served ids |
| ServedBrackets.AcceptedBracketsAreServed | src/module/api/signature/signature.service.ts:240-283 | the leaf's decoder reads the same ids from an accepted bracket, its replay cannot fail, and each served item but the first loses once |
| Grants.EligibilityLeafHex | src/module/midnight/midnight.service.ts:338-372 | the leaf of the decoded bracket and the fields, exactly for 16, 32 or 64 ids and a key text of 32 bytes |
| Grants.GrantService.Serve | src/module/api/tournament/tournament.service.ts:133-150 | the latest list served to a wallet for a tournament replaces the one before |
| Grants.GrantService.GetMidnightFinalizeGrant | src/module/api/signature/signature.service.ts:78-152 | the decision of a request, check by check, and the request it leaves under way; what each decision means is GrantDecisions.DecisionsMean |
| GrantDecisions.DecisionsMean | src/module/api/signature/signature.service.ts:78-231 | every answer is the one state, clock and indexer call for: the first failing check is the refusal; an open record of the same key text and bracket within deadline and grace is kept unless dead, and then submitted again as it is; any other request gets a new grant with its own key and bracket, a deadline counted from now, and the points due now: none if a play of the wallet in the tournament is counted, else the event tournament's own, else one per id |
| GrantDecisions.KeyOfReads | src/module/midnight/lib/bytes.ts:11-15 | a key text is read exactly if it is 64 hex digits, and as what these bytes stand for |
| Grants.GrantService.ReuseOrReplaceGrant | src/module/api/signature/signature.service.ts:169-238 | keep or submit again, by the probe and the age of the record |
| Grants.GrantService.Close | src/module/api/signature/signature.service.ts:127-151 | what a submission does to the record: the grant's fields are set, the confirmation's mark is not touched, and a failed submission changes no record |
| Grants.GrantService.ConfirmFinalize | src/module/midnight/midnight-finalize.service.ts:28-53 | a confirmation counts the record's bracket under the transaction's key and marks the record, or changes nothing |
| GrantLaws.RecordsMatchTheirLeaves | src/module/api/signature/signature.service.ts:106-148 | in every reachable state each grant ever submitted is for a bracket that rearranges a list served to its wallet for its tournament, and its leaf is the digest of its own fields under the tag; each record is one of these, and each confirmed record has a play |
| GrantLaws.PointsWereDue | src/module/api/signature/signature.service.ts:285-306 | in every run each grant requested or submitted was made anew by one earlier request, with the points due at that moment: 0 if some play of the wallet in the tournament was in the database, else the event tournament's own points, else the number of ids |
| GrantLaws.RecordedPointsWereDue | src/module/api/signature/signature.service.ts:106-148 | the same of every stored record, whatever was submitted again, confirmed or counted since |
| GrantRules.RecordIsTheLatest | src/module/api/signature/signature.service.ts:127-151 | in every run a record is there exactly after a submission for its key was reported, and holds the grant, transaction and time of the last one |
| GrantRules.ServedIsTheLatest | src/module/api/tournament/tournament.service.ts:133-150 | in every run the list a bracket is held against is the one served last to its wallet for its tournament |
| GrantRules.MarkedIff | src/module/midnight/midnight-finalize.service.ts:28-53 | a step marks an open record exactly when it is a confirmation for it, with a transaction the indexer knows as a call of the contract, whose play is counted already or can be; the mark is the transaction, the play is keyed by the chain and the transaction |
| GrantLaws.SubmissionsHaveReasons | src/module/api/signature/signature.service.ts:106-231 | in every run, whatever is under way was decided by an earlier request of its wallet, and if a grant stood for that request the indexer had shown it dead: silence, a live transaction or a young absence never makes the backend submit |
| GrantLaws.ResubmittingKeepsTheGrant | src/module/api/signature/signature.service.ts:106-231 | in every run, when a submission is written for which the record stood at the request, the indexer had shown that record dead, and only its transaction and time change: leaf, deadline, point and bracket stay |
| GrantLaws.ConfirmedGrantsAreFinal | src/module/api/signature/signature.service.ts:106-125 | a grant confirmed with no request under way never changes again |
| GrantLaws.MarksStay | src/module/midnight/midnight-finalize.service.ts:31-48 | a confirmation's mark is never taken back, whatever overlaps |
| GrantScenarios.OverlapIsReached | src/module/api/signature/signature.service.ts:106-148 | from every start and for any two arrangements of the served ids, a run ends with a record marked as confirmed for the one while the other was counted |
| GrantScenarios.ArrangementsExist | src/module/api/signature/signature.util.ts:14-19 | there are two such arrangements |
| GrantScenarios.DataSpells | src/util/hex-conversion.util.ts:1-15 | every non-empty list of 16-bit ids has a text that both decoders read back |
| GrantLaws.ConfirmationFailsIff | src/module/midnight/midnight-finalize.service.ts:28-53 | a stored grant's confirmation is refused by the statistics only for an unknown user with points to credit |
| GrantLaws.ConfirmationCountsIffNew | src/module/midnight/midnight-finalize.service.ts:38-48 | a confirmation adds its own play exactly when its transaction was not counted before, and marks the grant either way |
| GrantLaws.GrantFitsOneBallot | midnight-contract/TournamentFinalizer/contract/index.js:1278-1390 | under the tag a grant's leaf fits exactly the ballots with its key, tournament, point, deadline and bracket |
| GrantLaws.GrantedVoteIsAccepted | midnight-contract/TournamentFinalizer/contract/index.js:1278-1516 | a stored grant that reached the chain is good for its vote: in time, first of its voter, it is accepted |
| ConfirmedVotes.CallBringsVoteIff | midnight-contract/TournamentFinalizer/contract/index.js:1278-1516 | a call puts a vote with a leaf on a chain that has none exactly when it is an accepted vote with that leaf |
| ConfirmedVotes.PlayHasItsVoteIff | src/module/midnight/midnight-finalize.service.ts:28-53 | in every run of the platform, the vote of a recorded grant (its key, tag, tournament, point, deadline and bracket) is on the chain exactly when some call of the history is an accepted vote with the record's leaf |
| ConfirmedVotes.TransactionBringsVoteIff | src/module/midnight/midnight-finalize.service.ts:32-37 | a transaction of the history brings the vote of a recorded grant exactly when its call is the accepted vote with the record's leaf |
| ConfirmedVotes.ConfirmedByItsVote | src/module/midnight/midnight-finalize.service.ts:38-48 | a play confirmed by that transaction has its vote at all later times, by the holder of the granted key, with the tournament, points and ids that were counted |
| ConfirmedVotes.AnyCallConfirms | src/module/midnight/midnight-finalize.service.ts:32-48 | in every reachable state with an open grant and no vote of it, every transaction of the history, whatever it calls, confirms the grant and has its play counted, and still there is no vote |
| PlatformScenarios.OwnGrantConfirms | src/module/midnight/midnight-finalize.service.ts:28-53 | from every start with the signer as operator, a run submits one grant and nothing else, its leaf is the only one on a chain without votes, and its own transaction confirms it and has its play counted |
| PlatformScenarios.EveryKindConfirms | src/module/midnight/midnight-finalize.service.ts:28-53 | from every start with the signer as operator and for each of the six circuits, a run has an accepted call of it confirm the grant of a player who has not voted |
| PlatformScenarios.PlayersExist | src/module/midnight/lib/bytes.ts:11-15 | there are such players under every tag |
| ServedVotes.VotesWereServed | src/module/api/signature/signature.service.ts:78-152 | in every run of the platform, every vote the chain accepted is by the holder of a granted key, for a bracket that rearranges ids served to the grant's wallet, with the points that were due at the earlier request that made the grant |
| ServedVotes.SoldRowsWereServed | src/module/midnight/midnight-fulfill.service.ts:187-315 | in every run of the platform, every row of a delivered dataset is a duplicate-free arrangement of ids served to some wallet for the order's tournament, and its item is the winner |
| Sampling.PickRandomNumbers | src/module/domain/item/item.util.ts:1-10 | the in-place loop draws the prefix of the shuffled array |
| Sampling.PickFollowsChoices | src/module/domain/item/item.util.ts:4-9 | the k-th id drawn is the one the chosen place holds at step k, a place holding its own number until a step that chose it left there what its own place held |
| Sampling.GetRandomItemIds | src/module/domain/item/item.service.ts:25-40 | an error exactly for more ids than there are; otherwise that many different ids in range |
| Sampling.PickIsInjective | src/module/domain/item/item.util.ts:4-9 | different choices draw different brackets |
| Sampling.PickIsOnto | src/module/domain/item/item.util.ts:4-9 | every sequence of different ids in range is drawn by some choices, so uniform choices draw uniformly |
| Rewards.CalculateBettingReward | src/module/domain/betting-stat/betting-stat.util.ts:7-25 | a reward exactly for a known prize and total and positive bet and total, and then the bet's exact part of 99 percent of the prize without its fraction |
| Rewards.RewardsConservePrize | src/module/domain/betting-stat/betting-stat.util.ts:7-25 | the rewards of all winning bets never exceed 99 percent of the prize and miss it by less than one unit per bet |
| Rewards.SplittingNeverGains | src/module/domain/betting-stat/betting-stat.util.ts:16-24 | splitting a bet never pays more and costs at most one unit |
| Limiter.AdjustableLimiter.Pump | asset/file-creation/upload-core.ts:241-253 | starts exactly the waiting tasks that fit under the limit, first come first served |
| Limiter.AdjustableLimiter.Adapt | asset/file-creation/upload-core.ts:359-376 | no change below 100 samples; otherwise 6 down but not below 4 when more than one in 200 of the transfers failed, for good or for now, or the 95th percentile is over the target, and 4 up but not above 32 else |
| Limiter.Metrics.Observe | asset/file-creation/upload-core.ts:269-278 | the metrics are the last 400 observations, in order, whatever was observed before |
| Limiter.PercentileCovers | asset/file-creation/upload-core.ts:279-284 | the percentile is one of the durations, less than a twentieth of them exceed it, and at least a twentieth reach it |
| Limiter.TasksStartInOrder | asset/file-creation/upload-core.ts:241-267 | over any interleaving each submitted task starts once and in order, none is lost, nothing waits below the limit, and no task starts above it |
| Limiter.ActiveStaysUnderCeiling | asset/file-creation/delete-core.ts:283-307 | while resizes stay within bounds so do the limit and the tasks at work |
| Limiter.AdaptationStaysInBounds | asset/file-creation/delete-core.ts:374-390 | the scripts keep the limit between 4 and 32 and never more than 32 transfers at work |
| FanOut.GroupBy | src/module/api/notification-token/sender/notification-sender.service.ts:109-117 | each key once, in order of entry, with exactly its items in order |
| FanOut.Chunk | src/module/api/notification-token/sender/notification-sender.service.ts:275-281 | non-empty pieces within the size, all but the last full, that concatenate to the list |
| FanOut.AttemptsConserveTokens | src/module/api/notification-token/sender/notification-sender.service.ts:177-267 | if answers account for the tokens posted, retrying loses and invents none, with at most one post more than the retries allowed |
| FanOut.OutageUsesAllAttempts | src/module/api/notification-token/sender/notification-sender.service.ts:177-267 | an unreachable service gets exactly every attempt allowed and all tokens end up rate limited |
| FanOut.NotificationSender.DispatchTokens | src/module/api/notification-token/sender/notification-sender.service.ts:143-175 | each token is posted under its own URL only, in requests within the size and at most the allowed tries per piece, each try with what the answer before asked for; successful and invalid are what the answers name so, failed the tokens of posts refused with a status other than 429 and below 500, rate limited what was still asked for after the last try of each piece, or everything when no try is allowed; with answers that account for their tokens these are the tokens given, with multiplicity; it fails exactly at an answer that does not parse |
| FanOut.NotificationSender.ApplyDailyLimit | src/module/api/notification-token/sender/notification-sender.service.ts:103-132 | each user is charged once however many devices; a user within the limit keeps all tokens, any other loses all and is counted once |
| FanOut.DailyLimitHolds | src/module/api/notification-token/sender/notification-sender.service.ts:134-141 | in every day of sends, each charging on top of the counters it finds, a user keeps the tokens of the first messages up to the limit and of no more |

## Left out

- Hash, signature and proof computations, the circuits as opcodes, argument descriptors and the read-only ledger view.
- JSON bytes: a dataset file is a structured value.
- createOrder's row count, sample and price fields, transaction ids and error texts of orders: they decide nothing modelled; whether a refusal is final or a sign of success is part of the error.
- The 15-minute age that boot recovery waits for: recovery is an environment step for any order no body works on.
- Liveness across crashes and failing claims: recovery runs only at boot, so no bound on retries holds over it.
- FulfilService.FulfillService.FulfillUntilSettled: the timer's delay is a number without a clock; a retry is enqueued at some time after the body before it ended.
- The order of the full-tree test among the vote's guards: the runtime refuses the leaf and drops the whole call, so the rejection is the same.
- Betting rows of the play collection, which also make a later play worth no points; the other fields of a play; documents of tournaments and items added later.
- FanOut.Chunk: the piece size is at least one; below that the source's loop does not end.
- Grants.GrantService.GetMidnightFinalizeGrant: takes requests that passed the format check of the request body.
- Token clean-up, content validation, retry delays and the expiry of the quota counters.
- Sampling: the random source; its numbers are the choices.
- Leaves of a grant submitted twice, indexer paging and probe time limits: a timed-out probe is an answer in doubt.
- Controllers, request objects other than the bracket's format check, wallets, seed and import scripts.
