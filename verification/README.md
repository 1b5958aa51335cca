# A Dafny model of emvault-elements' scan, signing and spend pipelines

The crate watches an Elements chain for many wallets at once, collects multisig
signatures for the outputs it captured, and spends them. This project models
those parts in Dafny and proves what they are for.

**The block scan.** `BlockScanEngine::sync` keeps a UTXO store and a block store
in step with a node whose chain may be reorganised between passes. Its meaning
is a replay of the node's chain from genesis, and that is how it is specified:
a chain is read as a sequence of events (`Events.Event`), `Events.Ledger` says
which records those events call for, and `ReplayMeaning` reads the same ledger
straight off the chain's transactions. `Stores` and `ScanEngine` hold the
in-memory stores, the scripted chain source and the engine as classes whose
methods follow the source statement by statement; `Pass` is one pass as a
function of what the stores held, together with every state a pass may be cut
short in. `History` and `Guarantee` prove the main results:

- after any sequence of reorganisations and completed passes the stores are
  exactly the replay of the chain the node shows (`History.EveryCleanRun`,
  `History.FreshStoresCleanRun`);
- the same holds when passes are cut short at any store or node call except
  between the two rollbacks, provided each later pass sees a chain that extends
  the blocks already applied or that parts with them at the cursor or below
  (`History.EveryRun`);
- a pass over working stores completes if and only if the node has a block, its
  tip is not below the cursor and the tip fits below the largest u32
  (`ScanEngine.BlockScanEngine.Sync`).

`Leftovers` is about what unfinished passes leave behind: for a pass cut short in
the scan (`Leftovers.InterruptedScanIff`) or between its two rollbacks
(`Leftovers.HalfRollbackIff`) it gives the exact condition, on the two chains, under
which the next pass ends in the replay. `Limits` holds the exact role of the shared
genesis block and concrete histories in which a deposit of an orphaned block
survives in the records, or the orphaned block itself in the block store, above the
node's tip.

`MovingNode`, `MovingRuns` and `MovingEngine` are about a node that may show another
chain at every call, even during a pass. `MovingEngine` says which call is answered
from which chain, when every question has an answer, that the pass over working
stores completes exactly then, and that it leaves what `MovingNode.MovedPass` makes
of the answers; if the node stands still that is the pass of a fixed node
(`MovingEngine.SyncedOnSteadyNode`). A completed pass ends in a replay exactly when
its start was not clamped, the blocks it fetched link up with those kept and end in
the node's last block, and leftovers of earlier passes were rolled back or come again
(`MovingRuns.StalePassIff`, from any leftover state, and `MovingNode.MovedPassIff`).
Over any run of passes that read linked blocks and clear the leftovers, only the hash
at the cursor can go wrong (`MovingRuns.EveryMovingRun`). If a pass stood on blocks
that are not the node's, no number of passes over a growing chain repairs it; if only
its start was clamped, they do exactly when the node's chain has grown past the blocks
left above the cursor and leaves every trace they left
(`MovingNode.MovedPassRepairedIff`).

`Reindexing` says what a pass with a different script index leaves, `ReindexedRuns`
which index every record comes from after a run in which each pass has its own,
`Attribution` whose a captured output is and when a scan for many wallets serves one
as a scan for it alone, `Accounts` balances the books of a pass and `Counters` says
what each field of its summary counts.

`WalletView` reads everything off the registrations and the chain's transactions
alone: a script is owned by the last registration whose wollet derives it
(`WalletView.OwnerIff`), an output is recorded exactly when its script has an owner
and the owner unblinds it (`WalletView.RecordsAre`), and a wallet may spend exactly
those of its records that no input of the chain names (`WalletView.WalletSees`).

**Signing.** `MultisigScript` parses and prints multisig scripts at byte level and
gives the fragment of the script machine a `sortedmulti` script uses, following
the "Witness program" section of BIP 141 and the "Specification" section of BIP
147. `Finalize` is the in-place P2WSH finalisation, `Coordinator` the coordinator
and the in-process signer, `Signing` their properties. The finalised witness is
accepted exactly when at least m script keys signed and, for m above 16, no more
than m did. `SigningRun` puts a whole session together: any calls made in good
faith, in any order and with any failures in between, then finalisation.

**Spending and descriptors.** `Spend` covers the descriptor cache, the enrichment
of inputs and the chained fee change; `Descriptor` the builder and the multipath
rewrite (the "Specification" section of BIP 389), `DescriptorReading` that all a
builder was given can be read back from the text it built.

## Assumptions

The first three are hypotheses of the theorems that need them. The others are how the
model represents failing calls, the libraries and stored bytes.

- The node's chain is fixed during one pass, except in `MovingNode`, `MovingRuns` and `MovingEngine`.
- Within the blocks a node may ever show, a hash determines the block
  (`ChainModel.Binding`); chains are hash-linked and start at one genesis block
  (`ChainModel.ValidChain`).
- Txids are unique in a chain and an input names only an earlier transaction
  (`ChainModel.OrderedTxs`).
- A store or node call that fails leaves its object unchanged. Objects marked
  `reliable` never fail, like the in-memory fakes.
- Unblinding, address derivation, key validity, signature verification, sighashes
  and descriptor parsing are function values, so each is deterministic and otherwise
  arbitrary; derivation and unblinding may fail on any argument.
- A block's stored raw bytes are represented by the block they encode.

## Where the code and its comments differ

The model follows the code.

- `upsert_utxos` says it preserves spend state (src/sync/fakes.rs:56) but resets
  `is_spent` and keeps the spend height, so a repeated pass goes through states where
  the two disagree. `Limits.RescanDisagreesIff` says for which records, and
  `Limits.RescanEndsRight` that the repetition ends well all the same.
- The clamp on the start height (src/sync/scan.rs:137-141) never changes anything
  while the node's chain is fixed: when the cursor is above the node's tip, asking
  for the hash at the cursor already fails, so every pass fails until the node
  catches up: `Limits.ShorterChainDisables`. When the chain shrinks and grows back
  between the two questions the clamp does fire, and the cursor moves down without
  a rollback: `MovingNode.ClampLowersCursor`, `MovingNode.ClampForgiven`.
- The cursor is meant to name the last block scanned, but its hash is asked for anew
  after the scan (src/sync/scan.rs:211). A reorganisation just before that is never
  noticed: `MovingNode.MovedPassRepairedIff`, `MovingNode.ReorgBeforeCursorLeavesPhantom`.
- `find_common_ancestor` answers height 0 even when height 0 does not match:
  `Limits.SharedGenesisIff`.
- Building the engine afresh is said to pick up newly revealed addresses
  (src/sync/scan.rs:36-38). Only blocks not yet scanned are looked at, so a deposit
  made earlier to such an address is not found: `Reindexing.EarlierDepositMissed` is one,
  `Reindexing.NewIndexIff` gives the exact condition.
- `ElementsSigner::sign_pset` is documented to return the number of inputs signed
  (src/signer.rs:15); the software signer counts signatures. The two agree exactly
  when no input lists it twice: `Coordinator.CountsInputsIff`, and
  `Coordinator.TwoKeysOneInput` for an input that does.
- `signed` counts signers, not signatures per input: `Signing.CountedButIncomplete`.
- A threshold above 16 is not recognised by `multisig_threshold`, so surplus
  signatures are not dropped: `Finalize.EverybodySigningSeventeenOfEighteen`.
- `add_signer` reports a duplicate after having replaced the entry:
  `Descriptor.CtDescriptorBuilder.AddSigner`.
- `validate_blinding` documents checks of value and asset commitments that are not
  in its body (src/confidential.rs:12, 28-53).

## Model

| member | source | states |
|---|---|---|
| ChainModel.HashBindsPrefix | src/sync/scan.rs:221-240 | one matching hash forces two linked chains to agree on everything below it |
| Stores.MemUtxoStore.UpsertUtxos | src/sync/fakes.rs:51-65 | each record replaces the one at its outpoint, unspent, keeping that one's spend height |
| Stores.MemUtxoStore.MarkSpent | src/sync/fakes.rs:67-76 | known outpoints become spent at the given height, unknown ones are ignored |
| Stores.MemUtxoStore.ListUnspent | src/sync/fakes.rs:78-85 | every unspent record of the wallet exactly once |
| Stores.MemUtxoStore.UnspentOutpoints | src/sync/fakes.rs:87-94 | exactly the unspent outpoints, each with its owner |
| Stores.MemUtxoStore.RollbackAbove | src/sync/fakes.rs:96-108 | records captured above the height go, spends above it are undone |
| Stores.MemBlockStore.StoreBlock | src/sync/fakes.rs:133-139 | one block stored at its height, the cursor untouched |
| Stores.MemBlockStore.GetSyncedTip | src/sync/fakes.rs:141-143 | the cursor |
| Stores.MemBlockStore.SetSyncedTip | src/sync/fakes.rs:145-148 | the cursor moves, the blocks stay |
| Stores.MemBlockStore.BlockHashAt | src/sync/fakes.rs:150-152 | the stored hash at a height, if any |
| Stores.MemBlockStore.RollbackAbove | src/sync/fakes.rs:154-168 | blocks above go; a cursor above moves to the highest block kept, or to nothing |
| Stores.MockChainSource.PushBlock | src/sync/fakes.rs:191-193 | the chain grows by one block |
| Stores.MockChainSource.ReorgTo | src/sync/fakes.rs:198-200 | the chain is cut after the given height |
| Stores.MockChainSource.TipHeight | src/sync/fakes.rs:210-216 | the last height; an empty or over-long chain is an error |
| Stores.MockChainSource.BlockHashAt | src/sync/fakes.rs:218-224 | the hash at a height; an error above the tip |
| Stores.MockChainSource.BlockWithHash | src/sync/fakes.rs:226-233 | the lowest block with that hash; an error if there is none |
| Events.ScanAt | src/sync/scan.rs:148-207 | what scanning events leaves for one outpoint, from its creation, its first spend and what the store held |
| Matching.FreshChain | src/sync/scan.rs:157-195 | unique txids and backward inputs mean no event mentions an outpoint before its creation |
| ReplayMeaning.LedgerHoldsOwnedOutputs | src/sync/scan.rs:168-194 | one record per owned, unblindable output of the chain, with the height of its block, and no other |
| ReplayMeaning.SpendHeightIsFirst | src/sync/scan.rs:160-166 | the recorded spend height is the first height at which the chain spends the output; none if it never does |
| ReplayMeaning.SpendIndexTracksReplay | src/sync/scan.rs:143-196 | inside a block the spend index is the unspent set of the replay up to that event |
| ReplayMeaning.CapturedIsDerivable | src/sync/scan.rs:170-191 | a captured record carries the wallet id, chain and index its script is indexed under, and the wollet indexed with them derives the script and unblinds the output to the recorded secrets |
| WalletView.OwnerIff | src/sync/scan.rs:74-94 | a script is owned by the last registration whose wollet derives it within its gap, all addresses there being derivable; by the highest such index, at equal indices on the internal chain |
| WalletView.WolletsAre | src/sync/scan.rs:80-81 | every registered wollet is kept, in order |
| WalletView.RecordsAre | src/sync/scan.rs:168-194 | every output of the chain to an owned script that its owner unblinds is recorded, with the owner's id, chain and index, the output, its secrets and its height; and nothing else is |
| WalletView.WalletSees | src/sync/scan.rs:157-195 | a wallet may spend exactly the outputs so recorded under its id that no input of the chain names |
| Recovery.ScanRecoversIff | src/sync/scan.rs:143-207 | scanning the rest yields the replay of the whole chain if and only if every record present is recoverable |
| Recovery.SoundIsRecoverable | src/sync/scan.rs:143-207 | what an interrupted pass leaves is recoverable |
| Recovery.SoundScan | src/sync/scan.rs:148-207 | scanning any part of the remaining blocks keeps the store resumable from the same cursor |
| Recovery.SoundUpsert | src/sync/scan.rs:198-205 | so does writing a block's captures without marking its spends |
| Recovery.SoundExtends | src/sync/scan.rs:148-152 | so does the node growing by more blocks |
| Recovery.RollbackIsPrefix | src/sync/fakes.rs:96-108 | rolling back below the cursor gives the replay of the prefix, whatever an interrupted pass left above it |
| Recovery.RollbackOfLedger | src/sync/fakes.rs:96-108 | rolling back the replay of a chain gives the replay of its first a + 1 blocks |
| Recovery.ScanOnReplay | src/sync/scan.rs:148-207 | scanning on from a replay gives the replay of both together |
| Recovery.CommitCapture | src/sync/scan.rs:198-205 | adding a capture to a block's commit is one event processed in chain order, although upserts precede marks; the block must not have spent that outpoint before |
| Pass.Ancestor | src/sync/scan.rs:223-240 | the highest height at or below the cursor where hashes match, else 0 |
| Pass.PendingSpend | src/sync/scan.rs:161-166 | one input keeps the spend index equal to the unspent set of the pending store |
| Pass.PendingCreate | src/sync/scan.rs:180-193 | so does one captured output |
| Pass.BlockDone | src/sync/scan.rs:148-207 | a block's writes and counters in terms of its events |
| ScanEngine.WatchedAre | src/wollet.rs:123-140 | both chains for every index below the gap, labelled with the chain and index they derive from; fails if and only if one derivation fails |
| ScanEngine.WatchedScripts | src/wollet.rs:123-140 | the loop returns that list, or the derivation error |
| ScanEngine.IndexedIsValid | src/sync/scan.rs:80-93 | indexing a wollet's scripts keeps every entry derivable by the wollet it points to, never out of range |
| ScanEngine.BlockScanEngine.RegisterWallet | src/sync/scan.rs:74-94 | the new index and wollets; a failed derivation leaves the wollet registered without scripts |
| ScanEngine.BlockScanEngine.FindCommonAncestor | src/sync/scan.rs:223-240 | terminates with the ancestor and never fails on working stores; the node is asked exactly for the stored heights between the ancestor and the cursor |
| ScanEngine.BlockScanEngine.DetermineStart | src/sync/scan.rs:119-141 | start height, rollback and every failure state of the first phase |
| ScanEngine.StartInRange | src/sync/scan.rs:137-141 | the start height never exceeds tip + 1, so the clamp never fires |
| ScanEngine.BlockScanEngine.SpendInputs | src/sync/scan.rs:160-166 | the inputs of a transaction against the spend index |
| ScanEngine.BlockScanEngine.MatchOutput | src/sync/scan.rs:170-191 | one output: not captured without an index entry; skipped when the entry's wollet does not unblind it; otherwise captured under the entry's wallet, chain and index with its secrets and height |
| ScanEngine.BlockScanEngine.MatchOutputs | src/sync/scan.rs:168-195 | the outputs of a transaction, the captures, the skipped count and the grown index |
| ScanEngine.BlockScanEngine.ScanBlock | src/sync/scan.rs:154-196 | what a block commits and the index after it |
| ScanEngine.BlockScanEngine.ProcessBlock | src/sync/scan.rs:148-206 | a block's writes, or the exact partial writes on failure |
| ScanEngine.BlockScanEngine.ScanRange | src/sync/scan.rs:143-207 | the whole scan loop, or where and how it stopped |
| ScanEngine.BlockScanEngine.Sync | src/sync/scan.rs:108-219 | completes on working stores exactly when enabled, leaving the stores and summary of a pass; otherwise one of the interrupted states |
| History.AncestorIsForkPoint | src/sync/scan.rs:221-240 | the ancestor ends the longest common prefix of the stored and the node's chain |
| History.RollbackLandsOnPrefix | src/sync/scan.rs:129-133 | both rollbacks together leave blocks, cursor and records of the common prefix |
| History.PassCompletes | src/sync/scan.rs:108-219 | a completed pass from resumable stores leaves exactly the replay of the node's chain |
| History.CutKeepsResumable | src/sync/scan.rs:148-207 | a pass cut short at any call leaves resumable stores |
| History.StepConsistent | src/sync/scan.rs:102-219 | every reorganisation, completed pass and interruption keeps the stores resumable |
| History.EveryRun | src/sync/scan.rs:102-219 | over every run of such steps a completed pass ends in the replay of the node's chain |
| History.EveryCleanRun | src/sync/scan.rs:102-219 | without interruptions this needs nothing of the reorganisations but the shared genesis block |
| History.FreshStoresCleanRun | src/sync/scan.rs:102-219 | in particular from fresh stores |
| History.SyncedFacts | src/sync/scan.rs:148-216 | hashes agree up to the tip, nothing is stored above, the cursor is the tip, spent exactly when a spend height is recorded |
| Guarantee.SyncedOrResumable | src/sync/scan.rs:108-219 | the method's contract and the run theorems combined for one call: what is seen and where the cursor stands afterwards is the step of the run theorem |
| Guarantee.ValidChainIsSane | src/sync/scan.rs:148-150 | on a valid chain the block fetched by hash is the block at that height, and blocks are in spending order |
| Leftovers.RecordsResumeIff | src/sync/scan.rs:123-207 | a pass whose cursor the node still shows repairs the records if and only if they are recoverable |
| Leftovers.ResumesIff | src/sync/scan.rs:123-216 | it repairs the whole state if and only if also the blocks up to the cursor are stored as the node shows them and none is stored above its tip |
| Leftovers.LeftOverIff | src/sync/scan.rs:123-216 | over stores whose cursor lies below the last blocks written, a pass ends in the replay if and only if the node no longer shows the cursor's block, or no block is left above its tip and its blocks leave every trace that was left above the cursor |
| Leftovers.InterruptedScanIff | src/sync/scan.rs:148-216 | that condition for a pass cut short anywhere in its scan, and any chain the node then shows |
| Leftovers.HalfRollbackIff | src/sync/scan.rs:130-131 | that condition for a failure between the two rollbacks, and any chain the node then shows |
| Limits.SharedGenesisIff | src/sync/scan.rs:230-236 | a pass over another chain reaches its replay if and only if the genesis blocks are the same |
| Limits.RescanDisagreesIff | src/sync/fakes.rs:53-58 | while an applied scan is repeated, a record's two spend fields disagree if and only if it was captured again and its spend is still to come |
| Limits.RescanEndsRight | src/sync/scan.rs:148-207 | the whole repetition changes nothing |
| Limits.RescanForgetsSpent | src/sync/fakes.rs:53-58 | repeating an applied scan makes a spent record unspent with its spend height still set, until its spend is reached again |
| Limits.HalfRollbackLeavesPhantom | src/sync/scan.rs:130-131 | after a failure between the two rollbacks the next pass keeps an orphaned deposit |
| Limits.DepositCutIff | src/sync/scan.rs:198-216 | a first pass cut short after capturing a deposit is repaired over exactly those chains that are as long and capture it again |
| Limits.AbortThenReorgLeavesPhantom | src/sync/scan.rs:209-216 | when the node drops blocks above the cursor after an interrupted pass, the next pass keeps their deposits |
| Limits.AbortThenShorterLeavesBlock | src/sync/scan.rs:151-152 | when the node's chain has become shorter after an interrupted pass, the next pass completes with a dropped block stored above the tip |
| Limits.ShorterChainDisables | src/sync/scan.rs:125-126 | after a pass, the next is enabled exactly when the node's chain is at least as long |
| MovingNode.FixedNode | src/sync/scan.rs:108-219 | the pass over a moving node is the modelled pass when all answers come from one chain |
| MovingEngine.FindCommonAncestor | src/sync/scan.rs:223-240 | over a node that may move between questions: one call per stored height from the cursor down, the ancestor in terms of the answers of those calls; succeeds on working stores if and only if each has one |
| MovingEngine.DetermineStart | src/sync/scan.rs:119-141 | tip from the first call, cursor from the second, then the search; start, rollback and clamp in terms of these answers, and when they exist |
| MovingEngine.ScanRange | src/sync/scan.rs:143-207 | two calls per height; each block scanned is the one shown when its hash is asked for; succeeds on working stores if and only if every height has a hash and its block is still there at the next call |
| MovingEngine.Sync | src/sync/scan.rs:108-219 | on working stores a pass completes if and only if each question has an answer; it then leaves what `MovedPass` makes of the answers of these calls |
| MovingEngine.SteadyNode | src/sync/scan.rs:108-219 | for a node that shows one chain throughout, answers exist exactly when a pass can start, and `MovedPass` of them is the pass of a fixed node |
| MovingEngine.SyncedOnSteadyNode | src/sync/scan.rs:108-219 | so on such a node the engine completes exactly when enabled, whatever the stores hold, and from a replay ends in the replay of its chain |
| MovingEngine.SyncedOrDrifted | src/sync/scan.rs:108-219 | from any leftover state, a completed pass ends in the replay of the chain shown at its last call, up to the tip of its first, if and only if the condition of `MovingRuns.StalePassIff` holds; a fair pass leaves a state of the same kind |
| MovingRuns.StaleStart | src/sync/scan.rs:121-136 | a rollback from any leftover state lands on the blocks and records of a replay, whatever hash the cursor had |
| MovingRuns.ReadIff | src/sync/scan.rs:119-207 | a pass that was not clamped and read linked blocks leaves the blocks and records of their replay if and only if it rolled back or the leftovers come again |
| MovingRuns.StalePassIff | src/sync/scan.rs:119-216 | from any leftover state, the pass ends in the replay of what the node shows at the end if and only if it is continuous and has cleared the leftovers |
| MovingRuns.EveryMovingRun | src/sync/scan.rs:102-219 | over any run of clamped passes and passes that read linked blocks and clear the leftovers, the stores hold the blocks and records of what was read, with leftovers above the cursor only after a clamp |
| MovingRuns.SightIsReplayIff | src/sync/scan.rs:209-216 | without leftovers they are a replay if and only if the cursor's hash is that of the last block read |
| MovingRuns.LinkedIsValid | src/sync/scan.rs:143-150 | linked blocks that end in a block of a valid chain, at its height, are that chain's |
| MovingNode.MovedPassIff | src/sync/scan.rs:119-216 | a pass over a moving node ends in the replay of what the node shows at the end, up to the tip it was told, if and only if the clamp does not fire, the blocks fetched link up with those kept, and the last one is still the node's |
| MovingNode.PassesOverGrowth | src/sync/scan.rs:123-141 | while the node's chain only grows, any number of passes complete without rolling back and amount to one pass over the last chain |
| MovingNode.MovedPassRepairedIff | src/sync/scan.rs:119-216 | they end in the replay after a moved pass if and only if it stood on the node's blocks and, where the clamp fired, the chain has grown past the blocks left above the cursor and leaves every trace they left |
| MovingNode.ClampForgiven | src/sync/scan.rs:137-141 | a clamped pass over a node whose blocks did not change is not a replay, and the next pass over the whole chain repairs it |
| MovingNode.ReorgBeforeCursorLeavesPhantom | src/sync/scan.rs:211-215 | a reorganisation just before the last question leaves an orphaned deposit that the next pass keeps |
| MovingNode.ClampLowersCursor | src/sync/scan.rs:137-141 | the node shrinking and growing back at the start makes the clamp fire and the cursor fall below records that stay, also when the node then drops their block |
| Reindexing.PassUnderNewIndex | src/sync/scan.rs:34-38 | under a new index, blocks not scanned again keep the old index's records and later ones get the new one's |
| Reindexing.NewIndexIff | src/sync/scan.rs:34-38 | that is the replay under the new index if and only if the blocks not scanned again hold the same captures under both |
| Reindexing.EarlierDepositMissed | src/sync/scan.rs:34-38 | a deposit made before its wallet was registered is not found by the pass after the registration |
| ReindexedRuns.MixedPass | src/sync/scan.rs:34-38 | a pass under a new index keeps every record below its start as read before and reads the rest under the new one, whatever mixture it started from |
| ReindexedRuns.EveryReindexedRun | src/sync/scan.rs:34-38 | over any run of reorganisations and passes with an index each, every block's records are those of the index it was last read under |
| ReindexedRuns.FreshReindexedRun | src/sync/scan.rs:34-38 | in particular from fresh stores |
| ReindexedRuns.ReindexedReplayIff | src/sync/scan.rs:34-38 | that is the replay under one index if and only if every block holds the same captures under it as under the one it was last read with |
| Accounts.ScanConserves | src/sync/scan.rs:198-205 | for every weight: unspent after = unspent before + captured - spent |
| Accounts.CleanPassConserves | src/sync/scan.rs:137-206 | the same across a pass from fresh stores or a replay, counted from the total after any rollback; counts and per-asset values are instances |
| Accounts.CountersAreSums | src/sync/scan.rs:199-204 | the summary's counters are those sums with every record weighing 1 |
| Counters.SummaryMeans | src/sync/scan.rs:137-206 | for any stores: blocks from the start height on, records captured, unspent records spent, outputs that are watched but do not unblind |
| Counters.SkippedMeans | src/sync/scan.rs:172-179 | the skip count is the number of places in the blocks scanned where a watched output does not unblind |
| Counters.ReportedFork | src/sync/scan.rs:123-136 | from fresh stores or a replay, no reorganisation is reported if and only if the node's chain extends the one applied; otherwise the last height at which the two agree, and the blocks above it are scanned |
| Attribution.ResolvesToLast | src/sync/scan.rs:80-92 | after any registrations a script belongs to the last one that lists it |
| Attribution.CapturedBelongsToOwner | src/sync/scan.rs:76-92 | a captured record bears the id of the last registration listing its script, whose wollet derives that script and unblinds the output |
| Attribution.SoloOwnerIff | src/sync/scan.rs:80-92 | a wallet owns a script as if registered alone if and only if it lists the script again after any other wallet that took it over |
| Attribution.SameOwnersIff | src/sync/scan.rs:34-47 | the same for all its scripts at once, on the indexes themselves |
| Attribution.OneScanServesAll | src/sync/scan.rs:34-47 | under that condition a wallet's unspent records are those of a scan registering it alone |
| MultisigScript.ExtractPubkeys | src/pset.rs:468-479 | the loop returns the script's 33-byte valid keys in script order |
| MultisigScript.NextReadsPush | src/pset.rs:470-471 | a push in any of the four length encodings is read as the bytes pushed and the rest of the script |
| MultisigScript.NextReadsOther | src/pset.rs:470-471 | any other opcode is read alone; a push that runs past the end of the script ends it |
| MultisigScript.KeysMean | src/pset.rs:468-479 | exactly the instructions that push 33 bytes of a valid key give a key, in script order |
| MultisigScript.ParseInvertsPrint | src/pset.rs:455-479 | parsing a printed multisig script gives back its keys in order, and its threshold up to 16 |
| MultisigScript.AssignmentSucceeds | src/pset.rs:396-400 | the two-pointer match succeeds whenever an order-preserving assignment of signatures to keys exists |
| MultisigScript.SuccessHasAssignment | src/pset.rs:396-400 | and only then |
| MultisigScript.PrintedAccepts | src/pset.rs:425-439 | a witness of dummy, signatures and multisig script is accepted exactly with m signatures that match |
| Finalize.OrderSignatures | src/pset.rs:417-423 | the signatures held, in the order of the keys |
| Finalize.CollectedMeans | src/pset.rs:417-423 | there is one signature for each script key that has one and no other, in script order |
| Finalize.WitnessMeans | src/pset.rs:430-439 | an empty item, those signatures up to the threshold the script starts with, the script |
| Finalize.FinalizeP2wsh | src/pset.rs:401-453 | every input finalised in place, keeping its outpoint, with the witness set and nothing else of the signing data left; the first input without a script stops it |
| Finalize.FinalWitnessAcceptedIff | src/pset.rs:412-441 | the finalised witness is accepted if and only if at least m script keys signed and, above 16, exactly m |
| Finalize.WitnessSizeIff | src/pset.rs:430-439 | m + 2 items if and only if at least m script keys signed and, above 16, exactly m: so the size tells whether it is accepted |
| Finalize.EverybodySigningSeventeenOfEighteen | src/pset.rs:455-463 | 17-of-18 with everybody signing is rejected |
| Coordinator.SignPset | src/testkit.rs:120-158 | for every ECDSA input, every key listing the fingerprint gets the signature of that input's message by the key derived at its path, all else staying; succeeds exactly when every sighash and key is available; even a failure leaves only this signer's own signatures behind |
| Coordinator.SignedMeans | src/testkit.rs:138-155 | one input signed: without reference to the helpers, each listed key's signature is that of the derived private key over the input's message |
| Coordinator.SignableMeans | src/testkit.rs:130-149 | an input can be signed if and only if its sighash exists and, for ECDSA, every key listed under the fingerprint derives |
| Coordinator.LeftBehindMeans | src/testkit.rs:145-155 | a signature a failed call may leave is of that same form |
| Coordinator.CountMeans | src/testkit.rs:126-157 | the count returned is the number of pairs of an ECDSA input and a key listed there under the fingerprint |
| Coordinator.CountsInputsIff | src/signer.rs:13-17 | the count returned is the number of inputs signed if and only if no input lists two keys of the signer |
| Coordinator.TwoKeysOneInput | src/testkit.rs:140-155 | an input that lists two: counted twice |
| Coordinator.SigningCoordinator.SignWith | src/pset.rs:297-310 | members only; succeeds exactly when the signer can sign; counted exactly when a signature was made |
| Coordinator.SigningCoordinator.ReceiveSignature | src/pset.rs:315-361 | succeeds exactly when a member brings a signature not held under a key listed with its fingerprint, and then counts it; a key is held afterwards exactly when it was or such a signature was brought for it, held values staying; a rejected call changes nothing |
| Coordinator.ReceivedMeans | src/pset.rs:329-359 | the same of the state after one submission, without reference to the helpers |
| Coordinator.SigningCoordinator.Finalize | src/pset.rs:368-387 | refused below the threshold; otherwise every input is finalised if all have scripts, and the call succeeds exactly when the transaction can then be extracted |
| Signing.ReceivedState | src/pset.rs:315-361 | closed form of any number of submissions; no signature is overwritten |
| Signing.OrderDoesNotMatter | src/pset.rs:312-361 | two orders of the same submissions reach the same signatures and signer set |
| Signing.CompleteSigningFinalizes | src/pset.rs:286-292 | for one input: when every counted signer signed it, the finalised witness is accepted if and only if it has threshold + 2 items, which up to 16 it has |
| Signing.SoftwareSignerSignsAll | src/testkit.rs:138-155 | for one input: a successful in-process signer meets that condition |
| SigningRun.SignerIsGood | src/testkit.rs:133-154 | the in-process signer makes only good signatures when the signature of each derived key over the input's message verifies |
| SigningRun.SignerKeepsWhole | src/pset.rs:297-310 | signing, failed or not, keeps every input signed by every counted signer, with good signatures only |
| SigningRun.ReturnKeepsWhole | src/pset.rs:315-361 | so does a complete external signature, accepted or not |
| SigningRun.WorkingSigns | src/testkit.rs:120-158 | a signer that does not fail makes at least one signature, whatever was signed before |
| SigningRun.CollectAndFinalize | src/pset.rs:297-387 | any calls in good faith, then finalisation: it succeeds if and only if the threshold is met and extraction works, every working caller is counted, and every input's witness is accepted if and only if it has threshold + 2 items, which up to 16 it has |
| Signing.CountedButIncomplete | src/pset.rs:353-359 | two signers of different inputs complete a 2-of-2 whose witnesses are one signature short |
| Spend.PrepareWithCache | src/spend.rs:101-117 | the memoised loop computes what deriving every owner afresh computes: the external inputs have, one by one, the records' outpoints, outputs and secrets and their owner's weight, and the enrichment map knows exactly these outpoints |
| Spend.PrepareInputs | src/spend.rs:234-249 | the single-wallet form, weight derived once, with the same external inputs and map |
| Spend.PreparesIff | src/spend.rs:106-117 | preparation succeeds if and only if every owner's descriptor splits, its first branch has a weight at index 0 and the record's branch exists and derives |
| Spend.PreparedMeans | src/spend.rs:110-116 | every record is handed on under its own outpoint, output and secrets with its owner's weight, and the map's keys are the outpoints handed on |
| Spend.FinishBlinded | src/spend.rs:253-267 | known inputs are updated, unknown ones stay; fails exactly on a refused update or when no output has a range proof |
| Spend.EnrichIsOwn | src/spend.rs:112-116 | with distinct outpoints the enrichment map sends each to its own owner's descriptor and knows no other |
| Spend.EachInputItsOwner | src/spend.rs:112-116 | with distinct outpoints each input is updated with its own owner's descriptor, wherever the builder put it |
| Spend.CapturedScriptIsRebuilt | src/spend.rs:221-231 | the wallet named by a captured record's id rebuilds, at the recorded chain and index, the script it was paid to |
| Spend.FeeChainConserves | src/spend.rs:94-175 | given that each hop balances, over any number of hops the fee account pays the fees and what customers are paid beyond what they brought, in the policy asset |
| Descriptor.RangedRewrite | src/descriptor.rs:177-181 | every key of a ranged descriptor is rewritten once, the checksum dropped, nothing else changed |
| Descriptor.FixedRewrite | src/descriptor.rs:177-181 | a fixed descriptor only loses its checksum |
| Descriptor.BranchZeroUndoes | src/descriptor.rs:171-181 | branch 0 of the rewrite is the text rewritten |
| Descriptor.BuiltDescriptorRewrites | src/descriptor.rs:100-181 | the two together for every built descriptor, whose text lists one formatted key per signer, in the order of their ids |
| Descriptor.FormattedKeys | src/descriptor.rs:124-136 | the text's keys are the formatted entries |
| Descriptor.InOrderIs | src/descriptor.rs:105-109 | every signer's entry is listed once, in the order of the ids |
| DescriptorReading.KeyReads | src/descriptor.rs:124-151 | a formatted key reads back as the entry's fingerprint, path and key |
| DescriptorReading.BuiltTextReads | src/descriptor.rs:100-118 | a built text reads back as the blinding key, the threshold and one key per signer in the order of their ids |
| Descriptor.CtDescriptorBuilder.AddSigner | src/descriptor.rs:76-87 | the entry is stored in any case; a duplicate id is an error |
| Descriptor.InsertionOrderDoesNotMatter | src/descriptor.rs:31-109 | distinct signers in any order give the same entries |

## Left out

- ScanEngine.BlockScanEngine.Sync: says nothing about the stores' contents when two blocks of the node's chain share a hash or a block spends an output before creating it, since no consensus-valid chain does; completion is characterised in all cases.
- ScanEngine.BlockScanEngine.Sync: `tip + 1` and `t.height + 1` at the largest u32 are modelled as the panic of a checked build, reported as an error, not as the wrap-around of an unchecked one.
- ScanEngine.BlockScanEngine.MatchOutputs: output positions are unbounded, so the panic for a transaction with more than 2^32 outputs is not modelled.
- Coordinator.SigningCoordinator.ReceiveSignature: requires that no attributable signature lies beyond the coordinator's inputs, where the source panics on the index.
- MovingEngine.Sync: says nothing about what a failed pass over a moving node leaves.
- MovingNode.MovedPassRepairedIff: starts from fresh stores or a replay, and the node's chain only grows afterwards.
- Leftovers.InterruptedScanIff: the interrupted pass started from fresh stores or a replay; several interruptions in a row are covered by `History.EveryRun` and, on the stores' contents, by `Leftovers.ResumesIff`.
- MultisigScript.PrintedAccepts: the machine covers the opcodes of a multisig script only, without size limits on items, and takes for granted that the output commits to the script.
- Spend.FeeChainConserves: the builder's balance (inputs equal payments, change and fee) is a hypothesis; coin assembly and blinding are not part of this model.
- Descriptor.BuiltDescriptorRewrites: printing a parsed descriptor is taken to give back the text that was built, with an optional checksum.
- Cryptography: hashing, ECDSA, commitments, range and surjection proofs, SLIP-0077 derivation.
- `build_spend_pset`, `build_sweep_pset` and the tail of `build_migration_pset`: calls into the transaction builder.
- `derive_input_secrets`, `blind_pset` and the PSET newtypes: single-pass checks around library calls.
- Broadcasting, JSON-RPC, networks, error texts, locking and the version-aware wallet list.
- Iteration orders of hash maps: the model chooses arbitrarily, and the contracts hold for every choice.
