# Verified model of the Vigilante daemons

Vigilante is four daemons that follow two chains they do not control: Bitcoin, which reorganises, and
Babylon, to which other relayers write. This project models the parts whose correctness has to survive
reorganisations, RPC failures, crashes and concurrent writers, and proves what they keep. Every answer of
Bitcoin, Babylon, the wallet or a store is an input of the model (a missing answer is a failed call), and a
Go `panic` is a halting state.

`dafny verify dfyconfig.toml` checks everything. One module per component:

| module | component | main results |
|---|---|---|
| `BtcCache` | bounded block cache | it is a window on the last blocks added; binary search agrees with a scan |
| `BtcScanner` | scanner of confirmed blocks | exactly-once, gap-free stream of k-deep canonical blocks through reorgs; linked stream with no assumption at all |
| `Relayer` | two-transaction checkpoint submission | crash safety; exactly when the stored pair belongs together; one pair per epoch; fee bumps over whole runs |
| `FeeBump` | replace-by-fee of the second transaction | what every bump replaces, checked by BIP 125 rules 3 to 5; exactly when one is sent; a failed rule ends it; accounting over any run of retries |
| `HeaderSubmission` | header submission to Babylon | terminates against any other reporters; nothing acknowledged twice |
| `Reporter` | reporter bootstrap and cache | exactly when its bootstrap panics; the cache is always a linked run |
| `CkptCache` | pairing of checkpoint segments | results under every map iteration order; conservation of segments over all interleavings |
| `TrackedDelegations` | delegation tracker and batched iterator | each key at most once; coverage, and what removals can hide |
| `DelegationIndex` | slashing index | never dangles; agrees with a scan exactly while no colliding delegation was removed |
| `EvidenceCursor` | evidence scan of the slasher | no evidence is skipped across failures and crashes |
| `CometScan` | scan of Babylon blocks | every height once, every touched hash looked up |
| `SpendReport` | reaction to a spent staking output | exactly when a report is made, and what justifies each one |

`Blocks` holds the block tree, linked runs and `LastN`; `Wrappers` holds `Option` and `Outcome`, `Collections` repetition-free sequences.

The imperative code is modelled by classes and loops, each proved equal to (or against) a function on
values: `View()` of the object after the call is the function of `View()` before it. The whole-run theorems
are about those functions (`Run`), so they hold of the classes.

## Where the code differs from what it says

* `shouldSendTx2` (submitter/relayer/relayer.go:307-311) is meant to avoid resending tx1 when only tx2
  failed. Tx1 is cached without its epoch, so in reachable states this happens for epoch 0 only
  (`OnlyEpochZeroSparesTx1`, `EpochZeroSparesTx1`).
* A fee bump that fails one of the replacement rules is retried in vain if the attempt has changed the
  transaction in memory: the next one asks the mempool for the id of the changed transaction
  (relayer.go:492, :523, :550), which was never broadcast. Then nothing is sent for the rest of the run
  (`DirtyNeverSends`), nor by any later poll until a new pair is built or the process restarts
  (`NoBumpWhileStuck`). An adjusted fee is sent only where funding had nothing to add and gave the
  transaction back as it was (`AdjustedFeeIsSentIff`, with an instance in `AdjustedFeeIsSent`).
* The stored pair can mix two checkpoints, since memory keeps a tx1 without its epoch: when a bump is stored
  while memory holds the tx1 of another epoch than its tx2, or when the tx2-only retry builds on the tx1 of
  another epoch (`StoredPairMatchesIff`; runs in `FailedWriteStoresMix`, which needs only rising epochs and one
  failed write, `FallingEpochStoresMix` and `RetryStoresMix`).
* A bump sends a signed copy but records and stores the transaction with the signatures of the replaced one
  (relayer.go:533-545). After a restart, a bumped tx2 that the node has dropped cannot be sent again
  (`BumpStoresSignedIff`, `UnsignedIsNotResent`).
* Two of the fee adjusters compute a fee and then assign `requiredFee` (relayer.go:435 and :464), so they may
  offer less than what failed (`FeerateRetryOffersLess`). The fee of a mempool entry is in BTC, and
  relayer.go:423 converts it as if it were in satoshi, to nothing (`IncrementRetryForgetsFee`). The
  incremental relay fee is truncated in the same way (relayer.go:1138): a value below 1, such as one in BTC
  per kilobyte, switches rule 4 off (`SmallIncrementNeverRejects`).
* The comment at stakingeventwatcher.go:532-536 says that no action is taken for a spend that is not an
  unbonding. The code goes on to report every such spend except a recognised timelock spend
  (`ReportedIff`, `WithdrawalIsReported`).
* `bestHeight - k` in the scanner wraps when the chain is shorter than k: every block is emitted at once
  (`ShortChainIsEmittedWhole`). A reorganisation between two reads of one bootstrap panics even far above
  the confirmed tip (`BootstrapPanicsIff`, `ReorgDuringBootstrapPanics`). A first bootstrap that confirms
  nothing is followed by a nil dereference (`FirstBootstrapNeedsDepth`).
* `bootstrap` of the reporter panics when Bitcoin's tip is at Babylon's base: everything is consistent and there
  is nothing to submit, but the next height is not cached (`NothingAboveBasePanics`).
* `DelegationsIter` stops on a count, so removing a key it has already yielded can hide another one
  (`RemovalHidesAKey`); `MissesAreBoundedByRemovals` bounds how many.
* The comet cursor is the next height to scan, but a tip equal to it counts as "nothing new"
  (`NewBlockWaitsForSuccessor`).
* Evidence at exactly the persisted height is listed again after a restart, so the bound proved for what a
  restart re-reads is "at or above the persisted height".

## Model

| member | source | states |
|---|---|---|
| `BtcCache.CacheHoldsLastN` | types/btccache.go:29-72 | after any additions the cache is the last maxEntries blocks of the whole history |
| `BtcCache.LinearFindAt` | types/btccache.go:183-211 | the scan that binary search is compared with returns the first block of that height |
| `BtcCache.LinearFindNone` | types/btccache.go:183-211 | the scan returns nothing if no block has the height |
| `BtcCache.IsSortedByHeight` | types/btccache.go:37-41 | accepts exactly the lists whose neighbouring heights do not fall |
| `BtcCache.BTCCache.Add` | types/btccache.go:52-72 | panics exactly on an overfull cache, else keeps the last maxEntries of content plus block |
| `BtcCache.BTCCache.Init` | types/btccache.go:29-49 | fails exactly on a long or unsorted list, which leaves the cache alone; else the suffix of content plus list |
| `BtcCache.BTCCache.GetLastBlocks` | types/btccache.go:134-154 | panics on empty, errors outside the range, else the blocks from the last one at the stop height, or everything if there is none; on linked content the one starting at that height |
| `BtcCache.BTCCache.TrimConfirmedBlocks` | types/btccache.go:166-180 | splits the content into result and remainder, the remainder at most k and exactly k if anything was cut |
| `BtcCache.BTCCache.FindBlock` | types/btccache.go:183-211 | binary search equals the linear scan on strictly increasing content; what it finds has the height on any content |
| `BtcCache.BTCCache.Resize` | types/btccache.go:213-223 | changes the capacity exactly if it is positive |
| `BtcCache.BTCCache.Trim` | types/btccache.go:226-241 | keeps the last maxEntries blocks |
| `BtcScanner.ExactlyOnceDelivery` | monitor/btcscanner/btc_scanner.go:142-207 | over every allowed interleaving, stale notifications included, no chain panic; the stream is exactly the canonical blocks base..(seen tip - k), each once and in order |
| `BtcScanner.RunIsGood` | monitor/btcscanner/btc_scanner.go:142-222 | the invariant behind it: a full linked window on the confirmed tip, the stream on the current chain |
| `BtcScanner.BootIsGood` | monitor/btcscanner/btc_scanner.go:142-207 | a bootstrap on any legal chain restores that invariant |
| `BtcScanner.NotifyIsGood` | monitor/btcscanner/block_handler.go:68-129 | so does a notification, of a canonical block or of one that a reorg has orphaned meanwhile |
| `BtcScanner.ShallowIsLegal` | monitor/btcscanner/block_handler.go:46-60 | the contract admits every queued notification whose block was orphaned by at most k blocks, whatever is cached |
| `BtcScanner.CanonicalIsShallow` | monitor/btcscanner/block_handler.go:88-93 | in particular every notification of a canonical block |
| `BtcScanner.TakenShifts` | monitor/btcscanner/block_handler.go:88-128 | an accepted block shifts the full window by one and emits its lowest block, which extends the confirmed tip |
| `BtcScanner.RunLiesOnChain` | monitor/btcscanner/block_handler.go:88-93 | a linked window below a canonical block is itself canonical, so a reorg cannot hide in the cache |
| `BtcScanner.StreamIsLinked` | monitor/btcscanner/btc_scanner.go:176-203 | with no assumption on reorgs, eviction or failures, every run emits a hash-linked stream with heights rising by one |
| `BtcScanner.EmittedBlocksAreBuried` | monitor/btcscanner/block_handler.go:89-128 | each block emitted on a notification has k linked descendants still in the window |
| `BtcScanner.SmallCacheNeverEmits` | monitor/btcscanner/block_handler.go:104-115 | with capacity at most k notifications never emit |
| `BtcScanner.BootstrapPanicsIff` | monitor/btcscanner/btc_scanner.go:165-203 | if all reads succeed, bootstrap panics exactly when the headers read do not link up |
| `BtcScanner.ReorgDuringBootstrapPanics` | monitor/btcscanner/btc_scanner.go:188-203 | a concrete reorg between two reads, above the confirmed tip, that panics |
| `BtcScanner.FirstBootstrap` | monitor/btcscanner/btc_scanner.go:142-207 | the first bootstrap fills the window, and has a confirmed tip exactly if the base is k-deep |
| `BtcScanner.FirstBootstrapNeedsDepth` | monitor/btcscanner/block_handler.go:120-124 | the first notification survives exactly if base + k is at most the best height; else nil dereference |
| `BtcScanner.BootstrapEmitsOnlyDeepBlocks` | monitor/btcscanner/btc_scanner.go:165-184 | with best height at least k, only k-deep blocks are emitted, whatever else happens |
| `BtcScanner.ShortChainIsEmittedWhole` | monitor/btcscanner/btc_scanner.go:165-171 | with a shorter chain the uint32 subtraction wraps and the whole chain is emitted before the halt |
| `BtcScanner.OldNotificationIsSkipped` | monitor/btcscanner/block_handler.go:76-84 | a notification at or below the highest cached block changes nothing, and no bootstrap follows |
| `BtcScanner.TakenNeedsFetch` | monitor/btcscanner/block_handler.go:95-101 | a block on top of the window becomes the highest one seen, or halts the process if it cannot be fetched |
| `BtcScanner.BootReachesTip` | monitor/btcscanner/btc_scanner.go:142-207 | a bootstrap whose reads succeed ends running, at the best block |
| `BtcScanner.EpochReachesTip` | monitor/btcscanner/block_handler.go:46-60 | when the best block is notified and all calls succeed, the turn ends with it as the highest block seen, whatever reorgs came before |
| `BtcScanner.Scanner.constructor` | monitor/btcscanner/btc_scanner.go:62-91 | starts with no tip, an empty window and nothing emitted |
| `BtcScanner.Scanner.SendConfirmedBlocks` | monitor/btcscanner/btc_scanner.go:217-222 | appends the blocks to the stream and makes the last one the tip |
| `BtcScanner.Scanner.Bootstrap` | monitor/btcscanner/btc_scanner.go:142-207 | the object does exactly the bootstrap step of the state machine |
| `BtcScanner.Scanner.CacheUnconfirmed` | monitor/btcscanner/btc_scanner.go:188-203 | the loop over unconfirmed heights does exactly its part of that step |
| `BtcScanner.Scanner.HandleNewBlock` | monitor/btcscanner/block_handler.go:68-129 | exactly the notification step; an error exactly when a bootstrap is needed, with the state untouched |
| `BtcScanner.Scanner.ConfirmDeepBlocks` | monitor/btcscanner/block_handler.go:104-128 | everything more than k deep goes out if it links to the confirmed tip; halts on a nil tip or a broken link |
| `BtcScanner.Scanner.OnEpoch` | monitor/btcscanner/block_handler.go:53-60 | a turn of the event loop is one or two steps of the state machine, and none for a block at or below the cached tip |
| `Relayer.NoRebuildWhileStored` | submitter/relayer/relayer.go:126-183 | while the store holds epoch e, no polls in any order, failures or restarts build transactions for e |
| `Relayer.RunKeepsShape` | submitter/relayer/relayer.go:303-311 | in every reachable state tx2 in memory implies tx1, and without tx2 the epoch in memory is 0 |
| `Relayer.OnlyEpochZeroSparesTx1` | submitter/relayer/relayer.go:307-311 | the branch that resends only tx2 is reachable for epoch 0 alone |
| `Relayer.EpochZeroSparesTx1` | submitter/relayer/relayer.go:752-775 | after tx2 failed in a fresh process, the branch is taken if and only if the epoch is 0 |
| `Relayer.FirstTxHasChange` | submitter/relayer/relayer.go:781-835 | the first transaction always has the output its successor spends: the wallet's change, or 546 added and funded again |
| `Relayer.RestoresFromStoreIff` | submitter/relayer/relayer.go:1057-1130 | without a tx2 in memory, the stored epoch succeeds exactly if both stored transactions are available, sized and in the mempool; memory then holds exactly the stored pair, with the mempool's fees, and a due bump may follow; else nothing changes |
| `Relayer.RevisitsStore` | submitter/relayer/relayer.go:126-150 | with a tx2 in memory it changes nothing, and fails only if the store or a lookup does |
| `Relayer.SubmitsNewEpochIff` | submitter/relayer/relayer.go:152-185 | an epoch that is not stored succeeds exactly if every call does, the write included; memory and store then hold the same new pair, tx2 on top of tx1, acknowledged |
| `Relayer.SubmittedIsLeftAlone` | submitter/relayer/relayer.go:303-311 | an epoch that memory has submitted is left alone |
| `Relayer.EarlyPollBumpsNothing` | submitter/relayer/relayer.go:214-217 | before the resend interval has elapsed a poll leaves everything as the submission left it |
| `Relayer.PollBumpsIff` | submitter/relayer/relayer.go:198-259 | exactly when a poll bumps |
| `Relayer.SendKeepsCoherent` | submitter/relayer/relayer.go:111-186 | keeps memory, store and offered epoch coherent; "already processed" is only reached without tx2 |
| `Relayer.StepMatchesIff` | submitter/relayer/relayer.go:111-301 | with no assumption on epochs, writes or answers, a step keeps the stored tx2 spending output 1 of the stored tx1, both of the stored epoch, if and only if it does not store on top of a tx1 of another epoch |
| `Relayer.StoredPairMatchesIff` | submitter/relayer/relayer.go:111-301 | over whole runs: the stored pair matches in every state if and only if no step mixes pairs |
| `Relayer.SendMatchesIff` | submitter/relayer/relayer.go:152-185 | a submission mixes pairs exactly in the tx2-only retry on a foreign tx1 that is delivered and stored |
| `Relayer.ResubmitMatchesIff` | submitter/relayer/relayer.go:290-300 | a bump that is stored leaves a matching pair exactly if the tx1 in memory is of the epoch in memory |
| `Relayer.OrderlyNeverMixes` | submitter/relayer/relayer.go:111-301 | an orderly poll never mixes pairs |
| `Relayer.StoredPairBelongsTogether` | submitter/relayer/relayer.go:111-301 | as a consequence, in every run with epochs that do not fall and no failed write below the stored epoch, the stored pair matches and bumps only replace the offered epoch's tx2 |
| `Relayer.EveryBumpWasChecked` | submitter/relayer/relayer.go:189-301 | over every run, in any epoch order, every bump ever sent passed rules 3 to 5 against the mempool entry of the transaction it replaced, the recorded one unless a report was lost |
| `Relayer.UnsentBumpGetsStuck` | submitter/relayer/relayer.go:225-265 | a bump that changes the record and is not sent leaves a transaction in memory that never reached the node |
| `Relayer.NoBumpWhileStuck` | submitter/relayer/relayer.go:189-301 | from then on no poll sends a bump until a new pair is built or the process restarts |
| `Relayer.SuccessiveBumpsChain` | submitter/relayer/relayer.go:225-300 | over any polls without restart or new pair, each bump starts from the fee and id the one before recorded, and in place adds at least the min relay fee |
| `Relayer.SuccessiveBumpsRise` | submitter/relayer/relayer.go:314-323 | n bumps in place raise the recorded fee by at least n times the min relay fee |
| `Relayer.BumpStoresSignedIff` | submitter/relayer/relayer.go:533-545 | a stored bump carries its own signatures if and only if memory did and the bump left the transaction as it was |
| `Relayer.RunIsWitnessed` | submitter/relayer/relayer.go:189-301 | over every run the signatures in memory and store are of the transaction itself or of an earlier version |
| `Relayer.UnsignedIsNotResent` | submitter/relayer/relayer.go:978-1044 | such a tx2, once dropped by a node that verifies signatures, is not resent after a restart: every poll is an error that changes nothing |
| `Relayer.OnePairPerEpoch` | submitter/relayer/relayer.go:111-186 | from any store not above the first epoch, with epochs that do not fall and writes that succeed, pairs reported as sent have strictly increasing epochs across restarts |
| `Relayer.FailedWriteOfOlderEpoch` | submitter/relayer/relayer.go:126-150 | for all answers: after a failed write below the stored epoch and a failed tx2, rising epochs reach a mixed memory, and a bump that is sent stores the mix |
| `Relayer.DecreasingEpochsMixPairs` | submitter/relayer/relayer.go:189-301 | for all answers: so does a falling epoch with successful writes |
| `Relayer.FailedWriteStoresMix` | submitter/relayer/relayer.go:126-301 | a complete run with rising epochs and one failed write that ends with a stored pair that does not match |
| `Relayer.FallingEpochStoresMix` | submitter/relayer/relayer.go:189-301 | a complete run with successful writes and a falling epoch that does |
| `Relayer.RetryStoresMix` | submitter/relayer/relayer.go:707-733 | a complete run in which the tx2-only retry does |
| `Relayer.CheckpointRelayer.MaybeResendFromStore` | submitter/relayer/relayer.go:978-1044 | reports processed exactly if the store holds the epoch and both transactions are known or were resent |
| `Relayer.CheckpointRelayer.SendTx` | submitter/relayer/relayer.go:961-971 | reports success exactly if the acknowledgement arrives; what reached the node is logged either way |
| `Relayer.CheckpointRelayer.SendTx2AndStore` | submitter/relayer/relayer.go:707-733 | builds on the given tx1, then memory, then store |
| `Relayer.CheckpointRelayer.ChainTwoTxAndSend` | submitter/relayer/relayer.go:684-775 | caches tx1 as soon as it is out, without its epoch |
| `Relayer.CheckpointRelayer.SendCheckpointToBTC` | submitter/relayer/relayer.go:111-186 | exactly the submission step, rehydration from the store included |
| `Relayer.CheckpointRelayer.MaybeResubmitSecondCheckpointTx` | submitter/relayer/relayer.go:189-301 | exactly the fee-bump step; memory changes in place also when nothing is sent |
| `Relayer.CheckpointRelayer.ProcessCheckpoint` | submitter/submitter.go:208-232 | a poll is one step: submission and, if it succeeded, a fee bump |
| `FeeBump.RetriesKeepAccounts` | submitter/relayer/relayer.go:225-259 | over any run of retries the transaction stays solvent, keeps payload and inputs, and a sent one never records more fee than it pays |
| `FeeBump.InPlaceAttempt` | submitter/relayer/relayer.go:491-546 | an in-place attempt, sent or not, lowers change by exactly the fee, keeps it at 546 or more, and raises what is paid by exactly the fee |
| `FeeBump.InPlaceReplacementOverpays` | submitter/relayer/relayer.go:520-546 | a replacement pays its recorded fee on top of everything paid before |
| `FeeBump.InPlaceRunRaisesFee` | submitter/relayer/relayer.go:225-259 | in-place runs keep fee at most inputs minus outputs, and a sent one records at least the old fee plus the min relay fee |
| `FeeBump.RetryLoop` | submitter/relayer/relayer.go:225-259 | the loop computes exactly the retry run these lemmas are about |
| `FeeBump.SentWasChecked` | submitter/relayer/relayer.go:471-591 | over any run of retries, what is sent passed rules 3, 4 and 5 against the entry of the transaction it replaces: one that reached the node and spends the same output |
| `FeeBump.DirtyNeverSends` | submitter/relayer/relayer.go:492-552 | a record that an attempt changed without reaching the node is never sent from again, since its id is in no mempool |
| `FeeBump.UnsentChangeIsDirty` | submitter/relayer/relayer.go:503-530 | every run of retries that changes the record and sends nothing ends there |
| `FeeBump.SentIff` | submitter/relayer/relayer.go:225-259 | a replacement is sent if and only if some attempt passes the rules, is signed and is acknowledged, and every attempt before it failed before the change, got its transaction back as it was, or lost its report |
| `FeeBump.DeliveredIsSent` | submitter/relayer/relayer.go:471-546 | that attempt is the one that ends the run, and the recorded fee is its own |
| `FeeBump.SentReplacesFirst` | submitter/relayer/relayer.go:471-546 | if no report is lost, it replaces the transaction the run started from |
| `FeeBump.AdjustedFeeIsSentIff` | submitter/relayer/relayer.go:333-380 | an adjusted fee is sent if and only if the attempt before failed a rule and got its transaction back as it was |
| `FeeBump.AdjustedFeeIsSent` | submitter/relayer/relayer.go:494-516 | a complete run in which it is, with 600 in place of 400 |
| `FeeBump.RetryRecordsFee` | submitter/relayer/relayer.go:314-323 | recorded fee and id change only when a replacement is sent; in place it records at least the old fee plus the min relay fee |
| `FeeBump.RetryWitnessIff` | submitter/relayer/relayer.go:533-545 | after a run of retries the signatures in the record are its own if and only if they were and nothing changed |
| `FeeBump.RecordMovesOn` | submitter/relayer/relayer.go:494-524 | over any run of retries the record is unchanged or strictly later, so no transaction it held comes back |
| `FeeBump.RulesPassIff` | submitter/relayer/relayer.go:548-591 | the rules are passed by exactly those replacements that meet all of them |
| `FeeBump.RulesFailInOrder` | submitter/relayer/relayer.go:548-591 | which rule is named when several fail |
| `FeeBump.NoFeeIff` | submitter/relayer/relayer.go:357-362 | no fee is computed exactly if a rule failed before and the recorded id has left the mempool |
| `FeeBump.FeeWithoutFailure` | submitter/relayer/relayer.go:333-354 | the larger of the multiplied and the required fee |
| `FeeBump.FeeAfterInsufficientFee` | submitter/relayer/relayer.go:386-403 | it also covers the evicted fees with their margin, and is no more than it needs |
| `FeeBump.FeeAfterInsufficientFeerate` | submitter/relayer/relayer.go:445-468 | the required fee alone if the computed one is larger, else the plain one |
| `FeeBump.FeeAtMarginTruncates` | submitter/relayer/relayer.go:451-459 | the computed fee is the size times the feerate of the entry with its margin, truncated |
| `FeeBump.FeeAfterSmallIncrement` | submitter/relayer/relayer.go:409-440 | likewise, from the fee of the entry or of the record; the plain one without an incremental fee |
| `FeeBump.RequiredFeePerByte` | submitter/relayer/relayer.go:341-348 | the required fee is the largest whole number of satoshi per byte that the feerate covers |
| `FeeBump.ScaleRounds` | submitter/relayer/relayer.go:350-351 | multiplied fees are rounded to the nearest satoshi |
| `FeeBump.IncrementRetryForgetsFee` | submitter/relayer/relayer.go:409-440 | the fee after a small increment does not depend on what the replaced transaction pays, if that is below one bitcoin |
| `FeeBump.SmallIncrementNeverRejects` | submitter/relayer/relayer.go:578-588 | an incremental fee below 1 truncates to nothing and rule 4 never rejects |
| `FeeBump.FeerateRetryOffersLess` | submitter/relayer/relayer.go:445-468 | a concrete adjusted fee of 100 after 200 failed |
| `HeaderSubmission.ProcessHeaders` | reporter/utils.go:152-204 | terminates against any reporters; counts exactly what was acknowledged, nothing twice; nil error means all known or Babylon is as high; an error exactly if a query failed or a message was rejected |
| `HeaderSubmission.FindResumePoint` | reporter/utils.go:171-192 | a restart resumes at the first block above Babylon's tip that it does not know, strictly above the message that failed, or stops with nothing to do; an error exactly if a query failed |
| `HeaderSubmission.FirstUnknown` | reporter/utils.go:30-79 | finds the first block Babylon does not know, although Babylon changes during the search; nothing exactly if a query failed |
| `HeaderSubmission.FirstAbove` | reporter/utils.go:206-227 | finds the first block above a height; none exactly if the list is empty or the last one is not above |
| `HeaderSubmission.ChunksCover` | reporter/utils.go:19-26 | chunks concatenate to the list, none is too long, only the last may be short |
| `HeaderSubmission.ChunkBy` | reporter/utils.go:19-26 | the loop computes exactly those chunks |
| `HeaderSubmission.KnownBelow` | reporter/utils.go:37-54 | with ancestor-closed knowledge, a known block of the run makes all below it known |
| `HeaderSubmission.SubmitNext` | reporter/utils.go:164-201 | an accepted message makes its blocks known and leaves the chunks of the rest |
| `HeaderSubmission.Babylon.InsertHeaders` | reporter/utils.go:84-148 | the contract of Babylon: inserts a run whose first header is new and attached, and acknowledges each header once |
| `Reporter.HeightsAreCachedIff` | reporter/bootstrapping.go:43-59 | in uint32 arithmetic the consistency height is cached, and the next one exactly if Bitcoin is above the base or Babylon is k above it |
| `Reporter.ConsistencyHeightIsDeepest` | reporter/bootstrapping.go:43-59 | the consistency height is the greatest one at or above the base that is k deep below Babylon's tip, or the base |
| `Reporter.TailIsKPlusW` | reporter/bootstrapping.go:234-240 | the cache is filled from where exactly k + w blocks reach up to Babylon's tip, or from the base |
| `Reporter.FavourableNeverPanics` | reporter/bootstrapping.go:43-59 | with a BTC tip above the base and at or above every Babylon tip read, tips that do not fall and a tail that fits, no panic is reached |
| `Reporter.NothingAboveBasePanics` | reporter/bootstrapping.go:107-110 | with Bitcoin's tip at Babylon's base it panics, although nothing is wrong |
| `Reporter.WalkIsLinked` | btcclient/query.go:177-204 | the backward walk yields a linked run of consecutive heights |
| `Reporter.WalkSplits` | btcclient/query.go:177-204 | the walk can be cut anywhere: lower part and upper part are themselves walks |
| `Reporter.GetChainBlocks` | btcclient/query.go:177-231 | filling the array from its end computes exactly the walk, errors included |
| `Reporter.Reporter.InitBTCCache` | reporter/bootstrapping.go:206-254 | succeeds exactly if the tail can be fetched and fits; the cache is then the walk from the chosen base to the best block |
| `Reporter.Reporter.HeightIsFoundIff` | reporter/bootstrapping.go:319-326 | a linked cache holds exactly the heights between its ends |
| `Reporter.Reporter.CheckConsistency` | reporter/bootstrapping.go:31-60 | panics exactly if the height is not cached or Babylon lacks it; else the height after it |
| `Reporter.Reporter.BlocksToSubmit` | reporter/bootstrapping.go:102-110 | a linked run from just above the consistency height to the cached tip; a panic exactly if the check panics or that height is not cached |
| `Reporter.Reporter.ShrinkCache` | reporter/bootstrapping.go:129-134 | capacity k + w as a uint32 sum, and that many last blocks; a panic exactly if the sum is 0 |
| `Reporter.Reporter.Bootstrap` | reporter/bootstrapping.go:62-156 | leaves a linked cache however it ends; panics exactly in the stated cases and succeeds exactly if no call fails otherwise; submits exactly the blocks after the consistency height |
| `Reporter.Reporter.HandleNewBlock` | reporter/block_handler.go:42-82 | extends, clears or keeps the cache, and errs, in exactly the stated cases; the `add` panic is unreachable; the cache stays a linked run if the node reports the notified height |
| `CkptCache.NothingConnectableRemains` | types/ckpt_cache.go:68-95 | under every iteration order no remaining pair of segments connects |
| `CkptCache.EachSegment1MatchedOnce` | types/ckpt_cache.go:68-95 | a segment 1 is in one new checkpoint exactly if some segment 0 connects with it, and never in two |
| `CkptCache.SegmentsConserved` | types/ckpt_cache.go:68-95 | the total drops by exactly twice the checkpoints if and only if no segment 0 served twice |
| `CkptCache.OwnersCount` | types/ckpt_cache.go:68-95 | as many segments 0 are consumed as checkpoints made exactly if none served twice |
| `CkptCache.OnePartnerNeverShares` | types/ckpt_cache.go:68-95 | at most one partner per segment 0 is enough for that |
| `CkptCache.LeftoverSegments1` | types/ckpt_cache.go:68-95 | leftover segments 1 and the number of checkpoints do not depend on the order |
| `CkptCache.ConsumedDoesNotDependOnOrder` | types/ckpt_cache.go:68-95 | whether a segment 1 is consumed does not depend on the order |
| `CkptCache.PairsDoNotDependOnOrder` | types/ckpt_cache.go:68-95 | nor does its partner, if it has at most one candidate |
| `CkptCache.UniquePartnersAgree` | types/ckpt_cache.go:68-95 | then any two matchings agree on both leftovers and on every checkpoint |
| `CkptCache.CompetitionDependsOnOrder` | types/ckpt_cache.go:68-95 | two segments 0 for one segment 1: the first visited wins |
| `CkptCache.MatchedOnce` | types/ckpt_cache.go:41-147 | in every reachable ledger a segment 1 is matched exactly if it is in a checkpoint, in one only, and cached exactly if the cache holds it |
| `CkptCache.FateAfterAdd` | types/ckpt_cache.go:41-52 | adding overwrites exactly the segment 1 cached under the same key |
| `CkptCache.FateAfterExpiry` | types/ckpt_cache.go:137-147 | a sweep expires exactly the cached segments 1 that it drops |
| `CkptCache.MatchingKeepsFates` | types/ckpt_cache.go:68-95 | overwritten, expired and matched are final |
| `CkptCache.LedgerMatchMoves` | types/ckpt_cache.go:68-95 | matching moves exactly the consumed segments from cache to history |
| `CkptCache.InsertKeepsAll` | types/ckpt_cache.go:58-64 | sorting loses and invents nothing |
| `CkptCache.InsertKeepsSorted` | types/ckpt_cache.go:58-64 | sorting sorts by epoch |
| `CkptCache.Sweep` | types/ckpt_cache.go:137-147 | drops exactly what is older than the time to live, in any iteration order |
| `CkptCache.CheckpointCache.AddSegment` | types/ckpt_cache.go:41-52 | stores under the hash of the data; equal-hash data is overwritten and accounted for; a bad index is an error |
| `CkptCache.CheckpointCache.MatchSegment0` | types/ckpt_cache.go:71-91 | the inner loop takes every segment 1 that connects and no other |
| `CkptCache.CheckpointCache.MatchAll` | types/ckpt_cache.go:68-92 | the nested loops with deletion produce a matching, for every order of both maps |
| `CkptCache.CheckpointCache.SortCheckpoints` | types/ckpt_cache.go:58-64 | a sorted rearrangement |
| `CkptCache.CheckpointCache.Match` | types/ckpt_cache.go:68-95 | keeps list sorted and ledger balanced; adds exactly the checkpoints of the matching |
| `CkptCache.CheckpointCache.PopEarliestCheckpoint` | types/ckpt_cache.go:97-109 | removes one checkpoint of minimum epoch |
| `CkptCache.CheckpointCache.Expire` | types/ckpt_cache.go:130-150 | sweeps both maps; what left the cache is accounted as expired |
| `CkptCache.CheckpointCache.MatchAndSubmit` | reporter/utils.go:257-349 | drains in epoch order everything listed before and newly matched |
| `TrackedDelegations.YieldedAtMostOnce` | btcstaking-tracker/stakingeventwatcher/tracked_delegations.go:95-140 | no key is yielded twice, whatever happens to the map between batches |
| `TrackedDelegations.NonFinalBatchesAreFull` | btcstaking-tracker/stakingeventwatcher/tracked_delegations.go:95-140 | every batch but the last has exactly chunkSize keys |
| `TrackedDelegations.GrowingMapIsCovered` | btcstaking-tracker/stakingeventwatcher/tracked_delegations.go:95-140 | if nothing is removed, a finished run yielded exactly the keys at the last lock |
| `TrackedDelegations.MissesAreBoundedByRemovals` | btcstaking-tracker/stakingeventwatcher/tracked_delegations.go:124-137 | in general it misses at most as many keys as were yielded and are gone |
| `TrackedDelegations.RemovalHidesAKey` | btcstaking-tracker/stakingeventwatcher/tracked_delegations.go:124-137 | a run that misses a key tracked throughout |
| `TrackedDelegations.CollectBatch` | btcstaking-tracker/stakingeventwatcher/tracked_delegations.go:112-125 | one locked pass: distinct unseen keys, all of them unless the batch is full |
| `TrackedDelegations.DelegationsIter` | btcstaking-tracker/stakingeventwatcher/tracked_delegations.go:95-140 | terminates under any map changes over finitely many keys, and is a finished run |
| `TrackedDelegations.Tracker.AddDelegation` | btcstaking-tracker/stakingeventwatcher/tracked_delegations.go:142-176 | adds or, on request, replaces; count stays the map size |
| `TrackedDelegations.Tracker.AddEmptyDelegation` | btcstaking-tracker/stakingeventwatcher/tracked_delegations.go:178-190 | adds a nil entry if the hash is new; count stays the map size |
| `TrackedDelegations.Tracker.RemoveDelegation` | btcstaking-tracker/stakingeventwatcher/tracked_delegations.go:192-200 | removes exactly that key; count stays the map size |
| `TrackedDelegations.Tracker.UpdateActivation` | btcstaking-tracker/stakingeventwatcher/tracked_delegations.go:225-237 | error on an unknown hash, nil dereference on an empty entry, else only the flag changes |
| `DelegationIndex.RunIsSound` | btcstaking-tracker/atomicslasher/types.go:112-142 | after any adds and removes, with any collisions, every index entry points to a tracked delegation carrying that hash |
| `DelegationIndex.DistinctRunIsComplete` | btcstaking-tracker/atomicslasher/types.go:112-142 | if hashes are distinct all along, every tracked delegation is indexed twice |
| `DelegationIndex.FindAgreesWithScan` | btcstaking-tracker/atomicslasher/types.go:144-157 | then the lookup agrees with a scan, staking path first, and finds nothing exactly if nothing matches |
| `DelegationIndex.CollisionHidesADelegation` | btcstaking-tracker/atomicslasher/types.go:130-142 | with a collision, removing one delegation hides the other |
| `DelegationIndex.IndexedIff` | btcstaking-tracker/atomicslasher/types.go:112-142 | after any operations a hash is indexed if and only if a tracked delegation carries it and no carrier was removed since the last one was added |
| `DelegationIndex.AgreesWithScanIff` | btcstaking-tracker/atomicslasher/types.go:144-157 | so the lookup agrees with a scan exactly then, whatever hashes collide |
| `DelegationIndex.BTCDelegationIndex.Add` | btcstaking-tracker/atomicslasher/types.go:112-128 | adds to all three maps, or changes nothing if the delegation is known |
| `DelegationIndex.BTCDelegationIndex.Remove` | btcstaking-tracker/atomicslasher/types.go:130-142 | removes from all three maps, or changes nothing |
| `DelegationIndex.BTCDelegationIndex.FindSlashedBTCDelegation` | btcstaking-tracker/atomicslasher/types.go:144-157 | never meets a missing delegation; what it returns is tracked and carries the hash |
| `EvidenceCursor.NoEvidenceIsSkipped` | btcstaking-tracker/btcslasher/slasher.go:264-295 | in every run over failures and crashes, evidence ever listed below the cursor was slashed; what was not is listed again after a restart |
| `EvidenceCursor.ScanSkipsNothing` | btcstaking-tracker/btcslasher/bootstrapping.go:31-46 | the cursor never falls, moves only after an error-free scan of all pages, and is then above the persisted height |
| `EvidenceCursor.ScanAdvances` | btcstaking-tracker/btcslasher/slasher.go:272-287 | the cursor moves exactly after an error-free scan with evidence above 0, to one above the highest, which a successful write persists; a failed one leaves the old |
| `EvidenceCursor.BootScansIff` | btcstaking-tracker/btcslasher/bootstrapping.go:17-35 | a boot starts at the persisted height or else the configured one, and lists nothing unless store and parameters were read |
| `EvidenceCursor.ItemsOfAllPages` | btcstaking-tracker/btcslasher/bootstrapping.go:112-131 | what is handled is what any page lists |
| `EvidenceCursor.ProcessEvidences` | btcstaking-tracker/btcslasher/bootstrapping.go:54-131 | succeeds exactly if every page was listed and everything slashed, and then returns the largest height |
| `EvidenceCursor.HandlePage` | btcstaking-tracker/btcslasher/bootstrapping.go:58-103 | the closure accumulates errors and largest height over all pages so far |
| `EvidenceCursor.LastSlashedBounds` | btcstaking-tracker/btcslasher/bootstrapping.go:96-98 | the returned height is at least every slashed one |
| `EvidenceCursor.LastSlashedIsListed` | btcstaking-tracker/btcslasher/bootstrapping.go:96-98 | and it is the height of some evidence |
| `EvidenceCursor.BTCSlasher.FetchEvidences` | btcstaking-tracker/btcslasher/slasher.go:264-295 | exactly the scan step; a failed write leaves only the persisted height behind |
| `EvidenceCursor.BTCSlasher.Bootstrap` | btcstaking-tracker/tracker.go:150-164 | starts from the persisted height if there is one, then scans |
| `CometScan.ScansCoverOnce` | btcstaking-tracker/stakingeventwatcher/stakingeventwatcher.go:1026-1056 | for every sequence of tips and failures the completed scans cover exactly [initial tip, cursor), each height once and in order |
| `CometScan.EveryChangeIsLookedUp` | btcstaking-tracker/stakingeventwatcher/stakingeventwatcher.go:1058-1099 | if all polls read one chain, what was looked up is exactly what those heights touched |
| `CometScan.NewBlockWaitsForSuccessor` | btcstaking-tracker/stakingeventwatcher/stakingeventwatcher.go:1036-1054 | after a scan, a tip up to one higher changes nothing |
| `CometScan.Deduplicate` | btcstaking-tracker/stakingeventwatcher/stakingeventwatcher.go:1180-1192 | the same elements, none twice |
| `CometScan.FetchDelegationsByEvents` | btcstaking-tracker/stakingeventwatcher/stakingeventwatcher.go:1058-1099 | succeeds exactly if all queries do, and then looks up every hash touched in the range exactly once and no other |
| `CometScan.TouchedMember` | btcstaking-tracker/stakingeventwatcher/stakingeventwatcher.go:1072-1079 | the collected hashes are those some block of the range touched |
| `CometScan.Watcher.FetchCometBftBlockOnce` | btcstaking-tracker/stakingeventwatcher/stakingeventwatcher.go:1026-1056 | exactly the poll step; the error cases exactly; otherwise a tip above the cursor moves it to the next height; lookups cover the heights passed |
| `SpendReport.ReportsAreJustified` | btcstaking-tracker/stakingeventwatcher/stakingeventwatcher.go:458-576 | each report has a proof built before it, a status of the same attempt that was active or verified, no timelock spend, and for a live expansion an earlier poll with depth k or an unbonded child |
| `SpendReport.ReportedIff` | btcstaking-tracker/stakingeventwatcher/stakingeventwatcher.go:458-576 | exactly when a report is made at all |
| `SpendReport.SeenLiveIff` | btcstaking-tracker/stakingeventwatcher/stakingeventwatcher.go:466-470 | the spend is treated as a live expansion exactly if Babylon knows it as one that is not unbonded |
| `SpendReport.RemovedIff` | btcstaking-tracker/stakingeventwatcher/stakingeventwatcher.go:548-575 | exactly when the delegation stops being tracked; nothing follows |
| `SpendReport.WithdrawalIsReported` | btcstaking-tracker/stakingeventwatcher/stakingeventwatcher.go:530-574 | a non-unbonding spend is reported, against the comment there |
| `SpendReport.GetStakingTxInputIdx` | btcstaking-tracker/stakingeventwatcher/stakingeventwatcher.go:346-356 | the first input spending the staking output, or none |
| `SpendReport.TryParseStakerSignature` | btcstaking-tracker/stakingeventwatcher/stakingeventwatcher.go:362-392 | a timelock spend exactly if the one output is the unbonding output and the staking input has fewer than 4 witness elements; unbonding exactly with a well-formed third-last element |
| `SpendReport.LocateInclusion` | btcstaking-tracker/stakingeventwatcher/stakingeventwatcher.go:475-507 | succeeds exactly if one of the first five queries does and its block hash parses |
| `SpendReport.WaitForRequiredDepth` | btcstaking-tracker/stakingeventwatcher/stakingeventwatcher.go:909-956 | passes exactly if one of the first twenty polls shows depth k or an unbonded child; a failing child query does not abort |
| `SpendReport.DepthTraceEnds` | btcstaking-tracker/stakingeventwatcher/stakingeventwatcher.go:909-956 | the wait makes at most the allowed polls and ends at the poll that passes |
| `SpendReport.WaitForInclusionProof` | btcstaking-tracker/stakingeventwatcher/stakingeventwatcher.go:631-688 | returns the first proof built; panics exactly for a polled transaction without outputs |
| `SpendReport.BuiltProofIff` | btcstaking-tracker/stakingeventwatcher/stakingeventwatcher.go:657-688 | a proof is returned exactly if some poll built one |
| `SpendReport.TryReport` | btcstaking-tracker/stakingeventwatcher/stakingeventwatcher.go:400-444 | reports exactly if both queries succeed, one says yes and the funding transactions are fetched; stops without a report exactly if both say no; tries again after a report that was not accepted |
| `SpendReport.ReportTraceShape` | btcstaking-tracker/stakingeventwatcher/stakingeventwatcher.go:394-456 | every report directly follows an active or verified status and carries the proof given |
| `SpendReport.ReportTraceReports` | btcstaking-tracker/stakingeventwatcher/stakingeventwatcher.go:394-456 | a report is made exactly if an attempt gets that far before an earlier one gives up |
| `SpendReport.ReportUnbondingToBabylon` | btcstaking-tracker/stakingeventwatcher/stakingeventwatcher.go:394-456 | the retry loop makes exactly that trace |
| `SpendReport.HandleSpend` | btcstaking-tracker/stakingeventwatcher/stakingeventwatcher.go:458-576 | the handler makes exactly the trace the theorems are about |

## Left out

- RPC clients, notifiers, the HTTP indexer and Babylon adapters: their answers are inputs.
- Cryptography and formats: signatures, slashing witnesses, SPV proofs, checkpoint encoding, transaction serialisation and proof generation are parameters or success flags.
- Store encodings: a store is a value that survives a crash, with writes that may fail.
- Metrics, logging, configuration, command line, clocks, delays and jitter; the resend interval is a flag.
- Monitor liveness checker and epoch verification: short control flow that would only add easy members.
- Consumers of the scanner's channels: the theorems are about the stream sent on `confirmedBlocksChan`, which has two readers.
- Live slices: `GetAllBlocks` and `GetLastBlocks` return the cache's own slice; the model returns sequence values, so later aliasing is not captured.
- Block heights near the uint32 limit: only the subtraction `bestHeight - k` and the reporter's height sums wrap in the model; `height + 1` does not, which differs only at 2^32 - 1.
- Floating point: multipliers, margins and the node's fees are reals, so float64 rounding is not captured; the conversions that drop a fraction are.
- Transaction ids: an id is the content of the transaction, so ids do not depend on signatures, which holds for segwit inputs. A changed transaction is taken not to be one broadcast before; `RecordMovesOn` proves that of the record's own history.
- Mempool entries of foreign transactions: the mempool holds only transactions that reached the node from this relayer.
- `getFeeRate` and the estimator behind it: the feerate is an input.
- `First`, `RemoveLast`, `Size` of the block cache, `GetDelegation(s)`, `Clone` and `HasDelegationChanged` of the tracker: easy members.
- An early stop of the consumer of `DelegationsIter`: the run is then a prefix of the runs modelled.
- Concurrent `Match` during the drain of the checkpoint cache: each operation holds the lock, and the drain is modelled without others in between.
- Checks of the sealed status before submission: the polled checkpoints are sealed.
- Effects of a completed comet lookup by delegation status: which tracker gets the delegation is not modelled, only that it is looked up.
- The goroutine per spent output and its `InProgress` flag: one handler run is modelled, not the scheduling of several.
- Relayer.StoredPairBelongsTogether: holds for orderly runs only; `StoredPairMatchesIff` gives the exact condition.
- EvidenceCursor.NoEvidenceIsSkipped: assumes the start-height flag is the same at every start, and that listed evidence stays listed.
- HeaderSubmission.Babylon.InsertHeaders: stands for the whole of `submitHeaderMsgs` with its retries; errors of other modules that the retry wrapper turns into success (retrywrap/retry.go:26-29) are not among its answers.
- Reporter.Reporter.HandleNewBlock: says nothing about links if the node reports another height for a block than the notification did.
