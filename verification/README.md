# Verified model of a Solana trading agent

This project models the durable protocols of the agent and the algorithms around them, and proves what they
promise. Check it with `dafny verify dfyconfig.toml`.

A protocol is a state machine. Each block of code between two awaits is one atomic step, written twice: as a
function on the stored rows and suspended calls, and as a method of the class that owns those rows, proved to
compute that function. Replies of the network, the signer, the wallet and the operator are arbitrary, any promise
may be rejected, calls interleave freely, and the process may crash at any await. The safety theorems quantify over
every state that finitely many such steps can reach.

## What is modelled

| files | subject |
|---|---|
| `KernelStore`, `SpendCaps`, `PolicyEngine`, `TradeGateway`, `TradeProtocol`, `TradeSafety` | the money path: idempotency, rolling caps, reservations, persist-sign-broadcast-settle, boot recovery |
| `ExecutionStore`, `Orchestrator`, `Lifecycle`, `LifecycleSafety` | durable executions moved by compare-and-set under racing submits and recoveries |
| `ReplayStore`, `SignerService`, `SignerProtocol` | the signer's one-time authorizations and height fence |
| `FrameDecoder`, `SignPolicy`, `SignPolicySafety` | the signer's socket framing and its independent transaction policy |
| `Fractions`, `Candles`, `CandleSafety` | exact prices, candles and market summaries |
| `Merkle`, `Json`, `JsonRoundTrip`, `JsonCanonical`, `JsonGraph`, `Journal` | audit roots, canonical JSON and the hash chain |
| `Liquidation`, `PerpGuards`, `Portfolio` | perpetuals: liquidation distance, guards, portfolio totals |
| `SessionStore`, `FeedWatcher`, `FeedSafety`, `AgentTrace`, `AgentRuntime`, `RepeatedCalls`, `StrategyRunner` | session lineage, the reconnecting feed, the budgeted agent loop, scheduled strategies |
| `Prelude`, `Sums`, `Sorting` | options and results, sums under permutation, stable sorting |

## Where the code differs from what its comments suggest

The model keeps the code as it is; each point is a lemma below.

- A crash while a broadcast is awaited leaves the row in `reserved`. Boot recovery reads `sent` rows only, so the row
  and its reservation stay as they are for good (`TradeSafety.CrashDuringBroadcastStrands`,
  `TradeSafety.StrandedForever`). A broadcast trade is settled exactly when its call finished or its broadcast reply
  was processed.
- A rejection from the send itself, from confirm or from a read after it releases the reservation, although the
  transaction may be on the chain: the broadcaster can reject after the node took the bytes. It is possible exactly at
  the await of the broadcast and the awaits after it
  (`TradeSafety.RejectionCanGiveBackALandedTradeExactlyOnceHanded`, `TradeSafety.RejectedBroadcastCanHaveLanded`).
- For the strategy runner such a trade, and a confirmed one whose fill cannot be verified, is a failed swap: nothing is
  booked and the swap is planned again under a new key. A trigger can so trade three times without a crash before the
  error breaker stops it (`StrategyRunner.TriggerCanTradeThrice`, `StrategyRunner.BreakerBoundsTriggers`), and DCA and
  TWAP pass their totals (`StrategyRunner.DcaCanPassItsBudget`, `StrategyRunner.TwapCanPassItsTotal`). The books agree with the trades exactly when there was no such answer and no lost save
  (`StrategyRunner.DcaBooksAgreeExactly`, `StrategyRunner.TwapBooksAgreeExactly`).
- `consumeReservation` has no state guard. Alone it breaks the caps exactly when it revives a released row
  (`SpendCaps.ConsumeRaisesWindowExactlyWhenReviving`); the protocol never uses it so.
- `reconcile(id)` moves settled rows when an operator calls it on one
  (`LifecycleSafety.OperatorReconcileCanMoveEverySettledRow`); when passes alone reconcile, one at a time, they absorb.
- A signature does not always stay retrievable: a broadcast replaces the data it is looked up by
  (`SignerProtocol.RetrievableExactlyWhileSigned`).
- The repeated-call limit of the agent loop is judged once per batch, by the counts before it, so one batch can add as
  many repetitions as the tool budget has room for (`RepeatedCalls.OneBatchCanExceedTheLimit`). A signature stays within the limit exactly when the
  last batch containing it adds no more than the room left (`RepeatedCalls.LimitHoldsExactly`).
- When leverage times the maintenance ratio exceeds one, or a long has leverage below one, the liquidation model has
  no distance and the venue's number alone decides (`Liquidation.VenueAloneDecidesOutsideTheModel`).
- Trades that share an id but not a price make candles depend on input order
  (`CandleSafety.ConflictingIdsDependOnOrder`).
- An audit root alone does not fix the number of its leaves (`Merkle.RepeatedLastLeafKeepsRoot`).
- A branch at a message whose id is the empty string is never cut (`Sessions.UnanchoredBranchFollowsItsParent`).
- A swap replayed under its key after a crash is answered as a duplicate, which the runner counts as a failure: the
  lost trade is not repeated, but its progress is never booked
  (`StrategyRunner.LostTradeIsNeitherRepeatedNorCounted`), so DCA and TWAP go on and trade one step more.

## Model

| member | source | states |
|---|---|---|
| Kernel.KernelStore.SumActiveRows | src/kernel/store.ts:161-170 | The loop over the bucket's rows dated at or after `since` returns the sum of the reserved and consumed amounts among them, released rows counting nothing |
| Kernel.KernelStore.ReadUsage | src/kernel/store.ts:173-178 | Hour and day usage are the active sums over the last hour and the last day |
| Kernel.KernelStore.ClaimIdempotency | src/kernel/store.ts:181-188 | A key is claimed exactly when nobody holds it; a taken key and every other table are left as they are |
| Kernel.KernelStore.Reserve | src/kernel/store.ts:206-249 | One transaction: per-trade, per-hour and per-day checks in that order with their caps and would-be totals; on success one `reserved` row dated `now` is appended, on refusal nothing changes |
| Kernel.KernelStore.ReleaseReservation | src/kernel/store.ts:251-257 | A reservation that is still `reserved` becomes `released`; any other, or a missing id, changes nothing |
| Kernel.KernelStore.ConsumeReservation | src/kernel/store.ts:259-263 | Only that reservation becomes `consumed`, whatever its state was: there is no guard |
| Kernel.KernelStore.InsertTrade | src/kernel/store.ts:265-285 | The row is added in state `reserved` unless its id or its idempotency key is already in the table |
| Kernel.KernelStore.PersistSignedWire | src/kernel/store.ts:288-299 | Wire bytes and signature are stored on the one row |
| Kernel.KernelStore.RecordSignature | src/kernel/store.ts:301-311 | The signature of the one row is replaced |
| Kernel.KernelStore.MoveTo | src/kernel/store.ts:301-305 | The state of the one row is replaced |
| Kernel.KernelStore.FailTrade | src/kernel/store.ts:313-319 | State and error code of the one row are replaced |
| SpendCaps.ReserveKeepsCaps | src/kernel/store.ts:206-249 | If every window of every bucket was within the cap in force at its last insertion, a successful reserve keeps it so, even when its `now` lies before rows already present |
| SpendCaps.ReserveRefusesOnlyOverspending | src/kernel/store.ts:206-249 | While no row of the bucket is dated later than `now`, a reservation is refused exactly when it exceeds the per-trade cap or the hour or day ending now would exceed its cap |
| SpendCaps.SetSpendKeepsCaps | src/kernel/store.ts:251-263 | Any state change except reviving a released row keeps every window within its cap |
| SpendCaps.StateChangeMovesSum | src/kernel/store.ts:161-170 | Changing one row moves exactly the windows containing it, by exactly its amount (conservation) |
| SpendCaps.WindowWithinActive | src/kernel/store.ts:161-178 | A window sum never exceeds what the store adds up, because the store has no upper time bound: this is why out-of-order times are safe |
| SpendCaps.ConsumeRaisesWindowExactlyWhenReviving | src/kernel/store.ts:259-263 | A bare consume raises a window if and only if the row was released and had a positive amount |
| SpendCaps.ConsumeCanBreakTheCap | src/kernel/store.ts:259-263 | Concrete tables in which one unguarded consume takes an hour past its cap |
| SpendCaps.PreviewAgreesWithReserve | src/kernel/trade-gateway.ts:517-541 | The preview check and the transactional reserve refuse the same amounts for the same reason at one instant |
| PolicyEngine.AdmittedAmountIsAnOutflow | src/kernel/policy-engine.ts:54-96 | An intent that passes every static guard has a non-negative amount, zero only for a perp reduce or close, and carries a perp leg exactly for perp kinds |
| PolicyEngine.AdmittedExactly | src/kernel/policy-engine.ts:30-185 | An intent passes every static guard if and only if each condition holds on the unrounded products: fee times 10000 within notional times the allowed basis points, and the shortfall of the minimum output below the clamp plus tolerance, exclusive of the next basis point; with no output quoted the minimum is not looked at |
| Gateway.TradeGateway.Live | src/kernel/trade-gateway.ts:123-153 | A new call up to its first await: duplicate keys answer at once, static and settle guards are applied, nothing is reserved yet, other calls untouched |
| Gateway.TradeGateway.ReserveInputLeg | src/kernel/trade-gateway.ts:155-185 | After the mint check: Token-2022 refusal, then the cap reservation at the call's original `now`, or the catch block |
| Gateway.TradeGateway.InsertRow | src/kernel/trade-gateway.ts:185-211 | After the balance and position reads: refuses a balance below amount plus fee headroom, otherwise inserts the row bound to the reservation |
| Gateway.TradeGateway.PersistThenBroadcast | src/kernel/trade-gateway.ts:246-274 | Bytes and signature are stored before the broadcast is begun; an unknown land mode takes the catch block with the bytes stored |
| Gateway.TradeGateway.Conclude | src/kernel/trade-gateway.ts:291-324 | Confirmation reply: expired and failed release the reservation and close the row in the same synchronous block |
| Gateway.TradeGateway.Catch | src/kernel/trade-gateway.ts:358-380 | Whatever was thrown: release, then `errored` if the row was inserted |
| Gateway.TradeGateway.Resume | src/kernel/trade-gateway.ts:123-381 | One await-to-await block of one call, for any outcome of the promise including rejection; every other call is unchanged |
| Gateway.Reconciler.Recover | src/kernel/reconciler.ts:37-51 | A boot pass over the rows found `sent`, up to its first await |
| Gateway.Reconciler.OnConfirmation | src/kernel/reconciler.ts:51-74 | One recovery reply: confirmed consumes, expired and failed release, counters advance, the pass goes on; a rejection stops it |
| Gateway.Reconciler.FailUnsigned | src/kernel/reconciler.ts:43-50 | The loop releases and closes rows without a signature until one needs the network |
| TradeProtocol.StepKeepsInv | src/kernel/trade-gateway.ts:123-381 | Starting a call, resuming any call with any reply, a crash at any await, boot and recovery replies all preserve the protocol invariant (ownership of rows, reservations and keys, caps, history) |
| TradeProtocol.ReachableInv | src/kernel/trade-gateway.ts:123-381 | The invariant holds after every finite sequence of such events |
| TradeProtocol.InsertNeverConflicts | src/kernel/store.ts:265-285 | At every await before the insert no row of that id or key exists, so the unique constraint of the table never fires in a call |
| TradeProtocol.CloseKeeps | src/kernel/trade-gateway.ts:296-305 | Closing a row together with its reservation keeps row, frame and reservation in agreement and touches no other trade |
| TradeProtocol.RecoveredRowKeeps | src/kernel/reconciler.ts:43-71 | A recovery reply closes exactly the `sent` row it is about, in the state the reply names, and touches nothing else |
| TradeSafety.RollingCapsHold | src/kernel/store.ts:161-263 | In every reachable state, for each bucket and every instant, reserved plus consumed amounts dated within the following hour (or day) sum to at most the perHour (perDay) cap given to the last reservation inserted in that window |
| TradeSafety.ConfirmedInputWithinCap | src/kernel/store.ts:161-263 | What confirmed trades took out of the wallet in any window is within that cap too |
| TradeSafety.EveryQuoteTradeIsCountedOnce | src/kernel/trade-gateway.ts:155-179 | Every row spending a quote asset has exactly one reservation counting it |
| TradeSafety.AtMostOneSignAndBroadcastPerKey | src/kernel/trade-gateway.ts:131-142 | Over interleavings, crashes and recovery: broadcasts per key are at most sign requests per key, which are at most one |
| TradeSafety.BroadcastBytesArePersisted | src/kernel/trade-gateway.ts:246-274 | Every byte string handed to the network is the one stored in the row of the call that sent it |
| TradeSafety.RowAndReservationAgree | src/kernel/trade-gateway.ts:291-369 | Each row with a reservation is in one of five pairs: reserved/reserved, sent/reserved, confirmed/consumed, expired/released, errored/released |
| TradeSafety.FinishedCallSettlesItsReservation | src/kernel/trade-gateway.ts:291-380 | A call that ran to its end has consumed its reservation exactly if its row is confirmed, and released it otherwise |
| TradeSafety.TerminalRowsAndReleasedSpendsAreFinal | src/kernel/store.ts:251-319 | No event, recovery and crash included, changes a terminal row or a settled reservation; rows are never lost |
| TradeSafety.RecoveryIsOneClose | src/kernel/reconciler.ts:51-71 | Each recovery reply settles the head of the queue in the state the reply names and drops it from the queue |
| TradeSafety.BroadcastIsSettledExactlyWhenAcknowledged | src/kernel/store.ts:322-326 | After all calls are gone and recovery drained, a trade handed to the broadcaster is terminal if and only if its call finished or the broadcaster's answer was processed before the crash |
| TradeSafety.CrashDuringBroadcastStrands | src/kernel/trade-gateway.ts:262-283 | A crash while the broadcast is awaited always leaves a stored, possibly landed transaction in a row recovery does not read |
| TradeSafety.StrandedForever | src/kernel/store.ts:322-326 | That row keeps its state and its reservation under every later event |
| TradeSafety.RejectionCanGiveBackALandedTradeExactlyOnceHanded | src/kernel/trade-gateway.ts:262-369 | A rejected promise always releases the reservation; in some continuation of the run that concerns a transaction on the chain if and only if the call waits for the broadcast or later. The chain may take the bytes at any time after they were handed over, whatever the broadcaster answers |
| TradeSafety.RejectionGivesBack | src/kernel/trade-gateway.ts:358-369 | Those awaits are exactly the ones at which bytes have been handed to a broadcaster, and only such bytes can be on the chain |
| TradeSafety.RejectedBroadcastCanHaveLanded | src/chains/solana/broadcaster.ts:20-29 | The send rejects after the node took the bytes: transaction on the chain, reservation released, row errored |
| TradeSafety.EveryFittingTradeReachesTheBroadcast | src/kernel/trade-gateway.ts:123-274 | Every admissible quote trade within its caps reaches that await in some run |
| TradeSafety.UnsentNeverLands | src/kernel/trade-gateway.ts:358-369 | A call that ended before the broadcast has nothing on the chain in any continuation |
| TradeSafety.RecoverySummaryAddsUp | src/kernel/reconciler.ts:37-74 | A pass that drains its queue reports checked = confirmed + failed |
| Executions.ExecutionStore.Create | src/live-trading/index.ts:244-263 | One row is appended, nothing else moves; a second row of an idempotency key is refused |
| Executions.ExecutionStore.Transition | src/live-trading/index.ts:287-320 | Compare-and-set: missing row, state outside the accepted set, or another version leave the table as it was with the source's error; otherwise the patch and version + 1 |
| Executions.ExecutionStore.Update | src/live-trading/index.ts:321-325 | Read and compare-and-set in one synchronous block: it succeeds exactly for existing rows |
| Executions.CasExcludesStaleWriters | src/live-trading/index.ts:297-301 | Of two writers holding the same version the second is always refused |
| Orchestrator.TradingOrchestrator.Execute | src/live-trading/index.ts:504-589 | Once the reads and ports have answered: a used key adds nothing; a dry run becomes a `dry-run` row, a live one awaits approval or is approved at once |
| Orchestrator.TradingOrchestrator.Refresh | src/live-trading/index.ts:687-705 | Only an awaiting row moves, to denied or approved, as the approval engine decided |
| Orchestrator.TradingOrchestrator.Recover | src/live-trading/index.ts:798-805 | Only a `submitting` row moves, to reconciliation-required |
| Orchestrator.TradingOrchestrator.Burn | src/live-trading/index.ts:713-717 | The reservation is released before the row is moved to expired |
| Orchestrator.TradingOrchestrator.ConsumeApproval | src/live-trading/index.ts:743-750 | An approval is consumed and the row moved to `signing` before an authorization is asked for |
| Orchestrator.TradingOrchestrator.PersistSignature | src/live-trading/index.ts:766-781 | Signature and height are stored by compare-and-set before the bytes go out |
| Orchestrator.TradingOrchestrator.ResumeSubmission | src/live-trading/index.ts:719-796 | One block of `submit`, its catch block included |
| Orchestrator.TradingOrchestrator.RecoverSignature | src/live-trading/index.ts:821-840 | A recovered signature is stored before its one broadcast; expired answers burn the row |
| Orchestrator.TradingOrchestrator.MarkUnknown | src/live-trading/index.ts:904-908 | An unseen signature parks the row in reconciliation-required |
| Orchestrator.TradingOrchestrator.ResumeRecoveryOrReconcile | src/live-trading/index.ts:816-925 | One block of recoverSigning, the recovery pass or reconcile, under compare-and-set against the snapshot read earlier |
| Orchestrator.TradingOrchestrator.Resume | src/live-trading/index.ts:719-925 | Any block of any suspended operation, for any reply including rejection |
| Lifecycle.StepKeepsInv | src/live-trading/index.ts:719-925 | Every block of every racing operation, and a crash of all of them, preserves the lifecycle invariant and moves every row forward only |
| Lifecycle.ReachableInv | src/live-trading/index.ts:719-925 | The invariant holds in every reachable state |
| LifecycleSafety.SignatureExactlyWhenSigned | src/live-trading/index.ts:763-787 | A row has a signature if and only if its state is submitting, reconciliation-required, broadcast, confirmed, finalized, failed or dropped |
| LifecycleSafety.AtMostOneBroadcastPerExecution | src/live-trading/index.ts:780-852 | However submit, recoverSigning and recovery race, the orchestrator's own RPC is given at most one transaction per execution, and it is the one on record |
| LifecycleSafety.AtMostOneExecutionPerKey | src/live-trading/index.ts:508-571 | In every reachable state an idempotency key has at most one row, so with the row above at most one transaction |
| LifecycleSafety.SignedForGoodAndClosedForGood | src/live-trading/index.ts:287-320 | Over any continuation of a run: the signature is write-once, a signed row never returns to an unsigned or expired state, and dry-run, denied and expired rows never change |
| LifecycleSafety.EveryStepIsAnEdge | src/live-trading/index.ts:287-320 | Each event moves each row along the lifecycle diagram or not at all |
| LifecycleSafety.OnlySettledReadsMoveSettledRows | src/live-trading/index.ts:891-925 | Only a reconciliation that read the row when it was already settled can move it |
| LifecycleSafety.SettledStatesAbsorb | src/live-trading/index.ts:854-882 | If reconciliation is driven by non-overlapping passes alone, finalized, failed and dropped rows never change again |
| LifecycleSafety.OperatorReconcileCanMoveEverySettledRow | src/live-trading/index.ts:891-915 | Without that discipline no settled row is safe: from every reachable state some run takes it to dropped and some to failed, with or without a reservation |
| Replay.ReplayStore.Consume | src/signer/replay.ts:37-46 | An authorization is claimed exactly once: a known or empty id, or an expiry that is no safe integer, is refused and the rows stay |
| Replay.ReplayStore.Transition | src/signer/replay.ts:47-60 | Compare-and-set on the state; a mismatch changes nothing |
| Replay.ReplayStore.RecoverSigned | src/signer/replay.ts:72-78 | The data of a signed row goes to the first caller only |
| Signer.SignerService.SignEnvelope | src/signer/index.ts:202-216 | Lookup of a prior signature precedes verification and policy; nothing is claimed before both |
| Signer.SignerService.Sign | src/signer/index.ts:115-129 | The direct path: policy first, then lookup, then the claim |
| Signer.SignerService.Result | src/signer/index.ts:166-194 | Expired, not found, mismatch, in progress or the stored signature; raw bytes only with the one-time release |
| Signer.SignerService.ReconcileStatus | src/signer/index.ts:329-359 | Chain status moves a listed row to reverted, confirmed, broadcast or nowhere, by compare-and-set against the listed state |
| Signer.SignerService.Resume | src/signer/index.ts:95-158 | One block of a suspended call: height fence, signing, broadcast or reconciliation, and whether signMessage ran in it |
| SignerProtocol.StepKeepsInv | src/signer/index.ts:65-219 | Concurrent connections, any replies and restarts preserve the invariant that each row has at most one owner and one signature |
| SignerProtocol.SignsAtMostOncePerAuthorization | src/signer/index.ts:115-158 | Over every run signMessage is called at most once per id, and no id it was called for is, or later becomes, fenced as expired |
| SignerProtocol.AnswersAgree | src/signer/index.ts:65-85 | All successful answers for one id are identical, bytes and hash |
| SignerProtocol.RawBytesReleasedOnce | src/signer/index.ts:176-192 | The signed bytes leave through `result` to at most one caller per id |
| SignerProtocol.RowsOnlyClimb | src/signer/replay.ts:47-60 | Every event leaves a row's state alone or raises its rank; claims are never forgotten |
| SignerProtocol.VersionIsBounded | src/signer/replay.ts:47-78 | A row makes at most four state changes, and its version counts them and the single release of bytes, so it never passes six |
| SignerProtocol.FencingIsNeverLost | src/signer/index.ts:148-152 | The compare-and-set behind a signature always succeeds: `replay_fencing_lost` is unreachable |
| SignerProtocol.RetrievableExactlyWhileSigned | src/signer/index.ts:65-85 | A produced signature is found if and only if its row is still `signed`; once broadcast or in reconciliation the lookup throws a request mismatch |
| Framing.JsonFrameDecoder.Push | src/signer/index.ts:226-245 | The in-place loop computes the frames and the rest of the specification of one push, errors and partial consumption included |
| Framing.PushSucceedsExactly | src/signer/index.ts:226-245 | A push is accepted if and only if each line it completes is within the limit and parses, and an unfinished line fits unless a line was completed; then it returns the parsed lines and keeps the tail |
| Framing.SplitResumes | src/signer/index.ts:226-236 | Splitting at newlines may be interrupted anywhere and resumed from the kept tail |
| Framing.AcceptedFeedIgnoresCuts | src/signer/index.ts:226-245 | If a chunked feed is accepted, its frames and its tail are those of the whole stream |
| Framing.GoodStreamIsAccepted | src/signer/index.ts:226-245 | If every line is within the limit and parses and the tail fits, no chunking makes the decoder throw |
| Framing.DecodeUndoesEncode | src/signer/index.ts:222-246 | Newline-encode any list of frames, cut the bytes anywhere, decode: the same list and nothing pending |
| SignPolicy.MatchRule | src/signer/policy.ts:124-139 | The loop returns the specified best rule and whether the program occurs at all |
| SignPolicy.ChargeInstruction | src/signer/policy.ts:171-203 | One instruction is refused or yields nothing, a fee setting or one spend leg read from its bytes |
| SignPolicy.TallyInstructions | src/signer/policy.ts:169-204 | The loop computes the specified tally or its first error |
| SignPolicy.EvaluatePolicy | src/signer/policy.ts:149-247 | The whole evaluation: header checks, tally, fees, caps, with the first error in source order |
| SignPolicySafety.TallyAcceptsExactly | src/signer/policy.ts:169-204 | The loop accepts if and only if each instruction is acceptable alone and neither fee setting occurs twice |
| SignPolicySafety.AcceptedSpendIsCapped | src/signer/policy.ts:202-240 | On acceptance an asset is in the result exactly if some leg spends it; its total is the sum of the decoded legs, it has a cap, and the total is within it |
| SignPolicySafety.AcceptedFeeIsExactAndBounded | src/signer/policy.ts:206-232 | On acceptance the fee is the exact ceiling of limit times price over a million and within the absolute, unit, price and basis-point limits |
| SignPolicySafety.EvaluateAcceptsExactly | src/signer/policy.ts:149-247 | The whole policy is accepted if and only if payer, counts and lookups are allowed, every instruction is acceptable alone, neither fee setting occurs twice, limit, price and their exact product are within the fee limits, and every asset spent has a cap its total fits |
| SignPolicySafety.InstructionOrderIsIrrelevant | src/signer/policy.ts:171-247 | Permuting instructions changes neither acceptance nor any returned value |
| SignPolicySafety.HasNoDuplicates | src/signer/policy.ts:342-348 | The loader's set of joined keys accepts exactly the duplicate-free rule lists |
| SignPolicySafety.BestRuleIsLongest | src/signer/policy.ts:131-137 | The winner matches and no matching rule has a longer discriminator, or nothing matches |
| SignPolicySafety.BestRulePermutes | src/signer/policy.ts:123-139 | For duplicate-free lists the winner does not depend on rule order |
| SignPolicySafety.RuleOrderIsIrrelevant | src/signer/policy.ts:149-247 | Permuting a duplicate-free rule list changes nothing at all, not even which error is reported |
| Fractions.GcdOf | src/market/ohlcv.ts:14-21 | The Euclid loop computes the specified gcd for arguments of any sign |
| Fractions.GcdDivides | src/market/ohlcv.ts:14-21 | The gcd divides both arguments |
| Fractions.Bezout | src/market/ohlcv.ts:14-21 | The gcd is an integer combination of both, hence the greatest common divisor |
| Fractions.MakeRational | src/market/ohlcv.ts:23-27 | Reduction of any numerator, negative included, with the error for a denominator that is not positive |
| Fractions.ReducedIsLowestTerms | src/market/ohlcv.ts:22-27 | The reduced pair has the same value and no common factor |
| Fractions.LowestTermsAreUnique | src/market/ohlcv.ts:22-27 | Two reduced fractions equal by cross-multiplication are the same pair |
| Fractions.EqualPricesReduceAlike | src/market/ohlcv.ts:57-59 | Two prices are equal by cross-multiplication if and only if their reduced fractions are identical |
| Candles.DropRepeats | src/market/ohlcv.ts:68-74 | The filter keeps the first trade of each id, in order |
| Candles.Record | src/market/ohlcv.ts:88-110 | One valid trade opens a candle or extends the last one |
| Candles.AggregateCandles | src/market/ohlcv.ts:62-113 | Filter, stable sort and fold, with the source's errors in the source's order |
| Candles.MarketAnalytics | src/market/ohlcv.ts:114-147 | The single loop computes the specified totals, best prices and ratios, errors included |
| CandleSafety.AggregateSummarises | src/market/ohlcv.ts:62-113 | Any accepted input yields exactly one candle per occupied bucket: open and close are the prices of the first and last trade by time, slot, sequence, id; high and low the attained extremes; volumes and counts the sums; starts strictly increasing |
| CandleSafety.SummaryIsUnique | src/market/ohlcv.ts:62-113 | That specification determines the list of candles |
| CandleSafety.AggregateAccepts | src/market/ohlcv.ts:66-87 | Accepted inputs are exactly those with a safe positive interval and valid first occurrences |
| CandleSafety.InputOrderAndRepetitionAreIrrelevant | src/market/ohlcv.ts:68-80 | Any permutation and any repetition gives the same candles or the same error, when equal ids carry equal trades |
| CandleSafety.ConflictingIdsDependOnOrder | src/market/ohlcv.ts:68-74 | For two valid trades sharing an id but not a price, the input order always shows in the result |
| CandleSafety.AnalyticsAgreeWithCandles | src/market/ohlcv.ts:114-147 | For every interval, the summary's volumes and count are the sums over the candles, high and low the maximum and minimum over them as identical values, and vwap their exact quotient |
| CandleSafety.BestIsUnique | src/market/ohlcv.ts:132-133 | The extreme of a list of reduced prices is one single value |
| Merkle.AuditRootBatcher.Make | src/observability/index.ts:178-184 | A batcher exists exactly for a size of at least one, and starts empty |
| Merkle.AuditRootBatcher.Add | src/observability/index.ts:185-189 | The event joins the history; a record is published exactly when the batch is full, over exactly the pending leaves and this one |
| Merkle.AuditRootBatcher.Flush | src/observability/index.ts:190-207 | Pending leaves become one published batch; with none pending nothing is published. Flushed batches followed by pending leaves stay exactly the hashed events in order |
| Merkle.AuditRootBatcher.FlushLeaves | src/observability/index.ts:190-207 | The halving loop terminates and publishes a record committing to exactly the spliced leaves and their count |
| Merkle.AuditRootBatcher.NextLevel | src/observability/index.ts:194-198 | One level: neighbours hashed in pairs, an odd last node with itself |
| Merkle.RootBindsLeaves | src/observability/index.ts:190-204 | Equal roots over equally many leaves come from equal leaf lists, if the hash has a fixed length and is collision-free on the strings hashed |
| Merkle.RecordBindsEvents | src/observability/index.ts:185-204 | Equal root and leafCount mean equal events in the same order, without assuming the lengths equal beforehand |
| Merkle.RepeatedLastLeafKeepsRoot | src/observability/index.ts:196-197 | The count is needed: repeating the last leaf of any odd list of three or more keeps the root |
| Merkle.PublicationBindsHistory | src/observability/index.ts:176-208 | Two batchers with equal published records took the same events up to those still pending |
| JsonRoundTrip.PrintRoundTrip | src/storage/session-store.ts:55-82 | Every JSON value printed with any key order is read back as itself: escapes, lone surrogates and nesting included |
| JsonCanonical.UnitLessIsTotalOrder | src/storage/session-store.ts:73-74 | Ordering keys by UTF-16 code unit (section 3.2.3 of RFC 8785) is a strict total order |
| JsonCanonical.CanonicalPrintsNorm | src/storage/session-store.ts:55-81 | Canonical text is the plain text of the value with its keys sorted at every level |
| JsonCanonical.CanonicalRoundTrip | src/storage/session-store.ts:55-82 | Canonical text is read back to the same tree up to key order |
| JsonCanonical.CanonicalIsInjective | src/storage/session-store.ts:55-81 | Two values have the same canonical text if and only if they are the same tree up to key order |
| JsonCanonical.CanonicalIsIdempotent | src/storage/session-store.ts:55-82 | Reading canonical text and canonicalising again gives the same text |
| JsonGraph.WritesExactlyTheFiniteTrees | src/storage/session-store.ts:55-81 | On an object graph with sharing and cycles the writer succeeds if and only if the value unfolds to a finite tree, and then writes that tree's canonical text |
| JsonGraph.UnfoldingIsUnique | src/storage/session-store.ts:63-79 | A value of a graph unfolds to at most one tree |
| Journal.AuditJournal.Append | src/audit.ts:23-33 | The chain verifies afterwards if and only if it verified before, tampering included |
| Journal.AuditJournal.Verify | src/audit.ts:34-47 | True exactly when every entry has its index, its predecessor's hash and the digest of its own canonical text |
| Journal.HeadBindsJournal | src/audit.ts:10-47 | Two verified journals with the same head hash are equal entry for entry, payloads up to key order, if the digest is collision-free on the texts digested |
| Liquidation.ReconcileTakesTheCloser | src/perps/liquidation.ts:160-234 | The result is at most either usable distance, belongs to the price returned with it, and is missing exactly when both are |
| Liquidation.ModelDistanceExists | src/perps/liquidation.ts:58-101 | The model has a distance exactly when leverage times the margin ratio is at most one, and for a long leverage is at least one |
| Liquidation.FlooredDistanceMeetsFloor | src/perps/liquidation.ts:58-125 | There, the floored distance meets a floor exactly when leverage is at most maxLeverageForDistance of the floor rounded up |
| Liquidation.VenueCannotBuyLeverage | src/perps/guards.ts:422-466 | There, the guard accepts if and only if leverage is within that limit and a usable venue distance meets the floor too: no venue price admits more leverage |
| Liquidation.VenueAloneDecidesOutsideTheModel | src/perps/guards.ts:422-466 | Elsewhere the guard accepts if and only if the venue's own distance meets the floor |
| Liquidation.SomeVenuePriceAccepts | src/perps/guards.ts:422-466 | Elsewhere some venue price makes the guard accept any leverage |
| PerpGuards.ExposureFrom | src/perps/exposure.ts:59-91 | The accumulating loop returns, for each bucket, the sums of notional and collateral magnitudes, the unbucketed magnitudes and the number of positions, and is stale exactly when some position has no bucket |
| PerpGuards.NoViolationsExactly | src/perps/guards.ts:612-617 | The advisory list is empty if and only if every rule is silent |
| PerpGuards.Enforce | src/perps/guards.ts:564-575 | The throwing check throws exactly when the advisory verdict fails, and throws the first advisory violation |
| PerpGuards.Evaluate | src/perps/guards.ts:587-618 | The advisory check collects every violation in rule order and is ok exactly when there is none |
| Portfolio.AcceptedOpeningIsBounded | src/perps/guards.ts:254-408 | An accepted opening is within every amount cap at once, on a fresh snapshot, armed and not winding down, with a free slot if it needs one and the right side if it increases |
| Portfolio.AcceptedLeverageKeepsItsDistance | src/perps/guards.ts:422-466 | An accepted opening inside the model's range is within the leverage limit whatever the venue reported |
| Portfolio.AcceptedExitIsAReduction | src/perps/guards.ts:218-253 | An accepted exit faces an opposite position of the same market and never exceeds it |
| Portfolio.PortfolioStaysWithinCaps | src/perps/guards.ts:354-408 | Over any sequence of accepted openings and of closings, each bucket's total stays within the portfolio cap in force at its last opening, and the number of positions within its limit |
| Sessions.SessionStore.CreateSession | src/storage/session-store.ts:179-206 | Insert or ignore, then compare: an equal request answers the stored row, another is a conflict, a broken reference inserts nothing |
| Sessions.SessionStore.AppendMessage | src/storage/session-store.ts:243-260 | The same for messages, with a sequence above all earlier ones |
| Sessions.SessionStore.ReadLine | src/storage/session-store.ts:270-278 | In every reachable store the climb ends at a root and the cycle error never fires |
| Sessions.SessionStore.ReadPieces | src/storage/session-store.ts:279-289 | Every branch message is found in its session, so the missing-branch error never fires |
| Sessions.SessionStore.GetMessages | src/storage/session-store.ts:261-290 | Never fails; with ancestors it returns the recursive transcript, root first |
| Sessions.PiecesAreTranscript | src/storage/session-store.ts:280-288 | Concatenating the cut pieces along the lineage equals: the parent's transcript cut at the branch message, then the own messages |
| Sessions.InheritedEndsAtTheBranch | src/storage/session-store.ts:281-286 | What a child inherits is a prefix of its parent's transcript whose last message is the branch message |
| Sessions.AppendReachesOnlyItsSession | src/storage/session-store.ts:243-260 | Appending anywhere changes no transcript except that of its own session, by that message at the end; children of it are unchanged |
| Sessions.CreateKeepsTranscripts | src/storage/session-store.ts:179-206 | Creating a session changes no existing transcript |
| Sessions.UnanchoredBranchFollowsItsParent | src/storage/session-store.ts:282-287 | A branch at a message with the empty id is never cut: it goes on inheriting |
| Sessions.CreateKeepsValid | src/storage/session-store.ts:129-130 | Foreign keys keep every parent older than its child, so lineage is acyclic in every reachable store |
| Sessions.AppendKeepsValid | src/storage/session-store.ts:129-130 | Appending keeps that too |
| Feed.PumpPortalWatcher.StartWatching | src/data/pumpportal.ts:133-137 | A started watcher with a socket is left alone; otherwise it connects |
| Feed.PumpPortalWatcher.StopWatching | src/data/pumpportal.ts:140-156 | Timer and watchdog cleared, generation advanced, socket closed |
| Feed.PumpPortalWatcher.ConnectSocket | src/data/pumpportal.ts:175-189 | Timer cleared, generation advanced, a new socket or a scheduled retry |
| Feed.PumpPortalWatcher.SubscribeTokenTrade | src/data/pumpportal.ts:159-162 | The mint is remembered and, on an open socket, sent |
| Feed.PumpPortalWatcher.UnsubscribeTokenTrade | src/data/pumpportal.ts:165-168 | The mint is forgotten and, on an open socket, sent |
| Feed.PumpPortalWatcher.SocketOpened | src/data/pumpportal.ts:191-202 | A current open resets the backoff, arms the watchdog and replays |
| Feed.PumpPortalWatcher.Replay | src/data/pumpportal.ts:197-201 | The replay loop leaves the server subscribed to launches and to every remembered mint |
| Feed.PumpPortalWatcher.MessageArrived | src/data/pumpportal.ts:204-208 | Only a current socket advances the liveness clock |
| Feed.PumpPortalWatcher.SocketClosed | src/data/pumpportal.ts:210-216 | Only a current close drops the socket and schedules a retry |
| Feed.PumpPortalWatcher.TimerFired | src/data/pumpportal.ts:293-296 | The retry clears its timer and connects |
| Feed.PumpPortalWatcher.WatchdogTick | src/data/pumpportal.ts:311-331 | Past the dead-air limit the socket is abandoned and a retry scheduled |
| Feed.PumpPortalWatcher.Schedule | src/data/pumpportal.ts:287-299 | At most one retry is ever pending, none while stopped |
| Feed.SignalsFeed.StartFeed | src/data/feed.ts:83-87 | Idempotent start of the watcher |
| Feed.SignalsFeed.StopFeed | src/data/feed.ts:90-94 | Idempotent stop of the watcher |
| Feed.SignalsFeed.WatchMint | src/data/feed.ts:101-105 | A mint is pinned and subscribed once |
| Feed.SignalsFeed.Launch | src/data/feed.ts:112-123 | A launch is followed within the budget; the eviction loop drops the oldest and spares pinned mints |
| FeedSafety.StepKeepsInv | src/data/pumpportal.ts:133-340 | Every operator call, socket event of any generation, timer and watchdog tick preserves the feed invariant |
| FeedSafety.ExactlyOneWayForward | src/data/pumpportal.ts:175-299 | While started there is exactly one of a current socket and a pending retry; while stopped neither, nor a watchdog; never two live sockets |
| FeedSafety.SubscriptionsAreMirrored | src/data/feed.ts:101-123 | Remembered mints are exactly the pinned and the auto-followed ones, within budget and newest kept; on an open socket the server's subscriptions equal them |
| FeedSafety.OpenConnects | src/data/pumpportal.ts:191-202 | Each current open ends with server and client subscriptions equal |
| FeedSafety.StaleEventsAreInert | src/data/pumpportal.ts:179-216 | No event of an abandoned socket changes anything |
| FeedSafety.WatchdogReplacesASilentSocket | src/data/pumpportal.ts:309-333 | Within the limit a tick changes nothing; past it the socket is gone, its generation stale and a retry pending, with all subscriptions kept |
| AgentRuntime.AskOne | src/agent/runtime/index.ts:184-219 | One request is made, over the transcript as it stands and with all calls dispatched so far in it; a failure leaves the active provider alone, a response makes this one active |
| AgentRuntime.AskModel | src/agent/runtime/index.ts:178-222 | The requests go to the active provider and its successors in order, over one transcript, and to no successor after a side effect; the last one asked becomes active exactly if it answered |
| AgentRuntime.CheckBatch | src/agent/runtime/index.ts:251-288 | The loop refuses exactly the batches with a blank or repeated id, a signature at its limit, or a tool that is unsafe or denied |
| AgentRuntime.RunTool | src/agent/runtime/index.ts:291-347 | One call is announced, dispatched, completed and answered in this order, the answer carrying what the dispatcher resolved to; a failure after completion is the one that asks for reconciliation, and no failure is answered in the transcript |
| AgentRuntime.RunTools | src/agent/runtime/index.ts:236-347 | A batch over the tool budget, without a dispatcher or with a fault leaves events, transcript and dispatches alone; one that succeeds was dispatched whole and in order and stands in the transcript followed by its answers, which carry what was returned for each call |
| AgentRuntime.Round | src/agent/runtime/index.ts:171-348 | One iteration either ends the run with one terminal event or leaves every call answered |
| AgentRuntime.Execute | src/agent/runtime/index.ts:146-391 | A fully consumed run has exactly one terminal event, its last; iterations and dispatches are within budget; the requests are those of the event stream, each made when no call was open and over a transcript holding exactly the calls dispatched so far, each answered once, in order, with what was returned for it; providers only go forward; after a completed proposal every request goes to the provider whose response asked for it; dispatched calls are a prefix of the checked batches |
| RepeatedCalls.OneBatchCanExceedTheLimit | src/agent/runtime/index.ts:241-292 | For every limit and every count below it the loop admits one batch with any number of repetitions of an allowed call that the tool budget has room for |
| RepeatedCalls.EveryBatchOfCopiesIsAccepted | src/agent/runtime/index.ts:257-288 | Every batch of copies under distinct ids that are not blank is accepted whole |
| RepeatedCalls.LimitHoldsExactly | src/agent/runtime/index.ts:271-292 | Over a whole accepted run a signature stays within the limit if and only if the last batch containing it adds no more than the count before it left room for |
| RepeatedCalls.DistinctBatchesStayWithinTheLimit | src/agent/runtime/index.ts:271-292 | If no batch holds a signature twice, no dispatched signature exceeds the limit |
| RepeatedCalls.LimitHoldsAcrossBatches | src/agent/runtime/index.ts:271-292 | Before any batch containing it, a signature has occurred fewer times than the limit |
| StrategyRunner.StrategyRunner.ExecuteSwap | src/strategy/executor.ts:102-122 | A swap under a used key trades nothing and is not ok; otherwise it is refused, trades and is ok, or trades and is answered with an error |
| StrategyRunner.StrategyRunner.StepOnce | src/strategy/runner.ts:142-193 | One due strategy with any plan, any outcome and a crash before or after the swap |
| StrategyRunner.DcaStaysWithinBudget | src/strategy/runner.ts:198-212 | Over any run everything traded, ok or not, is within the rest of the budget and the slack, plus one step per crash that lost a save and one per trade answered with an error |
| StrategyRunner.DcaBooksAgreeExactly | src/strategy/runner.ts:283-287 | The amount booked is the amount traded if and only if no save was lost and no trade was answered with an error |
| StrategyRunner.TwapTradesItsTotal | src/strategy/runner.ts:213-236 | A finished schedule has traded exactly its total, plus one slice per lost save and one per trade answered with an error |
| StrategyRunner.TwapBooksAgreeExactly | src/strategy/runner.ts:283-289 | At any time the booked slices make up the amount traded if and only if there were neither |
| StrategyRunner.TriggersTradeOnceUnlessMisinformed | src/strategy/runner.ts:289-290 | A price trigger has traded exactly once if done, plus once per lost save and once per trade answered with an error; the stored trailing peak is the maximum price observed and saved |
| StrategyRunner.BreakerBoundsTriggers | src/strategy/runner.ts:169-193 | The error breaker stops a trigger after three trades, plus one per crash that may lose a save |
| StrategyRunner.UnbookedTradeIsRepeated | src/strategy/runner.ts:157-179 | A trade answered with an error leaves the strategy planning the same swap again, under a key not yet used |
| StrategyRunner.TriggerCanTradeThrice | src/strategy/runner.ts:161-191 | Every armed trigger with no errors has a run without any crash in which it trades three times |
| StrategyRunner.DcaCanPassItsBudget | src/strategy/runner.ts:169-212 | Every budgeted DCA with a step to make has a finished run without any crash in which it trades more than the rest of its budget |
| StrategyRunner.TwapCanPassItsTotal | src/strategy/runner.ts:169-236 | Every TWAP has a finished run without any crash in which it trades more than its total |
| StrategyRunner.TriggersFollowThePeak | src/strategy/runner.ts:237-277 | The bookkeeping behind it: status, trades and peak agree after every step |
| StrategyRunner.HighestIsHighest | src/strategy/runner.ts:245-246 | The running maximum is attained and bounds every observed price |
| StrategyRunner.LostTradeIsNeitherRepeatedNorCounted | src/strategy/runner.ts:157-161 | For every kind: after a crash between trade and save the replayed key trades nothing and counts as an error, and nothing is booked |

## Left out

Contracts stated with a condition:

- CandleSafety.InputOrderAndRepetitionAreIrrelevant: needs equal ids to carry equal trades; the lemma beside it shows the condition is needed.
- LifecycleSafety.SettledStatesAbsorb: for runs whose reconciliation is driven by one pass at a time, because an operator call can move any settled row; overlapping passes are not modelled.
- Liquidation.FlooredDistanceMeetsFloor: floors between 0 and 9999, the range in which `maxLeverageForDistance` is defined on whole basis points; a fractional floor is rounded up.
- PolicyEngine.AdmittedExactly: for policies whose slippage and fee limits in basis points are not negative, where truncation is rounding down.
- Merkle.RootBindsLeaves: SHA-256 is any function of fixed output length without a collision among the strings these trees hash, since no function is free of collisions on all strings.
- Journal.HeadBindsJournal: the same about the digest, on the texts digested; payloads are JSON values, so `undefined`, `NaN` and `-0` are not represented.
- Portfolio.PortfolioStaysWithinCaps: assumes of a fill that it leaves a notional of at most the previous one plus the larger of the claimed notional and collateral times leverage, that it keeps the mints of a position already held, and that the position counts in the bucket of the margin, so an opening whose margin is in another bucket than the position held is not covered; and that the guards saw the current portfolio. Price drift of open positions is not modelled.
- Sessions.AppendReachesOnlyItsSession: for lineages whose branch messages have ids that are not empty; the other case is a lemma of its own.
- StrategyRunner.DcaStaysWithinBudget: over the reals; the rounding of a long float sum is not part of the model.
- StrategyRunner.TwapTradesItsTotal: over the reals, for a schedule observed from its first slice.
- StrategyRunner.BreakerBoundsTriggers: as long as nobody resumes the paused strategy.
- Gateway.TradeGateway.Live: thrown store errors and a crash between two synchronous statements (release, then fail) are excluded.
- Signer.SignerService.SignEnvelope: envelope verification and policy are answers of a port here; the policy itself is modelled in `SignPolicy`. Hashes are compared exactly, not up to letter case.
- Orchestrator.TradingOrchestrator.Execute: one step, taken when the simulation, height, risk and reservation ports have answered and the quote is still valid; a call they refuse changes no row, and a reservation made for a key that turns out to be taken is not followed.
- LifecycleSafety.AtMostOneBroadcastPerExecution: counts what the orchestrator hands to its RPC; bytes a signer broadcasts itself are only taken as an answer.

Not modelled:

- SQL, PRAGMAs, migrations, journal rows of the kernel, `updated_at` columns and the process lock (one kernel writer is assumed).
- The kernel's fill verdicts and slippage figures, and its dry-run preview beyond the cap check.
- The approvals engine, the authorization issuer, the reservation ledger and the risk service: arbitrary replies.
- Ed25519, SHA-256 and decoding of wire transactions: the policy starts from a decoded transaction.
- The transaction bytes that settled signer rows go on carrying, and rows whose JSON an outside writer damaged.
- Locale collation: trade ids are ordered by character, audit keys by any strict total order.
- Numbers inside JSON are their printed text; the reader takes compact text as the writers produce it.
- A rejection of the audit sink, which loses the batch it was given.
- Non-finite numbers in the perpetuals and strategy code, upper-casing of symbols (any function), message texts and details of violations, and the part of the perp intent shape that concerns texts.
- Parsing of feed frames, back-off delays and jitter; an open socket is taken to deliver what is sent.
- The name filter and argument printing of agent tools (any functions), timestamps of events, and what the persistence hooks write.
- Notifications, the query for due strategies, building of intents and exceptions inside the swap executor.
- Runs, tool calls, evidence and search in the session store.
- HTTP, streaming, chat, command line, configuration, web, pool and risk scoring, metrics: plumbing or one-branch facts that would only add easy members.
