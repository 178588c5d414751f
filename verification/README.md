# Verification of the mmb trading engine core

A Dafny model of the parts of the mmb trading engine in which shared state is changed step by step and
something has to hold in every reachable state, with proofs that it does.

- **Exchange blocker** (`BlockerProtocol`, `BlockerSafety`, `BlockerTimes`, `BlockerProgress`, `ExchangeBlocker`). `block`,
  `unblock`, the two halves of a timer tick and the queue processor interleave over any number of accounts
  and reasons. The class keeps the nested maps and the channel; each method is proved to be one protocol step.
- **Cancellation tokens** (`CancellationTokens`, `CancellationTheorems`, `CancellationLocks`, `CancellationToken`,
  `CancellationAlone`). Any number of threads run `cancel` and `create_linked_token` in separate steps, with the
  mutex of each handler list, the recursion of `cancel` as a call stack, and tokens whose last owner is dropped.
  The class is the sequential form; a call that runs alone is proved to end where the class ends.
- **Balances** (`Domain`, `Symbols`, `Sums`, `ServiceValueTree`, `VirtualBalanceHolder`, `ReservationLedger`
  and the `Ledger*` files, `BalanceReservationManager`). The reservation manager is given twice: as functions
  on a ledger, about which the laws are proved, and as a class over two five-level trees whose methods are
  proved to do what the functions say. `LedgerOutcomes` states when each call is granted, refused or fails.
- **Disposition executor** (`OrderSlots`, `ExecutorProtocol`, `ExecutorAccounting`, `ExecutorOrders`,
  `ExecutorExposure`, `DispositionExecutor`). Request groups, order records, finish events and the choice of orders to cancel.
- **Request limiter** (`RequestLimits`, `RequestWitnesses`, `RequestLimiter`). Instant requests, requests scheduled
  for later and groups reserved ahead, within a number of requests per period.
- **Interned identifiers** (`AppendTable`, `Market`). The append-only string table and the printers and
  parsers on top of it.

Amounts are `real`. A failed expectation of the code is an explicit `Panic` (or `None`) outcome, or, for
a class method, a precondition that says that the step does not panic. Clocks, random ids and
the answers of other services are parameters, so the statements hold for all of them.

Where the code does less than its documentation or its callers expect, the exact condition is proved (for calls
of the request limiter that are not on time a sufficient one), and a concrete input shows the failure:

- A cancellation does not pass a token that was dropped before it came
  (`CancellationTheorems.DroppedLinkLosesCancellation`). Once calls have returned, a token with an owner is
  cancelled exactly when it was itself cancelled or its source is (`CancellationTheorems.SettledFlagsExact`), so a
  descendant is lost exactly below such a gap (`CancellationTheorems.LostExactlyBelowGaps`), for good
  (`CancellationTheorems.DroppedFlagIsFinal`).
- A transfer that leaves less than the margin forgets it. The index survives exactly when the residues cancel
  (`LedgerIndex.TransferKeepsDriftIff`), so in runs whose transfers leave zero or more than the margin
  (`LedgerRuns.ResidueFreeRunsKeepIndex`); money exactly when what the two sides leave uncharged cancels at their
  prices (`LedgerTransfers.TransferConservesIff`): for spot reservations that is residues alone
  (`LedgerSpot.SpotConservesIff`), without residues it is fairness to what the target had already unreserved
  (`LedgerTransfers.CleanConservesIffFair`). Input: `LedgerWitnesses.ResidueBreaksIndexAndMoney`.
- `try_reserve_multiple` rolls back completely exactly when none of the granted amounts is so small that
  unreserving it rounds to nothing (`LedgerRollback.ReserveManyAllOrNothing`). Input:
  `LedgerWitnesses.DustSurvivesRollback`.
- An unreserve keeps approved and not approved amounts balanced exactly when it does not take from a canceled
  part of a reservation that stays (`LedgerParts.UnreserveBalancedIff`), an approval exactly when it may be given
  (`LedgerParts.ApproveBalancedIff`). Inputs: `LedgerWitnesses.CanceledPartBreaksBalance`,
  `LedgerWitnesses.RefusedApprovalBreaksBalance`.
- A price update keeps the index right exactly when the difference it moves is zero
  (`LedgerPrices.PriceUpdateKeepsIndexIff`). Input: `LedgerWitnesses.PriceUpdateBreaksIndex`, where money is
  conserved all the same; when it is, is exact too (`LedgerPrices.PriceUpdateConservesIff`).
- The open position a new reservation may use is reduced by what other markets have taken on the same side
  (`LedgerLimits.FreePositionIff`). Input: `LedgerWitnesses.OtherMarketTakesPosition`.
- `get_cancelling_orders` is minimal exactly when there is a surplus; without one it still cancels the smallest
  order (`OrderSlots.MinimalIffSurplus`). Input: `OrderSlots.NeedlessPick`. The executor asks first, so it never
  cancels needlessly (`DispositionExecutors.DispositionExecutor.CancelIfTooMuch`).
- The request limit holds in a run of calls on time as long as each call fits, and a call keeps every window within
  it exactly when it does (`RequestLimits.DoKeepsWithinIff`). Scheduled requests alone always fit
  (`RequestLimits.ScheduleRunsKeepLimit`), and so do instant requests and groups alone
  (`RequestLimits.InstantRunsKeepLimit`); together they need not, because an instant request does not look at what
  is scheduled for later and a scheduled one not always at the groups. Inputs:
  `RequestWitnesses.InstantBeforeScheduledExceeds`, `RequestWitnesses.ScheduledBesideGroupExceeds`.
- Calls have to be on time for that. The code corrects an earlier time up to the last one it noted: the next call
  may have any time exactly when the last one noted its own (`RequestLimits.AnyTimeIffNoted`), which a request of a
  group and a refused call do not do. Input: `RequestWitnesses.ClockBackExceedsLimit`.
- The processor of the exchange blocker panics exactly when it is jammed (`BlockerSafety.HandlerPanicsIffJammed`):
  the place of the event it took was filled in a full channel before it queues the next one. That takes more than
  6666 blockers. Input: `BlockerSafety.JamReachable`.

## Model

| member | source | states |
|---|---|---|
| `BlockerSafety.MoveKeepsShape` | core/src/exchanges/exchange_blocker.rs:302-365 | from every allowed queue shape of a blocker, handling its oldest event leads to an allowed shape again, and a removal leaves no event behind |
| `BlockerSafety.BlockKeepsInvariant` | core/src/exchanges/exchange_blocker.rs:501-586 | a new block, a re-block at any stage and a refused one keep the queue shapes of all blockers |
| `BlockerSafety.UnblockKeepsInvariant` | core/src/exchanges/exchange_blocker.rs:645-705 | an unblock request, queued or only flagged, keeps the queue shapes |
| `BlockerSafety.TimerReadyKeepsInvariant` | core/src/exchanges/exchange_blocker.rs:606-643 | the first half of a timer tick keeps the queue shapes |
| `BlockerSafety.StepKeepsInvariant` | core/src/exchanges/exchange_blocker.rs:281-366 | every step of the protocol keeps the invariant over all ids |
| `BlockerSafety.ReachableInvariant` | core/src/exchanges/exchange_blocker.rs:281-366 | after any interleaving every queued event names a live blocker, every live blocker has one of the listed queue shapes, and an id without a blocker has no event |
| `BlockerSafety.PendingBounded` | core/src/exchanges/exchange_blocker.rs:678-701 | at most three pending events per blocker, and an UnblockRequested is queued exactly when the flag says so |
| `BlockerSafety.QueueWithinThreePerBlocker` | core/src/exchanges/exchange_blocker.rs:205-231 | the whole channel holds at most three events per live blocker |
| `BlockerSafety.HandlerPanicsIffJammed` | core/src/exchanges/exchange_blocker.rs:239-366 | the handler always finds the blocker of its event, and panics if and only if the place of that event in a full channel was taken in between and it has an event to queue, for which more than 6666 blockers must live |
| `BlockerSafety.JamReachable` | core/src/exchanges/exchange_blocker.rs:259-279 | such a state is reached: as many blocks as the channel has places, one event taken, and an unblock of its blocker |
| `BlockerSafety.ChannelWithinCapacity` | core/src/exchanges/exchange_blocker.rs:239-257 | no run ever has more events in the channel than it holds, the event the processor has taken not counted |
| `BlockerSafety.StepDoesNotPanic` | core/src/exchanges/exchange_blocker.rs:239-257 | with at most 6666 live blockers no step meets a missing blocker or a full channel |
| `BlockerSafety.NoRunPanics` | core/src/exchanges/exchange_blocker.rs:281-300 | no run over known accounts that keeps within 6666 live blockers ever panics |
| `BlockerSafety.ThreePendingReachable` | core/src/exchanges/exchange_blocker.rs:543-556 | the bound of three is reached: stale events of canceled unblocks do stay queued |
| `BlockerTimes.BlockAgain` | core/src/exchanges/exchange_blocker.rs:543-586 | a `block` of a live blocker counts unless a timed block runs that ends later, which a manual one never outlasts; if it counts it withdraws the unblock request, goes back to the blocked status and sets the end time, otherwise nothing changes |
| `BlockerTimes.BlockFirst` | core/src/exchanges/exchange_blocker.rs:501-541 | the first `block` of an id makes a blocker that waits for its first move, queues that move, and is refused only by a full channel |
| `BlockerTimes.StepTimes` | core/src/exchanges/exchange_blocker.rs:543-643 | the end time of a block changes only by a timed `block` of it, to the later of the two times, by its timer and by its removal |
| `BlockerTimes.RunsAsCalled` | core/src/exchanges/exchange_blocker.rs:543-643 | at every point of every run a block runs until the latest time asked for since its timer last ticked or its blocker was made |
| `BlockerTimes.NeverShortened` | core/src/exchanges/exchange_blocker.rs:563-580 | between two ticks of its timer a block runs until the latest time anyone asked for: no re-block shortens it |
| `BlockerTimes.UnblockAsks` | core/src/exchanges/exchange_blocker.rs:645-705 | an `unblock` notes the request and queues it unless one is queued or unblocking has begun; a second one changes nothing |
| `BlockerTimes.CallPanicsIff` | core/src/exchanges/exchange_blocker.rs:501-705 | a call panics if and only if the account is unknown or it needs a place in a full channel |
| `BlockerTimes.AbsentIsIgnored` | core/src/exchanges/exchange_blocker.rs:606-660 | a timer tick and an `unblock` for an id without a blocker leave everything as it is |
| `BlockerProgress.StepDecides` | core/src/exchanges/exchange_blocker.rs:543-586 | only a block that counts sets the block of an id and only an unblock takes it away; event handling never does |
| `BlockerProgress.LastAcceptedCallHolds` | core/src/exchanges/exchange_blocker.rs:543-705 | at every point of every run an id holds a block if and only if its last call that counts was `block`, where what counts is computed from the calls and their end times |
| `BlockerProgress.QuiescentDecides` | core/src/exchanges/exchange_blocker.rs:302-365 | with an empty channel an id is blocked exactly when its last call that counts was `block` |
| `BlockerProgress.HandleLowersWeight` | core/src/exchanges/exchange_blocker.rs:302-365 | every handled event lowers the weight of the queue and adds no blocker |
| `BlockerProgress.RunSettles` | core/src/exchanges/exchange_blocker.rs:259-279 | from every reachable state, with no further calls, the processor handles everything within three rounds per event and one more, and exactly the ids whose last call that counts was `block` stay; unless it is jammed, when it panics next |
| `BlockerProgress.MomentsFormLifetimes` | core/src/exchanges/exchange_blocker.rs:309-363 | the moments launched for an id are a prefix of repetitions of Blocked, one or more BeforeUnblocked, Unblocked |
| `BlockerProgress.OneBlockedPerLifetime` | core/src/exchanges/exchange_blocker.rs:309-363 | one Blocked is launched per completed lifetime, and one for a lifetime still running |
| `BlockerProgress.UnblockedIffRemoved` | core/src/exchanges/exchange_blocker.rs:344-363 | handling an event launches the Unblocked handlers of a blocker exactly when it removes it |
| `BlockerProgress.BeginsIff` | core/src/exchanges/exchange_blocker.rs:309-338 | unblocking begins if and only if it was requested before the first move or a queued request is handled |
| `BlockerProgress.OnlyBlockedWithoutRequest` | core/src/exchanges/exchange_blocker.rs:302-365 | as long as nobody asks to unblock an id only the Blocked handlers are launched for it, once |
| `ExchangeBlockers.ExchangeBlocker.constructor` | core/src/exchanges/exchange_blocker.rs:446-462 | starts with no blockers for the given accounts |
| `ExchangeBlockers.ExchangeBlocker.IsBlocked` | core/src/exchanges/exchange_blocker.rs:464-471 | true exactly when some reason blocks the account |
| `ExchangeBlockers.ExchangeBlocker.IsBlockedByReason` | core/src/exchanges/exchange_blocker.rs:473-484 | true exactly when this reason blocks the account |
| `ExchangeBlockers.ExchangeBlocker.IsBlockedExceptReason` | core/src/exchanges/exchange_blocker.rs:486-499 | the comparison of counts means: some other reason blocks the account |
| `ExchangeBlockers.ExchangeBlocker.Block` | core/src/exchanges/exchange_blocker.rs:501-541 | the nested maps and the channel change as the protocol's block step |
| `ExchangeBlockers.ExchangeBlocker.TimerReady` | core/src/exchanges/exchange_blocker.rs:606-643 | the first half of a timer tick as a protocol step |
| `ExchangeBlockers.ExchangeBlocker.Unblock` | core/src/exchanges/exchange_blocker.rs:645-705 | the unblock step of the protocol |
| `ExchangeBlockers.ExchangeBlocker.Receive` | core/src/exchanges/exchange_blocker.rs:264-270 | taking the oldest event off the channel is the receive step of the protocol |
| `ExchangeBlockers.ExchangeBlocker.HandleNext` | core/src/exchanges/exchange_blocker.rs:281-410 | handling the event taken is the handler step of the protocol, launches included |
| `ExchangeBlockers.ExchangeBlocker.Turn` | core/src/exchanges/exchange_blocker.rs:259-279 | one turn of the loop with no call in between never panics, lowers the weight of the queue and keeps which ids hold a block |
| `ExchangeBlockers.ExchangeBlocker.Processing` | core/src/exchanges/exchange_blocker.rs:259-279 | with no call in between the loop ends, never panics, leaves exactly the blockers without an unblock request, and launches Unblocked for exactly the others |
| `CancellationTokens.StepKeepsInvariant` | mmb_utils/src/cancellation_token.rs:30-88 | every step of every thread keeps the forest and lock discipline, and every link of a flagged token is flagged or covered by a call under way |
| `CancellationTokens.ReachableInvariant` | mmb_utils/src/cancellation_token.rs:30-88 | that invariant holds after every interleaving |
| `CancellationTheorems.NoCancellationLost` | mmb_utils/src/cancellation_token.rs:30-84 | once the calls have returned, every token below a canceled one over tokens that still have an owner is canceled |
| `CancellationTheorems.NoCancellationInvented` | mmb_utils/src/cancellation_token.rs:30-84 | at any time a flagged token is one on which `cancel` was called or its source is flagged, so an unbroken chain of flagged tokens leads down to it from a canceled one |
| `CancellationTheorems.SettledFlagsExact` | mmb_utils/src/cancellation_token.rs:30-84 | once the calls have returned: a token with an owner is flagged if and only if it was canceled itself or its source is flagged, a dropped one is as it was when dropped, and with no drops the flags are exactly the descendants of canceled tokens |
| `CancellationTheorems.LostExactlyBelowGaps` | mmb_utils/src/cancellation_token.rs:68-84 | a descendant of a canceled token is lost if and only if a token above it was dropped unflagged and nothing in between was canceled otherwise |
| `CancellationTheorems.DroppedFlagIsFinal` | mmb_utils/src/cancellation_token.rs:71-77 | no step flags a token once it is dropped |
| `CancellationLocks.OneVisitor` | mmb_utils/src/cancellation_token.rs:36-36 | in every interleaving at most one `cancel` call, at one depth of its recursion, goes through the handlers of a token |
| `CancellationLocks.VisitedListIsStable` | mmb_utils/src/cancellation_token.rs:86-88 | while a call goes through the handlers of a token none is added |
| `CancellationLocks.HandlersGrow` | mmb_utils/src/cancellation_token.rs:86-88 | a handler list is only ever appended to |
| `CancellationTheorems.NoDeadlock` | mmb_utils/src/cancellation_token.rs:36-36 | although handlers run with the list locked, some running call can always take a step |
| `CancellationTheorems.EveryScheduleEnds` | mmb_utils/src/cancellation_token.rs:30-38 | every schedule of the running calls is finite: the recursion follows links to newer tokens only |
| `CancellationTheorems.DroppedLinkLosesCancellation` | mmb_utils/src/cancellation_token.rs:71-77 | a reachable settled state in which an owned descendant of a canceled token is not canceled, because the token in between was dropped |
| `TokenForests.TokenForest.New` | mmb_utils/src/cancellation_token.rs:26-28 | adds an uncanceled token without links |
| `TokenForests.TokenForest.Cancel` | mmb_utils/src/cancellation_token.rs:30-38 | the recursive call flags exactly the tokens reachable over links to tokens that still have an owner |
| `TokenForests.TokenForest.CreateLinkedToken` | mmb_utils/src/cancellation_token.rs:68-88 | adds a token linked to its source, canceled at once if the source is |
| `TokenForests.TokenForest.Drop` | mmb_utils/src/cancellation_token.rs:72-76 | a token without owner is no longer reached |
| `CancellationAlone.CancelAlone` | mmb_utils/src/cancellation_token.rs:30-38 | a `cancel` that runs alone from a settled state ends, in every schedule of its steps, with exactly the flags the method of the class promises |
| `CancellationAlone.CreateAlone` | mmb_utils/src/cancellation_token.rs:68-88 | a `create_linked_token` that runs alone from a settled state ends as the method of the class does |
| `ServiceValueTrees.FlatIsLookup` | core/src/misc/service_value_tree.rs:196-228 | `get_as_balances` holds exactly what requests select in the tree |
| `ServiceValueTrees.ServiceValueTree.SetByServiceName` | core/src/misc/service_value_tree.rs:93-99 | replaces exactly the keys under the service name |
| `ServiceValueTrees.ServiceValueTree.SetByConfigurationKey` | core/src/misc/service_value_tree.rs:101-112 | replaces exactly the keys under service and configuration key, whichever levels existed |
| `ServiceValueTrees.ServiceValueTree.SetByExchangeAccountId` | core/src/misc/service_value_tree.rs:114-130 | replaces exactly the keys under that prefix |
| `ServiceValueTrees.ServiceValueTree.SetByCurrencyPair` | core/src/misc/service_value_tree.rs:132-154 | replaces exactly the keys under that prefix |
| `ServiceValueTrees.ServiceValueTree.SetByCurrencyCode` | core/src/misc/service_value_tree.rs:156-181 | changes exactly one key |
| `ServiceValueTrees.ServiceValueTree.SetByBalanceRequest` | core/src/misc/service_value_tree.rs:183-194 | changes exactly the key of the request |
| `ServiceValueTrees.ServiceValueTree.AddByRequest` | core/src/misc/service_value_tree.rs:236-241 | adds to exactly one key, an absent one counting as zero |
| `ServiceValueTrees.ServiceValueTree.Add` | core/src/misc/service_value_tree.rs:230-234 | the pointwise sum of two trees, whatever the order of iteration |
| `Symbols.RoundingError` | domain/src/exchanges/symbol.rs:183-222 | rounding moves a value by at most half a unit |
| `Symbols.RoundingKeepsGrid` | domain/src/exchanges/symbol.rs:183-222 | values on the precision grid are left alone |
| `Symbols.RoundsHalfUp` | domain/src/exchanges/symbol.rs:207-222 | rounding goes to the nearest multiple of the unit, and up from half-way |
| `Symbols.RoundsNotNegativeIff` | domain/src/exchanges/symbol.rs:207-222 | a rounded value is not negative exactly from minus half a unit on |
| `Symbols.UnitIsMargin` | domain/src/exchanges/symbol.rs:183-193 | a hundred precision units are a tick, and the margin is one of them |
| `Symbols.ConversionIsLinear` | domain/src/exchanges/symbol.rs:269-289 | conversion at a fixed price is multiplication by one rate |
| `Symbols.ConversionRoundTrip` | domain/src/exchanges/symbol.rs:269-336 | converting from the amount currency and back is the identity |
| `ReservationLedger.Unreserve` | core/src/balance/balance_reservation_manager.rs:157-278 | panics exactly when a call that acts meets a market its balance query does not know; otherwise keeps the ledger well-formed on success and failure, and leaves markets, limits and positions alone |
| `ReservationLedger.Store` | core/src/balance/balance_reservation_manager.rs:1340-1384 | a granted reservation gets the next id and leaves a well-formed ledger |
| `ReservationLedger.UnreserveRounded` | core/src/balance/balance_reservation_manager.rs:676-752 | changes only amounts of the reservation and never its terms |
| `ReservationLedger.TransferSide` | core/src/balance/balance_reservation_manager.rs:1192-1299 | moves exactly the difference and removes a side exactly when it ends within the margin |
| `LedgerIndex.ApplyDrift` | core/src/balance/balance_reservation_manager.rs:718-752 | a change shifts the index against the recomputation by exactly what it moves too much, at its own request only |
| `LedgerIndex.UnreserveMovesExactly` | core/src/balance/balance_reservation_manager.rs:182-257 | the amount moved is what leaves the reservation, also when more is unreserved than is left, and the compensation never fails |
| `LedgerIndex.StoreKeepsDrift` | core/src/balance/balance_reservation_manager.rs:1340-1384 | reserving keeps index and recomputation in step |
| `LedgerIndex.UnreserveKeepsDrift` | core/src/balance/balance_reservation_manager.rs:157-278 | unreserving keeps them in step whether it succeeds, over-unreserves or fails half-way |
| `LedgerIndex.ApproveKeepsDrift` | core/src/balance/balance_reservation_manager.rs:1048-1089 | approving keeps them in step |
| `LedgerIndex.CancelKeepsDrift` | core/src/balance/balance_reservation_manager.rs:964-1001 | canceling a part keeps them in step |
| `LedgerIndex.TransferDrift` | core/src/balance/balance_reservation_manager.rs:1160-1299 | a transfer, also of a reservation to itself, shifts the index of its request by exactly the residues it drops |
| `LedgerIndex.TransferKeepsDriftIff` | core/src/balance/balance_reservation_manager.rs:1280-1289 | a transfer keeps the index right if and only if the residues cancel |
| `LedgerBalance.ApplySurplus` | core/src/balance/balance_reservation_manager.rs:726-739 | a change shifts the virtual balance beyond what reservations owe by exactly what it charges too little |
| `LedgerBalance.UnreservePaysExactly` | core/src/balance/balance_reservation_manager.rs:182-257 | an unreserve pays back exactly the cost no longer owed, also when it over-unreserves |
| `LedgerBalance.StoreKeepsSurplus` | core/src/balance/balance_reservation_manager.rs:1340-1384 | reserving charges exactly what the reservation owes |
| `LedgerBalance.UnreserveKeepsSurplus` | core/src/balance/balance_reservation_manager.rs:157-278 | unreserving neither makes nor loses money, failed calls included |
| `LedgerBalance.ApproveKeepsSurplus` | core/src/balance/balance_reservation_manager.rs:1048-1089 | approving moves no money |
| `LedgerBalance.CancelKeepsSurplus` | core/src/balance/balance_reservation_manager.rs:964-1001 | canceling a part moves no money |
| `LedgerBalance.LifeBalances` | core/src/balance/balance_reservation_manager.rs:182-257 | after any series of unreserve calls the amount paid is the change of what is owed |
| `LedgerBalance.WholeLifeRefundsCost` | core/src/balance/balance_reservation_manager.rs:182-257 | any series of unreserve calls that ends in removal refunds exactly the cost charged at reservation |
| `LedgerBalance.SourcePaysExactly` | core/src/balance/balance_reservation_manager.rs:1258-1279 | the source of a transfer gets back its own cost rate times the amount; what is left on it is forgotten exactly when it is removed or its whole amount is moved |
| `LedgerBalance.TargetOwes` | core/src/balance/balance_reservation_manager.rs:1258-1279 | the target is charged the cost it takes over; what it owes beyond that is the repricing of what it had unreserved, or everything when it is removed |
| `LedgerBalance.GainZeroIff` | core/src/balance/balance_reservation_manager.rs:1276-1277 | the repricing vanishes if and only if the target is untouched or the rates agree |
| `LedgerTransfers.CostIsHandedOver` | core/src/balance/balance_reservation_manager.rs:1160-1190 | what the source gets back is what the target is charged, and each side leaves uncharged what its short says |
| `LedgerTransfers.TransferSurplus` | core/src/balance/balance_reservation_manager.rs:1160-1299 | every successful transfer shifts the surplus by what its two sides leave uncharged, at their prices |
| `LedgerTransfers.TransferConservesIff` | core/src/balance/balance_reservation_manager.rs:1160-1299 | every successful transfer conserves money if and only if what it leaves uncharged cancels |
| `LedgerTransfers.CleanConservesIffFair` | core/src/balance/balance_reservation_manager.rs:1160-1299 | without residues that is: if and only if the target was untouched or the cost rates agree on the amount |
| `LedgerTransfers.EqualPriceTransferKeepsBalances` | core/src/balance/balance_reservation_manager.rs:1150-1157 | at equal prices no transfer changes any balance |
| `LedgerRollback.FreshIsRemoved` | core/src/balance/balance_reservation_manager.rs:182-230 | unreserving the whole amount of an untouched reservation removes it, on the precision grid or off it |
| `LedgerRollback.StoreAllAdds` | core/src/balance/balance_reservation_manager.rs:1306-1309 | the successes are stored under fresh different ids in the order of the requests and nothing else is touched |
| `LedgerRollback.UnreserveAllRemoves` | core/src/balance/balance_reservation_manager.rs:1311-1315 | taking the successes back never fails and removes exactly those that are no dust |
| `LedgerRollback.ReserveManyAllOrNothing` | core/src/balance/balance_reservation_manager.rs:1301-1320 | whatever the checks answer: one fresh reservation per request, or everything as before exactly when no dust was granted |
| `LedgerRollback.AlignedIsNoDust` | core/src/balance/balance_reservation_manager.rs:182-192 | amounts on the precision grid are never dust |
| `LedgerRollback.DustExists` | core/src/balance/balance_reservation_manager.rs:182-192 | for every market a tenth of the precision unit rounds to nothing |
| `LedgerRollback.TryReserveMultipleAllOrNothing` | core/src/balance/balance_reservation_manager.rs:1301-1320 | with the checks of the code: all requests granted, or stored reservations, every reserved amount and every balance difference as before, for all lists of aligned amounts |
| `LedgerParts.UnreserveGap` | core/src/balance/balance_reservation_manager.rs:676-716 | what an unreserve does to the balance of approved and not approved amounts |
| `LedgerParts.UnreserveBalancedIff` | core/src/balance/balance_reservation_manager.rs:676-716 | a successful unreserve keeps them balanced if and only if it does not take from a canceled part of a reservation that stays |
| `LedgerParts.ApproveBalancedIff` | core/src/balance/balance_reservation_manager.rs:1048-1089 | an approval keeps them balanced if and only if the reservation is absent, the part is present, nothing is asked for, or what is not approved suffices up to the margin; otherwise it fails |
| `LedgerParts.CancelKeepsBalanced` | core/src/balance/balance_reservation_manager.rs:964-1001 | canceling a part keeps them balanced |
| `LedgerParts.TransferBalancedIff` | core/src/balance/balance_reservation_manager.rs:1209-1247 | a transfer keeps them balanced if and only if no side that stays drops a part within the margin or names a canceled one; for a transfer to itself, if and only if its two halves leave no part residue |
| `LedgerLimits.UnreserveLowers` | core/src/balance/balance_reservation_manager.rs:182-257 | unreserving non-negative amounts raises no reserved amount and leaves none negative |
| `LedgerLimits.TransferKeepsReserved` | core/src/balance/balance_reservation_manager.rs:1160-1299 | a transfer moves no reserved amount of any request |
| `LedgerLimits.ReserveWithinLimit` | core/src/balance/balance_reservation_manager.rs:1441-1492 | a reserve keeps position plus reserved amount within the limit, or within the position where that is beyond it |
| `LedgerLimits.FreePositionIff` | core/src/balance/balance_reservation_manager.rs:481-498 | what a market has free is its own position less its own pledges if and only if no other market pledges on that side, or nothing is free anyway |
| `LedgerLimits.ReserveKeepsCover` | core/src/balance/balance_reservation_manager.rs:1536-1564 | a reserve takes only what is free: pledges of a market and side stay within its open position |
| `LedgerLimits.UnreserveKeepsCover` | core/src/balance/balance_reservation_manager.rs:157-278 | an unreserve keeps the pledges within the open position |
| `LedgerLimits.TransferKeepsCover` | core/src/balance/balance_reservation_manager.rs:1160-1299 | a transfer keeps the pledges within the open position |
| `LedgerLimits.CostIsForTheRest` | core/src/balance/balance_reservation_manager.rs:1536-1564 | a derivative reservation uses the free position as far as it goes and pays for the rest at the leverage of the market |
| `LedgerLimits.ClosableIsOpposite` | core/src/balance/balance_reservation_manager.rs:461-479 | an order of a side closes exactly the part of the position that stands against that side, as `get_position` signs it |
| `LedgerLimits.PositionIs` | core/src/balance/balance_reservation_manager.rs:461-479 | positions are those reported, none counts as zero, and there is none to close outside derivatives |
| `LedgerFunds.CapIs` | core/src/balance/balance_reservation_manager.rs:501-596 | the limit caps the balance at the room left below it, both as balance, and never makes it negative |
| `LedgerFunds.LimitOnlyLowers` | core/src/balance/balance_reservation_manager.rs:501-596 | a limit never raises what is available |
| `LedgerFunds.CostIsCovered` | core/src/balance/balance_reservation_manager.rs:1387-1430 | what a granted reservation costs is covered by the virtual balance up to half a precision unit |
| `LedgerFunds.SpotNeverOverdraws` | core/src/balance/balance_reservation_manager.rs:1322-1385 | outside derivatives a reservation lowers the virtual balance by exactly its cost and overdraws it by at most half a unit |
| `LedgerFunds.DerivativeNeverOverdraws` | core/src/balance/balance_reservation_manager.rs:1322-1385 | a derivative reservation costs at most the virtual balance and half a unit, and lowers it by its cost as booked in the balance currency; that is its cost if and only if booking changes nothing |
| `LedgerPrices.PriceUpdateDrift` | core/src/balance/balance_reservation_manager.rs:1639-1667 | a price update shifts the index by the moved difference although the reservation keeps its amount |
| `LedgerPrices.PriceUpdateKeepsIndexIff` | core/src/balance/balance_reservation_manager.rs:1639-1667 | a price update keeps the index right if and only if that difference is zero |
| `LedgerPrices.UntouchedPriceDiffIff` | core/src/balance/balance_reservation_manager.rs:1585-1603 | for an untouched reservation it is zero if and only if nothing is reserved, the currency is the amount currency, or the price stays |
| `LedgerPrices.PriceUpdateSurplus` | core/src/balance/balance_reservation_manager.rs:1585-1667 | a price update shifts the surplus of its balance by an exact shortfall |
| `LedgerPrices.PriceUpdateConservesIff` | core/src/balance/balance_reservation_manager.rs:1585-1667 | it conserves money if and only if nothing is owed per unit or the charge at the new rate is what the reserved amount gains |
| `LedgerPrices.UntouchedPriceUpdateConservesIff` | core/src/balance/balance_reservation_manager.rs:1585-1667 | an untouched reservation is charged exactly for its new price if and only if it is paid for in its own currency, the price stays, or nothing is owed |
| `LedgerRuns.RunKeepsIndex` | core/src/balance/balance_reservation_manager.rs:93-122 | after any run whose transfers, also of a reservation to itself, leave residues that cancel the index equals the recomputation at every request |
| `LedgerRuns.ResidueFreeRunsKeepIndex` | core/src/balance/balance_reservation_manager.rs:93-122 | a right index stays right at all requests in every run whose transfers leave zero or more than the margin on both sides |
| `LedgerRuns.RunShiftsIndex` | core/src/balance/balance_reservation_manager.rs:93-122 | after any run at all the index is off by exactly what its transfers dropped and its price updates moved |
| `LedgerRuns.RunShiftsMoney` | core/src/balance/balance_reservation_manager.rs:718-752 | after any run at all the balances differ from what the reservations owe by exactly what its transfers and price updates left uncharged |
| `LedgerRuns.RunConservesMoney` | core/src/balance/balance_reservation_manager.rs:718-752 | after any run whose transfers leave nothing uncharged the virtual balances differ by exactly what the stored reservations owe; with none left they are back |
| `LedgerRuns.RunKeepsParts` | core/src/balance/balance_reservation_manager.rs:676-716 | after any run of successful calls that leave canceled parts alone every live reservation is balanced |
| `LedgerRuns.RunKeepsLimits` | core/src/balance/balance_reservation_manager.rs:1441-1492 | with limits and positions fixed no run with non-negative amounts drives position plus reserved above limit and position |
| `LedgerRuns.RunKeepsCover` | core/src/balance/balance_reservation_manager.rs:461-498 | with positions fixed no run pledges an open position twice |
| `LedgerRuns.MultipleIsRun` | core/src/balance/balance_reservation_manager.rs:1301-1320 | reserving several amounts is a run of single reserves and unreserves, so it keeps all of the above |
| `LedgerSpot.RunStaysPlain` | core/src/balance/balance_reservation_manager.rs:1540-1542 | in every run every stored spot reservation costs its amount and reserves no more than it |
| `LedgerSpot.SpotShorts` | core/src/balance/balance_reservation_manager.rs:1160-1299 | what a spot transfer leaves uncharged is exactly minus its residues |
| `LedgerSpot.SpotConservesIff` | core/src/balance/balance_reservation_manager.rs:1160-1299 | spot transfers conserve money if and only if their residues cancel at the two prices |
| `LedgerSpot.SpotRunConservesMoney` | core/src/balance/balance_reservation_manager.rs:1160-1299 | money is conserved in every spot run whose transfers leave no residue, without any premise on cost rates |
| `LedgerOutcomes.VirtualBalanceIs` | core/src/balance/virtual_balance_holder.rs:124-213 | the virtual balance is what the exchange reported for the currency and what was booked since, at one rate |
| `LedgerOutcomes.AvailableBalanceIs` | core/src/balance/balance_reservation_manager.rs:348-606 | the balance a request is checked against: all of it, or nineteen twentieths for a derivative, and at most the margin of the room below a limit |
| `LedgerOutcomes.BalanceWithFreeIs` | core/src/balance/balance_reservation_manager.rs:348-606 | the same with the margin of the free position, for transfers and price updates |
| `LedgerOutcomes.GrantedIff` | core/src/balance/balance_reservation_manager.rs:1387-1491 | a request is granted if and only if its cost is covered up to half a precision unit and no limit is set, or position, reserved amount and request keep within it, or come nearer to zero |
| `LedgerOutcomes.ReserveOutcome` | core/src/balance/balance_reservation_manager.rs:1322-1384 | a granted request is stored under a new id as asked for, whole and untouched, index and balances change by its amount and cost, and a refused one changes nothing |
| `LedgerOutcomes.UnreserveOutcome` | core/src/balance/balance_reservation_manager.rs:157-278 | a call that acts fails if and only if more than what is not approved is asked for although that is not all, or its order's part has less, or the reservation is of nothing; then index and balances stay; otherwise exactly that amount is gone, or the reservation, exactly when nothing beyond the margin would be left |
| `LedgerOutcomes.UnreserveGivesBack` | core/src/balance/balance_reservation_manager.rs:718-752 | a successful call lowers the index by what it takes and pays back its share of the cost at the price of the reservation |
| `LedgerOutcomes.UnreserveIdle` | core/src/balance/balance_reservation_manager.rs:163-200 | the early returns, and the failure for an unknown reservation |
| `LedgerOutcomes.ApproveOutcome` | core/src/balance/balance_reservation_manager.rs:1048-1089 | an approval is accepted if and only if what is not approved suffices up to the margin; it makes a part of the amount, and what is not approved has fallen either way |
| `LedgerOutcomes.CancelOutcome` | core/src/balance/balance_reservation_manager.rs:964-1001 | canceling a part returns what it still has; doing so twice panics |
| `LedgerOutcomes.TransferActsIff` | core/src/balance/balance_reservation_manager.rs:1091-1158 | a transfer moves its amount if and only if that does not round to nothing and, for a derivative between different prices, the balance covers what the target price costs beyond the source price |
| `LedgerOutcomes.CheaperIsNotRefused` | core/src/balance/balance_reservation_manager.rs:1119-1146 | a transfer that costs nothing extra is never refused while the balance is not negative |
| `LedgerOutcomes.TransferOutcome` | core/src/balance/balance_reservation_manager.rs:1091-1158 | the exits of the call: panic, unchanged, or the amount moved |
| `LedgerOutcomes.SideMovesIff` | core/src/balance/balance_reservation_manager.rs:1192-1299 | one side can be moved if and only if enough is left on it, the order's part can follow, and a source that gives has an amount |
| `LedgerOutcomes.TransferMovesIff` | core/src/balance/balance_reservation_manager.rs:1160-1299 | an amount is moved if and only if both sides can be, and the call panics otherwise, also from a reservation to itself |
| `LedgerOutcomes.TransferPays` | core/src/balance/balance_reservation_manager.rs:1160-1299 | each side stays exactly if more than the margin is left on it, nothing else is touched, and the cost of the amount goes from the target's balance to the source's, each at its own price |
| `LedgerOutcomes.SideAfter` | core/src/balance/balance_reservation_manager.rs:1192-1299 | what a side that stays looks like afterwards, its parts included |
| `LedgerOutcomes.PriceOutcome` | core/src/balance/balance_reservation_manager.rs:1566-1682 | a price update acts if and only if the balance covers what the rest costs at the new price beyond what was not approved at the old one; it changes nothing otherwise, and when it panics |
| `LedgerOutcomes.PriceMoves` | core/src/balance/balance_reservation_manager.rs:1625-1682 | what a price update adds to the index and charges |
| `LedgerOutcomes.RestAmountIs` | core/src/balance/balance_reservation_manager.rs:1582-1592 | the rest of a reservation is its amount less what its canceled parts have |
| `LedgerWitnesses.ResidueBreaksIndexAndMoney` | core/src/balance/balance_reservation_manager.rs:1280-1289 | after two granted requests on the precision grid index and balances are right; a fair transfer succeeds and both are off by 0.01 |
| `LedgerWitnesses.DustSurvivesRollback` | core/src/balance/balance_reservation_manager.rs:1301-1320 | two requests of which a dust amount is granted, the other refused, and the dust stays reserved |
| `LedgerWitnesses.CanceledPartBreaksBalance` | core/src/balance/balance_reservation_manager.rs:676-716 | after a request, an approval and its cancellation everything is right; an unreserve for the canceled order succeeds and breaks the balance of the parts |
| `LedgerWitnesses.RefusedApprovalBreaksBalance` | core/src/balance/balance_reservation_manager.rs:1074-1081 | after one request, an approval that fails after it has lowered what is not approved |
| `LedgerWitnesses.PriceUpdateBreaksIndex` | core/src/balance/balance_reservation_manager.rs:1566-1682 | after one request index and balances are right; a price update succeeds, the balances stay right and the index is off by half a unit |
| `LedgerWitnesses.OtherMarketTakesPosition` | core/src/balance/balance_reservation_manager.rs:481-498 | with an open position in two markets, a request that closes the one leaves nothing of the other free, although nothing of it is pledged |
| `LedgerRefusals.GrantedUnderLimit` | core/src/balance/balance_reservation_manager.rs:1482-1491 | requests granted under a limit: one within it, one on the way back to it |
| `LedgerRefusals.RefusedByLimit` | core/src/balance/balance_reservation_manager.rs:1482-1491 | a request refused by the limit |
| `LedgerRefusals.DearerRefusedCheaperGranted` | core/src/balance/balance_reservation_manager.rs:1119-1146 | after two requests for a derivative at different prices, a transfer to the dearer one is refused and one to the cheaper one is made |
| `LedgerRefusals.PriceUpdateRefused` | core/src/balance/balance_reservation_manager.rs:1566-1682 | after one request, a price update the balance does not cover changes nothing |
| `VirtualBalances.VirtualBalanceHolder.constructor` | core/src/balance/virtual_balance_holder.rs:24-34 | starts with an empty balance table per exchange and no differences |
| `VirtualBalances.VirtualBalanceHolder.UpdateBalances` | core/src/balance/virtual_balance_holder.rs:36-66 | replaces one account's balances and resets exactly its differences in the reported currencies |
| `VirtualBalances.VirtualBalanceHolder.AddBalance` | core/src/balance/virtual_balance_holder.rs:68-87 | adds to exactly one difference |
| `VirtualBalances.VirtualBalanceHolder.AddBalanceBySymbol` | core/src/balance/virtual_balance_holder.rs:89-122 | converts from the amount currency and charges derivatives in their balance currency |
| `VirtualBalances.ShowsFlat` | core/src/misc/service_value_tree.rs:196-228 | a tree stands for a table if and only if `get_as_balances` computes that table |
| `BalanceReservations.BalanceReservationManager.AddReservedAmountByReservation` | core/src/balance/balance_reservation_manager.rs:718-752 | charges the proportional cost, moves reservation and index by the same amount, or fails without changing anything |
| `BalanceReservations.BalanceReservationManager.UnreserveNotApproved` | core/src/balance/balance_reservation_manager.rs:676-716 | lowers the right part, also on the exits that fail |
| `BalanceReservations.BalanceReservationManager.Unreserve` | core/src/balance/balance_reservation_manager.rs:157-278 | does to reservations, index and balances what the ledger function says, compensation included, whenever that does not panic |
| `BalanceReservations.BalanceReservationManager.TakenAmount` | core/src/balance/balance_reservation_manager.rs:489-495 | the sum of what reservations of one side have taken, in any order |
| `BalanceReservations.BalanceReservationManager.CanReserveCore` | core/src/balance/balance_reservation_manager.rs:1387-1430 | grants exactly the reservations the ledger grants, with their cost and the position they take |
| `BalanceReservations.BalanceReservationManager.TryReserve` | core/src/balance/balance_reservation_manager.rs:1322-1385 | stores a granted reservation under a new id and nothing otherwise |
| `BalanceReservations.BalanceReservationManager.TryReserveMultiple` | core/src/balance/balance_reservation_manager.rs:1301-1320 | both loops together are the all-or-nothing operation on the ledger, ids in order |
| `BalanceReservations.BalanceReservationManager.ApproveReservation` | core/src/balance/balance_reservation_manager.rs:1048-1089 | the approval of the ledger, its failing exit included |
| `BalanceReservations.BalanceReservationManager.CancelApprovedReservation` | core/src/balance/balance_reservation_manager.rs:964-1001 | the cancellation of the ledger; canceling twice is the panic |
| `BalanceReservations.BalanceReservationManager.UpdateUnreservedAmountForTransfer` | core/src/balance/balance_reservation_manager.rs:1192-1299 | one side of a transfer is one ledger change, and the cost moved is returned |
| `BalanceReservations.BalanceReservationManager.TransferAmount` | core/src/balance/balance_reservation_manager.rs:1160-1190 | both sides in turn are the transfer of the ledger |
| `BalanceReservations.BalanceReservationManager.TryTransferReservation` | core/src/balance/balance_reservation_manager.rs:1091-1158 | moves exactly when the rounded amount is not zero and, between different prices of a derivative, the balance with the free position covers the difference |
| `BalanceReservations.BalanceReservationManager.BalanceNow` | core/src/balance/balance_reservation_manager.rs:348-460 | the available balance with the free position, limits applied |
| `BalanceReservations.BalanceReservationManager.SyncReservationAmounts` | core/src/balance/balance_reservation_manager.rs:93-122 | the rebuilt index is the recomputation at every request, whatever the order of iteration, and nothing else changes |
| `BalanceReservations.BalanceReservationManager.TryUpdateReservationPrice` | core/src/balance/balance_reservation_manager.rs:1566-1682 | the price update of the ledger, refused without change when the balance with the free position does not cover the difference |
| `BalanceReservations.GroupByRequest` | core/src/balance/balance_reservation_manager.rs:107-115 | grouping sums the unreserved amounts request by request |
| `OrderSlots.GetCancellingOrders` | core/src/disposition_execution/executor.rs:961-997 | picks the shortest prefix in ascending order of amount that makes up for the surplus |
| `OrderSlots.EnoughIsCanceled` | core/src/disposition_execution/executor.rs:961-997 | what is left open after the pick is at most what is desired |
| `OrderSlots.MinimalIffSurplus` | core/src/disposition_execution/executor.rs:961-997 | leaving out the last pick would leave too much if and only if there was a surplus (or nothing to pick from) |
| `OrderSlots.NeedlessPick` | core/src/disposition_execution/executor.rs:961-997 | one open order where more is desired: it is picked although nothing is too much |
| `OrderSlots.TooMuchIff` | core/src/disposition_execution/executor.rs:441-448 | too much is open exactly when the surplus is more than a thousandth of what is desired |
| `OrderSlots.TotalOfUpdate` | core/src/disposition_execution/mod.rs:236-247 | changing one slot changes the total remaining amount by what changes in that slot |
| `ExecutorProtocol.FindSlot` | core/src/disposition_execution/mod.rs:349-351 | finds a slot with the order, and none only if no slot has it |
| `ExecutorAccounting.AddOrderKeepsInv` | core/src/disposition_execution/executor.rs:636-744 | a new order with its new group keeps held groups and recorded groups the same |
| `ExecutorAccounting.GiveBackKeepsInv` | core/src/disposition_execution/executor.rs:667-714 | the failing exits after a group was reserved give that group back |
| `ExecutorAccounting.FailedCreateReleases` | core/src/disposition_execution/executor.rs:598-714 | every exit of `try_create_order` without an order leaves the held groups and the slots as they were |
| `ExecutorAccounting.FinishKeepsInv` | core/src/disposition_execution/executor.rs:837-873 | finishing an order removes its record together with its group, which is held |
| `ExecutorAccounting.LateFinishDoesNothing` | core/src/disposition_execution/executor.rs:202-271 | a duplicate or late finish event changes nothing |
| `ExecutorOrders.EndedIsForgotten` | core/src/disposition_execution/executor.rs:202-271 | a failed creation, a cancellation and a handled fill each remove the record of their order and release its group, once and for all, and touch nothing else |
| `ExecutorOrders.UnknownIsIgnored` | core/src/disposition_execution/executor.rs:202-271 | for an order that is not recorded such an event does nothing |
| `ExecutorOrders.UnhandledStops` | core/src/disposition_execution/executor.rs:241-259 | a fill the strategy cannot handle stops the executor and changes nothing else |
| `ExecutorOrders.StoppedIgnores` | core/src/disposition_execution/executor.rs:184-271 | once stopped the executor does nothing on any event |
| `ExecutorOrders.RemovalMisses` | core/src/exchanges/timeouts/requests_timeout_manager.rs:110-140 | removing a group that is not there changes nothing but the count of such calls, which the accounting keeps at zero |
| `ExecutorOrders.OthersTurn` | core/src/exchanges/timeouts/requests_timeout_manager.rs:71-140 | others reserve and release groups of their own and touch none of the executor's |
| `ExecutorOrders.CreatedIsRecorded` | core/src/disposition_execution/executor.rs:598-776 | a created order is recorded in its slot, unfilled and open, with a group just reserved for it, and nothing else changes |
| `ExecutorOrders.NotCreated` | core/src/disposition_execution/executor.rs:598-776 | without agreement of all nothing is recorded and no group stays reserved |
| `ExecutorOrders.NotedOnRecord` | core/src/disposition_execution/executor.rs:546-583 | a request to cancel is noted on the one record |
| `ExecutorOrders.StepPlaces` | core/src/disposition_execution/executor.rs:195-271 | after a step a place holds an order if and only if it was just created there, or was there and no event ended it |
| `ExecutorOrders.RecordedIffLives` | core/src/disposition_execution/executor.rs:195-271 | in every run an order is recorded if and only if it was created and no event ended it since, as computed from the events, and its group is held as long |
| `ExecutorAccounting.StepKeepsInv` | core/src/disposition_execution/executor.rs:184-300 | every event, creation, cancellation and outside change keeps the accounting, and no absent group is ever removed |
| `ExecutorAccounting.RunKeepsInv` | core/src/disposition_execution/executor.rs:168-182 | the accounting holds after every run |
| `ExecutorAccounting.GroupsAreAccounted` | core/src/disposition_execution/executor.rs:636-744 | in every run a group is held if and only if exactly one order record has it, every reserved group is kept or was released exactly once, and no absent group was ever removed |
| `ExecutorAccounting.RunKeepsKeys` | core/src/disposition_execution/mod.rs:249-262 | records stay under the id of their order |
| `ExecutorExposure.NewOrderFits` | core/src/disposition_execution/executor.rs:803-820 | the new amount is not negative and fits below the maximum, and is the desired one where that fits |
| `ExecutorExposure.ChangeExposure` | core/src/disposition_execution/mod.rs:236-242 | a finished order has nothing open and any other what is not filled: a reported change moves the exposure by exactly that |
| `ExecutorExposure.StepKeepsExposure` | core/src/disposition_execution/executor.rs:803-820 | no step raises the open amount of a side above the maximum |
| `ExecutorExposure.RunKeepsExposure` | core/src/disposition_execution/executor.rs:803-820 | in every run the open amount of a side stays within the largest maximum its orders were created with |
| `DispositionExecutors.RequestsTimeoutManager.TryReserveGroup` | core/src/exchanges/timeouts/requests_timeout_manager.rs:71-108 | adds a group with a new id when there is room; when there is, the request limiter says |
| `DispositionExecutors.RequestsTimeoutManager.Remove` | core/src/exchanges/timeouts/requests_timeout_manager.rs:110-140 | removes the group and tells whether it was there |
| `DispositionExecutors.DispositionExecutor.FindPriceSlot` | core/src/disposition_execution/mod.rs:349-351 | the search loop returns the first slot with the order |
| `DispositionExecutors.DispositionExecutor.CalcTotalRemainingAmount` | core/src/disposition_execution/mod.rs:338-343 | the sum of what all slots of a side have open |
| `DispositionExecutors.DispositionExecutor.CalculateNewOrderAmount` | core/src/disposition_execution/executor.rs:803-820 | the amount the protocol gives a new order |
| `DispositionExecutors.DispositionExecutor.TryCreateOrder` | core/src/disposition_execution/executor.rs:598-776 | each exit of the creation is the protocol's step; a cancellation requested at the end stops the executor and keeps order and group |
| `DispositionExecutors.DispositionExecutor.FinishOrder` | core/src/disposition_execution/executor.rs:837-873 | releases the group of the record, then drops the record |
| `DispositionExecutors.DispositionExecutor.HandleCreateFailed` | core/src/disposition_execution/executor.rs:204-213 | the event finishes a recorded order and is ignored for any other |
| `DispositionExecutors.DispositionExecutor.HandleCompleted` | core/src/disposition_execution/executor.rs:241-259 | a handled fill finishes the order; a failing strategy stops the executor with the order kept |
| `DispositionExecutors.DispositionExecutor.HandleCancelSucceeded` | core/src/disposition_execution/executor.rs:260-271 | the event finishes a recorded order and is ignored for any other |
| `DispositionExecutors.DispositionExecutor.RequestCancellation` | core/src/disposition_execution/executor.rs:546-583 | marks the record and keeps its group |
| `DispositionExecutors.DispositionExecutor.CancelSurplus` | core/src/disposition_execution/executor.rs:442-464 | marks exactly the picked orders as a run of single cancellations: what stays open is at most what is desired, no fewer would do exactly when there was too much, and the accounting is kept |
| `DispositionExecutors.DispositionExecutor.CancelIfTooMuch` | core/src/disposition_execution/executor.rs:441-472 | cancels only when more is open than desired and allowed; then what stays open is at most what is desired, and no order is canceled needlessly |
| `RequestLimits.PruneKeepsWithin` | core/src/exchanges/timeouts/inner_request_manager.rs:241-247 | as time goes on and old requests are forgotten, nothing changes in the windows that are not over |
| `RequestLimits.RemoveKeepsWithin` | core/src/exchanges/timeouts/requests_timeout_manager.rs:110-140 | a removed group leaves its requests counted and frees what it had reserved beyond them |
| `RequestLimits.ScheduledRoomIff` | core/src/exchanges/timeouts/requests_timeout_manager.rs:245-275 | the time for which a request is scheduled has room in every window if and only if the groups do not hold the whole limit |
| `RequestLimits.DoKeepsWithinIff` | core/src/exchanges/timeouts/requests_timeout_manager.rs:71-296 | a call on time, scheduling included, keeps what is used, scheduled and reserved within the limit in every window that is not over if and only if what it grants fits into all of them |
| `RequestLimits.UncrowdedIsSafe` | core/src/exchanges/timeouts/requests_timeout_manager.rs:71-296 | for that it is enough that nothing is scheduled for later, or the group has reserved what is taken, and for a scheduled request that the groups leave one free |
| `RequestLimits.NoPeriodExceedsLimit` | core/src/exchanges/timeouts/requests_timeout_manager.rs:71-296 | in every run of calls on time that fit, scheduled requests included, no window of one period holds more granted requests than the limit |
| `RequestLimits.UncrowdedRunsKeepLimit` | core/src/exchanges/timeouts/requests_timeout_manager.rs:71-296 | so in every run whose free requests are taken when nothing is scheduled for later and whose requests are scheduled when groups leave one |
| `RequestLimits.InstantRunsKeepLimit` | core/src/exchanges/timeouts/requests_timeout_manager.rs:71-230 | so in every run of instant requests and groups in which the times the calls work with do not go back |
| `RequestLimits.ScheduleRunsKeepLimit` | core/src/exchanges/timeouts/requests_timeout_manager.rs:232-296 | so in every run of scheduled requests with a limit above zero, whatever times are given |
| `RequestLimits.AscendingRunsKeepLimit` | core/src/exchanges/timeouts/requests_timeout_manager.rs:71-230 | so in all runs of instant requests and groups given times in order |
| `RequestLimits.AnyTimeIffNoted` | core/src/exchanges/timeouts/inner_request_manager.rs:249-262 | the next call may have any time at all if and only if the last one noted its own |
| `RequestLimits.NotedRunsKeepLimit` | core/src/exchanges/timeouts/inner_request_manager.rs:249-262 | when every call notes its time, as a granted group or a request granted outside groups does, the limit holds for instant requests and groups whatever times are given |
| `RequestWitnesses.ClockBackExceedsLimit` | core/src/exchanges/timeouts/requests_timeout_manager.rs:156-220 | for all moments within a period: a request of a group and then a call with an earlier time are granted beyond the limit |
| `RequestWitnesses.InstantBeforeScheduledExceeds` | core/src/exchanges/timeouts/requests_timeout_manager.rs:232-296 | for every period, times in order: an instant request just before two scheduled ones makes three where two are allowed |
| `RequestWitnesses.ScheduledBesideGroupExceeds` | core/src/exchanges/timeouts/requests_timeout_manager.rs:262-275 | at every time: a request is scheduled beside a group that has reserved the whole limit, and both are granted |
| `RequestLimiters.RequestLimiter.RemoveOutdated` | core/src/exchanges/timeouts/inner_request_manager.rs:241-247 | the loop keeps exactly the requests of the last period |
| `RequestLimiters.RequestLimiter.LoadOf` | core/src/exchanges/timeouts/inner_request_manager.rs:155-235 | the counting loops compute what the selected requests and the groups take up |
| `RequestLimiters.RequestLimiter.TryReserveGroup` | core/src/exchanges/timeouts/requests_timeout_manager.rs:71-108 | reserves a group exactly when that many requests are available |
| `RequestLimiters.RequestLimiter.TryReserveRequestInstant` | core/src/exchanges/timeouts/inner_request_manager.rs:35-62 | grants a request exactly when one is available, and notes the time |
| `RequestLimiters.RequestLimiter.TryReserveGroupInstant` | core/src/exchanges/timeouts/requests_timeout_manager.rs:156-220 | grants a request of a group exactly when the group or the limit has one left; an unknown group counts as none |
| `RequestLimiters.RequestLimiter.ReserveWhenAvailable` | core/src/exchanges/timeouts/requests_timeout_manager.rs:232-281 | schedules a request as the scheduling step does and tells for when, never before now |
| `RequestLimiters.RequestLimiter.Remove` | core/src/exchanges/timeouts/requests_timeout_manager.rs:110-140 | removes the group and tells whether it was there |
| `AppendTables.TableOnlyGrows` | mmb_utils/src/impl_table_types.rs:18-44 | every later table extends every earlier one, without duplicates and within capacity |
| `AppendTables.IdsAreStable` | mmb_utils/src/impl_table_types.rs:47-65 | a returned id stands for its string in every later table |
| `AppendTables.IdsEqualIffStringsEqual` | mmb_utils/src/impl_table_types.rs:18-44 | two returned ids are equal if and only if their strings are |
| `AppendTables.IndexesAreUsed` | mmb_utils/src/impl_table_types.rs:26-44 | used indexes are 0 to n-1 without gaps |
| `AppendTables.NoPanicIffRoom` | mmb_utils/src/impl_table_types.rs:26-32 | no call panics if and only if there is room for all different strings |
| `AppendTables.AppendTable.constructor` | mmb_utils/src/impl_table_types.rs:89-97 | starts empty with the given capacity |
| `AppendTables.AppendTable.AddOrGet` | mmb_utils/src/impl_table_types.rs:18-44 | map and buffer together are the growing table; the id is where its string is |
| `AppendTables.AppendTable.GetStr` | mmb_utils/src/impl_table_types.rs:47-65 | reads the string of every index handed out and nothing for others |
| `Markets.PrintThenParse` | domain/src/market.rs:41-64 | printing and parsing gives the id back if and only if the exchange part has only allowed characters, for every number of a byte |
| `Markets.PrintIsInjective` | domain/src/market.rs:107-111 | different ids print differently |
| `Markets.ParsedHasParts` | domain/src/market.rs:44-63 | what is accepted is an allowed exchange part, the last separator and a number of a byte |
| `Markets.AllowedCharsAre` | domain/src/market.rs:49-52 | letters, digits, a dash and a dot are allowed and nothing else |
| `Markets.PlusIsIgnored` | domain/src/market.rs:58-60 | one plus sign in front of a number changes nothing, and alone it is no number |
| `Markets.ParseThenPrintIff` | domain/src/market.rs:44-63 | parsing and printing gives the text back if and only if its number has no sign and no leading zeros |
| `Markets.AsciiLowerMakesCodes` | domain/src/market.rs:317-322 | lower-casing ASCII text makes no separator and gives a code |
| `Markets.LowerCharIs` | domain/src/market.rs:317-322 | capital letters become the small ones in order and every other character stays |
| `Markets.CodesRoundTripIff` | domain/src/market.rs:342-358 | `to_codes` undoes `from_codes` if and only if the base code has no '/', for every lower-casing that makes no '/' |
| `Markets.FromCodesIsInjective` | domain/src/market.rs:343-346 | different pairs of such codes have different texts |

## Left out

- Timers, `Notify`, task spawning and abort, `wait_unblock` and the closing window of `stop_blocker`: a timer tick is two steps that may come at any time, so nothing is said about how long a timed block lasts.
- The handlers run by the exchange blocker and their concurrency: only which rounds are launched, and in which order.
- Order of memory effects: the flag of a cancellation token and its handler list are read and written one step at a time, as sequential consistency gives.
- `when_cancelled`: waiting for a cancellation.
- Decimal arithmetic: amounts are `real`, so rounding to 96 bits, overflow and the order of additions do not show.
- Precision by mantissa: `get_amount_tick` panics for it in the balance code, so symbols have a tick.
- `handle_position_fill_amount_change`, commissions and order fills in the balance manager: positions are fixed in the theorems about limits and pledges.
- Balance queries no operation here depends on (leveraged balance, unknown side), explanations and logging.
- Rollback of `explanation` and of the counters behind ids.
- `update_reserved_balances`, `get_state` and the restoring of saved state.
- RequestLimits.NoPeriodExceedsLimit: one way only for calls that are not on time; whether a time that goes back exceeds the limit depends on requests already forgotten, which no caller can look up.
- Withdrawing a scheduled request whose wait is canceled: it only lowers the counts.
- DispositionExecutors.RequestsTimeoutManager.TryReserveGroup: whether there is room is an answer given to the executor, so its theorems hold for all of them; `RequestLimiters.RequestLimiter.TryReserveGroup` computes it.
- RequestLimiters.RequestLimiter: keeps requests in the order they are granted, where the code inserts them by time; no count depends on it.
- AppendTables.AppendTable.GetStr: the value on an index that was never handed out stands for the panic.
- The crossing check, the minimum amount, the balance and the request limits met while creating an order: answers given to the model, so the theorems hold for all of them.
- `synchronize_price_slot` above the creation and cancellation of orders: estimating, trading contexts and strategies are not part of this model.
- Balance reservations of orders in the executor: `unreserve_by_client_order_id` is taken to succeed, as the source expects.
- Reading the interner without its lock while another thread appends: only the sequence of completed calls is modelled.
- WebSocket and REST clients, RPC, control panel, order books, statistics, settings and persistence.
