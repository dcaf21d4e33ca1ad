# Verified core of the Algo-Treading services

This project models the stateful core of the trading services in Dafny and proves
what it keeps over whole runs:

- **Multi-level exits** (`Apportionment`, `MultiLevel`, `PaperExits`, `LevelOrder`,
  `LivePlacement`, `LiveExits`, `EvalWorkers`, `MultiLevelManager`).  A filled
  position is split over stop-loss and take-profit levels; each exit re-apportions
  what remains.  The
  "round at one half, then repair the drift" loops are the largest-remainder split;
  quantities are conserved in every run of ticks, fills, callbacks and forced exits;
  the compare-and-swap worker pool behaves like a sequential evaluator.
- **One-cancels-other groups** (`Oco`, `OcoLifecycle`, `OcoProtection`,
  `OcoLaws`, `OcoTrailing`, `OcoRegistry`, `OcoWitnesses`, `OcoManager`).  Entry fill, leg
  placement, leg events, cancellations, the partial-fill timer and trailing modifies,
  interleaved in every order, with every started goroutine an explicit outstanding
  task.
- **Strategy store** (`ConfigStore`, `ConfigOrder`, `StringOrder`, `ConfigWriter`).
  Versions and tombstones under redelivery and reordering; copy-on-write snapshots
  over shared objects.
- **Rate limiter, signal caps, fan-out** (`TokenBucket`, `RateLimiter`, `SignalCaps`,
  `FanOut`).
- **Prices** (`TickRounding`, `TrailingStop`).  The three tick rounders and the two
  trailing stops.

Where the program updates objects in place, a class does so here
(`MultiLevelManager`, `OcoManager`, `ConfigWriter`, `RateLimiter`), and each method is
proved against a transition on values; the theorems about runs are lemmas about those
transitions.  Prices and percentages are exact reals, quantities and versions
unbounded integers.  Broker answers, database failures, clocks, price ticks and map
iteration order are arguments or nondeterministic choices.

## Where the code and its comments disagree

The model follows the code in each case.

- `services/trade-execution/internal/oco/manager.go:1174-1176` says the legs stay in
  force after the timer cancels the rest of a partly filled entry.  The broker's
  acknowledgement of that very cancellation finds `PartialFillActive` cleared and
  fails the group, without cancelling the legs (`OcoLifecycle.TimeoutAckFailsGroup`,
  `OcoWitnesses.TimedOutGroupFails`).
- A user's cancellation granted while legs are being placed is overwritten when the
  placement ends (`OcoLifecycle.TerminalLeftIff`, `OcoWitnesses.GrantedCancelIsLost`).
- `services/trade-execution/internal/oco/trailing.go:555-586` releases the group
  lock between computing a trailing trigger and sending it.  A modify loosens the stop
  exactly when, since it was computed, another one took effect and the last such had
  moved the trigger past it (`OcoTrailing.ModifyLoosensIff`, reached in
  `OcoWitnesses.RacingModifiesLoosen`); never when no two are on their way at once
  (`OcoTrailing.SequentialTrailingNeverLoosens`), and never past where the stop was
  placed (`OcoProtection.NeverBelowPlacedStop`).
- The timer's request to cancel the rest of an entry can still go out after the
  entry's cancellation has been acted on, exactly while it was already outstanding
  (`OcoLifecycle.RemainderGrowsIff`, `OcoWitnesses.RequestAfterClose`); never around
  a processed full fill (`OcoLifecycle.FullFillNeverCancelled`).
- `services/rules-engine/internal/configstore/store.go:103-104` describes tombstones as
  the guard against out-of-order delivery; a deletion compares itself with the
  tombstone only, so a late one removes a newer strategy
  (`ConfigOrder.DeleteTakesEffectIff`, `ConfigOrder.OrdersDiverge`).  A strategy
  shares its key `userID|strategyID` with another one exactly when there is a `|` in
  either id, save one that opens the user id or ends the strategy id
  (`ConfigStore.CollidesIff`).
- `services/rules-engine/internal/consumer/handler.go:42-46` says the lock keeps
  events from racing past the limit.  That holds of the signals counted.  Published
  orders can exceed it, by at most the signals that failed or were cancelled and the
  saves that failed (`SignalCaps.OrdersBounded`); both happen
  (`SignalCaps.OverrunAfterFailure`, `SignalCaps.OverrunAfterLostSave`).
- `services/rules-engine/internal/consumer/market_data.go:153-168` rounds a price to
  1e-8 before it rounds to the tick.  That takes a price a tick up exactly when it lies
  at most half a unit of 1e-8 below a tie (`TickRounding.OffGridAgreeIff`).
- `pkg/indira/utils.go:187-196` rounds to the given tick and then clamps to two
  decimals, which undoes any tick finer than a paisa
  (`TickRounding.TickSizeRoundersAgreeIff`).

## Model

| member | source | states |
|---|---|---|
| TickRounding.RoundNSEIsNearest | services/trade-execution/internal/multilevel/types.go:330-334 | rounding to paise and then to five paise is the nearest tick, ties up, for every non-negative price |
| TickRounding.RoundScaledIsNearest | services/rules-engine/internal/consumer/market_data.go:153-168 | the integer-scaled rounder returns the nearest multiple of the tick on the 1e-8 grid |
| TickRounding.RoundToTickSizeIsNearest | pkg/indira/utils.go:187-196 | rounding by division and the final clamp give the nearest five-paise tick |
| TickRounding.RoundersAgree | services/rules-engine/internal/consumer/market_data.go:153-168 | the three rounders agree at 0.05 on every non-negative grid price, and with the nearest tick |
| TickRounding.OffGridAgreeIff | services/rules-engine/internal/consumer/market_data.go:153-168 | on every non-negative price the scaled rounder agrees with the others at 0.05 if and only if the price is not within half a unit of 1e-8 below a tie; there it is a tick higher |
| TickRounding.DividingRounderAgrees | pkg/indira/utils.go:187-196 | the dividing rounder agrees with the two-stage one on every non-negative price, on the grid or off |
| TickRounding.RoundersDisagreeOffGrid | services/rules-engine/internal/consumer/market_data.go:153-168 | one such price |
| TickRounding.TickSizeRoundersAgreeIff | pkg/indira/utils.go:187-196 | for a general tick the two tick-size rounders agree on all grid prices if and only if the tick is a whole number of paise |
| TickRounding.RoundNSEMonotone | services/trade-execution/internal/oco/types.go:225-229 | rounding keeps the order of prices |
| TickRounding.RoundNSEIdempotentAndClose | services/trade-execution/internal/oco/types.go:225-229 | rounding twice is rounding once, and moves a price by at most half a tick |
| TrailingStop.OcoTrailingSafety | services/trade-execution/internal/oco/types.go:172-222 | over any ticks and broker answers the trigger stays on the grid, is never loosened, and never crosses the high it trails for prices on the grid |
| TrailingStop.OcoTrailingDrift | services/trade-execution/internal/oco/types.go:172-222 | after k accepted modifies trigger/high is within 0.025*k over the initial high of its initial value |
| TrailingStop.LevelTrailingGrowth | services/trade-execution/internal/multilevel/types.go:274-319 | after k modifies a BUY trigger is at least the initial one grown k times by the minimum step |
| TrailingStop.LevelTrailingShrink | services/trade-execution/internal/multilevel/types.go:274-319 | the SELL counterpart: the trigger shrinks geometrically |
| TrailingStop.LevelModifiesBounded | services/trade-execution/internal/multilevel/types.go:274-319 | the climb of a trigger bounds the number of broker modifies it can have cost |
| TrailingStop.LevelTriggerDistance | services/trade-execution/internal/multilevel/types.go:274-319 | a new trigger lies the trailing percentage of the last price on the loss side of it, to within half a tick, for BUY and SELL |
| TrailingStop.LevelUpdateIff | services/trade-execution/internal/multilevel/types.go:274-319 | an update is due if and only if there is a broker order, the price is a new extreme and the trigger, if one is set, would move its way by at least the minimum step |
| TrailingStop.OcoUpdateIff | services/trade-execution/internal/oco/types.go:172-222 | an OCO update is due if and only if trailing is on, the group is active and the price is beyond the high by the minimum step; the trigger moves in proportion, to within half a tick |
| Apportionment.SharesExact | services/trade-execution/internal/multilevel/manager.go:1741-1752 | the exact shares add up to the remaining quantity |
| Apportionment.WithinOneUnit | services/trade-execution/internal/multilevel/manager.go:1741-1802 | every entry of a largest-remainder split is within one unit of its share and non-negative |
| Apportionment.LargestRemainderIsOptimal | services/trade-execution/internal/multilevel/manager.go:1741-1802 | no integer split of the same total deviates less from the exact shares |
| Apportionment.RepairedIsLargestRemainder | services/trade-execution/internal/multilevel/manager.go:1763-1799 | rounding at one half and then adjusting the extreme fractions until the sum fits gives the largest-remainder split, whichever way the drift went |
| Apportionment.EnoughCandidates | services/trade-execution/internal/multilevel/manager.go:1763-1799 | the repair never runs out of levels to adjust |
| Apportionment.ComputeRebalancedQtys | services/trade-execution/internal/multilevel/manager.go:1741-1802 | the loops return a largest-remainder split of the remaining quantity |
| Apportionment.EachGetsItsShare | services/trade-execution/internal/multilevel/manager.go:1741-1802 | in a largest-remainder split every level is within one unit of its own percentage of the quantity |
| Apportionment.LargerShareGetsNoLess | services/trade-execution/internal/multilevel/manager.go:1741-1802 | a level with the larger percentage never gets less |
| Apportionment.InitialSplitExact | services/trade-execution/internal/multilevel/manager.go:1820-1854 | the initial level quantities add up to the fill whatever the percentages add up to |
| Apportionment.InitialSplitNonNegative | services/trade-execution/internal/multilevel/manager.go:1820-1854 | with non-negative percentages no initial quantity is negative |
| Apportionment.InitialShareKept | services/trade-execution/internal/multilevel/manager.go:1820-1854 | every level before the last gets its percentage of the fill, rounded down, as long as the percentages up to it stay within 100 |
| Apportionment.LastLevelShare | services/trade-execution/internal/multilevel/manager.go:1820-1854 | with percentages that add up to 100 the last level gets its own percentage of the fill, and on top at most one unit for each level before it |
| Apportionment.ComputeInitialExitQtys | services/trade-execution/internal/multilevel/manager.go:1820-1854 | the in-place loop produces that split, zeros for a non-positive fill |
| MultiLevel.RebalanceRestoresSum | services/trade-execution/internal/multilevel/manager.go:1679-1736 | after a rebalance the active levels of a side hold exactly the remaining quantity, none a negative one |
| MultiLevel.RebalancedShares | services/trade-execution/internal/multilevel/manager.go:1679-1736 | after a rebalance every participating level holds its own configured percentage of the remaining quantity, out of the participating levels' total, to within one unit |
| MultiLevel.QtyPctOfOwn | services/trade-execution/internal/multilevel/manager.go:1679-1736 | a level's percentage is the one configured for its own level number |
| MultiLevel.ExitPriceDistance | services/trade-execution/internal/multilevel/types.go:230-246 | a trigger lies its percentage of the fill away from it, on the side on which it is hit, to within half a tick |
| MultiLevel.HitIffGain | services/trade-execution/internal/multilevel/types.go:249-262 | a price hits a level if and only if leaving there is no better than at a stop-loss trigger, or no worse than at a take-profit; the trigger price itself hits |
| PaperExits.BuiltTriggers | services/trade-execution/internal/multilevel/manager.go:244-317 | every level of a freshly filled group triggers at its own configured distance from the fill |
| PaperExits.BuiltShares | services/trade-execution/internal/multilevel/manager.go:244-317 | every level of a freshly filled group, the last apart, starts with its own configured share, rounded down |
| PaperExits.TickFiresIff | services/trade-execution/internal/multilevel/manager.go:681-815 | a tick fires one level if and only if it hits an active one, a price on the trigger included; else nothing changes |
| PaperExits.RowsAreExits | services/trade-execution/internal/multilevel/manager.go:1155-1208 | in every run each recorded exit that was not forced is a triggered level's, with its quantity, at a price that hits its trigger |
| PaperExits.FiresKeeps | services/trade-execution/internal/multilevel/manager.go:1155-1208 | one firing moves a level's quantity to the recorded exits and brings both sides to the new remaining quantity |
| PaperExits.PaperConservation | services/trade-execution/internal/multilevel/manager.go:681-815 | in every run of fill, ticks and forced exits: sides hold the remaining quantity while active, exits and remainder make up the fill, nothing is negative, a completed group has exited everything |
| PaperExits.InactiveIsFinal | services/trade-execution/internal/multilevel/manager.go:681-702 | a completed or cancelled group never changes again |
| PaperExits.ForcedExitConserves | services/trade-execution/internal/multilevel/manager.go:570-621 | after a forced exit at a positive price the recorded exits equal the fill for the rest of the run |
| LevelOrder.ExitPriceMonotone | services/trade-execution/internal/multilevel/types.go:230-246 | trigger prices keep the order of the configured percentages through rounding |
| LevelOrder.LevelsFireInOrder | services/trade-execution/internal/multilevel/manager.go:706-815 | in every run the triggered levels of a side are a prefix |
| LevelOrder.ExitsBounded | services/trade-execution/internal/multilevel/manager.go:706-815 | a run records at most one exit per level and one forced exit |
| LevelOrder.DeepTicksComplete | services/trade-execution/internal/multilevel/manager.go:706-748 | as many consecutive ticks past the deepest stop as there are active stop levels complete the group |
| LivePlacement.FilledGroupIsPlaced | services/trade-execution/internal/multilevel/manager.go:1466-1560 | a group built by its fill, its level orders placed under ids of their own or refused, is where the live runs start |
| LivePlacement.FilledGroupConserves | services/trade-execution/internal/multilevel/manager.go:1466-1736 | from the fill on, over every run of callbacks and cancellations, exits and remainder make up the fill and the index is exact |
| LiveExits.LiveConservation | services/trade-execution/internal/multilevel/manager.go:1565-1736 | under any fill callbacks, stale and repeated ones included, and cancellations: exits and remainder make up the fill, active sides hold the remainder, the index is exactly the active levels' ids, the broker was asked for the levels' quantities |
| LiveExits.CompletedAtZero | services/trade-execution/internal/multilevel/manager.go:1609-1640 | the group completes exactly when the last quantity has exited, and then no level is active and no id stays indexed |
| EvalWorkers.LocalKeeps | services/trade-execution/internal/multilevel/manager.go:681-815 | each lock or atomic access inside a claimed evaluation stays on the way from the claimed group to its atomic tick |
| EvalWorkers.ReleaseStep | services/trade-execution/internal/multilevel/types.go:200-209 | at its release the group has gone through exactly one atomic tick |
| EvalWorkers.PoolIsSequential | services/trade-execution/internal/multilevel/manager.go:128-171 | every interleaving of any number of workers: at most one is inside a group, evaluated jobs are among those submitted, each once, and groups are where running those jobs one after the other takes them |
| EvalWorkers.TriggeredForGood | services/trade-execution/internal/multilevel/types.go:99-114 | one access leaves triggered levels as they are, and only marking an active level triggers one |
| EvalWorkers.TriggeredInEveryRun | services/trade-execution/internal/multilevel/types.go:99-114 | between any two moments of any interleaving triggered levels stay triggered at their prices |
| EvalWorkers.LevelFiresAtMostOnce | services/trade-execution/internal/multilevel/types.go:99-114 | in every interleaving of any number of workers each level fires at most once |
| EvalWorkers.PoolConserves | services/trade-execution/internal/multilevel/manager.go:681-748 | in every interleaving every group outside an evaluation conserves its quantities |
| MultiLevelManager.ExitLevel.TryMarkTriggered | services/trade-execution/internal/multilevel/types.go:99-114 | succeeds exactly for an active level and then records price and status, else changes nothing |
| MultiLevelManager.BuildLevels | services/trade-execution/internal/multilevel/manager.go:262-308 | the loop builds the level states of the sorted configurations with the initial split |
| MultiLevelManager.Manager.RegisterEntry | services/trade-execution/internal/multilevel/manager.go:179-239 | a new group is registered under its entry, the others stay |
| MultiLevelManager.Manager.OnEntryFill | services/trade-execution/internal/multilevel/manager.go:244-342 | a fill builds both sides once; an unknown or repeated fill changes nothing |
| MultiLevelManager.Manager.RebalanceAndModifyLevels | services/trade-execution/internal/multilevel/manager.go:1679-1736 | the active levels get the largest-remainder quantities and exactly the changed broker orders are modified |
| MultiLevelManager.Manager.RecordPaperExit | services/trade-execution/internal/multilevel/manager.go:1155-1208 | in-place update of quantity, rows and the other side, equal to the firing transition |
| MultiLevelManager.Manager.RunEvalJob | services/trade-execution/internal/multilevel/manager.go:681-702 | one evaluation of a paper group is one atomic tick |
| MultiLevelManager.Manager.CancelGroupForExit | services/trade-execution/internal/multilevel/manager.go:570-621 | a forced exit records what remains when the price is positive and ends the group |
| MultiLevelManager.Manager.OnMultiLevelFilled | services/trade-execution/internal/multilevel/manager.go:1565-1674 | a level callback is the live fill transition, on levels, quantities, index and broker requests together |
| MultiLevelManager.Manager.CancelRemainingMLOrders | services/trade-execution/internal/multilevel/manager.go:1912-1938 | the active levels of a side are cancelled and exactly their ids leave the index |
| MultiLevelManager.Manager.CancelGroup | services/trade-execution/internal/multilevel/manager.go:427-465 | cancelling a live group cancels its active levels and removes it |
| OcoLifecycle.StepKeeps | services/trade-execution/internal/oco/manager.go:503-1372 | every critical section and every finished task keeps the lifecycle invariant |
| OcoLifecycle.Lifecycle | services/trade-execution/internal/oco/manager.go:503-648 | in every run legs are placed at most once, at most one leg's execution is acted on, the profit is written at most once, the remainder is cancelled by timeout at most once |
| OcoLifecycle.StepOnward | services/trade-execution/internal/oco/manager.go:503-830 | no step but the end of a placement lowers a group's stage |
| OcoLifecycle.NoWayBack | services/trade-execution/internal/oco/manager.go:429-830 | with no placement outstanding the stage never decreases, so terminal groups stay terminal |
| OcoLifecycle.ClosedForGood | services/trade-execution/internal/oco/manager.go:1177-1217 | after a processed full fill or entry cancellation the timer never decides to cancel the remainder, and an exit once taken stays the only one |
| OcoLifecycle.RemainderGrowsIff | services/trade-execution/internal/oco/manager.go:1177-1253 | after that a request to cancel the remainder can still go out if and only if it was already outstanding |
| OcoLifecycle.FullFillNeverCancelled | services/trade-execution/internal/oco/manager.go:505-563 | around a processed full fill no request to cancel the remainder was made, is outstanding, or is made in any run after it |
| OcoLifecycle.TerminalLeftIff | services/trade-execution/internal/oco/manager.go:981-1054 | a terminal group comes back to life if and only if an outstanding placement ends without losing an enabled stop-loss leg |
| OcoLifecycle.ExitCancelsOther | services/trade-execution/internal/oco/manager.go:651-807 | an exit is taken exactly on a full or partial execution of a watched leg, and the same step queues the other leg's cancellation when it has an id |
| OcoLifecycle.EntryCloseKeepsGroupIff | services/trade-execution/internal/oco/manager.go:624-646 | a rejected or cancelled entry leaves the group's state if and only if the manager still waits for the rest of a partial fill, else the group fails |
| OcoLifecycle.TimeoutAckFailsGroup | services/trade-execution/internal/oco/manager.go:624-646 | after a timeout the entry's cancellation always fails the group and queues no leg cancellation |
| OcoProtection.Protection | services/trade-execution/internal/oco/manager.go:856-1054 | in every run, while legs are watched an enabled stop-loss has a recorded id and was placed strictly on the loss side of the fill |
| OcoProtection.StepProtects | services/trade-execution/internal/oco/manager.go:813-1054 | every step keeps the protection, and LEGS_SUBMITTED is never visible between steps |
| OcoProtection.NeverBelowPlacedStop | services/trade-execution/internal/oco/trailing.go:548-589 | the trailed trigger, and every trigger on its way to the broker, is never looser than the placed one, even when modifies race |
| OcoTrailing.SequentialTrailingNeverLoosens | services/trade-execution/internal/oco/trailing.go:548-589 | in every run in which no two modifies are on their way at once, the trigger of a placed stop only ever tightens |
| OcoTrailing.ModifyLoosensIff | services/trade-execution/internal/oco/manager.go:1400-1472 | an accepted modify loosens the stop if and only if, since its trigger was computed, another took effect and the last such had moved the trigger past it |
| OcoTrailing.TrailingIsOcoRun | services/trade-execution/internal/oco/trailing.go:548-589 | one tick at a time, computing, sending and recording trailing modifies takes a group where the trailing of one stop takes it |
| OcoProtection.StopLosesTargetGains | services/trade-execution/internal/oco/manager.go:856-905 | once legs are placed, leaving at the stop trigger loses and leaving at the take-profit limit gains, in the profit the handlers record |
| OcoProtection.ProfitSide | services/trade-execution/internal/oco/manager.go:672-685 | the recorded profit is positive exactly on the gain side of the fill and negative exactly on the loss side |
| OcoProtection.LimitBeyondTrigger | services/trade-execution/internal/oco/types.go:138-147 | after rounding the stop's limit still never lies before its trigger |
| OcoLaws.UserCancelReaches | services/trade-execution/internal/oco/manager.go:1743-1778 | a granted cancellation cancels the entry of a pending group and both legs of a watched one, each once and nothing else |
| OcoLaws.LostLegCancelsOther | services/trade-execution/internal/oco/manager.go:697-807 | a rejected or cancelled stop-loss cancels the take-profit, a cancelled take-profit the stop-loss, and a rejected take-profit changes nothing |
| OcoLaws.LostStopCancelsTarget | services/trade-execution/internal/oco/manager.go:981-1013 | a placement that loses the stop-loss cancels the accepted take-profit and fails the group |
| OcoLaws.LegPriceDistances | services/trade-execution/internal/oco/types.go:138-158 | stop trigger and target lie their percentages of the fill on the loss and the gain side, to within half a tick |
| OcoLaws.StopLimitGap | services/trade-execution/internal/oco/types.go:138-158 | the limit of a stop lies half a percent beyond its trigger, to within rounding |
| OcoLaws.TrailedLimitGap | services/trade-execution/internal/oco/types.go:172-222 | the same for every trailed trigger and its limit |
| OcoLaws.PlacedLegPrices | services/trade-execution/internal/oco/manager.go:856-933 | the legs a placement sends and records carry those prices, each enabled leg by its own percentage |
| OcoLaws.ProfitIsProceeds | services/trade-execution/internal/oco/manager.go:672-685 | the recorded profit is what the filled quantity brings at the exit less what it cost, the other way round for SELL |
| OcoLaws.TradedEntryPlacesLegs | services/trade-execution/internal/oco/manager.go:505-563 | an entry reported traded at a positive price starts the one placement at that price |
| OcoLaws.EntryPriceFallsBack | services/trade-execution/internal/oco/manager.go:505-563 | without a traded price the order's own stands in, without either the group fails |
| OcoLaws.PartialFillsFollowed | services/trade-execution/internal/oco/manager.go:505-622 | the first partial fill places legs for its quantity, later ones and the full fill ask the legs for the new quantity |
| OcoLaws.DeadEntry | services/trade-execution/internal/oco/manager.go:624-646 | a rejected or cancelled entry fails the group unless it waits for the rest of a partial fill |
| OcoLaws.LegStatuses | services/trade-execution/internal/oco/manager.go:651-728 | status string by status string, what becomes of the group when its stop-loss reports |
| OcoLaws.OtherStatuses | services/trade-execution/internal/oco/manager.go:503-807 | every other status string changes nothing |
| OcoLaws.WaitingIsAttended | services/trade-execution/internal/oco/manager.go:564-622 | in every run a group that waits for the rest of a partial fill and has not ended has its timer running or on its way |
| OcoRegistry.RegistryIsExact | services/trade-execution/internal/oco/manager.go:429-500 | over any number of groups and any run, the ids indexed to a registered group are exactly those it records, and all groups keep lifecycle and protection |
| OcoRegistry.LeavingKeepsIndex | services/trade-execution/internal/oco/manager.go:1376-1392 | clean-up removes a group's own ids from the index and no others |
| OcoRegistry.DeliveredToItsOrder | services/trade-execution/internal/oco/manager.go:429-500 | an event reaches its own group and the handler of its own role |
| OcoWitnesses.GrantedCancelIsLost | services/trade-execution/internal/oco/manager.go:1743-1778 | a reachable run in which a granted cancellation ends in an active group with live legs |
| OcoWitnesses.TimedOutGroupFails | services/trade-execution/internal/oco/manager.go:1177-1217 | a reachable run in which a timed-out partial fill ends failed with live legs |
| OcoWitnesses.RequestAfterClose | services/trade-execution/internal/oco/manager.go:1177-1253 | a run from a new group in which the timer's request goes out after the entry's cancellation was acted on |
| OcoWitnesses.RacingModifiesLoosen | services/trade-execution/internal/oco/trailing.go:548-589 | a run from a new group in which two trailing modifies arriving in the other order loosen the stop |
| OcoManager.OcoGroup.HandleEntryFilled | services/trade-execution/internal/oco/manager.go:505-563 | in-place handling of a full entry fill, after a partial one or alone |
| OcoManager.OcoGroup.HandleEntryPartlyFilled | services/trade-execution/internal/oco/manager.go:564-622 | the first partial fill places legs, later ones modify them |
| OcoManager.OcoGroup.HandleEntryClosed | services/trade-execution/internal/oco/manager.go:624-646 | a rejected or cancelled entry keeps the legs of a waiting group and fails any other |
| OcoManager.OcoGroup.HandleSLLegUpdate | services/trade-execution/internal/oco/manager.go:651-728 | all statuses of the stop-loss leg, with state, profit and queued cancellations |
| OcoManager.OcoGroup.HandleTPLegUpdate | services/trade-execution/internal/oco/manager.go:731-807 | all statuses of the take-profit leg; a rejection changes nothing |
| OcoManager.OcoGroup.CheckConfirmed | services/trade-execution/internal/oco/manager.go:813-830 | the group becomes active exactly when it was submitted and no leg is unconfirmed |
| OcoManager.OcoGroup.BeginPlacement | services/trade-execution/internal/oco/manager.go:839-933 | leg prices are computed and validated, a wrong side or no leg aborts, disabled legs count as confirmed |
| OcoManager.OcoGroup.RecordPlacement | services/trade-execution/internal/oco/manager.go:981-1058 | the four outcomes of the broker's answers |
| OcoManager.OcoGroup.AfterPartialPlacement | services/trade-execution/internal/oco/manager.go:594-612 | after its placement a partial fill's goroutine starts the timer exactly for a group that has not failed, still waits and has none |
| OcoManager.OcoGroup.StartPartialFillTimer | services/trade-execution/internal/oco/manager.go:1177-1217 | the timer is armed and left outstanding |
| OcoManager.OcoGroup.TimerExpired | services/trade-execution/internal/oco/manager.go:1184-1208 | an expiry decides to cancel the remainder exactly while the group still waits |
| OcoManager.OcoGroup.CancelEntryRemaining | services/trade-execution/internal/oco/manager.go:1221-1253 | a request to the broker that changes no state |
| OcoManager.OcoGroup.ModifyLegsQty | services/trade-execution/internal/oco/manager.go:1257-1324 | the filled quantity becomes the one asked for, whatever the broker answered |
| OcoManager.OcoGroup.FinishCancelLeg | services/trade-execution/internal/oco/manager.go:1331-1372 | a finished leg cancellation completes the group, an empty id does nothing |
| OcoManager.OcoGroup.EvaluateTrailing | services/trade-execution/internal/oco/trailing.go:548-589 | a due trailing update is computed under the lock and left outstanding |
| OcoManager.OcoGroup.ModifySLLeg | services/trade-execution/internal/oco/manager.go:1400-1472 | trigger, limit and high move together, only for an active group with a stop-loss id and an accepting broker |
| OcoManager.Manager.CreateOCOEntry | services/trade-execution/internal/oco/manager.go:354-415 | an accepted entry is registered and indexed, a refused one makes no group |
| OcoManager.Manager.AdoptOrder | services/trade-execution/internal/oco/manager.go:1872-1942 | an order with a broker id is registered and indexed; without one, or with an empty one, nothing changes |
| OcoManager.Manager.HandleBrokerUpdate | services/trade-execution/internal/oco/manager.go:429-500 | lookup by id or tag, routing, and the backfill of a leg id into group and index |
| OcoManager.Manager.PlacementDone | services/trade-execution/internal/oco/manager.go:981-1054 | the accepted leg ids are recorded on the group and indexed together |
| OcoManager.Manager.CleanUpGroup | services/trade-execution/internal/oco/manager.go:1376-1392 | the group leaves the registry with its ids |
| OcoManager.Manager.CancelGroup | services/trade-execution/internal/oco/manager.go:1743-1778 | granted exactly for a registered group that has not ended, cancelling entry or legs by stage |
| OcoManager.Manager.Perform | services/trade-execution/internal/oco/manager.go:839-1472 | every critical section of a background task, tick or user on one group changes that group alone, as its step says |
| OcoManager.Manager.HandleEvent | services/trade-execution/internal/oco/manager.go:429-500 | every event of a registry run is one call on the objects |
| OcoManager.AnyRun | services/trade-execution/internal/oco/manager.go:429-1472 | through any run of events the objects' index is exact and every group keeps lifecycle and protection |
| ConfigStore.AlwaysConsistent | services/rules-engine/internal/configstore/store.go:142-316 | after every stream of events active and paused are disjoint, strategies are filed under their own ids, versions never fall below tombstones |
| ConfigStore.ApplyKeepsConsistent | services/rules-engine/internal/configstore/store.go:142-316 | the same for one event |
| ConfigStore.TombstonesNeverDecrease | services/rules-engine/internal/configstore/store.go:281-316 | between any two moments of any stream no tombstone decreases |
| ConfigStore.TombstonesGrow | services/rules-engine/internal/configstore/store.go:281-316 | the same for one event |
| ConfigStore.TombstoneTestRedundant | services/rules-engine/internal/configstore/store.go:157-171 | the tombstone test is implied by the version test |
| ConfigStore.KeyInjective | services/rules-engine/internal/configstore/store.go:138-140 | the joined key determines user and strategy when strategy ids have no separator |
| ConfigStore.CollisionForm | services/rules-engine/internal/configstore/store.go:138-140 | two pairs with users of different length share a key exactly when the longer user runs on into the other's strategy id across a separator |
| ConfigStore.CollidesIff | services/rules-engine/internal/configstore/store.go:138-140 | a pair shares its key with another one if and only if there is a separator in either id; among non-empty ids, if and only if it does not just open the user or end the strategy id |
| ConfigStore.CollisionShutsOut | services/rules-engine/internal/configstore/store.go:155-171 | of any two strategies that share a key the second is ignored up to the first one's version |
| ConfigStore.KeysCollide | services/rules-engine/internal/configstore/store.go:138-140 | one such pair, and what the automaton would have given |
| ConfigStore.NoOpIff | services/rules-engine/internal/configstore/store.go:142-316 | the exact condition under which an event changes nothing |
| ConfigStore.ApplyStatus | services/rules-engine/internal/configstore/store.go:142-316 | a fresh event takes its key one step of the automaton; every other key is untouched |
| ConfigStore.Idempotent | services/rules-engine/internal/configstore/store.go:142-316 | an event applied twice has the effect of once |
| ConfigStore.ExactlyOnce | services/rules-engine/internal/configstore/store.go:138-316 | over a stream delivered at least once the whole state is that of the first deliveries alone, and each key is where the automaton takes it |
| ConfigOrder.DeleteWins | services/rules-engine/internal/configstore/store.go:281-316 | a key whose highest version is a deletion ends absent in every order, with any repeats |
| ConfigOrder.UpsertsConverge | services/rules-engine/internal/configstore/store.go:142-192 | a key with only active upserts ends active with the highest version in every order |
| ConfigOrder.DeleteTakesEffectIff | services/rules-engine/internal/configstore/store.go:281-316 | a deletion removes the key if and only if it is above the tombstone, whatever newer version is recorded |
| ConfigOrder.OrdersDiverge | services/rules-engine/internal/configstore/store.go:281-316 | two orders of one upsert and one older deletion end differently |
| StringOrder.SortStrings | services/rules-engine/internal/configstore/store.go:366-374 | distinct strings come out ascending, with the same elements |
| ConfigWriter.InOrderUnique | services/rules-engine/internal/configstore/store.go:353-385 | the flat index is determined by the active strategies |
| ConfigWriter.RebuildAllActive | services/rules-engine/internal/configstore/store.go:353-385 | the index lists exactly the active strategies in strict (user, strategy) order, and the totals count active and paused |
| ConfigWriter.Snapshot.Finalize | services/rules-engine/internal/configstore/store.go:43-52 | after finalizing, index and totals agree with the strategies |
| ConfigWriter.Writer.Commit | services/rules-engine/internal/configstore/store.go:133-136 | the finalized snapshot becomes the published one and the writer's own |
| ConfigWriter.Writer.CloneUserView | services/rules-engine/internal/configstore/store.go:331-351 | fresh maps with the user's strategies, empty ones for a new user |
| ConfigWriter.Writer.ApplyUpsert | services/rules-engine/internal/configstore/store.go:144-192 | the upsert transition in place, applied exactly when it is not a no-op, published in a fresh snapshot |
| ConfigWriter.Writer.ApplyPause | services/rules-engine/internal/configstore/store.go:196-234 | the pause transition, a no-op leaving snapshot and versions alone |
| ConfigWriter.Writer.ApplyResume | services/rules-engine/internal/configstore/store.go:238-279 | the resume transition on a copy of the strategy |
| ConfigWriter.Writer.ApplyDelete | services/rules-engine/internal/configstore/store.go:282-316 | the delete transition; the answer says whether a strategy was there, the tombstone is set either way |
| ConfigWriter.Writer.BulkLoad | services/rules-engine/internal/configstore/config_store.go:55-81 | active entries replace all strategies, the last of a key winning; versions and tombstones stay |
| ConfigWriter.Writer.GetStrategy | services/rules-engine/internal/configstore/config_store.go:116-129 | finds exactly the strategies that are active or paused |
| ConfigWriter.Consume | services/rules-engine/internal/configstore/store.go:109-136 | whatever is consumed after a snapshot was taken, nothing reachable from it changes, provided the strategies handed over are not its own objects; the writer ends in the state the events give |
| ConfigWriter.UpsertShowsIff | services/rules-engine/internal/configstore/store.go:144-192 | an upsert shows in a snapshot a reader holds if and only if the strategy handed over is one of its own objects, active or paused, the upsert is applied and it moves the version; nothing else changes |
| TokenBucket.TokensInRange | api/gateway/internal/middleware/ratelimit.go:37-61 | tokens stay between zero and the capacity in every run |
| TokenBucket.WindowBound | api/gateway/internal/middleware/ratelimit.go:37-61 | in any window an IP is let through at most burst + rate * length times |
| TokenBucket.PurgedWindowBound | api/gateway/internal/middleware/ratelimit.go:37-76 | the same bound with purges at any times, when an idle bucket refills within the staleness limit |
| TokenBucket.PurgingIsHarmless | api/gateway/internal/middleware/ratelimit.go:63-76 | purging at any times gives the answers of never purging, under that condition |
| TokenBucket.HarmlessIff | api/gateway/internal/middleware/ratelimit.go:63-76 | purging never changes an answer if and only if burst < 1 or 120 * rate >= burst |
| TokenBucket.GatewayIsHarmless | api/gateway/internal/router/router.go:28 | the configured limits meet the condition |
| RateLimiter.Limiter.Allow | api/gateway/internal/middleware/ratelimit.go:37-61 | the in-place bucket update and its answer |
| RateLimiter.Limiter.PurgeStale | api/gateway/internal/middleware/ratelimit.go:63-76 | the loop deletes exactly the stale buckets |
| SignalCaps.HasIffCounted | services/rules-engine/internal/repository/trade_signal_repository.go:109-146 | the existence query and the counting query agree on what counts |
| SignalCaps.TradesAreStanding | services/rules-engine/internal/repository/trade_signal_repository.go:109-146 | the counting query gives the number of the strategy's signals stored today, since its activation, that neither failed nor were cancelled |
| SignalCaps.NothingOldCounts | services/rules-engine/internal/repository/trade_signal_repository.go:109-146 | all queries find nothing when every stored signal of the strategy is of another day or older than its activation |
| SignalCaps.NextKeeps | services/rules-engine/internal/consumer/handler.go:273-337 | every lock, query, save and status change keeps exclusion and what was checked under the lock |
| SignalCaps.CapsAlwaysHold | services/rules-engine/internal/consumer/handler.go:273-337 | in every interleaving no strategy exceeds its daily limit and none has two counted signals for one stock |
| SignalCaps.OrdersAreRecorded | services/rules-engine/internal/consumer/handler.go:669-705 | while saving and publishing fail or succeed together, the recorded signals are exactly the published orders |
| SignalCaps.UnrecordedOrderIff | services/rules-engine/internal/consumer/handler.go:669-705 | the record is left on exactly the steps on which they part |
| SignalCaps.OrdersBalance | services/rules-engine/internal/consumer/handler.go:273-337 | in every run published orders equal the signals counted now less those at the start, plus those settled as failed or cancelled, plus lost saves, less orders not sent; the same for one stock |
| SignalCaps.OrdersBounded | services/rules-engine/internal/consumer/handler.go:273-337 | in every run published orders exceed the limit, and one per stock, by at most the signals settled and the saves lost |
| SignalCaps.OverrunAfterFailure | services/rules-engine/internal/repository/trade_signal_repository.go:109-146 | a run without any failed save in which a failed first order lets a second one through on a limit of one |
| SignalCaps.OverrunAfterLostSave | services/rules-engine/internal/consumer/handler.go:669-705 | a run without any status change in which a lost save lets a second order through on a limit of one |
| FanOut.EvaluateEvent | services/rules-engine/internal/engine/engine.go:97-150 | for every order of the jobs the slots collect to the sequential filter; an error is returned exactly when a job failed |
| FanOut.KeptIsOrdered | services/rules-engine/internal/engine/engine.go:137-145 | the filter keeps exactly the matches, in strategy order |

## Left out

- Floating point and overflow: prices are exact reals, quantities and versions unbounded.
- HTTP, gRPC, Kafka, Redis, database, WebSocket, logging, metrics and authentication retries: outcomes are arguments or choices; a tick dropped because the job channel is full is simply not submitted.
- Lock-level races inside one live multi-level callback, and between a forced exit and an evaluation: each is one atomic step; only the tick workers are taken apart.
- Placing live level orders while callbacks already arrive: live runs start when the placement has ended.
- The single FIXED or TRAILING stop order of a multi-level group, its resizing and its fill.
- The reported final profit of a paper group, which weights by original quantities.
- Restart recovery of both managers (`Reload`): confirmations and rebalanced quantities are not restored, so there is no round trip to prove.
- OcoManager.OcoGroup.CancelEntryRemaining: the broker's answers and the retries are not modelled, because nothing in the group depends on them; the contract counts the request.
- OcoManager.OcoGroup.ModifyLegsQty: the modify requests for the two legs are not recorded, only the quantity the group ends with.
- MultiLevelManager.Manager.CancelGroupForExit: the live branch, which cancels target and single stop orders at the broker, is not modelled.
- MultiLevelManager.Manager.OnMultiLevelFilled: cancelling a single FIXED or TRAILING stop order at zero is not modelled.
- MultiLevelManager.Manager.CancelGroup: the single stop order and a group without credentials are not modelled.
- Leg quantities at the broker after overlapping OCO modifies, and OCO liveness: a finished cancellation completes the group even when every attempt failed.
- OCO groups whose only leg is a take-profit that fails to be placed become active without any leg; protection speaks of groups with a stop-loss.
- OCO group mutexes are dropped at clean-up; here every critical section stays atomic.
- Cancelling by user, strategy or symbol: loops over the single cancellation.
- General convergence of the store under reordering: false, see `ConfigOrder.OrdersDiverge`; `BulkLoad` seeds no versions, so its entries carry no protection against older events.
- `GeneratedAt`, `Metrics` and the tombstone statistic of a snapshot; strings are ordered by character, which is Go's byte order for single-byte characters.
- The trade-window clock, order building and sizing between the cap check and the save: a choice between going on and stopping.
- Which of several errors `EvaluateEvent` returns, cancellation and shutdown of the engine's pool.
