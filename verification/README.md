# Credit-spread hedge: a model and its proofs

The repository sells a put credit spread on ETH and hedges its loss zone with
short perpetual positions. This project models the parts of it that decide
money, and proves what they promise over every price path, every feed, every
list of fills and every sequence of exchange operations.

**The tick-driven hedge engine.** The loss zone between the two strikes is cut
into levels. A price tick is a segment; inside it a cursor loop fires entries,
take-profits, stops and breakeven exits in price order. A stopped level owes
its loss as recovery debt, which later take-profits repay in full or in equal
instalments. The premium is the stop budget: an entry whose stop would overrun
it locks its level, or opens a floor hedge that leaves at its own entry price.

- `CreditSpread`, `VirtualLevels`, `Ledger`: the option payoff, the level
  objects and their partition, the ledger object and what it reports.
- `HedgeModel`: the engine as functions on values. `Settle` is the ideal
  segment: fire whichever pending trigger comes first until none is left.
- `CrossingEngine`, `HedgeEngine`: the engine as it runs, with level and ledger
  objects updated in place, the candidate list, the cursor and the `processed`
  set. Every method is proved to do to the values what `HedgeModel` says.
- `Positions`, `Claims`, `StopBudget`, `Accounting`, `FloorTheorem`, `Runs`:
  the invariants, each kept by every crossing, also in the middle of a segment.
- `Results`, `TrueMinimum`, `PathRefinement`, `Recovery`, `Overlap`, `Segments`,
  `Historical`: the theorems about whole runs.
- `EventLaws`, `ReportLaws`: what a run reports, event by event, sample by sample
  and metric by metric, without reference to how it was computed.

Several of them need that no level's stop lies above the entry of the next
higher one (`Apart`, `Separated`), or that the run starts at or above the short
strike; `Clear` is the condition they share. `Overlap` shows that for one first
price it is exactly the condition under which no path opens two hedges at once.
That the budget can be overspent goes one way only: two levels that are not apart,
each affordable alone but not together, let some path overspend it.

**Shadow service and live coordinator.** `TriggerModel` and `TriggerServices`
model the two services that watch the same feed; `ShadowFidelity`,
`ShadowMultiplier` and `BatchSafety` say when their decisions coincide and what
the coordinator can submit, `EntryDecisions` exactly when it submits. `InstrumentRules`, `LiveRisk` and `LiveRecovery` are
the rounding rules, the risk gate and the live recovery debt they rest on.

**Fills.** `FillDelivery`, `EntryFills`, `ExitFills`: snapshots, their reducers,
and the store that takes each execution ID in once.

**Simulated exchange.** `ExchangeAccounts`, `ExchangeModel`, `ExchangeRuns`,
`ExchangeReplays`, `SimulatedExchange`: orders, fills, the account kept fill by
fill, the event log and its replay. `ExchangeFills` and `ExchangeRequests` say when
an order fills, at which terms, and what requests change, from the request and the
market alone.

**Two small algorithms.** `MarketBridge` is the random walk between two price
anchors; `ClientOrderIds` prints and parses client order IDs.

`Products`, `Sums`, `Folds` and `RejectionReasons` hold what the others share.

How the program's terms are rendered:

- `Decimal` is `real`: 28-digit rounding is not modelled. Divisions by a step or
  a level count are exact.
- Level numbers start at 0 instead of 1. The recovery allocation of a hedge has
  at most one entry in the program, so it is one `Claim` instead of a dictionary.
- The crossing callback of an accounting run is a `Recorder` object.
- `link` in the two services joins the connection generation and the previous
  price, which the program sets together.
- Coroutines run to completion one after the other. Whether the entry service
  completes a submission is an input of the call (`completes`).
- Random draws are inputs: a stream of numbers for the bridge, yes or no for the
  rejection, the partial fill and the uncertain acknowledgement of an order.
- Error texts are the cases of `RejectionReasons.Reason` and similar enumerations.
- Four properties one would expect hold of the code only under a condition, and
  the model keeps the code: the replay of the simulated exchange leaves out the fees
  of emergency closes, the shadow adds up notional without the contract
  multiplier, positive price anchors do not keep a bridge positive, and the exchange
  charges slippage on limit orders too. For each the exact condition is proved.

## Model

| member | source | states |
|---|---|---|
| CreditSpreads.ExpiryPnlByDepth | src/eth_credit_hedge/core/credit_spread.py:61-70 | the payoff is the premium less quantity times how deep the price is in the loss zone, a depth between zero and its width |
| CreditSpreads.ExpiryPnlShape | src/eth_credit_hedge/core/credit_spread.py:61-90 | the payoff never falls with the price, and moves by at most quantity times the move |
| VirtualLevels.GenerateVirtualLevels | src/eth_credit_hedge/core/virtual_levels.py:56-89 | rejects exactly a non-positive count or rate; otherwise fresh, numbered levels on the partition of the loss zone |
| VirtualLevels.TiledZones | src/eth_credit_hedge/core/virtual_levels.py:68-89 | the zones tile the interval between the strikes without a gap: each take-profit is the next entry, the last one the long strike |
| VirtualLevels.HedgeLevel.Activate | src/eth_credit_hedge/core/hedge_engine.py:248-253 | an opened level has its new quantity, claim and floor flag, one more attempt, and is no longer armed |
| VirtualLevels.HedgeLevel.PayOut | src/eth_credit_hedge/core/hedge_engine.py:275-280 | a paid level has realized its profit and holds no quantity and no claim |
| VirtualLevels.HedgeLevel.StopOut | src/eth_credit_hedge/core/hedge_engine.py:296-307 | a stopped level owes its loss on top of its debt, starts instalments only if none are running, and is armed again |
| VirtualLevels.HedgeLevel.Repay | src/eth_credit_hedge/core/hedge_engine.py:268-274 | a repaid source owes less by the allocation, with one instalment less or none when nothing is owed |
| VirtualLevels.HedgeLevel.BreakEven | src/eth_credit_hedge/core/hedge_engine.py:335-339 | a floor hedge that left at breakeven is ready and armed, its debt untouched |
| Ledgers.Ledger.RecordStop | src/eth_credit_hedge/core/ledger.py:192-209 | one more stop, its loss in gross stops and out of realized P&L, and one event appended |
| Ledgers.Ledger.RecordTp | src/eth_credit_hedge/core/ledger.py:211-234 | one more take-profit, its profit in both totals, and one event with its two components |
| Ledgers.Ledger.RecordOpen | src/eth_credit_hedge/core/ledger.py:351-371 | one more entry, a reentry from the second attempt on, the largest quantity so far, and one event |
| Ledgers.MinimumCombinedIsLeast | src/eth_credit_hedge/core/ledger.py:321-323 | the reported minimum is attained by a sample and no sample is below it |
| HedgeModel.NextIsFirst | src/eth_credit_hedge/core/crossing_engine.py:97-108 | the model fires a pending trigger that no other pending one comes before; none pending, nothing fires |
| HedgeModel.NextIsUnique | src/eth_credit_hedge/core/crossing_engine.py:97-108 | price, priority and level leave exactly one trigger to fire |
| HedgeModel.NextIsNearest | src/eth_credit_hedge/core/crossing_engine.py:97-108 | in prices alone: no pending trigger is nearer than the one that fires, an entry fires only when no exit is pending at its price, and of two alike the upper level comes first |
| HedgeModel.ExecuteUsesPotential | src/eth_credit_hedge/core/crossing_engine.py:66-84 | every crossing uses up part of a potential of at most two per level, so a segment ends |
| CrossingEngine.NearestIsFirst | src/eth_credit_hedge/core/crossing_engine.py:97-108 | the nearest candidate is one of them and comes before all others in the sort order |
| CrossingEngine.CandidatesAre | src/eth_credit_hedge/core/crossing_engine.py:67-74 | the candidates are exactly the eligible events ahead of the cursor that were not processed |
| CrossingEngine.ProcessedNeverFilters | src/eth_credit_hedge/core/crossing_engine.py:64-83 | no event, level and price recurs in a segment: without the processed set the candidate list is the same |
| CrossingEngine.LoopFollowsModel | src/eth_credit_hedge/core/crossing_engine.py:66-84 | with the levels standing at the cursor, the candidate list is empty when nothing is pending, and its nearest event is the model's next one |
| HedgeEngine.NewEngine | src/eth_credit_hedge/core/hedge_engine.py:37-64 | refuses exactly a bad count, rate or instalment count; otherwise a fresh engine on the tiled zones |
| HedgeEngine.HedgeEngine.RecoveryAllocationsFor | src/eth_credit_hedge/core/hedge_engine.py:347-362 | under full recovery the claim is the level's own positive debt; otherwise it is debt divided by instalments of the first level, from the top down to this one, that has both, and there is no claim just when none has |
| HedgeEngine.HedgeEngine.Open | src/eth_credit_hedge/core/hedge_engine.py:223-259 | opens, opens a floor hedge or locks, as the model does, and changes nothing else |
| HedgeEngine.HedgeEngine.OpenFloor | src/eth_credit_hedge/core/hedge_engine.py:310-329 | the floor entry of the model, level and ledger |
| HedgeEngine.HedgeEngine.RepaySource | src/eth_credit_hedge/core/hedge_engine.py:266-274 | repays the claimed source; with an owed claim the negative-debt assertion cannot fail |
| HedgeEngine.HedgeEngine.TakeProfit | src/eth_credit_hedge/core/hedge_engine.py:261-289 | the take-profit of the model on level, source and ledger, also when the level is its own source |
| HedgeEngine.HedgeEngine.StopOut | src/eth_credit_hedge/core/hedge_engine.py:291-308 | the stop of the model; the floor assertion holds where it is called |
| HedgeEngine.HedgeEngine.BreakEven | src/eth_credit_hedge/core/hedge_engine.py:331-340 | the breakeven exit of the model; the floor assertion holds where it is called |
| HedgeEngine.HedgeEngine.ArmReadyLevels | src/eth_credit_hedge/core/hedge_engine.py:342-345 | exactly the ready levels at or below the price become armed |
| HedgeEngine.HedgeEngine.EligibleCrossings | src/eth_credit_hedge/core/hedge_engine.py:149-210 | the events of all levels, level by level, take-profit before entry |
| HedgeEngine.HedgeEngine.ExecuteCrossing | src/eth_credit_hedge/core/hedge_engine.py:212-221 | dispatches an event whose assertions hold to what the model does |
| HedgeEngine.LoopInvariant | src/eth_credit_hedge/core/crossing_engine.py:66-84 | there is a loop invariant that starts true, lets every picked event fire without a failing assertion, is kept by firing, and at the end leaves the model's state |
| HedgeEngine.HedgeEngine.FireNearest | src/eth_credit_hedge/core/crossing_engine.py:67-84 | one turn of the loop keeps that invariant and comes closer to the end |
| HedgeEngine.HedgeEngine.ProcessTransition | src/eth_credit_hedge/core/crossing_engine.py:48-84 | a transition ends in the model's state, within two events per level, executed in price order with take-profits before entries, with one sample after each |
| HedgeEngine.HedgeEngine.Step | src/eth_credit_hedge/core/hedge_engine.py:78-100 | a tick is the model's tick; the returned events are the ones appended; the engine stays in a state its ticks lead to |
| HedgeEngine.HedgeEngine.RunPath | src/eth_credit_hedge/core/hedge_engine.py:102-105 | a run is the model's replay of the path |
| HedgeEngine.HedgeEngine.AccountTick | src/eth_credit_hedge/core/hedge_engine.py:115-141 | samples every crossing of the tick, and the tick's own price unless the last crossing already did |
| HedgeEngine.HedgeEngine.RunWithAccounting | src/eth_credit_hedge/core/hedge_engine.py:107-147 | refuses exactly a used engine or an empty path, without a change; otherwise the result the model reports |
| HedgeEngine.ReachableIsRestingAndOwing | src/eth_credit_hedge/core/hedge_engine.py:78-100 | every state reached by ticks is at rest and owes what its claims say |
| Positions.FireMovesCursor | src/eth_credit_hedge/core/crossing_engine.py:66-84 | firing the next trigger moves the cursor ahead and leaves every level where a level stands at that cursor |
| Positions.StepRests | src/eth_credit_hedge/core/hedge_engine.py:78-100 | after a tick every level is at rest at its price: armed or not, and active only between its triggers |
| Positions.ReplayRests | src/eth_credit_hedge/core/hedge_engine.py:102-105 | so it is after any run |
| Segments.SettleSplits | src/eth_credit_hedge/core/crossing_engine.py:66-84 | settling to a middle price and then to the end is settling to the end |
| Segments.RiseCommutesWithArming | src/eth_credit_hedge/core/hedge_engine.py:91-99 | on the way up, arming in the middle of a segment changes nothing |
| Positions.StepSplits | src/eth_credit_hedge/core/hedge_engine.py:78-100 | two ticks to a price leave the same levels, totals and ledger as one, tick numbers aside |
| Historical.ReconstructTickPath | src/eth_credit_hedge/backtesting/historical.py:75-106 | refuses exactly bad resolution, no candles or a gap; otherwise the ticks start at the first open and pass, candle by candle, high then low (or low then high) then close, each the given number of evenly spaced ticks after the one before |
| Historical.LegTickLies | src/eth_credit_hedge/backtesting/historical.py:100-104 | the ticks of a leg go from its start to its end without turning back |
| Historical.TicksPerLegDoNotMatter | src/eth_credit_hedge/backtesting/historical.py:75-106 | a run over candles ends the same and reports the same metrics for every number of ticks per leg, tick numbers aside |
| PathRefinement.InsertedPriceChangesNothing | src/eth_credit_hedge/core/hedge_engine.py:78-147 | a price put between two neighbours of a path changes neither levels, totals and ledger, tick numbers aside, nor any reported metric, minimum and floor check included |
| PathRefinement.MetricsAreOfTheEnd | src/eth_credit_hedge/core/ledger.py:315-345 | the reported metrics other than the minimum are those of the state the run ends in |
| Claims.NoSharedSource | src/eth_credit_hedge/core/hedge_engine.py:347-362 | no debt is claimed by two active hedges |
| Claims.OldestClaimIsFirst | src/eth_credit_hedge/core/hedge_engine.py:353-361 | the distributed claim is one instalment of the first level, from a given one down to the target, with debt and instalments left; none exactly when no level there has both |
| Claims.FireKeepsOwing | src/eth_credit_hedge/core/hedge_engine.py:223-340 | every crossing keeps debts non-negative, debt with instalments left and no debt without, and every claim owed; no condition on the levels is needed |
| Accounting.FireKeepsBooks | src/eth_credit_hedge/core/hedge_engine.py:223-340 | every crossing keeps realized P&L equal to gross take-profits less stops, the sum of the events, and paid budgets less debt |
| Accounting.FireKeepsCombined | src/eth_credit_hedge/core/ledger.py:252-286 | a crossing leaves combined P&L at its own price unchanged |
| StopBudget.FireKeepsFunded | src/eth_credit_hedge/core/hedge_engine.py:223-308 | every crossing keeps realized stops plus the open hedge's stop loss within the premium |
| FloorTheorem.ZoneLossesTile | src/eth_credit_hedge/core/virtual_levels.py:68-89 | the losses of the zones add up to the loss of the spread at every price |
| FloorTheorem.FloorHolds | src/eth_credit_hedge/core/ledger.py:252-286 | in a funded state combined P&L is at least minus the budgets of the uncovered levels |
| Runs.SeparatedIsClear | src/eth_credit_hedge/core/virtual_levels.py:76-89 | separated levels are a clear start whatever the first price |
| Runs.StartAboveIsClear | src/eth_credit_hedge/core/hedge_engine.py:85-88 | a first price at or above the short strike is a clear start whatever the stop rate |
| Runs.RunInvariant | src/eth_credit_hedge/core/hedge_engine.py:102-105 | what every possible crossing and every arming keeps, every run keeps |
| Results.RunStaysAboveFloor | src/eth_credit_hedge/core/hedge_engine.py:107-147 | on every path from a clear start no sample falls below minus the exposed budgets, and stops stay within the premium |
| Results.MinimumAboveFloor | src/eth_credit_hedge/core/ledger.py:321-328 | so does the reported minimum, with a non-negative remaining budget in every sample |
| Results.OnlyLockedLevelsExpose | src/eth_credit_hedge/core/hedge_engine.py:228-246 | from the short strike up only locked levels are exposed |
| Results.FloorPolicyAlwaysPasses | src/eth_credit_hedge/core/hedge_engine.py:229-237 | under the breakeven-floor policy the floor check always passes and no level is ever locked |
| Results.RunConserves | src/eth_credit_hedge/core/ledger.py:192-234 | P&L, debt and event counts are conserved on every path from every start |
| EventLaws.RunIsRecorded | src/eth_credit_hedge/core/ledger.py:146-250 | on every path every event has the price and the amounts of its kind, the counters count the events, reentries and the largest quantity included, zone components add up to the budgets of the paid levels and recovery components to the losses no longer owed |
| EventLaws.RunEventsLieInTheirTicks | src/eth_credit_hedge/core/hedge_engine.py:78-100 | every event lies between the two prices of its tick, and ticks never go back |
| ReportLaws.RunKeepsToBudget | src/eth_credit_hedge/core/hedge_engine.py:223-259 | on every path a level opens exactly where its stop loss on top of all stops so far fits the premium, and else is a floor hedge or a lock as the policy says; paid, locked and open follow from the events |
| ReportLaws.RunIsSampled | src/eth_credit_hedge/core/ledger.py:252-286 | every sample is that of one event, at its price, or of one tick, with the totals of exactly the events before it; every event and every tick has its sample |
| ReportLaws.ReportIsExact | src/eth_credit_hedge/core/ledger.py:288-349 | the whole result of an accounting run in terms of its prices, events and samples: counters, budget, debt, locked levels, final and least combined P&L, floor check |
| Results.RunStaysFunded | src/eth_credit_hedge/core/hedge_engine.py:66-76 | from a clear start at most one hedge is open and the budget is never overrun |
| Results.BudgetIsConstantWhileOpen | src/eth_credit_hedge/core/hedge_engine.py:70-76 | while a hedge stays open the used stop budget does not move |
| Results.AllPaidLeavesPremium | src/eth_credit_hedge/core/ledger.py:261-271 | with all levels paid and the price below both strikes, the premium less the outstanding debt is left |
| TrueMinimum.HedgedFallsWithPrice | src/eth_credit_hedge/core/ledger.py:261-270 | with a hedge open combined P&L never rises with the price |
| TrueMinimum.UnhedgedRisesWithPrice | src/eth_credit_hedge/core/ledger.py:261-270 | without one it never falls with the price |
| TrueMinimum.NothingBelowMinimum | src/eth_credit_hedge/core/ledger.py:321-323 | no price the path passes is worth less than the reported minimum |
| TrueMinimum.MinimumIsExact | src/eth_credit_hedge/core/ledger.py:321-328 | the reported minimum is the minimum over all prices of the path, not only over the samples |
| Recovery.ReentriesAreGeometric | src/eth_credit_hedge/core/hedge_engine.py:223-308 | under full recovery without floors the k-th entry of a level has its first quantity times the growth factor to the k-1, and a paid level nets its budget |
| Recovery.StopsAreBounded | src/eth_credit_hedge/core/hedge_engine.py:223-308 | the premium bounds the stops and the stops bound the ledger, for a path of any length |
| Recovery.DebtIsRepaidInEqualInstalments | src/eth_credit_hedge/core/hedge_engine.py:261-303 | a debt with n instalments left is repaid in n equal shares and gone exactly after the n-th, unless its level is stopped again |
| Overlap.OneAtATimeFromIffClear | src/eth_credit_hedge/core/hedge_engine.py:228-259 | for every first price: no path from it ever opens two hedges at once if and only if the start is clear |
| Overlap.OneAtATimeIffApart | src/eth_credit_hedge/core/hedge_engine.py:228-259 | two hedges are never open at once on any path from any first price if and only if all levels are apart |
| Overlap.OverlapOverspends | src/eth_credit_hedge/core/hedge_engine.py:228-228 | two overlapping levels, each affordable alone but not together, let some path from any first price below the upper entry lose more on stops than the premium |
| Overlap.OverlappingDeskOverspends | src/eth_credit_hedge/core/virtual_levels.py:56-89 | for instance on the two levels between the strikes 2000 and 1900 with stops five per cent above the entries and the whole width as premium |
| InstrumentRules.StepRounding | src/eth_credit_hedge/domain/instrument_rules.py:25-40 | rounding moves a value by less than a step, each way in its direction |
| InstrumentRules.GridIsFixed | src/eth_credit_hedge/domain/instrument_rules.py:25-40 | a multiple of the step is left alone |
| InstrumentRules.PriceIsRoundedAway | src/eth_credit_hedge/domain/instrument_rules.py:51-74 | a passive sale or an aggressive purchase is rounded up to the grid, the other two down, by less than a tick |
| InstrumentRules.ValidationIsExact | src/eth_credit_hedge/domain/instrument_rules.py:77-163 | an order is accepted exactly when the instrument trades and quantity, price and notional as rounded are within its filters; the quantity is the largest one on the grid |
| InstrumentRules.OrderErrorsAreTheBreaches | src/eth_credit_hedge/domain/instrument_rules.py:115-156 | each of the six order errors is given if and only if the rounded order breaks that filter |
| InstrumentRules.AmountsAreExact | src/eth_credit_hedge/domain/instrument_rules.py:198-229 | take-profit and stop are rounded away from the entry on either side, and profit, loss and notional are those of the rounded prices |
| InstrumentRules.AcceptanceIsExact | src/eth_credit_hedge/domain/instrument_rules.py:220-250 | a hedge is accepted exactly when its order is, its take-profit gains and its stop loses after rounding, and notional and loss are within their limits |
| InstrumentRules.HedgeErrorsAreTheBreaches | src/eth_credit_hedge/domain/instrument_rules.py:220-250 | an error of a hedge is one of its order, or one of five given if and only if its condition holds |
| InstrumentRules.RecoveryQuantityIsLeast | src/eth_credit_hedge/domain/instrument_rules.py:229-241 | the recovery quantity is the least one on the grid whose profit covers the debt |
| InstrumentRules.DebtDoesNotDecide | src/eth_credit_hedge/domain/instrument_rules.py:181-261 | the debt passed in changes neither acceptance nor quantity, entry, take-profit and stop prices, profit and risk amounts |
| LiveRisk.ApprovalKeepsLimits | src/eth_credit_hedge/domain/risk.py:181-245 | after an approved entry quantity, notional, open levels and requests are within their limits; the other ten conditions are in LiveRisk.ApprovedIffWithinAll |
| LiveRisk.ReasonsAreTheBreaches | src/eth_credit_hedge/domain/risk.py:181-245 | each of the fourteen reasons is given if and only if its inequality is broken |
| LiveRisk.ApprovedIffWithinAll | src/eth_credit_hedge/domain/risk.py:181-245 | a proposal is approved exactly when all fourteen conditions hold |
| LiveRecovery.ReducersStayValid | src/eth_credit_hedge/domain/live_recovery.py:107-157 | each reducer refuses exactly on its guard and never reaches an invalid debt |
| LiveRecovery.DebtIsConserved | src/eth_credit_hedge/domain/live_recovery.py:107-157 | over any operations what is owed is what the stops added less what the take-profits realized above their zone budgets, each at most its allotment; and it is allocated or remaining |
| LiveRecovery.TakeProfitPaysAfterTheZone | src/eth_credit_hedge/domain/live_recovery.py:129-147 | a take-profit within the zone budget pays no debt, one up to budget and allotment together pays exactly the excess, a larger one the whole allotment; nothing stays allotted |
| LiveRecovery.PlanIsExact | src/eth_credit_hedge/domain/live_recovery.py:178-251 | a plan is refused outright on exactly four conditions and otherwise approved exactly when rounding, coverage and the risk gate let it through; only then does it claim the debt |
| LiveRecovery.ReleaseUndoesAllocate | src/eth_credit_hedge/domain/live_recovery.py:119-157 | releasing an allocation gives the debt before it back |
| LiveRecovery.PlannedOrderIsExact | src/eth_credit_hedge/domain/live_recovery.py:194-217 | the planned hedge has the least quantity on the grid that pays zone budget and debt at the unrounded prices, entry and stop rounded up and take-profit down, with the amounts of the rounded prices |
| LiveRecovery.PlanCovers | src/eth_credit_hedge/domain/live_recovery.py:194-223 | with a multiplier of at least one the rounded take-profit covers zone budget and debt |
| LiveRecovery.CoverageIffMultiplier | src/eth_credit_hedge/domain/live_recovery.py:219-223 | coverage holds on every level and debt exactly when the multiplier is at least one |
| LiveRecovery.CoverageNeverRejects | src/eth_credit_hedge/domain/live_recovery.py:218-238 | then a plan's reasons are those of rounding or of the risk gate alone |
| LiveRecovery.PlannedRecoveryClearsDebt | src/eth_credit_hedge/domain/live_recovery.py:129-251 | an approved plan claims the whole debt, and a take-profit of at least the planned profit leaves none |
| ShadowFidelity.SameVerdict | src/eth_credit_hedge/application/shadow_mode.py:255-304 | on an unsettled level both services accept or refuse alike, with the same quantity and notional |
| ShadowFidelity.StepsAgree | src/eth_credit_hedge/application/multi_level_execution.py:110-246 | one call keeps both services matched and makes the same decisions, also when the call is turned away or restarts the segment |
| ShadowFidelity.ShadowIsFaithful | src/eth_credit_hedge/application/shadow_mode.py:335-347 | over every feed the approved intents are exactly the submissions: levels, quantities and order |
| ShadowMultiplier.FaithfulIffMultiplierIsOne | src/eth_credit_hedge/application/shadow_mode.py:244-247 | the services agree on all desks their constructors accept and all undisturbed feeds exactly when the contract multiplier is one |
| BatchSafety.BatchWithinLimits | src/eth_credit_hedge/application/multi_level_execution.py:160-245 | if a trigger submits anything, the totals after its whole batch are within the limits |
| BatchSafety.StepIsOrdered | src/eth_credit_hedge/application/multi_level_execution.py:143-246 | a call submits levels it crosses, each new and marked afterwards, in level order |
| BatchSafety.EntriesDescend | src/eth_credit_hedge/application/multi_level_execution.py:90-92 | with levels listed highest first the entries of a call descend |
| BatchSafety.EachLevelOnce | src/eth_credit_hedge/application/multi_level_execution.py:295-302 | no level is submitted twice in any feed |
| EntryDecisions.EntryOrderIsExact | src/eth_credit_hedge/application/multi_level_execution.py:175-194 | the order of a level: quantity rounded down, prices away from the entry, and accepted exactly within filters and limits |
| EntryDecisions.CrossedAreTheReached | src/eth_credit_hedge/application/multi_level_execution.py:143-155 | arming never holds an entry back: crossed are exactly the unsubmitted levels whose entry the fall reaches |
| EntryDecisions.StepSubmitsExactly | src/eth_credit_hedge/application/multi_level_execution.py:110-246 | a level is submitted at a call exactly when the price falls to it, it was not submitted before, and gate, spread, level, rounding and all risk conditions allow it at the risk the entries above it leave, under the ID of its next attempt; a call that a failing submission ends is told level by level down to that one, which met the same conditions and stays marked |
| EntryDecisions.SubmittingCallIsSafe | src/eth_credit_hedge/application/multi_level_execution.py:158-246 | a call that submits anything saw every loss, margin, liquidation distance, debt and count within limits, fresh data and a successful reconciliation, and the summed totals after it are within the limits |
| EntryDecisions.FeedSubmitsExactly | src/eth_credit_hedge/application/multi_level_execution.py:110-246 | the same at the last call of every feed, whatever came before |
| EntryDecisions.CallSaysWhy | src/eth_credit_hedge/application/multi_level_execution.py:110-142 | a call that is turned away or restarts the segment says why, in the order of the checks; one that is followed says nothing |
| EntryDecisions.BlockSaysWhy | src/eth_credit_hedge/application/multi_level_execution.py:158-230 | a blocked level reports the first thing that stands in the way, or all broken risk conditions |
| EntryDecisions.IntentIsExact | src/eth_credit_hedge/application/shadow_mode.py:255-304 | the shadow approves a level exactly under the same conditions without gate and earlier submissions, and records its rounded order |
| EntryDecisions.IntentsFollowTheCrossings | src/eth_credit_hedge/application/shadow_mode.py:226-253 | one intent for each crossed level, in order and numbered on; exactly the approved ones are settled |
| TriggerModel.Crossed | src/eth_credit_hedge/application/multi_level_execution.py:149-155 | the crossed levels are exactly the armed ones the price move crosses, in level order |
| TriggerServices.ShadowModeService.ArmLevels | src/eth_credit_hedge/application/shadow_mode.py:214-216 | arms exactly the undecided levels at or below the price |
| TriggerServices.ShadowModeService.ResetSegment | src/eth_credit_hedge/application/shadow_mode.py:325-332 | a new segment starts at this generation and price with exactly its levels armed |
| TriggerServices.ShadowModeService.DecideCrossed | src/eth_credit_hedge/application/shadow_mode.py:226-253 | decides the crossed levels in order, each on the risk left by the one before |
| TriggerServices.ShadowModeService.OnTrigger | src/eth_credit_hedge/application/shadow_mode.py:189-253 | a call is the model's call: same state, same intents, same reasons |
| TriggerServices.MultiLevelCoordinator.ResetSegment | src/eth_credit_hedge/application/multi_level_execution.py:304-311 | a new segment starts at this generation and price with exactly the unsubmitted levels armed |
| TriggerServices.MultiLevelCoordinator.SubmitCrossed | src/eth_credit_hedge/application/multi_level_execution.py:158-246 | handles the crossed levels in order; a failing submission ends the call with its level marked |
| TriggerServices.MultiLevelCoordinator.OnTrigger | src/eth_credit_hedge/application/multi_level_execution.py:110-246 | a call is the model's call: same state, same entries, blocks and reasons |
| FillDelivery.NewsAreTheUnseen | src/eth_credit_hedge/application/protective_exits.py:262-283 | the fills a store takes in are exactly the ones it had not seen, each once |
| FillDelivery.DeliveredIsAbsorbed | src/eth_credit_hedge/application/protective_exits.py:250-283 | delivering any list leaves what its new fills lead to, as long as each of them is accepted in turn |
| FillDelivery.OthersLeaveNoTrace | src/eth_credit_hedge/application/protective_exits.py:262-283 | a fill that is known or refused when it comes might as well not have come, so a refused one can be delivered again |
| FillDelivery.SeenAreTheAccepted | src/eth_credit_hedge/application/one_level_entry.py:128-154 | recorded are exactly the fills that were accepted in their turn |
| EntryFills.EntryAcceptsExactly | src/eth_credit_hedge/domain/live_execution.py:154-187 | the entry reducer accepts exactly the fills of its order that still fit, and keeps the snapshot valid |
| EntryFills.EntryAbsorbsAll | src/eth_credit_hedge/domain/live_execution.py:154-187 | fills that fit are all counted, once each: quantity, notional, fees, state and version |
| EntryFills.EntryConfluence | src/eth_credit_hedge/application/one_level_entry.py:128-154 | the same fills in any order and with any repetitions leave the same store, whatever it had seen before |
| EntryFills.LateFillUndoesFinalization | src/eth_credit_hedge/domain/live_execution.py:190-203 | a fill after a partial entry was finalized takes the finalization back, so the two do not commute |
| ExitFills.ExitAcceptsExactly | src/eth_credit_hedge/domain/protected_execution.py:307-364 | the exit reducer accepts exactly the fills of its exits that fit and do not make fees negative, and keeps the snapshot valid |
| ExitFills.ExitFillIsExact | src/eth_credit_hedge/domain/protected_execution.py:307-364 | a fill under the stop link adds to the stopped quantity and owes its loss with its share of the entry fees and its own fee, if positive; one under the take-profit link adds to the taken quantity and owes nothing; the rest counts for both |
| ExitFills.ExitAbsorbsAll | src/eth_credit_hedge/domain/protected_execution.py:307-364 | exit fills that fit are all counted, once each |
| ExitFills.ExitConfluence | src/eth_credit_hedge/application/protective_exits.py:250-283 | the same exit fills in any order and with any repetitions leave the same quantities, notional, fees, debt and terminal state, whatever was seen before |
| ExitFills.PnlIsSumOfContributions | src/eth_credit_hedge/domain/protected_execution.py:164-175 | realized P&L moves by the sum of what each new fill contributes |
| ExitFills.StopOnlyCloseOwesItsLoss | src/eth_credit_hedge/domain/protected_execution.py:325-341 | a close by stops alone owes at least its realized loss, and exactly that if no fill gained |
| ExitFills.FullCloseIsConfirmed | src/eth_credit_hedge/domain/protected_execution.py:418-434 | a full close can be confirmed and ends stopped as soon as any stop filled |
| ExchangeAccounts.ReplaySimulatedFinancials | src/eth_credit_hedge/backtesting/simulated_exchange.py:199-247 | the replay of a log gives the account's gross P&L, fees and funding |
| ExchangeAccounts.TotalsAreSums | src/eth_credit_hedge/backtesting/simulated_exchange.py:825-850 | entry, take-profit and stop fees and funding are sums over the log: fees of the sales, of the purchases in each role, and the payments |
| ExchangeAccounts.ReplayNetDiffersByOtherFees | src/eth_credit_hedge/backtesting/simulated_exchange.py:233-246 | replayed net P&L exceeds the reported one by the fees of purchases that are neither take-profit nor stop, and equals it just when none paid a fee |
| ExchangeAccounts.EmergencyCloseMakesReplayDiffer | src/eth_credit_hedge/backtesting/simulated_exchange.py:233-238 | an emergency close with a fee makes a replay that agreed disagree |
| ExchangeAccounts.GrossIsCashLessOpenValue | src/eth_credit_hedge/backtesting/simulated_exchange.py:825-850 | gross P&L is sold less closed notional less the open position at its average; the position is sold less closed quantity |
| ExchangeAccounts.CoveredIsCashFlow | src/eth_credit_hedge/backtesting/simulated_exchange.py:839-843 | when no purchase overruns the position the closed notional is all that was bought |
| ExchangeRuns.FillKeepsBooked | src/eth_credit_hedge/backtesting/simulated_exchange.py:741-805 | a fill moves account, order and log alike |
| ExchangeRuns.RunIsBooked | src/eth_credit_hedge/backtesting/simulated_exchange.py:382-540 | after any operations, failed ones included, the account is that of the log and the orders filled what the log says |
| ExchangeRuns.RunReplaysUpToOtherFees | src/eth_credit_hedge/backtesting/simulated_exchange.py:353-377 | on every run the replay agrees, net P&L up to the other purchase fees, and fully just when there are none |
| ExchangeRuns.RunIsCashFlow | src/eth_credit_hedge/backtesting/simulated_exchange.py:741-744 | with reduce-only buying orders gross P&L and position follow from the order book alone, on every run |
| ExchangeRuns.WithinUnlessUndercut | src/eth_credit_hedge/backtesting/simulated_exchange.py:485-510 | an operation keeps every order within its quantity exactly when it is not an amendment below what is filled |
| ExchangeRuns.NoOverfillIffNoUndercut | src/eth_credit_hedge/backtesting/simulated_exchange.py:741-785 | throughout a run no order is overfilled exactly when no amendment undercuts |
| ExchangeRuns.TerminalOrdersStay | src/eth_credit_hedge/backtesting/simulated_exchange.py:710-722 | a filled or cancelled order never changes again |
| ExchangeRuns.LogOnlyGrows | src/eth_credit_hedge/backtesting/simulated_exchange.py:937-945 | the event log is append-only |
| SimulatedExchange.SimulatedExchange.ApplyPosition | src/eth_credit_hedge/backtesting/simulated_exchange.py:825-850 | a sale opens at the weighted average, a purchase closes at most what is open |
| SimulatedExchange.SimulatedExchange.FillOrder | src/eth_credit_hedge/backtesting/simulated_exchange.py:741-805 | fills what remains, or the planned part of it, or cancels when nothing can be filled |
| SimulatedExchange.SimulatedExchange.ProcessOrders | src/eth_credit_hedge/backtesting/simulated_exchange.py:710-722 | processes every order, oldest first, each on the account the ones before left; what looking at one order does is ExchangeFills.ProcessOrderIsExact |
| ExchangeFills.FillsCostTheSpread | src/eth_credit_hedge/backtesting/simulated_exchange.py:807-823 | sales fill at or below the bid, purchases at or above the ask, and fees are not negative |
| ExchangeFills.ProcessOrderIsExact | src/eth_credit_hedge/backtesting/simulated_exchange.py:710-785 | an order is filled exactly when it is active, due, its trigger reached, its limit met by bid or ask and something left; at bid or ask with its slippage, for the maker rate if it is a limit order, all that is left or the planned part once; else cancelled or left alone |
| ExchangeFills.MetOrdersAreServed | src/eth_credit_hedge/backtesting/simulated_exchange.py:382-388 | when time passes every active order that is due and met is filled further or cancelled, and without a planned part completely |
| ExchangeFills.ExecutionsHaveTheirOrders | src/eth_credit_hedge/backtesting/simulated_exchange.py:710-740 | on every run every logged execution was booked by an operation whose market price meets the trigger and the limit of its order, at the terms of that order |
| ExchangeFills.LimitsKeptIffNoSlippage | src/eth_credit_hedge/backtesting/simulated_exchange.py:807-823 | limit orders never fill worse than their limit exactly when the exchange charges no slippage |
| SimulatedExchange.SimulatedExchange.ApplyFunding | src/eth_credit_hedge/backtesting/simulated_exchange.py:429-434 | books and logs one payment on the open position |
| SimulatedExchange.SimulatedExchange.PlaceOrder | src/eth_credit_hedge/backtesting/simulated_exchange.py:436-483 | refuses a wrong symbol or a known ID without a change; an uncertain acknowledgement still leaves the order placed |
| SimulatedExchange.SimulatedExchange.AmendOrder | src/eth_credit_hedge/backtesting/simulated_exchange.py:485-510 | changes an active order's request and nothing else |
| SimulatedExchange.SimulatedExchange.CancelOrder | src/eth_credit_hedge/backtesting/simulated_exchange.py:512-524 | cancels an active order, leaves a terminal one as it is |
| SimulatedExchange.SimulatedExchange.CancelAll | src/eth_credit_hedge/backtesting/simulated_exchange.py:526-540 | cancels exactly the active orders of the category and symbol |
| SimulatedExchange.SimulatedExchange.AdvanceMarket | src/eth_credit_hedge/backtesting/simulated_exchange.py:382-397 | a bad price changes nothing, a negative time keeps the new price and fails |
| ExchangeRequests.TimeIsExact | src/eth_credit_hedge/backtesting/simulated_exchange.py:382-397 | time and price move exactly as asked; which arguments fail, and what stays then |
| ExchangeRequests.PlaceIsExact | src/eth_credit_hedge/backtesting/simulated_exchange.py:436-483 | refused exactly for a foreign symbol or a known link, without a change; otherwise, unless rejected, the request is in the book, due after the fill delay, and served at once if that is over with the acknowledgement |
| ExchangeRequests.AmendIsExact | src/eth_credit_hedge/backtesting/simulated_exchange.py:485-510 | taken exactly by the active order with the link, for positive changes, of a limit or trigger only where there is one; changes exactly what it names |
| ExchangeRequests.CancelIsExact | src/eth_credit_hedge/backtesting/simulated_exchange.py:512-540 | cancels exactly the named active orders; fails exactly when a single one is unknown |
| ExchangeRequests.LinksAreUnique | src/eth_credit_hedge/backtesting/simulated_exchange.py:440-441 | on every run no two orders share a link |
| ExchangeRequests.CancelledIsFinal | src/eth_credit_hedge/backtesting/simulated_exchange.py:512-540 | on every run nothing more is ever filled of an order once a cancellation named it |
| SimulatedExchange.RunningExchangeIsBooked | src/eth_credit_hedge/backtesting/simulated_exchange.py:353-377 | whatever was asked of an exchange since it was built, it is booked and replays up to the other fees |
| SimulatedExchange.SimulatedExchange.AdvanceTime | src/eth_credit_hedge/backtesting/simulated_exchange.py:382-388 | a negative time fails without a change; otherwise every order is looked at; the exchange stays where the run of all its operations leads |
| ExchangeReplays.EmergencyCloseIsOverstated | src/eth_credit_hedge/backtesting/simulated_exchange.py:233-246 | an entry and its emergency close, run on any exchange whose close pays a fee, replay to more than the account has earned |
| ExchangeReplays.AlwaysReplaysIffNoFees | src/eth_credit_hedge/backtesting/simulated_exchange.py:353-377 | every run of an exchange replays to its own net P&L exactly when it charges neither maker nor taker fees |
| MarketBridge.MarketKeepsReach | src/eth_credit_hedge/backtesting/market_path.py:74-97 | there is always a feasible move and the chosen one keeps the target in reach |
| MarketBridge.BridgeArrives | src/eth_credit_hedge/backtesting/market_path.py:58-104 | for all draws the bridge makes its moves, one tick each, at least the minimum, and ends at its target |
| MarketBridge.BridgeTickIndices | src/eth_credit_hedge/backtesting/market_path.py:58-104 | the loop computes that walk; the final assertion cannot fail |
| MarketBridge.MoveIsDrawn | src/eth_credit_hedge/backtesting/market_path.py:74-97 | a forced move is made without a draw; a free one draws against the chance for the side of the target, after a coin only at the target without a last move |
| MarketBridge.ChanceLeansToTarget | src/eth_credit_hedge/backtesting/market_path.py:86-96 | the chance is mirrored for the mirrored walk, leans to the target, more so the fewer moves are left, is the drift at the target, and stays between 0.209 and 0.791 |
| MarketBridge.PositiveIffEndsExceedMoves | src/eth_credit_hedge/backtesting/market_path.py:28-29 | a bridge stays positive for all draws exactly when its two ends together exceed its moves |
| MarketBridge.ExpandPriceAnchors | src/eth_credit_hedge/backtesting/market_path.py:12-47 | refuses exactly bad arguments; otherwise a path of single ticks through every anchor in order, the asked number of ticks apart |
| ClientOrderIds.PrintedIsShort | src/eth_credit_hedge/domain/client_order_ids.py:103-108 | a printed ID has at most 35 characters and is accepted again |
| ClientOrderIds.LengthNeverRefuses | src/eth_credit_hedge/domain/client_order_ids.py:68-69 | the length check of the constructor never fires |
| ClientOrderIds.ParseOfPrint | src/eth_credit_hedge/domain/client_order_ids.py:89-108 | parsing a printed ID gives the ID back |
| ClientOrderIds.PrintOfParse | src/eth_credit_hedge/domain/client_order_ids.py:89-108 | what is accepted prints as itself |
| ClientOrderIds.RoleIsPrinted | src/eth_credit_hedge/domain/client_order_ids.py:103-108 | the fields of a printed ID, with the token of its role |
| ClientOrderIds.AcceptsExactlyThePattern | src/eth_credit_hedge/domain/client_order_ids.py:31-36 | accepted are exactly the strings of the pattern, which are exactly the printed IDs |
| ClientOrderIds.PrintIsInjective | src/eth_credit_hedge/domain/client_order_ids.py:103-108 | different IDs print differently |

## Left out

- Decimal context rounding at 28 digits, and conversion of inputs to `Decimal`.
- Timestamps, UTC checks, hashing, JSON, the loading of candles from CSV and the saving of paths.
- The Bybit clients, stores, dashboards, alerts, deployment checks and operator commands: input and output.
- The exchange's slippage and spread cost figures, stale and unprotected durations, market data queues and the delivery queue with its duplicates and reordering; deliveries are any lists of fills in `FillDelivery`.
- The exchange's order and execution numbering, acknowledgement objects, fault checkpoints and order visibility.
- Exchange configurations with a spread or slippage of 100 percent or more: there the program raises when it builds the execution.
- The trigger and take-profit prices of a protection snapshot, which the exit reducer does not read; stop replacement and the emergency close reducer.
- Market orders in `NormalizeAndValidateOrder`: the services and the planner only validate limit orders.
- The contiguous level numbers the constructors of the two services check, and the intent recorder, which receives what the call returns; symbol and category are part of `TriggerModel.Desk`.
- HedgeEngine.HedgeEngine.ProcessTransition: requires an engine at rest at the previous price with its claims owed, because only this engine calls the processor and is always in such a state; the processor itself takes any strategy and any previous price.
- Reconciliation of positions against the exchange, in the coordinator and in the exit service.
- Non-ASCII characters in client order IDs: `Upper` changes ASCII letters only.
- The random source of the bridge as floating point: the chance of moving up is computed in `real`.
