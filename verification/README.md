# Paper trading treasury: a verified model

This project models the paper-trading treasury engine of the repository: the order machinery, the virtual treasury it
settles into, the driver that trades it, and the pure accounting, reconciliation and band logic around it. Money and
quantities are exact reals with the source's tolerances (1e-12, 1e-9, 1e-7, 1e-6) as named constants; time is integer
milliseconds read from the environment of each step.

## How the model is layered

- **Ledgers.** `HarvestCycles` and `AccumulationLots` (the two cycle books), `AccumulationBudget`, `PaperAccount` and
  `VirtualAccounts` (balances, fill ledger, reserve, daily counters), `Treasury` (cost basis), `PriceBuckets`.
- **Decisions.** `Risk`: context, gates, policies, sizing. `Orders`: life cycle and registry.
- **The desk.** `Desks` is one step system made of soak, registry, paper engine and pipeline. `DeskSteps` tells its
  steps apart, `Settlement` and `DeskRuns` prove what every run of arbitrary requests keeps, recovery passes and
  reserve releases included; `FillTraces` follows the single fills of a step.
- **The driver.** `Drivers` decides which one order a tick sends. `SoakBooks`, `PricedBooks`, `Solvency`, `BudgetBooks`
  and `SellLadder` each keep one promise between the ledgers over the four kinds of fill; `DriverBooks` joins them, and
  `DriverRuns`, `DriverTheorems` and `DriverTiming` carry them over whole runs, and `AnyPrice` says where prices need no
  bound. `BelowFloor`, `ThinSpread`, `DearPrices` and `SpentReserve` hold instances in which a promise fails or a bound
  is attained, the last three as runs in the calm market of `CalmMarkets`.
- **Objects.** `PaperTrading` holds the mutable accumulation engine, soak, paper engine, pipeline and driver;
  together with the tracker, budget, account and registry classes each method is proved to compute the function whose
  properties are proved above.
- **Around it.** `OrderRecovery` (crash recovery), `Drift` (detection and repair), `Bands` (ladder and migration),
  `Zones` (the zone manager with its reserve hooks), `BandRuns` (the reserve over runs of desk and ladder).

A run is a sequence of steps, each with its own environment: market, mode, zone permissions, which orders chance lets
fill, and a clock that never runs backwards. The theorems of `DeskRuns` hold for any requests, with any reason text and
any cycle ids; those of `DriverTheorems` for runs whose orders come from the driver and the accumulation engine, under
any market, zone, mode, chance and operator cancels, with a ladder that releases and re-protects reserve at any time and
by any amount.

## What the proofs show about the code

- **Rebuys stay affordable under one exact condition.** The cash set aside for open cycles leaves the rebuy fee out, and
  no floor is needed to make up for it. Cash and deployed capital together never fall below the opening cash plus the
  reserve with its fees, and the budget deploys no more than the opening cash, so cash alone buys every open cycle back
  in every driver run (`DriverTheorems.RebuysStayFunded`). The one condition is on the configuration: the least distance
  d of a regime must pay both fees, d(1 + f) >= 2f. It is exact: a soak without cash can buy its first sell back if and
  only if that regime's distance meets it (`ThinSpread.SpreadIsExact`), and `ThinSpread.RunEndsShort` is a run of one
  tick where it does not.
- **Lots are covered exactly when start and loan cover the floor.** The configuration admits a soak that starts with less
  ZIG than its reserve floor. After any driver run the active pool covers the unrecovered lots if and only if the start
  together with the reserve that is out covers the floor, or no lot was ever bought (`DriverTheorems.LotCustody`). So a
  covered start always covers its lots, and below the floor the first lot bought is not covered, nor any after it, unless
  the ladder lends what is missing (`BelowFloor.FirstLotCovered`). Such a soak opens without an active pool, and
  the daily sell allowance is a share of that pool, so the risk engine never approves a sell and no lot ever recovers
  (`Risk.SellNeedsPool`, `DriverTheorems.NothingSoldWithoutPool`). That gate is all that keeps its fill handler from
  failing half way: on an account of its own, a recovery sell that completes a lot throws whenever more stock is left
  over than the remaining pool can protect, after balance, lot and budget have moved (`SoakBooks.RecoveryThrows` says
  exactly when, `BelowFloor.RecoveryThrowsBelowFloor` gives an instance).
- **Released reserve cannot be sold.** The soak's comments say that a higher band is funded by releasing reserve into
  the active pool. The risk context takes the larger of the configured floor and the protected amount, so over every
  run, releases included, holdings stay within 1e-9 of the configured floor, or of the starting inventory if that was
  lower (`DeskRuns.SettlementSafety`).
- **A half-landed order is cancelled by the second pass.** The reconciler's comment promises that a submitted order
  that is not yet visible is never cancelled. A partly filled one leaves SUBMITTED in the first pass and is cancelled
  by the next on the same truth (`OrderRecovery.PassConverges` says exactly when, `OrderRecovery.HalfLandedInstance`
  shows one).
- **Repair is a fixed point of detection exactly on consistent snapshots.** A snapshot that lists one asset twice with
  different totals is reported again after its own repair (`Drift.RepairConverges`, `Drift.InconsistentInstance`).
- **The driver gives a spike's reserve back; an operator may not.** A comment promises that demotion re-protects what
  promotion released. In driver runs from a covered start it holds to the letter: the pool always holds all that is out,
  no more is out than one reload per rung above the first, and on the first rung nothing is
  (`DriverTheorems.ReserveComesBack`, `BandRuns.DriverSpikesGiveBack`). Over runs of arbitrary orders the bound grows by
  the surplus earned meanwhile, what the start fell short of the floor and 1e-9 (`BandRuns.SpikesGiveBack`), and a
  demotion leaves nothing out if and only if a reload is enough and the balance covers floor and surplus
  (`BandRuns.AllGoesBack`). The gate guards the floor but not the surplus while reserve is out: a run of six steps sells
  what was released and leaves reserve out as large as the surplus (`SpentReserve.SurplusStaysOut`).
- **Cash is safe up to 100 USDT, and no further.** The gate lets a request exceed its caps by 1e-9 ZIG, the account
  tolerates 1e-7 USDT. So cash falls short of open buys by at most 1e-9 times the highest price with its fee, a bound
  that a resting buy attains; filled on arrival, the same buy is refused by the account if and only if that price is
  above 100 (`DearPrices.RestingAttainsBound`, `DearPrices.PaidUpToHundred`). In driver runs whose spreads pay the fees the price
  does not matter while the dust of past rebuys costs no more than 1e-7 (`AnyPrice.MarketNeverThrowsAtAnyPrice`).
- **The profit identity has an exact domain.** It fails precisely when a sell takes more than a positive holding, by
  the cost of the missing units (`Treasury.CostLedger`, `Treasury.ProfitIdentity`).
- **A zero entry cost splits the ledgers.** Seeding without a cost leaves the fill ledger short of the opening
  position, so derived holdings and balances agree if and only if there was a cost (`PaperAccount.SeedAgrees`).

## Configuration the model relies on

`Soaks.CfgOk` collects what the configuration schema and the shared wiring give: percentages between zero and one,
a taker fee below 100 %, positive bucket widths, a minimum order above the 1e-6 tolerance, and one reserve floor and
one fee rate for account and risk engine. Starting balances are nonnegative, and may lie below the floor. Theorems name
anything further they need (nonnegative distances, prices with fee of at most 100 USDT for the cash tolerance of 1e-7).

## Model

| member | source | states |
|---|---|---|
| HarvestCycles.AllocationConserves | backend/src/paper-soak/cycle-tracker.ts:120-149 | a harvest buy moves exactly the placed quantity from unrecovered to rebought, splits its cost and fee exactly over the cycles, and leaves more than dust over only when every eligible cycle is whole |
| HarvestCycles.AllocationIsFifo | backend/src/paper-soak/cycle-tracker.ts:122-149 | a cycle receives quantity only if every older eligible cycle ends the buy fully recovered |
| HarvestCycles.AfterBuyFacts | backend/src/paper-soak/cycle-tracker.ts:127-149 | cycle by cycle, sold = rebought + unrecovered is kept and each received share is nothing or a non-dust part of what an eligible cycle owed |
| HarvestCycles.AllocationLowersReserve | backend/src/paper-soak/cycle-tracker.ts:155-159 | a buy at or below the targets it serves lowers the rebuy reserve by at least the price of every allocated unit |
| HarvestCycles.BuyKeepsPriced | backend/src/paper-soak/cycle-tracker.ts:127-147 | a buy at or below the targets it serves keeps every cycle bought back at or below its target, with both fees on its books |
| HarvestCycles.CompletedProfit | backend/src/paper-soak/cycle-tracker.ts:140-143 | a completed cycle earned at least gross times (d - 2f + df): fees come off both legs |
| HarvestCycles.ProfitFloor | backend/src/paper-soak/cycle-tracker.ts:140-143 | a completed cycle earned at least gross times (distance - 2 fees) |
| HarvestCycles.OldestFirst | backend/src/paper-soak/cycle-tracker.ts:172-176 | on a book in opening order the sort by opening time changes nothing, so first-in-first-out is book order |
| HarvestCycles.CycleTracker.OnSell | backend/src/paper-soak/cycle-tracker.ts:77-108 | the sell handler appends exactly one new cycle with the specified target |
| HarvestCycles.CycleTracker.OnBuy | backend/src/paper-soak/cycle-tracker.ts:120-149 | the in-place allocation loop computes the specified split of the whole book |
| PriceBuckets.PriceBucketId | backend/src/paper-soak/cycle-tracker.ts:55-57 | the id k satisfies width^k <= price < width^(k+1) |
| PriceBuckets.BucketUnique | backend/src/paper-soak/cycle-tracker.ts:53-57 | no other k satisfies it |
| PriceBuckets.SpacedPricesSplit | backend/src/paper-soak/cycle-tracker.ts:55-57 | prices one width apart lie in different buckets, the higher price in the higher one |
| AccumulationLots.SellConserves | backend/src/accumulation/accumulation-cycle-tracker.ts:47-81 | a recovery sell accounts for every unit: holdings fall by what was attributed, capital tied up falls by exactly the principal reported back |
| AccumulationLots.AimedSell | backend/src/accumulation/accumulation-cycle-tracker.ts:47-81 | a sell aimed at one owing lot, within its holding, moves that lot alone and leaves nothing unattributed |
| AccumulationLots.SaleWithinProceeds | backend/src/accumulation/accumulation-cycle-tracker.ts:47-81 | the principal a sell reports back is never more than it brought in after its fee |
| AccumulationLots.RecoverFacts | backend/src/accumulation/accumulation-cycle-tracker.ts:62-76 | capital credited to a lot is exactly the capital it no longer ties up, never more than it needs |
| AccumulationLots.EveryDueLotIsOffered | backend/src/accumulation/accumulation-cycle-tracker.ts:84-93 | exactly the owing lots whose target the bid has reached and whose principal is still short are offered, oldest first; on lots in order that is book order |
| AccumulationLots.SellingTheNeedRecovers | backend/src/accumulation/accumulation-recovery.ts:8-17 | a sell of at least the required quantity, at the net bid it was computed for, completes the lot's recovery |
| AccumulationLots.TargetRecovers | backend/src/accumulation/accumulation-recovery.ts:3-17 | a new lot can win its principal back in one sell at its target if and only if the recovery profit net of the taker fee is at least the share to win back |
| AccumulationLots.AccumulationCycleTracker.OnBuy | backend/src/accumulation/accumulation-cycle-tracker.ts:21-42 | a buy appends exactly one new lot |
| AccumulationLots.AccumulationCycleTracker.OnRecoverySell | backend/src/accumulation/accumulation-cycle-tracker.ts:47-81 | the in-place recovery loop computes the specified sale, the principal reclaimed and whether it throws |
| AccumulationBudget.MaxSpendIsExact | backend/src/accumulation/accumulation-budget.ts:52-60 | a spend is within the allowance if and only if it fits the budget, total and daily caps and leaves floor plus rebuy reserve in cash |
| AccumulationBudget.RecyclingIsNotAllowance | backend/src/accumulation/accumulation-budget.ts:62-76 | lifetime spend = deployed + recycled is kept; recycling restores the pool but never the day |
| AccumulationBudget.Budget.MaxSpendNow | backend/src/accumulation/accumulation-budget.ts:43-60 | the mutable budget rolls its day and then allows the specified spend |
| AccumulationBudget.Budget.RecordSpend | backend/src/accumulation/accumulation-budget.ts:62-67 | recording adds to deployed, lifetime and today, on a rolled day |
| AccumulationBudget.Budget.ReleasePrincipal | backend/src/accumulation/accumulation-budget.ts:71-76 | releasing moves deployed to recycled, never below zero |
| AccumulationBudget.Budget.Snapshot | backend/src/accumulation/accumulation-budget.ts:78-87 | reading the budget rolls its day and reports what remains of budget and day |
| Treasury.Derive | backend/src/treasury/derive.ts:18-82 | the cost-basis loop computes the fold over the fills in time order |
| Treasury.ProfitIdentity | backend/src/treasury/derive.ts:28-63 | realized plus unrealized profit equals value held plus net proceeds less quote spent, if and only if no sell took more than a positive holding |
| Treasury.CostLedger | backend/src/treasury/derive.ts:28-63 | without any condition the identity is off by exactly the cost of units sold but not held |
| Treasury.IngestCollects | backend/src/treasury/engine.ts:49-58 | the deduplicated ledger holds exactly the distinct fills delivered, each once |
| Treasury.DeliveryIndependent | backend/src/treasury/engine.ts:49-68 | with distinct timestamps the derived treasury depends only on the set of distinct fills delivered |
| Treasury.IngestInParts | backend/src/treasury/engine.ts:49-58 | delivering in parts is delivering at once |
| Treasury.TreasuryEngine.IngestBatch | backend/src/treasury/engine.ts:49-58 | the ingest loop appends exactly the unknown fills and reports whether anything changed |
| Treasury.TreasuryEngine.DeriveNow | backend/src/treasury/engine.ts:61-68 | the live derivation is the fold over everything ingested |
| PaperAccount.SeedAgrees | backend/src/paper-soak/virtual-account.ts:95-117 | seeding puts ledger and balances in step if and only if there is nothing to open or a cost to open it with |
| PaperAccount.FillAgrees | backend/src/paper-soak/virtual-account.ts:171-234 | a fill keeps ledger and balances in step if and only if it does not sell more than is held |
| PaperAccount.LedgerFollowsTrades | backend/src/paper-soak/virtual-account.ts:171-249 | over any trades in time order, booked or refused, the fill ledger agrees with the running balances at the end if and only if no trade ever left the holdings negative |
| PaperAccount.DerivedAndPublishedAgree | backend/src/paper-soak/virtual-account.ts:129-136 | while in step, the derived treasury and the published risk entry both show the running balances |
| PaperAccount.FillKeepsDayBooks | backend/src/paper-soak/virtual-account.ts:187-190 | the daily counters are the day's fills, and no other day changes |
| PaperAccount.ReserveStaysSound | backend/src/paper-soak/virtual-account.ts:48-80 | released reserve never exceeds floor plus surplus; a reload never protects ZIG the account no longer holds |
| PaperAccount.ReleaseThenReprotect | backend/src/paper-soak/virtual-account.ts:56-75 | giving back what was just released undoes it if and only if nothing was released or the reserve was fully held |
| VirtualAccounts.VirtualAccount.Apply | backend/src/paper-soak/virtual-account.ts:171-234 | the mutable account settles the fill, moves its cycle book and publishes, or refuses before anything moves |
| VirtualAccounts.VirtualAccount.SeedPosition | backend/src/paper-soak/virtual-account.ts:95-117 | seeding opens the ledger, fixes the opening pool and publishes |
| VirtualAccounts.VirtualAccount.Release | backend/src/paper-soak/virtual-account.ts:56-64 | releases the specified part of the reserve and keeps the risk entry current |
| VirtualAccounts.VirtualAccount.Reprotect | backend/src/paper-soak/virtual-account.ts:68-75 | restores the specified part and keeps the risk entry current |
| VirtualAccounts.VirtualAccount.Protect | backend/src/paper-soak/virtual-account.ts:76-80 | protects surplus or throws without moving anything |
| Orders.TerminalIsForever | backend/src/execution-engine/registry.ts:88-169 | no sequence of events takes an order out of a terminal state, adds an order or changes what was ordered |
| Orders.FilledIsDistinctSum | backend/src/execution-engine/registry.ts:135-150 | under any repetition and interleaving the filled quantity is min(quantity, sum of distinct fills) |
| Orders.DeliveryOrderIrrelevant | backend/src/execution-engine/registry.ts:135-150 | two deliveries of the same set of reports, in any order with any repetition, fill every order alike |
| Orders.OrderRegistry.Register | backend/src/execution-engine/registry.ts:37-61 | registers exactly the requested order, replacing one of the same id |
| Orders.OrderRegistry.MoveTo | backend/src/execution-engine/registry.ts:88-104 | a validated transition happens or the order is left alone, and the answer says which |
| Orders.OrderRegistry.Reconcile | backend/src/execution-engine/registry.ts:109-121 | exchange truth sets quantity and status outright |
| Orders.OrderRegistry.OnEvent | backend/src/execution-engine/registry.ts:124-169 | applies one event and announces a fill exactly on its first delivery |
| OrderRecovery.PassConverges | backend/src/execution-engine/order-reconciler.ts:57-85 | two passes reach a fixed point, one does if and only if no order is half landed; filled quantities are final after one; no pass cancels a submitted order, and a half-landed one is cancelled by the second |
| OrderRecovery.HalfLandedInstance | backend/src/execution-engine/order-reconciler.ts:70-84 | an order for 10 with 4 filled and nothing listed stays open after one pass and is cancelled by the next |
| OrderRecovery.RegistryConverges | backend/src/execution-engine/order-reconciler.ts:34-88 | the same for a whole registry |
| OrderRecovery.SettledAgreesWithExchange | backend/src/execution-engine/order-reconciler.ts:65-85 | after convergence an order is filled, open or over exactly as the exchange lists and fills say |
| OrderRecovery.RepeatedRecoveryIsSilent | backend/src/execution-engine/order-reconciler.ts:60-64 | a second pass tells the treasury nothing new |
| OrderRecovery.OrderReconciler.Reconcile | backend/src/execution-engine/order-reconciler.ts:34-88 | the nested loops compute exactly one pass and emit exactly its fills |
| OrderRecovery.OrderReconciler.ReconcileExchange | backend/src/execution-engine/order-reconciler.ts:41-87 | the inner loop takes exactly the exchange's active orders to their recovered state |
| Risk.ApprovalWithinCaps | backend/src/decision-gate/sizing/sizing-engine.ts:11-77 | an approval respects every cap up to 1e-9, is no dust and no more than asked, and passed every gate and policy |
| Risk.ApprovalWithinMarket | backend/src/decision-gate/sizing/sizing-engine.ts:15-33 | an approval takes no more than its share of the visible book, and a sell no more than its share of the pool |
| Risk.ApprovalShrinks | backend/src/decision-gate/sizing/sizing-engine.ts:42-43 | mode and volatility shrink an approval by their factors |
| Risk.WholeApproval | backend/src/decision-gate/sizing/sizing-engine.ts:45-77 | a request is approved whole if and only if it passes gates, policies and the volatility stop, is no dust and lies within every cap up to the size tolerance |
| Risk.ApprovedSell | backend/src/decision-gate/risk-context.ts:19-52 | an approved paper sell leaves the larger floor covered next to every open sell, and fits the day |
| Risk.SellNeedsPool | backend/src/decision-gate/sizing/sizing-engine.ts:22-39 | a paper sell is approved only when the run opened with a pool above the floor: the daily allowance is a share of it |
| Risk.ApprovedBuy | backend/src/decision-gate/risk-context.ts:24-52 | an approved paper buy can be paid, fee included, next to every open buy, and fits the day |
| Risk.PermissivenessIsRecorded | backend/src/decision-gate/risk-engine.ts:24-128 | an approval in paper mode that records only the reconciliation relaxation would be an approval in NORMAL, for at least as much |
| Risk.PaperRunIsDressRehearsal | backend/src/decision-gate/risk-engine.ts:24-47 | the same stated at the gate, over one state without a paper ledger and with reconciliation at MATCH |
| Risk.BindingNames | backend/src/decision-gate/sizing/sizing-engine.ts:45-70 | the reasons of a decision are exactly the caps below the request |
| Risk.ComputeAverageCost | backend/src/decision-gate/risk-context.ts:91-110 | the risk engine's average-cost loop computes its fold |
| Risk.AverageCostsAgree | backend/src/decision-gate/risk-context.ts:91-110 | risk engine and treasury agree on what is held; the risk engine's cost is never above the treasury's and equal to it without fees |
| Desks.PruneUnobservable | backend/src/execution-engine/pipeline.ts:172-179 | sweeping the idempotency buffer changes no duplicate check |
| Desks.SlippageOnlyDelays | backend/src/execution-engine/paper-engine.ts:93-107 | whatever fills, the market was at its limit or through it |
| Desks.GuardIsStrict | backend/src/paper-soak/pending-policy.ts:6-23 | the guard lets nothing fill outside paper mode, off market, against the zone, or once stale |
| Desks.GuardedSellFits | backend/src/paper-soak/pending-policy.ts:10-11 | a harvest sell that passes the guard is never refused for the reserve |
| DeskSteps.SubmitCases | backend/src/execution-engine/pipeline.ts:78-168 | every submission ends in one of five ways; only an approved, non-crossing request passes the gate, for exactly the approved quantity, and is reported accepted exactly when it rests or its fill was handled |
| DeskSteps.TickCases | backend/src/execution-engine/paper-engine.ts:77-85 | a market update leaves, cancels or fills each resting order, and fills only past the guard |
| DeskRuns.SettlementSafety | backend/src/decision-gate/risk-context.ts:18-38 | over all runs of submissions, fills, cancels, live events, recovery passes and reserve releases: ZIG less open sells stays at or above the floor - 1e-9, and cash less fee-inclusive open buys stays at or above -1e-9 times the highest price with fee |
| DeskRuns.DailyLimits | backend/src/decision-gate/sizing/sizing-engine.ts:22-39 | no UTC day's sells or fee-inclusive buys ever exceed its allowance, and today's with everything open fit today's, across midnight |
| DeskRuns.EngineAgrees | backend/src/execution-engine/paper-engine.ts:50-85 | the resting map is exactly the set of non-terminal paper orders; each order has at most one engine fill, whole, and only if it ends filled |
| DeskRuns.PipelineSafety | backend/src/execution-engine/pipeline.ts:78-179 | no two open orders on a market cross, open orders stay within the limit, ids are unique, each reaches an adapter at most once, submitted ids are registry ids |
| FillTraces.FillingsLead | backend/src/execution-engine/paper-engine.ts:50-85 | the fills a step hands to the soak, booked one after the other up to an exception, are all that moves the soak in it |
| FillTraces.CashNeverOverdrawn | backend/src/paper-soak/virtual-account.ts:183-185 | over every run no fill of any step meets an account without the cash for it: not at arrival, not after resting, not as one of several in a market update (price with fee at most 100) |
| DearPrices.PaidUpToHundred | backend/src/decision-gate/sizing/sizing-engine.ts:41-61 | with cash for 1000 ZIG but for 1e-9 of them, at any price and fee, the gate lets a buy of 1000 through whole, and when it fills the account has the cash if and only if the price with its fee is at most 100 |
| DearPrices.RestingAttainsBound | backend/src/decision-gate/sizing/sizing-engine.ts:41-61 | when that order rests, cash less open buys is exactly -1e-9 times the price with its fee |
| DeskRuns.OverIsOver | backend/src/execution-engine/lifecycle.ts:10-29 | over whole runs, recovery passes included, no order leaves a terminal state, disappears or changes what was ordered |
| DeskRuns.RunSafe | backend/src/execution-engine/pipeline.ts:78-198 | the combined invariant holds after every run from any desk that satisfies it |
| SoakBooks.ActiveCoversLots | backend/src/paper-soak/harvest-driver.ts:156-158 | the active pool covers the stock of unrecovered lots if and only if inventory and released reserve together cover floor and lots, or there is no such stock |
| SoakBooks.SellCustody | backend/src/paper-soak/index.ts:416-433 | a driver's harvest sell never throws and never touches lot stock, whatever reserve is out |
| SoakBooks.RecoveryCustody | backend/src/paper-soak/index.ts:416-433 | a driver's recovery sell never throws, attribution and surplus transfer included, and keeps surplus and lots in step |
| SoakBooks.AccBuyCustody | backend/src/accumulation/accumulation-engine.ts:149-164 | an accumulation buy adds to the lots exactly what it adds to the balance |
| SoakBooks.RecoveryThrows | backend/src/paper-soak/index.ts:416-433 | on any account a recovery sell throws if and only if it exceeds the active pool or completes its lot with more surplus than the remaining pool can protect; then account, lots and budget have moved |
| SoakBooks.LoneLotThrows | backend/src/paper-soak/virtual-account.ts:76-80 | with one owing lot and nothing else under a floor that is not all released, a sell that completes the lot with stock left over throws |
| BelowFloor.FirstLotCovered | backend/src/paper-soak/index.ts:416-433 | the first lot of a soak is covered by its active pool if and only if the soak was started with its floor covered |
| BelowFloor.RecoveryThrowsBelowFloor | backend/src/paper-soak/index.ts:416-433 | no ZIG under a floor of 1000, 2000 bought at 1 and 800 sold at 2.5 within the active pool: the handler throws with 1200 ZIG of surplus unprotected; the order is none the risk engine approves |
| PricedBooks.RebuyServesDue | backend/src/paper-soak/harvest-driver.ts:130-139 | a driver's rebuy serves exactly cycles whose target is at or above its price and leaves at most dust without a cycle |
| Solvency.SellFunds | backend/src/paper-soak/cycle-tracker.ts:95-103 | a sell pays for its whole rebuy with fees on both legs if and only if d(1+f) >= 2f |
| DriverBooks.DryPowderBuy | backend/src/accumulation/accumulation-budget.ts:52-60 | in the books of driver runs a buy that spends all dry powder leaves every cycle affordable with fees, though the reserve leaves them out: it occurs only where the floor pays those fees, up to dust |
| ThinSpread.SpreadIsExact | backend/src/paper-soak/rebuy-distance.ts:28-36 | for a soak without cash the spread condition holds if and only if the first sell in each regime leaves it able to buy back |
| ThinSpread.RunEndsShort | backend/src/paper-soak/cycle-tracker.ts:95-108 | a run that violates it: with a fee and a distance of 10 basis points one driver tick sells 1000 ZIG and leaves 999 USDT where buying back takes 999.999 |
| Solvency.AccBuyLeavesReserve | backend/src/accumulation/accumulation-budget.ts:57-60 | right after an accumulation buy cash covers floor plus reserve |
| BudgetBooks.RecoveryBudgeted | backend/src/accumulation/accumulation-engine.ts:156-163 | a recovery gives back exactly what its lot stops tying up, so the clamp of `release` never fires |
| BudgetBooks.AccBuyBudgeted | backend/src/accumulation/accumulation-budget.ts:52-67 | an accumulation buy keeps budget and lots equal and every cap, even when it fills a day later |
| SellLadder.LadderIsShort | backend/src/paper-soak/harvest-driver.ts:160-178 | n sells still out between low and high satisfy low * width^(n-1) <= high |
| DriverBooks.StartedBooks | backend/src/paper-soak/virtual-account.ts:95-117 | the books of every soak without debt start out in order, above the floor or below |
| DriverBooks.FillKeepsBooks | backend/src/paper-soak/index.ts:416-433 | a fill of whatever the driver left pending keeps every ledger promise and throws exactly when cash is short |
| DriverBooks.FillKeepsSolid | backend/src/paper-soak/index.ts:416-433 | a pending fill in a known regime keeps cash plus deployed capital at or above opening cash plus the fee-inclusive rebuy reserve, up to dust, when the spread of every regime pays both fees |
| DriverBooks.SolidBooksFunded | backend/src/accumulation/accumulation-budget.ts:52-60 | as no more than the opening cash is ever deployed, every open cycle is then affordable from cash alone |
| DriverRuns.ChosenIsAllowed | backend/src/paper-soak/harvest-driver.ts:127-187 | whatever a tick decides to send, sized down or not, is something the books allow |
| DriverRuns.TickDriven | backend/src/paper-soak/harvest-driver.ts:84-197 | a driver tick keeps the whole-run invariant |
| DriverTheorems.OneInFlight | backend/src/paper-soak/harvest-driver.ts:101-112 | in driver runs at most one order is open, and it is the only one that can rest |
| DriverTheorems.LotCustody | backend/src/paper-soak/harvest-driver.ts:156-181 | in driver runs from any start, with band reloads, protected surplus is the lots' surplus; inventory above the floor covers every lot if and only if the start covered the floor; the active pool covers the unrecovered ones if and only if start and released reserve cover the floor or no lot was ever bought |
| DriverTheorems.ReserveComesBack | backend/src/paper-soak/virtual-account.ts:56-75 | in driver runs from a covered start the balance covers floor and surplus and the pool holds all reserve that is out, so a demotion restores whatever it asks for and one by at least what is out leaves nothing out |
| DriverTheorems.NothingSoldWithoutPool | backend/src/decision-gate/sizing/sizing-engine.ts:22-39 | a driver run started with nothing above the floor never sells: no cycle, every lot untouched, holdings are the start plus the lots |
| DriverTheorems.LedgerInStep | backend/src/paper-soak/virtual-account.ts:171-249 | in driver runs balances equal the derived treasury and start plus flows, and the risk entry shows both |
| DriverTheorems.CompletedCyclesEarn | backend/src/paper-soak/cycle-tracker.ts:120-149 | in driver runs every completed cycle earned at least distance less two fees on what it sold |
| DriverTheorems.BudgetAgreesWithLots | backend/src/accumulation/accumulation-budget.ts:52-76 | in driver runs deployed equals what lots tie up, within both caps, and each day's spend within the daily cap |
| DriverTheorems.SellsAreSpaced | backend/src/paper-soak/harvest-driver.ts:160-178 | in driver runs two cycles still out are a width apart, in distinct buckets, the younger higher |
| DriverTheorems.DeploymentIsCapped | backend/src/paper-soak/harvest-driver.ts:176-183 | in driver runs unrecovered ZIG stays within its share of the opening pool and the ladder within its logarithm |
| DriverTheorems.RebuysStayFunded | backend/src/accumulation/accumulation-budget.ts:57-60 | in driver runs cash plus 1e-9 ZIG of dust per rebuy buys every open cycle back with fees, whatever the floor, given only that the least distance of a regime pays both fees; with deployed capital added, the opening cash is there besides |
| DriverTheorems.BuysLeaveTheReserve | backend/src/accumulation/accumulation-engine.ts:104-147 | in driver runs cash covers floor plus reserve right after every accumulation buy |
| DriverTheorems.MarketNeverThrows | backend/src/execution-engine/paper-engine.ts:77-85 | in driver runs, from any start, no market update meets an exception (prices with fee at most 100) |
| DriverTheorems.TickLeads | backend/src/paper-soak/harvest-driver.ts:84-197 | the fills of a tick and the budget's clock are all that moves the soak in it |
| DriverTheorems.ArrivalNeverThrows | backend/src/execution-engine/pipeline.ts:148-167 | in driver runs, from any start, no tick sends an order whose fill at arrival meets an exception (prices with fee at most 100) |
| AnyPrice.MarketNeverThrowsAtAnyPrice | backend/src/execution-engine/paper-engine.ts:77-85 | in driver runs whose spreads pay both fees no market update meets an exception at any price, while no target is negative and the dust of past rebuys costs at most 1e-7 |
| AnyPrice.ArrivalNeverThrowsAtAnyPrice | backend/src/execution-engine/pipeline.ts:148-167 | nor does a fill at arrival of an order that a tick sends |
| DriverTiming.ClosesBeforeOpening | backend/src/paper-soak/harvest-driver.ts:127-192 | a tick never sells while a cycle it may rebuy is due, and opens a lot only with nothing to close and nothing to harvest |
| DriverTiming.AcceptedOrdersCoolDown | backend/src/paper-soak/harvest-driver.ts:218-221 | over whole runs two accepted harvest sells, and two accepted accumulation buys, are at least their cooldown apart |
| DriverTiming.RebuysAreSpaced | backend/src/paper-soak/harvest-driver.ts:131-137 | over whole runs two accepted rebuys in one price bucket are at least the buy cooldown apart |
| DriverTiming.StaleOrderIsCleared | backend/src/paper-soak/harvest-driver.ts:98-112 | the first tick on a fresh quote clears an order that has gone stale |
| PaperTrading.AccumulationEngine.OnPaperFill | backend/src/accumulation/accumulation-engine.ts:149-164 | the mutable engine moves lots and budget as specified, the day roll of the closing snapshot included |
| PaperTrading.AccumulationEngine.AttemptRecoverySell | backend/src/accumulation/accumulation-engine.ts:79-102 | sends exactly the specified recovery sell, or nothing |
| PaperTrading.AccumulationEngine.MayBuy | backend/src/accumulation/accumulation-engine.ts:105-114 | the guard clauses amount to the specified condition |
| PaperTrading.AccumulationEngine.SizeTranche | backend/src/accumulation/accumulation-engine.ts:116-130 | asks the budget, rolling its day, and fits the tranche to the book |
| PaperTrading.AccumulationEngine.AttemptBuy | backend/src/accumulation/accumulation-engine.ts:104-147 | rolls the budget, sends exactly the specified buy and arms its locks only when it was accepted |
| PaperTrading.PaperSoak.OnPaperFill | backend/src/paper-soak/index.ts:416-435 | moves account, lots, budget and surplus in sequence as specified, exceptions included |
| PaperTrading.PaperEngine.PlaceOrder | backend/src/execution-engine/paper-engine.ts:50-62 | refuses, fills at once or rests an order as specified |
| PaperTrading.PaperEngine.CancelResting | backend/src/execution-engine/paper-engine.ts:64-74 | cancels a resting order and only that |
| PaperTrading.PaperEngine.Fill | backend/src/execution-engine/paper-engine.ts:109-133 | reports the whole remainder at the limit price, registry first, soak on first delivery |
| PaperTrading.PaperEngine.Tick | backend/src/execution-engine/paper-engine.ts:77-85 | the loop over a snapshot of resting orders computes the specified market update |
| PaperTrading.ExecutionPipeline.Submit | backend/src/execution-engine/pipeline.ts:78-168 | the mutable pipeline computes the specified submission |
| PaperTrading.ExecutionPipeline.PruneSubmitted | backend/src/execution-engine/pipeline.ts:174-179 | the sweep removes exactly the ids the registry knows, once there are enough |
| PaperTrading.ExecutionPipeline.Cancel | backend/src/execution-engine/pipeline.ts:181-197 | asks for a cancel as specified |
| PaperTrading.HarvestDriver.Tick | backend/src/paper-soak/harvest-driver.ts:84-197 | the mutable driver computes the specified tick, and nothing while another tick is evaluating |
| PaperTrading.HarvestDriver.Evaluate | backend/src/paper-soak/harvest-driver.ts:114-192 | performs the specified one action |
| PaperTrading.HarvestDriver.CancelStaleOrders | backend/src/paper-soak/harvest-driver.ts:101-112 | the loop cancels exactly the orders past their age |
| PaperTrading.HarvestDriver.SubmitHarvest | backend/src/paper-soak/harvest-driver.ts:199-226 | sends the order, then arms the cooldown or the backoff of its side |
| PaperTrading.HarvestDriver.MaybeClearBackoff | backend/src/paper-soak/harvest-driver.ts:228-235 | drops a backoff exactly when the price has moved a bucket width |
| Drift.Detect | backend/src/reconciliation/drift-detector.ts:35-166 | the six detector loops report exactly the specified issues |
| Drift.DetectBalances | backend/src/reconciliation/drift-detector.ts:53-90 | the balance loops report exactly the impossible and the mismatched balances |
| Drift.DetectUnlisted | backend/src/reconciliation/drift-detector.ts:92-131 | one loop reports exactly the orders of one side that the other does not list |
| Drift.DetectFills | backend/src/reconciliation/drift-detector.ts:133-166 | the loops report exactly the missing fills and the repeated ids |
| Drift.Classify | packages/shared-types/src/reconciliation.ts:70-81 | the loop computes the worst status and halts exactly on critical drift |
| Drift.ClassifyIsWorst | packages/shared-types/src/reconciliation.ts:48-81 | the status is that of some issue and at least as severe as every one |
| Drift.SilentIff | backend/src/reconciliation/drift-detector.ts:35-51 | nothing is reported if and only if balances, orders and fills agree and no fill occurs twice |
| Drift.RepairConverges | backend/src/reconciliation/engine.ts:106-121 | after repairing a hard drift, detection on the same snapshot is silent if and only if the snapshot lists its assets consistently; the old history is a prefix of the new and no fill occurs twice |
| Drift.InconsistentInstance | backend/src/reconciliation/drift-detector.ts:68-90 | a snapshot with two totals for one asset is a hard drift before its repair and still reported after it |
| Drift.DistinctAssetsConsistent | backend/src/reconciliation/drift-detector.ts:68-90 | a snapshot with distinct assets is consistent |
| Drift.SecondCycleIsIdle | backend/src/reconciliation/engine.ts:84-123 | a second cycle on the same snapshot changes nothing |
| Drift.AppendKeepsHistory | backend/src/state-engine/reducer.ts:31-61 | appending delivered fills keeps the old history as a prefix, records every id and repeats none |
| Drift.ReconciliationEngine.Reconcile | backend/src/reconciliation/engine.ts:84-140 | the dispatch loop computes exactly one cycle |
| Bands.BuildLadder | backend/src/zone-manager/band-ladder.ts:55-66 | the loop builds every rung in closed form |
| Bands.RungsAreLadder | backend/src/zone-manager/band-ladder.ts:49-66 | rungs in closed form are contiguous and positive, the first two share the base span and each later one widens by the growth |
| Bands.MigrationConfirmed | backend/src/zone-manager/band-ladder.ts:86-124 | every change of rung ends a span of at least the dwell time in which each priced evaluation was healthy and beyond the rung |
| Bands.ChangesAreSpaced | backend/src/zone-manager/zone-manager.ts:72-111 | two changes of rung are at least the dwell time apart |
| Bands.LevelsMoveByOne | backend/src/zone-manager/band-ladder.ts:93-124 | levels stay in the ladder and move one rung at a time |
| Bands.NoPriceFlaps | backend/src/zone-manager/band-ladder.ts:34-53 | adjacent rungs share an edge, and no price both promotes a rung and demotes the next |
| Zones.ZoneManager.Evaluate | backend/src/zone-manager/zone-manager.ts:72-132 | the mutable manager migrates its ladder, funds or defunds the band on the account and decides the zone as specified, with and without a ladder |
| Zones.OpensInsideBand | backend/src/zone-manager/zone-policy.ts:20-81 | accumulation, and with a ladder harvest sells too, are allowed only between Zone A floor and top of the confirmed rung's band |
| BandRuns.SpikesGiveBack | backend/src/paper-soak/index.ts:138-154 | over every run of a trading desk whose bands a ladder moves, released reserve is at most one reload per rung above the first plus the surplus earned, the shortfall at the start and 1e-9 |
| BandRuns.PoolHoldsMost | backend/src/paper-soak/virtual-account.ts:48-80 | after every run the active pool holds the released reserve but for surplus, shortfall at the start and 1e-9; released reserve and surplus stay sound |
| BandRuns.PoolHoldsReserve | backend/src/paper-soak/virtual-account.ts:48-55 | while reserve is out the pool holds all of it if and only if the balance covers floor and surplus |
| BandRuns.AllGoesBack | backend/src/paper-soak/virtual-account.ts:68-75 | after every run one more demotion leaves nothing out if and only if a reload is enough and the balance covers floor and surplus |
| BandRuns.DriverSpikesGiveBack | backend/src/paper-soak/index.ts:138-154 | over every driver run from a covered start whose bands a ladder moves, released reserve is at most one reload per rung above the first, and nothing on the first rung |
| SpentReserve.SurplusStaysOut | backend/src/paper-soak/virtual-account.ts:56-75 | a run through the gate where the general bound is attained: floor 1000, a lot leaves 500 of surplus, 600 are released, two days' sells reach the floor, and the demotion leaves 500 out; it takes orders other than the driver's |

## Left out

- Floating-point rounding: all arithmetic is exact; the code's tolerances are kept as they are.
- PriceBuckets.PriceBucketId: given by integer powers; the rounding of the logarithm at a bucket's edge is not modelled.
- Promises and interleaving: one driver tick, submission, market update, cancel or reconcile pass is one atomic step.
- Zones.ZoneManager.Evaluate: the zone decision's texts, severity, band edges and change notice are left out, as is the
  catch that drops the decision when an input provider throws.
- A step's environment carries the zone's permissions and aggression instead of a zone manager; the evaluation that the
  driver and the fill guard trigger, with its band hooks, is a step of its own before theirs.
- DeskRuns.SettlementSafety: starts from an empty registry; orders hydrated from a store are covered by
  `DeskRuns.RunSafe` when they satisfy its invariant.
- OrderRecovery.PassConverges: fetched truth is a parameter; the order of REST calls and their failures are not modelled.
- Drift.ReconciliationEngine.Reconcile: persistence of the result and logging are left out.
- Fields that nothing modelled reads back: exchange order ids, requested quantity, tif and source of an order, buy fill
  ids, average rebuy price, update times, and the texts of reasons, issues and reports.
- Fill ids are constructors instead of formatted strings; the formats never clash.
- The exchange clients, market ingestion, real adapters, mode controller, notifier, reporter, HTTP API, authentication,
  database stores and the front end; a live adapter is an answer and later events.
- Starting and stopping a soak: a run begins with a seeded account and no open order; the cancel of an earlier run's paper
  orders at start is left out.
- The test hook that forces a partial paper fill, and summary metrics of the trackers.
- Non-finite numbers: prices and quantities are reals; a price of zero and a negative one have buckets of their own.
