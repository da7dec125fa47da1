/**
 * The risk engine: context, hard gates, policies, volatility and sizing (backend/src/decision-gate/risk-context.ts,
 * risk-engine.ts, sizing/sizing-engine.ts, regime/volatility-classifier.ts).
 */
module Risk {
  import opened Numeric
  import opened Sums
  import opened Domain
  import opened Orders
  import opened PaperAccount
  import StableSort
  import Treasury

  const STALE_MARKET_MS: int := 5_000
  const RECONNECT_WINDOW_MS: int := 300_000

  /** A request within this of its caps is approved whole. */
  const SIZE_TOLERANCE: real := 1e-9

  datatype Market = Market(
    bestBid: Option<real>,
    bestAsk: Option<real>,
    bidLiquidity: real,
    askLiquidity: real,
    spreadBps: real,
    connected: bool,
    inSequence: bool,
    reconnects: seq<int>,
    freshnessMs: int,
    timestamp: int,
    regime: Regime)

  /** What the state engine knows about one exchange. */
  datatype Venue = Venue(
    market: Option<Market>,
    baseTotal: Option<real>,
    quoteAvailable: Option<real>,
    fills: seq<Fill>,
    reconciliation: Option<DriftStatus>)

  datatype RiskConfig = RiskConfig(
    paperFeeBps: real,
    paperSlippageBps: real,
    maxOrderActivePct: real,
    maxDailySellActivePct: real,
    maxDailyBuyUsdtPct: real,
    liquidityParticipationPct: real,
    defensiveSizeMultiplier: real,
    highVolSizeMultiplier: real,
    chaoticSizeMultiplier: real,
    minOrderZig: real,
    maxOpenOrdersPerExchange: nat,
    minSellProfitBps: real,
    maxSpreadBps: real,
    maxReconnectsPer5m: nat,
    reserveFloor: real)

  datatype RiskContext = RiskContext(
    request: Request,
    mode: Mode,
    market: Option<Market>,
    activeInventory: real,
    reserveFloor: real,
    usdtBalance: real,
    averageCost: Option<real>,
    dailySellBaseZig: Option<real>,
    dailyBuyBaseUsdt: Option<real>,
    reconciliation: Option<DriftStatus>,
    connected: bool,
    inSequence: bool,
    reconnects: nat,
    stale: bool,
    openOrdersCount: nat,
    dailySellUsedZig: real,
    dailyBuyUsedUsdt: real,
    bidLiquidityZig: real,
    askLiquidityZig: real)

  // ── Context ──────────────────────────────────────────────────────────────

  /** Inventory an open sell has yet to deliver, and cash an open buy has yet to pay, on one exchange. */
  function ToDeliver(o: Order, ex: Exchange): real {
    if o.exchange == ex && o.side == Sell && IsOpen(o) then Max(Remaining(o), 0.0) else 0.0
  }

  function ToPay(o: Order, ex: Exchange): real {
    if o.exchange == ex && o.side == Buy && IsOpen(o) then Times(Max(Remaining(o), 0.0), o.price) else 0.0
  }

  function SellCommitment(ex: Exchange): Order -> real { (o: Order) => ToDeliver(o, ex) }
  function BuyCommitment(ex: Exchange): Order -> real { (o: Order) => ToPay(o, ex) }

  function OpenCount(orders: seq<Order>, ex: Exchange): nat {
    if orders == [] then 0
    else (if orders[0].exchange == ex && IsOpen(orders[0]) then 1 else 0) + OpenCount(orders[1..], ex)
  }

  function RecentReconnects(times: seq<int>, now: int): nat {
    if times == [] then 0
    else (if times[0] >= now - RECONNECT_WINDOW_MS then 1 else 0) + RecentReconnects(times[1..], now)
  }

  function Stale(m: Market, now: int): bool {
    m.freshnessMs + (if now >= m.timestamp then now - m.timestamp else 0) > STALE_MARKET_MS
  }

  datatype CostState = CostState(qty: real, cost: real)

  function CostStep(s: CostState, f: Fill): CostState {
    if f.side == Buy then CostState(s.qty + f.size, s.cost + Times(f.size, f.price))
    else if s.qty > 0.0 then
      var sold := Min(s.qty, f.size);
      CostState(s.qty - sold, s.cost - Times(Over(s.cost, s.qty), sold))
    else s
  }

  function CostFold(fs: seq<Fill>): CostState {
    if fs == [] then CostState(0.0, 0.0) else CostStep(CostFold(fs[..|fs| - 1]), fs[|fs| - 1])
  }

  function AverageCost(fills: seq<Fill>): Option<real> {
    var s := CostFold(StableSort.Sort(fills, FilledAt));
    if s.qty > 0.0 then Some(Over(s.cost, s.qty)) else None
  }

  lemma CostFoldStep(fs: seq<Fill>, i: nat)
    requires i < |fs|
    ensures CostFold(fs[..i + 1]) == CostStep(CostFold(fs[..i]), fs[i])
  {
    hide CostStep;
    assert fs[..i + 1][..i] == fs[..i];
  }

  method ComputeAverageCost(fills: seq<Fill>) returns (avg: Option<real>)
    ensures avg == AverageCost(fills)
  {
    hide Times, Over, StableSort.Sort, CostFold;
    var ordered := StableSort.Sort(fills, FilledAt);
    var qty, cost := 0.0, 0.0;
    assert CostFold(ordered[..0]) == CostState(0.0, 0.0) by { NothingCosts(ordered[..0]); }
    for i := 0 to |ordered|
      invariant CostState(qty, cost) == CostFold(ordered[..i])
    {
      var f := ordered[i];
      CostFoldStep(ordered, i);
      if f.side == Buy {
        qty, cost := qty + f.size, cost + Times(f.size, f.price);
      } else if qty > 0.0 {
        var sold := Min(qty, f.size);
        var unit := Over(cost, qty);
        qty, cost := qty - sold, cost - Times(unit, sold);
      }
    }
    assert ordered[..|ordered|] == ordered;
    avg := if qty > 0.0 then Some(Over(cost, qty)) else None;
  }

  lemma NothingCosts(fs: seq<Fill>)
    ensures fs == [] ==> CostFold(fs) == CostState(0.0, 0.0)
  {
  }

  // ── Two implementations of average cost ──────────────────────────────────

  /** An exchange fill whose fee, if any, is not taken out of the base asset. */
  predicate QuoteFeed(f: Fill) {
    f.price > 0.0 && f.size > 0.0 && f.fee >= 0.0 && f.feeAsset != FeeInBase
  }

  ghost predicate AllQuoteFeed(fs: seq<Fill>) {
    forall i :: 0 <= i < |fs| ==> QuoteFeed(fs[i])
  }

  ghost predicate NoFees(fs: seq<Fill>) {
    forall i :: 0 <= i < |fs| ==> fs[i].fee == 0.0
  }

  lemma BuyCosts(c: CostState, b: Treasury.Basis, f: Fill)
    requires QuoteFeed(f) && f.side == Buy && b.qty >= 0.0 && c.qty == b.qty && c.cost <= Times(b.qty, b.avgCost)
    ensures var c', b' := CostStep(c, f), Treasury.Step(b, f);
      && c'.qty == b'.qty > 0.0 && c'.cost <= Times(b'.qty, b'.avgCost)
      && (f.fee == 0.0 && c.cost == Times(b.qty, b.avgCost) ==> c'.cost == Times(b'.qty, b'.avgCost))
  {
    hide Times, Over;
    OverTimes(Times(b.qty, b.avgCost) + Treasury.QuoteSpent(f), b.qty + f.size);
    TimesSwap(f.size, f.price);
  }

  lemma SellCosts(c: CostState, b: Treasury.Basis, f: Fill)
    requires QuoteFeed(f) && f.side == Sell && b.qty >= 0.0 && c.qty == b.qty && c.cost <= Times(b.qty, b.avgCost)
    requires b.qty == 0.0 ==> c.cost == 0.0
    ensures var c', b' := CostStep(c, f), Treasury.Step(b, f);
      && c'.qty == b'.qty >= 0.0 && c'.cost <= Times(b'.qty, b'.avgCost) && (c'.qty == 0.0 ==> c'.cost == 0.0)
      && (c.cost == Times(b.qty, b.avgCost) ==> c'.cost == Times(b'.qty, b'.avgCost))
  {
    assert Times(0.0, 0.0) == 0.0 && Times(0.0, Treasury.Step(b, f).avgCost) == 0.0;
    hide Times, Over;
    if b.qty > 0.0 {
      var sold := Min(b.qty, f.size);
      var unit := Over(c.cost, b.qty);
      OverTimes(c.cost, b.qty);
      OverTimes(b.avgCost, b.qty);
      UnitBelow(unit, b.avgCost, b.qty);
      TimesSwap(b.qty, unit);
      SellShare(unit, b.qty, sold);
      TimesMono(unit, b.avgCost, b.qty - sold);
    }
  }

  lemma UnitBelow(unit: real, avg: real, qty: real)
    requires qty > 0.0 && Times(qty, unit) <= Times(qty, avg)
    ensures unit <= avg && (Times(qty, unit) == Times(qty, avg) ==> unit == avg)
  {
    hide Times;
    if unit > avg {
      TimesStrict(avg, unit, qty);
    } else if unit < avg {
      TimesStrict(unit, avg, qty);
    }
  }

  lemma SellShare(unit: real, qty: real, sold: real)
    ensures Times(qty, unit) - Times(unit, sold) == Times(qty - sold, unit)
    ensures sold == qty ==> Times(qty - sold, unit) == 0.0
  {
  }

  lemma {:induction false} CostFoldsAgree(fs: seq<Fill>)
    requires AllQuoteFeed(fs)
    ensures CostFold(fs).qty == Treasury.Fold(fs).qty >= 0.0
    ensures CostFold(fs).cost <= Times(Treasury.Fold(fs).qty, Treasury.Fold(fs).avgCost)
    ensures CostFold(fs).qty == 0.0 ==> CostFold(fs).cost == 0.0
    ensures NoFees(fs) ==> CostFold(fs).cost == Times(Treasury.Fold(fs).qty, Treasury.Fold(fs).avgCost)
  {
    hide CostStep, Treasury.Step, QuoteFeed;
    assert Times(0.0, 0.0) == 0.0;
    if fs != [] {
      hide Times;
      var front, f := fs[..|fs| - 1], fs[|fs| - 1];
      CostFoldsAgree(front);
      assert QuoteFeed(f);
      if f.side == Buy {
        BuyCosts(CostFold(front), Treasury.Fold(front), f);
      } else {
        SellCosts(CostFold(front), Treasury.Fold(front), f);
      }
    }
  }

  /**
   * The risk engine and the treasury compute average cost by different loops. They agree on what is held; the risk
   * engine's cost, which leaves fees out, is never above the treasury's, and equal to it where there are no fees.
   */
  lemma AverageCostsAgree(fills: seq<Fill>, reserveFloor: real)
    requires AllQuoteFeed(StableSort.Sort(fills, FilledAt))
    ensures var d := Treasury.DeriveTreasury(fills, reserveFloor);
      && (AverageCost(fills).Some? <==> d.totalBase > 0.0)
      && (AverageCost(fills).Some? ==> AverageCost(fills).value <= d.avgCost)
      && (AverageCost(fills).Some? && NoFees(StableSort.Sort(fills, FilledAt)) ==>
           AverageCost(fills).value == d.avgCost)
  {
    hide Times, Over;
    var fs := StableSort.Sort(fills, FilledAt);
    CostFoldsAgree(fs);
    var c, b := CostFold(fs), Treasury.Fold(fs);
    if c.qty > 0.0 {
      OverTimes(c.cost, c.qty);
      UnitBelow(Over(c.cost, c.qty), b.avgCost, c.qty);
    }
  }

  function UsedSinceMidnight(side: Side, now: int): Fill -> real {
    (f: Fill) =>
      if f.side == side && UtcDay(f.filledAt) >= UtcDay(now) then
        if side == Sell then f.size else Times(f.size, f.price) + (if f.feeAsset == FeeInQuote then f.fee else 0.0)
      else 0.0
  }

  function PerPrice(liquidity: real, price: Option<real>): real {
    if price.Some? && price.value > 0.0 then Over(liquidity, price.value) else 0.0
  }

  function BuildRiskContext(req: Request, mode: Mode, venue: Venue, ledger: Option<PaperLedger>, orders: seq<Order>,
      cfg: RiskConfig, now: int): RiskContext {
    var paper := if mode == PaperMode then ledger else None;
    var totalBase := if paper.Some? then paper.value.zig else venue.baseTotal.GetOr(0.0);
    var floor := Max(cfg.reserveFloor, if paper.Some? then paper.value.protectedZig else 0.0);
    var committedSells := SumBy(orders, SellCommitment(req.exchange));
    var committedUsdt := SumBy(orders, BuyCommitment(req.exchange));
    var withFee := Times(committedUsdt, 1.0 + Bps(cfg.paperFeeBps));
    var sameDay := paper.Some? && paper.value.day == Some(UtcDay(now));
    var cash := if paper.Some? then paper.value.usdt else venue.quoteAvailable.GetOr(0.0);
    RiskContext(
      req, mode, venue.market,
      Max(totalBase - Min(totalBase, floor) - committedSells, 0.0),
      floor,
      Max(cash - withFee, 0.0),
      if paper.Some? && paper.value.averageCost.Some? then paper.value.averageCost else AverageCost(venue.fills),
      if paper.Some? then Some(paper.value.startingActive) else None,
      if paper.Some? then Some(paper.value.startingUsdt) else None,
      venue.reconciliation,
      venue.market.Some? && venue.market.value.connected,
      venue.market.Some? && venue.market.value.inSequence,
      if venue.market.Some? then RecentReconnects(venue.market.value.reconnects, now) else 0,
      if venue.market.Some? then Stale(venue.market.value, now) else true,
      OpenCount(orders, req.exchange),
      (if paper.Some? then (if sameDay then paper.value.dailySellZig else 0.0)
       else SumBy(venue.fills, UsedSinceMidnight(Sell, now))) + committedSells,
      if paper.Some? then (if sameDay then paper.value.dailyBuyUsdt else 0.0) + withFee
      else SumBy(venue.fills, UsedSinceMidnight(Buy, now)) + committedUsdt,
      if venue.market.Some? then PerPrice(venue.market.value.bidLiquidity, venue.market.value.bestBid) else 0.0,
      if venue.market.Some? then PerPrice(venue.market.value.askLiquidity, venue.market.value.bestAsk) else 0.0)
  }

  // ── Decisions ────────────────────────────────────────────────────────────

  datatype Verdict = Allow | Reduce | Reject | HaltTrading

  datatype RiskReason =
    | MissingRequestId | OnlyLimitOrders | InvalidQuantity | InvalidPrice
    | ModeHalt | ModeReadOnly | MissingMarketState | WebsocketUnhealthy | SequenceUnhealthy | StaleMarketState
    | ExcessiveReconnects | CriticalReconciliationDrift | MissingReconciliationStatus | ReconciliationNotMatched
    | MaxOpenOrders | SpreadTooWide | NoActiveInventory | ReserveFloorNoSafeSize | MissingAverageCost | MinSellProfit
    | NoUsdtBalance | ChaoticVolatility | RiskChecksPassed | BelowMinOrderZig
    | RequestedQty | MaxOrderActivePct | ReserveFloorCap | LiquidityCap | DailySellLimit | UsdtAffordability
      | DailyBuyLimit
    | ModeMultiplier | VolatilityMultiplier

  /** Gates that paper mode skips; each skip is recorded on the decision. */
  datatype Relaxation = SkippedReconciliationGate | SkippedMissingAverageCost | SkippedMinSellProfit

  datatype Decision = Decision(verdict: Verdict, requestedQty: real, approvedQty: real, reasons: seq<RiskReason>,
    relaxations: seq<Relaxation>)

  function Rejected(qty: real, reasons: seq<RiskReason>, relaxations: seq<Relaxation>): Decision {
    Decision(Reject, qty, 0.0, reasons, relaxations)
  }

  function Halted(qty: real, reason: RiskReason): Decision {
    Decision(HaltTrading, qty, 0.0, [reason], [])
  }

  function Malformed(r: Request): seq<RiskReason> {
    (if r.requestId == "" then [MissingRequestId] else [])
    + (if !r.isLimit then [OnlyLimitOrders] else [])
    + (if r.quantity <= 0.0 then [InvalidQuantity] else [])
    + (if r.price <= 0.0 then [InvalidPrice] else [])
  }

  /** The first hard gate that refuses, if any. */
  function HardGate(c: RiskContext, cfg: RiskConfig): (r: Option<Decision>)
    ensures r.Some? ==>
      var halts := r.value.reasons == [ExcessiveReconnects] || r.value.reasons == [CriticalReconciliationDrift];
      r.value.verdict == if halts then HaltTrading else Reject
  {
    var qty := c.request.quantity;
    if c.mode == Mode.Halt then Some(Rejected(qty, [ModeHalt], []))
    else if c.mode == ReadOnly then Some(Rejected(qty, [ModeReadOnly], []))
    else if c.market.None? then Some(Rejected(qty, [MissingMarketState], []))
    else if !c.connected then Some(Rejected(qty, [WebsocketUnhealthy], []))
    else if !c.inSequence then Some(Rejected(qty, [SequenceUnhealthy], []))
    else if c.stale then Some(Rejected(qty, [StaleMarketState], []))
    else if c.reconnects > cfg.maxReconnectsPer5m then Some(Halted(qty, ExcessiveReconnects))
    else if c.reconciliation == Some(CriticalDrift) then Some(Halted(qty, CriticalReconciliationDrift))
    else if c.mode == PaperMode then None
    else if c.reconciliation.None? then Some(Rejected(qty, [MissingReconciliationStatus], []))
    else if c.reconciliation != Some(Match) then Some(Rejected(qty, [ReconciliationNotMatched], []))
    else None
  }

  /** When each gate refuses, and the place at which it is asked. */
  predicate GateRefuses(gate: RiskReason, c: RiskContext, cfg: RiskConfig) {
    match gate
    case ModeHalt => c.mode == Mode.Halt
    case ModeReadOnly => c.mode == ReadOnly
    case MissingMarketState => c.market.None?
    case WebsocketUnhealthy => !c.connected
    case SequenceUnhealthy => !c.inSequence
    case StaleMarketState => c.stale
    case ExcessiveReconnects => c.reconnects > cfg.maxReconnectsPer5m
    case CriticalReconciliationDrift => c.reconciliation == Some(CriticalDrift)
    case MissingReconciliationStatus => c.mode != PaperMode && c.reconciliation.None?
    case ReconciliationNotMatched => c.mode != PaperMode && c.reconciliation != Some(Match)
    case _ => false
  }

  function GateRank(gate: RiskReason): nat {
    match gate
    case ModeHalt => 0
    case ModeReadOnly => 1
    case MissingMarketState => 2
    case WebsocketUnhealthy => 3
    case SequenceUnhealthy => 4
    case StaleMarketState => 5
    case ExcessiveReconnects => 6
    case CriticalReconciliationDrift => 7
    case MissingReconciliationStatus => 8
    case _ => 9
  }

  /**
   * A request passes exactly when no gate refuses it. Otherwise the first of those that do decides, with nothing
   * approved; trading halts on reconnects and on critical drift only.
   */
  lemma FirstGateDecides(c: RiskContext, cfg: RiskConfig)
    ensures HardGate(c, cfg) == None <==> forall g :: !GateRefuses(g, c, cfg)
    ensures HardGate(c, cfg).Some? ==>
      var d := HardGate(c, cfg).value;
      && |d.reasons| == 1 && GateRefuses(d.reasons[0], c, cfg) && d.approvedQty == 0.0
      && (forall g :: GateRefuses(g, c, cfg) ==> GateRank(d.reasons[0]) <= GateRank(g))
      && (d.verdict == HaltTrading <==> d.reasons[0] in {ExcessiveReconnects, CriticalReconciliationDrift})
      && (d.verdict == HaltTrading || d.verdict == Reject)
  {
    if HardGate(c, cfg) == None {
    } else {
      var gate := HardGate(c, cfg).value.reasons[0];
      assert GateRefuses(gate, c, cfg);
    }
  }

  function GateRelaxations(c: RiskContext): seq<Relaxation> {
    if c.mode == PaperMode then [SkippedReconciliationGate] else []
  }

  /** Profit over cost of a sell, against the configured floor. A cost of zero is an unbounded profit. */
  predicate BelowProfitFloor(c: RiskContext, cfg: RiskConfig) {
    c.averageCost.Some? && c.averageCost.value > 0.0 &&
    Times(Over(c.request.price - c.averageCost.value, c.averageCost.value), 10_000.0) < cfg.minSellProfitBps
  }

  /** What a sell would have to skip, were the mode strict. */
  function SellRelaxation(c: RiskContext, cfg: RiskConfig): Option<Relaxation> {
    if c.request.side == Buy then None
    else if c.averageCost.None? then Some(SkippedMissingAverageCost)
    else if BelowProfitFloor(c, cfg) then Some(SkippedMinSellProfit)
    else None
  }

  function PolicyRelaxations(c: RiskContext, cfg: RiskConfig): seq<Relaxation> {
    match SellRelaxation(c, cfg)
    case Some(r) => if c.mode == PaperMode then [r] else []
    case None => []
  }

  function PolicyReject(c: RiskContext, cfg: RiskConfig): Option<RiskReason> {
    if c.openOrdersCount >= cfg.maxOpenOrdersPerExchange then Some(MaxOpenOrders)
    else if c.market.Some? && c.market.value.spreadBps > cfg.maxSpreadBps then Some(SpreadTooWide)
    else if c.request.side == Sell && c.activeInventory <= 0.0 then Some(NoActiveInventory)
    else if c.request.side == Sell && c.activeInventory < cfg.minOrderZig then Some(ReserveFloorNoSafeSize)
    else if c.mode != PaperMode && SellRelaxation(c, cfg) == Some(SkippedMissingAverageCost) then
      Some(MissingAverageCost)
    else if c.mode != PaperMode && SellRelaxation(c, cfg) == Some(SkippedMinSellProfit) then Some(MinSellProfit)
    else if c.request.side == Buy && c.usdtBalance <= 0.0 then Some(NoUsdtBalance)
    else None
  }

  /** Relaxations recorded by the time a policy rejects: a sell reaches its cost checks only with inventory. */
  function RecordedPolicyRelaxations(c: RiskContext, cfg: RiskConfig): seq<Relaxation> {
    match PolicyReject(c, cfg)
    case Some(MaxOpenOrders) => []
    case Some(SpreadTooWide) => []
    case Some(NoActiveInventory) => []
    case Some(ReserveFloorNoSafeSize) => []
    case _ => PolicyRelaxations(c, cfg)
  }

  function ClassifyVolatility(c: RiskContext, cfg: RiskConfig): Regime {
    if c.market.None? || !c.connected || !c.inSequence || c.stale || c.reconnects > cfg.maxReconnectsPer5m then Chaotic
    else if c.reconciliation != Some(Match) && c.mode != PaperMode then Chaotic
    else if c.market.value.spreadBps >= cfg.maxSpreadBps then Chaotic
    else c.market.value.regime
  }

  // ── Sizing ───────────────────────────────────────────────────────────────

  datatype Cap = Cap(reason: RiskReason, qty: real)

  function ModeFactor(m: Mode, cfg: RiskConfig): real {
    match m
    case Defensive => cfg.defensiveSizeMultiplier
    case ReadOnly => 0.0
    case Halt => 0.0
    case _ => 1.0
  }

  function VolatilityFactor(r: Regime, cfg: RiskConfig): real {
    match r
    case HighVol => cfg.highVolSizeMultiplier
    case Chaotic => cfg.chaoticSizeMultiplier
    case _ => 1.0
  }

  /** Fee and slippage a paper buy must be able to pay on top of its price. */
  function CostFactor(m: Mode, cfg: RiskConfig): real {
    if m == PaperMode then Times(1.0 + Bps(cfg.paperFeeBps), 1.0 + Bps(cfg.paperSlippageBps)) else 1.0
  }

  /** ZIG that `usdt` buys; a unit cost that is not positive buys nothing. */
  function Affordable(usdt: real, unitCost: real): real {
    if unitCost > 0.0 then Over(usdt, unitCost) else 0.0
  }

  function SideCaps(c: RiskContext, cfg: RiskConfig): seq<Cap> {
    if c.request.side == Sell then [
      Cap(MaxOrderActivePct, Times(cfg.maxOrderActivePct, c.activeInventory)),
      Cap(ReserveFloorCap, c.activeInventory),
      Cap(LiquidityCap, Times(cfg.liquidityParticipationPct, c.bidLiquidityZig)),
      Cap(DailySellLimit, Max(Times(cfg.maxDailySellActivePct, c.dailySellBaseZig.GetOr(c.activeInventory)) -
        c.dailySellUsedZig, 0.0))
    ] else
      var unitCost := Times(c.request.price, CostFactor(c.mode, cfg));
      [
        Cap(UsdtAffordability, Affordable(c.usdtBalance, unitCost)),
        Cap(LiquidityCap, Times(cfg.liquidityParticipationPct, c.askLiquidityZig)),
        Cap(DailyBuyLimit, Affordable(Max(Times(cfg.maxDailyBuyUsdtPct, c.dailyBuyBaseUsdt.GetOr(c.usdtBalance)) -
          c.dailyBuyUsedUsdt, 0.0), unitCost))
      ]
  }

  function SizeCaps(c: RiskContext, cfg: RiskConfig, regime: Regime): seq<Cap> {
    [Cap(RequestedQty, c.request.quantity)] + SideCaps(c, cfg)
    + [Cap(ModeMultiplier, Times(ModeFactor(c.mode, cfg), c.request.quantity)),
       Cap(VolatilityMultiplier, Times(VolatilityFactor(regime, cfg), c.request.quantity))]
  }

  function MinCap(caps: seq<Cap>): (m: real)
    requires caps != []
    ensures exists i :: 0 <= i < |caps| && m == Max(caps[i].qty, 0.0)
    ensures forall i :: 0 <= i < |caps| ==> m <= Max(caps[i].qty, 0.0)
  {
    var head := Max(caps[0].qty, 0.0);
    if |caps| == 1 then head
    else
      var rest := MinCap(caps[1..]);
      assert forall i :: 1 <= i < |caps| ==> caps[i] == caps[1..][i - 1];
      assert exists i :: 1 <= i < |caps| && rest == Max(caps[i].qty, 0.0) by {
        var k :| 0 <= k < |caps[1..]| && rest == Max(caps[1..][k].qty, 0.0);
        assert caps[k + 1] == caps[1..][k];
      }
      if rest < head then rest else head
  }

  function Binding(caps: seq<Cap>, requested: real): seq<RiskReason> {
    if caps == [] then [] else
      (if Max(caps[0].qty, 0.0) + SIZE_TOLERANCE < requested then [caps[0].reason] else []) +
        Binding(caps[1..], requested)
  }

  /** The reasons of a reduced decision are exactly the caps that lie below the request. */
  lemma {:induction false} BindingNames(caps: seq<Cap>, requested: real, reason: RiskReason)
    ensures reason in Binding(caps, requested) <==>
      exists i :: 0 <= i < |caps| && caps[i].reason == reason && Max(caps[i].qty, 0.0) + SIZE_TOLERANCE < requested
  {
    if caps != [] {
      BindingNames(caps[1..], requested, reason);
      if reason in Binding(caps[1..], requested) {
        var i :| 0 <= i < |caps[1..]| && caps[1..][i].reason == reason
          && Max(caps[1..][i].qty, 0.0) + SIZE_TOLERANCE < requested;
        assert caps[i + 1] == caps[1..][i];
      }
      if i :| 1 <= i < |caps| && caps[i].reason == reason && Max(caps[i].qty, 0.0) + SIZE_TOLERANCE < requested {
        assert caps[1..][i - 1] == caps[i];
      }
    }
  }

  function Size(c: RiskContext, cfg: RiskConfig, regime: Regime): Decision {
    var requested := c.request.quantity;
    var caps := SizeCaps(c, cfg, regime);
    var approved := Min(requested, MinCap(caps));
    if approved < cfg.minOrderZig then Rejected(requested, Binding(caps, requested) + [BelowMinOrderZig], [])
    else if approved + SIZE_TOLERANCE < requested then
      Decision(Reduce, requested, approved, Binding(caps, requested), [])
    else Decision(Allow, requested, requested, [RiskChecksPassed], [])
  }

  function EvaluateContext(c: RiskContext, cfg: RiskConfig): Decision {
    var qty := c.request.quantity;
    match HardGate(c, cfg)
    case Some(d) => d
    case None =>
      var gate := GateRelaxations(c);
      match PolicyReject(c, cfg)
      case Some(reason) => Rejected(qty, [reason], gate + RecordedPolicyRelaxations(c, cfg))
      case None =>
        var relaxations := gate + PolicyRelaxations(c, cfg);
        var regime := ClassifyVolatility(c, cfg);
        if regime == Chaotic && cfg.chaoticSizeMultiplier <= 0.0 then Rejected(qty, [ChaoticVolatility], relaxations)
        else Size(c, cfg, regime).(relaxations := relaxations)
  }

  function Evaluate(req: Request, mode: Mode, venue: Venue, ledger: Option<PaperLedger>, orders: seq<Order>,
      cfg: RiskConfig, now: int): Decision {
    if Malformed(req) != [] then Rejected(req.quantity, Malformed(req), [])
    else EvaluateContext(BuildRiskContext(req, mode, venue, ledger, orders, cfg, now), cfg)
  }

  predicate Approves(d: Decision) {
    d.verdict == Allow || d.verdict == Reduce
  }

  // ── What an approval promises ────────────────────────────────────────────

  /** An approval respects every cap up to the size tolerance, is never more than asked and never dust. */
  lemma ApprovalWithinCaps(c: RiskContext, cfg: RiskConfig)
    requires Approves(EvaluateContext(c, cfg))
    ensures var q := EvaluateContext(c, cfg).approvedQty;
      && cfg.minOrderZig <= q <= c.request.quantity
      && HardGate(c, cfg) == None && PolicyReject(c, cfg) == None
      && forall i :: 0 <= i < |SideCaps(c, cfg)| ==> q <= Max(SideCaps(c, cfg)[i].qty, 0.0) + SIZE_TOLERANCE
  {
    hide HardGate, PolicyReject, SideCaps, Times, Over, ClassifyVolatility, Binding, PolicyRelaxations;
    var caps := SizeCaps(c, cfg, ClassifyVolatility(c, cfg));
    assert forall i :: 0 <= i < |SideCaps(c, cfg)| ==> caps[i + 1] == SideCaps(c, cfg)[i];
  }

  /** What sizing needs of every cap to let a request through whole. */
  predicate FitsCaps(caps: seq<Cap>, qty: real, cfg: RiskConfig) {
    forall i :: 0 <= i < |caps| ==>
      Max(caps[i].qty, 0.0) + SIZE_TOLERANCE >= qty && Max(caps[i].qty, 0.0) >= cfg.minOrderZig
  }

  /**
   * A request is approved whole exactly when it passes gates, policies and the volatility stop, is no dust and lies
   * within every cap, up to the size tolerance.
   */
  lemma WholeApproval(c: RiskContext, cfg: RiskConfig)
    requires c.request.quantity > 0.0
    ensures EvaluateContext(c, cfg).verdict == Allow <==>
      && HardGate(c, cfg) == None && PolicyReject(c, cfg) == None
      && !(ClassifyVolatility(c, cfg) == Chaotic && cfg.chaoticSizeMultiplier <= 0.0)
      && c.request.quantity >= cfg.minOrderZig
      && FitsCaps(SizeCaps(c, cfg, ClassifyVolatility(c, cfg)), c.request.quantity, cfg)
    ensures EvaluateContext(c, cfg).verdict == Allow ==> EvaluateContext(c, cfg).approvedQty == c.request.quantity
  {
    hide PolicyReject, SideCaps, Times, Over, ClassifyVolatility, Binding, PolicyRelaxations, ModeFactor,
      VolatilityFactor;
    var caps := SizeCaps(c, cfg, ClassifyVolatility(c, cfg));
    assert caps[0].qty == c.request.quantity;
  }

  /** Mode and volatility shrink what is approved by their factors. */
  lemma ApprovalShrinks(c: RiskContext, cfg: RiskConfig)
    requires Approves(EvaluateContext(c, cfg))
    ensures var q := EvaluateContext(c, cfg).approvedQty; var asked := c.request.quantity;
      && q <= Max(Times(ModeFactor(c.mode, cfg), asked), 0.0) + SIZE_TOLERANCE
      && q <= Max(Times(VolatilityFactor(ClassifyVolatility(c, cfg), cfg), asked), 0.0) + SIZE_TOLERANCE
  {
    hide HardGate, PolicyReject, SideCaps, Times, Over, ClassifyVolatility, Binding, PolicyRelaxations, ModeFactor,
      VolatilityFactor;
    var regime := ClassifyVolatility(c, cfg);
    var caps := SizeCaps(c, cfg, regime);
    var n := |SideCaps(c, cfg)|;
    assert caps[n + 1] == Cap(ModeMultiplier, Times(ModeFactor(c.mode, cfg), c.request.quantity));
    assert caps[n + 2] == Cap(VolatilityMultiplier, Times(VolatilityFactor(regime, cfg), c.request.quantity));
  }

  /** An approval never takes more than its share of the visible book, and a sell no more than its share of the pool. */
  lemma ApprovalWithinMarket(c: RiskContext, cfg: RiskConfig)
    requires Approves(EvaluateContext(c, cfg)) && cfg.minOrderZig > SIZE_TOLERANCE
    ensures var q := EvaluateContext(c, cfg).approvedQty;
      if c.request.side == Sell then
        q <= Times(cfg.maxOrderActivePct, c.activeInventory) + SIZE_TOLERANCE
        && q <= Times(cfg.liquidityParticipationPct, c.bidLiquidityZig) + SIZE_TOLERANCE
      else q <= Times(cfg.liquidityParticipationPct, c.askLiquidityZig) + SIZE_TOLERANCE
  {
    hide HardGate, PolicyReject, Times, Over, EvaluateContext, Affordable;
    ApprovalWithinCaps(c, cfg);
    var caps := SideCaps(c, cfg);
    if c.request.side == Sell {
      assert caps[0].reason == MaxOrderActivePct && caps[2].reason == LiquidityCap;
    } else {
      assert caps[1].reason == LiquidityCap;
    }
  }

  /**
   * Whatever the mode: an approved request was well formed, and what it may trade is no dust and no more than asked.
   */
  lemma ApprovedRequest(req: Request, mode: Mode, venue: Venue, ledger: Option<PaperLedger>, orders: seq<Order>,
      cfg: RiskConfig, now: int)
    requires Approves(Evaluate(req, mode, venue, ledger, orders, cfg, now))
    ensures var d := Evaluate(req, mode, venue, ledger, orders, cfg, now);
      && req.price > 0.0 && cfg.minOrderZig <= d.approvedQty <= req.quantity
      && (d.verdict == Allow ==> d.approvedQty == req.quantity)
      && OpenCount(orders, req.exchange) < cfg.maxOpenOrdersPerExchange
  {
    hide Times, Over, HardGate, SizeCaps, AverageCost, RecentReconnects, PerPrice, Stale, ClassifyVolatility, Binding,
      PolicyRelaxations,
      SellCommitment, BuyCommitment, SellRelaxation;
    ApprovalWithinCaps(BuildRiskContext(req, mode, venue, ledger, orders, cfg, now), cfg);
  }

  /**
   * An approved sell leaves the larger floor covered, counting every sell already open; and stays in the day's
   * allowance.
   */
  lemma ApprovedSell(req: Request, mode: Mode, venue: Venue, ledger: PaperLedger, orders: seq<Order>, cfg: RiskConfig,
      now: int)
    requires mode == PaperMode && req.side == Sell && cfg.minOrderZig > SIZE_TOLERANCE
    requires Approves(Evaluate(req, mode, venue, Some(ledger), orders, cfg, now))
    ensures var q := Evaluate(req, mode, venue, Some(ledger), orders, cfg, now).approvedQty;
      var committed := SumBy(orders, SellCommitment(req.exchange));
      && cfg.minOrderZig <= q <= req.quantity && req.quantity > 0.0 && req.price > 0.0
      && ledger.zig - committed - q >= Max(cfg.reserveFloor, ledger.protectedZig) - SIZE_TOLERANCE
      && (if ledger.day == Some(UtcDay(now)) then ledger.dailySellZig else 0.0) + committed + q
         <= Times(cfg.maxDailySellActivePct, ledger.startingActive) + SIZE_TOLERANCE
  {
    hide Times, Over, EvaluateContext, HardGate, PolicyReject, AverageCost, RecentReconnects, OpenCount, PerPrice,
      Stale;
    var c := BuildRiskContext(req, mode, venue, Some(ledger), orders, cfg, now);
    ApprovalWithinCaps(c, cfg);
    assert SideCaps(c, cfg)[1].qty == c.activeInventory;
    assert SideCaps(c, cfg)[3].reason == DailySellLimit;
    SumByNonneg(orders, SellCommitment(req.exchange));
  }

  /** Without an opening pool there is no daily sell allowance: no paper sell is ever approved. */
  lemma SellNeedsPool(req: Request, mode: Mode, venue: Venue, ledger: PaperLedger, orders: seq<Order>, cfg: RiskConfig,
      now: int)
    requires mode == PaperMode && req.side == Sell && cfg.minOrderZig > SIZE_TOLERANCE
    requires ledger.dailySellZig >= 0.0 && cfg.maxDailySellActivePct > 0.0
    requires Approves(Evaluate(req, mode, venue, Some(ledger), orders, cfg, now))
    ensures ledger.startingActive > 0.0
  {
    hide Evaluate;
    ApprovedSell(req, mode, venue, ledger, orders, cfg, now);
    SumByNonneg(orders, SellCommitment(req.exchange));
    if ledger.startingActive <= 0.0 {
      TimesMono(ledger.startingActive, 0.0, cfg.maxDailySellActivePct);
    }
  }

  lemma AffordableCost(q: real, usdt: real, price: real, fee: real, slip: real)
    requires price > 0.0 && fee >= 0.0 && slip >= 0.0 && usdt >= 0.0 && q >= 0.0
    requires q <= Affordable(usdt, Times(price, Times(1.0 + fee, 1.0 + slip))) + SIZE_TOLERANCE
    ensures Times(Times(q, price), 1.0 + fee) <= usdt + SIZE_TOLERANCE * Times(price, 1.0 + fee)
  {
    var w := Times(price, 1.0 + fee);
    TimesPositive(price, 1.0 + fee);
    assert Times(price, Times(1.0 + fee, 1.0 + slip)) == Times(w, 1.0 + slip);
    assert Times(Times(q, price), 1.0 + fee) == Times(w, q);
    WithinBudget(q, usdt, w, slip);
  }

  lemma WithinBudget(q: real, usdt: real, w: real, slip: real)
    requires w > 0.0 && slip >= 0.0 && usdt >= 0.0
    requires q <= Affordable(usdt, Times(w, 1.0 + slip)) + SIZE_TOLERANCE
    ensures Times(w, q) <= usdt + SIZE_TOLERANCE * w
  {
    var a := Affordable(usdt, Times(w, 1.0 + slip));
    assert Times(w, 1.0 + slip) > 0.0 by { TimesPositive(w, 1.0 + slip); }
    OverTimes(usdt, Times(w, 1.0 + slip));
    OverNonneg(usdt, Times(w, 1.0 + slip));
    assert Times(Times(w, 1.0 + slip), a) == usdt;
    assert (w * (1.0 + slip)) * a == w * a + slip * (w * a);
    MulNonneg(w, a);
    MulNonneg(slip, w * a);
    assert w * a <= usdt;
    TimesMono(q, a + SIZE_TOLERANCE, w);
  }

  /** An approved buy can be paid, fee included, next to every buy already open; and stays in the day's allowance. */
  lemma ApprovedBuy(req: Request, mode: Mode, venue: Venue, ledger: PaperLedger, orders: seq<Order>, cfg: RiskConfig,
      now: int)
    requires mode == PaperMode && req.side == Buy && cfg.minOrderZig > SIZE_TOLERANCE
    requires cfg.paperFeeBps >= 0.0 && cfg.paperSlippageBps >= 0.0
    requires Approves(Evaluate(req, mode, venue, Some(ledger), orders, cfg, now))
    ensures var q := Evaluate(req, mode, venue, Some(ledger), orders, cfg, now).approvedQty;
      var fee := 1.0 + Bps(cfg.paperFeeBps);
      var committed := Times(SumBy(orders, BuyCommitment(req.exchange)), fee);
      && cfg.minOrderZig <= q <= req.quantity && req.quantity > 0.0 && req.price > 0.0
      && ledger.usdt - committed - Times(Times(q, req.price), fee) >= -(SIZE_TOLERANCE * Times(req.price, fee))
      && ((if ledger.day == Some(UtcDay(now)) then ledger.dailyBuyUsdt else 0.0) + committed +
           Times(Times(q, req.price), fee)
          <= Times(cfg.maxDailyBuyUsdtPct, ledger.startingUsdt) + SIZE_TOLERANCE * Times(req.price, fee))
  {
    hide Times, Over, Affordable, EvaluateContext, HardGate, SellRelaxation, AverageCost, RecentReconnects, OpenCount,
      PerPrice, Stale;
    var c := BuildRiskContext(req, mode, venue, Some(ledger), orders, cfg, now);
    var q := EvaluateContext(c, cfg).approvedQty;
    ApprovalWithinCaps(c, cfg);
    var unitCost := Times(req.price, CostFactor(mode, cfg));
    assert SideCaps(c, cfg)[0] == Cap(UsdtAffordability, Affordable(c.usdtBalance, unitCost));
    var rem := Max(Times(cfg.maxDailyBuyUsdtPct, ledger.startingUsdt) - c.dailyBuyUsedUsdt, 0.0);
    assert SideCaps(c, cfg)[2] == Cap(DailyBuyLimit, Affordable(rem, unitCost));
    AffordableNonneg(c.usdtBalance, unitCost);
    AffordableNonneg(rem, unitCost);
    AffordableCost(q, c.usdtBalance, req.price, Bps(cfg.paperFeeBps), Bps(cfg.paperSlippageBps));
    AffordableCost(q, rem, req.price, Bps(cfg.paperFeeBps), Bps(cfg.paperSlippageBps));
  }

  lemma AffordableNonneg(usdt: real, unitCost: real)
    requires usdt >= 0.0
    ensures Affordable(usdt, unitCost) >= 0.0
    ensures usdt == 0.0 ==> Affordable(usdt, unitCost) == 0.0
  {
    if unitCost > 0.0 {
      OverNonneg(usdt, unitCost);
    }
  }

  // ── Paper mode is permissive only where it says so ───────────────────────

  /** Scaling every unit cost up can only lower what a cap affords. */
  lemma DearerAffordsLess(usdt: real, price: real, factor: real)
    requires usdt >= 0.0 && price > 0.0 && factor >= 1.0
    ensures Affordable(usdt, Times(price, factor)) <= Affordable(usdt, Times(price, 1.0))
  {
    TimesMono(1.0, factor, price);
    var cheap, dear := Times(price, 1.0), Times(price, factor);
    assert 0.0 < cheap <= dear;
    var x, y := Over(usdt, cheap), Over(usdt, dear);
    OverTimes(usdt, cheap);
    OverTimes(usdt, dear);
    OverNonneg(usdt, dear);
    if x < y {
      TimesStrict(x, y, cheap);
      MulMono(cheap, dear, y);
    }
  }

  lemma CostFactorAtLeastOne(m: Mode, cfg: RiskConfig)
    requires cfg.paperFeeBps >= 0.0 && cfg.paperSlippageBps >= 0.0
    ensures CostFactor(m, cfg) >= 1.0
  {
    MulMono(1.0, 1.0 + Bps(cfg.paperFeeBps), 1.0 + Bps(cfg.paperSlippageBps));
  }

  /** Two contexts of one request that differ in mode only. */
  predicate SameButMode(paper: RiskContext, normal: RiskContext) {
    paper == normal.(mode := paper.mode)
  }

  lemma NormalCapsAreLarger(paper: RiskContext, normal: RiskContext, cfg: RiskConfig, regime: Regime)
    requires SameButMode(paper, normal) && paper.mode == PaperMode && normal.mode == Normal
    requires cfg.paperFeeBps >= 0.0 && cfg.paperSlippageBps >= 0.0 && paper.request.price > 0.0
      && paper.usdtBalance >= 0.0
    ensures |SizeCaps(paper, cfg, regime)| == |SizeCaps(normal, cfg, regime)|
    ensures forall i :: 0 <= i < |SizeCaps(paper, cfg, regime)| ==>
      SizeCaps(paper, cfg, regime)[i].qty <= SizeCaps(normal, cfg, regime)[i].qty
  {
    hide Times, Over, Affordable;
    CostFactorAtLeastOne(PaperMode, cfg);
    var rem := Max(Times(cfg.maxDailyBuyUsdtPct, paper.dailyBuyBaseUsdt.GetOr(paper.usdtBalance)) -
      paper.dailyBuyUsedUsdt, 0.0);
    DearerAffordsLess(paper.usdtBalance, paper.request.price, CostFactor(PaperMode, cfg));
    DearerAffordsLess(rem, paper.request.price, CostFactor(PaperMode, cfg));
  }

  lemma LargerCapsApproveMore(a: seq<Cap>, b: seq<Cap>)
    requires |a| == |b| && a != []
    requires forall i :: 0 <= i < |a| ==> a[i].qty <= b[i].qty
    ensures MinCap(a) <= MinCap(b)
  {
    var k :| 0 <= k < |b| && MinCap(b) == Max(b[k].qty, 0.0);
    assert MinCap(a) <= Max(a[k].qty, 0.0);
  }

  /**
   * A paper approval whose only recorded relaxation is the reconciliation gate would be an approval in NORMAL, for at
   * least as much.
   */
  lemma PermissivenessIsRecorded(paper: RiskContext, normal: RiskContext, cfg: RiskConfig)
    requires SameButMode(paper, normal) && paper.mode == PaperMode && normal.mode == Normal
    requires paper.reconciliation == Some(Match)
    requires cfg.paperFeeBps >= 0.0 && cfg.paperSlippageBps >= 0.0 && paper.request.price > 0.0
      && paper.usdtBalance >= 0.0
    requires Approves(EvaluateContext(paper, cfg))
      && EvaluateContext(paper, cfg).relaxations == [SkippedReconciliationGate]
    ensures Approves(EvaluateContext(normal, cfg))
    ensures EvaluateContext(normal, cfg).approvedQty >= EvaluateContext(paper, cfg).approvedQty
  {
    hide Times, Over, SizeCaps, Binding;
    var regime := ClassifyVolatility(paper, cfg);
    assert ClassifyVolatility(normal, cfg) == regime;
    assert HardGate(paper, cfg) == None && PolicyReject(paper, cfg) == None;
    assert PolicyRelaxations(paper, cfg) == [];
    assert SellRelaxation(paper, cfg) == None == SellRelaxation(normal, cfg);
    NormalCapsAreLarger(paper, normal, cfg, regime);
    SizeLarger(paper, normal, cfg, regime);
  }

  lemma SizeLarger(paper: RiskContext, normal: RiskContext, cfg: RiskConfig, regime: Regime)
    requires paper.request.quantity == normal.request.quantity
    requires |SizeCaps(paper, cfg, regime)| == |SizeCaps(normal, cfg, regime)|
    requires forall i :: 0 <= i < |SizeCaps(paper, cfg, regime)| ==>
      SizeCaps(paper, cfg, regime)[i].qty <= SizeCaps(normal, cfg, regime)[i].qty
    requires Approves(Size(paper, cfg, regime))
    ensures Approves(Size(normal, cfg, regime))
      && Size(normal, cfg, regime).approvedQty >= Size(paper, cfg, regime).approvedQty
  {
    hide SideCaps, Times, Over, Binding;
    LargerCapsApproveMore(SizeCaps(paper, cfg, regime), SizeCaps(normal, cfg, regime));
  }

  /**
   * The same at the gate: one state without a paper ledger and with reconciliation at MATCH. What paper mode approves
   * while recording nothing but the reconciliation gate, NORMAL approves for at least as much.
   */
  lemma PaperRunIsDressRehearsal(req: Request, venue: Venue, orders: seq<Order>, cfg: RiskConfig, now: int)
    requires venue.reconciliation == Some(Match)
    requires cfg.paperFeeBps >= 0.0 && cfg.paperSlippageBps >= 0.0
    requires var d := Evaluate(req, PaperMode, venue, None, orders, cfg, now);
      Approves(d) && d.relaxations == [SkippedReconciliationGate]
    ensures var normal := Evaluate(req, Normal, venue, None, orders, cfg, now);
      Approves(normal) && normal.approvedQty >= Evaluate(req, PaperMode, venue, None, orders, cfg, now).approvedQty
  {
    hide EvaluateContext, Times, Over, AverageCost;
    PermissivenessIsRecorded(BuildRiskContext(req, PaperMode, venue, None, orders, cfg, now),
                             BuildRiskContext(req, Normal, venue, None, orders, cfg, now), cfg);
  }
}
