/**
 * The paper soak (backend/src/paper-soak/index.ts, pending-policy.ts): one fill moves the account, the lots, the budget
 * and the protected surplus in sequence; pending orders are re-checked right before every fill.
 */
module Soaks {
  import opened Numeric
  import opened Sums
  import opened Domain
  import opened Orders
  import opened PaperAccount
  import opened Risk
  import HarvestCycles
  import Lots = AccumulationLots
  import Funds = AccumulationBudget

  datatype HarvestParams = HarvestParams(
    tickMs: int,
    sellCooldownMs: int,
    buyCooldownMs: int,
    sellBucketBps: real,
    buyBucketBps: real,
    rejectBackoffMs: int,
    maxUnrecoveredActivePct: real)

  datatype AccumulationParams = AccumulationParams(
    recoveryEnabled: bool,
    trancheUsdt: real,
    cooldownMs: int,
    bucketBps: real,
    minLiquidityUsdt: real,
    liquidityMultiple: real,
    maxSpreadBps: real,
    allowHighVol: bool,
    allowChaotic: bool)

  datatype SoakCfg = SoakCfg(
    exchange: Exchange,
    symbol: string,
    account: AccountCfg,
    accEnabled: bool,
    lots: Lots.LotParams,
    caps: Funds.Caps,
    risk: RiskConfig,
    harvest: HarvestParams,
    acc: AccumulationParams)

  /** What the configuration schema and the shared wiring of account and risk engine guarantee. */
  predicate CfgOk(cfg: SoakCfg) {
    && 0.0 <= cfg.account.takerFeeBps < 10_000.0
    && cfg.account.reserveFloor >= 0.0
    && cfg.risk.paperFeeBps == cfg.account.takerFeeBps && cfg.risk.paperSlippageBps >= 0.0
    && cfg.risk.reserveFloor == cfg.account.reserveFloor
    && cfg.risk.minOrderZig > Lots.UNALLOCATED_LIMIT
    && 0.0 < cfg.risk.maxOrderActivePct <= 1.0
    && 0.0 < cfg.risk.maxDailySellActivePct && 0.0 < cfg.risk.maxDailyBuyUsdtPct
    && 0.0 <= cfg.lots.principalRecoveryPct <= 1.0
    && 0.0 <= cfg.caps.budgetPct <= 1.0 && 0.0 <= cfg.caps.dailyPct <= 1.0 && 0.0 <= cfg.caps.totalDeployedPct <= 1.0
    && 0.0 <= cfg.caps.minUsdtFloor && cfg.caps.startingUsdt == cfg.account.startUsdt
    && cfg.harvest.sellBucketBps > 0.0 && cfg.harvest.buyBucketBps > 0.0
    && 0.0 < cfg.harvest.maxUnrecoveredActivePct <= 1.0
    && cfg.acc.bucketBps > 0.0 && cfg.acc.liquidityMultiple >= 0.0
  }

  /** Age at which a pending paper order is stale, for the driver and for the guard alike. */
  function StaleMs(cfg: SoakCfg): int {
    if 4 * cfg.harvest.tickMs > 60_000 then 4 * cfg.harvest.tickMs else 60_000
  }

  datatype Soak = Soak(account: Account, lots: seq<Lots.Lot>, budget: Funds.BudgetState)

  datatype AllowedActions = AllowedActions(harvestSell: bool, harvestRebuy: bool, accumulationBuy: bool,
    accumulationRecoverySell: bool)

  function Pct(cfg: SoakCfg): real { cfg.lots.principalRecoveryPct }

  /** ZIG of lots whose principal is not back yet: held for them, not for harvest sells. */
  function LotStock(s: Soak): real {
    Lots.HeldZig(s.lots) - Lots.SurplusZig(s.lots)
  }

  /** The route of a fill: a reason that starts with "acc" belongs to accumulation. */
  predicate IsAcc(r: Reason) {
    match r
    case AccBuy => true
    case AccRecovery => true
    case Other(text) => "acc" <= text
    case _ => false
  }

  /** A soak as it is started: the account seeded with an entry cost, no lots, a fresh budget. */
  function Started(cfg: SoakCfg, entryCost: real, now: int): Soak {
    Soak(Seed(PaperAccount.Opened(cfg.account), cfg.account, entryCost, now), [], Funds.Fresh(now))
  }

  // ── One paper fill ───────────────────────────────────────────────────────

  /** A handler either completes or throws; what it moved before throwing stays moved. */
  datatype Outcome = Outcome(soak: Soak, threw: bool)

  /** The fill report of the paper engine, with what the handler reads besides it. */
  datatype FillNews = FillNews(size: Option<real>, price: Option<real>, at: int, regime: Option<Regime>, tag: string)

  function TradeOf(o: Order, news: FillNews): PaperTrade {
    PaperTrade(o.side, news.size.GetOr(0.0), news.price.GetOr(o.price), news.at,
               if IsAcc(o.reason) then Accumulation else Harvest,
               o.price, news.regime, o.cycleIds, o.rebuyDistanceBps, news.tag)
  }

  /**
   * Lots and budget after the accumulation engine has been told of a fill. Its report takes a snapshot of the budget,
   * which rolls the day; a sell it cannot attribute throws before that.
   */
  datatype LotBooks = LotBooks(lots: seq<Lots.Lot>, budget: Funds.BudgetState, threw: bool)

  function RouteFill(ls: seq<Lots.Lot>, budget: Funds.BudgetState, cfg: SoakCfg, t: PaperTrade): LotBooks
    requires CfgOk(cfg) && t.size > 0.0 && t.price > 0.0
  {
    var fee := FeeUsdt(t, cfg.account);
    if t.side == Buy then
      LotBooks(ls + [Lots.NewLot(|ls| + 1, t.size, t.price, fee, cfg.lots, t.at)],
        Funds.Record(budget, Notional(t) + fee, t.at), false)
    else
      NetPricePositive(t, cfg);
      var sale := Lots.Sell(ls, t.size, t.price, fee, t.cycleIds, Pct(cfg));
      if Lots.Unallocated(sale, t.cycleIds) then LotBooks(sale.lots, budget, true)
      else LotBooks(sale.lots, Funds.RollDay(Funds.Release(budget, sale.reclaimed), t.at), false)
  }

  /** The rest of an accumulation fill, after the account has moved: new surplus becomes protected. */
  function AccumulationFill(s: Soak, cfg: SoakCfg, t: PaperTrade): Outcome
    requires CfgOk(cfg) && t.size > 0.0 && t.price > 0.0
  {
    var r := RouteFill(s.lots, s.budget, cfg, t);
    var moved := s.(lots := r.lots, budget := r.budget);
    var added := Lots.SurplusZig(r.lots) - Lots.SurplusZig(s.lots);
    if r.threw then Outcome(moved, true)
    else if added <= 0.0 then Outcome(moved, false)
    else if InvalidSurplus(s.account, cfg.account, added) then Outcome(moved, true)
    else Outcome(moved.(account := ProtectSurplus(s.account, added)), false)
  }

  lemma NetPricePositive(t: PaperTrade, cfg: SoakCfg)
    requires CfgOk(cfg) && t.size > 0.0 && t.price > 0.0
    ensures Lots.NetPrice(t.size, t.price, FeeUsdt(t, cfg.account)) > 0.0
    ensures Lots.PerQty(FeeUsdt(t, cfg.account), t.size) == Times(FeeRate(cfg.account), t.price)
  {
    var f := FeeRate(cfg.account);
    OverTimes(Times(f, t.price), t.size);
    assert Times(f, Times(t.size, t.price)) == Times(t.size, Times(f, t.price));
    assert Times(f, t.price) < t.price by {
      MulMono(f, 1.0, t.price);
      TimesPositive(1.0 - f, t.price);
    }
  }

  function OnPaperFill(s: Soak, cfg: SoakCfg, o: Order, news: FillNews): Outcome
    requires CfgOk(cfg)
  {
    if o.exchange != cfg.exchange || news.size.GetOr(0.0) <= 0.0 then Outcome(s, false)
    else
      var t := TradeOf(o, news);
      match ApplyPaperFill(s.account, cfg.account, t)
      case Refused(_) => Outcome(s, true)
      case Applied(a) =>
        if t.kind == Accumulation && cfg.accEnabled then AccumulationFill(s.(account := a), cfg, t)
        else Outcome(s.(account := a), false)
  }

  // ── The guard of a pending order ─────────────────────────────────────────

  function SumUnrecovered(cs: seq<HarvestCycles.HarvestCycle>): real {
    SumBy(cs, HarvestCycles.Unrecovered)
  }

  function InIds(ids: Option<seq<nat>>): HarvestCycles.HarvestCycle -> bool {
    (c: HarvestCycles.HarvestCycle) => ids.Some? && c.id in ids.value
  }

  function LotInIds(ids: Option<seq<nat>>): Lots.Lot -> bool {
    (l: Lots.Lot) => ids.Some? && l.id in ids.value
  }

  function PendingAllowed(o: Order, allowed: AllowedActions, s: Soak, cfg: SoakCfg, now: int): bool {
    now - o.createdAt <= StaleMs(cfg) &&
    match o.reason
    case HarvestSell =>
      allowed.harvestSell && Remaining(o)
        <= ActiveZig(s.account, cfg.account) - (if cfg.accEnabled then LotStock(s) else 0.0) + 1e-7
    case HarvestRebuy =>
      allowed.harvestRebuy &&
      Remaining(o) <= SumUnrecovered(HarvestCycles.Filter(HarvestCycles.OpenForRebuy(s.account.cycles, o.price),
        InIds(o.cycleIds))) + 1e-7
    case AccBuy => allowed.accumulationBuy
    case AccRecovery =>
      allowed.accumulationRecoverySell && cfg.accEnabled &&
      Remaining(o) <= Lots.HeldZig(Lots.Filter(Lots.OpenForRecovery(s.lots, o.price, Pct(cfg)),
        LotInIds(o.cycleIds))) + 1e-7
    case Other(_) => false
  }
}
