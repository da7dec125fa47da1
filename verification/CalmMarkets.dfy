/**
 * Instances of the desk trade in a calm market: bid and ask together, a healthy feed, no open orders. There the gate
 * (backend/src/decision-gate/risk-engine.ts, sizing/sizing-engine.ts) lets a request through whole when it fits the
 * caps.
 */
module CalmMarkets {
  import opened Numeric
  import opened Domain
  import opened Orders
  import opened PaperAccount
  import opened Risk
  import opened Soaks
  import opened Desks
  import opened Settlement

  /** Paper mode on Bybit, a healthy feed of low volatility, and `price` bid and asked. */
  predicate Calm(env: Env, price: real) {
    && env.mode == PaperMode && env.active && !env.reduced && env.uuid != "" && price > 0.0
    && env.bybit.market.Some? && env.bybit.reconciliation == None
    && var m := env.bybit.market.value;
       && m.bestBid == Some(price) && m.bestAsk == Some(price) && m.spreadBps == 0.0
       && m.connected && m.inSequence && m.reconnects == [] && m.freshnessMs == 0 && m.timestamp == env.now
       && m.regime == LowVol
  }

  /** A well-formed limit order of the soak at the price of the market. */
  function Limit(cfg: SoakCfg, env: Env, side: Side, qty: real, price: real, ids: Option<seq<nat>>,
      reason: Reason): Request {
    Request(env.uuid, cfg.exchange, cfg.symbol, side, true, qty, price, ids, None, reason)
  }

  /** The order a request becomes on its way to the paper engine. */
  function Sent(req: Request, now: int): Order {
    NewOrder(req, ClientOrderId(req), true, now).(status := Submitted)
  }

  predicate Lenient(cfg: SoakCfg) {
    && cfg.exchange == Bybit && cfg.risk.paperSlippageBps == 0.0
    && cfg.risk.maxOpenOrdersPerExchange > 0 && cfg.risk.maxSpreadBps > 0.0
  }

  /** What the gate sees of a calm market when nothing is open. */
  predicate CalmContext(c: RiskContext) {
    && c.mode == PaperMode && c.market.Some? && c.market.value.spreadBps == 0.0 && c.market.value.regime == LowVol
    && c.connected && c.inSequence && !c.stale && c.reconnects == 0 && c.reconciliation == None
    && c.openOrdersCount == 0 && c.request.quantity > 0.0
  }

  lemma CalmAllows(c: RiskContext, cfg: RiskConfig)
    requires CalmContext(c) && cfg.maxOpenOrdersPerExchange > 0 && cfg.maxSpreadBps > 0.0
    requires 0.0 < cfg.minOrderZig <= c.request.quantity && FitsCaps(SideCaps(c, cfg), c.request.quantity, cfg)
    requires if c.request.side == Sell then c.activeInventory >= cfg.minOrderZig else c.usdtBalance > 0.0
    ensures EvaluateContext(c, cfg).verdict == Allow && EvaluateContext(c, cfg).approvedQty == c.request.quantity
  {
    var q := c.request.quantity;
    WholeApproval(c, cfg);
    TimesOne(q);
    TimesSwap(1.0, q);
    assert ClassifyVolatility(c, cfg) == LowVol;
    assert SizeCaps(c, cfg, LowVol) == [Cap(RequestedQty, q)] + SideCaps(c, cfg)
      + [Cap(ModeMultiplier, Times(1.0, q)), Cap(VolatilityMultiplier, Times(1.0, q))];
    hide Times, EvaluateContext, ClassifyVolatility, BelowProfitFloor, SideCaps, SizeCaps;
  }

  function ContextOf(d: Desk, cfg: SoakCfg, env: Env, req: Request): RiskContext {
    BuildRiskContext(req, env.mode, env.bybit, Some(Publish(d.soak.account, cfg.account)), [], cfg.risk, env.now)
  }

  /** ZIG above the floor and above what is protected, as the gate counts it. */
  function Spare(a: Account, cfg: SoakCfg): real {
    Max(a.zig - Min(a.zig, Max(cfg.risk.reserveFloor, ProtectedZig(a, cfg.account))), 0.0)
  }

  lemma CalmSees(d: Desk, cfg: SoakCfg, env: Env, req: Request, price: real)
    requires Lenient(cfg) && Calm(env, price) && req.quantity > 0.0
    ensures var c := ContextOf(d, cfg, env, req); var a := d.soak.account; var m := env.bybit.market.value;
      && CalmContext(c) && c.request == req
      && c.activeInventory == Spare(a, cfg) && c.usdtBalance == Max(a.usdt, 0.0)
      && c.dailySellBaseZig == Some(a.startingActive) && c.dailySellUsedZig == SoldToday(a, env.now)
      && c.dailyBuyBaseUsdt == Some(cfg.account.startUsdt) && c.dailyBuyUsedUsdt == BoughtToday(a, env.now)
      && c.bidLiquidityZig == Over(m.bidLiquidity, price) && c.askLiquidityZig == Over(m.askLiquidity, price)
  {
    PublishFacts(d.soak.account, cfg.account);
    assert Times(0.0, 1.0 + Bps(cfg.risk.paperFeeBps)) == 0.0;
    hide Publish, AverageCost, Times, Over, ProtectedZig;
  }

  /** A sell within spare ZIG, its share of the pool, the book and the day goes through whole. */
  lemma CalmSell(d: Desk, cfg: SoakCfg, env: Env, req: Request, price: real)
    requires CfgOk(cfg) && Lenient(cfg) && Calm(env, price)
    requires req == Limit(cfg, env, Sell, req.quantity, price, req.cycleIds, req.reason)
    requires var a, q := d.soak.account, req.quantity;
      && cfg.risk.minOrderZig <= q && q <= Times(cfg.risk.maxOrderActivePct, Spare(a, cfg)) && q <= Spare(a, cfg)
      && q <= Times(cfg.risk.liquidityParticipationPct, Over(env.bybit.market.value.bidLiquidity, price))
      && q <= SellCap(a, cfg) - SoldToday(a, env.now)
    ensures Decide(d, cfg, env, req, []).verdict == Allow && Decide(d, cfg, env, req, []).approvedQty == req.quantity
  {
    hide BuildRiskContext, EvaluateContext, Publish, CalmContext, Times, Over, Spare, SoldToday, BoughtToday;
    CalmSees(d, cfg, env, req, price);
    var c := ContextOf(d, cfg, env, req);
    CalmAllows(c, cfg.risk);
  }

  /** A buy that cash, book and day afford, up to the size tolerance, goes through whole. */
  lemma CalmBuy(d: Desk, cfg: SoakCfg, env: Env, req: Request, price: real, qty: real)
    requires CfgOk(cfg) && Lenient(cfg) && Calm(env, price)
    requires req == Limit(cfg, env, Buy, req.quantity, price, req.cycleIds, req.reason)
    requires var a := d.soak.account; var unit := Times(price, CostFactor(PaperMode, cfg.risk));
      && cfg.risk.minOrderZig <= qty <= req.quantity <= qty + SIZE_TOLERANCE
      && a.usdt > 0.0 && unit > 0.0 && Over(a.usdt, unit) >= qty
      && Over(Max(BuyCap(cfg) - BoughtToday(a, env.now), 0.0), unit) >= qty
      && Times(cfg.risk.liquidityParticipationPct, Over(env.bybit.market.value.askLiquidity, price)) >= qty
    ensures Decide(d, cfg, env, req, []).verdict == Allow && Decide(d, cfg, env, req, []).approvedQty == req.quantity
  {
    hide BuildRiskContext, EvaluateContext, Publish, Times, Over, Spare, SoldToday, BoughtToday, CostFactor;
    CalmSees(d, cfg, env, req, price);
    var c := ContextOf(d, cfg, env, req);
    CalmAllows(c, cfg.risk);
  }

  /** Without slippage the order is marketable; chance decides whether it fills. */
  lemma CalmFills(cfg: SoakCfg, env: Env, o: Order, price: real)
    requires Lenient(cfg) && Calm(env, price) && o.exchange == Bybit && o.price == price
    ensures Fills(cfg, env, o) <==> o.clientOrderId in env.lucky
    ensures RegimeNow(cfg, env) == Some(LowVol)
  {
  }
}
