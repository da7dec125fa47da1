/**
 * The price bound of cash safety is exact (backend/src/decision-gate/sizing/sizing-engine.ts:15-61,
 * backend/src/paper-soak/virtual-account.ts:96-108): the gate lets a buy through whole that costs up to the size
 * tolerance too much, and above 100 USDT that is more than the account tolerates.
 */
module DearPrices {
  import opened Numeric
  import opened Domain
  import opened Orders
  import opened PaperAccount
  import opened Risk
  import opened Soaks
  import opened Desks
  import opened DeskSteps
  import opened Settlement
  import opened DeskRuns
  import opened FillTraces
  import opened CalmMarkets
  import Lots = AccumulationLots
  import Funds = AccumulationBudget

  /** Cash for 1000 ZIG at `price`, fee included, but for the size tolerance; half of the book may be taken. */
  predicate Tight(cfg: SoakCfg, env: Env, price: real) {
    && CfgOk(cfg) && Lenient(cfg) && Calm(env, price) && env.allowed.accumulationBuy
    && cfg.risk.minOrderZig <= 999.0 && cfg.risk.maxDailyBuyUsdtPct == 1.0
    && cfg.account.startUsdt == Times(WithFee(price, cfg), 1000.0 - SIZE_TOLERANCE)
    && cfg.risk.liquidityParticipationPct == 0.5 && env.bybit.market.value.askLiquidity == Times(price, 2000.0)
  }

  function BuyRequest(cfg: SoakCfg, env: Env, price: real): Request {
    Limit(cfg, env, Buy, 1000.0, price, None, AccBuy)
  }

  lemma UnitCost(cfg: SoakCfg, price: real)
    requires CfgOk(cfg) && Lenient(cfg) && price > 0.0
    ensures Times(price, CostFactor(PaperMode, cfg.risk)) == WithFee(price, cfg) > 0.0
  {
    TimesPositive(price, 1.0 + FeeRate(cfg.account));
  }

  /** 1000 ZIG cost the size tolerance at the price with its fee more than there is. */
  lemma CashIsShort(cfg: SoakCfg, env: Env, price: real)
    requires Tight(cfg, env, price)
    ensures price > 0.0 && WithFee(price, cfg) > 0.0 && cfg.account.startUsdt > 0.0
    ensures Over(cfg.account.startUsdt, WithFee(price, cfg)) == 1000.0 - SIZE_TOLERANCE
    ensures WithFee(Times(1000.0, price), cfg) == cfg.account.startUsdt + SIZE_TOLERANCE * WithFee(price, cfg)
    ensures Times(1.0, cfg.account.startUsdt) == cfg.account.startUsdt
    ensures Over(env.bybit.market.value.askLiquidity, price) == 2000.0 && Times(0.5, 2000.0) == 1000.0
  {
    UnitCost(cfg, price);
    TimesPositive(WithFee(price, cfg), 1000.0 - SIZE_TOLERANCE);
    OverTimes(1000.0 - SIZE_TOLERANCE, WithFee(price, cfg));
    OverTimes(2000.0, price);
    assert WithFee(Times(1000.0, price), cfg) == 1000.0 * WithFee(price, cfg);
  }

  lemma StartFacts(cfg: SoakCfg, entryCost: real, now: int, id: OrderId)
    ensures var d := NewDesk(cfg, entryCost, now);
      && d.soak.account.usdt == cfg.account.startUsdt && d.soak.account.day == None && d.reg.orders == []
      && Quiet(d, id)
  {
  }

  lemma BuyPasses(cfg: SoakCfg, entryCost: real, env: Env, price: real)
    requires Tight(cfg, env, price)
    ensures Passes(NewDesk(cfg, entryCost, env.now), cfg, env, BuyRequest(cfg, env, price),
      Sent(BuyRequest(cfg, env, price), env.now))
    ensures Fills(cfg, env, Sent(BuyRequest(cfg, env, price), env.now)) <==> "zig-" + env.uuid in env.lucky
  {
    hide Fills, Decide, Quiet, WithFee, Times, Over, CostFactor, NewDesk;
    var d, req := NewDesk(cfg, entryCost, env.now), BuyRequest(cfg, env, price);
    StartFacts(cfg, entryCost, env.now, ClientOrderId(req));
    UnitCost(cfg, price);
    CashIsShort(cfg, env, price);
    CalmBuy(d, cfg, env, req, price, 1000.0 - SIZE_TOLERANCE);
    CalmFills(cfg, env, Sent(req, env.now), price);
  }

  lemma OneStep(cfg: SoakCfg, entryCost: real, start: int, s: Step)
    requires CfgOk(cfg)
    ensures After(cfg, entryCost, start, []) == NewDesk(cfg, entryCost, start)
    ensures After(cfg, entryCost, start, [s]) == Take(NewDesk(cfg, entryCost, start), cfg, s)
  {
    hide Take, NewDesk, CfgOk;
    assert [s][..0] == [];
  }

  /** When the order fills, the account has the cash exactly when the price with its fee is at most 100 USDT. */
  lemma PaidUpToHundred(cfg: SoakCfg, entryCost: real, env: Env, price: real)
    requires Tight(cfg, env, price) && "zig-" + env.uuid in env.lucky
    ensures var s := SubmitOrder(env, BuyRequest(cfg, env, price)); var top := WithFee(price, cfg);
      && ProperRun(cfg, env.now, [s], top)
      && |Fillings(After(cfg, entryCost, env.now, []), cfg, s)| == 1
      && (Paid(Fillings(After(cfg, entryCost, env.now, []), cfg, s)[0], cfg) <==> top <= 100.0)
  {
    hide Passes, Calm, CfgOk, Lenient, NewDesk, OnArrival, NewsOf, WithFee, Times, Over, Fills, Paid, OnPaperFill,
      Quiet,
      Submit;
    var d, req := NewDesk(cfg, entryCost, env.now), BuyRequest(cfg, env, price);
    var o := Sent(req, env.now);
    BuyPasses(cfg, entryCost, env, price);
    LoneOrderFills(d, cfg, env, req, o);
    OneStep(cfg, entryCost, env.now, SubmitOrder(env, req));
    CashIsShort(cfg, env, price);
    StartFacts(cfg, entryCost, env.now, o.clientOrderId);
    CostsAll(d, cfg, env, o, price);
  }

  lemma CostsAll(d: Desk, cfg: SoakCfg, env: Env, o: Order, price: real)
    requires Tight(cfg, env, price) && o.side == Buy && o.quantity == 1000.0 && o.price == price
      && d.soak.account.usdt == cfg.account.startUsdt
    ensures Paid(Filling(d.soak, o, NewsOf(cfg, env, o)), cfg) <==> WithFee(price, cfg) <= 100.0
  {
    var t := TradeOf(o, NewsOf(cfg, env, o));
    CashIsShort(cfg, env, price);
    Amounts(t, cfg);
    hide Times, Over, WithFee, BuyCost, FeeUsdt;
  }

  /** When it rests instead, what is open exceeds the cash by the size tolerance: the bound of safety is attained. */
  lemma RestingAttainsBound(cfg: SoakCfg, entryCost: real, env: Env, price: real)
    requires Tight(cfg, env, price) && "zig-" + env.uuid !in env.lucky
    ensures var s := SubmitOrder(env, BuyRequest(cfg, env, price)); var top := WithFee(price, cfg);
      var d := After(cfg, entryCost, env.now, [s]);
      && ProperRun(cfg, env.now, [s], top)
      && d.soak.account.usdt - WithFee(OpenBuys(d.reg.orders, cfg), cfg) == -(1e-9 * top)
  {
    hide Passes, Calm, CfgOk, Lenient, NewDesk, Submit, WithFee, Times, Over, Fills, Quiet;
    var d, req := NewDesk(cfg, entryCost, env.now), BuyRequest(cfg, env, price);
    var o := Sent(req, env.now);
    BuyPasses(cfg, entryCost, env, price);
    LoneOrderRests(d, cfg, env, req, o);
    OneStep(cfg, entryCost, env.now, SubmitOrder(env, req));
    CashIsShort(cfg, env, price);
    StartFacts(cfg, entryCost, env.now, o.clientOrderId);
    AppendCommits([], o.(status := Status.Open), cfg);
    FreshCommits(o.(status := Status.Open), cfg);
  }

  /** Such a soak exists for every price and fee, and chance may go either way. */
  lemma InstanceIsReal(price: real, feeBps: real, lucky: bool) returns (cfg: SoakCfg, env: Env)
    requires price > 0.0 && 0.0 <= feeBps < 10_000.0
    ensures Tight(cfg, env, price) && cfg.account.takerFeeBps == feeBps && ("zig-" + env.uuid in env.lucky <==> lucky)
  {
    var usdt := Times(Times(price, 1.0 + Bps(feeBps)), 1000.0 - SIZE_TOLERANCE);
    cfg := SoakCfg(
      Bybit, "ZIGUSDT",
      AccountCfg(0.0, 0.0, usdt, feeBps, Distances(150.0, 150.0, 250.0, 400.0, 600.0)),
      false,
      Lots.LotParams(500.0, 1.0),
      Funds.Caps(usdt, 0.3, 0.1, 0.5, 0.0),
      RiskConfig(feeBps, 0.0, 0.1, 0.1, 1.0, 0.5, 0.5, 0.5, 0.0, 10.0, 10, 50.0, 100.0, 3, 0.0),
      HarvestParams(15_000, 60_000, 60_000, 100.0, 100.0, 60_000, 0.5),
      AccumulationParams(true, 2000.0, 60_000, 100.0, 0.0, 0.0, 100.0, true, true));
    var liquidity := Times(price, 2000.0);
    var m := Market(Some(price), Some(price), liquidity, liquidity, 0.0, true, true, [], 0, 0, LowVol);
    var v := Venue(Some(m), None, None, [], None);
    var allowed := AllowedActions(true, true, true, true);
    env := Env(0, PaperMode, v, v, allowed, false, true, None, if lucky then {"zig-" + "1"} else {}, "1", "a");
    hide Times;
  }
}
