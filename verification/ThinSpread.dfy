/**
 * The spread condition of rebuy solvency is exact (backend/src/paper-soak/cycle-tracker.ts:95-108,
 * rebuy-distance.ts:28-36): a soak without cash can buy its first sell back exactly when the distance of the regime
 * pays for both fees.
 */
module ThinSpread {
  import opened Numeric
  import opened Sums
  import opened Domain
  import opened Orders
  import opened PaperAccount
  import opened Risk
  import opened Soaks
  import opened SoakBooks
  import opened Solvency
  import opened DriverBooks
  import opened PriceBuckets
  import opened Desks
  import opened DeskRuns
  import opened FillTraces
  import opened CalmMarkets
  import opened Drivers
  import opened DriverRuns
  import opened DriverTheorems
  import HarvestCycles
  import Lots = AccumulationLots
  import Funds = AccumulationBudget

  /**
   * The first sell of a soak without cash leaves it funded exactly when the spread of its regime pays for both fees.
   */
  lemma FirstSell(cfg: SoakCfg, entryCost: real, start: int, o: Order, at: int, regime: Option<Regime>, tag: string)
    requires CfgOk(cfg) && cfg.account.startUsdt == 0.0 && Pending(Started(cfg, entryCost, start), cfg, o)
    requires o.reason == HarvestSell
    ensures var out := AfterFill(Started(cfg, entryCost, start), cfg, o, at, regime, tag);
      && !out.threw
      && (Funded(out.soak, cfg) <==> PaysFees(cfg, RebuyDistanceBps(regime, cfg.account.distances)))
  {
    hide Times, AfterFill, Pending, Started, CfgOk, PaysFees, RebuyDistanceBps, Custody, HarvestCycles.NewCycle;
    var s := Started(cfg, entryCost, start);
    var t := TradeOf(o, Whole(o, at, regime, tag));
    StartedCustody(cfg, entryCost, start);
    SellCustody(s, cfg, o, at, regime, tag);
    HarvestFill(s, cfg, o, at, regime, tag);
    PendingSides(s, cfg, o);
    var s' := AfterFill(s, cfg, o, at, regime, tag).soak;
    NothingOwed(cfg, entryCost, start);
    SellSettles(s, s', cfg, t);
    SpreadFunds(t, cfg, RebuyDistanceBps(regime, cfg.account.distances));
  }

  lemma NothingOwed(cfg: SoakCfg, entryCost: real, start: int)
    ensures var s := Started(cfg, entryCost, start); var g := 1.0 + FeeRate(cfg.account);
      && s.account.usdt == cfg.account.startUsdt && Reserve(s) == 0.0 && RebuyPrices(s) == 0.0
      && Times(g, 0.0) == 0.0 && Times(HarvestCycles.EPS, 0.0) == 0.0
  {
    var s := Started(cfg, entryCost, start);
    assert Times(1.0 + FeeRate(cfg.account), 0.0) == 0.0 && Times(HarvestCycles.EPS, 0.0) == 0.0;
    hide Times;
    if s.account.fills != [] {
      SumByAppend([], s.account.fills[0], BuyPrice);
      assert [] + [s.account.fills[0]] == s.account.fills;
    }
  }

  /** So the condition of rebuy solvency is what every regime's first sell needs. */
  lemma SpreadIsExact(cfg: SoakCfg, entryCost: real, start: int, o: Order, at: int, tag: string)
    requires CfgOk(cfg) && cfg.account.startUsdt == 0.0 && Pending(Started(cfg, entryCost, start), cfg, o)
    requires o.reason == HarvestSell
    ensures SpreadCoversFees(cfg)
      <==> forall r: Regime :: Funded(AfterFill(Started(cfg, entryCost, start), cfg, o, at, Some(r), tag).soak, cfg)
  {
    hide AfterFill, Pending, Started, CfgOk, PaysFees, RebuyDistanceBps, SpreadCoversFees, Funded;
    EachSpreadPays(cfg);
    forall r: Regime
      ensures Funded(AfterFill(Started(cfg, entryCost, start), cfg, o, at, Some(r), tag).soak, cfg)
        <==> PaysFees(cfg, RebuyDistanceBps(Some(r), cfg.account.distances))
    {
      FirstSell(cfg, entryCost, start, o, at, Some(r), tag);
    }
  }

  // ── A run that ends short ────────────────────────────────────────────────

  /** 10000 ZIG and no USDT, a taker fee of 10 basis points and rebuys 10 basis points below their sells. */
  function Config(): SoakCfg {
    SoakCfg(
      Bybit, "ZIGUSDT",
      AccountCfg(0.0, 10_000.0, 0.0, 10.0, Distances(0.0, 10.0, 10.0, 10.0, 10.0)),
      false,
      Lots.LotParams(500.0, 1.0),
      Funds.Caps(0.0, 0.3, 0.1, 0.5, 0.0),
      RiskConfig(10.0, 0.0, 0.1, 0.5, 0.5, 0.5, 0.5, 0.5, 0.0, 10.0, 10, 50.0, 100.0, 3, 0.0),
      HarvestParams(15_000, 60_000, 60_000, 100.0, 100.0, 60_000, 0.5),
      AccumulationParams(true, 2000.0, 60_000, 100.0, 0.0, 0.0, 100.0, true, true))
  }

  /** Bid and ask at 1 USDT in a calm market, a zone that sells, and luck for the first order. */
  function CalmMarket(): Env {
    var m := Market(Some(1.0), Some(1.0), 10_000.0, 10_000.0, 0.0, true, true, [], 0, 0, LowVol);
    var v := Venue(Some(m), None, None, [], None);
    Env(0, PaperMode, v, v, AllowedActions(true, true, false, false), false, true, None, {"zig-1"}, "1", "a")
  }

  /** What matters of the two. */
  predicate NoCash(c: SoakCfg) {
    && c.exchange == Bybit && !c.accEnabled
    && c.account.reserveFloor == 0.0 && c.account.startZig == 10_000.0 && c.account.startUsdt == 0.0
    && c.account.takerFeeBps == 10.0 && c.account.distances == Distances(0.0, 10.0, 10.0, 10.0, 10.0)
    && c.risk == RiskConfig(10.0, 0.0, 0.1, 0.5, 0.5, 0.5, 0.5, 0.5, 0.0, 10.0, 10, 50.0, 100.0, 3, 0.0)
    && c.harvest.maxUnrecoveredActivePct == 0.5
  }

  predicate CalmDay(env: Env) {
    && Calm(env, 1.0) && env.allowed.harvestSell && "zig-" + env.uuid in env.lucky
    && env.bybit.market.value.bidLiquidity == 10_000.0
  }

  lemma InstanceIsReal()
    ensures CfgOk(Config()) && NoCash(Config()) && CalmDay(CalmMarket())
  {
    assert "zig-" + "1" == "zig-1";
  }

  /** The driver's first tick sells 1000 ZIG at the bid. */
  function FirstRequest(c: SoakCfg, env: Env): Request {
    Limit(c, env, Sell, 1000.0, 1.0, None, HarvestSell)
  }

  lemma TickSells(c: SoakCfg, env: Env, s: Soak, q: Quote, mem: Memory)
    requires CfgOk(c) && NoCash(c) && CalmDay(env) && mem == Blank() && q.bid == 1.0 && q.ask == 1.0
    requires s.account.cycles == [] && s.account.zig == 10_000.0 && s.account.startingActive == 10_000.0
      && s.account.protectedSurplus == 0.0 && s.account.reserveReleased == 0.0 && 0 <= env.now
    ensures Choose(s, mem, c, env, q) == Choice(SellHarvest(1000.0), s)
  {
    hide PriceBucketId;
    assert HarvestCycles.OpenForRebuy([], q.ask) == [];
    assert HarvestStock(s, c) == 10_000.0 && UnrecoveredCap(s, c) == 5000.0;
    assert Times(Times(10_000.0, 0.1), 1.0) == 1000.0;
    hide Times, HarvestStock, UnrecoveredCap;
  }

  lemma GateApproves(c: SoakCfg, env: Env, d: Desk)
    requires CfgOk(c) && NoCash(c) && CalmDay(env)
    requires d.soak.account.zig == 10_000.0 && d.soak.account.startingActive == 10_000.0 && d.soak.account.day == None
      && d.soak.account.protectedSurplus == 0.0 && d.soak.account.reserveReleased == 0.0
    ensures var risk := Decide(d, c, env, FirstRequest(c, env), []); risk.verdict == Allow && risk.approvedQty == 1000.0
  {
    assert Times(0.1, 10_000.0) == 1000.0 && Times(0.5, 10_000.0) == 5000.0 && Over(10_000.0, 1.0) == 10_000.0;
    hide Decide, Times, Over;
    CalmSell(d, c, env, FirstRequest(c, env), 1.0);
  }

  function FirstOrder(c: SoakCfg, env: Env): Order { Sent(FirstRequest(c, env), env.now) }

  lemma StartFacts(c: SoakCfg, entryCost: real, now: int)
    requires NoCash(c)
    ensures var a := NewDesk(c, entryCost, now).soak.account;
      && a.zig == 10_000.0 && a.startingActive == 10_000.0 && a.day == None && a.cycles == []
      && a.protectedSurplus == 0.0 && a.reserveReleased == 0.0
    ensures forall id :: Quiet(NewDesk(c, entryCost, now), id)
  {
  }

  lemma QuoteIsPar(c: SoakCfg, env: Env)
    requires NoCash(c) && CalmDay(env)
    ensures QuoteOf(c, env) == Some(Quote(1.0, 1.0, env.bybit.market.value)) && RegimeNow(c, env) == Some(LowVol)
  {
  }

  lemma OrderMayFill(c: SoakCfg, env: Env, s: Soak)
    requires NoCash(c) && CalmDay(env) && s.account.zig == 10_000.0 && s.account.protectedSurplus == 0.0
      && s.account.reserveReleased == 0.0
    ensures PendingAllowed(FirstOrder(c, env), env.allowed, s, c, env.now) && Fills(c, env, FirstOrder(c, env))
  {
    hide LotStock, SumUnrecovered, Lots.HeldZig, Times;
  }

  /** The tick submits that order, and it fills at once. */
  lemma FirstTick(c: SoakCfg, entryCost: real, env: Env)
    requires CfgOk(c) && NoCash(c) && CalmDay(env) && 0 <= env.now
    ensures var d := NewDesk(c, entryCost, env.now);
      && Pending(d.soak, c, FirstOrder(c, env))
      && DriverTick(Trader(d, Blank()), c, env).desk.soak ==
           AfterFill(d.soak, c, FirstOrder(c, env), env.now, Some(LowVol), env.tag).soak
  {
    hide CfgOk, Choose, Submit, OnPaperFill, Decide, Fills, PendingAllowed, Pending, Books, RegimeNow, Timely, Solid,
      Started, Quiet;
    var d, req, o := NewDesk(c, entryCost, env.now), FirstRequest(c, env), FirstOrder(c, env);
    QuoteIsPar(c, env);
    var q := QuoteOf(c, env).value;
    StartFacts(c, entryCost, env.now);
    TickSells(c, env, d.soak, q, Blank());
    GateApproves(c, env, d);
    OrderMayFill(c, env, d.soak);
    LoneOrderFills(d, c, env, req, o);
    StartedBooks(c, entryCost, env.now);
    hide QuoteOf, NoCash, CalmDay;
    assert Asked(d, Blank(), c, env, q) == d && OpenOrders(d.reg.orders) == [];
    ChosenIsPending(d, Blank(), c, env, q, req, o);
  }

  lemma OneTick(c: SoakCfg, entryCost: real, env: Env)
    requires CfgOk(c)
    ensures Reached(c, entryCost, env.now, [TimerFires(env)]) ==
      DriverTick(Trader(NewDesk(c, entryCost, env.now), Blank()), c, env)
    ensures NewDesk(c, entryCost, env.now).soak == Started(c, entryCost, env.now)
  {
    hide DriverTick, CfgOk;
    var steps := [TimerFires(env)];
    assert steps[..0] == [];
    hide NewDesk;
    assert DriverRun(Trader(NewDesk(c, entryCost, env.now), Blank()), c, []) ==
      Trader(NewDesk(c, entryCost, env.now), Blank());
  }

  lemma SpreadIsThin(c: SoakCfg)
    requires NoCash(c)
    ensures !SpreadCoversFees(c) && !PaysFees(c, RebuyDistanceBps(Some(LowVol), c.account.distances))
  {
    assert FeeRate(c.account) == 0.001 && LeastBps(c.account.distances) == 10.0 && Bps(10.0) == 0.001;
    assert Times(1.001, 0.001) < 0.002;
  }

  /** One tick of the driver later the soak has 999 USDT, where buying back takes 999.999. */
  lemma RunEndsShort(c: SoakCfg, entryCost: real, env: Env)
    requires CfgOk(c) && NoCash(c) && CalmDay(env) && 0 <= env.now
    ensures FromStart(c, entryCost, env.now, [TimerFires(env)]) && !SpreadCoversFees(c)
    ensures !Funded(Reached(c, entryCost, env.now, [TimerFires(env)]).desk.soak, c)
  {
    hide Reached, DriverTick, CfgOk, NewDesk, Pending, AfterFill, Funded, PaysFees, SpreadCoversFees, RebuyDistanceBps,
      CalmDay;
    OneTick(c, entryCost, env);
    SpreadIsThin(c);
    FirstTick(c, entryCost, env);
    FirstSell(c, entryCost, env.now, FirstOrder(c, env), env.now, Some(LowVol), env.tag);
  }
}
