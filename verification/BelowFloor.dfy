/**
 * A soak started below its reserve floor (packages/config/src/index.ts:54,97 and
 * backend/src/paper-soak/controller.ts:137 admit one): the first lot it buys is not covered, and a recovery sell of it
 * can throw half way (backend/src/paper-soak/index.ts:416-433, virtual-account.ts:76-80).
 */
module BelowFloor {
  import opened Numeric
  import opened Sums
  import opened Domain
  import opened Orders
  import opened PaperAccount
  import opened Risk
  import opened Soaks
  import opened SoakBooks
  import opened DriverBooks
  import HarvestCycles
  import Lots = AccumulationLots
  import Funds = AccumulationBudget

  /**
   * The first lot a soak buys is covered by its active pool exactly when the soak was started with its floor covered.
   */
  lemma FirstLotCovered(cfg: SoakCfg, entryCost: real, start: int, o: Order, at: int, regime: Option<Regime>,
      tag: string)
    requires CfgOk(cfg) && start <= at && Pending(Started(cfg, entryCost, start), cfg, o) && o.reason == AccBuy
    ensures var out := AfterFill(Started(cfg, entryCost, start), cfg, o, at, regime, tag);
      !out.threw ==>
        && LotStock(out.soak) == o.quantity > 0.0
        && (ActiveZig(out.soak.account, cfg.account) >= LotStock(out.soak) <==>
             cfg.account.startZig >= cfg.account.reserveFloor)
  {
    hide Times, Over, AfterFill, Lots.NewLot, OrderCost, Funds.MaxSpend, Funds.Record, LotStock;
    var s := Started(cfg, entryCost, start);
    var t := TradeOf(o, Whole(o, at, regime, tag));
    AccBuyFill(s, cfg, o, at, regime, tag);
    if !AfterFill(s, cfg, o, at, regime, tag).threw {
      OnlyLot(s, AfterFill(s, cfg, o, at, regime, tag).soak, cfg, t);
    }
  }

  lemma OnlyLot(s: Soak, s': Soak, cfg: SoakCfg, t: PaperTrade)
    requires CfgOk(cfg) && t.size > 0.0 && t.price > 0.0 && s.lots == [] && BoughtLot(s, s', cfg, t)
    ensures LotStock(s') == t.size && |s'.lots| == 1 && Lots.HeldZig(s'.lots) == t.size
      && Lots.SurplusZig(s'.lots) == 0.0
  {
    hide Times, Over, Lots.NewLot, Funds.Record, Settled;
    var l := s'.lots[0];
    assert s'.lots == [] + [l];
    NewLotSound(s, cfg, t, l);
    SumByAppend([], l, Lots.Held);
    SumByAppend([], l, Lots.SurplusOf);
  }

  // ── A soak without ZIG under a floor of 1000 ─────────────────────────────

  function Config(): SoakCfg {
    SoakCfg(
      Bybit, "ZIGUSDT",
      AccountCfg(1000.0, 0.0, 5000.0, 0.0, Distances(150.0, 150.0, 250.0, 400.0, 600.0)),
      true,
      Lots.LotParams(500.0, 1.0),
      Funds.Caps(5000.0, 1.0, 1.0, 1.0, 0.0),
      RiskConfig(0.0, 0.0, 0.1, 0.1, 0.5, 0.1, 0.5, 0.5, 0.0, 10.0, 10, 50.0, 100.0, 3, 1000.0),
      HarvestParams(15_000, 60_000, 60_000, 100.0, 100.0, 60_000, 0.5),
      AccumulationParams(true, 2000.0, 60_000, 100.0, 0.0, 0.0, 100.0, true, true))
  }

  /** 2000 ZIG bought at 1 USDT; 800 of them sold at 2.5 USDT bring the 2000 USDT back. */
  function LotBuy(): Order {
    Order("zig-1", "1", Bybit, "ZIGUSDT", Buy, 1.0, 2000.0, 0.0, Status.Open, None, None, AccBuy, true, 0)
  }

  function LotSell(): Order {
    Order("zig-2", "2", Bybit, "ZIGUSDT", Sell, 2.5, 800.0, 0.0, Status.Open, Some([1]), None, AccRecovery, true, 0)
  }

  /** What matters of the configuration and of the two orders. */
  predicate NoPool(c: SoakCfg) {
    && c.exchange == Bybit && c.accEnabled && c.account.takerFeeBps == 0.0 && Pct(c) == 1.0
    && c.risk.minOrderZig == 10.0
    && c.account.reserveFloor == 1000.0 && c.account.startZig == 0.0 && c.account.startUsdt == 5000.0
    && c.caps == Funds.Caps(5000.0, 1.0, 1.0, 1.0, 0.0)
  }

  predicate BuysLot(o: Order) {
    && o.exchange == Bybit && o.rebuyDistanceBps == None && o.quantity == 2000.0 && o.price == 1.0 && o.side == Buy
    && o.reason == AccBuy && o.createdAt == 0
  }

  predicate SellsLot(o: Order) {
    && o.exchange == Bybit && o.rebuyDistanceBps == None && o.quantity == 800.0 && o.price == 2.5 && o.side == Sell
    && o.reason == AccRecovery && o.cycleIds == Some([1])
  }

  lemma InstanceIsReal()
    ensures CfgOk(Config()) && NoPool(Config()) && BuysLot(LotBuy()) && SellsLot(LotSell())
  {
  }

  lemma OpeningFacts(c: SoakCfg, s: Soak)
    requires NoPool(c) && s == Started(c, 0.0, 0)
    ensures s.account.usdt == 5000.0 && s.account.cycles == [] && s.lots == [] && s.budget == Funds.Fresh(0)
    ensures s.account.startingActive == 0.0 && s.account.zig == 0.0 && s.account.protectedSurplus == 0.0
      && s.account.reserveReleased == 0.0
  {
  }

  lemma LotBudget(c: SoakCfg)
    requires NoPool(c)
    ensures Funds.MaxSpend(Funds.RollDay(Funds.Fresh(0), 0), c.caps, 5000.0, 0.0) == 5000.0
    ensures HarvestCycles.RebuyReserve([]) == 0.0
  {
  }

  lemma LotCost(c: SoakCfg, o: Order, t: PaperTrade)
    requires NoPool(c) && t.size == o.quantity == 2000.0 && t.price == o.price == 1.0
    ensures OrderCost(o, c) == 2000.0 == BuyCost(t, c.account) && FeeUsdt(t, c.account) == 0.0
  {
    assert FeeRate(c.account) == 0.0;
    hide FeeRate;
  }

  lemma BuyIsPending(c: SoakCfg, s: Soak, o: Order)
    requires NoPool(c) && BuysLot(o) && OrderCost(o, c) <= 2000.0
    requires Funds.MaxSpend(Funds.RollDay(s.budget, 0), c.caps, s.account.usdt,
      HarvestCycles.RebuyReserve(s.account.cycles)) == 5000.0
    ensures Pending(s, c, o)
  {
    hide OrderCost, HarvestCycles.RebuyReserve, Funds.MaxSpend, Funds.RollDay, SellPending, RebuyPending,
      RecoveryPending;
  }

  /** One owing lot of 2000 ZIG for 2000 USDT, and nothing else. */
  predicate HoldsLot(s: Soak) {
    && |s.lots| == 1 && s.lots[0].id == 1 && Lots.Owing(s.lots[0]) && Lots.Held(s.lots[0]) == 2000.0
    && s.lots[0].usdtSpent == 2000.0 && s.lots[0].usdtRecovered == 0.0
    && s.account.zig == 2000.0 && s.account.startingActive == 0.0 && s.account.reserveReleased == 0.0
    && Lots.HeldZig(s.lots) == 2000.0 && Lots.SurplusZig(s.lots) == 0.0
  }

  lemma LotIsBought(c: SoakCfg, s: Soak, o: Order)
    requires CfgOk(c) && NoPool(c) && BuysLot(o) && s == Started(c, 0.0, 0)
    ensures Pending(s, c, o)
    ensures var out := AfterFill(s, c, o, 0, None, "buy"); !out.threw && Stock(out.soak, c) && HoldsLot(out.soak)
  {
    hide CfgOk, AfterFill, Started, Stock, BoughtLot, OrderCost, BuyCost, FillProblem, Timely, Pending, Custody, Times;
    var t := TradeOf(o, Whole(o, 0, None, "buy"));
    assert t.size == 2000.0 && t.price == 1.0 && t.side == Buy && t.at == 0;
    OpeningFacts(c, s);
    LotBudget(c);
    LotCost(c, o, t);
    BuyIsPending(c, s, o);
    Affords(s, c, t);
    AccBuyFill(s, c, o, 0, None, "buy");
    BoughtHolds(s, AfterFill(s, c, o, 0, None, "buy").soak, c, t);
    BoughtStock(c, s, o);
  }

  lemma BoughtStock(c: SoakCfg, s: Soak, o: Order)
    requires CfgOk(c) && s == Started(c, 0.0, 0) && Pending(s, c, o) && o.reason == AccBuy
    ensures Stock(AfterFill(s, c, o, 0, None, "buy").soak, c)
  {
    hide CfgOk, AfterFill, Pending, Stock;
    StartedCustody(c, 0.0, 0);
    assert Timely(s, 0);
    hide Started;
    AccBuyCustody(s, c, o, 0, None, "buy");
  }

  lemma Affords(s: Soak, cfg: SoakCfg, t: PaperTrade)
    requires t.side == Buy && t.size > 0.0 && t.price > 0.0 && BuyCost(t, cfg.account) <= s.account.usdt
    ensures FillProblem(s.account, cfg.account, t) == None
  {
    hide BuyCost, FeeUsdt;
  }

  lemma BoughtHolds(s: Soak, s': Soak, cfg: SoakCfg, t: PaperTrade)
    requires CfgOk(cfg) && BoughtLot(s, s', cfg, t) && t.side == Buy && t.size == 2000.0 && t.price == 1.0
    requires s.lots == [] && s.account.zig == 0.0 && s.account.startingActive == 0.0
      && s.account.reserveReleased == 0.0 && BuyCost(t, cfg.account) == 2000.0
    ensures HoldsLot(s')
  {
    OnlyLot(s, s', cfg, t);
    NewLotSound(s, cfg, t, s'.lots[0]);
    NewLotTime(s, cfg, t);
    NothingRecovered(s, cfg, t);
    hide CfgOk, Times, Over, Lots.NewLot, Funds.Record, BuyCost, FeeUsdt, Lots.HeldZig, Lots.SurplusZig;
  }

  lemma NothingRecovered(s: Soak, cfg: SoakCfg, t: PaperTrade)
    ensures Lots.NewLot(|s.lots| + 1, t.size, t.price, FeeUsdt(t, cfg.account), cfg.lots, t.at).usdtRecovered == 0.0
  {
    hide Times, Over;
  }

  /**
   * The handler throws on a recovery sell within the active pool: 1200 ZIG of surplus are left over where only 200 lie
   * above the floor. By then balance, lot and budget have moved, and nothing of the surplus is protected. The risk
   * engine approves no such sell, since the soak opened without a pool.
   */
  lemma RecoveryThrowsBelowFloor(c: SoakCfg, buy: Order, sell: Order)
    requires CfgOk(c) && NoPool(c) && BuysLot(buy) && SellsLot(sell)
    ensures Pending(Started(c, 0.0, 0), c, buy)
    ensures var s := AfterFill(Started(c, 0.0, 0), c, buy, 0, None, "buy").soak;
      var out := AfterFill(s, c, sell, 0, None, "sell");
      && sell.quantity <= ActiveZig(s.account, c.account) < LotStock(s)
      && RecoveryOrder(s, c, sell) && !Pending(s, c, sell)
      && out.threw
      && out.soak.account.zig == 1200.0 && Lots.HeldZig(out.soak.lots) == 1200.0
      && Lots.SurplusZig(out.soak.lots) == 1200.0 && out.soak.account.protectedSurplus == 0.0
  {
    hide CfgOk, AfterFill, Started;
    LotIsBought(c, Started(c, 0.0, 0), buy);
    SellThrows(c, AfterFill(Started(c, 0.0, 0), c, buy, 0, None, "buy").soak, sell);
  }

  lemma SellThrows(c: SoakCfg, s: Soak, o: Order)
    requires CfgOk(c) && NoPool(c) && Stock(s, c) && HoldsLot(s) && SellsLot(o)
    ensures var out := AfterFill(s, c, o, 0, None, "sell");
      && o.quantity <= ActiveZig(s.account, c.account) < LotStock(s)
      && RecoveryOrder(s, c, o) && !Pending(s, c, o)
      && out.threw
      && out.soak.account.zig == 1200.0 && Lots.HeldZig(out.soak.lots) == 1200.0
      && Lots.SurplusZig(out.soak.lots) == 1200.0 && out.soak.account.protectedSurplus == 0.0
  {
    assert Times(800.0, 2.5 - Times(0.0, 2.5)) == 2000.0 && Times(1.0, 2000.0) == 2000.0;
    assert FeeRate(c.account) == 0.0;
    hide CfgOk, AfterFill, Times, Over, Lots.HeldZig, Lots.SurplusZig, Lots.AllSound, Lots.LotsInOrder, FeeRate,
      SellPending, RebuyPending, AccBuyPending;
    assert AimedAt(s, o, 0);
    RecoveryThrows(s, c, o, 0, 0, None, "sell");
  }
}
