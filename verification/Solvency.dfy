/**
 * Rebuy solvency (backend/src/accumulation/accumulation-budget.ts:52-60, cycle-tracker.ts:152-159): open harvest cycles
 * can be bought back from the cash at hand, fees included.
 */
module Solvency {
  import opened Numeric
  import opened Sums
  import opened Domain
  import opened Orders
  import opened PaperAccount
  import opened Soaks
  import opened SoakBooks
  import opened PricedBooks
  import HarvestCycles
  import Lots = AccumulationLots
  import Funds = AccumulationBudget

  /** Price of an executed buy; the synthetic opening position is not one. */
  function BuyPrice(f: Fill): real {
    if f.side == Buy && !f.fillId.OpeningFillId? then f.price else 0.0
  }

  function LotPrice(l: Lots.Lot): real { l.avgBuyPrice }

  /** Sum of the prices of all harvest rebuys so far: every executed buy that opened no lot. */
  function RebuyPrices(s: Soak): real {
    SumBy(s.account.fills, BuyPrice) - SumBy(s.lots, LotPrice)
  }

  /** Up to 1e-9 ZIG of each rebuy may have found no cycle. */
  function RebuyDust(s: Soak): real { Times(HarvestCycles.EPS, RebuyPrices(s)) }

  function Reserve(s: Soak): real { HarvestCycles.RebuyReserve(Cycles(s)) }

  /** Cash covers every open cycle at its target with the taker fee on top, up to the dust of past rebuys. */
  predicate Funded(s: Soak, cfg: SoakCfg) {
    && RebuyPrices(s) >= 0.0
    && s.account.usdt + Times(1.0 + FeeRate(cfg.account), RebuyDust(s)) >= Times(1.0 + FeeRate(cfg.account), Reserve(s))
  }

  /** The least distance of a cycle whose regime is known. */
  function LeastBps(d: Distances): real {
    Min(Min(RebuyDistanceBps(Some(LowVol), d), RebuyDistanceBps(Some(NormalVol), d)),
        Min(RebuyDistanceBps(Some(HighVol), d), RebuyDistanceBps(Some(Chaotic), d)))
  }

  /** The spread of a distance pays for both fees of a cycle: d >= 2f / (1 + f). */
  predicate PaysFees(cfg: SoakCfg, bps: real) {
    Times(1.0 + FeeRate(cfg.account), Bps(bps)) >= 2.0 * FeeRate(cfg.account)
  }

  /** So do the spreads of all regimes. */
  predicate SpreadCoversFees(cfg: SoakCfg) {
    PaysFees(cfg, LeastBps(cfg.account.distances))
  }

  lemma EachSpreadPays(cfg: SoakCfg)
    requires CfgOk(cfg)
    ensures SpreadCoversFees(cfg) <==>
      forall r: Regime :: PaysFees(cfg, RebuyDistanceBps(Some(r), cfg.account.distances))
  {
    var d, g := cfg.account.distances, 1.0 + FeeRate(cfg.account);
    hide Times;
    forall r: Regime
      ensures Times(g, Bps(LeastBps(d))) <= Times(g, Bps(RebuyDistanceBps(Some(r), d)))
    {
      TimesMono(Bps(LeastBps(d)), Bps(RebuyDistanceBps(Some(r), d)), g);
    }
    var least: Regime :| RebuyDistanceBps(Some(least), d) == LeastBps(d);
  }

  /**
   * Cash and deployed capital together still hold the opening cash and what buys every open cycle back with its fee,
   * up to the dust of past rebuys. Lots cost what the budget says they cost, and a recovery gives it no more than it
   * brought in.
   */
  predicate Solid(s: Soak, cfg: SoakCfg) {
    && RebuyPrices(s) >= 0.0
    && s.account.usdt + s.budget.deployed + Times(1.0 + FeeRate(cfg.account), RebuyDust(s))
       >= cfg.account.startUsdt + Times(1.0 + FeeRate(cfg.account), Reserve(s))
  }

  /** Accumulation may deploy no more than the opening cash, so what is solid is funded. */
  lemma SolidIsFunded(s: Soak, cfg: SoakCfg)
    requires CfgOk(cfg) && cfg.account.startUsdt >= 0.0 && Solid(s, cfg)
      && s.budget.deployed <= Funds.BudgetCap(cfg.caps)
    ensures Funded(s, cfg)
  {
    MulMono(cfg.caps.budgetPct, 1.0, cfg.account.startUsdt);
    hide RebuyPrices, RebuyDust, Reserve, CfgOk;
  }

  /**
   * Proceeds of a sell pay for its whole rebuy at the target, fees on both legs, exactly when the spread covers both
   * fees.
   */
  lemma SellFunds(q: real, p: real, d: real, f: real)
    requires q > 0.0 && p > 0.0
    ensures Times(q, p) - Times(f, Times(q, p)) >= Times(1.0 + f, Times(q, Times(p, 1.0 - d))) <==>
      Times(1.0 + f, d) >= 2.0 * f
  {
    var n := q * p;
    var k := (1.0 + f) * d - 2.0 * f;
    TimesPositive(q, p);
    assert q * (p * (1.0 - d)) == n * (1.0 - d);
    assert n - f * n - (1.0 + f) * (n * (1.0 - d)) == n * k;
    if k >= 0.0 {
      MulNonneg(n, k);
    } else {
      TimesPositive(n, -k);
    }
  }

  lemma SellSolid(s: Soak, cfg: SoakCfg, o: Order, at: int, regime: Option<Regime>, tag: string)
    requires CfgOk(cfg) && SpreadCoversFees(cfg) && Solid(s, cfg) && Pending(s, cfg, o) && o.reason == HarvestSell
      && regime.Some?
    ensures Solid(AfterFill(s, cfg, o, at, regime, tag).soak, cfg)
  {
    hide Times, Over, AfterFill, ActiveZig, LotStock, UnrecoveredCap, HarvestCycles.NewCycle, PaysFees,
      SpreadCoversFees;
    HarvestFill(s, cfg, o, at, regime, tag);
    var s' := AfterFill(s, cfg, o, at, regime, tag).soak;
    if s' != s {
      var t := TradeOf(o, Whole(o, at, regime, tag));
      SellSettles(s, s', cfg, t);
      EachSpreadPays(cfg);
      assert PaysFees(cfg, RebuyDistanceBps(regime, cfg.account.distances));
      SpreadFunds(t, cfg, RebuyDistanceBps(regime, cfg.account.distances));
    }
  }

  /** What a harvest sell adds to the cash and to the reserve. */
  lemma SellSettles(s: Soak, s': Soak, cfg: SoakCfg, t: PaperTrade)
    requires Traded(s, s', cfg, t) && t.kind == Harvest && t.side == Sell && t.distanceOverride == None
    ensures s'.account.usdt == s.account.usdt + SellProceeds(t, cfg.account) && s'.budget == s.budget
    ensures Reserve(s') == Reserve(s) + SellOwes(t, cfg)
    ensures RebuyPrices(s') == RebuyPrices(s)
    ensures Times(1.0 + FeeRate(cfg.account), Reserve(s'))
      == Times(1.0 + FeeRate(cfg.account), Reserve(s)) + Times(1.0 + FeeRate(cfg.account), SellOwes(t, cfg))
  {
    hide Times, Over, HarvestCycles.NewCycle;
    SellOpens(s, cfg, t);
    NewCycleKeeps(|Cycles(s)| + 1, t, cfg.account);
    var c := Cycles(s')[|Cycles(s)|];
    SumByAppend(Cycles(s), c, HarvestCycles.Owed);
    SumByAppend(s.account.fills, LedgerFill(t, cfg.account), BuyPrice);
    TimesSum(1.0 + FeeRate(cfg.account), Reserve(s), SellOwes(t, cfg));
  }

  lemma TimesSum(g: real, a: real, b: real)
    ensures Times(g, a + b) == Times(g, a) + Times(g, b)
  {
  }

  /** What buying the whole sell back at its target will cost before the fee. */
  function SellOwes(t: PaperTrade, cfg: SoakCfg): real {
    Times(t.size, Times(t.price, 1.0 - Bps(RebuyDistanceBps(t.regime, cfg.account.distances))))
  }

  lemma SpreadFunds(t: PaperTrade, cfg: SoakCfg, bps: real)
    requires t.size > 0.0 && t.price > 0.0 && bps == RebuyDistanceBps(t.regime, cfg.account.distances)
    ensures SellProceeds(t, cfg.account) >= Times(1.0 + FeeRate(cfg.account), SellOwes(t, cfg)) <==> PaysFees(cfg, bps)
  {
    hide Times;
    SellFunds(t.size, t.price, Bps(bps), FeeRate(cfg.account));
  }

  /** What a rebuy costs is what it takes off the reserve, fee included, up to the dust no cycle took. */
  lemma RebuyFunds(q: real, left: real, p: real, f: real, reserve: real, reserve': real, prices: real)
    requires 0.0 <= left <= HarvestCycles.EPS && p > 0.0 && f >= 0.0
    requires reserve' <= reserve - Times(q - left, p)
    ensures Times(1.0 + f, reserve') + Times(q, p) + Times(f, Times(q, p))
      <= Times(1.0 + f, reserve) +
        Times(1.0 + f, Times(HarvestCycles.EPS, prices + p)) - Times(1.0 + f, Times(HarvestCycles.EPS, prices))
  {
    MulMono(left, HarvestCycles.EPS, p);
    assert (q - left) * p == q * p - left * p;
    TimesMono(reserve', reserve - q * p + HarvestCycles.EPS * p, 1.0 + f);
  }

  lemma RebuySolid(s: Soak, cfg: SoakCfg, o: Order, at: int, regime: Option<Regime>, tag: string)
    requires CfgOk(cfg) && Solid(s, cfg) && Priced(s, cfg) && Pending(s, cfg, o) && o.reason == HarvestRebuy
    ensures Solid(AfterFill(s, cfg, o, at, regime, tag).soak, cfg)
  {
    hide Times, Over, AfterFill, HarvestCycles.OpenForRebuy, HarvestCycles.AfterBuy;
    HarvestFill(s, cfg, o, at, regime, tag);
    var s' := AfterFill(s, cfg, o, at, regime, tag).soak;
    if s' != s {
      var t := TradeOf(o, Whole(o, at, regime, tag));
      RebuyServesDue(s, cfg, o);
      BooksBalance(Cycles(s), FeeRate(cfg.account));
      HarvestCycles.AllocationLowersReserve(Cycles(s), t.size, t.price, FeeUsdt(t, cfg.account), o.cycleIds);
      SumByAppend(s.account.fills, LedgerFill(t, cfg.account), BuyPrice);
      RebuyFunds(t.size, HarvestCycles.Unallocated(Cycles(s), t.size, o.cycleIds), t.price, FeeRate(cfg.account),
        Reserve(s), Reserve(s'), RebuyPrices(s));
    }
  }

  /** Right after an accumulation buy the cash still covers the floor and the whole rebuy reserve. */
  lemma AccBuyLeavesReserve(s: Soak, cfg: SoakCfg, o: Order, at: int, regime: Option<Regime>, tag: string)
    requires CfgOk(cfg) && Pending(s, cfg, o) && o.reason == AccBuy
    ensures var out := AfterFill(s, cfg, o, at, regime, tag);
      !out.threw ==>
        && Reserve(out.soak) == Reserve(s) && RebuyPrices(out.soak) == RebuyPrices(s)
        && out.soak.account.usdt == s.account.usdt - OrderCost(o, cfg)
        && out.soak.account.usdt >= cfg.caps.minUsdtFloor + Reserve(out.soak)
  {
    hide Times, Over, AfterFill, Lots.NewLot, Funds.Record, Funds.MaxSpend;
    AccBuyFill(s, cfg, o, at, regime, tag);
    var out := AfterFill(s, cfg, o, at, regime, tag);
    if !out.threw {
      var t := TradeOf(o, Whole(o, at, regime, tag));
      NewLotSound(s, cfg, t, out.soak.lots[|s.lots|]);
      NewLotTime(s, cfg, t);
      SumByAppend(s.account.fills, LedgerFill(t, cfg.account), BuyPrice);
      SumByAppend(s.lots, out.soak.lots[|s.lots|], LotPrice);
    }
  }

  /** Cash falls by exactly what the budget records as deployed. */
  lemma AccBuySolid(s: Soak, cfg: SoakCfg, o: Order, at: int, regime: Option<Regime>, tag: string)
    requires CfgOk(cfg) && Solid(s, cfg) && Pending(s, cfg, o) && o.reason == AccBuy
    ensures Solid(AfterFill(s, cfg, o, at, regime, tag).soak, cfg)
  {
    hide AfterFill, RebuyPrices, Reserve, OrderCost, Funds.MaxSpend, Times;
    var out := AfterFill(s, cfg, o, at, regime, tag);
    AccBuyLeavesReserve(s, cfg, o, at, regime, tag);
    AccBuyFill(s, cfg, o, at, regime, tag);
    if !out.threw {
      CostOfTrade(o, cfg, TradeOf(o, Whole(o, at, regime, tag)));
    }
  }

  lemma CostOfTrade(o: Order, cfg: SoakCfg, t: PaperTrade)
    requires t.size == o.quantity && t.price == o.price
    ensures BuyCost(t, cfg.account) == OrderCost(o, cfg)
  {
  }

  /** The budget gets back no more than the sell brought in. */
  lemma RecoverySolid(s: Soak, cfg: SoakCfg, o: Order, at: int, regime: Option<Regime>, tag: string)
    requires CfgOk(cfg) && Solid(s, cfg) && Custody(s, cfg) && Pending(s, cfg, o) && o.reason == AccRecovery
    ensures Solid(AfterFill(s, cfg, o, at, regime, tag).soak, cfg)
  {
    hide Times, Over, AfterFill, Lots.Sell, Lots.SurplusZig, RecoverySale, Funds.Release, Funds.RollDay, Custody;
    RecoveryCustody(s, cfg, o, at, regime, tag);
    RecoveryFill(s, cfg, o, at, regime, tag);
    var t := TradeOf(o, Whole(o, at, regime, tag));
    var s' := AfterFill(s, cfg, o, at, regime, tag).soak;
    SumByAppend(s.account.fills, LedgerFill(t, cfg.account), BuyPrice);
    SalePrices(s, cfg, t);
    ReclaimedWithinProceeds(s, cfg, t);
    ReleasedAtMost(s.budget, RecoverySale(s, cfg, t).reclaimed, t.at);
  }

  lemma ReclaimedWithinProceeds(s: Soak, cfg: SoakCfg, t: PaperTrade)
    requires CfgOk(cfg) && t.size > 0.0 && t.price > 0.0
    ensures RecoverySale(s, cfg, t).reclaimed <= SellProceeds(t, cfg.account)
    ensures SellProceeds(t, cfg.account) > 0.0
  {
    NetPricePositive(t, cfg);
    Lots.SaleWithinProceeds(s.lots, t.size, t.price, FeeUsdt(t, cfg.account), t.cycleIds, Pct(cfg));
    NetOfFee(t.size, t.price, FeeRate(cfg.account));
    ProceedsPositive(t, cfg);
    hide Times, Over, Lots.Sell;
  }

  lemma NetOfFee(q: real, p: real, f: real)
    ensures Times(q, p - Times(f, p)) == Times(q, p) - Times(f, Times(q, p))
  {
  }

  lemma ReleasedAtMost(b: Funds.BudgetState, usdt: real, now: int)
    ensures Funds.RollDay(Funds.Release(b, usdt), now).deployed >= b.deployed - Max(usdt, 0.0)
  {
  }

  lemma ProceedsPositive(t: PaperTrade, cfg: SoakCfg)
    requires CfgOk(cfg) && t.size > 0.0 && t.price > 0.0
    ensures SellProceeds(t, cfg.account) > 0.0
  {
    TimesPositive(t.size, t.price);
    TimesPositive(1.0 - FeeRate(cfg.account), Notional(t));
  }

  lemma SalePrices(s: Soak, cfg: SoakCfg, t: PaperTrade)
    requires CfgOk(cfg) && t.size > 0.0 && t.price > 0.0
    ensures SumBy(RecoverySale(s, cfg, t).lots, LotPrice) == SumBy(s.lots, LotPrice)
  {
    hide Times, Over;
    SumBySame(s.lots, RecoverySale(s, cfg, t).lots, LotPrice);
  }
}
