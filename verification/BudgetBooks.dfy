/**
 * Budget against lots (backend/src/accumulation/accumulation-budget.ts:41-76, accumulation-cycle-tracker.ts:47-81): two
 * ledgers of the same capital, moved by different calls, never disagree.
 */
module BudgetBooks {
  import opened Numeric
  import opened Sums
  import opened Domain
  import opened Orders
  import opened PaperAccount
  import opened Soaks
  import opened SoakBooks
  import HarvestCycles
  import Lots = AccumulationLots
  import Funds = AccumulationBudget

  function SpentOnDay(day: int): Lots.Lot -> real {
    (l: Lots.Lot) => if UtcDay(l.openedAt) == day then l.usdtSpent else 0.0
  }

  /** USDT spent on lots that were opened on a UTC day. */
  function SpentOn(ls: seq<Lots.Lot>, day: int): real { SumBy(ls, SpentOnDay(day)) }

  /** Deployed capital is what the lots tie up, within every cap; a day's count is the spend on lots opened that day. */
  ghost predicate Budgeted(s: Soak, cfg: SoakCfg) {
    && s.budget.deployed == Lots.Outstanding(s.lots, Pct(cfg))
    && s.budget.deployed <= Funds.BudgetCap(cfg.caps) && s.budget.deployed <= Funds.TotalCap(cfg.caps)
    && Funds.Accounted(s.budget)
    && DailyBooks(s, cfg)
  }

  ghost predicate DailyBooks(s: Soak, cfg: SoakCfg) {
    && s.budget.dailyDeployed == SpentOn(s.lots, s.budget.day)
    && (forall i :: 0 <= i < |s.lots| ==> UtcDay(s.lots[i].openedAt) <= s.budget.day)
    && (forall day :: SpentOn(s.lots, day) <= Funds.DailyCap(cfg.caps))
  }

  lemma {:induction false} NothingSpent(ls: seq<Lots.Lot>, day: int)
    requires forall i :: 0 <= i < |ls| ==> UtcDay(ls[i].openedAt) != day
    ensures SpentOn(ls, day) == 0.0
  {
    if ls != [] {
      NothingSpent(ls[1..], day);
    }
  }

  lemma SpentNonneg(ls: seq<Lots.Lot>, day: int)
    requires Lots.AllSound(ls)
    ensures SpentOn(ls, day) >= 0.0
  {
    SumByNonneg(ls, SpentOnDay(day));
  }

  /** Rolling the day over starts the new day's count at what that day has spent: nothing. */
  lemma RollKeepsBudget(s: Soak, cfg: SoakCfg, now: int)
    requires Budgeted(s, cfg) && s.budget.day <= UtcDay(now)
    ensures Budgeted(s.(budget := Funds.RollDay(s.budget, now)), cfg)
  {
    hide Times, Over;
    if UtcDay(now) != s.budget.day {
      NothingSpent(s.lots, UtcDay(now));
    }
  }

  lemma NewLotTiesUp(s: Soak, cfg: SoakCfg, t: PaperTrade)
    requires CfgOk(cfg) && t.size > 0.0 && t.price > 0.0
    ensures var l := Lots.NewLot(|s.lots| + 1, t.size, t.price, FeeUsdt(t, cfg.account), cfg.lots, t.at);
      Lots.OutstandingOf(Pct(cfg))(l) == l.usdtSpent == BuyCost(t, cfg.account)
  {
    NewLotSound(s, cfg, t, Lots.NewLot(|s.lots| + 1, t.size, t.price, FeeUsdt(t, cfg.account), cfg.lots, t.at));
    Lots.PartOfSpent(Pct(cfg), BuyCost(t, cfg.account));
    hide Times, Over;
  }

  /** A buy within the allowance of its submission keeps every cap, even when it fills a day later. */
  lemma AllowanceHolds(b: Funds.BudgetState, c: Funds.Caps, usdt: real, reserve: real, cost: real, placed: int, at: int)
    requires 0.0 < cost <= Funds.MaxSpend(Funds.RollDay(b, placed), c, usdt, reserve)
    requires b.day <= UtcDay(placed) <= UtcDay(at) && b.dailyDeployed >= 0.0
    ensures var b' := Funds.Record(b, cost, at);
      && b'.deployed <= Funds.BudgetCap(c) && b'.deployed <= Funds.TotalCap(c) && b'.dailyDeployed <= Funds.DailyCap(c)
      && b'.day == UtcDay(at)
  {
    hide Times, Funds.MaxSpend;
  }

  lemma AccBuyBudgeted(s: Soak, cfg: SoakCfg, o: Order, at: int, regime: Option<Regime>, tag: string)
    requires CfgOk(cfg) && Budgeted(s, cfg) && Custody(s, cfg) && Pending(s, cfg, o) && o.reason == AccBuy
    requires Timely(s, o.createdAt) && o.createdAt <= at
    ensures Budgeted(AfterFill(s, cfg, o, at, regime, tag).soak, cfg)
  {
    hide Times, Over, AfterFill, Lots.NewLot, Lots.OutstandingOf, Funds.MaxSpend;
    AccBuyFill(s, cfg, o, at, regime, tag);
    var s' := AfterFill(s, cfg, o, at, regime, tag).soak;
    if s' != s {
      var t := TradeOf(o, Whole(o, at, regime, tag));
      var l := s'.lots[|s.lots|];
      NewLotTiesUp(s, cfg, t);
      NewLotTime(s, cfg, t);
      NewLotSound(s, cfg, t, l);
      SumByAppend(s.lots, l, Lots.OutstandingOf(Pct(cfg)));
      SpentNonneg(s.lots, s.budget.day);
      AllowanceHolds(s.budget, cfg.caps, s.account.usdt, HarvestCycles.RebuyReserve(Cycles(s)), OrderCost(o, cfg),
        o.createdAt, at);
      BuyKeepsDaily(s, s', cfg, at);
    }
  }

  lemma BuyKeepsDaily(s: Soak, s': Soak, cfg: SoakCfg, at: int)
    requires DailyBooks(s, cfg) && s.budget.day <= UtcDay(at)
    requires |s'.lots| == |s.lots| + 1 && s'.lots[..|s.lots|] == s.lots
    requires var l := s'.lots[|s.lots|];
      l.openedAt == at && s'.budget == Funds.Record(s.budget, l.usdtSpent, at)
        && s'.budget.dailyDeployed <= Funds.DailyCap(cfg.caps)
    ensures DailyBooks(s', cfg)
  {
    hide Times, Over;
    var l := s'.lots[|s.lots|];
    assert s'.lots == s.lots + [l];
    if UtcDay(at) != s.budget.day {
      NothingSpent(s.lots, UtcDay(at));
    }
    forall day
      ensures SpentOn(s'.lots, day) == SpentOn(s.lots, day) + SpentOnDay(day)(l)
    {
      SumByAppend(s.lots, l, SpentOnDay(day));
    }
  }

  /** A recovery returns exactly what its lot stops tying up: the clamp of `release` never fires. */
  lemma RecoveryBudgeted(s: Soak, cfg: SoakCfg, o: Order, at: int, regime: Option<Regime>, tag: string)
    requires CfgOk(cfg) && Budgeted(s, cfg) && Custody(s, cfg) && Pending(s, cfg, o) && o.reason == AccRecovery
    requires Timely(s, at)
    ensures var t := TradeOf(o, Whole(o, at, regime, tag)); var s' := AfterFill(s, cfg, o, at, regime, tag).soak;
      && Budgeted(s', cfg)
      && t.size > 0.0 && t.price > 0.0
      && RecoverySale(s, cfg, t).reclaimed <= s.budget.deployed
      && s'.budget.deployed == s.budget.deployed - RecoverySale(s, cfg, t).reclaimed
  {
    hide Times, Over, AfterFill, RecoverySale, Lots.OutstandingOf, Budgeted, Funds.Release, Funds.RollDay;
    RecoveryCustody(s, cfg, o, at, regime, tag);
    RecoveryFill(s, cfg, o, at, regime, tag);
    var t := TradeOf(o, Whole(o, at, regime, tag));
    ReleaseBudgeted(s, cfg, t);
    var sold := Released(s, cfg, t);
    RollKeepsBudget(sold, cfg, at);
    BudgetReads(sold.(budget := Funds.RollDay(sold.budget, at)), AfterFill(s, cfg, o, at, regime, tag).soak, cfg);
    RollKeepsDeployed(sold.budget, at);
  }

  lemma RollKeepsDeployed(b: Funds.BudgetState, now: int)
    ensures Funds.RollDay(b, now).deployed == b.deployed
  {
  }

  lemma BudgetReads(s: Soak, s': Soak, cfg: SoakCfg)
    requires s'.lots == s.lots && s'.budget == s.budget
    ensures Budgeted(s', cfg) == Budgeted(s, cfg)
  {
    hide Times;
  }

  /** Lots and budget right after the principal went back. */
  function Released(s: Soak, cfg: SoakCfg, t: PaperTrade): Soak
    requires CfgOk(cfg) && t.size > 0.0 && t.price > 0.0
  {
    s.(lots := RecoverySale(s, cfg, t).lots, budget := Funds.Release(s.budget, RecoverySale(s, cfg, t).reclaimed))
  }

  lemma ReleaseBudgeted(s: Soak, cfg: SoakCfg, t: PaperTrade)
    requires CfgOk(cfg) && t.size > 0.0 && t.price > 0.0 && Budgeted(s, cfg) && Lots.AllSound(s.lots)
    ensures var s' := Released(s, cfg, t);
      && Budgeted(s', cfg) && s'.budget.day == s.budget.day
      && RecoverySale(s, cfg, t).reclaimed <= s.budget.deployed
      && s'.budget.deployed == s.budget.deployed - RecoverySale(s, cfg, t).reclaimed
  {
    hide Times, Over, RecoverySale, Lots.OutstandingOf;
    SaleConserves(s, cfg, t);
    var s' := Released(s, cfg, t);
    forall day
      ensures SpentOn(s'.lots, day) == SpentOn(s.lots, day)
    {
      SumBySame(s.lots, s'.lots, SpentOnDay(day));
    }
  }

  lemma SaleConserves(s: Soak, cfg: SoakCfg, t: PaperTrade)
    requires CfgOk(cfg) && t.size > 0.0 && t.price > 0.0 && Lots.AllSound(s.lots)
    ensures var sale := RecoverySale(s, cfg, t);
      && Lots.Outstanding(sale.lots, Pct(cfg)) == Lots.Outstanding(s.lots, Pct(cfg)) - sale.reclaimed
      && 0.0 <= sale.reclaimed <= Lots.Outstanding(s.lots, Pct(cfg))
      && |sale.lots| == |s.lots|
      && forall i :: 0 <= i < |s.lots| ==>
         sale.lots[i].usdtSpent == s.lots[i].usdtSpent && sale.lots[i].openedAt == s.lots[i].openedAt
  {
    hide Times, Over;
    NetPricePositive(t, cfg);
    Lots.SellConserves(s.lots, t.size, t.price, FeeUsdt(t, cfg.account), t.cycleIds, Pct(cfg));
  }
}
