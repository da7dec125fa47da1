/** All ledgers together: one fill of a pending driver order keeps every promise between them. */
module DriverBooks {
  import opened Numeric
  import opened Sums
  import opened Domain
  import opened Orders
  import opened PaperAccount
  import opened Soaks
  import opened SoakBooks
  import opened PricedBooks
  import opened BudgetBooks
  import opened SellLadder
  import opened Solvency
  import HarvestCycles
  import Lots = AccumulationLots
  import Funds = AccumulationBudget

  /** The fill ledger starts with the synthetic opening position. */
  predicate Opens(a: Account) {
    a.fills != [] && a.fills[0].fillId.OpeningFillId?
  }

  /** Balances and fill ledger agree, unless the account was seeded without a cost to open its position with. */
  ghost predicate InStep(a: Account, cfg: AccountCfg) {
    cfg.startZig == 0.0 || Opens(a) ==> LedgerAgrees(a, cfg)
  }

  ghost predicate Ledgered(s: Soak, cfg: SoakCfg) {
    InStep(s.account, cfg.account) && DayBooks(s.account) && s.account.dailySellZig >= 0.0
  }

  ghost predicate Books(s: Soak, cfg: SoakCfg) {
    Custody(s, cfg) && Priced(s, cfg) && Budgeted(s, cfg) && Laddered(s, cfg) && Ledgered(s, cfg)
  }

  lemma CapsNonneg(cfg: SoakCfg)
    requires CfgOk(cfg) && cfg.account.startUsdt >= 0.0
    ensures Funds.BudgetCap(cfg.caps) >= 0.0 && Funds.TotalCap(cfg.caps) >= 0.0 && Funds.DailyCap(cfg.caps) >= 0.0
  {
    MulNonneg(cfg.caps.budgetPct, cfg.caps.startingUsdt);
    MulNonneg(cfg.caps.totalDeployedPct, cfg.caps.startingUsdt);
    MulNonneg(cfg.caps.dailyPct, cfg.caps.startingUsdt);
  }

  lemma StartedCustody(cfg: SoakCfg, entryCost: real, now: int)
    requires CfgOk(cfg)
    ensures Custody(Started(cfg, entryCost, now), cfg)
    ensures Priced(Started(cfg, entryCost, now), cfg)
  {
    MulNonneg(cfg.harvest.maxUnrecoveredActivePct, Started(cfg, entryCost, now).account.startingActive);
    assert UnrecoveredCap(Started(cfg, entryCost, now), cfg) >= 0.0;
    hide Times, UnrecoveredCap;
  }

  lemma StartedBudget(cfg: SoakCfg, entryCost: real, now: int)
    requires CfgOk(cfg) && cfg.account.startUsdt >= 0.0
    ensures Budgeted(Started(cfg, entryCost, now), cfg)
  {
    hide Times;
    CapsNonneg(cfg);
    var s := Started(cfg, entryCost, now);
    assert forall day :: SpentOn(s.lots, day) == 0.0;
  }

  lemma StartedLadder(cfg: SoakCfg, entryCost: real, now: int)
    requires CfgOk(cfg)
    ensures Laddered(Started(cfg, entryCost, now), cfg)
  {
    MulNonneg(cfg.harvest.maxUnrecoveredActivePct, Started(cfg, entryCost, now).account.startingActive);
  }

  lemma StartedLedger(cfg: SoakCfg, entryCost: real, now: int)
    requires cfg.account.startZig >= 0.0
    ensures Ledgered(Started(cfg, entryCost, now), cfg)
  {
    SeedAgrees(cfg.account, entryCost, now);
  }

  lemma StartedSolid(cfg: SoakCfg, entryCost: real, now: int)
    ensures Solid(Started(cfg, entryCost, now), cfg)
  {
    var s := Started(cfg, entryCost, now);
    assert Times(1.0 + FeeRate(cfg.account), 0.0) == 0.0 && Times(HarvestCycles.EPS, 0.0) == 0.0;
    hide Times;
    if s.account.fills != [] {
      SumByAppend([], s.account.fills[0], BuyPrice);
      assert [] + [s.account.fills[0]] == s.account.fills;
    }
  }

  /** The books of every soak that the configuration admits start out in order. */
  lemma StartedBooks(cfg: SoakCfg, entryCost: real, now: int)
    requires CfgOk(cfg) && cfg.account.startUsdt >= 0.0 && cfg.account.startZig >= 0.0
    ensures Books(Started(cfg, entryCost, now), cfg)
    ensures Timely(Started(cfg, entryCost, now), now) && Solid(Started(cfg, entryCost, now), cfg)
  {
    hide Times, Custody, Priced, Budgeted, Laddered, Ledgered, Solid;
    StartedCustody(cfg, entryCost, now);
    StartedBudget(cfg, entryCost, now);
    StartedLadder(cfg, entryCost, now);
    StartedLedger(cfg, entryCost, now);
    StartedSolid(cfg, entryCost, now);
  }

  // ── Ledger and clock ─────────────────────────────────────────────────────

  /** Settling a trade that sells no more than is held keeps ledger, day counters and balances together. */
  lemma TradeLedgered(a: Account, cfg: AccountCfg, t: PaperTrade)
    requires InStep(a, cfg) && DayBooks(a) && FillProblem(a, cfg, t) == None
    requires t.side == Sell ==> t.size <= a.zig
    requires forall i :: 0 <= i < |a.fills| ==> a.fills[i].filledAt <= t.at
    requires a.day.Some? ==> a.day.value <= UtcDay(t.at)
    ensures InStep(Settled(a, cfg, t), cfg) && DayBooks(Settled(a, cfg, t))
    ensures a.dailySellZig >= 0.0 ==> Settled(a, cfg, t).dailySellZig >= 0.0
  {
    hide Times, Over, FillProblem, CyclesAfter, Settled, LedgerAgrees, DayBooks;
    if cfg.startZig == 0.0 || Opens(a) {
      FillAgrees(a, cfg, t);
    }
    FillKeepsDayBooks(a, cfg, t);
    SettledFacts(a, cfg, t);
    SettledSales(a, cfg, t);
    BooksIgnoreCycles(Settled(a, cfg, t), cfg, CyclesAfter(a.cycles, t, cfg));
  }

  lemma SettledSales(a: Account, cfg: AccountCfg, t: PaperTrade)
    requires FillProblem(a, cfg, t) == None
    ensures a.dailySellZig >= 0.0 ==> Settled(a, cfg, t).dailySellZig >= 0.0
  {
    hide Times, Over;
  }

  lemma BooksIgnoreCycles(a: Account, cfg: AccountCfg, cs: seq<HarvestCycles.HarvestCycle>)
    ensures InStep(a.(cycles := cs), cfg) == InStep(a, cfg) && DayBooks(a.(cycles := cs)) == DayBooks(a)
    ensures Opens(a.(cycles := cs)) == Opens(a)
  {
    hide Times, Over;
  }

  lemma BooksIgnoreSurplus(a: Account, cfg: AccountCfg, qty: real)
    ensures InStep(ProtectSurplus(a, qty), cfg) == InStep(a, cfg)
      && DayBooks(ProtectSurplus(a, qty)) == DayBooks(a)
  {
    hide Times, Over;
  }

  /** What a settled trade leaves alone, and when. */
  lemma SettledFacts(a: Account, cfg: AccountCfg, t: PaperTrade)
    ensures var a' := Settled(a, cfg, t);
      && a'.startingActive == a.startingActive && a'.cycles == a.cycles && a'.day == Some(UtcDay(t.at))
      && a'.fills == a.fills + [LedgerFill(t, cfg)] && LedgerFill(t, cfg).filledAt == t.at
      && Opens(a') == Opens(a)
  {
    hide Times, Over;
  }

  /** Neither the opening pool nor the opening entry changes. */
  predicate SameStart(s: Soak, s': Soak) {
    s'.account.startingActive == s.account.startingActive && Opens(s'.account) == Opens(s.account)
  }

  // ── The four fills ───────────────────────────────────────────────────────

  lemma SellKeepsBooks(s: Soak, cfg: SoakCfg, o: Order, at: int, regime: Option<Regime>, tag: string)
    requires CfgOk(cfg) && Books(s, cfg) && Pending(s, cfg, o) && o.reason == HarvestSell && Timely(s, at)
    ensures var out := AfterFill(s, cfg, o, at, regime, tag);
      !out.threw && Books(out.soak, cfg) && Timely(out.soak, at) && SameStart(s, out.soak)
  {
    hide Times, Over, AfterFill, Opens, ActiveZig, LotStock, UnrecoveredCap, Custody, Priced, Laddered, InStep,
      DayBooks, Settled, FillProblem;
    var t := TradeOf(o, Whole(o, at, regime, tag));
    SellCustody(s, cfg, o, at, regime, tag);
    SellPriced(s, cfg, o, at, regime, tag);
    SellLaddered(s, cfg, o, at, regime, tag);
    HarvestFill(s, cfg, o, at, regime, tag);
    SellWithinHeld(s, cfg, o);
    TradeLedgered(s.account, cfg.account, t);
    SettledFacts(s.account, cfg.account, t);
    BooksIgnoreCycles(Settled(s.account, cfg.account, t), cfg.account, CyclesAfter(Cycles(s), t, cfg.account));
    SellOpens(s, cfg, t);
    NewCycleKeeps(|Cycles(s)| + 1, t, cfg.account);
  }

  lemma SellWithinHeld(s: Soak, cfg: SoakCfg, o: Order)
    requires CfgOk(cfg) && Custody(s, cfg) && Pending(s, cfg, o) && (o.reason == HarvestSell || o.reason == AccRecovery)
    ensures o.quantity <= s.account.zig
  {
    CapWithinPool(s, cfg);
    BackedCovers(s, cfg);
    hide Times, Over, Lots.HeldZig, Lots.SurplusZig, NothingSold, HarvestCycles.UnrecoveredTotal, UnrecoveredCap;
    LotsAreStock(s, cfg);
    LotStockIsOwed(s.lots);
    if o.reason == AccRecovery {
      var i: nat :| AimedAt(s, o, i);
    }
  }

  lemma RebuyKeepsBooks(s: Soak, cfg: SoakCfg, o: Order, at: int, regime: Option<Regime>, tag: string)
    requires CfgOk(cfg) && Books(s, cfg) && Pending(s, cfg, o) && o.reason == HarvestRebuy && Timely(s, at)
    ensures var out := AfterFill(s, cfg, o, at, regime, tag);
      && Books(out.soak, cfg) && Timely(out.soak, at) && SameStart(s, out.soak)
      && (out.threw <==> OrderCost(o, cfg) > s.account.usdt + CASH_TOLERANCE)
  {
    hide Times, Over, AfterFill, Opens, HarvestCycles.OpenForRebuy, HarvestCycles.AfterBuy, Custody, Priced, Laddered,
      InStep, DayBooks, Settled, HarvestCycles.AllPriced, HarvestCycles.BookBalanced;
    var t := TradeOf(o, Whole(o, at, regime, tag));
    assert HarvestCycles.BookBalanced(Cycles(s)) by {
      assert Priced(s, cfg);
      PricedIsPriced(s, cfg);
      BooksBalance(Cycles(s), FeeRate(cfg.account));
    }
    RebuyCustody(s, cfg, o, at, regime, tag);
    RebuyPriced(s, cfg, o, at, regime, tag);
    RebuyLaddered(s, cfg, o, at, regime, tag);
    HarvestFill(s, cfg, o, at, regime, tag);
    if FillProblem(s.account, cfg.account, t) == None {
      TradeLedgered(s.account, cfg.account, t);
      SettledFacts(s.account, cfg.account, t);
      BooksIgnoreCycles(Settled(s.account, cfg.account, t), cfg.account, CyclesAfter(Cycles(s), t, cfg.account));
      assert HarvestCycles.AllPriced(Cycles(s), FeeRate(cfg.account)) by {
        assert Priced(s, cfg);
        PricedIsPriced(s, cfg);
      }
      ServedKeeps(Cycles(s), t.size, t.price, FeeUsdt(t, cfg.account), o.cycleIds, FeeRate(cfg.account));
    }
  }

  lemma PricedIsPriced(s: Soak, cfg: SoakCfg)
    requires Priced(s, cfg)
    ensures HarvestCycles.AllPriced(Cycles(s), FeeRate(cfg.account))
  {
  }

  /** Priced and Laddered speak of the harvest book and its limits only. */
  lemma HarvestBookOnly(s: Soak, s': Soak, cfg: SoakCfg)
    requires Cycles(s') == Cycles(s) && SameStart(s, s')
    ensures Priced(s', cfg) == Priced(s, cfg) && Laddered(s', cfg) == Laddered(s, cfg)
  {
  }

  lemma AccBuyKeepsBooks(s: Soak, cfg: SoakCfg, o: Order, at: int, regime: Option<Regime>, tag: string)
    requires CfgOk(cfg) && Books(s, cfg) && Pending(s, cfg, o) && o.reason == AccBuy && Timely(s, o.createdAt)
      && o.createdAt <= at
    ensures var out := AfterFill(s, cfg, o, at, regime, tag);
      && Books(out.soak, cfg) && Timely(out.soak, at) && SameStart(s, out.soak)
      && (out.threw <==> OrderCost(o, cfg) > s.account.usdt + CASH_TOLERANCE)
  {
    hide Times, Over, AfterFill, Opens, Lots.NewLot, Funds.MaxSpend, Custody, Priced, Budgeted, Laddered, InStep,
      DayBooks, Settled;
    var t := TradeOf(o, Whole(o, at, regime, tag));
    var s' := AfterFill(s, cfg, o, at, regime, tag).soak;
    AccBuyCustody(s, cfg, o, at, regime, tag);
    AccBuyBudgeted(s, cfg, o, at, regime, tag);
    AccBuyFill(s, cfg, o, at, regime, tag);
    if FillProblem(s.account, cfg.account, t) == None {
      TradeLedgered(s.account, cfg.account, t);
      SettledFacts(s.account, cfg.account, t);
      NewLotTime(s, cfg, t);
      HarvestBookOnly(s, s', cfg);
    }
  }

  lemma RecoveryKeepsBooks(s: Soak, cfg: SoakCfg, o: Order, at: int, regime: Option<Regime>, tag: string)
    requires CfgOk(cfg) && Books(s, cfg) && Pending(s, cfg, o) && o.reason == AccRecovery && Timely(s, at)
    ensures var out := AfterFill(s, cfg, o, at, regime, tag);
      !out.threw && Books(out.soak, cfg) && Timely(out.soak, at) && SameStart(s, out.soak)
  {
    hide Times, Over, AfterFill, Opens, AimedAt, Custody, Priced, Budgeted, Laddered, InStep, DayBooks, Settled,
      FillProblem,
      RecoverySale, SurplusAdded, ProtectSurplus;
    var t := TradeOf(o, Whole(o, at, regime, tag));
    var s' := AfterFill(s, cfg, o, at, regime, tag).soak;
    RecoveryCustody(s, cfg, o, at, regime, tag);
    RecoveryBudgeted(s, cfg, o, at, regime, tag);
    RecoveryFill(s, cfg, o, at, regime, tag);
    SellWithinHeld(s, cfg, o);
    TradeLedgered(s.account, cfg.account, t);
    SettledFacts(s.account, cfg.account, t);
    SurplusFacts(Settled(s.account, cfg.account, t), SurplusAdded(s, cfg, t));
    BooksIgnoreSurplus(Settled(s.account, cfg.account, t), cfg.account, SurplusAdded(s, cfg, t));
    LotsKeepTime(s, cfg, t);
    HarvestBookOnly(s, s', cfg);
  }

  lemma SurplusFacts(a: Account, qty: real)
    ensures var a' := ProtectSurplus(a, qty);
      && a'.startingActive == a.startingActive && a'.cycles == a.cycles && a'.day == a.day && a'.fills == a.fills
      && a'.dailySellZig == a.dailySellZig && Opens(a') == Opens(a)
  {
  }

  lemma LotsKeepTime(s: Soak, cfg: SoakCfg, t: PaperTrade)
    requires CfgOk(cfg) && t.size > 0.0 && t.price > 0.0
    ensures var lots := RecoverySale(s, cfg, t).lots;
      |lots| == |s.lots| && forall i :: 0 <= i < |lots| ==> lots[i].openedAt == s.lots[i].openedAt
    ensures Funds.RollDay(Funds.Release(s.budget, RecoverySale(s, cfg, t).reclaimed), t.at).day == UtcDay(t.at)
  {
    hide Times, Over;
  }

  /** A fill of whatever the driver left pending keeps all books; it can be refused only for lack of cash. */
  lemma FillKeepsBooks(s: Soak, cfg: SoakCfg, o: Order, at: int, regime: Option<Regime>, tag: string)
    requires CfgOk(cfg) && Books(s, cfg) && Pending(s, cfg, o) && Timely(s, o.createdAt) && o.createdAt <= at
    ensures var out := AfterFill(s, cfg, o, at, regime, tag);
      && Books(out.soak, cfg) && Timely(out.soak, at) && SameStart(s, out.soak)
      && (out.threw <==> o.side == Buy && OrderCost(o, cfg) > s.account.usdt + CASH_TOLERANCE)
  {
    hide Books, AfterFill, OrderCost, SellPending, RebuyPending, AccBuyPending, RecoveryPending;
    TimelyLater(s, o.createdAt, at);
    PendingSides(s, cfg, o);
    match o.reason {
      case HarvestSell => SellKeepsBooks(s, cfg, o, at, regime, tag);
      case HarvestRebuy => RebuyKeepsBooks(s, cfg, o, at, regime, tag);
      case AccBuy => AccBuyKeepsBooks(s, cfg, o, at, regime, tag);
      case AccRecovery => RecoveryKeepsBooks(s, cfg, o, at, regime, tag);
    }
  }

  lemma TimelyLater(s: Soak, now: int, later: int)
    requires Timely(s, now) && now <= later
    ensures Timely(s, later)
  {
  }

  lemma PendingSides(s: Soak, cfg: SoakCfg, o: Order)
    requires Pending(s, cfg, o)
    ensures o.side == (if o.reason == HarvestSell || o.reason == AccRecovery then Sell else Buy)
  {
    hide ActiveZig, LotStock, UnrecoveredCap, AboveOpenSells, OrderCost, HarvestCycles.OpenForRebuy, Funds.MaxSpend,
      AimedAt;
  }

  /**
   * A fill keeps the books solid; a sell in a known regime does, when the spread of every regime pays for both fees.
   */
  lemma FillKeepsSolid(s: Soak, cfg: SoakCfg, o: Order, at: int, regime: Option<Regime>, tag: string)
    requires CfgOk(cfg) && SpreadCoversFees(cfg) && Books(s, cfg) && Solid(s, cfg) && Pending(s, cfg, o)
    requires o.reason == HarvestSell ==> regime.Some?
    ensures Solid(AfterFill(s, cfg, o, at, regime, tag).soak, cfg)
  {
    hide Solid, AfterFill, SellPending, RebuyPending, AccBuyPending, RecoveryPending, Custody, Priced, Budgeted,
      Laddered, Ledgered, SpreadCoversFees;
    match o.reason {
      case HarvestSell => SellSolid(s, cfg, o, at, regime, tag);
      case HarvestRebuy => RebuySolid(s, cfg, o, at, regime, tag);
      case AccBuy => AccBuySolid(s, cfg, o, at, regime, tag);
      case AccRecovery => RecoverySolid(s, cfg, o, at, regime, tag);
    }
  }

  /** Solid books are funded: their budget never deploys more than the opening cash. */
  lemma SolidBooksFunded(s: Soak, cfg: SoakCfg)
    requires CfgOk(cfg) && cfg.account.startUsdt >= 0.0 && Books(s, cfg) && Solid(s, cfg)
    ensures Funded(s, cfg)
  {
    hide Solid, Funded, CfgOk, Custody, Priced, Laddered, Ledgered, DailyBooks, Funds.BudgetCap;
    SolidIsFunded(s, cfg);
  }

  /**
   * A buy that spends all the dry powder of solid books leaves every cycle affordable, though the reserve it keeps
   * leaves the fees out: it happens only where the floor pays those fees, up to dust; elsewhere a cap of the budget
   * binds first.
   */
  lemma DryPowderBuy(s: Soak, cfg: SoakCfg, o: Order, at: int, regime: Option<Regime>, tag: string)
    requires CfgOk(cfg) && cfg.account.startUsdt >= 0.0 && Books(s, cfg) && Solid(s, cfg)
    requires Pending(s, cfg, o) && o.reason == AccBuy && Timely(s, o.createdAt) && o.createdAt <= at
    requires OrderCost(o, cfg) == s.account.usdt - cfg.caps.minUsdtFloor - Reserve(s)
    requires !AfterFill(s, cfg, o, at, regime, tag).threw
    ensures Funded(AfterFill(s, cfg, o, at, regime, tag).soak, cfg)
    ensures var g := 1.0 + FeeRate(cfg.account);
      cfg.caps.minUsdtFloor + Times(g, RebuyDust(s)) >= Times(FeeRate(cfg.account), Reserve(s))
  {
    hide Solid, AfterFill, Books, Pending, OrderCost, Reserve, RebuyPrices, Timely, CfgOk;
    var s' := AfterFill(s, cfg, o, at, regime, tag).soak;
    FillKeepsBooks(s, cfg, o, at, regime, tag);
    AccBuySolid(s, cfg, o, at, regime, tag);
    SolidBooksFunded(s', cfg);
    AccBuyLeavesReserve(s, cfg, o, at, regime, tag);
    FeeOnTop(FeeRate(cfg.account), Reserve(s));
    hide Times;
  }

  lemma FeeOnTop(f: real, reserve: real)
    ensures Times(1.0 + f, reserve) == reserve + Times(f, reserve)
  {
  }
}
