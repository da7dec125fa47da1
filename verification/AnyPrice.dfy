/**
 * Where the price bound of cash safety is not needed: driver runs whose spreads pay for the fees
 * (backend/src/paper-soak/virtual-account.ts:96-108, cycle-tracker.ts:152-159).
 */
module AnyPrice {
  import opened Numeric
  import opened Sums
  import opened Domain
  import opened Orders
  import opened PaperAccount
  import opened Soaks
  import opened SoakBooks
  import opened PricedBooks
  import opened Solvency
  import opened BudgetBooks
  import opened SellLadder
  import opened Desks
  import opened DeskSteps
  import opened DriverBooks
  import opened Drivers
  import opened DriverRuns
  import opened DriverTheorems
  import opened FillTraces
  import H = HarvestCycles
  import Funds = AccumulationBudget

  /** No cycle waits below zero, as one would with a distance beyond 10000 basis points. */
  ghost predicate TargetsNonneg(cs: seq<H.HarvestCycle>) {
    forall i :: 0 <= i < |cs| ==> cs[i].unrecoveredQty >= 0.0 && cs[i].rebuyTargetPrice >= 0.0
  }

  /** Buying the due cycles back at the ask costs no more than the rebuy reserve sets aside. */
  lemma {:induction false} DueWithinReserve(cs: seq<H.HarvestCycle>, ask: real)
    requires TargetsNonneg(cs) && ask >= 0.0
    ensures Times(H.UnrecoveredTotal(H.Filter(cs, H.Reached(ask))), ask) <= H.RebuyReserve(cs)
  {
    assert Times(0.0, ask) == 0.0;
    if cs != [] {
      var c, rest := cs[0], H.Filter(cs[1..], H.Reached(ask));
      DueWithinReserve(cs[1..], ask);
      MulNonneg(c.unrecoveredQty, c.rebuyTargetPrice);
      if H.Reached(ask)(c) {
        TimesMono(ask, c.rebuyTargetPrice, c.unrecoveredQty);
        SumByCons(c, rest, H.Unrecovered);
        TimesAdd(c.unrecoveredQty, H.UnrecoveredTotal(rest), ask);
      }
    }
  }

  lemma RebuyWithinReserve(s: Soak, cfg: SoakCfg, o: Order)
    requires CfgOk(cfg) && Priced(s, cfg) && Pending(s, cfg, o) && o.reason == HarvestRebuy
    requires TargetsNonneg(s.account.cycles)
    ensures OrderCost(o, cfg) <= Times(1.0 + FeeRate(cfg.account), Reserve(s))
  {
    hide H.OpenForRebuy, H.UnrecoveredTotal, H.RebuyReserve, H.Filter, H.AllPriced, TargetsNonneg, CfgOk;
    var cs, due := s.account.cycles, H.UnrecoveredTotal(H.OpenForRebuy(s.account.cycles, o.price));
    H.OldestFirst(cs, o.price);
    assert o.quantity <= due && o.price > 0.0;
    CostOf(o, cfg);
    hide Times, OrderCost, Priced, Pending;
    DueWithinReserve(cs, o.price);
    TimesSwap(o.quantity, o.price);
    TimesSwap(due, o.price);
    TimesMono(o.quantity, due, o.price);
    TimesMono(Times(o.quantity, o.price), Reserve(s), 1.0 + FeeRate(cfg.account));
  }

  lemma CostOf(o: Order, cfg: SoakCfg)
    requires CfgOk(cfg)
    ensures OrderCost(o, cfg) == Times(1.0 + FeeRate(cfg.account), Times(o.quantity, o.price))
      && 1.0 + FeeRate(cfg.account) >= 1.0
  {
  }

  lemma ReserveNonneg(cs: seq<H.HarvestCycle>)
    requires TargetsNonneg(cs)
    ensures H.RebuyReserve(cs) >= 0.0
  {
    DueWithinReserve(cs, 0.0);
    hide H.UnrecoveredTotal, H.RebuyReserve;
  }

  lemma CostsSomething(o: Order, cfg: SoakCfg)
    requires CfgOk(cfg) && o.quantity > 0.0 && o.price > 0.0
    ensures OrderCost(o, cfg) > 0.0
  {
    TimesPositive(o.quantity, o.price);
    MulNonneg(FeeRate(cfg.account), Times(o.quantity, o.price));
    hide CfgOk;
  }

  /** In funded books a pending buy is paid at any price, while the dust of past rebuys is within tolerance. */
  lemma FundedBuyIsPaid(s: Soak, cfg: SoakCfg, o: Order)
    requires CfgOk(cfg) && Books(s, cfg) && Funded(s, cfg) && Pending(s, cfg, o) && o.side == Buy
    requires TargetsNonneg(s.account.cycles) && Times(1.0 + FeeRate(cfg.account), RebuyDust(s)) <= CASH_TOLERANCE
    ensures OrderCost(o, cfg) <= s.account.usdt + CASH_TOLERANCE
  {
    hide Times, OrderCost, Custody, Priced, Budgeted, Laddered, Ledgered, RebuyDust, RebuyPrices, H.RebuyReserve,
      Funds.MaxSpend, H.OpenForRebuy;
    PendingSides(s, cfg, o);
    if o.reason == HarvestRebuy {
      RebuyWithinReserve(s, cfg, o);
    } else {
      ReserveNonneg(s.account.cycles);
      CostsSomething(o, cfg);
    }
  }

  /** Paid at the price it waits for, an order is heard without an exception. */
  lemma PaidNeverThrows(d: Desk, cfg: SoakCfg, env: Env, o: Order)
    requires CfgOk(cfg) && Books(d.soak, cfg) && Pending(d.soak, cfg, o) && Timely(d.soak, o.createdAt)
      && o.createdAt <= env.now
    requires o.side == Buy ==> OrderCost(o, cfg) <= d.soak.account.usdt + CASH_TOLERANCE
    ensures !Threw(d, cfg, env, o)
  {
    hide Books, Timely, OnPaperFill, RegimeNow, Pending, OrderCost;
    FillKeepsBooks(d.soak, cfg, o, env.now, RegimeNow(cfg, env), env.tag);
  }

  /**
   * In driver runs whose spreads pay both fees of a cycle, a market update meets no exception at any price, while no
   * target is negative and the dust of past rebuys costs no more than the account tolerates.
   */
  lemma MarketNeverThrowsAtAnyPrice(cfg: SoakCfg, entryCost: real, start: int, steps: seq<DriverStep>, env: Env)
    requires FromStart(cfg, entryCost, start, steps) && SpreadCoversFees(cfg) && LastTick(start, steps) <= env.now
    requires var s := Reached(cfg, entryCost, start, steps).desk.soak;
      TargetsNonneg(s.account.cycles) && Times(1.0 + FeeRate(cfg.account), RebuyDust(s)) <= CASH_TOLERANCE
    ensures !EngineTick(Reached(cfg, entryCost, start, steps).desk, cfg, env).threw
  {
    hide Reached, Orderly, Books, Timely, OneOpen, Pending, EngineTick, Threw, Heard, Funded, TargetsNonneg,
      RebuyDust, SpreadCoversFees, Times, OrderCost;
    ReachedDriven(cfg, entryCost, start, steps);
    ReachedSolid(cfg, entryCost, start, steps);
    var d := Reached(cfg, entryCost, start, steps).desk;
    SolidBooksFunded(d.soak, cfg);
    DrivenLater(d, cfg, LastTick(start, steps), env.now);
    var c, i := MarketCases(d, cfg, env);
    if c == FilledResting {
      var o := d.reg.orders[i];
      if o.side == Buy {
        FundedBuyIsPaid(d.soak, cfg, o);
      }
      PaidNeverThrows(d, cfg, env, o);
    }
  }

  lemma ArrivalBookedAtAnyPrice(d: Desk, mem: Memory, cfg: SoakCfg, env: Env, q: Quote)
    requires CfgOk(cfg) && Orderly(d, cfg) && Books(d.soak, cfg) && Timely(d.soak, env.now) && env.mode == PaperMode
    requires Funded(d.soak, cfg) && TargetsNonneg(d.soak.account.cycles)
      && Times(1.0 + FeeRate(cfg.account), RebuyDust(d.soak)) <= CASH_TOLERANCE
    ensures forall f :: f in ActFillings(d, mem, cfg, env, q) ==> !Booked(f, cfg).threw
  {
    hide Books, Choose, OnArrival, SubmittedAs, Decide, Pending, Timely, TradeOf, NewsOf, OnPaperFill, OrderCost,
      Orderly, Times, H.RebuyReserve, TargetsNonneg;
    var choice, asked := Choose(d.soak, mem, cfg, env, q), Asked(d, mem, cfg, env, q);
    if ActFillings(d, mem, cfg, env, q) != [] {
      var req := RequestFor(choice.move, cfg, env, q);
      AskedFacts(d, mem, cfg, env, q);
      OrderlyAnySoak(d, asked, cfg);
      var o := ArrivalFills(asked, cfg, env, req);
      ChosenIsPending(d, mem, cfg, env, q, req, o);
      if o.side == Buy {
        FundedBuyIsPaid(asked.soak, cfg, o);
      }
      PaidNeverThrows(asked, cfg, env, o);
    }
  }

  /** Nor does the fill of an order that a tick sends, when it fills at once. */
  lemma ArrivalNeverThrowsAtAnyPrice(cfg: SoakCfg, entryCost: real, start: int, steps: seq<DriverStep>, env: Env)
    requires FromStart(cfg, entryCost, start, steps) && SpreadCoversFees(cfg) && LastTick(start, steps) <= env.now
    requires var s := Reached(cfg, entryCost, start, steps).desk.soak;
      TargetsNonneg(s.account.cycles) && Times(1.0 + FeeRate(cfg.account), RebuyDust(s)) <= CASH_TOLERANCE
    ensures forall f :: f in TickFillings(Reached(cfg, entryCost, start, steps), cfg, env) ==> !Booked(f, cfg).threw
  {
    hide Reached, Orderly, Books, Timely, OneOpen, FlightOk, Booked, ActFillings, Cleared, Funded, TargetsNonneg,
      RebuyDust, SpreadCoversFees, Times;
    ReachedDriven(cfg, entryCost, start, steps);
    ReachedSolid(cfg, entryCost, start, steps);
    var t := Reached(cfg, entryCost, start, steps);
    SolidBooksFunded(t.desk.soak, cfg);
    DrivenLater(t.desk, cfg, LastTick(start, steps), env.now);
    if TickFillings(t, cfg, env) != [] {
      var q := QuoteOf(cfg, env).value;
      var mem := t.memory.(sellBackoff := Cleared(t.memory.sellBackoff, q.bid, cfg.harvest.sellBucketBps),
                           buyBackoff := Cleared(t.memory.buyBackoff, q.ask, cfg.harvest.buyBucketBps));
      ArrivalBookedAtAnyPrice(t.desk, mem, cfg, env, q);
    }
  }
}
