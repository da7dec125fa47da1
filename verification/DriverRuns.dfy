/**
 * Whole runs of the driver: ticks and market updates in any order, under any market, zone, mode and chance. At most one
 * paper order is open at a time, so the books an order was sent against are the books it fills against.
 */
module DriverRuns {
  import opened Numeric
  import opened Domain
  import opened Orders
  import opened PaperAccount
  import opened PriceBuckets
  import opened Risk
  import opened Soaks
  import opened SoakBooks
  import opened PricedBooks
  import opened BudgetBooks
  import opened SellLadder
  import opened Solvency
  import opened DriverBooks
  import opened Desks
  import opened DeskSteps
  import opened Drivers
  import DeskRuns
  import Settlement
  import H = HarvestCycles
  import Lots = AccumulationLots
  import Funds = AccumulationBudget

  // ── What the driver sends is what the books allow ────────────────────────

  /** An order made of the request, for no more than it asked. */
  predicate SizedFrom(req: Request, cfg: SoakCfg, env: Env, o: Order) {
    SubmittedAs(req, env, o) && cfg.risk.minOrderZig <= o.quantity <= req.quantity && o.price > 0.0
  }

  lemma RebuyAllowed(s: Soak, mem: Memory, cfg: SoakCfg, env: Env, q: Quote, o: Order)
    requires CfgOk(cfg) && RebuyMove(s, mem, cfg, env, q.ask).Rebuy?
    requires SizedFrom(RequestFor(RebuyMove(s, mem, cfg, env, q.ask), cfg, env, q), cfg, env, o)
    ensures Pending(s, cfg, o)
  {
    hide H.OpenForRebuy, H.UnrecoveredTotal, PriceBucketId, Times;
  }

  lemma RecoveryAllowed(s: Soak, cfg: SoakCfg, env: Env, q: Quote, o: Order)
    requires CfgOk(cfg) && cfg.accEnabled && RecoveryMove(s, cfg, env, q.bid).Recover? && s.account.startingActive > 0.0
    requires SizedFrom(RequestFor(RecoveryMove(s, cfg, env, q.bid), cfg, env, q), cfg, env, o)
    ensures Pending(s, cfg, o)
  {
    hide Times, Over, Lots.RecoverySellQty;
    var due := Lots.OpenForRecovery(s.lots, q.bid, Pct(cfg));
    assert due[0] in s.lots;
    var i :| 0 <= i < |s.lots| && s.lots[i] == due[0];
    assert AimedAt(s, o, i);
  }

  lemma FloorAboveOut(s: Soak, cfg: SoakCfg, env: Env)
    requires CfgOk(cfg) && Laddered(s, cfg)
    ensures AboveOpenSells(Cycles(s), SellFloor(s, cfg, env), cfg.harvest.sellBucketBps)
  {
    hide Times;
    forall i | 0 <= i < |Cycles(s)| && Cycles(s)[i].status != H.Completed
      ensures SellFloor(s, cfg, env) >= Times(Width(cfg.harvest.sellBucketBps), Cycles(s)[i].avgSellPrice)
    {
      var top := HighestOut(Cycles(s)).value;
      TimesMono(Cycles(s)[i].avgSellPrice, top, Width(Spacing(cfg, env)));
      TimesSwap(Width(Spacing(cfg, env)), Cycles(s)[i].avgSellPrice);
      TimesSwap(Width(cfg.harvest.sellBucketBps), Cycles(s)[i].avgSellPrice);
      TimesMono(Width(cfg.harvest.sellBucketBps), Width(Spacing(cfg, env)), Cycles(s)[i].avgSellPrice);
    }
  }

  lemma SellAllowed(s: Soak, mem: Memory, cfg: SoakCfg, env: Env, q: Quote, o: Order)
    requires CfgOk(cfg) && Laddered(s, cfg) && s.account.startingActive > 0.0
    requires SellMove(s, mem, cfg, env, q.bid, q.ask).SellHarvest?
    requires SizedFrom(RequestFor(SellMove(s, mem, cfg, env, q.bid, q.ask), cfg, env, q), cfg, env, o)
    ensures Pending(s, cfg, o)
  {
    hide Times, H.UnrecoveredTotal, HarvestStock, BucketOccupied, SellFloor, UnrecoveredCap, Laddered, DueCycles,
      BackedOff;
    FloorAboveOut(s, cfg, env);
  }

  lemma NoLotsNoStock(s: Soak)
    ensures s.lots == [] ==> LotStock(s) == 0.0
  {
  }

  /** ZIG bought for a tranche costs no more than the tranche, fee included. */
  lemma TrancheCost(spend: real, ask: real, f: real, qty: real)
    requires ask > 0.0 && f >= 0.0 && qty <= Affordable(spend, Times(ask, 1.0 + f))
    ensures Times(qty, ask) + Times(f, Times(qty, ask)) <= spend
  {
    var unit := Times(ask, 1.0 + f);
    TimesPositive(ask, 1.0 + f);
    OverTimes(spend, unit);
    TimesMono(qty, Over(spend, unit), unit);
    assert unit * qty == qty * ask + f * (qty * ask);
  }

  lemma AccumulateAllowed(s: Soak, cfg: SoakCfg, env: Env, q: Quote, o: Order)
    requires CfgOk(cfg) && cfg.accEnabled && BuyMove(Rolled(s, env.now), cfg, q).Accumulate?
    requires SizedFrom(RequestFor(BuyMove(Rolled(s, env.now), cfg, q), cfg, env, q), cfg, env, o)
    ensures Pending(Rolled(s, env.now), cfg, o)
  {
    hide Times, Over, Funds.MaxSpend, H.RebuyReserve;
    TrancheCost(Tranche(Rolled(s, env.now), cfg, q.market.askLiquidity), q.ask, FeeRate(cfg.account), o.quantity);
  }

  /** Whatever the tick decides to send, sized down or not, is something the books allow. */
  lemma ChosenIsAllowed(s: Soak, mem: Memory, cfg: SoakCfg, env: Env, q: Quote, o: Order)
    requires CfgOk(cfg) && Books(s, cfg) && !Choose(s, mem, cfg, env, q).move.Wait?
    requires SizedFrom(RequestFor(Choose(s, mem, cfg, env, q).move, cfg, env, q), cfg, env, o)
    requires RequestFor(Choose(s, mem, cfg, env, q).move, cfg, env, q).side == Sell ==> s.account.startingActive > 0.0
    ensures Pending(Choose(s, mem, cfg, env, q).soak, cfg, o)
  {
    hide RebuyMove, RecoveryMove, SellMove, BuyMove, Pending, MayAccumulate, Priced, Budgeted, Ledgered, Custody,
      Laddered, Rolled, SubmittedAs;
    var choice := Choose(s, mem, cfg, env, q);
    if choice.move.Rebuy? {
      RebuyAllowed(s, mem, cfg, env, q, o);
    } else if choice.move.Recover? {
      RecoveryAllowed(s, cfg, env, q, o);
    } else if choice.move.SellHarvest? {
      SellAllowed(s, mem, cfg, env, q, o);
    } else {
      AccumulateAllowed(s, cfg, env, q, o);
    }
  }

  // ── One order in flight ──────────────────────────────────────────────────

  ghost predicate OneOpen(orders: seq<Order>, cfg: SoakCfg) {
    && (forall i :: 0 <= i < |orders| ==> orders[i].paper && orders[i].exchange == cfg.exchange)
    && forall i, j :: 0 <= i < j < |orders| ==> !(IsOpen(orders[i]) && IsOpen(orders[j]))
  }

  /** The one open order is what the books allow now, as they did when it was sent. */
  ghost predicate FlightOk(d: Desk, cfg: SoakCfg, now: int) {
    forall i :: 0 <= i < |d.reg.orders| && Live(d.reg.orders[i]) ==>
      Pending(d.soak, cfg, d.reg.orders[i]) && d.reg.orders[i].createdAt <= now
        && Timely(d.soak, d.reg.orders[i].createdAt)
  }

  ghost predicate Driven(d: Desk, cfg: SoakCfg, now: int) {
    && Orderly(d, cfg) && OneOpen(d.reg.orders, cfg)
    && Books(d.soak, cfg) && Timely(d.soak, now)
    && FlightOk(d, cfg, now)
  }

  lemma DrivenLater(d: Desk, cfg: SoakCfg, now: int, later: int)
    requires Driven(d, cfg, now) && now <= later
    ensures Driven(d, cfg, later)
  {
    hide Orderly, Books, Pending;
  }

  lemma PendingReadsOrder(s: Soak, cfg: SoakCfg, o: Order, o': Order)
    requires Pending(s, cfg, o) && o' == o.(status := o'.status, filledQuantity := o'.filledQuantity)
    ensures Pending(s, cfg, o')
  {
    hide Times, H.OpenForRebuy, ActiveZig, LotStock, UnrecoveredCap, Funds.MaxSpend, H.UnrecoveredTotal;
    if o.reason == AccRecovery {
      var i: nat :| AimedAt(s, o, i);
      assert AimedAt(s, o', i);
    }
  }

  /** Closing the only open order leaves none. */
  lemma ClosedOne(d: Desk, d': Desk, cfg: SoakCfg, i: nat, o: Order, now: int)
    requires OneOpen(d.reg.orders, cfg) && Replaced(d, d', i, o) && IsOpen(d.reg.orders[i]) && IsTerminal(o.status)
    requires o.paper && o.exchange == cfg.exchange
    ensures OneOpen(d'.reg.orders, cfg) && FlightOk(d', cfg, now)
    ensures forall k :: 0 <= k < |d'.reg.orders| ==> !IsOpen(d'.reg.orders[k])
  {
    hide Pending, Timely;
  }

  /** A whole fill of a pending order, as the soak hears it. */
  lemma HeardKeepsBooks(d: Desk, d': Desk, cfg: SoakCfg, env: Env, o: Order)
    requires CfgOk(cfg) && Books(d.soak, cfg) && Pending(d.soak, cfg, o) && Timely(d.soak, o.createdAt)
      && o.createdAt <= env.now
    requires Heard(d, d', cfg, env, o)
    ensures Books(d'.soak, cfg) && Timely(d'.soak, env.now) && SameStart(d.soak, d'.soak)
    ensures d'.soak == AfterFill(d.soak, cfg, o, env.now, RegimeNow(cfg, env), env.tag).soak
  {
    hide Books, Pending, Timely, OnPaperFill, RegimeNow, OrderCost;
    FillKeepsBooks(d.soak, cfg, o, env.now, RegimeNow(cfg, env), env.tag);
  }

  lemma RestDriven(c: RestCase, d: Desk, d': Desk, cfg: SoakCfg, env: Env, i: nat)
    requires CfgOk(cfg) && Driven(d, cfg, env.now) && RestLooks(c, d, d', cfg, env, i)
    ensures Driven(d', cfg, env.now) && SameStart(d.soak, d'.soak)
  {
    hide Orderly, Books, Pending, Timely, Heard, Transitions, OneOpen;
    RestedOrderly(c, d, d', cfg, env, i);
    if c != Stays {
      var o := d'.reg.orders[i];
      AllPaper(d, cfg, i);
      TerminalNow(c, d, d', cfg, env, i);
      ClosedOne(d, d', cfg, i, o, env.now);
      if c == FilledResting {
        PendingReadsOrder(d.soak, cfg, d.reg.orders[i], o);
        HeardKeepsBooks(d, d', cfg, env, o);
        NoneInFlight(d', cfg, env.now);
      }
    }
  }

  lemma AllPaper(d: Desk, cfg: SoakCfg, i: nat)
    requires OneOpen(d.reg.orders, cfg) && i < |d.reg.orders|
    ensures d.reg.orders[i].paper && d.reg.orders[i].exchange == cfg.exchange
  {
  }

  lemma TerminalNow(c: RestCase, d: Desk, d': Desk, cfg: SoakCfg, env: Env, i: nat)
    requires CfgOk(cfg) && c != Stays && RestLooks(c, d, d', cfg, env, i)
    ensures IsTerminal(d'.reg.orders[i].status)
  {
    hide Heard;
  }

  lemma NoneInFlight(d: Desk, cfg: SoakCfg, now: int)
    requires forall k :: 0 <= k < |d.reg.orders| ==> !IsOpen(d.reg.orders[k])
    ensures FlightOk(d, cfg, now)
  {
    hide Pending, Timely, Transitions;
  }

  lemma FirstTwo(ids: seq<OrderId>)
    requires NoDuplicates(ids)
    ensures |ids| <= 1 || (ids[0] in ids && ids[1] in ids && ids[0] != ids[1])
  {
  }

  /** With one order in flight at most, a market update has at most one order to visit. */
  lemma OneRests(d: Desk, cfg: SoakCfg)
    requires Orderly(d, cfg) && OneOpen(d.reg.orders, cfg)
    ensures |d.resting| <= 1
  {
    hide Transitions, IsTerminal;
    FirstTwo(d.resting);
  }

  /** Nothing is approved without a market, so a fill knows its regime. */
  lemma ApprovedSeesMarket(d: Desk, cfg: SoakCfg, env: Env, req: Request, others: seq<Order>)
    requires req.exchange == cfg.exchange && Approves(Decide(d, cfg, env, req, others))
    ensures RegimeNow(cfg, env).Some?
  {
    hide Publish, Times, Over, AverageCost, RecentReconnects, OpenCount, PerPrice, Stale, HardGate, PolicyReject,
      Size, ClassifyVolatility;
    var ledger := LedgerFor(d, cfg, req.exchange);
    var c := BuildRiskContext(req, env.mode, VenueOf(env, req.exchange), ledger, others, cfg.risk, env.now);
    FirstGateDecides(c, cfg.risk);
    assert !GateRefuses(MissingMarketState, c, cfg.risk);
  }

  lemma GuardSeesMarket(d: Desk, cfg: SoakCfg, env: Env, o: Order)
    requires Guard(d, cfg, env, o)
    ensures RegimeNow(cfg, env).Some?
  {
    hide Decide, PendingAllowed, RegimeNow;
    ApprovedSeesMarket(d, cfg, env, AsRequest(o), Without(OpenOrders(d.reg.orders), o.clientOrderId));
  }

  lemma MarketCases(d: Desk, cfg: SoakCfg, env: Env) returns (c: RestCase, i: nat)
    requires CfgOk(cfg) && Orderly(d, cfg) && OneOpen(d.reg.orders, cfg)
    ensures RestLooks(c, d, EngineTick(d, cfg, env).desk, cfg, env, i)
    ensures c != FilledResting ==> !EngineTick(d, cfg, env).threw
    ensures c == FilledResting ==> RegimeNow(cfg, env).Some?
    ensures c == FilledResting ==>
      i < |d.reg.orders| && EngineTick(d, cfg, env).threw == Threw(d, cfg, env, d.reg.orders[i])
  {
    hide Orderly, OneOpen, TickOne, RestLooks;
    OneRests(d, cfg);
    c, i := Stays, 0;
    StaysPut(d, cfg, env, i);
    if d.resting != [] {
      c, i := TickCases(d, cfg, env, d.resting[0]);
      if c == FilledResting {
        GuardSeesMarket(d, cfg, env, d.reg.orders[i]);
      }
      assert d.resting[1..] == [];
      var first := TickOne(d, cfg, env, d.resting[0]);
      assert TickOver(first.desk, cfg, env, []) == Delivered(first.desk, false);
    }
  }

  lemma MarketDriven(d: Desk, cfg: SoakCfg, env: Env)
    requires CfgOk(cfg) && Driven(d, cfg, env.now)
    ensures Driven(EngineTick(d, cfg, env).desk, cfg, env.now) && SameStart(d.soak, EngineTick(d, cfg, env).desk.soak)
  {
    hide Orderly, OneOpen, EngineTick, RestLooks, Books, FlightOk, Timely;
    var c, i := MarketCases(d, cfg, env);
    RestDriven(c, d, EngineTick(d, cfg, env).desk, cfg, env, i);
  }

  // ── The band ladder ──────────────────────────────────────────────────────

  /** Released reserve is no other ledger's business: moving it keeps all books. */
  lemma BandKeepsBooks(s: Soak, s': Soak, cfg: SoakCfg)
    requires Books(s, cfg) && s' == s.(account := s.account.(reserveReleased := s'.account.reserveReleased))
    requires ReserveSound(s'.account, cfg.account)
    ensures Books(s', cfg) && SameStart(s, s') && (Solid(s, cfg) ==> Solid(s', cfg))
    ensures forall now :: Timely(s, now) ==> Timely(s', now)
  {
    hide Times, Over, Custody, Priced, Budgeted, Laddered, ReserveSound, Reserve, RebuyPrices, InStep, DayBooks, Opens;
    BandCustody(s, s', cfg);
    BandLedgered(s.account, s'.account, cfg);
    HarvestBookOnly(s, s', cfg);
    BudgetReads(s, s', cfg);
    BandReserve(s, s');
  }

  lemma BandCustody(s: Soak, s': Soak, cfg: SoakCfg)
    requires Custody(s, cfg) && s' == s.(account := s.account.(reserveReleased := s'.account.reserveReleased))
    requires ReserveSound(s'.account, cfg.account)
    ensures Custody(s', cfg)
  {
    hide Times, H.UnrecoveredTotal, ReserveSound, Lots.AllSound, Lots.LotsInOrder, Lots.HeldZig, Lots.SurplusZig;
  }

  lemma BandLedgered(a: Account, a': Account, cfg: SoakCfg)
    requires a' == a.(reserveReleased := a'.reserveReleased)
    ensures InStep(a', cfg.account) == InStep(a, cfg.account) && DayBooks(a') == DayBooks(a) && Opens(a') == Opens(a)
  {
    hide Times, Over;
  }

  lemma BandReserve(s: Soak, s': Soak)
    requires s' == s.(account := s.account.(reserveReleased := s'.account.reserveReleased))
    ensures Reserve(s') == Reserve(s) && RebuyPrices(s') == RebuyPrices(s)
  {
  }

  /** What is pending against the books does not ask for it either. */
  lemma BandKeepsPending(s: Soak, s': Soak, cfg: SoakCfg, o: Order)
    requires Pending(s, cfg, o) && s' == s.(account := s.account.(reserveReleased := s'.account.reserveReleased))
    ensures Pending(s', cfg, o)
  {
    hide Times, H.UnrecoveredTotal, H.OpenForRebuy, Funds.MaxSpend, H.RebuyReserve;
    if o.reason == AccRecovery {
      var i: nat :| AimedAt(s, o, i);
      assert AimedAt(s', o, i);
    }
  }

  lemma BandDriven(d: Desk, cfg: SoakCfg, a: Account, now: int)
    requires Driven(d, cfg, now) && a == d.soak.account.(reserveReleased := a.reserveReleased)
    requires ReserveSound(a, cfg.account)
    ensures Driven(DeskRuns.Reserved(d, a), cfg, now) && SameStart(d.soak, DeskRuns.Reserved(d, a).soak)
    ensures Solid(d.soak, cfg) ==> Solid(DeskRuns.Reserved(d, a).soak, cfg)
  {
    hide Orderly, Books, Pending, Timely, OneOpen, Solid, ReserveSound;
    var d' := DeskRuns.Reserved(d, a);
    OrderlyAnySoak(d, d', cfg);
    BandKeepsBooks(d.soak, d'.soak, cfg);
    forall i | 0 <= i < |d.reg.orders| && Live(d.reg.orders[i])
      ensures Pending(d'.soak, cfg, d.reg.orders[i])
    {
      BandKeepsPending(d.soak, d'.soak, cfg, d.reg.orders[i]);
    }
  }

  // ── The tick ─────────────────────────────────────────────────────────────

  lemma CancelDriven(d: Desk, cfg: SoakCfg, env: Env, id: OrderId)
    requires CfgOk(cfg) && Driven(d, cfg, env.now)
    ensures Driven(Cancel(d, env, id), cfg, env.now) && SameStart(d.soak, Cancel(d, env, id).soak)
  {
    hide Orderly, OneOpen, Cancel, RestLooks, Books, FlightOk, Timely;
    var c, i, o := CancelCases(d, cfg, env, id);
    if Has(d.reg, id) {
      AllPaper(d, cfg, Find(d.reg.orders, id));
    }
    RestDriven(c, d, Cancel(d, env, id), cfg, env, i);
  }

  lemma {:induction false} CancelStaleDriven(d: Desk, cfg: SoakCfg, env: Env, pending: seq<Order>)
    requires CfgOk(cfg) && Driven(d, cfg, env.now)
    ensures var d' := CancelStale(d, cfg, env, pending); Driven(d', cfg, env.now) && d'.soak == d.soak
    decreases |pending|
  {
    hide Driven, Cancel;
    if pending != [] {
      if env.now - pending[0].createdAt > StaleMs(cfg) {
        CancelDriven(d, cfg, env, pending[0].clientOrderId);
        CancelLeavesSoak(d, env, pending[0].clientOrderId);
        CancelStaleDriven(Cancel(d, env, pending[0].clientOrderId), cfg, env, pending[1..]);
      } else {
        CancelStaleDriven(d, cfg, env, pending[1..]);
      }
    }
  }

  lemma CancelLeavesSoak(d: Desk, env: Env, id: OrderId)
    ensures Cancel(d, env, id).soak == d.soak
  {
    hide Transition, ApplyEvent, Remove;
  }

  /** The desk once the accumulation budget has been asked: its day may have rolled over. */
  function Asked(d: Desk, mem: Memory, cfg: SoakCfg, env: Env, q: Quote): Desk
    requires CfgOk(cfg)
  {
    d.(soak := Choose(d.soak, mem, cfg, env, q).soak)
  }

  lemma AskedFacts(d: Desk, mem: Memory, cfg: SoakCfg, env: Env, q: Quote)
    requires CfgOk(cfg) && Books(d.soak, cfg) && Timely(d.soak, env.now)
    ensures var s := Asked(d, mem, cfg, env, q).soak;
      && Books(s, cfg) && Timely(s, env.now) && s == d.soak.(budget := s.budget)
      && s.budget.deployed == d.soak.budget.deployed
  {
    hide Custody, Priced, Budgeted, Laddered, Ledgered, RebuyMove, RecoveryMove, SellMove, BuyMove, MayAccumulate;
    RollKeepsBudget(d.soak, cfg, env.now);
    RolledBooks(d.soak, cfg, env.now);
  }

  lemma RolledBooks(s: Soak, cfg: SoakCfg, now: int)
    requires Timely(s, now)
    ensures var s' := Rolled(s, now);
      && Custody(s', cfg) == Custody(s, cfg) && Priced(s', cfg) == Priced(s, cfg)
      && Laddered(s', cfg) == Laddered(s, cfg)
      && Ledgered(s', cfg) == Ledgered(s, cfg) && Timely(s', now)
  {
    hide Times;
  }

  /** The order made of the tick's request, for as much of it as was approved, is what the books allow. */
  lemma ChosenIsPending(d: Desk, mem: Memory, cfg: SoakCfg, env: Env, q: Quote, req: Request, o: Order)
    requires CfgOk(cfg) && Books(d.soak, cfg) && env.mode == PaperMode && !Choose(d.soak, mem, cfg, env, q).move.Wait?
    requires req == RequestFor(Choose(d.soak, mem, cfg, env, q).move, cfg, env, q) && SubmittedAs(req, env, o)
    requires var asked := Asked(d, mem, cfg, env, q);
      Approves(Decide(asked, cfg, env, req, OpenOrders(asked.reg.orders)))
      && o.quantity == Decide(asked, cfg, env, req, OpenOrders(asked.reg.orders)).approvedQty
    ensures Pending(Asked(d, mem, cfg, env, q).soak, cfg, o) && o.createdAt == env.now && o.paper
      && o.exchange == cfg.exchange && RegimeNow(cfg, env).Some?
  {
    hide Books, Choose, Decide, Pending, RegimeNow;
    var asked := Asked(d, mem, cfg, env, q);
    SentAsAllowed(asked, cfg, env, req, o);
    ApprovedSeesMarket(asked, cfg, env, req, OpenOrders(asked.reg.orders));
    BooksLedger(d.soak, cfg);
    SentHasPool(d, mem, cfg, env, q);
    ChosenIsAllowed(d.soak, mem, cfg, env, q, o);
  }

  /** A tick with nothing in flight sends one order that the books allow, or nothing. */
  lemma ActCases(d: Desk, mem: Memory, cfg: SoakCfg, env: Env, q: Quote) returns (c: SubmitCase, o: Order)
    requires CfgOk(cfg) && Orderly(d, cfg) && Books(d.soak, cfg) && Timely(d.soak, env.now) && env.mode == PaperMode
    ensures SubmitLooks(c, Asked(d, mem, cfg, env, q), Act(d, mem, cfg, env, q).desk, cfg, env, o)
    ensures c != WentLive
    ensures c != Nothing ==>
      && Pending(Asked(d, mem, cfg, env, q).soak, cfg, o) && o.createdAt == env.now && o.paper
      && o.exchange == cfg.exchange && RegimeNow(cfg, env).Some?
  {
    hide RegimeNow, Books, Choose, Submit, SubmitLooks, Orderly, Pending, Decide, SelfTrade, Timely;
    var choice := Choose(d.soak, mem, cfg, env, q);
    var asked := Asked(d, mem, cfg, env, q);
    OrderlyAnySoak(d, asked, cfg);
    if choice.move.Wait? {
      c, o := Nothing, NewOrder(Request("", cfg.exchange, "", Buy, true, 0.0, 0.0, None, None, HarvestSell), "", true,
        env.now);
      NothingIsIdle(asked, cfg, env, o);
    } else {
      var req := RequestFor(choice.move, cfg, env, q);
      c, o := SubmitCases(asked, cfg, env, req);
      if c != Nothing {
        ChosenIsPending(d, mem, cfg, env, q, req, o);
        NotLiveOnPaper(c, asked, Submit(asked, cfg, env, req).desk, cfg, env, o);
      }
    }
  }

  lemma BooksLedger(s: Soak, cfg: SoakCfg)
    requires Books(s, cfg)
    ensures Ledgered(s, cfg)
  {
  }

  /** What the driver had approved: a sell only with an opening pool. */
  lemma SentHasPool(d: Desk, mem: Memory, cfg: SoakCfg, env: Env, q: Quote)
    requires CfgOk(cfg) && Ledgered(d.soak, cfg) && env.mode == PaperMode
      && !Choose(d.soak, mem, cfg, env, q).move.Wait?
    requires var req := RequestFor(Choose(d.soak, mem, cfg, env, q).move, cfg, env, q);
      var asked := Asked(d, mem, cfg, env, q);
      Approves(Decide(asked, cfg, env, req, OpenOrders(asked.reg.orders)))
    ensures RequestFor(Choose(d.soak, mem, cfg, env, q).move, cfg, env, q).side == Sell ==>
      d.soak.account.startingActive > 0.0
  {
    hide RebuyMove, RecoveryMove, SellMove, BuyMove, MayAccumulate, Decide, InStep, DayBooks;
    var req := RequestFor(Choose(d.soak, mem, cfg, env, q).move, cfg, env, q);
    Settlement.ApprovedSellHasPool(Asked(d, mem, cfg, env, q), cfg, env, req);
  }

  lemma OrderlyAnySoak(d: Desk, d': Desk, cfg: SoakCfg)
    requires Orderly(d, cfg) && d' == d.(soak := d'.soak)
    ensures Orderly(d', cfg)
  {
  }

  lemma NotLiveOnPaper(c: SubmitCase, d: Desk, d': Desk, cfg: SoakCfg, env: Env, o: Order)
    requires CfgOk(cfg) && SubmitLooks(c, d, d', cfg, env, o) && o.paper
    ensures c != WentLive
  {
    hide Heard, Fresh;
  }

  lemma SentAsAllowed(d: Desk, cfg: SoakCfg, env: Env, req: Request, o: Order)
    requires CfgOk(cfg) && SubmittedAs(req, env, o)
    requires Approves(Decide(d, cfg, env, req, OpenOrders(d.reg.orders)))
      && o.quantity == Decide(d, cfg, env, req, OpenOrders(d.reg.orders)).approvedQty
    ensures SizedFrom(req, cfg, env, o)
  {
    hide Evaluate, Publish;
    ApprovedRequest(req, env.mode, VenueOf(env, req.exchange), LedgerFor(d, cfg, req.exchange),
      OpenOrders(d.reg.orders), cfg.risk, env.now);
  }

  /** A new order joins a book in which nothing was open. */
  lemma AppendedOne(d: Desk, d': Desk, cfg: SoakCfg, o: Order)
    requires OneOpen(d.reg.orders, cfg) && Appended(d, d', o) && o.paper && o.exchange == cfg.exchange
    requires forall k :: 0 <= k < |d.reg.orders| ==> !IsOpen(d.reg.orders[k])
    ensures OneOpen(d'.reg.orders, cfg)
    ensures forall k :: 0 <= k < |d'.reg.orders| && IsOpen(d'.reg.orders[k]) ==>
      k == |d.reg.orders| && d'.reg.orders[k] == o
  {
    hide Transitions;
  }

  lemma SubmittedDriven(c: SubmitCase, d: Desk, d': Desk, cfg: SoakCfg, env: Env, o: Order)
    requires CfgOk(cfg) && Driven(d, cfg, env.now) && SubmitLooks(c, d, d', cfg, env, o) && c != WentLive
    requires forall k :: 0 <= k < |d.reg.orders| ==> !IsOpen(d.reg.orders[k])
    requires c != Nothing ==> Pending(d.soak, cfg, o) && o.createdAt == env.now && o.paper && o.exchange == cfg.exchange
    ensures Driven(d', cfg, env.now) && SameStart(d.soak, d'.soak)
  {
    hide Orderly, Books, Pending, Timely, Heard, Transitions, OneOpen, IsTerminal, Fresh;
    if c == Nothing {
      SameOrderly(d, d', cfg);
    } else {
      AppendedOrderly(c, d, d', cfg, env, o);
      AppendedOne(d, d', cfg, o);
      if c == FilledAtOnce {
        FilledIsOver(o);
        HeardKeepsBooks(d, d', cfg, env, o);
      }
    }
  }

  lemma FilledIsOver(o: Order)
    requires o.status == Filled
    ensures !IsOpen(o)
  {
  }

  lemma TickDriven(t: Trader, cfg: SoakCfg, env: Env)
    requires CfgOk(cfg) && Driven(t.desk, cfg, env.now)
    ensures Driven(DriverTick(t, cfg, env).desk, cfg, env.now)
      && SameStart(t.desk.soak, DriverTick(t, cfg, env).desk.soak)
  {
    hide Orderly, Books, Timely, OneOpen, FlightOk, Choose, Submit, Cancel, SubmitLooks, QuoteOf, Act, Asked, IsOpen,
      Cleared;
    var d := t.desk;
    var pending := PendingOrders(d.reg.orders, cfg);
    if env.mode == PaperMode && QuoteOf(cfg, env).Some? {
      if pending != [] {
        CancelStaleDriven(d, cfg, env, pending);
      } else {
        var q := QuoteOf(cfg, env).value;
        var mem := t.memory.(sellBackoff := Cleared(t.memory.sellBackoff, q.bid, cfg.harvest.sellBucketBps),
                             buyBackoff := Cleared(t.memory.buyBackoff, q.ask, cfg.harvest.buyBucketBps));
        NothingOpen(d, cfg);
        var c, o := ActCases(d, mem, cfg, env, q);
        AskedFacts(d, mem, cfg, env, q);
        AskedDriven(d, mem, cfg, env, q);
        SubmittedDriven(c, Asked(d, mem, cfg, env, q), Act(d, mem, cfg, env, q).desk, cfg, env, o);
      }
    }
  }

  lemma NothingOpen(d: Desk, cfg: SoakCfg)
    requires OneOpen(d.reg.orders, cfg) && PendingOrders(d.reg.orders, cfg) == []
    ensures forall k :: 0 <= k < |d.reg.orders| ==> !IsOpen(d.reg.orders[k])
  {
    hide IsOpen;
    forall k | 0 <= k < |d.reg.orders|
      ensures !IsOpen(d.reg.orders[k])
    {
      assert d.reg.orders[k] in d.reg.orders && d.reg.orders[k] !in PendingOrders(d.reg.orders, cfg);
    }
  }

  lemma AskedDriven(d: Desk, mem: Memory, cfg: SoakCfg, env: Env, q: Quote)
    requires CfgOk(cfg) && Driven(d, cfg, env.now)
    requires forall k :: 0 <= k < |d.reg.orders| ==> !IsOpen(d.reg.orders[k])
    ensures var a := Asked(d, mem, cfg, env, q); Driven(a, cfg, env.now) && SameStart(d.soak, a.soak) && a.reg == d.reg
  {
    hide Orderly, Books, Timely, OneOpen, Choose, Pending, IsOpen;
    AskedFacts(d, mem, cfg, env, q);
    OrderlyAnySoak(d, Asked(d, mem, cfg, env, q), cfg);
    NoneInFlight(Asked(d, mem, cfg, env, q), cfg, env.now);
  }
}
