/**
 * Whole runs of the desk: arbitrary submissions, market updates, cancels, live events, recovery passes and band
 * reloads, in any order.
 */
module DeskRuns {
  import opened Numeric
  import opened Sums
  import opened Domain
  import opened Orders
  import opened PaperAccount
  import opened Risk
  import opened Soaks
  import opened Desks
  import opened DeskSteps
  import opened Settlement
  import OrderRecovery

  datatype Step =
    | SubmitOrder(env: Env, request: Request)
    | MarketUpdate(env: Env)
    | CancelOrder(env: Env, id: OrderId)
    | ExchangeEvent(event: OrderEvent)
    | RecoveryPass(at: int, truths: OrderRecovery.Truths)
    | ReleaseBand(at: int, qty: real)
    | ReprotectBand(at: int, qty: real)

  function TimeOf(s: Step): int {
    match s
    case SubmitOrder(env, _) => env.now
    case MarketUpdate(env) => env.now
    case CancelOrder(env, _) => env.now
    case ExchangeEvent(event) => event.at
    case RecoveryPass(at, _) => at
    case ReleaseBand(at, _) => at
    case ReprotectBand(at, _) => at
  }

  function Reserved(d: Desk, a: Account): Desk { d.(soak := d.soak.(account := a)) }

  /** The reconciler sets live orders to what their exchange reports. */
  function Resynced(d: Desk, ts: OrderRecovery.Truths): Desk {
    d.(reg := d.reg.(orders := OrderRecovery.Pass(d.reg.orders, ts)))
  }

  function Take(d: Desk, cfg: SoakCfg, s: Step): Desk
    requires CfgOk(cfg)
  {
    match s
    case SubmitOrder(env, request) => Submit(d, cfg, env, request).desk
    case MarketUpdate(env) => EngineTick(d, cfg, env).desk
    case CancelOrder(env, id) => Cancel(d, env, id)
    case ExchangeEvent(event) => if FromExchange(d, event) then Emit(d, event) else d
    case RecoveryPass(_, truths) => Resynced(d, truths)
    case ReleaseBand(_, qty) => Reserved(d, ReleaseReserve(d.soak.account, cfg.account, qty))
    case ReprotectBand(_, qty) => Reserved(d, ReprotectReserve(d.soak.account, cfg.account, qty))
  }

  function Run(d: Desk, cfg: SoakCfg, steps: seq<Step>): Desk
    requires CfgOk(cfg)
  {
    if steps == [] then d else Take(Run(d, cfg, steps[..|steps| - 1]), cfg, steps[|steps| - 1])
  }

  /** The clock never runs backwards. */
  ghost predicate Clocked(start: int, steps: seq<Step>) {
    && (forall k :: 0 <= k < |steps| ==> start <= TimeOf(steps[k]))
    && forall j, k :: 0 <= j < k < |steps| ==> TimeOf(steps[j]) <= TimeOf(steps[k])
  }

  function LastTime(start: int, steps: seq<Step>): int {
    if steps == [] then start else TimeOf(steps[|steps| - 1])
  }

  /** `top` bounds every submitted price with the taker fee on it. */
  ghost predicate PricedTo(steps: seq<Step>, cfg: SoakCfg, top: real) {
    forall k :: 0 <= k < |steps| && steps[k].SubmitOrder? ==> PriceWithin(steps[k].request, cfg, top)
  }

  /** The desk of a soak that was just started. */
  function NewDesk(cfg: SoakCfg, entryCost: real, now: int): Desk {
    Desk(Started(cfg, entryCost, now), Registry([], {}), [], {}, [])
  }

  lemma NewDeskSafe(cfg: SoakCfg, entryCost: real, now: int, top: real)
    requires CfgOk(cfg) && cfg.account.startUsdt >= 0.0 && top >= 0.0
    ensures Safe(NewDesk(cfg, entryCost, now), cfg, now, top)
  {
    var d := NewDesk(cfg, entryCost, now);
    var a := d.soak.account;
    MulNonneg(cfg.risk.maxDailySellActivePct, a.startingActive);
    MulNonneg(cfg.risk.maxDailyBuyUsdtPct, cfg.account.startUsdt);
    assert WithFee(0.0, cfg) == 0.0;
    hide Times;
    forall day
      ensures SoldOn(a.fills, day) == 0.0 && BoughtOn(a.fills, day) == 0.0
    {
      QuietDay(a.fills, day);
    }
  }

  /** What a market update still has to visit stays resting until it does. */
  lemma {:induction false} TickSafe(d: Desk, cfg: SoakCfg, env: Env, ids: seq<OrderId>, top: real)
    requires CfgOk(cfg) && Safe(d, cfg, env.now, top)
    requires NoDuplicates(ids) && forall k :: 0 <= k < |ids| ==> ids[k] in d.resting
    ensures Safe(TickOver(d, cfg, env, ids).desk, cfg, env.now, top)
    decreases |ids|
  {
    hide Settles, BooksOk, Orderly, TickOne, RestLooks;
    if ids != [] {
      var c, i := TickCases(d, cfg, env, ids[0]);
      var first := TickOne(d, cfg, env, ids[0]);
      RestSafe(c, d, first.desk, cfg, env, i, top);
      RestedOrderly(c, d, first.desk, cfg, env, i);
      if !first.threw {
        assert c == Stays ==> first.desk == d by { StayedPut(d, first.desk, cfg, env, i); }
        TickSafe(first.desk, cfg, env, ids[1..], top);
      }
    }
  }

  lemma StayedPut(d: Desk, d': Desk, cfg: SoakCfg, env: Env, i: nat)
    requires CfgOk(cfg)
    ensures RestLooks(Stays, d, d', cfg, env, i) ==> d' == d
  {
  }

  lemma LiveMovedSafe(d: Desk, d': Desk, cfg: SoakCfg, i: nat, o: Order, now: int, top: real)
    requires CfgOk(cfg) && Safe(d, cfg, now, top) && LiveMoved(d, d', i, o)
    ensures Safe(d', cfg, now, top)
  {
    hide Settles, BooksOk, Orderly, OpenSells, OpenBuys, Transitions;
    LiveMovedOrderly(d, d', cfg, i, o);
    LiveCommitsNothing(d.reg.orders, i, o, cfg);
    ReplaceKeepsBooks(d.reg.orders, i, o, cfg);
  }

  lemma ReservedSafe(d: Desk, cfg: SoakCfg, a: Account, now: int, top: real)
    requires CfgOk(cfg) && Safe(d, cfg, now, top) && a == d.soak.account.(reserveReleased := a.reserveReleased)
    ensures Safe(Reserved(d, a), cfg, now, top)
  {
    hide BooksOk, OpenSells, OpenBuys, Times;
  }

  /** A recovery pass leaves paper orders alone and never reopens a live one. */
  predicate Reported(o: Order, o': Order) {
    Evolved(o, o') && (IsOpen(o') ==> IsOpen(o)) && (o.paper ==> o' == o)
  }

  lemma PassReports(orders: seq<Order>, ts: OrderRecovery.Truths)
    ensures var orders' := OrderRecovery.Pass(orders, ts);
      |orders'| == |orders| && forall i :: 0 <= i < |orders| ==> Reported(orders[i], orders'[i])
  {
    hide OrderRecovery.LiveFilled, OrderRecovery.FilledOnExchange;
  }

  lemma {:induction false} OpenCountReported(orders: seq<Order>, orders': seq<Order>, ex: Exchange)
    requires |orders'| == |orders| && forall i :: 0 <= i < |orders| ==> Reported(orders[i], orders'[i])
    ensures OpenCount(orders', ex) <= OpenCount(orders, ex)
  {
    hide IsOpen;
    if orders != [] {
      assert Reported(orders[0], orders'[0]);
      OpenCountReported(orders[1..], orders'[1..], ex);
    }
  }

  lemma ReportedOrderly(d: Desk, d': Desk, cfg: SoakCfg)
    requires Orderly(d, cfg) && d' == d.(reg := d.reg.(orders := d'.reg.orders)) && |d'.reg.orders| == |d.reg.orders|
    requires forall i :: 0 <= i < |d.reg.orders| ==> Reported(d.reg.orders[i], d'.reg.orders[i])
    ensures Orderly(d', cfg)
  {
    hide Transitions;
    forall id
      ensures Find(d'.reg.orders, id) == Find(d.reg.orders, id)
    {
      FindSame(d.reg.orders, d'.reg.orders, id);
    }
  }

  lemma ReportedBooks(orders: seq<Order>, orders': seq<Order>, cfg: SoakCfg)
    requires |orders'| == |orders| && forall i :: 0 <= i < |orders| ==> Reported(orders[i], orders'[i])
    requires BooksOk(orders, cfg)
    ensures BooksOk(orders', cfg) && OpenSells(orders', cfg) == OpenSells(orders, cfg)
      && OpenBuys(orders', cfg) == OpenBuys(orders, cfg)
  {
    hide IsOpen, Times, Max;
    OpenCountReported(orders, orders', Bybit);
    OpenCountReported(orders, orders', Mexc);
    SumBySame(orders, orders', PaperSell(cfg.exchange));
    SumBySame(orders, orders', PaperBuy(cfg.exchange));
  }

  lemma ResyncedSafe(d: Desk, cfg: SoakCfg, ts: OrderRecovery.Truths, now: int, top: real)
    requires CfgOk(cfg) && Safe(d, cfg, now, top)
    ensures Safe(Resynced(d, ts), cfg, now, top)
  {
    hide Settles, BooksOk, Orderly, OpenSells, OpenBuys, OrderRecovery.Pass, Reported;
    PassReports(d.reg.orders, ts);
    ReportedOrderly(d, Resynced(d, ts), cfg);
    ReportedBooks(d.reg.orders, Resynced(d, ts).reg.orders, cfg);
  }

  lemma StepSafe(d: Desk, cfg: SoakCfg, s: Step, now: int, top: real)
    requires CfgOk(cfg) && Safe(d, cfg, now, top) && now <= TimeOf(s)
    requires s.SubmitOrder? ==> PriceWithin(s.request, cfg, top)
    ensures Safe(Take(d, cfg, s), cfg, TimeOf(s), top)
  {
    hide Settles, BooksOk, Orderly, Submit, Cancel, TickOver, Emit, FromExchange, RestLooks, LiveMoved, PriceWithin,
      Safe, Reserved, Resynced;
    SafeLater(d, cfg, now, TimeOf(s), top);
    match s {
      case SubmitOrder(env, request) => SubmitSafe(d, cfg, env, request, top);
      case MarketUpdate(env) =>
        RestingDistinctOf(d, cfg, env.now, top);
        TickSafe(d, cfg, env, d.resting, top);
      case CancelOrder(env, id) =>
        SafeIsOrderly(d, cfg, env.now, top);
        var c, i, o := CancelCases(d, cfg, env, id);
        if RestLooks(c, d, Cancel(d, env, id), cfg, env, i) {
          RestSafe(c, d, Cancel(d, env, id), cfg, env, i, top);
        } else {
          LiveMovedSafe(d, Cancel(d, env, id), cfg, i, o, env.now, top);
        }
      case ExchangeEvent(event) =>
        if FromExchange(d, event) {
          var i, o := EventCases(d, event);
          LiveMovedSafe(d, Emit(d, event), cfg, i, o, event.at, top);
        }
      case RecoveryPass(at, truths) => ResyncedSafe(d, cfg, truths, at, top);
      case ReleaseBand(at, qty) => ReservedSafe(d, cfg, ReleaseReserve(d.soak.account, cfg.account, qty), at, top);
      case ReprotectBand(at, qty) => ReservedSafe(d, cfg, ReprotectReserve(d.soak.account, cfg.account, qty), at, top);
    }
  }

  lemma SafeIsOrderly(d: Desk, cfg: SoakCfg, now: int, top: real)
    requires Safe(d, cfg, now, top)
    ensures Orderly(d, cfg)
  {
  }

  lemma RestingDistinctOf(d: Desk, cfg: SoakCfg, now: int, top: real)
    requires Safe(d, cfg, now, top)
    ensures NoDuplicates(d.resting)
  {
  }

  /** Safety holds after every run, from any safe desk. */
  lemma {:induction false} RunSafe(d: Desk, cfg: SoakCfg, steps: seq<Step>, start: int, top: real)
    requires CfgOk(cfg) && Safe(d, cfg, start, top) && Clocked(start, steps) && PricedTo(steps, cfg, top)
    ensures Safe(Run(d, cfg, steps), cfg, LastTime(start, steps), top)
  {
    hide Safe, Take, PriceWithin;
    if steps != [] {
      var front := steps[..|steps| - 1];
      RunSafe(d, cfg, front, start, top);
      StepSafe(Run(d, cfg, front), cfg, steps[|steps| - 1], LastTime(start, front), top);
    }
  }

  // ── What safety means ────────────────────────────────────────────────────

  /** A run from a freshly started soak. */
  ghost predicate ProperRun(cfg: SoakCfg, start: int, steps: seq<Step>, top: real) {
    CfgOk(cfg) && cfg.account.startUsdt >= 0.0 && top >= 0.0 && Clocked(start, steps) && PricedTo(steps, cfg, top)
  }

  function After(cfg: SoakCfg, entryCost: real, start: int, steps: seq<Step>): Desk
    requires CfgOk(cfg)
  {
    Run(NewDesk(cfg, entryCost, start), cfg, steps)
  }

  lemma AfterSafe(cfg: SoakCfg, entryCost: real, start: int, steps: seq<Step>, top: real)
    requires ProperRun(cfg, start, steps, top)
    ensures Safe(After(cfg, entryCost, start, steps), cfg, LastTime(start, steps), top)
  {
    hide Safe, Run, NewDesk;
    NewDeskSafe(cfg, entryCost, start, top);
    RunSafe(NewDesk(cfg, entryCost, start), cfg, steps, start, top);
  }

  /**
   * Settlement safety: inventory above the floor covers every open paper sell, even when reserve is released meanwhile;
   * cash covers every open paper buy up to the size tolerance at the highest price with its fee.
   */
  lemma SettlementSafety(cfg: SoakCfg, entryCost: real, start: int, steps: seq<Step>, top: real)
    requires ProperRun(cfg, start, steps, top)
    ensures var d := After(cfg, entryCost, start, steps);
      && d.soak.account.zig - OpenSells(d.reg.orders, cfg) >= Min(cfg.account.reserveFloor, cfg.account.startZig) - 1e-9
      && OpenSells(d.reg.orders, cfg) >= 0.0
      && d.soak.account.usdt - WithFee(OpenBuys(d.reg.orders, cfg), cfg) >= -(1e-9 * top)
  {
    hide Run, NewDesk, OpenSells, OpenBuys, WithFee, Orderly, BooksOk, WithinDay;
    AfterSafe(cfg, entryCost, start, steps, top);
    OpenNonneg(After(cfg, entryCost, start, steps), cfg);
  }

  /** Daily limits: no UTC day's trades exceed its allowance, and today's trades with everything open fit today's. */
  lemma DailyLimits(cfg: SoakCfg, entryCost: real, start: int, steps: seq<Step>, top: real, day: int)
    requires ProperRun(cfg, start, steps, top)
    ensures var d := After(cfg, entryCost, start, steps); var a := d.soak.account; var now := LastTime(start, steps);
      && SoldOn(a.fills, day) <= SellCap(a, cfg) + 1e-9
      && BoughtOn(a.fills, day) <= BuyCap(cfg) + 1e-9 * top
      && SoldOn(a.fills, UtcDay(now)) + OpenSells(d.reg.orders, cfg) <= SellCap(a, cfg) + 1e-9
      && BoughtOn(a.fills, UtcDay(now)) + WithFee(OpenBuys(d.reg.orders, cfg), cfg) <= BuyCap(cfg) + 1e-9 * top
  {
    hide Run, NewDesk, OpenSells, OpenBuys, WithFee, Orderly, BooksOk, SellCap, BuyCap, Covered, SoldOn, BoughtOn;
    AfterSafe(cfg, entryCost, start, steps, top);
    var d := After(cfg, entryCost, start, steps);
    CountersAreDays(d.soak.account, LastTime(start, steps));
  }

  lemma CountersAreDays(a: Account, now: int)
    requires DayBooks(a) && (a.day.Some? ==> a.day.value <= UtcDay(now))
    ensures SoldToday(a, now) == SoldOn(a.fills, UtcDay(now)) && BoughtToday(a, now) == BoughtOn(a.fills, UtcDay(now))
  {
    hide SoldOn, BoughtOn;
    if a.day != Some(UtcDay(now)) {
      QuietDay(a.fills, UtcDay(now));
    }
  }

  /**
   * Engine and registry agree: what rests is what is open on paper; a paper order was filled once and whole, or not at
   * all.
   */
  lemma EngineAgrees(cfg: SoakCfg, entryCost: real, start: int, steps: seq<Step>, top: real)
    requires ProperRun(cfg, start, steps, top)
    ensures var d := After(cfg, entryCost, start, steps);
      && (forall id :: id in d.resting <==> Has(d.reg, id) && Live(OrderOf(d, id)))
      && (forall i :: 0 <= i < |d.reg.orders| && Live(d.reg.orders[i]) ==> d.reg.orders[i].filledQuantity == 0.0)
      && (forall id, at :: PaperFillId(id, at) in d.reg.appliedFills ==>
           Has(d.reg, id) && OrderOf(d, id).status == Filled
             && OrderOf(d, id).filledQuantity == OrderOf(d, id).quantity)
      && (forall id, at, at' ::
            PaperFillId(id, at) in d.reg.appliedFills && PaperFillId(id, at') in d.reg.appliedFills ==> at == at')
  {
    hide Run, NewDesk, Settles, BooksOk, IsOpen;
    AfterSafe(cfg, entryCost, start, steps, top);
    var d := After(cfg, entryCost, start, steps);
    forall id | id in d.resting
      ensures Has(d.reg, id) && Live(OrderOf(d, id))
    {
      var k :| 0 <= k < |d.resting| && d.resting[k] == id;
    }
  }

  /** Pipeline safety: nothing crosses, few enough orders are open, and every order reached an adapter at most once. */
  lemma PipelineSafety(cfg: SoakCfg, entryCost: real, start: int, steps: seq<Step>, top: real)
    requires ProperRun(cfg, start, steps, top)
    ensures var d := After(cfg, entryCost, start, steps);
      && NothingCrosses(d.reg.orders) && FewOpen(d.reg.orders, cfg)
      && UniqueIds(d.reg.orders) && NoDuplicates(d.placed) && (forall id :: id in d.submitted ==> Has(d.reg, id))
  {
    hide Run, NewDesk, Settles, RestingIsLive, FilledOnce, NothingCrosses, FewOpen, UniqueIds, NoDuplicates;
    AfterSafe(cfg, entryCost, start, steps, top);
  }

  /** With fee-inclusive prices of at most 100 USDT the cash is there for a resting order that fills. */
  lemma RestingIsPaid(d: Desk, d': Desk, cfg: SoakCfg, env: Env, i: nat, top: real)
    requires CfgOk(cfg) && Safe(d, cfg, env.now, top) && 0.0 <= top <= 100.0
      && RestLooks(FilledResting, d, d', cfg, env, i)
    ensures FillProblem(d.soak.account, cfg.account,
      TradeOf(d'.reg.orders[i], NewsOf(cfg, env, d'.reg.orders[i]))) != Some(CashOverdraw)
  {
    hide Settles, BooksOk, Orderly, OpenSells, OpenBuys, Heard;
    var was := d.reg.orders[i];
    LiveIsFresh(d, cfg, i);
    ClosingFrees(d.reg.orders, i, d'.reg.orders[i], cfg);
    ReplaceKeepsBooks(d.reg.orders, i, d'.reg.orders[i], cfg);
    assert Replaced(d, d', i, d'.reg.orders[i]);
    OpenNonneg(d', cfg);
    PayableFromCover(d.soak.account, cfg, env, d'.reg.orders[i], OpenSells(d.reg.orders, cfg),
      OpenBuys(d.reg.orders, cfg), top);
  }

  lemma PayableFromCover(a: Account, cfg: SoakCfg, env: Env, o: Order, sells: real, buys: real, top: real)
    requires CfgOk(cfg) && Settles(a, cfg, sells, buys, env.now, top) && 0.0 <= top <= 100.0
    requires o.side == Buy ==> Times(o.quantity, o.price) <= buys
    requires o.quantity > 0.0 && o.price > 0.0
    ensures FillProblem(a, cfg.account, TradeOf(o, NewsOf(cfg, env, o))) != Some(CashOverdraw)
  {
    hide WithinDay, RegimeNow;
    var t := TradeOf(o, NewsOf(cfg, env, o));
    Amounts(t, cfg);
    if o.side == Buy {
      WithFeeMono(Times(o.quantity, o.price), buys, cfg);
    }
  }

  /** The same for an order that fills the moment it arrives. */
  lemma ArrivalIsPaid(d: Desk, cfg: SoakCfg, env: Env, req: Request, o: Order, top: real)
    requires CfgOk(cfg) && Safe(d, cfg, env.now, top) && 0.0 <= top <= 100.0 && PriceWithin(req, cfg, top)
    requires SubmittedAs(req, env, o) && o.exchange == cfg.exchange && env.mode == PaperMode
    requires Approves(Decide(d, cfg, env, req, OpenOrders(d.reg.orders)))
      && o.quantity == Decide(d, cfg, env, req, OpenOrders(d.reg.orders)).approvedQty
    requires o.quantity > 0.0 && o.price > 0.0
    ensures FillProblem(d.soak.account, cfg.account, TradeOf(o, NewsOf(cfg, env, o))) != Some(CashOverdraw)
  {
    hide Settles, BooksOk, Orderly, Submit, Decide, Heard, Times, PaperSell, PaperBuy, NewsOf, TradeOf, PriceWithin;
    var x, y := OpenSells(d.reg.orders, cfg), OpenBuys(d.reg.orders, cfg);
    PricesOf(d, cfg);
    PaperWithinOpen(d.reg.orders, cfg.exchange);
    if o.side == Buy {
      ApprovedBuySettles(d, cfg, env, req, o.quantity, x, y, top);
      PayableFromCover(d.soak.account, cfg, env, o, x, y + Times(o.quantity, o.price), top);
    } else {
      PayableFromCover(d.soak.account, cfg, env, o, x, y, top);
    }
  }

  lemma PricesOf(d: Desk, cfg: SoakCfg)
    requires BooksOk(d.reg.orders, cfg)
    ensures PositivePrices(d.reg.orders)
  {
  }

  // ── Orders never come back ───────────────────────────────────────────────

  /** Later books carry every earlier order on: as it was ordered, and over if it was over. */
  ghost predicate Extends(orders: seq<Order>, orders': seq<Order>) {
    |orders| <= |orders'| && forall i :: 0 <= i < |orders| ==> Evolved(orders[i], orders'[i])
  }

  lemma RestExtends(c: RestCase, d: Desk, d': Desk, cfg: SoakCfg, env: Env, i: nat)
    requires CfgOk(cfg) && RestLooks(c, d, d', cfg, env, i)
    ensures Extends(d.reg.orders, d'.reg.orders)
  {
    hide Heard;
  }

  lemma {:induction false} TickExtends(d: Desk, cfg: SoakCfg, env: Env, ids: seq<OrderId>)
    requires CfgOk(cfg) && Orderly(d, cfg) && NoDuplicates(ids) && forall k :: 0 <= k < |ids| ==> ids[k] in d.resting
    ensures Extends(d.reg.orders, TickOver(d, cfg, env, ids).desk.reg.orders)
    decreases |ids|
  {
    hide Orderly, TickOne, RestLooks, Transitions;
    if ids != [] {
      var c, i := TickCases(d, cfg, env, ids[0]);
      var first := TickOne(d, cfg, env, ids[0]);
      RestExtends(c, d, first.desk, cfg, env, i);
      RestedOrderly(c, d, first.desk, cfg, env, i);
      if !first.threw {
        assert c == Stays ==> first.desk == d by { StayedPut(d, first.desk, cfg, env, i); }
        TickExtends(first.desk, cfg, env, ids[1..]);
      }
    }
  }

  lemma StepExtends(d: Desk, cfg: SoakCfg, s: Step)
    requires CfgOk(cfg) && Orderly(d, cfg)
    ensures Extends(d.reg.orders, Take(d, cfg, s).reg.orders)
  {
    hide Orderly, Submit, Cancel, TickOver, Emit, FromExchange, RestLooks, Transitions;
    match s {
      case SubmitOrder(env, request) =>
        var c, o := SubmitCases(d, cfg, env, request);
        SubmitExtends(c, d, Submit(d, cfg, env, request).desk, cfg, env, o);
      case MarketUpdate(env) =>
        OrderlyDistinct(d, cfg);
        TickExtends(d, cfg, env, d.resting);
      case CancelOrder(env, id) =>
        var c, i, o := CancelCases(d, cfg, env, id);
        if RestLooks(c, d, Cancel(d, env, id), cfg, env, i) {
          RestExtends(c, d, Cancel(d, env, id), cfg, env, i);
        }
      case ExchangeEvent(event) =>
        if FromExchange(d, event) {
          var i, o := EventCases(d, event);
        }
      case RecoveryPass(_, truths) => PassReports(d.reg.orders, truths);
      case _ =>
    }
  }

  lemma OrderlyDistinct(d: Desk, cfg: SoakCfg)
    requires Orderly(d, cfg)
    ensures NoDuplicates(d.resting)
  {
  }

  lemma SubmitExtends(c: SubmitCase, d: Desk, d': Desk, cfg: SoakCfg, env: Env, o: Order)
    requires CfgOk(cfg) && SubmitLooks(c, d, d', cfg, env, o)
    ensures Extends(d.reg.orders, d'.reg.orders)
  {
    hide Heard, Fresh, Transitions;
  }

  /** Over a whole run no order leaves a terminal state, is dropped from the books or changes what was ordered. */
  lemma {:induction false} OverIsOver(cfg: SoakCfg, entryCost: real, start: int, steps: seq<Step>, k: nat, top: real)
    requires ProperRun(cfg, start, steps, top) && k <= |steps|
    ensures Extends(After(cfg, entryCost, start, steps[..k]).reg.orders, After(cfg, entryCost, start, steps).reg.orders)
  {
    hide Take, NewDesk, Safe, Transitions, PriceWithin;
    if k == |steps| {
      assert steps[..k] == steps;
    } else {
      var front := steps[..|steps| - 1];
      assert front[..k] == steps[..k];
      OverIsOver(cfg, entryCost, start, front, k, top);
      AfterSafe(cfg, entryCost, start, front, top);
      SafeIsOrderly(After(cfg, entryCost, start, front), cfg, LastTime(start, front), top);
      StepExtends(After(cfg, entryCost, start, front), cfg, steps[|steps| - 1]);
    }
  }
}
