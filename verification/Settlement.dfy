/**
 * Settlement safety (backend/src/decision-gate/risk-context.ts:18-52, sizing/sizing-engine.ts:15-61): commitments of
 * open paper orders are set aside at approval, so what is approved can always be settled, whatever is submitted around
 * it.
 */
module Settlement {
  import opened Numeric
  import opened Sums
  import opened Domain
  import opened Orders
  import opened PaperAccount
  import opened Risk
  import opened Soaks
  import opened Desks
  import opened DeskSteps
  import Lots = AccumulationLots
  import Funds = AccumulationBudget

  // ── Books of open orders ─────────────────────────────────────────────────

  /** No open buy on a market is priced at or above an open sell on it. */
  ghost predicate NothingCrosses(orders: seq<Order>) {
    forall i, j :: 0 <= i < |orders| && 0 <= j < |orders| && OpposedOpen(orders[i], orders[j]) ==>
      orders[i].price < orders[j].price
  }

  predicate OpposedOpen(buy: Order, sell: Order) {
    IsOpen(buy) && IsOpen(sell) && buy.exchange == sell.exchange && buy.symbol == sell.symbol && buy.side == Buy
      && sell.side == Sell
  }

  ghost predicate PositivePrices(orders: seq<Order>) {
    forall i :: 0 <= i < |orders| ==> orders[i].price > 0.0
  }

  predicate FewOpen(orders: seq<Order>, cfg: SoakCfg) {
    OpenCount(orders, Bybit) <= cfg.risk.maxOpenOrdersPerExchange
      && OpenCount(orders, Mexc) <= cfg.risk.maxOpenOrdersPerExchange
  }

  /** ZIG that open paper sells have yet to deliver, and USDT (before fees) that open paper buys have yet to pay. */
  function PaperSell(ex: Exchange): Order -> real {
    (o: Order) => if o.paper then ToDeliver(o, ex) else 0.0
  }

  function PaperBuy(ex: Exchange): Order -> real {
    (o: Order) => if o.paper then ToPay(o, ex) else 0.0
  }

  function OpenSells(orders: seq<Order>, cfg: SoakCfg): real { SumBy(orders, PaperSell(cfg.exchange)) }
  function OpenBuys(orders: seq<Order>, cfg: SoakCfg): real { SumBy(orders, PaperBuy(cfg.exchange)) }

  lemma {:induction false} OpenCountOfOpen(orders: seq<Order>, ex: Exchange)
    ensures OpenCount(OpenOrders(orders), ex) == OpenCount(orders, ex)
  {
    hide IsOpen;
    if orders != [] {
      OpenCountOfOpen(orders[1..], ex);
      if IsOpen(orders[0]) {
        assert ([orders[0]] + OpenOrders(orders[1..]))[1..] == OpenOrders(orders[1..]);
      }
    }
  }

  lemma {:induction false} OpenCountAppend(orders: seq<Order>, o: Order, ex: Exchange)
    ensures OpenCount(orders + [o], ex) == OpenCount(orders, ex) + (if o.exchange == ex && IsOpen(o) then 1 else 0)
  {
    hide IsOpen;
    if orders == [] {
      assert orders + [o] == [o];
    } else {
      assert (orders + [o])[1..] == orders[1..] + [o];
      OpenCountAppend(orders[1..], o, ex);
    }
  }

  lemma {:induction false} OpenCountClosed(orders: seq<Order>, i: nat, o: Order, ex: Exchange)
    requires i < |orders| && o.exchange == orders[i].exchange && (IsOpen(o) ==> IsOpen(orders[i]))
    ensures OpenCount(orders[i := o], ex) <= OpenCount(orders, ex)
  {
    hide IsOpen;
    if i == 0 {
      assert orders[0 := o][1..] == orders[1..];
    } else {
      assert orders[i := o][1..] == orders[1..][i - 1 := o];
      OpenCountClosed(orders[1..], i - 1, o, ex);
    }
  }

  lemma Commits(o: Order, ex: Exchange)
    requires o.price > 0.0
    ensures 0.0 <= PaperSell(ex)(o) <= SellCommitment(ex)(o) && 0.0 <= PaperBuy(ex)(o) <= BuyCommitment(ex)(o)
    ensures !IsOpen(o) ==> SellCommitment(ex)(o) == 0.0 && BuyCommitment(ex)(o) == 0.0
  {
    MulNonneg(Max(Remaining(o), 0.0), o.price);
  }

  /** Closed orders commit nothing, so summing over open ones loses nothing; paper orders are among them. */
  lemma {:induction false} PaperWithinOpen(orders: seq<Order>, ex: Exchange)
    requires PositivePrices(orders)
    ensures 0.0 <= SumBy(orders, PaperSell(ex)) <= SumBy(OpenOrders(orders), SellCommitment(ex))
    ensures 0.0 <= SumBy(orders, PaperBuy(ex)) <= SumBy(OpenOrders(orders), BuyCommitment(ex))
  {
    hide IsOpen, Times, PaperSell, PaperBuy, SellCommitment, BuyCommitment;
    if orders != [] {
      PaperWithinOpen(orders[1..], ex);
      Commits(orders[0], ex);
      if IsOpen(orders[0]) {
        SumByCons(orders[0], OpenOrders(orders[1..]), SellCommitment(ex));
        SumByCons(orders[0], OpenOrders(orders[1..]), BuyCommitment(ex));
      }
    }
  }

  // ── What a step does to the books of open orders ─────────────────────────

  ghost predicate BooksOk(orders: seq<Order>, cfg: SoakCfg) {
    NothingCrosses(orders) && FewOpen(orders, cfg) && PositivePrices(orders)
  }

  lemma AppendKeepsBooks(orders: seq<Order>, o: Order, cfg: SoakCfg, req: Request)
    requires BooksOk(orders, cfg) && o.price > 0.0 && !SelfTrade(OpenOrders(orders), req)
    requires o.exchange == req.exchange && o.symbol == req.symbol && o.side == req.side && o.price == req.price
    requires OpenCount(orders, o.exchange) < cfg.risk.maxOpenOrdersPerExchange
    ensures BooksOk(orders + [o], cfg)
  {
    hide IsOpen;
    OpenCountAppend(orders, o, Bybit);
    OpenCountAppend(orders, o, Mexc);
    forall i | 0 <= i < |orders| && IsOpen(orders[i])
      ensures !Crosses(orders[i], req)
    {
      assert orders[i] in OpenOrders(orders);
      var k :| 0 <= k < |OpenOrders(orders)| && OpenOrders(orders)[k] == orders[i];
    }
  }

  lemma ReplaceKeepsBooks(orders: seq<Order>, i: nat, o: Order, cfg: SoakCfg)
    requires BooksOk(orders, cfg) && i < |orders|
    requires o == orders[i].(status := o.status, filledQuantity := o.filledQuantity)
      && (IsOpen(o) ==> IsOpen(orders[i]))
    ensures BooksOk(orders[i := o], cfg)
  {
    hide IsOpen;
    OpenCountClosed(orders, i, o, Bybit);
    OpenCountClosed(orders, i, o, Mexc);
  }

  /** A live order moves without touching what paper orders commit. */
  lemma LiveCommitsNothing(orders: seq<Order>, i: nat, o: Order, cfg: SoakCfg)
    requires i < |orders| && !orders[i].paper && !o.paper
    ensures OpenSells(orders[i := o], cfg) == OpenSells(orders, cfg)
      && OpenBuys(orders[i := o], cfg) == OpenBuys(orders, cfg)
  {
    SumByUpdate(orders, i, o, PaperSell(cfg.exchange));
    SumByUpdate(orders, i, o, PaperBuy(cfg.exchange));
  }

  lemma FreshCommits(o: Order, cfg: SoakCfg)
    requires Live(o) && Fresh(o, cfg)
    ensures PaperSell(cfg.exchange)(o) == (if o.side == Sell then o.quantity else 0.0)
    ensures PaperBuy(cfg.exchange)(o) == (if o.side == Buy then Times(o.quantity, o.price) else 0.0)
  {
    hide Times;
    assert Max(Remaining(o), 0.0) == o.quantity;
  }

  lemma ClosedCommitsNothing(o: Order, ex: Exchange)
    requires !IsOpen(o)
    ensures PaperSell(ex)(o) == 0.0 && PaperBuy(ex)(o) == 0.0
  {
    hide Times;
  }

  /** Closing a resting paper order frees exactly what it had committed. */
  lemma ClosingFrees(orders: seq<Order>, i: nat, o: Order, cfg: SoakCfg)
    requires i < |orders| && Live(orders[i]) && Fresh(orders[i], cfg) && IsTerminal(o.status)
    ensures var was := orders[i];
      && OpenSells(orders[i := o], cfg) == OpenSells(orders, cfg) - (if was.side == Sell then was.quantity else 0.0)
      && OpenBuys(orders[i := o], cfg) == OpenBuys(orders, cfg) -
           (if was.side == Buy then Times(was.quantity, was.price) else 0.0)
  {
    hide Times, PaperSell, PaperBuy;
    SumByUpdate(orders, i, o, PaperSell(cfg.exchange));
    SumByUpdate(orders, i, o, PaperBuy(cfg.exchange));
    FreshCommits(orders[i], cfg);
    ClosedCommitsNothing(o, cfg.exchange);
  }

  lemma AppendCommits(orders: seq<Order>, o: Order, cfg: SoakCfg)
    ensures OpenSells(orders + [o], cfg) == OpenSells(orders, cfg) + PaperSell(cfg.exchange)(o)
    ensures OpenBuys(orders + [o], cfg) == OpenBuys(orders, cfg) + PaperBuy(cfg.exchange)(o)
  {
    SumByAppend(orders, o, PaperSell(cfg.exchange));
    SumByAppend(orders, o, PaperBuy(cfg.exchange));
  }

  // ── What the account must be able to settle ──────────────────────────────

  function SellCap(a: Account, cfg: SoakCfg): real { Times(cfg.risk.maxDailySellActivePct, a.startingActive) }
  function BuyCap(cfg: SoakCfg): real { Times(cfg.risk.maxDailyBuyUsdtPct, cfg.account.startUsdt) }

  function SoldToday(a: Account, now: int): real { if a.day == Some(UtcDay(now)) then a.dailySellZig else 0.0 }
  function BoughtToday(a: Account, now: int): real { if a.day == Some(UtcDay(now)) then a.dailyBuyUsdt else 0.0 }

  function WithFee(usdt: real, cfg: SoakCfg): real { Times(usdt, 1.0 + FeeRate(cfg.account)) }

  /** Inventory above the floor and cash cover every open paper order. `top` bounds fee-inclusive prices. */
  predicate Covered(a: Account, cfg: SoakCfg, sells: real, buys: real, top: real) {
    && a.zig - sells >= Min(cfg.account.reserveFloor, cfg.account.startZig) - SIZE_TOLERANCE
    && a.usdt - WithFee(buys, cfg) >= -(SIZE_TOLERANCE * top)
  }

  /** Today's trades and everything open fit today's allowance; no day ever exceeded its own. */
  ghost predicate WithinDay(a: Account, cfg: SoakCfg, sells: real, buys: real, now: int, top: real) {
    && DayBooks(a) && a.dailySellZig >= 0.0 && a.dailyBuyUsdt >= 0.0 && (a.day.Some? ==> a.day.value <= UtcDay(now))
    && SoldToday(a, now) + sells <= SellCap(a, cfg) + SIZE_TOLERANCE
    && BoughtToday(a, now) + WithFee(buys, cfg) <= BuyCap(cfg) + SIZE_TOLERANCE * top
    && (forall day :: SoldOn(a.fills, day) <= SellCap(a, cfg) + SIZE_TOLERANCE)
    && (forall day :: BoughtOn(a.fills, day) <= BuyCap(cfg) + SIZE_TOLERANCE * top)
  }

  ghost predicate Settles(a: Account, cfg: SoakCfg, sells: real, buys: real, now: int, top: real) {
    Covered(a, cfg, sells, buys, top) && WithinDay(a, cfg, sells, buys, now, top)
  }

  lemma WithFeeMono(a: real, b: real, cfg: SoakCfg)
    requires CfgOk(cfg) && a <= b
    ensures WithFee(a, cfg) <= WithFee(b, cfg)
  {
    MulMono(a, b, 1.0 + FeeRate(cfg.account));
  }

  /** Freed commitments and a later clock only relax what has to be settled; allowances do not carry over midnight. */
  lemma SettlesLess(a: Account, cfg: SoakCfg, sells: real, buys: real, sells': real, buys': real, now: int, now': int,
      top: real)
    requires CfgOk(cfg) && Settles(a, cfg, sells, buys, now, top)
    requires sells' <= sells && buys' <= buys && now <= now'
    ensures Settles(a, cfg, sells', buys', now', top)
  {
    WithFeeMono(buys', buys, cfg);
    hide Times, DayBooks;
  }

  // ── Fills ────────────────────────────────────────────────────────────────

  /** The account after a fill was heard: untouched when it was refused, settled otherwise, whatever the lots did. */
  lemma FillEffect(s: Soak, cfg: SoakCfg, o: Order, news: FillNews)
    requires CfgOk(cfg) && o.exchange == cfg.exchange && news.size == Some(o.quantity) && o.quantity > 0.0
    ensures var a := s.account; var a' := OnPaperFill(s, cfg, o, news).soak.account; var t := TradeOf(o, news);
      && t.side == o.side && t.size == o.quantity && t.at == news.at
      && (news.price == Some(o.price) ==> t.price == o.price)
      && if FillProblem(a, cfg.account, t) == None then
           a' == Settled(a, cfg.account, t).(cycles := a'.cycles, protectedSurplus := a'.protectedSurplus)
         else a' == a
  {
    hide Times, Over, FillProblem, Settled, CyclesAfter, ApplyPaperFill, Funds.Record, Funds.Release, Lots.Sell,
      Lots.SurplusZig, Lots.NewLot, InvalidSurplus;
    var t := TradeOf(o, news);
    Outcomes(s.account, cfg.account, t);
  }

  lemma Outcomes(a: Account, cfg: AccountCfg, t: PaperTrade)
    ensures FillProblem(a, cfg, t) == None ==> t.size > 0.0 && t.price > 0.0
    ensures FillProblem(a, cfg, t) == None ==>
      ApplyPaperFill(a, cfg, t) == Applied(Settled(a, cfg, t).(cycles := CyclesAfter(a.cycles, t, cfg)))
    ensures FillProblem(a, cfg, t) != None ==> ApplyPaperFill(a, cfg, t).Refused?
  {
    hide Times, Over, Settled, CyclesAfter;
  }

  /** A fill takes from the account what its order had set aside. */
  lemma FillSettles(a: Account, a': Account, cfg: SoakCfg, t: PaperTrade, sells: real, buys: real, top: real)
    requires CfgOk(cfg) && Settles(a, cfg, sells, buys, t.at, top) && FillProblem(a, cfg.account, t) == None
    requires a' == Settled(a, cfg.account, t).(cycles := a'.cycles, protectedSurplus := a'.protectedSurplus)
    requires if t.side == Sell then t.size <= sells && buys >= 0.0 else Notional(t) <= buys && sells >= 0.0
    ensures t.side == Sell ==> Settles(a', cfg, sells - t.size, buys, t.at, top)
    ensures t.side == Buy ==> Settles(a', cfg, sells, buys - Notional(t), t.at, top)
  {
    hide DayBooks, FillProblem;
    FillDays(a, a', cfg, t);
    Amounts(t, cfg);
    TimesAdd(buys - Notional(t), Notional(t), 1.0 + FeeRate(cfg.account));
    WithFeeMono(0.0, buys, cfg);
    if t.side == Buy {
      WithFeeMono(0.0, buys - Notional(t), cfg);
    }
    assert WithFee(0.0, cfg) == 0.0;
    hide Times;
  }

  lemma Amounts(t: PaperTrade, cfg: SoakCfg)
    requires CfgOk(cfg) && t.size > 0.0 && t.price > 0.0
    ensures BuyCost(t, cfg.account) == WithFee(Notional(t), cfg) > 0.0 && SellProceeds(t, cfg.account) > 0.0
  {
    TimesPositive(t.size, t.price);
    TimesPositive(1.0 + FeeRate(cfg.account), Notional(t));
    TimesPositive(1.0 - FeeRate(cfg.account), Notional(t));
  }

  /** Only the day of the fill gains volume, and its counters show it. */
  lemma FillDays(a: Account, a': Account, cfg: SoakCfg, t: PaperTrade)
    requires DayBooks(a) && FillProblem(a, cfg.account, t) == None && (a.day.Some? ==> a.day.value <= UtcDay(t.at))
    requires a' == Settled(a, cfg.account, t).(cycles := a'.cycles, protectedSurplus := a'.protectedSurplus)
    ensures DayBooks(a') && a'.day == Some(UtcDay(t.at)) && a'.startingActive == a.startingActive && t.size > 0.0
      && t.price > 0.0
    ensures a'.dailySellZig == SoldToday(a, t.at) +
      (if t.side == Sell then t.size else 0.0) == SoldOn(a'.fills, UtcDay(t.at))
    ensures a'.dailyBuyUsdt == BoughtToday(a, t.at) +
      (if t.side == Buy then BuyCost(t, cfg.account) else 0.0) == BoughtOn(a'.fills, UtcDay(t.at))
    ensures forall day :: day != UtcDay(t.at) ==>
      SoldOn(a'.fills, day) == SoldOn(a.fills, day) && BoughtOn(a'.fills, day) == BoughtOn(a.fills, day)
    ensures a'.zig == a.zig + (if t.side == Buy then t.size else -t.size)
    ensures a'.usdt == a.usdt + (if t.side == Buy then -BuyCost(t, cfg.account) else SellProceeds(t, cfg.account))
  {
    hide Times, Over, CyclesAfter, SoldOn, BoughtOn;
    FillKeepsDayBooks(a, cfg.account, t);
  }

  // ── Every step keeps the desk safe ───────────────────────────────────────

  ghost predicate Safe(d: Desk, cfg: SoakCfg, now: int, top: real) {
    && Orderly(d, cfg) && BooksOk(d.reg.orders, cfg)
    && Settles(d.soak.account, cfg, OpenSells(d.reg.orders, cfg), OpenBuys(d.reg.orders, cfg), now, top)
  }

  lemma SafeLater(d: Desk, cfg: SoakCfg, now: int, now': int, top: real)
    requires CfgOk(cfg) && Safe(d, cfg, now, top) && now <= now'
    ensures Safe(d, cfg, now', top)
  {
    hide Orderly, BooksOk, Settles, OpenSells, OpenBuys;
    var x, y := OpenSells(d.reg.orders, cfg), OpenBuys(d.reg.orders, cfg);
    SettlesLess(d.soak.account, cfg, x, y, x, y, now, now', top);
  }

  lemma OpenNonneg(d: Desk, cfg: SoakCfg)
    requires BooksOk(d.reg.orders, cfg)
    ensures OpenSells(d.reg.orders, cfg) >= 0.0 && OpenBuys(d.reg.orders, cfg) >= 0.0
  {
    hide PaperSell, PaperBuy;
    PaperWithinOpen(d.reg.orders, cfg.exchange);
  }

  /** A commitment of `o` in the sums, and what is left without it. */
  function Part(o: Order, side: Side): real {
    if o.side != side then 0.0 else if side == Sell then o.quantity else Times(o.quantity, o.price)
  }

  /** A whole fill of an order whose commitment is in the sums settles it. */
  lemma HeardSettles(d: Desk, d': Desk, cfg: SoakCfg, env: Env, o: Order, sells: real, buys: real, top: real)
    requires CfgOk(cfg) && Settles(d.soak.account, cfg, sells, buys, env.now, top)
    requires o.exchange == cfg.exchange && o.quantity > 0.0 && o.price > 0.0 && Heard(d, d', cfg, env, o)
    requires Part(o, Sell) <= sells && Part(o, Buy) <= buys && sells >= 0.0 && buys >= 0.0
    ensures Settles(d'.soak.account, cfg, sells - Part(o, Sell), buys - Part(o, Buy), env.now, top)
  {
    hide OnPaperFill, Settles, FillProblem, Settled, TradeOf, RegimeNow;
    var news := FillNews(Some(o.quantity), Some(o.price), env.now, RegimeNow(cfg, env), env.tag);
    var t := TradeOf(o, news);
    FillEffect(d.soak, cfg, o, news);
    TimesPositive(o.quantity, o.price);
    hide Times;
    if FillProblem(d.soak.account, cfg.account, t) == None {
      FillSettles(d.soak.account, d'.soak.account, cfg, t, sells, buys, top);
    } else {
      SettlesLess(d.soak.account, cfg, sells, buys, sells - Part(o, Sell), buys - Part(o, Buy), env.now, env.now, top);
    }
  }

  lemma RestSafe(c: RestCase, d: Desk, d': Desk, cfg: SoakCfg, env: Env, i: nat, top: real)
    requires CfgOk(cfg) && Safe(d, cfg, env.now, top) && RestLooks(c, d, d', cfg, env, i)
    ensures Safe(d', cfg, env.now, top)
  {
    hide Settles, BooksOk, Orderly, OpenSells, OpenBuys, Heard, Fresh, Live;
    RestedOrderly(c, d, d', cfg, env, i);
    if c != Stays {
      var was := d.reg.orders[i];
      var o := d'.reg.orders[i];
      OpenNonneg(d, cfg);
      assert Fresh(was, cfg) && Live(was) by { LiveIsFresh(d, cfg, i); }
      ClosingFrees(d.reg.orders, i, o, cfg);
      ReplaceKeepsBooks(d.reg.orders, i, o, cfg);
      OpenNonneg(d', cfg);
      var x, y := OpenSells(d.reg.orders, cfg), OpenBuys(d.reg.orders, cfg);
      var x', y' := OpenSells(d'.reg.orders, cfg), OpenBuys(d'.reg.orders, cfg);
      FreshFacts(was, cfg);
      if c == Dropped {
        SettlesLess(d.soak.account, cfg, x, y, x', y', env.now, env.now, top);
      } else {
        HeardSettles(d, d', cfg, env, o, x, y, top);
      }
    }
  }

  lemma LiveIsFresh(d: Desk, cfg: SoakCfg, i: nat)
    requires Orderly(d, cfg) && i < |d.reg.orders| && Live(d.reg.orders[i])
    ensures Fresh(d.reg.orders[i], cfg)
  {
  }

  lemma FreshFacts(o: Order, cfg: SoakCfg)
    requires Fresh(o, cfg)
    ensures o.quantity > 0.0 && o.price > 0.0 && o.exchange == cfg.exchange && Times(o.quantity, o.price) > 0.0
  {
    TimesPositive(o.quantity, o.price);
  }

  // ── Submissions ──────────────────────────────────────────────────────────

  /** What the published entry says of the account. */
  lemma PublishFacts(a: Account, cfg: AccountCfg)
    ensures var l := Publish(a, cfg);
      && l.zig == a.zig && l.usdt == a.usdt && l.day == a.day && l.dailySellZig == a.dailySellZig
      && l.dailyBuyUsdt == a.dailyBuyUsdt
      && l.startingActive == a.startingActive && l.startingUsdt == cfg.startUsdt
      && l.protectedZig == ProtectedZig(a, cfg)
  {
  }

  predicate PriceWithin(req: Request, cfg: SoakCfg, top: real) {
    WithFee(req.price, cfg) <= top
  }

  /** An approved paper sell can be set aside on top of everything that already is. */
  lemma ApprovedSellSettles(d: Desk, cfg: SoakCfg, env: Env, req: Request, q: real, x: real, y: real, top: real)
    requires CfgOk(cfg) && Settles(d.soak.account, cfg, x, y, env.now, top) && req.side == Sell
    requires env.mode == PaperMode && req.exchange == cfg.exchange
      && Approves(Decide(d, cfg, env, req, OpenOrders(d.reg.orders)))
    requires q == Decide(d, cfg, env, req, OpenOrders(d.reg.orders)).approvedQty
    requires x <= SumBy(OpenOrders(d.reg.orders), SellCommitment(cfg.exchange))
    ensures Settles(d.soak.account, cfg, x + q, y, env.now, top)
  {
    hide Times, DayBooks, Evaluate, Publish, ProtectedZig, SellCommitment;
    ApprovedSell(req, env.mode, VenueOf(env, req.exchange), Publish(d.soak.account, cfg.account),
      OpenOrders(d.reg.orders), cfg.risk, env.now);
    PublishFacts(d.soak.account, cfg.account);
  }

  /** A paper sell of the soak is approved only when the run opened with a pool to take a daily share of. */
  lemma ApprovedSellHasPool(d: Desk, cfg: SoakCfg, env: Env, req: Request)
    requires CfgOk(cfg) && d.soak.account.dailySellZig >= 0.0 && env.mode == PaperMode && req.exchange == cfg.exchange
    requires Approves(Decide(d, cfg, env, req, OpenOrders(d.reg.orders)))
    ensures req.side == Sell ==> d.soak.account.startingActive > 0.0
  {
    hide Evaluate, Publish;
    if req.side == Sell {
      PublishFacts(d.soak.account, cfg.account);
      SellNeedsPool(req, env.mode, VenueOf(env, req.exchange), Publish(d.soak.account, cfg.account),
        OpenOrders(d.reg.orders), cfg.risk, env.now);
    }
  }

  /** An approved paper buy can be paid, fee included, on top of everything already open. */
  lemma ApprovedBuySettles(d: Desk, cfg: SoakCfg, env: Env, req: Request, q: real, x: real, y: real, top: real)
    requires CfgOk(cfg) && Settles(d.soak.account, cfg, x, y, env.now, top) && req.side == Buy
      && PriceWithin(req, cfg, top)
    requires env.mode == PaperMode && req.exchange == cfg.exchange
      && Approves(Decide(d, cfg, env, req, OpenOrders(d.reg.orders)))
    requires q == Decide(d, cfg, env, req, OpenOrders(d.reg.orders)).approvedQty
    requires y <= SumBy(OpenOrders(d.reg.orders), BuyCommitment(cfg.exchange))
    ensures Settles(d.soak.account, cfg, x, y + Times(q, req.price), env.now, top)
  {
    hide Times, DayBooks, Evaluate, Publish, ProtectedZig, BuyCommitment;
    ApprovedBuy(req, env.mode, VenueOf(env, req.exchange), Publish(d.soak.account, cfg.account),
      OpenOrders(d.reg.orders), cfg.risk, env.now);
    PublishFacts(d.soak.account, cfg.account);
    var committed := SumBy(OpenOrders(d.reg.orders), BuyCommitment(cfg.exchange));
    WithFeeMono(y, committed, cfg);
    TimesAdd(y, Times(q, req.price), 1.0 + FeeRate(cfg.account));
  }

  lemma SubmitSafe(d: Desk, cfg: SoakCfg, env: Env, req: Request, top: real)
    requires CfgOk(cfg) && Safe(d, cfg, env.now, top) && PriceWithin(req, cfg, top)
    ensures Safe(Submit(d, cfg, env, req).desk, cfg, env.now, top)
  {
    hide Settles, BooksOk, Orderly, OpenSells, OpenBuys, Submit, SubmitLooks, Decide, SelfTrade, PriceWithin;
    var c, o := SubmitCases(d, cfg, env, req);
    var d' := Submit(d, cfg, env, req).desk;
    if c == Nothing {
      assert Idle(d, d') by { NothingLooks(d, d', cfg, env, o); }
      SameOrderly(d, d', cfg);
    } else {
      AppendedOrderly(c, d, d', cfg, env, o);
      EnteredBooks(c, d, d', cfg, env, req, o);
      EnteredSettles(c, d, d', cfg, env, req, o, top);
    }
  }

  lemma NothingLooks(d: Desk, d': Desk, cfg: SoakCfg, env: Env, o: Order)
    requires CfgOk(cfg) && SubmitLooks(Nothing, d, d', cfg, env, o)
    ensures Idle(d, d')
  {
  }

  lemma EnteredBooks(c: SubmitCase, d: Desk, d': Desk, cfg: SoakCfg, env: Env, req: Request, o: Order)
    requires CfgOk(cfg) && BooksOk(d.reg.orders, cfg) && c != Nothing && SubmitLooks(c, d, d', cfg, env, o)
      && SubmittedAs(req, env, o)
    requires Approves(Decide(d, cfg, env, req, OpenOrders(d.reg.orders))) && !SelfTrade(OpenOrders(d.reg.orders), req)
    ensures BooksOk(d'.reg.orders, cfg) && o.price > 0.0
    ensures o.quantity == Decide(d, cfg, env, req, OpenOrders(d.reg.orders)).approvedQty ==> o.quantity > 0.0
  {
    hide BooksOk, Evaluate, SelfTrade, Publish, Heard, Fresh;
    ApprovedRequest(req, env.mode, VenueOf(env, req.exchange), LedgerFor(d, cfg, req.exchange),
      OpenOrders(d.reg.orders), cfg.risk, env.now);
    OpenCountOfOpen(d.reg.orders, req.exchange);
    AppendKeepsBooks(d.reg.orders, o, cfg, req);
  }

  lemma EnteredSettles(c: SubmitCase, d: Desk, d': Desk, cfg: SoakCfg, env: Env, req: Request, o: Order, top: real)
    requires CfgOk(cfg) && BooksOk(d.reg.orders, cfg) && c != Nothing && SubmitLooks(c, d, d', cfg, env, o)
      && SubmittedAs(req, env, o)
    requires Approves(Decide(d, cfg, env, req, OpenOrders(d.reg.orders)))
      && o.quantity == Decide(d, cfg, env, req, OpenOrders(d.reg.orders)).approvedQty
    requires o.quantity > 0.0 && o.price > 0.0 && PriceWithin(req, cfg, top)
    requires Settles(d.soak.account, cfg, OpenSells(d.reg.orders, cfg), OpenBuys(d.reg.orders, cfg), env.now, top)
    ensures Settles(d'.soak.account, cfg, OpenSells(d'.reg.orders, cfg), OpenBuys(d'.reg.orders, cfg), env.now, top)
  {
    hide Settles, Decide, SelfTrade, PriceWithin, Heard, Times, PaperSell, PaperBuy;
    var x, y := OpenSells(d.reg.orders, cfg), OpenBuys(d.reg.orders, cfg);
    AppendCommits(d.reg.orders, o, cfg);
    PaperWithinOpen(d.reg.orders, cfg.exchange);
    if c == Rests || c == FilledAtOnce {
      if o.side == Sell {
        ApprovedSellSettles(d, cfg, env, req, o.quantity, x, y, top);
      } else {
        ApprovedBuySettles(d, cfg, env, req, o.quantity, x, y, top);
      }
      if c == Rests {
        FreshCommits(o, cfg);
      } else {
        ClosedCommitsNothing(o, cfg.exchange);
        PartNonneg(o);
        HeardSettles(d, d', cfg, env, o, x + Part(o, Sell), y + Part(o, Buy), top);
      }
    } else if c == TurnedAway {
      ClosedCommitsNothing(o, cfg.exchange);
    } else {
      LiveIsNotPaper(o, cfg.exchange);
    }
  }

  lemma PartNonneg(o: Order)
    requires o.quantity > 0.0 && o.price > 0.0
    ensures Part(o, Sell) >= 0.0 && Part(o, Buy) >= 0.0
  {
    TimesPositive(o.quantity, o.price);
  }

  lemma LiveIsNotPaper(o: Order, ex: Exchange)
    requires !o.paper
    ensures PaperSell(ex)(o) == 0.0 && PaperBuy(ex)(o) == 0.0
  {
  }
}
