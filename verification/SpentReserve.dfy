/**
 * The bound of what stays out is attained (backend/src/paper-soak/index.ts:138-154,416-433, virtual-account.ts:48-80):
 * an operator can sell released reserve that a surplus then takes the place of. Driver runs from a covered start never
 * do.
 */
module SpentReserve {
  import opened Numeric
  import opened Sums
  import opened Domain
  import opened Orders
  import opened PaperAccount
  import opened Risk
  import opened Soaks
  import opened SoakBooks
  import opened Desks
  import opened DeskSteps
  import opened Settlement
  import opened DeskRuns
  import opened FillTraces
  import opened CalmMarkets
  import opened BandRuns
  import StableSort
  import Lots = AccumulationLots
  import Funds = AccumulationBudget

  // ── A soak with 1000 ZIG above its floor ─────────────────────────────────

  /** A floor of 1000, 2000 ZIG and 10000 USDT, no fee; a day's sells may take the opening pool. */
  predicate Ample(cfg: SoakCfg) {
    && CfgOk(cfg) && Lenient(cfg) && cfg.accEnabled && cfg.account.takerFeeBps == 0.0 && Pct(cfg) == 1.0
    && cfg.account.reserveFloor == 1000.0 && cfg.account.startZig == 2000.0 && cfg.account.startUsdt == 10_000.0
    && cfg.lots.recoveryProfitBps == 500.0 && cfg.risk.minOrderZig == 10.0 && cfg.risk.maxOrderActivePct == 1.0
    && cfg.risk.maxDailySellActivePct == 1.0 && cfg.risk.maxDailyBuyUsdtPct == 0.5
    && cfg.risk.liquidityParticipationPct == 0.5
  }

  /** A calm market that allows everything and fills the next order. */
  predicate Fair(env: Env, price: real) {
    && Calm(env, price) && "zig-" + env.uuid in env.lucky && env.allowed == AllowedActions(true, true, true, true)
    && env.bybit.market.value.bidLiquidity == 100_000.0 && env.bybit.market.value.askLiquidity == 100_000.0
  }

  /** Balances and reserve of the soak, and what it sold on the day of `now`. */
  predicate Stands(s: Soak, cfg: SoakCfg, zig: real, surplus: real, released: real, sold: real, now: int) {
    && s.account.zig == zig && s.account.protectedSurplus == surplus && s.account.reserveReleased == released
    && s.account.startingActive == 1000.0 && SoldToday(s.account, now) == sold
  }

  lemma Opens(cfg: SoakCfg, entryCost: real, now: int)
    requires Ample(cfg)
    ensures var d := NewDesk(cfg, entryCost, now);
      && Stands(d.soak, cfg, 2000.0, 0.0, 0.0, 0.0, now) && d.soak.lots == [] && d.soak.account.usdt == 10_000.0
      && d.soak.account.day == None && forall id :: Quiet(d, id)
  {
  }

  // ── 1000 ZIG bought at 1 USDT, 500 of them sold at 2 ─────────────────────

  function LotBuy(cfg: SoakCfg, env: Env): Request { Limit(cfg, env, Buy, 1000.0, 1.0, None, AccBuy) }
  function LotSell(cfg: SoakCfg, env: Env): Request { Limit(cfg, env, Sell, 500.0, 2.0, Some([1]), AccRecovery) }

  /** One owing lot of 1000 ZIG for 1000 USDT. */
  predicate OneLot(lots: seq<Lots.Lot>) {
    && |lots| == 1 && lots[0].id == 1 && lots[0].status == Lots.Open && lots[0].boughtQty == 1000.0
    && lots[0].recoveredSellQty == 0.0 && lots[0].usdtSpent == 1000.0 && lots[0].usdtRecovered == 0.0
    && lots[0].targetRecoveryPrice <= 2.0
  }

  lemma UnitCost(cfg: SoakCfg)
    requires Ample(cfg)
    ensures Times(1.0, CostFactor(PaperMode, cfg.risk)) == 1.0 && BuyCap(cfg) == 5000.0
  {
  }

  lemma LotBuyApproved(d: Desk, cfg: SoakCfg, env: Env)
    requires Ample(cfg) && Fair(env, 1.0) && d.soak.account.usdt == 10_000.0 && d.soak.account.day == None
    ensures Decide(d, cfg, env, LotBuy(cfg, env), []).verdict == Allow
  {
    UnitCost(cfg);
    assert Over(10_000.0, 1.0) == 10_000.0 && Over(5000.0, 1.0) == 5000.0 && Over(100_000.0, 1.0) == 100_000.0;
    assert Times(0.5, 100_000.0) == 50_000.0;
    hide Decide, Times, Over, CostFactor, BuyCap, CfgOk, Calm;
    CalmBuy(d, cfg, env, LotBuy(cfg, env), 1.0, 1000.0);
  }

  lemma LotBuyPasses(d: Desk, cfg: SoakCfg, env: Env)
    requires Ample(cfg) && Fair(env, 1.0) && Quiet(d, "zig-" + env.uuid)
    requires d.soak.account.usdt == 10_000.0 && d.soak.account.day == None
    ensures Passes(d, cfg, env, LotBuy(cfg, env), Sent(LotBuy(cfg, env), env.now))
  {
    LotBuyApproved(d, cfg, env);
    hide Decide, Quiet, CfgOk;
  }

  lemma LotIsBought(s: Soak, cfg: SoakCfg, env: Env)
    requires Ample(cfg) && Stands(s, cfg, 2000.0, 0.0, 0.0, 0.0, env.now) && s.lots == []
      && s.account.usdt == 10_000.0
    ensures var o := Sent(LotBuy(cfg, env), env.now); var s' := OnPaperFill(s, cfg, o, NewsOf(cfg, env, o)).soak;
      Stands(s', cfg, 3000.0, 0.0, 0.0, 0.0, env.now) && OneLot(s'.lots)
  {
    var o := Sent(LotBuy(cfg, env), env.now);
    var t := TradeOf(o, NewsOf(cfg, env, o));
    Feeless(cfg, t);
    NewLotFacts(cfg, t);
    var l := Lots.NewLot(1, 1000.0, 1.0, 0.0, cfg.lots, t.at);
    assert s.lots + [l] == [l];
    NoSurplus(l);
    hide Times, Over, CfgOk, Lots.NewLot, Lots.SurplusZig, FeeUsdt, BuyCost, Notional, CyclesAfter, Funds.Record,
      RegimeNow;
  }

  lemma Feeless(cfg: SoakCfg, t: PaperTrade)
    requires Ample(cfg) && t.size > 0.0 && t.price > 0.0
    ensures FeeUsdt(t, cfg.account) == 0.0 && BuyCost(t, cfg.account) == Notional(t) == t.size * t.price
  {
  }

  lemma NewLotFacts(cfg: SoakCfg, t: PaperTrade)
    requires Ample(cfg)
    ensures OneLot([Lots.NewLot(1, 1000.0, 1.0, 0.0, cfg.lots, t.at)])
  {
    assert Over(0.0, 1000.0) == 0.0;
  }

  lemma NoSurplus(l: Lots.Lot)
    ensures Lots.Owing(l) ==> Lots.SurplusZig([l]) == 0.0
    ensures !Lots.Owing(l) ==> Lots.SurplusZig([l]) == l.surplusZigQty
    ensures Lots.SurplusZig([]) == 0.0 && Lots.HeldZig([l]) == l.boughtQty - l.recoveredSellQty
  {
    SumByAppend([], l, Lots.SurplusOf);
    SumByAppend([], l, Lots.Held);
    assert [] + [l] == [l];
  }

  lemma RecoveryAllowed(s: Soak, cfg: SoakCfg, env: Env)
    requires Ample(cfg) && Fair(env, 2.0) && OneLot(s.lots)
    ensures PendingAllowed(Sent(LotSell(cfg, env), env.now), env.allowed, s, cfg, env.now)
  {
    var l := s.lots[0];
    assert s.lots == [l];
    assert Lots.Due(2.0, Pct(cfg))(l) && LotInIds(Some([1]))(l);
    OnlyOffered(l, Pct(cfg));
    NoSurplus(l);
    hide CfgOk, Calm, Lots.Due, Lots.Filter, Lots.OpenForRecovery, Lots.HeldZig;
  }

  lemma OnlyOffered(l: Lots.Lot, pct: real)
    requires Lots.Due(2.0, pct)(l) && LotInIds(Some([1]))(l)
    ensures Lots.Filter(Lots.OpenForRecovery([l], 2.0, pct), LotInIds(Some([1]))) == [l]
  {
    hide Lots.Due;
    assert [l][1..] == [] && [l] + [] == [l];
    assert Lots.Filter([l], Lots.Due(2.0, pct)) == [l];
    assert StableSort.Sort([l], Lots.OpenedAt) == [l];
    assert Lots.Filter([l], LotInIds(Some([1]))) == [l];
  }

  /** The principal is back, and 500 ZIG of surplus are protected. */
  lemma LotIsRecovered(s: Soak, cfg: SoakCfg, env: Env)
    requires Ample(cfg) && Stands(s, cfg, 3000.0, 0.0, 0.0, 0.0, env.now) && OneLot(s.lots)
    ensures var o := Sent(LotSell(cfg, env), env.now); var s' := OnPaperFill(s, cfg, o, NewsOf(cfg, env, o)).soak;
      Stands(s', cfg, 2500.0, 500.0, 0.0, 500.0, env.now) && LotStock(s') == 0.0
        && s'.account.day == Some(UtcDay(env.now))
  {
    var o := Sent(LotSell(cfg, env), env.now);
    var t := TradeOf(o, NewsOf(cfg, env, o));
    SellMoves(s, cfg, t, 3000.0, 0.0, 0.0, 0.0);
    AccumulationTrade(s, cfg, t);
    SurplusIsProtected(s.(account := Settled(s.account, cfg.account, t)), cfg, t);
    hide Times, Over, CfgOk, Lenient, AccumulationFill, FeeUsdt, BuyCost, Notional, ApplyPaperFill, RegimeNow, Settled,
      SoldToday, LotStock;
  }

  lemma SurplusIsProtected(s: Soak, cfg: SoakCfg, t: PaperTrade)
    requires Ample(cfg) && Stands(s, cfg, 2500.0, 0.0, 0.0, 500.0, t.at) && OneLot(s.lots)
    requires t.side == Sell && t.size == 500.0 && t.price == 2.0 && t.cycleIds == Some([1])
    ensures var s' := AccumulationFill(s, cfg, t).soak;
      Stands(s', cfg, 2500.0, 500.0, 0.0, 500.0, t.at) && LotStock(s') == 0.0 && s'.account.day == s.account.day
  {
    LotSells(s, cfg, t);
    StockOf(s.lots);
    StockOf(RouteFill(s.lots, s.budget, cfg, t).lots);
    hide Times, Over, CfgOk, Lenient, RouteFill, Lots.SurplusZig, Lots.HeldZig, HalfLeft, OneLot, SoldToday;
  }

  lemma LotSells(s: Soak, cfg: SoakCfg, t: PaperTrade)
    requires Ample(cfg) && OneLot(s.lots)
    requires t.side == Sell && t.size == 500.0 && t.price == 2.0 && t.cycleIds == Some([1])
    ensures var r := RouteFill(s.lots, s.budget, cfg, t); !r.threw && HalfLeft(r.lots)
  {
    Feeless(cfg, t);
    NoFeeInPrice(500.0, 2.0);
    LotSale(s.lots, Pct(cfg));
    hide Times, Over, CfgOk, Lenient, Lots.Sell, Lots.NetPrice, FeeUsdt, BuyCost, Notional, Funds.Release, OneLot,
      HalfLeft;
  }

  lemma StockOf(lots: seq<Lots.Lot>)
    ensures OneLot(lots) ==> Lots.SurplusZig(lots) == 0.0
    ensures HalfLeft(lots) ==> Lots.SurplusZig(lots) == 500.0 == Lots.HeldZig(lots)
  {
    if |lots| == 1 {
      assert lots == [lots[0]];
      NoSurplus(lots[0]);
    }
  }

  lemma SellMoves(s: Soak, cfg: SoakCfg, t: PaperTrade, zig: real, surplus: real, released: real, sold: real)
    requires Stands(s, cfg, zig, surplus, released, sold, t.at) && t.side == Sell
    ensures var moved := s.(account := Settled(s.account, cfg.account, t));
      Stands(moved, cfg, zig - t.size, surplus, released, sold + t.size, t.at)
        && moved.account.day == Some(UtcDay(t.at))
  {
    hide Times, Over;
  }

  lemma NoFeeInPrice(qty: real, price: real)
    requires qty > 0.0
    ensures Lots.PerQty(0.0, qty) == 0.0 && Lots.NetPrice(qty, price, 0.0) == price
  {
  }

  /** Lots after such a sell: one with its principal back and half of its ZIG left over. */
  predicate HalfLeft(lots: seq<Lots.Lot>) {
    |lots| == 1 && !Lots.Owing(lots[0])
      && lots[0].surplusZigQty == 500.0 == lots[0].boughtQty - lots[0].recoveredSellQty
  }

  lemma LotSale(lots: seq<Lots.Lot>, pct: real)
    requires OneLot(lots) && pct == 1.0 && Lots.NetPrice(500.0, 2.0, 0.0) == 2.0
    ensures var sale := Lots.Sell(lots, 500.0, 2.0, 0.0, Some([1]), pct); sale.left == 0.0 && HalfLeft(sale.lots)
  {
    NoFeeInPrice(500.0, 2.0);
    Lots.AimedSell(lots, 500.0, 2.0, 0.0, pct, 0);
    assert Times(500.0, 2.0) == 1000.0 && Times(1.0, 1000.0) == 1000.0;
    hide Times, Lots.Sell, Lots.NetPrice, Lots.PerQty;
  }

  // ── Sells into released reserve ──────────────────────────────────────────

  function HarvestOf(cfg: SoakCfg, env: Env, qty: real): Request { Limit(cfg, env, Sell, qty, 2.0, None, HarvestSell) }

  /** A harvest sell within the active pool leaves surplus and released reserve alone. */
  lemma Harvests(s: Soak, cfg: SoakCfg, env: Env, qty: real, zig: real, surplus: real, released: real, sold: real)
    requires Ample(cfg) && Stands(s, cfg, zig, surplus, released, sold, env.now) && LotStock(s) == 0.0
    requires 10.0 <= qty <= zig - (1000.0 + surplus - released) && released <= 1000.0 + surplus
    ensures var o := Sent(HarvestOf(cfg, env, qty), env.now);
      var s' := OnPaperFill(s, cfg, o, NewsOf(cfg, env, o)).soak;
      && (Fair(env, 2.0) ==> PendingAllowed(o, env.allowed, s, cfg, env.now))
      && Stands(s', cfg, zig - qty, surplus, released, sold + qty, env.now) && LotStock(s') == 0.0
      && s'.account.day == Some(UtcDay(env.now))
  {
    SellMoves(s, cfg, TradeOf(Sent(HarvestOf(cfg, env, qty), env.now), NewsOf(cfg, env, Sent(HarvestOf(cfg, env, qty),
      env.now))), zig, surplus, released, sold);
    hide Times, Over, CfgOk, Lenient, Calm, LotStock, CyclesAfter, RegimeNow, Settled, SoldToday;
  }

  lemma SellsPasses(d: Desk, cfg: SoakCfg, env: Env, qty: real, ids: Option<seq<nat>>, reason: Reason, zig: real,
      surplus: real, released: real, sold: real)
    requires Ample(cfg) && Fair(env, 2.0) && Quiet(d, "zig-" + env.uuid)
    requires Stands(d.soak, cfg, zig, surplus, released, sold, env.now) && released <= 1000.0 + surplus
    requires 10.0 <= qty <= zig - Max(1000.0, 1000.0 + surplus - released) && 0.0 <= sold <= 1000.0 - qty
    requires var o := Sent(Limit(cfg, env, Sell, qty, 2.0, ids, reason), env.now);
      PendingAllowed(o, env.allowed, d.soak, cfg, env.now)
    ensures var req := Limit(cfg, env, Sell, qty, 2.0, ids, reason); Passes(d, cfg, env, req, Sent(req, env.now))
  {
    assert Over(100_000.0, 2.0) == 50_000.0 && Times(0.5, 50_000.0) == 25_000.0;
    assert SellCap(d.soak.account, cfg) == 1000.0;
    assert Times(1.0, Spare(d.soak.account, cfg)) == Spare(d.soak.account, cfg) == zig - Max(1000.0, 1000.0 + surplus -
      released);
    hide Decide, Quiet, Times, Over, CfgOk, Calm, PendingAllowed, Spare, SellCap, SoldToday;
    CalmSell(d, cfg, env, Limit(cfg, env, Sell, qty, 2.0, ids, reason), 2.0);
  }

  // ── The run ──────────────────────────────────────────────────────────────

  /** Buy and recover a lot, promote, sell twice a day apart, demote. */
  function Script(cfg: SoakCfg, buy: Env, recover: Env, first: Env, second: Env): seq<Step> {
    [SubmitOrder(buy, LotBuy(cfg, buy)), SubmitOrder(recover, LotSell(cfg, recover)), ReleaseBand(first.now, 600.0),
      SubmitOrder(first, HarvestOf(cfg, first, 500.0)), SubmitOrder(second, HarvestOf(cfg, second, 1000.0)),
      ReprotectBand(second.now, 600.0)]
  }

  /** Two days; ids that differ. */
  predicate InTurn(buy: Env, recover: Env, first: Env, second: Env) {
    && Fair(buy, 1.0) && Fair(recover, 2.0) && Fair(first, 2.0) && Fair(second, 2.0)
    && buy.now <= recover.now <= first.now <= second.now
    && UtcDay(buy.now) == UtcDay(first.now) < UtcDay(second.now)
    && "zig-" + buy.uuid != "zig-" + recover.uuid && "zig-" + buy.uuid != "zig-" + first.uuid
    && "zig-" + buy.uuid != "zig-" + second.uuid && "zig-" + recover.uuid != "zig-" + first.uuid
    && "zig-" + recover.uuid != "zig-" + second.uuid && "zig-" + first.uuid != "zig-" + second.uuid
  }

  lemma OneMore(cfg: SoakCfg, entryCost: real, start: int, front: seq<Step>, s: Step)
    requires CfgOk(cfg)
    ensures After(cfg, entryCost, start, front + [s]) == Take(After(cfg, entryCost, start, front), cfg, s)
  {
    hide Take, NewDesk, CfgOk;
    assert (front + [s])[..|front|] == front;
  }

  lemma Submits(d: Desk, cfg: SoakCfg, env: Env, req: Request, price: real)
    requires Ample(cfg) && Fair(env, price) && Passes(d, cfg, env, req, Sent(req, env.now)) && req.price == price
    requires ClientOrderId(req) == "zig-" + env.uuid
    ensures var o := Sent(req, env.now); var d' := Take(d, cfg, SubmitOrder(env, req));
      && d'.soak == OnPaperFill(d.soak, cfg, o, NewsOf(cfg, env, o)).soak
      && forall id :: id != "zig-" + env.uuid && Quiet(d, id) ==> Quiet(d', id)
  {
    hide OnPaperFill, NewsOf, Quiet, Submit, Calm, CfgOk, Fills, Decide, PendingAllowed;
    CalmFills(cfg, env, Sent(req, env.now), price);
    LoneOrderFills(d, cfg, env, req, Sent(req, env.now));
  }

  /** What the rest of the run needs to find. */
  ghost predicate Left(d: Desk, cfg: SoakCfg, zig: real, surplus: real, released: real, sold: real, now: int) {
    Stands(d.soak, cfg, zig, surplus, released, sold, now) && LotStock(d.soak) == 0.0
      && d.soak.account.day == Some(UtcDay(now))
  }

  lemma Recovers(d: Desk, cfg: SoakCfg, entryCost: real, buy: Env, recover: Env)
    requires Ample(cfg) && Fair(buy, 1.0) && Fair(recover, 2.0) && UtcDay(buy.now) == UtcDay(recover.now)
    requires d == NewDesk(cfg, entryCost, buy.now) && "zig-" + buy.uuid != "zig-" + recover.uuid
    ensures var d' := Take(Take(d, cfg, SubmitOrder(buy, LotBuy(cfg, buy))), cfg,
        SubmitOrder(recover, LotSell(cfg, recover)));
      && Left(d', cfg, 2500.0, 500.0, 0.0, 500.0, recover.now)
      && forall id :: id != "zig-" + buy.uuid && id != "zig-" + recover.uuid ==> Quiet(d', id)
  {
    hide CfgOk, Lenient, Calm, NewDesk, Take, OnPaperFill, Passes, OneLot, LotStock, Quiet, NewsOf, PendingAllowed;
    Opens(cfg, entryCost, buy.now);
    LotBuyPasses(d, cfg, buy);
    Submits(d, cfg, buy, LotBuy(cfg, buy), 1.0);
    LotIsBought(d.soak, cfg, buy);
    var d1 := Take(d, cfg, SubmitOrder(buy, LotBuy(cfg, buy)));
    RecoveryAllowed(d1.soak, cfg, recover);
    SellsPasses(d1, cfg, recover, 500.0, Some([1]), AccRecovery, 3000.0, 0.0, 0.0, 0.0);
    Submits(d1, cfg, recover, LotSell(cfg, recover), 2.0);
    LotIsRecovered(d1.soak, cfg, recover);
  }

  lemma SellsOn(d: Desk, cfg: SoakCfg, env: Env, qty: real, zig: real, released: real, sold: real)
    requires Ample(cfg) && Fair(env, 2.0) && Quiet(d, "zig-" + env.uuid)
    requires Stands(d.soak, cfg, zig, 500.0, released, sold, env.now) && LotStock(d.soak) == 0.0
    requires 10.0 <= qty <= zig - Max(1000.0, 1500.0 - released) && 0.0 <= sold <= 1000.0 - qty && released <= 1500.0
    ensures var d' := Take(d, cfg, SubmitOrder(env, HarvestOf(cfg, env, qty)));
      && Left(d', cfg, zig - qty, 500.0, released, sold + qty, env.now)
      && forall id :: id != "zig-" + env.uuid && Quiet(d, id) ==> Quiet(d', id)
  {
    hide CfgOk, Lenient, Calm, Take, OnPaperFill, Passes, LotStock, Quiet, NewsOf, PendingAllowed, Stands;
    Harvests(d.soak, cfg, env, qty, zig, 500.0, released, sold);
    SellsPasses(d, cfg, env, qty, None, HarvestSell, zig, 500.0, released, sold);
    Submits(d, cfg, env, HarvestOf(cfg, env, qty), 2.0);
  }

  lemma ScriptIsProper(cfg: SoakCfg, buy: Env, recover: Env, first: Env, second: Env)
    requires Ample(cfg) && InTurn(buy, recover, first, second)
    ensures ProperRun(cfg, buy.now, Script(cfg, buy, recover, first, second), 2.0)
  {
    hide CfgOk, Lenient, Calm;
    assert WithFee(1.0, cfg) == 1.0 && WithFee(2.0, cfg) == 2.0;
    hide WithFee;
  }

  lemma ScriptRuns(cfg: SoakCfg, entryCost: real, start: int, a: Step, b: Step, c: Step, d: Step, e: Step, f: Step)
    requires CfgOk(cfg)
    ensures After(cfg, entryCost, start, [a, b, c, d, e, f]) ==
      Take(Take(Take(Take(Take(Take(NewDesk(cfg, entryCost, start), cfg, a), cfg, b), cfg, c), cfg, d), cfg, e), cfg, f)
  {
    hide Take, NewDesk, CfgOk;
    assert [a, b, c, d, e, f] == [] + [a] + [b] + [c] + [d] + [e] + [f];
    OneMore(cfg, entryCost, start, [], a);
    OneMore(cfg, entryCost, start, [] + [a], b);
    OneMore(cfg, entryCost, start, [] + [a] + [b], c);
    OneMore(cfg, entryCost, start, [] + [a] + [b] + [c], d);
    OneMore(cfg, entryCost, start, [] + [a] + [b] + [c] + [d], e);
    OneMore(cfg, entryCost, start, [] + [a] + [b] + [c] + [d] + [e], f);
  }

  function Out(d: Desk, released: real): Desk {
    Reserved(d, d.soak.account.(reserveReleased := released))
  }

  lemma BandMoves(d: Desk, cfg: SoakCfg, at: int, zig: real, released: real, sold: real)
    requires Ample(cfg) && Stands(d.soak, cfg, zig, 500.0, released, sold, at)
    ensures released == 0.0 ==> Take(d, cfg, ReleaseBand(at, 600.0)) == Out(d, 600.0)
    ensures released == 600.0 && zig == 1000.0 ==> Take(d, cfg, ReprotectBand(at, 600.0)) == Out(d, 500.0)
  {
    hide CfgOk, Lenient;
  }

  lemma NextDay(s: Soak, cfg: SoakCfg, zig: real, surplus: real, released: real, sold: real, now: int, later: int)
    requires Stands(s, cfg, zig, surplus, released, sold, now) && s.account.day == Some(UtcDay(now))
    ensures UtcDay(later) == UtcDay(now) ==> Stands(s, cfg, zig, surplus, released, sold, later)
    ensures UtcDay(later) != UtcDay(now) ==> Stands(s, cfg, zig, surplus, released, 0.0, later)
  {
  }

  lemma OnlyReserve(d: Desk, cfg: SoakCfg, released: real, now: int)
    requires Stands(d.soak, cfg, 2500.0, 500.0, 0.0, 500.0, now)
    ensures Stands(Out(d, released).soak, cfg, 2500.0, 500.0, released, 500.0, now)
    ensures LotStock(Out(d, released).soak) == LotStock(d.soak)
    ensures forall id :: Quiet(d, id) ==> Quiet(Out(d, released), id)
  {
  }

  /** From the desk that has recovered its lot to the end. */
  lemma Spends(d: Desk, cfg: SoakCfg, recover: Env, first: Env, second: Env)
    requires CfgOk(cfg) && Ample(cfg) && Fair(first, 2.0) && Fair(second, 2.0)
    requires Left(d, cfg, 2500.0, 500.0, 0.0, 500.0, recover.now)
    requires UtcDay(recover.now) == UtcDay(first.now) < UtcDay(second.now)
      && "zig-" + first.uuid != "zig-" + second.uuid
    requires Quiet(d, "zig-" + first.uuid) && Quiet(d, "zig-" + second.uuid)
    ensures var released := Take(d, cfg, ReleaseBand(first.now, 600.0));
      var sold := Take(released, cfg, SubmitOrder(first, HarvestOf(cfg, first, 500.0)));
      var spent := Take(sold, cfg, SubmitOrder(second, HarvestOf(cfg, second, 1000.0)));
      var a := Take(spent, cfg, ReprotectBand(second.now, 600.0)).soak.account;
      a.zig == 1000.0 && a.reserveReleased == 500.0 == a.protectedSurplus
  {
    hide CfgOk, Lenient, Ample, Fair, Take, Quiet, SoldToday, LotStock, Out;
    var released := Take(d, cfg, ReleaseBand(first.now, 600.0));
    NextDay(d.soak, cfg, 2500.0, 500.0, 0.0, 500.0, recover.now, first.now);
    BandMoves(d, cfg, first.now, 2500.0, 0.0, 500.0);
    OnlyReserve(d, cfg, 600.0, first.now);
    SellsOn(released, cfg, first, 500.0, 2500.0, 600.0, 500.0);
    var sold := Take(released, cfg, SubmitOrder(first, HarvestOf(cfg, first, 500.0)));
    NextDay(sold.soak, cfg, 2000.0, 500.0, 600.0, 1000.0, first.now, second.now);
    SellsOn(sold, cfg, second, 1000.0, 2000.0, 600.0, 0.0);
    var spent := Take(sold, cfg, SubmitOrder(second, HarvestOf(cfg, second, 1000.0)));
    BandMoves(spent, cfg, second.now, 1000.0, 600.0, 1000.0);
    Spent(spent, cfg, second.now);
  }

  lemma Spent(d: Desk, cfg: SoakCfg, now: int)
    requires Stands(d.soak, cfg, 1000.0, 500.0, 600.0, 1000.0, now)
    ensures var a := Out(d, 500.0).soak.account; a.zig == 1000.0 && a.reserveReleased == 500.0 == a.protectedSurplus
  {
  }

  /**
   * A promotion releases 600 ZIG; two days' sells bring the balance down to the floor, where 500 of surplus are still
   * protected; the demotion finds 100 in the pool, and 500 stay out.
   */
  lemma SurplusStaysOut(cfg: SoakCfg, entryCost: real, buy: Env, recover: Env, first: Env, second: Env)
    requires Ample(cfg) && InTurn(buy, recover, first, second)
    ensures var steps := Script(cfg, buy, recover, first, second);
      var a := After(cfg, entryCost, buy.now, steps).soak.account;
      && ProperRun(cfg, buy.now, steps, 2.0)
      && a.zig == cfg.account.reserveFloor && Shortfall(cfg) == 0.0
      && a.reserveReleased == 500.0 == a.protectedSurplus
  {
    hide CfgOk, Lenient, Fair, Take, NewDesk, Quiet, Left, ProperRun, After;
    ScriptIsProper(cfg, buy, recover, first, second);
    var d := NewDesk(cfg, entryCost, buy.now);
    Recovers(d, cfg, entryCost, buy, recover);
    Spends(Take(Take(d, cfg, SubmitOrder(buy, LotBuy(cfg, buy))), cfg, SubmitOrder(recover, LotSell(cfg, recover))),
      cfg, recover, first, second);
    ScriptRuns(cfg, entryCost, buy.now, SubmitOrder(buy, LotBuy(cfg, buy)), SubmitOrder(recover, LotSell(cfg, recover)),
      ReleaseBand(first.now, 600.0), SubmitOrder(first, HarvestOf(cfg, first, 500.0)),
      SubmitOrder(second, HarvestOf(cfg, second, 1000.0)), ReprotectBand(second.now, 600.0));
  }

  /** Such a soak and such days exist. */
  lemma InstanceIsReal() returns (cfg: SoakCfg, buy: Env, recover: Env, first: Env, second: Env)
    ensures Ample(cfg) && InTurn(buy, recover, first, second)
  {
    cfg := SoakCfg(
      Bybit, "ZIGUSDT",
      AccountCfg(1000.0, 2000.0, 10_000.0, 0.0, Distances(150.0, 150.0, 250.0, 400.0, 600.0)),
      true,
      Lots.LotParams(500.0, 1.0),
      Funds.Caps(10_000.0, 0.3, 0.1, 0.5, 0.0),
      RiskConfig(0.0, 0.0, 1.0, 1.0, 0.5, 0.5, 0.5, 0.5, 0.0, 10.0, 10, 50.0, 100.0, 3, 1000.0),
      HarvestParams(15_000, 60_000, 60_000, 100.0, 100.0, 60_000, 0.5),
      AccumulationParams(true, 2000.0, 60_000, 100.0, 0.0, 0.0, 100.0, true, true));
    buy, recover, first, second := DayOf(1.0, 0, "1"), DayOf(2.0, 0, "2"), DayOf(2.0, 0, "3"),
      DayOf(2.0, MS_PER_DAY, "4");
    assert ("zig-" + "1")[4] == '1' && ("zig-" + "2")[4] == '2' && ("zig-" + "3")[4] == '3' && ("zig-" + "4")[4] == '4';
  }

  function DayOf(price: real, now: int, uuid: string): Env {
    var m := Market(Some(price), Some(price), 100_000.0, 100_000.0, 0.0, true, true, [], 0, now, LowVol);
    var v := Venue(Some(m), None, None, [], None);
    Env(now, PaperMode, v, v, AllowedActions(true, true, true, true), false, true, None, {"zig-" + uuid}, uuid, "a")
  }
}
