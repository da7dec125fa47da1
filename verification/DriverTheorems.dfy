/** The promises of the driver over whole runs, from the moment a soak is started. */
module DriverTheorems {
  import opened Numeric
  import opened Sums
  import opened Domain
  import opened Orders
  import opened PaperAccount
  import opened PriceBuckets
  import opened Soaks
  import opened SoakBooks
  import opened PricedBooks
  import opened BudgetBooks
  import opened SellLadder
  import opened Solvency
  import opened DriverBooks
  import opened Desks
  import opened DeskSteps
  import opened Settlement
  import opened DeskRuns
  import opened FillTraces
  import opened Drivers
  import opened DriverRuns
  import H = HarvestCycles
  import Lots = AccumulationLots
  import Treasury

  /**
   * The driver's timer fires, the market moves and the paper engine visits what rests, an operator cancels an order, or
   * the band ladder releases or protects reserve.
   */
  datatype DriverStep =
    | TimerFires(env: Env)
    | MarketMoves(env: Env)
    | OperatorCancels(env: Env, id: OrderId)
    | BandReleases(env: Env, qty: real)
    | BandReprotects(env: Env, qty: real)

  function Drive(t: Trader, cfg: SoakCfg, s: DriverStep): Trader
    requires CfgOk(cfg)
  {
    match s
    case TimerFires(env) => DriverTick(t, cfg, env)
    case MarketMoves(env) => t.(desk := EngineTick(t.desk, cfg, env).desk)
    case OperatorCancels(env, id) => t.(desk := Cancel(t.desk, env, id))
    case BandReleases(_, qty) => t.(desk := Reserved(t.desk, ReleaseReserve(t.desk.soak.account, cfg.account, qty)))
    case BandReprotects(_, qty) => t.(desk := Reserved(t.desk, ReprotectReserve(t.desk.soak.account, cfg.account, qty)))
  }

  function DriverRun(t: Trader, cfg: SoakCfg, steps: seq<DriverStep>): Trader
    requires CfgOk(cfg)
  {
    if steps == [] then t else Drive(DriverRun(t, cfg, steps[..|steps| - 1]), cfg, steps[|steps| - 1])
  }

  ghost predicate Ticking(start: int, steps: seq<DriverStep>) {
    && (forall k :: 0 <= k < |steps| ==> start <= steps[k].env.now)
    && forall j, k :: 0 <= j < k < |steps| ==> steps[j].env.now <= steps[k].env.now
  }

  function LastTick(start: int, steps: seq<DriverStep>): int {
    if steps == [] then start else steps[|steps| - 1].env.now
  }

  /** The state after a run of a freshly started soak. */
  function Reached(cfg: SoakCfg, entryCost: real, start: int, steps: seq<DriverStep>): Trader
    requires CfgOk(cfg)
  {
    DriverRun(Trader(NewDesk(cfg, entryCost, start), Blank()), cfg, steps)
  }

  /**
   * What a run starts from: any balances without debt, above the floor or below; and a clock that never runs backwards.
   */
  ghost predicate FromStart(cfg: SoakCfg, entryCost: real, start: int, steps: seq<DriverStep>) {
    && CfgOk(cfg) && cfg.account.startUsdt >= 0.0 && cfg.account.startZig >= 0.0
    && Ticking(start, steps)
  }

  lemma NewDeskDriven(cfg: SoakCfg, entryCost: real, start: int)
    requires FromStart(cfg, entryCost, start, [])
    ensures Driven(NewDesk(cfg, entryCost, start), cfg, start)
  {
    hide Books, Timely, Soaks.Started, Pending;
    StartedBooks(cfg, entryCost, start);
  }

  lemma StepDriven(t: Trader, cfg: SoakCfg, s: DriverStep, now: int)
    requires CfgOk(cfg) && Driven(t.desk, cfg, now) && now <= s.env.now
    ensures Driven(Drive(t, cfg, s).desk, cfg, s.env.now) && SameStart(t.desk.soak, Drive(t, cfg, s).desk.soak)
  {
    hide Driven, DriverTick, EngineTick, Cancel, SameStart, ReleaseReserve, ReprotectReserve, Reserved, ReserveSound;
    DrivenLater(t.desk, cfg, now, s.env.now);
    match s {
      case TimerFires(env) => TickDriven(t, cfg, env);
      case MarketMoves(env) => MarketDriven(t.desk, cfg, env);
      case OperatorCancels(env, id) => CancelDriven(t.desk, cfg, env, id);
      case BandReleases(env, qty) =>
        HooksMoveReserve(t.desk, cfg, qty, env.now);
        BandDriven(t.desk, cfg, ReleaseReserve(t.desk.soak.account, cfg.account, qty), env.now);
      case BandReprotects(env, qty) =>
        HooksMoveReserve(t.desk, cfg, qty, env.now);
        BandDriven(t.desk, cfg, ReprotectReserve(t.desk.soak.account, cfg.account, qty), env.now);
    }
  }

  /** The hooks move nothing but the released reserve, and keep it sound. */
  lemma HooksMoveReserve(d: Desk, cfg: SoakCfg, qty: real, now: int)
    requires Driven(d, cfg, now)
    ensures var a := d.soak.account; var up := ReleaseReserve(a, cfg.account, qty);
      up == a.(reserveReleased := up.reserveReleased) && ReserveSound(up, cfg.account)
    ensures var a := d.soak.account; var down := ReprotectReserve(a, cfg.account, qty);
      down == a.(reserveReleased := down.reserveReleased) && ReserveSound(down, cfg.account)
  {
    hide Orderly, OneOpen, Timely, FlightOk, Priced, Budgeted, Laddered, Ledgered, Backed, NothingSold, Lots.AllSound;
    ReserveStaysSound(d.soak.account, cfg.account, qty);
  }

  lemma {:induction false} ReachedDriven(cfg: SoakCfg, entryCost: real, start: int, steps: seq<DriverStep>)
    requires FromStart(cfg, entryCost, start, steps)
    ensures Driven(Reached(cfg, entryCost, start, steps).desk, cfg, LastTick(start, steps))
    ensures SameStart(NewDesk(cfg, entryCost, start).soak, Reached(cfg, entryCost, start, steps).desk.soak)
  {
    hide Driven, Drive, NewDesk;
    if steps == [] {
      NewDeskDriven(cfg, entryCost, start);
    } else {
      var front := steps[..|steps| - 1];
      ReachedDriven(cfg, entryCost, start, front);
      StepDriven(Reached(cfg, entryCost, start, front), cfg, steps[|steps| - 1], LastTick(start, front));
    }
  }

  // ── One order in flight, lots in custody, ledgers in step ────────────────

  /** At most one paper order is open at a time, and it is the only thing that can rest. */
  lemma OneInFlight(cfg: SoakCfg, entryCost: real, start: int, steps: seq<DriverStep>)
    requires FromStart(cfg, entryCost, start, steps)
    ensures var d := Reached(cfg, entryCost, start, steps).desk;
      && |d.resting| <= 1
      && forall i, j :: 0 <= i < j < |d.reg.orders| ==> !(IsOpen(d.reg.orders[i]) && IsOpen(d.reg.orders[j]))
  {
    hide Reached, Books, Timely, FlightOk, IsOpen, Orderly;
    ReachedDriven(cfg, entryCost, start, steps);
    OneRests(Reached(cfg, entryCost, start, steps).desk, cfg);
  }

  /**
   * Lot custody after any run: protected surplus is the lots' surplus, always. Inventory above the floor covers every
   * lot exactly when the soak was started with its floor covered. The active pool covers the stock of unrecovered lots
   * exactly when the start together with the reserve that is out covered the floor, or no lot was ever bought: always
   * for a covered start, and below it no longer from the first lot on unless the ladder lends what is missing.
   */
  lemma LotCustody(cfg: SoakCfg, entryCost: real, start: int, steps: seq<DriverStep>)
    requires FromStart(cfg, entryCost, start, steps)
    ensures var s := Reached(cfg, entryCost, start, steps).desk.soak; var floor := cfg.account.reserveFloor;
      && s.account.protectedSurplus == Lots.SurplusZig(s.lots) && LotStock(s) >= 0.0
      && (s.account.zig - floor >= Lots.HeldZig(s.lots) <==> cfg.account.startZig >= floor)
      && (ActiveZig(s.account, cfg.account) >= LotStock(s) <==>
           cfg.account.startZig + s.account.reserveReleased >= floor || s.lots == [])
  {
    hide Reached, Timely, FlightOk, OneOpen, Orderly, Priced, Budgeted, Laddered, Ledgered, LotStock, Lots.HeldZig,
      Lots.SurplusZig, Lots.AllSound, Lots.LotsInOrder, Backed, NothingSold;
    ReachedDriven(cfg, entryCost, start, steps);
    var s := Reached(cfg, entryCost, start, steps).desk.soak;
    LotsAreStock(s, cfg);
    ActiveCoversLots(s, cfg);
    BackedCovers(s, cfg);
    StockBelowFloor(s, cfg);
  }

  lemma StockBelowFloor(s: Soak, cfg: SoakCfg)
    requires CfgOk(cfg) && Custody(s, cfg)
    ensures cfg.account.startZig < cfg.account.reserveFloor ==> (LotStock(s) == 0.0 <==> s.lots == [])
  {
    LotsAreStock(s, cfg);
    hide Lots.HeldZig, Lots.SurplusZig, H.UnrecoveredTotal, UnrecoveredCap;
    assert s.lots == [] ==> LotStock(s) == 0.0 by { NoLotsNoStock(s); }
  }

  /**
   * The ladder's reserve comes back. After any run from a covered start the balance covers floor and surplus, and the
   * active pool holds all the reserve that is out: a demotion by at least that much leaves nothing out.
   */
  lemma ReserveComesBack(cfg: SoakCfg, entryCost: real, start: int, steps: seq<DriverStep>, reloadZig: real)
    requires FromStart(cfg, entryCost, start, steps) && cfg.account.startZig >= cfg.account.reserveFloor
    ensures var a := Reached(cfg, entryCost, start, steps).desk.soak.account;
      && 0.0 <= a.reserveReleased <= cfg.account.reserveFloor + a.protectedSurplus
      && a.zig >= cfg.account.reserveFloor + a.protectedSurplus
      && ActiveZig(a, cfg.account) >= a.reserveReleased
      && (reloadZig >= 0.0 ==> Restorable(a, cfg.account, reloadZig) == Min(reloadZig, a.reserveReleased))
      && (reloadZig >= a.reserveReleased ==> ReprotectReserve(a, cfg.account, reloadZig).reserveReleased == 0.0)
  {
    hide Reached, Timely, FlightOk, OneOpen, Orderly, Priced, Budgeted, Laddered, Ledgered, Lots.HeldZig,
      Lots.SurplusZig, Lots.AllSound, Lots.LotsInOrder, Backed, NothingSold;
    ReachedDriven(cfg, entryCost, start, steps);
    var s := Reached(cfg, entryCost, start, steps).desk.soak;
    LotsAreStock(s, cfg);
    BackedCovers(s, cfg);
  }

  /**
   * A soak started with nothing above its floor never sells: the daily sell allowance is a share of the opening pool.
   * It only accumulates, so no lot ever recovers and its handler never meets the surplus it could not protect.
   */
  lemma NothingSoldWithoutPool(cfg: SoakCfg, entryCost: real, start: int, steps: seq<DriverStep>)
    requires FromStart(cfg, entryCost, start, steps) && cfg.account.startZig <= cfg.account.reserveFloor
    ensures var s := Reached(cfg, entryCost, start, steps).desk.soak;
      && s.account.cycles == [] && s.account.zig == cfg.account.startZig + Lots.HeldZig(s.lots)
      && forall i :: 0 <= i < |s.lots| ==>
         Lots.Owing(s.lots[i]) && s.lots[i].recoveredSellQty == 0.0 && s.lots[i].boughtQty > 0.0
  {
    hide Reached, Timely, FlightOk, OneOpen, Orderly, Priced, Budgeted, Laddered, Ledgered, Stock, Backed;
    ReachedDriven(cfg, entryCost, start, steps);
  }

  /**
   * Running balances are the fill ledger: holdings are the derived treasury's, cash is the start plus all flows, and
   * the risk entry shows both.
   */
  lemma LedgerInStep(cfg: SoakCfg, entryCost: real, start: int, steps: seq<DriverStep>)
    requires FromStart(cfg, entryCost, start, steps) && (entryCost > 0.0 || cfg.account.startZig == 0.0)
    ensures var a := Reached(cfg, entryCost, start, steps).desk.soak.account;
      && Treasury.DeriveTreasury(a.fills, ProtectedZig(a, cfg.account)).totalBase == a.zig ==
           Publish(a, cfg.account).zig
      && a.usdt == cfg.account.startUsdt + SumBy(a.fills, CashFlow) == Publish(a, cfg.account).usdt
      && Treasury.DeriveTreasury(a.fills, ProtectedZig(a, cfg.account)).activeBase == ActiveZig(a, cfg.account)
  {
    hide Reached, Timely, FlightOk, OneOpen, Orderly, Priced, Budgeted, Laddered, Custody, Treasury.DeriveTreasury,
      ActiveZig, ProtectedZig, Publish;
    ReachedDriven(cfg, entryCost, start, steps);
    var a := Reached(cfg, entryCost, start, steps).desk.soak.account;
    OpeningEntry(cfg, entryCost, start);
    DerivedAndPublishedAgree(a, cfg.account);
  }

  lemma OpeningEntry(cfg: SoakCfg, entryCost: real, start: int)
    ensures Opens(NewDesk(cfg, entryCost, start).soak.account) <==> cfg.account.startZig > 0.0 && entryCost > 0.0
  {
  }

  // ── Profit, budget, ladder ───────────────────────────────────────────────

  /** Profit floor: every completed cycle earned at least its distance less two fees on what it sold. */
  lemma CompletedCyclesEarn(cfg: SoakCfg, entryCost: real, start: int, steps: seq<DriverStep>, i: nat)
    requires FromStart(cfg, entryCost, start, steps) && cfg.account.distances.minBps >= 0.0
    requires var cs := Reached(cfg, entryCost, start, steps).desk.soak.account.cycles;
      i < |cs| && cs[i].status == H.Completed
    ensures var c := Reached(cfg, entryCost, start, steps).desk.soak.account.cycles[i];
      && c.harvestedUsdt.Some?
      && c.harvestedUsdt.value
           >= Times(Times(c.soldQty, c.avgSellPrice), Bps(c.distanceBps) - 2.0 * FeeRate(cfg.account))
      && c.distanceBps >= cfg.account.distances.minBps
  {
    hide Reached, Timely, FlightOk, OneOpen, Orderly, Custody, Budgeted, Laddered, Ledgered, Times, H.PricedToTarget;
    ReachedDriven(cfg, entryCost, start, steps);
    H.ProfitFloor(Reached(cfg, entryCost, start, steps).desk.soak.account.cycles[i], FeeRate(cfg.account));
  }

  /**
   * Budget agrees with lots: deployed capital is what the lots tie up, never above a cap, and no day spends more than
   * its allowance.
   */
  lemma BudgetAgreesWithLots(cfg: SoakCfg, entryCost: real, start: int, steps: seq<DriverStep>, day: int)
    requires FromStart(cfg, entryCost, start, steps)
    ensures var s := Reached(cfg, entryCost, start, steps).desk.soak;
      && s.budget.deployed == Lots.Outstanding(s.lots, Pct(cfg))
      && s.budget.deployed <= Times(cfg.caps.budgetPct, cfg.account.startUsdt)
      && s.budget.deployed <= Times(cfg.caps.totalDeployedPct, cfg.account.startUsdt)
      && s.budget.lifetimeDeployed == s.budget.deployed + s.budget.recycled
      && SpentOn(s.lots, day) <= Times(cfg.caps.dailyPct, cfg.account.startUsdt)
  {
    hide Reached, Timely, FlightOk, OneOpen, Orderly, Custody, Priced, Laddered, Ledgered, Times;
    ReachedDriven(cfg, entryCost, start, steps);
  }

  /**
   * Sell ladder: of two cycles still out the younger lies in a higher price bucket, and what is out never exceeds its
   * share of the opening pool.
   */
  lemma SellsAreSpaced(cfg: SoakCfg, entryCost: real, start: int, steps: seq<DriverStep>, i: nat, j: nat)
    requires FromStart(cfg, entryCost, start, steps)
    requires var cs := Reached(cfg, entryCost, start, steps).desk.soak.account.cycles;
      i < j < |cs| && cs[i].status != H.Completed && cs[j].status != H.Completed
    ensures var s := Reached(cfg, entryCost, start, steps).desk.soak; var cs := s.account.cycles;
      && cs[j].avgSellPrice >= Times(Width(cfg.harvest.sellBucketBps), cs[i].avgSellPrice)
      && cs[i].sellIntentPrice > 0.0 && cs[j].sellIntentPrice > 0.0
      && PriceBucketId(cs[i].sellIntentPrice, cfg.harvest.sellBucketBps) < PriceBucketId(cs[j].sellIntentPrice,
           cfg.harvest.sellBucketBps)
  {
    hide Reached, Timely, FlightOk, OneOpen, Orderly, Custody, Priced, Budgeted, Ledgered, Times, PriceBucketId;
    ReachedDriven(cfg, entryCost, start, steps);
    OpenSellsSplit(Reached(cfg, entryCost, start, steps).desk.soak, cfg, i, j);
  }

  /**
   * Deployment cap and ladder length over whole runs: n sells still out between `low` and `high` satisfy low *
   * width^(n-1) <= high.
   */
  lemma DeploymentIsCapped(cfg: SoakCfg, entryCost: real, start: int, steps: seq<DriverStep>, low: real, high: real)
    requires FromStart(cfg, entryCost, start, steps)
    requires var cs := Reached(cfg, entryCost, start, steps).desk.soak.account.cycles;
      forall i :: 0 <= i < |cs| && Out(cs[i]) ==> low <= cs[i].avgSellPrice <= high
    ensures var s := Reached(cfg, entryCost, start, steps).desk.soak; var out := OutPrices(s.account.cycles);
      && H.UnrecoveredTotal(s.account.cycles)
         <= Times(cfg.harvest.maxUnrecoveredActivePct, ActiveZig(PaperAccount.Opened(cfg.account), cfg.account))
      && (out != [] ==> Times(Pow(Width(cfg.harvest.sellBucketBps), |out| - 1), low) <= high)
  {
    hide DriverRun, Timely, FlightOk, OneOpen, Orderly, Custody, Priced, Budgeted, Ledgered, Times, Pow, Spaced,
      H.UnrecoveredTotal, OutPrices;
    ReachedDriven(cfg, entryCost, start, steps);
    var s := Reached(cfg, entryCost, start, steps).desk.soak;
    SeededActive(cfg, entryCost, start);
    if OutPrices(s.account.cycles) != [] {
      LadderIsShort(s, cfg, low, high);
    }
  }

  lemma SeededActive(cfg: SoakCfg, entryCost: real, start: int)
    ensures NewDesk(cfg, entryCost, start).soak.account.startingActive ==
      ActiveZig(PaperAccount.Opened(cfg.account), cfg.account)
  {
  }

  // ── Rebuy solvency ───────────────────────────────────────────────────────

  predicate Bought(s: Soak, s': Soak) { |s'.lots| > |s.lots| }

  /** Lots are opened by accumulation buys only. */
  lemma HeardFunds(d: Desk, d': Desk, cfg: SoakCfg, env: Env, o: Order)
    requires CfgOk(cfg) && Books(d.soak, cfg) && Pending(d.soak, cfg, o) && Heard(d, d', cfg, env, o)
      && RegimeNow(cfg, env).Some?
    ensures Bought(d.soak, d'.soak) ==> d'.soak.account.usdt >= cfg.caps.minUsdtFloor + Reserve(d'.soak)
    ensures SpreadCoversFees(cfg) && Solid(d.soak, cfg) ==> Solid(d'.soak, cfg)
  {
    hide Books, SellPending, RebuyPending, AccBuyPending, RecoveryPending, Solid, SpreadCoversFees, Reserve,
      OrderCost, AfterFill, RegimeNow;
    var s := d.soak;
    var at, regime, tag := env.now, RegimeNow(cfg, env), env.tag;
    assert d'.soak == AfterFill(s, cfg, o, at, regime, tag).soak by { HeardIsAfter(d, d', cfg, env, o); }
    LotsOpenOnlyByBuying(s, cfg, o, at, regime, tag);
    if o.reason == AccBuy {
      AccBuyLeavesReserve(s, cfg, o, at, regime, tag);
    }
    if SpreadCoversFees(cfg) && Solid(s, cfg) {
      FillKeepsSolid(s, cfg, o, at, regime, tag);
    }
  }

  lemma HeardIsAfter(d: Desk, d': Desk, cfg: SoakCfg, env: Env, o: Order)
    requires CfgOk(cfg) && Heard(d, d', cfg, env, o)
    ensures d'.soak == AfterFill(d.soak, cfg, o, env.now, RegimeNow(cfg, env), env.tag).soak
  {
    hide OnPaperFill, RegimeNow;
  }

  lemma LotsOpenOnlyByBuying(s: Soak, cfg: SoakCfg, o: Order, at: int, regime: Option<Regime>, tag: string)
    requires CfgOk(cfg) && Books(s, cfg) && Pending(s, cfg, o)
    ensures var out := AfterFill(s, cfg, o, at, regime, tag);
      && (Bought(s, out.soak) <==> o.reason == AccBuy && !out.threw)
      && (o.reason == AccBuy && out.threw ==> out.soak == s)
  {
    hide AfterFill, SellPending, RebuyPending, AccBuyPending, AimedAt, Priced, Budgeted, Laddered, Ledgered,
      Custody, Times, RecoverySale;
    match o.reason {
      case HarvestSell => HarvestFill(s, cfg, o, at, regime, tag);
      case HarvestRebuy => HarvestFill(s, cfg, o, at, regime, tag);
      case AccBuy => AccBuyFill(s, cfg, o, at, regime, tag);
      case AccRecovery =>
        RecoveryCustody(s, cfg, o, at, regime, tag);
        RecoveryFill(s, cfg, o, at, regime, tag);
        LotsKeepTime(s, cfg, TradeOf(o, Whole(o, at, regime, tag)));
    }
  }

  /** What one step of a driven desk does to the funds. */
  ghost predicate FundsKept(s: Soak, s': Soak, cfg: SoakCfg) {
    && (Bought(s, s') ==> s'.account.usdt >= cfg.caps.minUsdtFloor + Reserve(s'))
    && (SpreadCoversFees(cfg) && Solid(s, cfg) ==> Solid(s', cfg))
  }

  lemma StepFunds(t: Trader, cfg: SoakCfg, s: DriverStep, now: int)
    requires CfgOk(cfg) && Driven(t.desk, cfg, now) && now <= s.env.now
    ensures FundsKept(t.desk.soak, Drive(t, cfg, s).desk.soak, cfg)
  {
    hide Orderly, Books, Timely, OneOpen, FlightOk, Choose, Submit, Cancel, SubmitLooks, RestLooks, QuoteOf, Act,
      Asked, IsOpen, Cleared, EngineTick, FundsKept, CancelStale;
    DrivenLater(t.desk, cfg, now, s.env.now);
    var d, env := t.desk, s.env;
    NoMoveKeepsFunds(d.soak, d.soak, cfg);
    match s {
      case MarketMoves(_) =>
        var c, i := MarketCases(d, cfg, env);
        RestFunds(c, d, EngineTick(d, cfg, env).desk, cfg, env, i);
      case OperatorCancels(_, id) => CancelLeavesSoak(d, env, id);
      case BandReleases(_, qty) =>
        HooksMoveReserve(d, cfg, qty, env.now);
        BandFunds(d, cfg, ReleaseReserve(d.soak.account, cfg.account, qty), env.now);
      case BandReprotects(_, qty) =>
        HooksMoveReserve(d, cfg, qty, env.now);
        BandFunds(d, cfg, ReprotectReserve(d.soak.account, cfg.account, qty), env.now);
      case TimerFires(_) =>
        var pending := PendingOrders(d.reg.orders, cfg);
        if env.mode == PaperMode && QuoteOf(cfg, env).Some? {
          if pending != [] {
            CancelStaleDriven(d, cfg, env, pending);
          } else {
            var q := QuoteOf(cfg, env).value;
            var mem := t.memory.(sellBackoff := Cleared(t.memory.sellBackoff, q.bid, cfg.harvest.sellBucketBps),
                                 buyBackoff := Cleared(t.memory.buyBackoff, q.ask, cfg.harvest.buyBucketBps));
            var c, o := ActCases(d, mem, cfg, env, q);
            AskedFacts(d, mem, cfg, env, q);
            AskedFunds(d, Asked(d, mem, cfg, env, q), cfg);
            SubmitFunds(c, d, Asked(d, mem, cfg, env, q), Act(d, mem, cfg, env, q).desk, cfg, env, o);
          }
        }
    }
  }

  lemma BandFunds(d: Desk, cfg: SoakCfg, a: Account, now: int)
    requires Driven(d, cfg, now) && a == d.soak.account.(reserveReleased := a.reserveReleased)
    requires ReserveSound(a, cfg.account)
    ensures FundsKept(d.soak, Reserved(d, a).soak, cfg)
  {
    hide Driven, Solid, SpreadCoversFees, ReserveSound;
    BandDriven(d, cfg, a, now);
  }

  lemma NoMoveKeepsFunds(s: Soak, s': Soak, cfg: SoakCfg)
    requires s' == s.(budget := s'.budget) && s'.budget.deployed == s.budget.deployed
    ensures FundsKept(s, s', cfg)
  {
    hide Times;
  }

  lemma AskedFunds(d: Desk, a: Desk, cfg: SoakCfg)
    requires a.soak == d.soak.(budget := a.soak.budget) && a.soak.budget.deployed == d.soak.budget.deployed
    ensures Solid(a.soak, cfg) == Solid(d.soak, cfg) && a.soak.lots == d.soak.lots
  {
    hide Times;
  }

  lemma RestFunds(c: RestCase, d: Desk, d': Desk, cfg: SoakCfg, env: Env, i: nat)
    requires CfgOk(cfg) && Driven(d, cfg, env.now) && RestLooks(c, d, d', cfg, env, i)
      && (c == FilledResting ==> RegimeNow(cfg, env).Some?)
    ensures FundsKept(d.soak, d'.soak, cfg)
  {
    hide Orderly, Books, Pending, Timely, Heard, OneOpen, Solid, SpreadCoversFees, Reserve;
    if c == FilledResting {
      PendingReadsOrder(d.soak, cfg, d.reg.orders[i], d'.reg.orders[i]);
      HeardFunds(d, d', cfg, env, d'.reg.orders[i]);
    }
  }

  lemma SubmitFunds(c: SubmitCase, d: Desk, a: Desk, d': Desk, cfg: SoakCfg, env: Env, o: Order)
    requires CfgOk(cfg) && Books(a.soak, cfg) && SubmitLooks(c, a, d', cfg, env, o)
      && (c != Nothing ==> Pending(a.soak, cfg, o) && RegimeNow(cfg, env).Some?)
    requires Solid(a.soak, cfg) == Solid(d.soak, cfg) && a.soak.lots == d.soak.lots
    ensures FundsKept(d.soak, d'.soak, cfg)
  {
    hide Books, Pending, Heard, Fresh, Solid, SpreadCoversFees, Reserve, IsTerminal;
    if c == FilledAtOnce {
      HeardFunds(a, d', cfg, env, o);
    }
  }

  /** The soak after the first k steps of a run. */
  function SoakAt(cfg: SoakCfg, entryCost: real, start: int, steps: seq<DriverStep>, k: nat): Soak
    requires CfgOk(cfg) && k <= |steps|
  {
    Reached(cfg, entryCost, start, steps[..k]).desk.soak
  }

  /**
   * Rebuy solvency: when the spread of every regime pays for both fees of a cycle, the cash at hand always buys every
   * open cycle back at its target, fees included, up to 1e-9 ZIG of dust per rebuy; and cash plus deployed capital
   * never fall short of the opening cash besides.
   */
  lemma RebuysStayFunded(cfg: SoakCfg, entryCost: real, start: int, steps: seq<DriverStep>)
    requires FromStart(cfg, entryCost, start, steps) && SpreadCoversFees(cfg)
    ensures var s := Reached(cfg, entryCost, start, steps).desk.soak; var g := 1.0 + FeeRate(cfg.account);
      && s.account.usdt + Times(g, RebuyDust(s)) >= Times(g, H.RebuyReserve(s.account.cycles))
      && s.account.usdt + s.budget.deployed + Times(g, RebuyDust(s))
         >= cfg.account.startUsdt + Times(g, H.RebuyReserve(s.account.cycles))
  {
    hide Reached, Driven, RebuyPrices, RebuyDust, Times, SpreadCoversFees, Books;
    ReachedSolid(cfg, entryCost, start, steps);
    ReachedDriven(cfg, entryCost, start, steps);
    var d := Reached(cfg, entryCost, start, steps).desk;
    DrivenBooks(d, cfg, LastTick(start, steps));
    SolidBooksFunded(d.soak, cfg);
  }

  lemma DrivenBooks(d: Desk, cfg: SoakCfg, now: int)
    requires Driven(d, cfg, now)
    ensures Books(d.soak, cfg)
  {
  }

  lemma {:induction false} ReachedSolid(cfg: SoakCfg, entryCost: real, start: int, steps: seq<DriverStep>)
    requires FromStart(cfg, entryCost, start, steps) && SpreadCoversFees(cfg)
    ensures Solid(Reached(cfg, entryCost, start, steps).desk.soak, cfg)
  {
    hide Drive, NewDesk, Driven, Solid, SpreadCoversFees, Bought, Reserve;
    if steps == [] {
      StartedSolidDesk(cfg, entryCost, start);
    } else {
      var front := steps[..|steps| - 1];
      ReachedSolid(cfg, entryCost, start, front);
      ReachedDriven(cfg, entryCost, start, front);
      StepFunds(Reached(cfg, entryCost, start, front), cfg, steps[|steps| - 1], LastTick(start, front));
    }
  }

  lemma StartedSolidDesk(cfg: SoakCfg, entryCost: real, start: int)
    ensures Solid(NewDesk(cfg, entryCost, start).soak, cfg)
  {
    hide Solid, Soaks.Started;
    StartedSolid(cfg, entryCost, start);
  }

  /** Right after every accumulation buy cash covers the floor plus the whole rebuy reserve. */
  lemma BuysLeaveTheReserve(cfg: SoakCfg, entryCost: real, start: int, steps: seq<DriverStep>, k: nat)
    requires FromStart(cfg, entryCost, start, steps) && k < |steps|
    requires Bought(SoakAt(cfg, entryCost, start, steps, k), SoakAt(cfg, entryCost, start, steps, k + 1))
    ensures var s := SoakAt(cfg, entryCost, start, steps, k + 1);
      s.account.usdt >= cfg.caps.minUsdtFloor + H.RebuyReserve(s.account.cycles)
  {
    hide Drive, NewDesk, Driven, Solid, SpreadCoversFees;
    var front := steps[..k];
    assert steps[..k + 1][..k] == front;
    ReachedDriven(cfg, entryCost, start, front);
    StepFunds(Reached(cfg, entryCost, start, front), cfg, steps[k], LastTick(start, front));
  }

  // ── No handler throws ────────────────────────────────────────────────────

  /** The quote a tick acts on, with the taker fee, is at most `top`. */
  predicate QuotedTo(cfg: SoakCfg, env: Env, top: real) {
    var q := QuoteOf(cfg, env);
    q.Some? ==> WithFee(q.value.bid, cfg) <= top && WithFee(q.value.ask, cfg) <= top
  }

  ghost predicate AllQuotedTo(cfg: SoakCfg, steps: seq<DriverStep>, top: real) {
    forall k :: 0 <= k < |steps| ==> QuotedTo(cfg, steps[k].env, top)
  }

  lemma {:induction false} CancelStaleSafe(d: Desk, cfg: SoakCfg, env: Env, pending: seq<Order>, top: real)
    requires CfgOk(cfg) && Safe(d, cfg, env.now, top)
    ensures Safe(CancelStale(d, cfg, env, pending), cfg, env.now, top)
    decreases |pending|
  {
    hide Safe, Cancel, Take;
    if pending != [] {
      if env.now - pending[0].createdAt > StaleMs(cfg) {
        CancelSafe(d, cfg, env, pending[0].clientOrderId, top);
        CancelStaleSafe(Cancel(d, env, pending[0].clientOrderId), cfg, env, pending[1..], top);
      } else {
        CancelStaleSafe(d, cfg, env, pending[1..], top);
      }
    }
  }

  lemma CancelSafe(d: Desk, cfg: SoakCfg, env: Env, id: OrderId, top: real)
    requires CfgOk(cfg) && Safe(d, cfg, env.now, top)
    ensures Safe(Cancel(d, env, id), cfg, env.now, top)
  {
    hide Safe, Cancel;
    StepSafe(d, cfg, CancelOrder(env, id), env.now, top);
  }

  lemma AskedSafe(d: Desk, mem: Memory, cfg: SoakCfg, env: Env, q: Quote, top: real)
    requires CfgOk(cfg) && Safe(d, cfg, env.now, top) && Books(d.soak, cfg) && Timely(d.soak, env.now)
    ensures Safe(Asked(d, mem, cfg, env, q), cfg, env.now, top)
  {
    hide BooksOk, Settles, Books, Timely, Choose, OpenSells, OpenBuys, Orderly;
    AskedFacts(d, mem, cfg, env, q);
    OrderlyAnySoak(d, Asked(d, mem, cfg, env, q), cfg);
  }

  lemma DriveSafe(t: Trader, cfg: SoakCfg, s: DriverStep, now: int, top: real)
    requires CfgOk(cfg) && Driven(t.desk, cfg, now) && Safe(t.desk, cfg, now, top) && now <= s.env.now
      && QuotedTo(cfg, s.env, top)
    ensures Safe(Drive(t, cfg, s).desk, cfg, s.env.now, top)
  {
    hide Orderly, Books, Timely, OneOpen, FlightOk, Choose, Submit, Cancel, QuoteOf, IsOpen, Cleared, EngineTick,
      CancelStale, Safe, Asked;
    DrivenLater(t.desk, cfg, now, s.env.now);
    SafeLater(t.desk, cfg, now, s.env.now, top);
    var d, env := t.desk, s.env;
    match s {
      case MarketMoves(_) => StepSafe(d, cfg, MarketUpdate(env), env.now, top);
      case OperatorCancels(_, id) => CancelSafe(d, cfg, env, id, top);
      case BandReleases(_, qty) => StepSafe(d, cfg, ReleaseBand(env.now, qty), env.now, top);
      case BandReprotects(_, qty) => StepSafe(d, cfg, ReprotectBand(env.now, qty), env.now, top);
      case TimerFires(_) =>
        var pending := PendingOrders(d.reg.orders, cfg);
        if env.mode == PaperMode && QuoteOf(cfg, env).Some? {
          if pending != [] {
            CancelStaleSafe(d, cfg, env, pending, top);
          } else {
            var q := QuoteOf(cfg, env).value;
            var mem := t.memory.(sellBackoff := Cleared(t.memory.sellBackoff, q.bid, cfg.harvest.sellBucketBps),
                                 buyBackoff := Cleared(t.memory.buyBackoff, q.ask, cfg.harvest.buyBucketBps));
            AskedSafe(d, mem, cfg, env, q, top);
            ActSafe(d, mem, cfg, env, q, top);
          }
        }
    }
  }

  lemma ActSafe(d: Desk, mem: Memory, cfg: SoakCfg, env: Env, q: Quote, top: real)
    requires CfgOk(cfg) && Safe(Asked(d, mem, cfg, env, q), cfg, env.now, top)
    requires WithFee(q.bid, cfg) <= top && WithFee(q.ask, cfg) <= top
    ensures Safe(Act(d, mem, cfg, env, q).desk, cfg, env.now, top)
  {
    hide Choose, Submit, Safe, WithFee, Remember;
    var choice := Choose(d.soak, mem, cfg, env, q);
    if !choice.move.Wait? {
      SubmitSafe(Asked(d, mem, cfg, env, q), cfg, env, RequestFor(choice.move, cfg, env, q), top);
    }
  }

  lemma {:induction false} ReachedSafe(cfg: SoakCfg, entryCost: real, start: int, steps: seq<DriverStep>, top: real)
    requires FromStart(cfg, entryCost, start, steps) && top >= 0.0 && AllQuotedTo(cfg, steps, top)
    ensures Safe(Reached(cfg, entryCost, start, steps).desk, cfg, LastTick(start, steps), top)
  {
    hide Driven, Drive, NewDesk, Safe, QuotedTo;
    if steps == [] {
      NewDeskSafe(cfg, entryCost, start, top);
    } else {
      var front := steps[..|steps| - 1];
      ReachedDriven(cfg, entryCost, start, front);
      ReachedSafe(cfg, entryCost, start, front, top);
      DriveSafe(Reached(cfg, entryCost, start, front), cfg, steps[|steps| - 1], LastTick(start, front), top);
    }
  }

  /** On driven books a fill throws exactly when the account refuses it for cash. */
  lemma ThrowsOnlyForCash(d: Desk, cfg: SoakCfg, env: Env, o: Order)
    requires CfgOk(cfg) && Books(d.soak, cfg) && Pending(d.soak, cfg, o) && Timely(d.soak, o.createdAt)
      && o.createdAt <= env.now
    ensures Threw(d, cfg, env, o) ==>
      FillProblem(d.soak.account, cfg.account, TradeOf(o, NewsOf(cfg, env, o))) == Some(CashOverdraw)
  {
    hide Books, Timely, OnPaperFill, RegimeNow, FeeRate, Times;
    FillKeepsBooks(d.soak, cfg, o, env.now, RegimeNow(cfg, env), env.tag);
    PendingTrades(d.soak, cfg, o);
  }

  lemma PendingTrades(s: Soak, cfg: SoakCfg, o: Order)
    requires CfgOk(cfg) && Pending(s, cfg, o)
    ensures o.quantity > 0.0 && o.price > 0.0
  {
  }

  /** With fee-inclusive prices of at most 100 USDT, no market update of a driver run ever meets an exception. */
  lemma MarketNeverThrows(cfg: SoakCfg, entryCost: real, start: int, steps: seq<DriverStep>, env: Env, top: real)
    requires FromStart(cfg, entryCost, start, steps) && 0.0 <= top <= 100.0 && AllQuotedTo(cfg, steps, top)
    requires LastTick(start, steps) <= env.now
    ensures !EngineTick(Reached(cfg, entryCost, start, steps).desk, cfg, env).threw
  {
    hide Reached, Orderly, Books, Timely, OneOpen, Pending, EngineTick, Safe, Threw, Heard;
    ReachedDriven(cfg, entryCost, start, steps);
    ReachedSafe(cfg, entryCost, start, steps, top);
    var d := Reached(cfg, entryCost, start, steps).desk;
    DrivenLater(d, cfg, LastTick(start, steps), env.now);
    SafeLater(d, cfg, LastTick(start, steps), env.now, top);
    var c, i := MarketCases(d, cfg, env);
    if c == FilledResting {
      var d' := EngineTick(d, cfg, env).desk;
      ThrowsOnlyForCash(d, cfg, env, d.reg.orders[i]);
      RestingIsPaid(d, d', cfg, env, i, top);
      SameTrade(d, cfg, env, d.reg.orders[i], d'.reg.orders[i]);
    }
  }

  lemma SameTrade(d: Desk, cfg: SoakCfg, env: Env, o: Order, o': Order)
    requires o' == o.(status := o'.status, filledQuantity := o'.filledQuantity)
    ensures TradeOf(o', NewsOf(cfg, env, o')) == TradeOf(o, NewsOf(cfg, env, o))
  {
    hide RegimeNow;
  }

  /** The fills a tick hands to the soak: those of the one order it may send. */
  function ActFillings(d: Desk, mem: Memory, cfg: SoakCfg, env: Env, q: Quote): seq<Filling>
    requires CfgOk(cfg)
  {
    var choice := Choose(d.soak, mem, cfg, env, q);
    if choice.move.Wait? then []
      else OnArrival(Asked(d, mem, cfg, env, q), cfg, env, RequestFor(choice.move, cfg, env, q))
  }

  function TickFillings(t: Trader, cfg: SoakCfg, env: Env): seq<Filling>
    requires CfgOk(cfg)
  {
    var quote := QuoteOf(cfg, env);
    if env.mode != PaperMode || quote.None? || PendingOrders(t.desk.reg.orders, cfg) != [] then []
    else
      var q := quote.value;
      var mem := t.memory.(sellBackoff := Cleared(t.memory.sellBackoff, q.bid, cfg.harvest.sellBucketBps),
                           buyBackoff := Cleared(t.memory.buyBackoff, q.ask, cfg.harvest.buyBucketBps));
      ActFillings(t.desk, mem, cfg, env, q)
  }

  lemma {:induction false} CancelStaleLeavesSoak(d: Desk, cfg: SoakCfg, env: Env, pending: seq<Order>)
    ensures CancelStale(d, cfg, env, pending).soak == d.soak
    decreases |pending|
  {
    hide Cancel;
    if pending != [] {
      CancelLeavesSoak(d, env, pending[0].clientOrderId);
      var stale := env.now - pending[0].createdAt > StaleMs(cfg);
      CancelStaleLeavesSoak(if stale then Cancel(d, env, pending[0].clientOrderId) else d, cfg, env, pending[1..]);
    }
  }

  /** Those fills, and the budget's clock, are all that moves the soak in a tick. */
  lemma TickLeads(t: Trader, cfg: SoakCfg, env: Env) returns (s: Soak, threw: bool)
    requires CfgOk(cfg)
    ensures s == t.desk.soak.(budget := s.budget)
      && Leads(s, cfg, TickFillings(t, cfg, env), DriverTick(t, cfg, env).desk.soak, threw)
  {
    hide Leads, Submit, OnArrival, Cleared, QuoteOf, RebuyMove, RecoveryMove, SellMove, BuyMove, MayAccumulate,
      Remember, RequestFor, CancelStale, PendingOrders;
    s, threw := t.desk.soak, false;
    LeadsNowhere(s, cfg);
    var quote := QuoteOf(cfg, env);
    if env.mode == PaperMode && quote.Some? {
      CancelStaleLeavesSoak(t.desk, cfg, env, PendingOrders(t.desk.reg.orders, cfg));
      if PendingOrders(t.desk.reg.orders, cfg) == [] {
        var q := quote.value;
        var mem := t.memory.(sellBackoff := Cleared(t.memory.sellBackoff, q.bid, cfg.harvest.sellBucketBps),
                             buyBackoff := Cleared(t.memory.buyBackoff, q.ask, cfg.harvest.buyBucketBps));
        var asked := Asked(t.desk, mem, cfg, env, q);
        var choice := Choose(t.desk.soak, mem, cfg, env, q);
        s := asked.soak;
        LeadsNowhere(s, cfg);
        if !choice.move.Wait? {
          threw := FillingsLead(asked, cfg, SubmitOrder(env, RequestFor(choice.move, cfg, env, q)));
        }
      }
    }
  }

  /** An order the driver sends fills, if it fills at once, without an exception. */
  lemma ArrivalBooked(d: Desk, mem: Memory, cfg: SoakCfg, env: Env, q: Quote, top: real)
    requires CfgOk(cfg) && Books(d.soak, cfg) && Timely(d.soak, env.now) && env.mode == PaperMode
    requires Safe(d, cfg, env.now, top) && 0.0 <= top <= 100.0 && WithFee(q.bid, cfg) <= top
      && WithFee(q.ask, cfg) <= top
    ensures forall f :: f in ActFillings(d, mem, cfg, env, q) ==> !Booked(f, cfg).threw
  {
    hide Books, Choose, OnArrival, SubmittedAs, Decide, Pending, Timely, Safe, WithFee, TradeOf, NewsOf, OnPaperFill,
      Asked;
    var choice := Choose(d.soak, mem, cfg, env, q);
    var asked := Asked(d, mem, cfg, env, q);
    if ActFillings(d, mem, cfg, env, q) != [] {
      var req := RequestFor(choice.move, cfg, env, q);
      AskedFacts(d, mem, cfg, env, q);
      AskedSafe(d, mem, cfg, env, q, top);
      SafeIsOrderly(asked, cfg, env.now, top);
      var o := ArrivalFills(asked, cfg, env, req);
      ChosenIsPending(d, mem, cfg, env, q, req, o);
      ThrowsOnlyForCash(asked, cfg, env, o);
      ArrivalPaid(asked, cfg, env, req, top);
    }
  }

  /** No tick of a driver run sends an order whose fill at arrival meets an exception, either. */
  lemma ArrivalNeverThrows(cfg: SoakCfg, entryCost: real, start: int, steps: seq<DriverStep>, env: Env, top: real)
    requires FromStart(cfg, entryCost, start, steps) && 0.0 <= top <= 100.0 && AllQuotedTo(cfg, steps, top)
    requires LastTick(start, steps) <= env.now && QuotedTo(cfg, env, top)
    ensures forall f :: f in TickFillings(Reached(cfg, entryCost, start, steps), cfg, env) ==> !Booked(f, cfg).threw
  {
    hide Reached, Orderly, Books, Timely, OneOpen, FlightOk, Safe, Booked, ActFillings, Cleared, WithFee;
    ReachedDriven(cfg, entryCost, start, steps);
    ReachedSafe(cfg, entryCost, start, steps, top);
    var t := Reached(cfg, entryCost, start, steps);
    DrivenLater(t.desk, cfg, LastTick(start, steps), env.now);
    SafeLater(t.desk, cfg, LastTick(start, steps), env.now, top);
    if TickFillings(t, cfg, env) != [] {
      var q := QuoteOf(cfg, env).value;
      var mem := t.memory.(sellBackoff := Cleared(t.memory.sellBackoff, q.bid, cfg.harvest.sellBucketBps),
                           buyBackoff := Cleared(t.memory.buyBackoff, q.ask, cfg.harvest.buyBucketBps));
      ArrivalBooked(t.desk, mem, cfg, env, q, top);
    }
  }
}
