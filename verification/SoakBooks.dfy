/**
 * What each fill that the driver caused does to the soak's ledgers (backend/src/paper-soak/index.ts, `onPaperFill`,
 * under the conditions harvest-driver.ts and accumulation-engine.ts place on their own orders). Five ledgers describe
 * the same money: balances, fills, harvest obligations, lots and budget. Each section keeps one promise between them.
 */
module SoakBooks {
  import opened Numeric
  import opened Sums
  import opened Domain
  import opened Orders
  import opened PaperAccount
  import opened Soaks
  import opened PriceBuckets
  import HarvestCycles
  import Lots = AccumulationLots
  import Funds = AccumulationBudget

  // ── What the driver promises about its one pending order ─────────────────

  function Cycles(s: Soak): seq<HarvestCycles.HarvestCycle> { s.account.cycles }

  function UnrecoveredCap(s: Soak, cfg: SoakCfg): real {
    Times(cfg.harvest.maxUnrecoveredActivePct, s.account.startingActive)
  }

  /** Priced at least one bucket width above every sell that is still out. */
  ghost predicate AboveOpenSells(cs: seq<HarvestCycles.HarvestCycle>, price: real, bps: real) {
    forall i :: 0 <= i < |cs| && cs[i].status != HarvestCycles.Completed ==>
      price >= Times(Width(bps), cs[i].avgSellPrice)
  }

  ghost predicate SellPending(s: Soak, cfg: SoakCfg, o: Order) {
    && o.side == Sell && o.cycleIds == None && s.account.startingActive > 0.0
    && HarvestCycles.UnrecoveredTotal(Cycles(s)) + o.quantity <= UnrecoveredCap(s, cfg)
    && AboveOpenSells(Cycles(s), o.price, cfg.harvest.sellBucketBps)
  }

  function CycleIdsOf(cs: seq<HarvestCycles.HarvestCycle>): seq<nat> {
    if cs == [] then [] else [cs[0].id] + CycleIdsOf(cs[1..])
  }

  predicate RebuyPending(s: Soak, cfg: SoakCfg, o: Order) {
    var due := HarvestCycles.OpenForRebuy(Cycles(s), o.price);
    o.side == Buy && o.cycleIds == Some(CycleIdsOf(due)) && o.quantity <= HarvestCycles.UnrecoveredTotal(due)
  }

  /** Fee-inclusive cost of a whole order at its limit price. */
  function OrderCost(o: Order, cfg: SoakCfg): real {
    Times(o.quantity, o.price) + Times(FeeRate(cfg.account), Times(o.quantity, o.price))
  }

  predicate AccBuyPending(s: Soak, cfg: SoakCfg, o: Order) {
    && o.side == Buy && cfg.accEnabled
    && OrderCost(o, cfg) <= Funds.MaxSpend(Funds.RollDay(s.budget, o.createdAt), cfg.caps, s.account.usdt,
         HarvestCycles.RebuyReserve(Cycles(s)))
  }

  predicate AimedAt(s: Soak, o: Order, i: nat) {
    i < |s.lots| && o.cycleIds == Some([s.lots[i].id]) && Lots.Owing(s.lots[i]) && o.quantity <= Lots.Held(s.lots[i])
  }

  ghost predicate RecoveryPending(s: Soak, cfg: SoakCfg, o: Order) {
    o.side == Sell && cfg.accEnabled && s.account.startingActive > 0.0 && exists i: nat :: AimedAt(s, o, i)
  }

  /**
   * An unfilled order of the driver or the accumulation engine, against the books as they stand. A sell was approved,
   * so there is an opening pool: the daily sell allowance is a share of it.
   */
  ghost predicate Pending(s: Soak, cfg: SoakCfg, o: Order) {
    && o.exchange == cfg.exchange && o.rebuyDistanceBps == None
    && cfg.risk.minOrderZig <= o.quantity && o.price > 0.0
    && match o.reason
       case HarvestSell => SellPending(s, cfg, o)
       case HarvestRebuy => RebuyPending(s, cfg, o)
       case AccBuy => AccBuyPending(s, cfg, o)
       case AccRecovery => RecoveryPending(s, cfg, o)
       case Other(_) => false
  }

  /** The news of a whole fill at the limit price. */
  function Whole(o: Order, at: int, regime: Option<Regime>, tag: string): FillNews {
    FillNews(Some(o.quantity), Some(o.price), at, regime, tag)
  }

  /** The books after the whole order filled. */
  function AfterFill(s: Soak, cfg: SoakCfg, o: Order, at: int, regime: Option<Regime>, tag: string): Outcome
    requires CfgOk(cfg)
  {
    OnPaperFill(s, cfg, o, Whole(o, at, regime, tag))
  }

  // ── The four fills ───────────────────────────────────────────────────────

  /** The account moves by the trade; the rest of the soak does not. */
  predicate Traded(s: Soak, s': Soak, cfg: SoakCfg, t: PaperTrade) {
    && s' == s.(account := s'.account)
    && s'.account == Settled(s.account, cfg.account, t).(cycles := CyclesAfter(s.account.cycles, t, cfg.account))
  }

  lemma HarvestFill(s: Soak, cfg: SoakCfg, o: Order, at: int, regime: Option<Regime>, tag: string)
    requires CfgOk(cfg) && Pending(s, cfg, o) && (o.reason == HarvestSell || o.reason == HarvestRebuy)
    ensures var t := TradeOf(o, Whole(o, at, regime, tag)); var out := AfterFill(s, cfg, o, at, regime, tag);
      && t.kind == Harvest && t.size == o.quantity > 0.0 && t.price == o.price == t.intentPrice && t.side == o.side
      && t.at == at
      && t.cycleIds == o.cycleIds && t.distanceOverride == None
      && (if FillProblem(s.account, cfg.account, t) != None then out == Outcome(s, true)
          else !out.threw && Traded(s, out.soak, cfg, t))
  {
    hide Times, Over, SellPending, RebuyPending, Settled, CyclesAfter, FillProblem, AccumulationFill;
  }

  /** An accumulation fill leaves the harvest book alone. */
  lemma AccumulationTrade(s: Soak, cfg: SoakCfg, t: PaperTrade)
    requires t.kind == Accumulation && FillProblem(s.account, cfg.account, t) == None
    ensures ApplyPaperFill(s.account, cfg.account, t) == Applied(Settled(s.account, cfg.account, t))
  {
    hide Times, Over, FillProblem;
  }

  lemma RefusedTrade(s: Soak, cfg: SoakCfg, t: PaperTrade)
    requires FillProblem(s.account, cfg.account, t) != None
    ensures ApplyPaperFill(s.account, cfg.account, t).Refused?
  {
    hide FillProblem;
  }

  lemma AccBuyFill(s: Soak, cfg: SoakCfg, o: Order, at: int, regime: Option<Regime>, tag: string)
    requires CfgOk(cfg) && Pending(s, cfg, o) && o.reason == AccBuy
    ensures var t := TradeOf(o, Whole(o, at, regime, tag)); var out := AfterFill(s, cfg, o, at, regime, tag);
      && t.kind == Accumulation && t.size == o.quantity > 0.0 && t.price == o.price && t.side == Buy && t.at == at
      && (if FillProblem(s.account, cfg.account, t) != None then out == Outcome(s, true)
          else !out.threw && BoughtLot(s, out.soak, cfg, t))
  {
    hide Times, Over, OrderCost, Funds.MaxSpend, Settled, FillProblem, ApplyPaperFill, Lots.SurplusZig, Lots.NewLot,
      Funds.Record;
    var t := TradeOf(o, Whole(o, at, regime, tag));
    if FillProblem(s.account, cfg.account, t) == None {
      AccumulationTrade(s, cfg, t);
      NewLotHasNoSurplus(s, cfg, t);
    } else {
      RefusedTrade(s, cfg, t);
    }
  }

  lemma NewLotHasNoSurplus(s: Soak, cfg: SoakCfg, t: PaperTrade)
    ensures var l := Lots.NewLot(|s.lots| + 1, t.size, t.price, FeeUsdt(t, cfg.account), cfg.lots, t.at);
      Lots.SurplusZig(s.lots + [l]) == Lots.SurplusZig(s.lots)
  {
    hide Times, Over;
    SumByAppend(s.lots, Lots.NewLot(|s.lots| + 1, t.size, t.price, FeeUsdt(t, cfg.account), cfg.lots, t.at),
      Lots.SurplusOf);
  }

  /** An accumulation buy opens a lot for what was paid and records it as deployed. */
  predicate BoughtLot(s: Soak, s': Soak, cfg: SoakCfg, t: PaperTrade) {
    && s'.account == Settled(s.account, cfg.account, t)
    && s'.lots == s.lots + [Lots.NewLot(|s.lots| + 1, t.size, t.price, FeeUsdt(t, cfg.account), cfg.lots, t.at)]
    && s'.budget == Funds.Record(s.budget, BuyCost(t, cfg.account), t.at)
  }

  function RecoverySale(s: Soak, cfg: SoakCfg, t: PaperTrade): Lots.Sale
    requires CfgOk(cfg) && t.size > 0.0 && t.price > 0.0
  {
    NetPricePositive(t, cfg);
    Lots.Sell(s.lots, t.size, t.price, FeeUsdt(t, cfg.account), t.cycleIds, Pct(cfg))
  }

  function SurplusAdded(s: Soak, cfg: SoakCfg, t: PaperTrade): real
    requires CfgOk(cfg) && t.size > 0.0 && t.price > 0.0
  {
    Lots.SurplusZig(RecoverySale(s, cfg, t).lots) - Lots.SurplusZig(s.lots)
  }

  /** Lots have moved and the budget has its principal back; its snapshot has rolled the day. */
  predicate LotsMoved(s: Soak, s': Soak, cfg: SoakCfg, t: PaperTrade)
    requires CfgOk(cfg) && t.size > 0.0 && t.price > 0.0
  {
    && s'.lots == RecoverySale(s, cfg, t).lots
    && s'.budget == Funds.RollDay(Funds.Release(s.budget, RecoverySale(s, cfg, t).reclaimed), t.at)
  }

  /**
   * The surplus a sell set free is more than the account can protect: the handler throws with the rest already moved.
   */
  predicate SurplusRefused(s: Soak, cfg: SoakCfg, t: PaperTrade)
    requires CfgOk(cfg) && t.size > 0.0 && t.price > 0.0
  {
    SurplusAdded(s, cfg, t) > 0.0
      && InvalidSurplus(Settled(s.account, cfg.account, t), cfg.account, SurplusAdded(s, cfg, t))
  }

  /** A recovery sell moves the lots, gives principal back to the budget and protects the surplus it set free. */
  predicate SoldLot(s: Soak, s': Soak, cfg: SoakCfg, t: PaperTrade)
    requires CfgOk(cfg) && t.size > 0.0 && t.price > 0.0
  {
    && LotsMoved(s, s', cfg, t)
    && s'.account == (if SurplusAdded(s, cfg, t) > 0.0 then
         ProtectSurplus(Settled(s.account, cfg.account, t), SurplusAdded(s, cfg, t))
                      else Settled(s.account, cfg.account, t))
  }

  lemma RecoveryBooks(s: Soak, cfg: SoakCfg, t: PaperTrade)
    requires CfgOk(cfg) && t.size > 0.0 && t.price > 0.0 && t.side == Sell
    ensures var moved := s.(account := Settled(s.account, cfg.account, t)); var out := AccumulationFill(moved, cfg, t);
      if Lots.Unallocated(RecoverySale(s, cfg, t), t.cycleIds) then out.threw
      else if SurplusRefused(s, cfg, t) then out.threw && LotsMoved(s, out.soak, cfg, t)
        && out.soak.account == moved.account
      else !out.threw && SoldLot(s, out.soak, cfg, t)
  {
    hide Times, Over, Settled, Lots.Sell, Lots.SurplusZig, InvalidSurplus, ProtectSurplus, Lots.Unallocated, FeeUsdt,
      Lots.NetPrice, Funds.Release, Funds.RollDay;
    NetPricePositive(t, cfg);
  }

  /**
   * A recovery sell of one lot, within what it holds: what the accumulation engine sends, whatever the account holds.
   */
  ghost predicate RecoveryOrder(s: Soak, cfg: SoakCfg, o: Order) {
    && o.exchange == cfg.exchange && cfg.risk.minOrderZig <= o.quantity && o.price > 0.0
    && o.reason == AccRecovery && o.side == Sell && cfg.accEnabled && exists i: nat :: AimedAt(s, o, i)
  }

  lemma RecoveryFill(s: Soak, cfg: SoakCfg, o: Order, at: int, regime: Option<Regime>, tag: string)
    requires CfgOk(cfg) && RecoveryOrder(s, cfg, o)
    ensures var t := TradeOf(o, Whole(o, at, regime, tag)); var out := AfterFill(s, cfg, o, at, regime, tag);
      && t.kind == Accumulation && t.size == o.quantity > 0.0 && t.price == o.price > 0.0 && t.side == Sell
      && t.at == at && t.cycleIds == o.cycleIds
      && (if FillProblem(s.account, cfg.account, t) != None then out == Outcome(s, true)
          else if Lots.Unallocated(RecoverySale(s, cfg, t), t.cycleIds) then out.threw
          else if SurplusRefused(s, cfg, t) then
            out.threw && LotsMoved(s, out.soak, cfg, t) && out.soak.account == Settled(s.account, cfg.account, t)
          else !out.threw && SoldLot(s, out.soak, cfg, t))
  {
    hide Times, Over, AimedAt, Settled, FillProblem, ApplyPaperFill, AccumulationFill, Lots.Sell, Lots.SurplusZig,
      LotsMoved, SurplusRefused;
    var t := TradeOf(o, Whole(o, at, regime, tag));
    if FillProblem(s.account, cfg.account, t) == None {
      AccumulationTrade(s, cfg, t);
      RecoveryBooks(s, cfg, t);
    } else {
      RefusedTrade(s, cfg, t);
    }
  }

  // ── Custody: lot stock is never sold as harvest stock ────────────────────

  /** The lots are in order, and surplus on the books is surplus in the lots. */
  ghost predicate Stock(s: Soak, cfg: SoakCfg) {
    && ReserveSound(s.account, cfg.account)
    && s.account.protectedSurplus == Lots.SurplusZig(s.lots)
    && Lots.AllSound(s.lots) && Lots.LotsInOrder(s.lots)
    && (cfg.accEnabled || s.lots == [])
  }

  /**
   * Inventory is what the run started with and the lots, less what harvest sells are still out; and those never exceed
   * their share of the opening pool.
   */
  predicate Backed(s: Soak, cfg: SoakCfg) {
    && s.account.zig >= cfg.account.startZig + Lots.HeldZig(s.lots) - HarvestCycles.UnrecoveredTotal(Cycles(s))
    && HarvestCycles.UnrecoveredTotal(Cycles(s)) <= UnrecoveredCap(s, cfg)
  }

  /** Everything above the floor covers every lot. */
  predicate CoversLots(s: Soak, cfg: SoakCfg) {
    s.account.zig - cfg.account.reserveFloor >= Lots.HeldZig(s.lots)
  }

  /** Nothing was ever sold: inventory is what the run started with plus the untouched lots. */
  ghost predicate NothingSold(s: Soak, cfg: SoakCfg) {
    && s.account.zig == cfg.account.startZig + Lots.HeldZig(s.lots) && Cycles(s) == []
    && forall i :: 0 <= i < |s.lots| ==>
       Lots.Owing(s.lots[i]) && s.lots[i].recoveredSellQty == 0.0 && s.lots[i].boughtQty > 0.0
  }

  /** Lots are backed when the run opened with a pool above the floor; without one nothing is ever sold. */
  ghost predicate Custody(s: Soak, cfg: SoakCfg) {
    && Stock(s, cfg)
    && s.account.startingActive == ActiveZig(PaperAccount.Opened(cfg.account), cfg.account)
    && (if s.account.startingActive > 0.0 then Backed(s, cfg) else NothingSold(s, cfg))
  }

  function Unrecovered(l: Lots.Lot): real { if Lots.Owing(l) then Lots.Held(l) else 0.0 }

  /** Stock held for lots is what the owing lots hold. */
  lemma {:induction false} LotStockIsOwed(ls: seq<Lots.Lot>)
    requires Lots.AllSound(ls)
    ensures Lots.HeldZig(ls) - Lots.SurplusZig(ls) == SumBy(ls, Unrecovered)
    ensures Lots.SurplusZig(ls) >= 0.0 && SumBy(ls, Unrecovered) >= 0.0
  {
    if ls != [] {
      LotStockIsOwed(ls[1..]);
    }
  }

  /** Owing lots are part of the stock, which is never negative. */
  lemma LotsAreStock(s: Soak, cfg: SoakCfg)
    requires Stock(s, cfg)
    ensures LotStock(s) >= 0.0 && Lots.SurplusZig(s.lots) >= 0.0
    ensures forall i :: 0 <= i < |s.lots| && Lots.Owing(s.lots[i]) ==> LotStock(s) >= Lots.Held(s.lots[i])
  {
    LotStockIsOwed(s.lots);
    forall i | 0 <= i < |s.lots| && Lots.Owing(s.lots[i])
      ensures LotStock(s) >= Lots.Held(s.lots[i])
    {
      SumByElement(s.lots, i, Unrecovered);
    }
  }

  /** What is backed is covered: the sells still out never exceed what the run opened with above its floor. */
  lemma BackedCovers(s: Soak, cfg: SoakCfg)
    requires CfgOk(cfg) && Custody(s, cfg)
    ensures s.account.startingActive > 0.0 ==> CoversLots(s, cfg)
    ensures CoversLots(s, cfg) <==> cfg.account.startZig >= cfg.account.reserveFloor
    ensures cfg.account.startZig < cfg.account.reserveFloor ==>
      s.account.zig == cfg.account.startZig + Lots.HeldZig(s.lots)
  {
    CapWithinPool(s, cfg);
    hide Lots.HeldZig, Lots.SurplusZig, Stock, HarvestCycles.UnrecoveredTotal, UnrecoveredCap;
  }

  lemma CapWithinPool(s: Soak, cfg: SoakCfg)
    requires CfgOk(cfg) && s.account.startingActive >= 0.0
    ensures UnrecoveredCap(s, cfg) <= s.account.startingActive
  {
    MulMono(cfg.harvest.maxUnrecoveredActivePct, 1.0, s.account.startingActive);
  }

  /**
   * The active pool covers the stock of unrecovered lots exactly when inventory with the released reserve covers floor
   * and lots, or there is no such stock.
   */
  lemma ActiveCoversLots(s: Soak, cfg: SoakCfg)
    requires CfgOk(cfg) && Stock(s, cfg)
    ensures ActiveZig(s.account, cfg.account) >= LotStock(s) <==>
      s.account.zig + s.account.reserveReleased >= cfg.account.reserveFloor + Lots.HeldZig(s.lots) || LotStock(s) == 0.0
  {
    LotsAreStock(s, cfg);
    hide Lots.HeldZig, Lots.SurplusZig;
  }

  lemma SellRaises(cs: seq<HarvestCycles.HarvestCycle>, cfg: SoakCfg, t: PaperTrade)
    requires t.kind == Harvest && t.side == Sell
    ensures var cs' := CyclesAfter(cs, t, cfg.account);
      HarvestCycles.UnrecoveredTotal(cs') == HarvestCycles.UnrecoveredTotal(cs) + t.size
  {
    hide Times, Over;
    var cs' := CyclesAfter(cs, t, cfg.account);
    SumByAppend(cs, cs'[|cs|], HarvestCycles.Unrecovered);
  }

  lemma SellCustody(s: Soak, cfg: SoakCfg, o: Order, at: int, regime: Option<Regime>, tag: string)
    requires CfgOk(cfg) && Custody(s, cfg) && Pending(s, cfg, o) && o.reason == HarvestSell
    ensures var out := AfterFill(s, cfg, o, at, regime, tag); !out.threw && Custody(out.soak, cfg)
  {
    CapWithinPool(s, cfg);
    hide Times, Over, AfterFill, CyclesAfter, Lots.HeldZig, Lots.SurplusZig, NothingSold, Lots.AllSound,
      Lots.LotsInOrder, HarvestCycles.UnrecoveredTotal;
    HarvestFill(s, cfg, o, at, regime, tag);
    LotsAreStock(s, cfg);
    SellRaises(Cycles(s), cfg, TradeOf(o, Whole(o, at, regime, tag)));
  }

  lemma RebuyCustody(s: Soak, cfg: SoakCfg, o: Order, at: int, regime: Option<Regime>, tag: string)
    requires CfgOk(cfg) && Custody(s, cfg) && Pending(s, cfg, o) && o.reason == HarvestRebuy
    requires HarvestCycles.BookBalanced(Cycles(s))
    ensures Custody(AfterFill(s, cfg, o, at, regime, tag).soak, cfg)
  {
    hide Times, Over, AfterFill, Lots.HeldZig, Lots.SurplusZig, HarvestCycles.OpenForRebuy, Lots.AllSound,
      Lots.LotsInOrder, HarvestCycles.UnrecoveredTotal, HarvestCycles.AfterBuy, HarvestCycles.BookBalanced;
    HarvestFill(s, cfg, o, at, regime, tag);
    NothingToRebuy(o.price);
    var t := TradeOf(o, Whole(o, at, regime, tag));
    HarvestCycles.AllocationConserves(Cycles(s), t.size, t.price, FeeUsdt(t, cfg.account), o.cycleIds);
  }

  lemma NothingToRebuy(ask: real)
    ensures HarvestCycles.UnrecoveredTotal(HarvestCycles.OpenForRebuy([], ask)) == 0.0
  {
  }

  /** Nothing on the books is younger than `now`. */
  ghost predicate Timely(s: Soak, now: int) {
    && (forall i :: 0 <= i < |s.account.cycles| ==> s.account.cycles[i].openedAt <= now)
    && (forall i :: 0 <= i < |s.lots| ==> s.lots[i].openedAt <= now)
    && (forall i :: 0 <= i < |s.account.fills| ==> s.account.fills[i].filledAt <= now)
    && (s.account.day.Some? ==> s.account.day.value <= UtcDay(now))
    && s.budget.day <= UtcDay(now)
  }

  lemma NewLotSound(s: Soak, cfg: SoakCfg, t: PaperTrade, l: Lots.Lot)
    requires CfgOk(cfg) && t.size > 0.0 && t.price > 0.0
    requires l == Lots.NewLot(|s.lots| + 1, t.size, t.price, FeeUsdt(t, cfg.account), cfg.lots, t.at)
    ensures Lots.Sound(l) && Lots.Held(l) == t.size && Lots.SurplusOf(l) == 0.0
      && l.usdtSpent == BuyCost(t, cfg.account)
    ensures BuyCost(t, cfg.account) > 0.0
  {
    TimesPositive(t.size, t.price);
    MulNonneg(FeeRate(cfg.account), Notional(t));
    hide Times, Over;
  }

  lemma AccBuyCustody(s: Soak, cfg: SoakCfg, o: Order, at: int, regime: Option<Regime>, tag: string)
    requires CfgOk(cfg) && Custody(s, cfg) && Pending(s, cfg, o) && o.reason == AccBuy && Timely(s, at)
    ensures Custody(AfterFill(s, cfg, o, at, regime, tag).soak, cfg)
  {
    hide Times, Over, AfterFill, Lots.NewLot, Funds.Record, OrderCost, Funds.MaxSpend;
    AccBuyFill(s, cfg, o, at, regime, tag);
    var s' := AfterFill(s, cfg, o, at, regime, tag).soak;
    if s' != s {
      var l := s'.lots[|s.lots|];
      NewLotSound(s, cfg, TradeOf(o, Whole(o, at, regime, tag)), l);
      NewLotTime(s, cfg, TradeOf(o, Whole(o, at, regime, tag)));
      SumByAppend(s.lots, l, Lots.Held);
      SumByAppend(s.lots, l, Lots.SurplusOf);
    }
  }

  lemma NewLotTime(s: Soak, cfg: SoakCfg, t: PaperTrade)
    ensures var l := Lots.NewLot(|s.lots| + 1, t.size, t.price, FeeUsdt(t, cfg.account), cfg.lots, t.at);
      l.id == |s.lots| + 1 && l.openedAt == t.at && l.avgBuyPrice == t.price && Lots.Owing(l)
        && l.recoveredSellQty == 0.0
  {
    hide Times, Over;
  }

  /** Whether selling the order at its price, net of the fee, gives the lot its principal back. */
  predicate Completes(s: Soak, cfg: SoakCfg, o: Order, i: nat)
    requires i < |s.lots|
  {
    var net := o.price - Times(FeeRate(cfg.account), o.price);
    s.lots[i].usdtRecovered + Times(o.quantity, net) >= Times(Pct(cfg), s.lots[i].usdtSpent) - Lots.EPS
  }

  /**
   * What a recovery aimed at lot `i` does to the lots: that lot alone moves, nothing is left unattributed, and what the
   * lot still holds becomes surplus exactly when its principal is back.
   */
  lemma AimedRecovery(s: Soak, cfg: SoakCfg, o: Order, t: PaperTrade, i: nat)
    requires CfgOk(cfg) && Stock(s, cfg) && AimedAt(s, o, i)
    requires t.size == o.quantity > Lots.EPS && t.price == o.price > 0.0 && t.cycleIds == o.cycleIds
    ensures var sale := RecoverySale(s, cfg, t);
      && !Lots.Unallocated(sale, t.cycleIds)
      && Lots.AllSound(sale.lots) && Lots.LotsInOrder(sale.lots)
      && Lots.HeldZig(sale.lots) == Lots.HeldZig(s.lots) - t.size
      && SurplusAdded(s, cfg, t) == (if Completes(s, cfg, o, i) then Lots.Held(s.lots[i]) - o.quantity else 0.0) >= 0.0
  {
    hide Times, Over, Lots.LotsInOrder, Lots.Sell, Lots.Recover;
    var fee := FeeUsdt(t, cfg.account);
    var pct := Pct(cfg);
    NetPricePositive(t, cfg);
    var net, per := Lots.NetPrice(t.size, t.price, fee), Lots.PerQty(fee, t.size);
    DistinctLots(s.lots, i);
    Lots.AimedSell(s.lots, t.size, t.price, fee, pct, i);
    Lots.SellConserves(s.lots, t.size, t.price, fee, t.cycleIds, pct);
    Lots.SellKeepsOrder(s.lots, t.size, t.price, fee, t.cycleIds, pct);
    SumByUpdate(s.lots, i, Lots.Recover(s.lots[i], t.size, net, per, pct), Lots.SurplusOf);
    Lots.RecoverFacts(s.lots[i], t.size, net, per, t.cycleIds, pct);
    RecoveredStatus(s.lots[i], t.size, net, per, pct);
  }

  lemma RecoveredStatus(l: Lots.Lot, share: real, net: real, per: real, pct: real)
    requires share > 0.0 && share <= Lots.Held(l)
    ensures var l' := Lots.Recover(l, share, net, per, pct);
      Lots.SurplusOf(l') == if l.usdtRecovered + Times(share, net) >= Times(pct, l.usdtSpent) - Lots.EPS then
        Lots.Held(l) - share else 0.0
  {
    hide Times;
  }

  lemma DistinctLots(ls: seq<Lots.Lot>, i: nat)
    requires Lots.LotsInOrder(ls) && i < |ls|
    ensures forall k :: 0 <= k < |ls| && k != i ==> ls[k].id != ls[i].id
  {
  }

  lemma RecoveryCustody(s: Soak, cfg: SoakCfg, o: Order, at: int, regime: Option<Regime>, tag: string)
    requires CfgOk(cfg) && Custody(s, cfg) && Pending(s, cfg, o) && o.reason == AccRecovery
    ensures var out := AfterFill(s, cfg, o, at, regime, tag); !out.threw && Custody(out.soak, cfg)
  {
    BackedCovers(s, cfg);
    hide Times, Over, AfterFill, Lots.HeldZig, Lots.SurplusZig, RecoverySale, Lots.Unallocated, Completes, NothingSold,
      HarvestCycles.UnrecoveredTotal, UnrecoveredCap;
    RecoveryFill(s, cfg, o, at, regime, tag);
    LotsAreStock(s, cfg);
    var i: nat :| AimedAt(s, o, i);
    var t := TradeOf(o, Whole(o, at, regime, tag));
    AimedRecovery(s, cfg, o, t, i);
    assert FillProblem(s.account, cfg.account, t) == None;
    LotStockIsOwed(RecoverySale(s, cfg, t).lots);
  }

  // ── Below the floor ──────────────────────────────────────────────────────

  /**
   * The handler on any account: a recovery sell throws exactly when it is more than the active pool, or when it
   * completes its lot and leaves more surplus than the pool that remains can protect. In the second case account, lots
   * and budget have moved by then and the surplus stays unprotected.
   */
  lemma RecoveryThrows(s: Soak, cfg: SoakCfg, o: Order, i: nat, at: int, regime: Option<Regime>, tag: string)
    requires CfgOk(cfg) && Stock(s, cfg) && RecoveryOrder(s, cfg, o) && AimedAt(s, o, i)
    ensures var out := AfterFill(s, cfg, o, at, regime, tag);
      var kept := ProtectedZig(s.account, cfg.account);
      var tooMuch := o.quantity > ActiveZig(s.account, cfg.account) + RESERVE_TOLERANCE;
      var left := Lots.Held(s.lots[i]) - o.quantity;
      var unprotected := Completes(s, cfg, o, i)
        && left > Max(s.account.zig - o.quantity - kept, 0.0) + SURPLUS_TOLERANCE;
      && (out.threw <==> tooMuch || unprotected)
      && (tooMuch ==> out.soak == s)
      && (!tooMuch && unprotected ==>
           && out.soak.account.zig == s.account.zig - o.quantity
           && Lots.HeldZig(out.soak.lots) == Lots.HeldZig(s.lots) - o.quantity
           && Lots.SurplusZig(out.soak.lots) == Lots.SurplusZig(s.lots) + left
           && out.soak.account.protectedSurplus == s.account.protectedSurplus)
  {
    hide Times, Over, AfterFill, Lots.HeldZig, Lots.SurplusZig, RecoverySale, Lots.Unallocated, Completes;
    RecoveryFill(s, cfg, o, at, regime, tag);
    LotsAreStock(s, cfg);
    AimedRecovery(s, cfg, o, TradeOf(o, Whole(o, at, regime, tag)), i);
  }

  /**
   * With one owing lot and nothing else, under any floor worth the name, a sell that completes the lot with stock left
   * over throws.
   */
  lemma LoneLotThrows(s: Soak, cfg: SoakCfg, o: Order, at: int, regime: Option<Regime>, tag: string)
    requires CfgOk(cfg) && Stock(s, cfg) && RecoveryOrder(s, cfg, o) && |s.lots| == 1 && AimedAt(s, o, 0)
    requires s.account.zig == Lots.Held(s.lots[0])
    requires cfg.account.reserveFloor - s.account.reserveReleased > SURPLUS_TOLERANCE
    requires Completes(s, cfg, o, 0) && Lots.Held(s.lots[0]) - o.quantity > SURPLUS_TOLERANCE
    ensures AfterFill(s, cfg, o, at, regime, tag).threw
  {
    hide AfterFill, Completes;
    LotsAreStock(s, cfg);
    RecoveryThrows(s, cfg, o, 0, at, regime, tag);
  }
}
