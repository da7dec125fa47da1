/**
 * The virtual treasury of the paper soak (backend/src/paper-soak/virtual-account.ts and rebuy-distance.ts): running
 * balances, the paper fill ledger, protected reserve, daily counters and the harvest book, all moved by one fill.
 */
module PaperAccount {
  import opened Numeric
  import opened Sums
  import opened Domain
  import opened HarvestCycles
  import StableSort
  import Treasury

  const CASH_TOLERANCE: real := 1e-7
  const RESERVE_TOLERANCE: real := 1e-7
  const SURPLUS_TOLERANCE: real := 1e-6

  datatype Distances = Distances(minBps: real, lowVolBps: real, normalVolBps: real, highVolBps: real, chaoticBps: real)

  /** How far below its sell a rebuy waits. Never less than the minimum, whatever the regime. */
  function RebuyDistanceBps(regime: Option<Regime>, d: Distances): (bps: real)
    ensures bps >= d.minBps
  {
    match regime
    case None => d.minBps
    case Some(LowVol) => Max(d.lowVolBps, d.minBps)
    case Some(NormalVol) => Max(d.normalVolBps, d.minBps)
    case Some(HighVol) => Max(d.highVolBps, d.minBps)
    case Some(Chaotic) => Max(d.chaoticBps, d.minBps)
  }

  datatype AccountCfg = AccountCfg(reserveFloor: real, startZig: real, startUsdt: real, takerFeeBps: real,
    distances: Distances)

  datatype Account = Account(
    zig: real,
    usdt: real,
    startingActive: real,
    day: Option<int>,
    dailySellZig: real,
    dailyBuyUsdt: real,
    protectedSurplus: real,
    reserveReleased: real,
    fills: seq<Fill>,
    cycles: seq<HarvestCycle>)

  function FeeRate(cfg: AccountCfg): real { Bps(cfg.takerFeeBps) }

  function ProtectedZig(a: Account, cfg: AccountCfg): real {
    Max(cfg.reserveFloor + a.protectedSurplus - a.reserveReleased, 0.0)
  }

  function ActiveZig(a: Account, cfg: AccountCfg): real {
    Max(a.zig - ProtectedZig(a, cfg), 0.0)
  }

  function Opened(cfg: AccountCfg): Account {
    Account(cfg.startZig, cfg.startUsdt, 0.0, None, 0.0, 0.0, 0.0, 0.0, [], [])
  }

  function OpeningFill(zig: real, entryCost: real, now: int): Fill {
    Fill(OpeningFillId, "PAPER-OPENING", Buy, entryCost, zig, 0.0, FeeInQuote, now)
  }

  function Seed(a: Account, cfg: AccountCfg, entryCost: real, now: int): Account {
    a.(fills := if a.zig > 0.0 && entryCost > 0.0 then a.fills + [OpeningFill(a.zig, entryCost, now)] else a.fills,
       startingActive := ActiveZig(a, cfg))
  }

  // ── Reserve ──────────────────────────────────────────────────────────────

  function Releasable(a: Account, cfg: AccountCfg, qty: real): real {
    if qty <= 0.0 then 0.0 else Min(qty, ProtectedZig(a, cfg))
  }

  function ReleaseReserve(a: Account, cfg: AccountCfg, qty: real): Account {
    a.(reserveReleased := a.reserveReleased + Releasable(a, cfg, qty))
  }

  function Restorable(a: Account, cfg: AccountCfg, qty: real): real {
    if qty <= 0.0 then 0.0
    else Max(Min(Min(qty, a.reserveReleased), Max(a.zig - ProtectedZig(a, cfg), 0.0)), 0.0)
  }

  function ReprotectReserve(a: Account, cfg: AccountCfg, qty: real): Account {
    a.(reserveReleased := a.reserveReleased - Restorable(a, cfg, qty))
  }

  /** Whether `protectSurplus` throws instead of moving anything. */
  predicate InvalidSurplus(a: Account, cfg: AccountCfg, qty: real) {
    qty < 0.0 || qty > ActiveZig(a, cfg) + SURPLUS_TOLERANCE
  }

  function ProtectSurplus(a: Account, qty: real): Account {
    a.(protectedSurplus := a.protectedSurplus + qty)
  }

  /** Released reserve is never more than there is to release. */
  predicate ReserveSound(a: Account, cfg: AccountCfg) {
    0.0 <= a.reserveReleased <= cfg.reserveFloor + a.protectedSurplus
  }

  lemma ReserveStaysSound(a: Account, cfg: AccountCfg, qty: real)
    requires ReserveSound(a, cfg)
    ensures ReserveSound(ReleaseReserve(a, cfg, qty), cfg) && ReserveSound(ReprotectReserve(a, cfg, qty), cfg)
    ensures qty >= 0.0 ==> ReserveSound(ProtectSurplus(a, qty), cfg)
    ensures ProtectedZig(ReleaseReserve(a, cfg, qty), cfg) == ProtectedZig(a, cfg) - Releasable(a, cfg, qty)
    ensures ProtectedZig(ReprotectReserve(a, cfg, qty), cfg) == ProtectedZig(a, cfg) + Restorable(a, cfg, qty)
    // a reload never protects ZIG the account no longer holds
    ensures a.zig >= ProtectedZig(a, cfg) ==> a.zig >= ProtectedZig(ReprotectReserve(a, cfg, qty), cfg)
  {
  }

  /** Giving back what was just released undoes the release exactly when the reserve was fully held before it. */
  lemma ReleaseThenReprotect(a: Account, cfg: AccountCfg, qty: real)
    requires ReserveSound(a, cfg)
    ensures var r := Releasable(a, cfg, qty);
      ReprotectReserve(ReleaseReserve(a, cfg, qty), cfg, r) == a <==> r == 0.0 || a.zig >= ProtectedZig(a, cfg)
  {
  }

  // ── Fills ────────────────────────────────────────────────────────────────

  datatype FillKind = Harvest | Accumulation

  datatype PaperTrade = PaperTrade(
    side: Side,
    size: real,
    price: real,
    at: int,
    kind: FillKind,
    intentPrice: real,
    regime: Option<Regime>,
    cycleIds: CycleIds,
    distanceOverride: Option<real>,
    tag: string)

  datatype FillError = InvalidFill | CashOverdraw | ReserveOverdraw

  datatype FillOutcome = Applied(account: Account) | Refused(error: FillError)

  function Notional(t: PaperTrade): real { Times(t.size, t.price) }
  function FeeUsdt(t: PaperTrade, cfg: AccountCfg): real { Times(FeeRate(cfg), Notional(t)) }

  /** What a buy takes from, and a sell adds to, the cash balance. */
  function BuyCost(t: PaperTrade, cfg: AccountCfg): real { Notional(t) + FeeUsdt(t, cfg) }
  function SellProceeds(t: PaperTrade, cfg: AccountCfg): real { Notional(t) - FeeUsdt(t, cfg) }

  function TradeDistance(t: PaperTrade, cfg: AccountCfg): real {
    t.distanceOverride.GetOr(RebuyDistanceBps(t.regime, cfg.distances))
  }

  function LedgerFill(t: PaperTrade, cfg: AccountCfg): Fill {
    Fill(LedgerFillId(t.at, t.tag), "PAPER", t.side, t.price, t.size, FeeUsdt(t, cfg), FeeInQuote, t.at)
  }

  /** A new day starts the daily counters at zero. */
  function RollDay(a: Account, at: int): Account {
    if a.day == Some(UtcDay(at)) then a else a.(day := Some(UtcDay(at)), dailySellZig := 0.0, dailyBuyUsdt := 0.0)
  }

  function CyclesAfter(cs: seq<HarvestCycle>, t: PaperTrade, cfg: AccountCfg): seq<HarvestCycle> {
    if t.kind == Accumulation then cs
    else if t.side == Sell then
      cs + [NewCycle(|cs| + 1, t.size, t.price, FeeUsdt(t, cfg), t.intentPrice, TradeDistance(t, cfg), t.at)]
    else AfterBuy(cs, t.size, t.price, FeeUsdt(t, cfg), t.cycleIds)
  }

  /** Balances, day counters and fill list after the fill; the harvest book moves separately. */
  function Settled(a: Account, cfg: AccountCfg, t: PaperTrade): Account {
    var b := RollDay(a, t.at);
    var fills := a.fills + [LedgerFill(t, cfg)];
    if t.side == Buy then
      b.(dailyBuyUsdt := b.dailyBuyUsdt + BuyCost(t, cfg), zig := b.zig + t.size, usdt := b.usdt - BuyCost(t, cfg),
        fills := fills)
    else
      b.(dailySellZig := b.dailySellZig + t.size, zig := b.zig - t.size, usdt := b.usdt + SellProceeds(t, cfg),
        fills := fills)
  }

  function FillProblem(a: Account, cfg: AccountCfg, t: PaperTrade): Option<FillError> {
    if t.size <= 0.0 || t.price <= 0.0 then Some(InvalidFill)
    else if t.side == Buy && BuyCost(t, cfg) > a.usdt + CASH_TOLERANCE then Some(CashOverdraw)
    else if t.side == Sell && t.size > ActiveZig(a, cfg) + RESERVE_TOLERANCE then Some(ReserveOverdraw)
    else None
  }

  function ApplyPaperFill(a: Account, cfg: AccountCfg, t: PaperTrade): FillOutcome {
    match FillProblem(a, cfg, t)
    case Some(e) => Refused(e)
    case None => Applied(Settled(a, cfg, t).(cycles := CyclesAfter(a.cycles, t, cfg)))
  }

  // ── The published risk entry ─────────────────────────────────────────────

  datatype PaperLedger = PaperLedger(
    day: Option<int>,
    dailySellZig: real,
    dailyBuyUsdt: real,
    startingActive: real,
    startingUsdt: real,
    protectedZig: real,
    zig: real,
    usdt: real,
    averageCost: Option<real>)

  function Publish(a: Account, cfg: AccountCfg): PaperLedger {
    var avg := Treasury.DeriveTreasury(a.fills, ProtectedZig(a, cfg)).avgCost;
    PaperLedger(a.day, a.dailySellZig, a.dailyBuyUsdt, a.startingActive, cfg.startUsdt, ProtectedZig(a, cfg), a.zig,
      a.usdt,
                if avg == 0.0 then None else Some(avg))
  }

  // ── Running balances refine the fill ledger ──────────────────────────────

  /** Signed, fee-inclusive effect of a fill on cash. The synthetic opening position cost nothing. */
  function CashFlow(f: Fill): real {
    if f.fillId.OpeningFillId? then 0.0
    else if f.side == Buy then -(Times(f.size, f.price) + f.fee)
    else Times(f.size, f.price) - f.fee
  }

  /** Base, cash and time order of the ledger are those of the running balances. */
  ghost predicate LedgerAgrees(a: Account, cfg: AccountCfg) {
    && StableSort.SortedBy(a.fills, FilledAt)
    && Treasury.Fold(a.fills).qty == a.zig
    && a.usdt == cfg.startUsdt + SumBy(a.fills, CashFlow)
  }

  /** Seeding makes ledger and balance agree exactly when it has a cost to open the position with. */
  lemma SeedAgrees(cfg: AccountCfg, entryCost: real, now: int)
    requires cfg.startZig >= 0.0
    ensures LedgerAgrees(Seed(Opened(cfg), cfg, entryCost, now), cfg) <==> cfg.startZig == 0.0 || entryCost > 0.0
  {
    var a := Seed(Opened(cfg), cfg, entryCost, now);
    if cfg.startZig > 0.0 && entryCost > 0.0 {
      assert a.fills == [OpeningFill(cfg.startZig, entryCost, now)];
      FoldSnoc([], a.fills[0]);
      SumByAppend([], a.fills[0], CashFlow);
      assert [] + [a.fills[0]] == a.fills;
    }
  }

  lemma FoldSnoc(fs: seq<Fill>, f: Fill)
    ensures Treasury.Fold(fs + [f]) == Treasury.Step(Treasury.Fold(fs), f)
  {
    assert (fs + [f])[..|fs|] == fs;
  }

  /** A fill keeps ledger and balances in step exactly when it does not sell more than is held. */
  lemma FillAgrees(a: Account, cfg: AccountCfg, t: PaperTrade)
    requires LedgerAgrees(a, cfg) && ApplyPaperFill(a, cfg, t).Applied?
    requires a.fills != [] ==> a.fills[|a.fills| - 1].filledAt <= t.at
    ensures LedgerAgrees(ApplyPaperFill(a, cfg, t).account, cfg) <==> (t.side == Sell ==> t.size <= a.zig)
  {
    hide Times, Over;
    var a' := ApplyPaperFill(a, cfg, t).account;
    FoldSnoc(a.fills, LedgerFill(t, cfg));
    SumByAppend(a.fills, LedgerFill(t, cfg), CashFlow);
    assert StableSort.SortedBy(a'.fills, FilledAt);
  }

  /** The account after a trade that is booked or refused. */
  function AfterTrade(a: Account, cfg: AccountCfg, t: PaperTrade): Account {
    match ApplyPaperFill(a, cfg, t)
    case Applied(a') => a'
    case Refused(_) => a
  }

  function AfterTrades(a: Account, cfg: AccountCfg, ts: seq<PaperTrade>): Account {
    if ts == [] then a else AfterTrade(AfterTrades(a, cfg, ts[..|ts| - 1]), cfg, ts[|ts| - 1])
  }

  /** Trades come in time order, none of them before a fill on the ledger. */
  ghost predicate InOrder(a: Account, ts: seq<PaperTrade>) {
    && (forall i, j :: 0 <= i < j < |ts| ==> ts[i].at <= ts[j].at)
    && (forall i, k :: 0 <= i < |a.fills| && 0 <= k < |ts| ==> a.fills[i].filledAt <= ts[k].at)
  }

  /** What the ledger holds beyond the balance: what was sold without being held. */
  function Oversold(a: Account): real { Treasury.Fold(a.fills).qty - a.zig }

  /** Cash and time order of the ledger agree; its holdings are never negative and never below the balance. */
  ghost predicate CashAgrees(a: Account, cfg: AccountCfg) {
    && StableSort.SortedBy(a.fills, FilledAt)
    && a.usdt == cfg.startUsdt + SumBy(a.fills, CashFlow)
    && Treasury.Fold(a.fills).qty >= 0.0 && Oversold(a) >= 0.0
  }

  /** A trade keeps cash and ledger together and never makes up for what was oversold before. */
  lemma TradeOversells(a: Account, cfg: AccountCfg, t: PaperTrade)
    requires CashAgrees(a, cfg) && forall i :: 0 <= i < |a.fills| ==> a.fills[i].filledAt <= t.at
    ensures var a' := AfterTrade(a, cfg, t);
      && CashAgrees(a', cfg) && Oversold(a') >= Oversold(a)
      && (Oversold(a) == 0.0 ==> (Oversold(a') == 0.0 <==> a'.zig >= 0.0))
      && forall i :: 0 <= i < |a'.fills| ==> a'.fills[i].filledAt <= t.at
  {
    hide Times, Over, Treasury.Step, Treasury.Fold, CyclesAfter, RollDay;
    if ApplyPaperFill(a, cfg, t).Applied? {
      var f := LedgerFill(t, cfg);
      FoldSnoc(a.fills, f);
      LedgerStep(Treasury.Fold(a.fills), cfg, t);
      SumByAppend(a.fills, f, CashFlow);
      RollKeepsBalances(a, t.at);
    }
  }

  lemma LedgerStep(b: Treasury.Basis, cfg: AccountCfg, t: PaperTrade)
    ensures Treasury.Step(b, LedgerFill(t, cfg)).qty == if t.side == Buy then b.qty + t.size
      else Max(b.qty - t.size, 0.0)
    ensures CashFlow(LedgerFill(t, cfg)) == if t.side == Buy then -BuyCost(t, cfg) else SellProceeds(t, cfg)
  {
    hide Times, Over;
  }

  lemma RollKeepsBalances(a: Account, at: int)
    ensures var b := RollDay(a, at); b.zig == a.zig && b.usdt == a.usdt && b.fills == a.fills
  {
  }

  /**
   * The fill ledger refines the running balances over any trades in time order, booked or refused: it agrees with them
   * at the end exactly when no trade ever left the holdings negative.
   */
  lemma {:induction false} LedgerFollowsTrades(a: Account, cfg: AccountCfg, ts: seq<PaperTrade>)
    requires LedgerAgrees(a, cfg) && a.zig >= 0.0 && InOrder(a, ts)
    ensures var end := AfterTrades(a, cfg, ts);
      && CashAgrees(end, cfg)
      && (LedgerAgrees(end, cfg) <==> forall k :: 0 <= k <= |ts| ==> AfterTrades(a, cfg, ts[..k]).zig >= 0.0)
      && (ts != [] ==> forall i :: 0 <= i < |end.fills| ==> end.fills[i].filledAt <= ts[|ts| - 1].at)
  {
    hide AfterTrade, Oversold;
    if ts == [] {
      assert Oversold(a) == 0.0 by { AgreesIffNotOversold(a, cfg); }
    } else {
      var front, t := ts[..|ts| - 1], ts[|ts| - 1];
      var before := AfterTrades(a, cfg, front);
      LedgerFollowsTrades(a, cfg, front);
      TradeOversells(before, cfg, t);
      AgreesIffNotOversold(before, cfg);
      AgreesIffNotOversold(AfterTrades(a, cfg, ts), cfg);
      assert ts[..|ts|] == ts;
      forall k | 0 <= k <= |front|
        ensures ts[..k] == front[..k]
      {
      }
    }
  }

  lemma AgreesIffNotOversold(a: Account, cfg: AccountCfg)
    ensures CashAgrees(a, cfg) ==> (LedgerAgrees(a, cfg) <==> Oversold(a) == 0.0)
    ensures LedgerAgrees(a, cfg) && a.zig >= 0.0 ==> CashAgrees(a, cfg)
  {
  }

  /** While the ledger agrees, the derived treasury and the published entry both show the running balances. */
  lemma DerivedAndPublishedAgree(a: Account, cfg: AccountCfg)
    requires LedgerAgrees(a, cfg)
    ensures Treasury.DeriveTreasury(a.fills, ProtectedZig(a, cfg)).totalBase == a.zig == Publish(a, cfg).zig
    ensures Treasury.DeriveTreasury(a.fills, ProtectedZig(a, cfg)).activeBase == ActiveZig(a, cfg)
    ensures Publish(a, cfg).usdt == cfg.startUsdt + SumBy(a.fills, CashFlow)
  {
    StableSort.SortIsIdentity(a.fills, FilledAt);
  }

  // ── Daily counters refine the fill ledger ────────────────────────────────

  function SoldOnDay(day: int): Fill -> real {
    (f: Fill) => if f.side == Sell && UtcDay(f.filledAt) == day then f.size else 0.0
  }

  function BoughtOnDay(day: int): Fill -> real {
    (f: Fill) =>
      if f.side == Buy && !f.fillId.OpeningFillId? && UtcDay(f.filledAt) == day then Times(f.size, f.price) + f.fee
      else 0.0
  }

  function SoldOn(fs: seq<Fill>, day: int): real { SumBy(fs, SoldOnDay(day)) }
  function BoughtOn(fs: seq<Fill>, day: int): real { SumBy(fs, BoughtOnDay(day)) }

  /** The day counters are the day's fills; no executed fill is later than the counters' day. */
  ghost predicate DayBooks(a: Account) {
    && (a.day.Some? ==>
          a.dailySellZig == SoldOn(a.fills, a.day.value) && a.dailyBuyUsdt == BoughtOn(a.fills, a.day.value))
    && (forall i :: 0 <= i < |a.fills| && !a.fills[i].fillId.OpeningFillId? ==>
         a.day.Some? && UtcDay(a.fills[i].filledAt) <= a.day.value)
    && (forall i :: 0 <= i < |a.fills| && a.fills[i].fillId.OpeningFillId? ==> a.fills[i].side == Buy)
  }

  /** A day the counters have not reached has no sales and no purchases. */
  lemma {:induction false} QuietDay(fs: seq<Fill>, day: int)
    requires forall i :: 0 <= i < |fs| && !fs[i].fillId.OpeningFillId? ==> UtcDay(fs[i].filledAt) != day
    requires forall i :: 0 <= i < |fs| && fs[i].fillId.OpeningFillId? ==> fs[i].side == Buy
    ensures SoldOn(fs, day) == 0.0 && BoughtOn(fs, day) == 0.0
  {
    if fs != [] {
      QuietDay(fs[1..], day);
    }
  }

  /** With a clock that does not run backwards the counters keep equal to the day's fills; other days are untouched. */
  lemma FillKeepsDayBooks(a: Account, cfg: AccountCfg, t: PaperTrade)
    requires DayBooks(a) && ApplyPaperFill(a, cfg, t).Applied?
    requires a.day.Some? ==> a.day.value <= UtcDay(t.at)
    ensures DayBooks(ApplyPaperFill(a, cfg, t).account)
    ensures forall d :: d != UtcDay(t.at) ==>
      SoldOn(ApplyPaperFill(a, cfg, t).account.fills, d) == SoldOn(a.fills, d)
      && BoughtOn(ApplyPaperFill(a, cfg, t).account.fills, d) == BoughtOn(a.fills, d)
  {
    hide Times, Over;
    var f := LedgerFill(t, cfg);
    var today := UtcDay(t.at);
    if a.day != Some(today) {
      QuietDay(a.fills, today);
    }
    forall d
      ensures SoldOn(a.fills + [f], d) == SoldOn(a.fills, d) + SoldOnDay(d)(f)
      ensures BoughtOn(a.fills + [f], d) == BoughtOn(a.fills, d) + BoughtOnDay(d)(f)
    {
      SumByAppend(a.fills, f, SoldOnDay(d));
      SumByAppend(a.fills, f, BoughtOnDay(d));
    }
  }
}
