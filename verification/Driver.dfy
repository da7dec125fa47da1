/**
 * The harvest driver and the accumulation engine (backend/src/paper-soak/harvest-driver.ts,
 * backend/src/accumulation/accumulation-engine.ts): which one order, if any, a tick sends.
 */
module Drivers {
  import opened Numeric
  import opened Domain
  import opened Orders
  import opened PaperAccount
  import opened PriceBuckets
  import opened Risk
  import opened Soaks
  import opened SoakBooks
  import opened Desks
  import H = HarvestCycles
  import Lots = AccumulationLots
  import Funds = AccumulationBudget

  datatype Backoff = Backoff(until: int, price: real)

  /**
   * The logarithm of zero lies below all buckets; a negative price has none. As map keys both are like any other id.
   */
  datatype Bucket = Numbered(id: int) | BelowAll | NotANumber

  /** Cooldowns and backoffs of driver and accumulation engine. */
  datatype Memory = Memory(
    sellCooldownUntil: int,
    buyBucketUntil: map<Bucket, int>,
    sellBackoff: Option<Backoff>,
    buyBackoff: Option<Backoff>,
    accCooldownUntil: int,
    accBucketUntil: map<Bucket, int>)

  function Blank(): Memory { Memory(0, map[], None, None, 0, map[]) }

  function BucketOf(price: real, bps: real): Bucket
    requires bps > 0.0
  {
    if price > 0.0 then Numbered(PriceBucketId(price, bps)) else if price == 0.0 then BelowAll else NotANumber
  }

  predicate Unlocked(until: map<Bucket, int>, b: Bucket, now: int) {
    b !in until || now >= until[b]
  }

  /**
   * A backoff ends early once the price has moved a bucket width away from where the order was declined; from a price
   * of zero every move is an infinite one, from a negative price none is large enough.
   */
  predicate MovedAway(price: real, b: Backoff, bps: real) {
    if b.price > 0.0 then Over(Abs(price - b.price), b.price) > Bps(bps) else b.price == 0.0 && price != 0.0
  }

  function Cleared(b: Option<Backoff>, price: real, bps: real): Option<Backoff> {
    if b.Some? && MovedAway(price, b.value, bps) then None else b
  }

  predicate BackedOff(b: Option<Backoff>, now: int) {
    b.Some? && now < b.value.until
  }

  /** Best bid and ask of the soak's market, when both are known and fresh enough to act on. */
  datatype Quote = Quote(bid: real, ask: real, market: Market)

  function QuoteOf(cfg: SoakCfg, env: Env): Option<Quote> {
    var m := VenueOf(env, cfg.exchange).market;
    if m.Some? && m.value.bestBid.Some? && m.value.bestAsk.Some? && !Stale(m.value, env.now)
    then Some(Quote(m.value.bestBid.value, m.value.bestAsk.value, m.value)) else None
  }

  // ── What to do ───────────────────────────────────────────────────────────

  datatype Move = Wait | Rebuy(qty: real, ids: seq<nat>) | Recover(qty: real, lot: nat) | SellHarvest(qty: real)
    | Accumulate(qty: real)

  function DueCycles(s: Soak, env: Env, ask: real): seq<H.HarvestCycle> {
    if env.allowed.harvestRebuy then H.OpenForRebuy(s.account.cycles, ask) else []
  }

  function RebuyMove(s: Soak, mem: Memory, cfg: SoakCfg, env: Env, ask: real): (r: Move)
    requires CfgOk(cfg)
    ensures r.Wait? || r.Rebuy?
  {
    var due := DueCycles(s, env, ask);
    var desired := H.UnrecoveredTotal(due);
    if due != [] && s.account.usdt > 0.0
       && Unlocked(mem.buyBucketUntil, BucketOf(ask, cfg.harvest.buyBucketBps), env.now)
       && !BackedOff(mem.buyBackoff, env.now) && desired >= cfg.risk.minOrderZig
    then Rebuy(desired, CycleIdsOf(due)) else Wait
  }

  function RecoveryMove(s: Soak, cfg: SoakCfg, env: Env, bid: real): (r: Move)
    ensures r.Wait? || r.Recover?
  {
    if !cfg.acc.recoveryEnabled || !env.allowed.accumulationRecoverySell then Wait
    else
      var due := Lots.OpenForRecovery(s.lots, bid, Pct(cfg));
      if due == [] then Wait
      else
        var l := due[0];
        var required := Lots.RecoverySellQty(l.usdtSpent, Pct(cfg), l.usdtRecovered,
          Times(bid, 1.0 - FeeRate(cfg.account)));
        var qty := Min(Lots.Held(l), Max(required, cfg.risk.minOrderZig));
        // a residue below the minimum order is left alone without using up the tick
        if qty <= 0.0 || qty < cfg.risk.minOrderZig then Wait else Recover(qty, l.id)
  }

  predicate BucketOccupied(cs: seq<H.HarvestCycle>, price: real, bps: real)
    requires bps > 0.0
  {
    BucketOf(price, bps) != NotANumber &&
    exists i :: 0 <= i < |cs| && cs[i].status != H.Completed
      && BucketOf(cs[i].sellIntentPrice, bps) == BucketOf(price, bps)
  }

  /** The highest price a cycle that is still out was sold at. */
  function HighestOut(cs: seq<H.HarvestCycle>): (r: Option<real>)
    ensures r.Some? ==> forall i :: 0 <= i < |cs| && cs[i].status != H.Completed ==> cs[i].avgSellPrice <= r.value
    ensures r.None? ==> forall i :: 0 <= i < |cs| ==> cs[i].status == H.Completed
  {
    if cs == [] then None
    else
      var rest := HighestOut(cs[1..]);
      assert forall i :: 1 <= i < |cs| ==> cs[i] == cs[1..][i - 1];
      if cs[0].status == H.Completed then rest else Some(Max(cs[0].avgSellPrice, rest.GetOr(cs[0].avgSellPrice)))
  }

  function Spacing(cfg: SoakCfg, env: Env): real {
    if env.reduced then 2.0 * cfg.harvest.sellBucketBps else cfg.harvest.sellBucketBps
  }

  function SellFloor(s: Soak, cfg: SoakCfg, env: Env): real {
    match HighestOut(s.account.cycles)
    case Some(p) => Times(Width(Spacing(cfg, env)), p)
    case None => 0.0
  }

  /** Harvest stock: the active pool less what is held for lots. */
  function HarvestStock(s: Soak, cfg: SoakCfg): real {
    Max(0.0, ActiveZig(s.account, cfg.account) - (if cfg.accEnabled then LotStock(s) else 0.0))
  }

  function SellMove(s: Soak, mem: Memory, cfg: SoakCfg, env: Env, bid: real, ask: real): (r: Move)
    requires CfgOk(cfg)
    ensures r.Wait? || r.SellHarvest?
  {
    var stock := HarvestStock(s, cfg);
    var room := UnrecoveredCap(s, cfg) - H.UnrecoveredTotal(s.account.cycles);
    if env.allowed.harvestSell && DueCycles(s, env, ask) == []
       && env.now >= mem.sellCooldownUntil
       && !BucketOccupied(s.account.cycles, bid, Spacing(cfg, env)) && bid >= SellFloor(s, cfg, env)
       && !BackedOff(mem.sellBackoff, env.now) && stock >= cfg.risk.minOrderZig && room > 0.0
    then
      var share := Times(Times(stock, cfg.risk.maxOrderActivePct), if env.reduced then 0.5 else 1.0);
      SellHarvest(Min(Max(share, cfg.risk.minOrderZig), room))
    else Wait
  }

  /** USDT an accumulation buy would spend on a budget whose day has been rolled. */
  function Tranche(s: Soak, cfg: SoakCfg, liquidity: real): real {
    var spend := Min(cfg.acc.trancheUsdt,
      Funds.MaxSpend(s.budget, cfg.caps, s.account.usdt, H.RebuyReserve(s.account.cycles)));
    if cfg.acc.liquidityMultiple > 0.0 then Min(Over(liquidity, cfg.acc.liquidityMultiple), spend) else spend
  }

  /** The checks before the budget is asked. */
  predicate MayAccumulate(s: Soak, mem: Memory, cfg: SoakCfg, env: Env, q: Quote)
    requires CfgOk(cfg)
  {
    && env.allowed.accumulationBuy
    && (q.market.regime == Chaotic ==> cfg.acc.allowChaotic) && (q.market.regime == HighVol ==> cfg.acc.allowHighVol)
    && q.market.spreadBps <= cfg.acc.maxSpreadBps && q.market.askLiquidity >= cfg.acc.minLiquidityUsdt
    && env.now >= mem.accCooldownUntil && Unlocked(mem.accBucketUntil, BucketOf(q.ask, cfg.acc.bucketBps), env.now)
    && s.account.usdt > cfg.caps.minUsdtFloor
  }

  function BuyMove(s: Soak, cfg: SoakCfg, q: Quote): (r: Move)
    ensures r.Wait? || r.Accumulate?
  {
    var spend := Tranche(s, cfg, q.market.askLiquidity);
    if spend <= 0.0 then Wait else Accumulate(Affordable(spend, Times(q.ask, 1.0 + FeeRate(cfg.account))))
  }

  /** What the tick decided, and the soak once its budget has been asked. */
  datatype Choice = Choice(move: Move, soak: Soak)

  function Rolled(s: Soak, now: int): Soak { s.(budget := Funds.RollDay(s.budget, now)) }

  /** Obligations are closed before new ones are opened, and one order is sent at most. */
  function Choose(s: Soak, mem: Memory, cfg: SoakCfg, env: Env, q: Quote): Choice
    requires CfgOk(cfg)
  {
    var rebuy := RebuyMove(s, mem, cfg, env, q.ask);
    var recovery := RecoveryMove(s, cfg, env, q.bid);
    var sell := SellMove(s, mem, cfg, env, q.bid, q.ask);
    if rebuy.Rebuy? then Choice(rebuy, s)
    else if cfg.accEnabled && recovery.Recover? then Choice(recovery, s)
    else if sell.SellHarvest? then Choice(sell, s)
    else if cfg.accEnabled && MayAccumulate(s, mem, cfg, env, q) then
      Choice(BuyMove(Rolled(s, env.now), cfg, q), Rolled(s, env.now))
    else Choice(Wait, s)
  }

  function RequestFor(move: Move, cfg: SoakCfg, env: Env, q: Quote): Request
    requires !move.Wait?
  {
    match move
    case Rebuy(qty, ids) => Request(env.uuid, cfg.exchange, cfg.symbol, Buy, true, qty, q.ask, Some(ids), None,
      HarvestRebuy)
    case Recover(qty, lot) => Request(env.uuid, cfg.exchange, cfg.symbol, Sell, true, qty, q.bid, Some([lot]), None,
      AccRecovery)
    case SellHarvest(qty) => Request(env.uuid, cfg.exchange, cfg.symbol, Sell, true, qty, q.bid, None, None,
      HarvestSell)
    case Accumulate(qty) => Request(env.uuid, cfg.exchange, cfg.symbol, Buy, true, qty, q.ask, None, None, AccBuy)
  }

  /** Cooldowns are armed by an accepted order only; a declined harvest order backs its side off. */
  function Remember(mem: Memory, move: Move, accepted: bool, cfg: SoakCfg, env: Env, q: Quote): Memory
    requires CfgOk(cfg)
  {
    var bucket := BucketOf(q.ask, cfg.harvest.buyBucketBps);
    var accBucket := BucketOf(q.ask, cfg.acc.bucketBps);
    match move
    case Wait => mem
    case Recover(_, _) => mem
    case Rebuy(_, _) =>
      if accepted then mem.(buyBucketUntil := mem.buyBucketUntil[bucket := env.now + cfg.harvest.buyCooldownMs])
      else mem.(buyBackoff := Some(Backoff(env.now + cfg.harvest.rejectBackoffMs, q.ask)))
    case SellHarvest(_) =>
      if accepted then mem.(sellCooldownUntil := env.now + cfg.harvest.sellCooldownMs)
      else mem.(sellBackoff := Some(Backoff(env.now + cfg.harvest.rejectBackoffMs, q.bid)))
    case Accumulate(_) =>
      if accepted then mem.(accCooldownUntil := env.now + cfg.acc.cooldownMs,
        accBucketUntil := mem.accBucketUntil[accBucket := env.now + cfg.acc.cooldownMs])
      else mem
  }

  // ── The tick ─────────────────────────────────────────────────────────────

  datatype Trader = Trader(desk: Desk, memory: Memory)

  /** Open paper orders on the soak's exchange: while there is one, the driver waits. */
  function PendingOrders(orders: seq<Order>, cfg: SoakCfg): (r: seq<Order>)
    ensures forall o :: o in r <==> o in orders && o.paper && IsOpen(o) && o.exchange == cfg.exchange
  {
    if orders == [] then [] else
      var rest := PendingOrders(orders[1..], cfg);
      assert orders == [orders[0]] + orders[1..];
      if orders[0].paper && IsOpen(orders[0]) && orders[0].exchange == cfg.exchange then [orders[0]] + rest else rest
  }

  function CancelStale(d: Desk, cfg: SoakCfg, env: Env, pending: seq<Order>): Desk
    decreases |pending|
  {
    if pending == [] then d
    else
      var next := if env.now - pending[0].createdAt > StaleMs(cfg) then Cancel(d, env, pending[0].clientOrderId) else d;
      CancelStale(next, cfg, env, pending[1..])
  }

  function Act(d: Desk, mem: Memory, cfg: SoakCfg, env: Env, q: Quote): Trader
    requires CfgOk(cfg)
  {
    var choice := Choose(d.soak, mem, cfg, env, q);
    var asked := d.(soak := choice.soak);
    if choice.move.Wait? then Trader(asked, mem)
    else
      var r := Submit(asked, cfg, env, RequestFor(choice.move, cfg, env, q));
      Trader(r.desk, Remember(mem, choice.move, r.outcome.Accepted?, cfg, env, q))
  }

  /** The accumulation engine's attempt to buy, on a budget whose day has been rolled. */
  function SendBuy(asked: Desk, mem: Memory, cfg: SoakCfg, env: Env, q: Quote): Trader
    requires CfgOk(cfg)
  {
    var move := BuyMove(asked.soak, cfg, q);
    if move.Wait? then Trader(asked, mem)
    else
      var r := Submit(asked, cfg, env, RequestFor(move, cfg, env, q));
      Trader(r.desk, Remember(mem, move, r.outcome.Accepted?, cfg, env, q))
  }

  function BuyAttempt(d: Desk, mem: Memory, cfg: SoakCfg, env: Env, q: Quote): Trader
    requires CfgOk(cfg)
  {
    if MayAccumulate(d.soak, mem, cfg, env, q) then SendBuy(d.(soak := Rolled(d.soak, env.now)), mem, cfg, env, q)
    else Trader(d, mem)
  }

  function DriverTick(t: Trader, cfg: SoakCfg, env: Env): Trader
    requires CfgOk(cfg)
  {
    var quote := QuoteOf(cfg, env);
    if env.mode != PaperMode || quote.None? then t
    else
      var pending := PendingOrders(t.desk.reg.orders, cfg);
      if pending != [] then t.(desk := CancelStale(t.desk, cfg, env, pending))
      else
        var q := quote.value;
        var mem := t.memory.(sellBackoff := Cleared(t.memory.sellBackoff, q.bid, cfg.harvest.sellBucketBps),
                             buyBackoff := Cleared(t.memory.buyBackoff, q.ask, cfg.harvest.buyBucketBps));
        Act(t.desk, mem, cfg, env, q)
  }
}
