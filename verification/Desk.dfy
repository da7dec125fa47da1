/**
 * The paper trading desk: execution pipeline, paper engine, registry and soak as one step system
 * (backend/src/execution-engine/pipeline.ts, paper-engine.ts and the fill handler of backend/src/main.ts). A step reads
 * everything outside the desk from its environment.
 */
module Desks {
  import opened Numeric
  import opened Domain
  import opened Orders
  import opened PaperAccount
  import opened Risk
  import opened Soaks
  import Lots = AccumulationLots

  /** The idempotency buffer is swept once it holds this many ids. */
  const PRUNE_SUBMITTED_AT: nat := 1_000

  datatype Answer = Accepts | Refuses | Throws

  /**
   * What one step sees: clock, mode, markets, the zone's permissions and aggression, whether the soak runs, a live
   * adapter if any, which paper orders chance lets fill, and the random texts it may draw.
   */
  datatype Env = Env(
    now: int,
    mode: Mode,
    bybit: Venue,
    mexc: Venue,
    allowed: AllowedActions,
    reduced: bool,
    active: bool,
    live: Option<Answer>,
    lucky: set<OrderId>,
    uuid: string,
    tag: string)

  function VenueOf(env: Env, ex: Exchange): Venue {
    match ex case Bybit => env.bybit case Mexc => env.mexc
  }

  /**
   * `resting` holds the paper engine's map in insertion order, by id: its entries are the registry's own order objects.
   * `placed` records every order handed to an adapter.
   */
  datatype Desk = Desk(soak: Soak, reg: Registry, resting: seq<OrderId>, submitted: set<OrderId>, placed: seq<OrderId>)

  /** The paper risk entry of an exchange: the soak publishes its own. */
  function LedgerFor(d: Desk, cfg: SoakCfg, ex: Exchange): Option<PaperLedger> {
    if ex == cfg.exchange then Some(Publish(d.soak.account, cfg.account)) else None
  }

  function Decide(d: Desk, cfg: SoakCfg, env: Env, req: Request, others: seq<Order>): Decision {
    Evaluate(req, env.mode, VenueOf(env, req.exchange), LedgerFor(d, cfg, req.exchange), others, cfg.risk, env.now)
  }

  // ── Fill guard ───────────────────────────────────────────────────────────

  /** A resting order as the request the guard has re-evaluated: what is left of it, at its price. */
  function AsRequest(o: Order): Request {
    Request(o.requestId, o.exchange, o.symbol, o.side, true, Remaining(o), o.price, o.cycleIds, o.rebuyDistanceBps,
      o.reason)
  }

  function Without(orders: seq<Order>, id: OrderId): seq<Order> {
    if orders == [] then []
    else (if orders[0].clientOrderId != id then [orders[0]] else []) + Without(orders[1..], id)
  }

  predicate Guard(d: Desk, cfg: SoakCfg, env: Env, o: Order) {
    && env.mode == PaperMode
    && env.active && o.exchange == cfg.exchange && o.symbol == cfg.symbol
    && PendingAllowed(o, env.allowed, d.soak, cfg, env.now)
    && Approves(Decide(d, cfg, env, AsRequest(o), Without(OpenOrders(d.reg.orders), o.clientOrderId)))
  }

  // ── Paper engine ─────────────────────────────────────────────────────────

  function Slip(side: Side, price: real, bps: real): real {
    if bps <= 0.0 then price
    else if side == Sell then Times(price, 1.0 - Bps(bps)) else Times(price, 1.0 + Bps(bps))
  }

  /** Adverse slippage lowers the chance of a fill; it never moves the fill price. */
  predicate Marketable(cfg: SoakCfg, env: Env, o: Order) {
    var m := VenueOf(env, o.exchange).market;
    m.Some? && m.value.bestBid.Some? && m.value.bestAsk.Some? &&
    if o.side == Sell then Slip(Sell, m.value.bestBid.value, cfg.risk.paperSlippageBps) >= o.price
    else Slip(Buy, m.value.bestAsk.value, cfg.risk.paperSlippageBps) <= o.price
  }

  predicate Fills(cfg: SoakCfg, env: Env, o: Order) {
    Marketable(cfg, env, o) && o.clientOrderId in env.lucky
  }

  function Remove(ids: seq<OrderId>, id: OrderId): seq<OrderId> {
    if ids == [] then [] else (if ids[0] != id then [ids[0]] else []) + Remove(ids[1..], id)
  }

  function Emit(d: Desk, ev: OrderEvent): Desk {
    d.(reg := ApplyEvent(d.reg, ev))
  }

  function FillOf(o: Order, now: int): OrderEvent {
    OrderEvent(FillReport(Some(PaperFillId(o.clientOrderId, now)), Some(o.price), Some(Remaining(o))),
      o.clientOrderId, now)
  }

  function RegimeNow(cfg: SoakCfg, env: Env): Option<Regime> {
    var m := VenueOf(env, cfg.exchange).market;
    if m.Some? then Some(m.value.regime) else None
  }

  /** A handler's exception travels up to the caller with the state it left behind. */
  datatype Delivered = Delivered(desk: Desk, threw: bool)

  /**
   * One simulated fill of the whole remainder at the limit price: registry first, then the soak, unless it is a
   * duplicate.
   */
  function DeliverFill(d: Desk, cfg: SoakCfg, env: Env, o: Order): Delivered
    requires CfgOk(cfg)
  {
    var ev := FillOf(o, env.now);
    if Remaining(o) <= 0.0 then Delivered(d, false)
    else if !Announces(d.reg, ev) then Delivered(Emit(d, ev), false)
    else
      var news := FillNews(ev.kind.fillQuantity, ev.kind.fillPrice, ev.at, RegimeNow(cfg, env), env.tag);
      var after := OnPaperFill(d.soak, cfg, o, news);
      Delivered(Emit(d, ev).(soak := after.soak), after.threw)
  }

  datatype Placed = Placed(desk: Desk, answer: Answer)

  function OrderOf(d: Desk, id: OrderId): Order
    requires Has(d.reg, id)
  {
    d.reg.orders[Find(d.reg.orders, id)]
  }

  /** The paper adapter takes a new order: refused by the guard, filled at once, or left resting. */
  function PlaceOnPaper(d: Desk, cfg: SoakCfg, env: Env, o: Order): Placed
    requires CfgOk(cfg)
  {
    if !Guard(d, cfg, env, o) then Placed(d, Refuses)
    else
      var acked := Emit(d, OrderEvent(EventKind.Opened, o.clientOrderId, env.now));
      if Fills(cfg, env, o) then
        var f := DeliverFill(acked, cfg, env, o);
        Placed(f.desk, if f.threw then Throws else Accepts)
      else
        Placed(acked.(resting := acked.resting + [o.clientOrderId]), Accepts)
  }

  function CancelOnPaper(d: Desk, env: Env, id: OrderId): Desk {
    if id in d.resting then Emit(d.(resting := Remove(d.resting, id)), OrderEvent(CancelReport, id, env.now)) else d
  }

  /** One resting order at a market update. */
  function TickOne(d: Desk, cfg: SoakCfg, env: Env, id: OrderId): Delivered
    requires CfgOk(cfg)
  {
    if !Has(d.reg, id) then Delivered(d, false)
    else
      var o := OrderOf(d, id);
      if !Guard(d, cfg, env, o) then Delivered(CancelOnPaper(d, env, id), false)
      else if Fills(cfg, env, o) then DeliverFill(d.(resting := Remove(d.resting, id)), cfg, env, o)
      else Delivered(d, false)
  }

  /** A market update visits every order that was resting when it began; an exception ends the visit. */
  function TickOver(d: Desk, cfg: SoakCfg, env: Env, ids: seq<OrderId>): Delivered
    requires CfgOk(cfg)
    decreases |ids|
  {
    if ids == [] then Delivered(d, false)
    else
      var first := TickOne(d, cfg, env, ids[0]);
      if first.threw then first else TickOver(first.desk, cfg, env, ids[1..])
  }

  function EngineTick(d: Desk, cfg: SoakCfg, env: Env): Delivered
    requires CfgOk(cfg)
  {
    TickOver(d, cfg, env, d.resting)
  }

  // ── Pipeline ─────────────────────────────────────────────────────────────

  predicate Crosses(o: Order, req: Request) {
    && o.exchange == req.exchange && o.symbol == req.symbol && o.side != req.side
    && (if req.side == Buy then req.price >= o.price else req.price <= o.price)
  }

  predicate SelfTrade(open: seq<Order>, req: Request) {
    exists i :: 0 <= i < |open| && Crosses(open[i], req)
  }

  datatype Stage = AtRisk | AtIdempotency | AtAdapter

  datatype Submission = Accepted(order: OrderId) | Declined(stage: Stage)

  datatype SubmitResult = SubmitResult(desk: Desk, outcome: Submission, halted: bool)

  function ClientOrderId(req: Request): OrderId { "zig-" + req.requestId }

  function Ids(r: Registry): set<OrderId> {
    set o | o in r.orders :: o.clientOrderId
  }

  function Prune(d: Desk): Desk {
    if |d.submitted| < PRUNE_SUBMITTED_AT then d else d.(submitted := d.submitted - Ids(d.reg))
  }

  function FinalRequest(req: Request, risk: Decision): Request {
    if risk.verdict == Reduce then req.(quantity := risk.approvedQty) else req
  }

  /** The order goes on the books and to an adapter's door. */
  function Enter(d: Desk, req: Request, id: OrderId, paper: bool, now: int): Desk {
    d.(submitted := d.submitted + {id}, placed := d.placed + [id],
       reg := Transition(Put(d.reg, NewOrder(req, id, paper, now)), id, Submitted))
  }

  /** The adapter's answer on the books. */
  function Answered(d: Desk, id: OrderId, answer: Answer): SubmitResult {
    match answer
    case Accepts => SubmitResult(d, Accepted(id), false)
    case Refuses => SubmitResult(d.(reg := Transition(d.reg, id, Status.Rejected)), Declined(AtAdapter), false)
    case Throws => SubmitResult(d.(reg := Transition(d.reg, id, Failed)), Declined(AtAdapter), false)
  }

  function Place(d: Desk, cfg: SoakCfg, env: Env, req: Request, id: OrderId): SubmitResult
    requires CfgOk(cfg)
  {
    var paper := env.mode == PaperMode;
    if !paper && env.live.None? then SubmitResult(d, Declined(AtAdapter), false)
    else
      var entered := Enter(d, req, id, paper, env.now);
      if paper then
        var p := PlaceOnPaper(entered, cfg, env, NewOrder(req, id, paper, env.now).(status := Submitted));
        Answered(p.desk, id, p.answer)
      else Answered(entered, id, env.live.value)
  }

  function Submit(d: Desk, cfg: SoakCfg, env: Env, req: Request): SubmitResult
    requires CfgOk(cfg)
  {
    var open := OpenOrders(d.reg.orders);
    if SelfTrade(open, req) then SubmitResult(d, Declined(AtRisk), false)
    else
      var risk := Decide(d, cfg, env, req, open);
      if !Approves(risk) then SubmitResult(d, Declined(AtRisk), risk.verdict == HaltTrading)
      else
        var id := ClientOrderId(req);
        if id in d.submitted || Has(d.reg, id) then SubmitResult(d, Declined(AtIdempotency), false)
        else Place(Prune(d), cfg, env, FinalRequest(req, risk), id)
  }

  /** Cancelling a live order only asks: its confirmation is a later event. */
  function Cancel(d: Desk, env: Env, id: OrderId): Desk {
    if !Has(d.reg, id) || (!OrderOf(d, id).paper && env.live.None?) then d
    else
      var asked := d.(reg := Transition(d.reg, id, CancelPending));
      if OrderOf(d, id).paper then CancelOnPaper(asked, env, id) else asked
  }

  /** Pruning can never be observed: every id it drops is one the registry answers for. */
  lemma PruneUnobservable(d: Desk, id: OrderId)
    ensures id in Prune(d).submitted || Has(Prune(d).reg, id) <==> id in d.submitted || Has(d.reg, id)
  {
    if id in Ids(d.reg) {
      var o :| o in d.reg.orders && o.clientOrderId == id;
    }
  }

  /** Simulated slippage only ever delays a fill: whatever fills, the market was at its limit or through it. */
  lemma SlippageOnlyDelays(cfg: SoakCfg, env: Env, o: Order)
    requires Fills(cfg, env, o) && 0.0 <= cfg.risk.paperSlippageBps <= 10_000.0
    requires var m := VenueOf(env, o.exchange).market;
      m.Some? && m.value.bestBid.GetOr(0.0) >= 0.0 && m.value.bestAsk.GetOr(0.0) >= 0.0
    ensures var m := VenueOf(env, o.exchange).market.value;
      m.bestBid.Some? && m.bestAsk.Some?
        && if o.side == Sell then m.bestBid.value >= o.price else m.bestAsk.value <= o.price
  {
    var m := VenueOf(env, o.exchange).market.value;
    var bps := cfg.risk.paperSlippageBps;
    hide Times;
    TimesOne(m.bestBid.value);
    TimesOne(m.bestAsk.value);
    TimesMono(1.0 - Bps(bps), 1.0, m.bestBid.value);
    TimesMono(1.0, 1.0 + Bps(bps), m.bestAsk.value);
  }

  /** What an order is allowed to be when the guard lets it fill. */
  predicate ZoneAllows(o: Order, allowed: AllowedActions) {
    match o.reason
    case HarvestSell => allowed.harvestSell
    case HarvestRebuy => allowed.harvestRebuy
    case AccBuy => allowed.accumulationBuy
    case AccRecovery => allowed.accumulationRecoverySell
    case Other(_) => false
  }

  /** The guard lets nothing fill outside paper mode, on another market, against the zone, or once it is stale. */
  lemma GuardIsStrict(d: Desk, cfg: SoakCfg, env: Env, o: Order)
    requires Guard(d, cfg, env, o)
    ensures env.mode == PaperMode && env.active && o.exchange == cfg.exchange && o.symbol == cfg.symbol
    ensures ZoneAllows(o, env.allowed) && env.now - o.createdAt <= StaleMs(cfg)
  {
    hide Decide, ActiveZig, LotStock, SumUnrecovered, Lots.HeldZig;
  }

  /** A harvest sell that passes the guard fits the active pool, so the account never refuses it for its reserve. */
  lemma GuardedSellFits(d: Desk, cfg: SoakCfg, env: Env, o: Order, t: PaperTrade)
    requires Guard(d, cfg, env, o) && o.reason == HarvestSell
      && Lots.HeldZig(d.soak.lots) >= Lots.SurplusZig(d.soak.lots)
    requires t.side == o.side == Sell && t.size == Remaining(o) > 0.0 && t.price > 0.0
    ensures FillProblem(d.soak.account, cfg.account, t) == None
  {
    hide Decide, ActiveZig, Lots.HeldZig, Lots.SurplusZig, Times;
  }
}
