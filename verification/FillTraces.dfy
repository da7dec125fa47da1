/**
 * The fills one step hands to the soak, in the order it hears of them
 * (backend/src/execution-engine/paper-engine.ts:50-62, 77-85): a submission delivers one at most, a market update one
 * for each resting order it visits.
 */
module FillTraces {
  import opened Numeric
  import opened Domain
  import opened Orders
  import opened PaperAccount
  import opened Risk
  import opened Soaks
  import opened Desks
  import opened DeskSteps
  import opened Settlement
  import opened DeskRuns

  /** A fill on its way to the soak: the books it meets, the order and the news. */
  datatype Filling = Filling(soak: Soak, order: Order, news: FillNews)

  function Booked(f: Filling, cfg: SoakCfg): Outcome
    requires CfgOk(cfg)
  {
    OnPaperFill(f.soak, cfg, f.order, f.news)
  }

  function OnDelivery(d: Desk, cfg: SoakCfg, env: Env, o: Order): seq<Filling> {
    var ev := FillOf(o, env.now);
    if Remaining(o) <= 0.0 || !Announces(d.reg, ev) then []
    else [Filling(d.soak, o, FillNews(ev.kind.fillQuantity, ev.kind.fillPrice, ev.at, RegimeNow(cfg, env), env.tag))]
  }

  function OnVisit(d: Desk, cfg: SoakCfg, env: Env, id: OrderId): seq<Filling> {
    if !Has(d.reg, id) || !Guard(d, cfg, env, OrderOf(d, id)) || !Fills(cfg, env, OrderOf(d, id)) then []
    else OnDelivery(d.(resting := Remove(d.resting, id)), cfg, env, OrderOf(d, id))
  }

  function OnUpdate(d: Desk, cfg: SoakCfg, env: Env, ids: seq<OrderId>): seq<Filling>
    requires CfgOk(cfg)
    decreases |ids|
  {
    if ids == [] then []
    else
      var first := TickOne(d, cfg, env, ids[0]);
      OnVisit(d, cfg, env, ids[0]) + (if first.threw then [] else OnUpdate(first.desk, cfg, env, ids[1..]))
  }

  function OnPlacement(d: Desk, cfg: SoakCfg, env: Env, req: Request, id: OrderId): seq<Filling> {
    var sent := NewOrder(req, id, true, env.now).(status := Submitted);
    var entered := Enter(d, req, id, true, env.now);
    if env.mode == PaperMode && Guard(entered, cfg, env, sent) && Fills(cfg, env, sent)
    then OnDelivery(Emit(entered, OrderEvent(EventKind.Opened, id, env.now)), cfg, env, sent) else []
  }

  function OnArrival(d: Desk, cfg: SoakCfg, env: Env, req: Request): seq<Filling> {
    var open := OpenOrders(d.reg.orders);
    var risk := Decide(d, cfg, env, req, open);
    var id := ClientOrderId(req);
    if SelfTrade(open, req) || !Approves(risk) || id in d.submitted || Has(d.reg, id) then []
    else OnPlacement(Prune(d), cfg, env, FinalRequest(req, risk), id)
  }

  function Fillings(d: Desk, cfg: SoakCfg, s: Step): seq<Filling>
    requires CfgOk(cfg)
  {
    match s
    case SubmitOrder(env, request) => OnArrival(d, cfg, env, request)
    case MarketUpdate(env) => OnUpdate(d, cfg, env, d.resting)
    case _ => []
  }

  // ── The trace is all the soak hears ──────────────────────────────────────

  /** Booked one after the other, the fills lead from one soak to the other; an exception ends the trace. */
  ghost predicate Leads(s: Soak, cfg: SoakCfg, fs: seq<Filling>, s': Soak, threw: bool)
    requires CfgOk(cfg)
    decreases |fs|
  {
    if fs == [] then s' == s && !threw
    else
      var out := Booked(fs[0], cfg);
      && fs[0].soak == s
      && if out.threw then |fs| == 1 && s' == out.soak && threw else Leads(out.soak, cfg, fs[1..], s', threw)
  }

  lemma DeliveryLeads(d: Desk, cfg: SoakCfg, env: Env, o: Order)
    requires CfgOk(cfg)
    ensures var f := DeliverFill(d, cfg, env, o); Leads(d.soak, cfg, OnDelivery(d, cfg, env, o), f.desk.soak, f.threw)
  {
    hide OnPaperFill, RegimeNow, ApplyEvent;
  }

  lemma VisitLeads(d: Desk, cfg: SoakCfg, env: Env, id: OrderId)
    requires CfgOk(cfg)
    ensures var f := TickOne(d, cfg, env, id); Leads(d.soak, cfg, OnVisit(d, cfg, env, id), f.desk.soak, f.threw)
  {
    hide Guard, Fills, DeliverFill, OnDelivery, Remove, ApplyEvent;
    if Has(d.reg, id) {
      DeliveryLeads(d.(resting := Remove(d.resting, id)), cfg, env, OrderOf(d, id));
    }
  }

  lemma {:induction false} LeadsOn(s: Soak, cfg: SoakCfg, fs: seq<Filling>, mid: Soak, more: seq<Filling>, s': Soak,
      threw: bool)
    requires CfgOk(cfg) && Leads(s, cfg, fs, mid, false) && Leads(mid, cfg, more, s', threw)
    ensures Leads(s, cfg, fs + more, s', threw)
    decreases |fs|
  {
    hide OnPaperFill;
    if fs == [] {
      assert fs + more == more;
    } else {
      LeadsOn(Booked(fs[0], cfg).soak, cfg, fs[1..], mid, more, s', threw);
      assert (fs + more)[1..] == fs[1..] + more;
    }
  }

  lemma {:induction false} UpdateLeads(d: Desk, cfg: SoakCfg, env: Env, ids: seq<OrderId>)
    requires CfgOk(cfg)
    ensures var f := TickOver(d, cfg, env, ids); Leads(d.soak, cfg, OnUpdate(d, cfg, env, ids), f.desk.soak, f.threw)
    decreases |ids|
  {
    hide TickOne, OnVisit, Leads;
    if ids == [] {
      assert Leads(d.soak, cfg, [], d.soak, false) by { LeadsNowhere(d.soak, cfg); }
    } else {
      var first := TickOne(d, cfg, env, ids[0]);
      VisitLeads(d, cfg, env, ids[0]);
      if first.threw {
        assert OnVisit(d, cfg, env, ids[0]) + [] == OnVisit(d, cfg, env, ids[0]);
      } else {
        UpdateLeads(first.desk, cfg, env, ids[1..]);
        var rest := TickOver(first.desk, cfg, env, ids[1..]);
        LeadsOn(d.soak, cfg, OnVisit(d, cfg, env, ids[0]), first.desk.soak, OnUpdate(first.desk, cfg, env, ids[1..]),
          rest.desk.soak, rest.threw);
      }
    }
  }

  lemma LeadsNowhere(s: Soak, cfg: SoakCfg)
    requires CfgOk(cfg)
    ensures Leads(s, cfg, [], s, false)
  {
  }

  lemma PlacementLeads(d: Desk, cfg: SoakCfg, env: Env, req: Request, id: OrderId) returns (threw: bool)
    requires CfgOk(cfg)
    ensures Leads(d.soak, cfg, OnPlacement(d, cfg, env, req, id), Place(d, cfg, env, req, id).desk.soak, threw)
  {
    hide Guard, Fills, DeliverFill, OnDelivery, Transition, Put, ApplyEvent, Leads;
    var sent := NewOrder(req, id, true, env.now).(status := Submitted);
    var acked := Emit(Enter(d, req, id, true, env.now), OrderEvent(EventKind.Opened, id, env.now));
    LeadsNowhere(d.soak, cfg);
    DeliveryLeads(acked, cfg, env, sent);
    threw := env.mode == PaperMode && Guard(Enter(d, req, id, true, env.now), cfg, env, sent) && Fills(cfg, env, sent)
      && DeliverFill(acked, cfg, env, sent).threw;
  }

  /** The fills of a step are all that moves the soak in it, but for a band that releases or reprotects reserve. */
  lemma FillingsLead(d: Desk, cfg: SoakCfg, s: Step) returns (threw: bool)
    requires CfgOk(cfg) && !s.ReleaseBand? && !s.ReprotectBand?
    ensures Leads(d.soak, cfg, Fillings(d, cfg, s), Take(d, cfg, s).soak, threw)
    ensures s.MarketUpdate? ==> threw == EngineTick(d, cfg, s.env).threw
  {
    hide OnPlacement, Place, OnUpdate, TickOver, Decide, SelfTrade, Leads, Transition, ApplyEvent, Remove,
      OrderRecovery.Pass, FromExchange;
    LeadsNowhere(d.soak, cfg);
    threw := false;
    match s {
      case SubmitOrder(env, req) =>
        var open := OpenOrders(d.reg.orders);
        var risk := Decide(d, cfg, env, req, open);
        var id := ClientOrderId(req);
        if !(SelfTrade(open, req) || !Approves(risk) || id in d.submitted || Has(d.reg, id)) {
          threw := PlacementLeads(Prune(d), cfg, env, FinalRequest(req, risk), id);
        }
      case MarketUpdate(env) =>
        UpdateLeads(d, cfg, env, d.resting);
        threw := EngineTick(d, cfg, env).threw;
      case _ =>
    }
  }

  // ── A lone order ─────────────────────────────────────────────────────────

  /** No order is open, and nothing on the desk bears the id. */
  ghost predicate Quiet(d: Desk, id: OrderId) {
    && OpenOrders(d.reg.orders) == [] && !Has(d.reg, id) && id !in d.submitted
    && forall at :: PaperFillId(id, at) !in d.reg.appliedFills
  }

  lemma {:induction false} OpenAppend(orders: seq<Order>, o: Order)
    ensures OpenOrders(orders + [o]) == OpenOrders(orders) + (if IsOpen(o) then [o] else [])
  {
    hide IsOpen;
    if orders == [] {
      assert orders + [o] == [o];
    } else {
      assert (orders + [o])[1..] == orders[1..] + [o];
      OpenAppend(orders[1..], o);
    }
  }

  lemma LoneGuard(d: Desk, cfg: SoakCfg, env: Env, req: Request, orders: seq<Order>, o: Order)
    requires d.reg.orders == orders + [o] && OpenOrders(orders) == [] && IsOpen(o)
    requires Remaining(o) == req.quantity && o.requestId == req.requestId
    requires SubmittedAs(req, env, o) && req.isLimit && env.mode == PaperMode && env.active
    requires req.exchange == cfg.exchange && req.symbol == cfg.symbol && Approves(Decide(d, cfg, env, req, []))
    requires PendingAllowed(o, env.allowed, d.soak, cfg, env.now)
    ensures Guard(d, cfg, env, o)
  {
    hide Evaluate, PendingAllowed, Publish, IsOpen;
    assert AsRequest(o) == req;
    OpenAppend(orders, o);
    assert [] + [o] == [o] && [o][1..] == [] && Without([], o.clientOrderId) == [];
    assert Without([o], o.clientOrderId) == [];
  }

  /** What a lone order needs to pass on paper: the gate lets all of it through and the zone allows it. */
  ghost predicate Passes(d: Desk, cfg: SoakCfg, env: Env, req: Request, o: Order) {
    && Quiet(d, ClientOrderId(req)) && env.mode == PaperMode && env.active
    && req.isLimit && req.quantity > FULL_TOLERANCE && req.price > 0.0
    && req.exchange == cfg.exchange && req.symbol == cfg.symbol
    && o == NewOrder(req, ClientOrderId(req), true, env.now).(status := Submitted)
    && Decide(d, cfg, env, req, []).verdict == Allow && PendingAllowed(o, env.allowed, d.soak, cfg, env.now)
  }

  lemma LoneOrder(d: Desk, cfg: SoakCfg, env: Env, req: Request, o: Order)
    requires CfgOk(cfg) && Passes(d, cfg, env, req, o)
    ensures Guard(Enter(Prune(d), req, ClientOrderId(req), true, env.now), cfg, env, o)
    ensures Submit(d, cfg, env, req).desk == Place(Prune(d), cfg, env, req, ClientOrderId(req)).desk
    ensures OnArrival(d, cfg, env, req) == OnPlacement(Prune(d), cfg, env, req, ClientOrderId(req))
  {
    hide Evaluate, Publish, PendingAllowed, Guard, Place, OnPlacement;
    EnterShape(Prune(d), req, ClientOrderId(req), true, env.now);
    LoneGuard(Enter(Prune(d), req, ClientOrderId(req), true, env.now), cfg, env, req, d.reg.orders, o);
  }

  /** A lone order that passes fills on arrival when it is marketable. */
  lemma LoneOrderFills(d: Desk, cfg: SoakCfg, env: Env, req: Request, o: Order)
    requires CfgOk(cfg) && Passes(d, cfg, env, req, o) && Fills(cfg, env, o)
    ensures OnArrival(d, cfg, env, req) == [Filling(d.soak, o, NewsOf(cfg, env, o))]
    ensures var d' := Submit(d, cfg, env, req).desk;
      && d'.soak == OnPaperFill(d.soak, cfg, o, NewsOf(cfg, env, o)).soak
      && forall id :: id != o.clientOrderId && Quiet(d, id) ==> Quiet(d', id)
  {
    hide Decide, PendingAllowed, Fills, OnPaperFill, Guard, Submit, Place, OnPlacement, OnArrival, NewsOf, SubmitLooks;
    var id, p := ClientOrderId(req), Prune(d);
    LoneOrder(d, cfg, env, req, o);
    FillsOnPaper(p, cfg, env, req, id);
    ArrivesAlone(p, cfg, env, req, o);
    var threw := PlacementLeads(p, cfg, env, req, id);
    FilledStaysQuiet(p, Submit(d, cfg, env, req).desk, cfg, env, o.(status := Filled, filledQuantity := req.quantity));
  }

  /** A filled order brings no other id to the desk. */
  lemma FilledStaysQuiet(d: Desk, d': Desk, cfg: SoakCfg, env: Env, o: Order)
    requires CfgOk(cfg) && SubmitLooks(FilledAtOnce, d, d', cfg, env, o)
    ensures forall id :: id != o.clientOrderId && Quiet(d, id) ==> Quiet(d', id)
  {
    hide Heard;
    OpenAppend(d.reg.orders, o);
    forall id | id != o.clientOrderId && Quiet(d, id)
      ensures Quiet(d', id)
    {
      FindElsewhere(d.reg.orders, o, id);
    }
  }

  lemma ArrivesAlone(p: Desk, cfg: SoakCfg, env: Env, req: Request, o: Order)
    requires !Has(p.reg, o.clientOrderId) && (forall at :: PaperFillId(o.clientOrderId, at) !in p.reg.appliedFills)
    requires env.mode == PaperMode && o == NewOrder(req, ClientOrderId(req), true, env.now).(status := Submitted)
    requires Guard(Enter(p, req, o.clientOrderId, true, env.now), cfg, env, o) && Fills(cfg, env, o)
    requires req.quantity > 0.0
    ensures OnPlacement(p, cfg, env, req, o.clientOrderId) == [Filling(p.soak, o, NewsOf(cfg, env, o))]
  {
    hide Fills, Guard, RegimeNow;
    EnterShape(p, req, o.clientOrderId, true, env.now);
    OpenLast(Enter(p, req, o.clientOrderId, true, env.now), p.reg.orders, o, env.now);
    FindLast(p.reg.orders, o.(status := Status.Open));
  }

  /** And rests otherwise, the soak as it was. */
  lemma LoneOrderRests(d: Desk, cfg: SoakCfg, env: Env, req: Request, o: Order)
    requires CfgOk(cfg) && Passes(d, cfg, env, req, o) && !Fills(cfg, env, o)
    ensures var d' := Submit(d, cfg, env, req).desk;
      d'.soak == d.soak && d'.reg.orders == d.reg.orders + [o.(status := Status.Open)]
  {
    hide Evaluate, Publish, PendingAllowed, Fills, Guard, Submit, Place, OnPlacement;
    LoneOrder(d, cfg, env, req, o);
    RestsOnPaper(Prune(d), cfg, env, req, ClientOrderId(req));
  }

  // ── Cash ─────────────────────────────────────────────────────────────────

  /** The account has the cash for the fill. */
  predicate Paid(f: Filling, cfg: SoakCfg) {
    FillProblem(f.soak.account, cfg.account, TradeOf(f.order, f.news)) != Some(CashOverdraw)
  }

  lemma VisitFills(d: Desk, cfg: SoakCfg, env: Env, id: OrderId) returns (i: nat)
    requires CfgOk(cfg) && Orderly(d, cfg) && id in d.resting && OnVisit(d, cfg, env, id) != []
    ensures RestLooks(FilledResting, d, TickOne(d, cfg, env, id).desk, cfg, env, i)
    ensures OnVisit(d, cfg, env, id) == [Filling(d.soak, d.reg.orders[i], NewsOf(cfg, env, d.reg.orders[i]))]
  {
    hide OnPaperFill, RegimeNow, Remove, DeliverFill, Guard, Marketable, Orderly, RestLooks;
    i := FillRests(d, cfg, env, id);
    assert OrderOf(d, id) == d.reg.orders[i] && Fresh(d.reg.orders[i], cfg) by {
      var j := RestingIndex(d, cfg, id);
      assert i == j by { OneId(d, cfg, i, j); }
    }
  }

  lemma OneId(d: Desk, cfg: SoakCfg, i: nat, j: nat)
    requires Orderly(d, cfg) && i < |d.reg.orders| && j < |d.reg.orders|
    requires d.reg.orders[i].clientOrderId == d.reg.orders[j].clientOrderId
    ensures i == j
  {
  }

  lemma {:induction false} UpdatePaid(d: Desk, cfg: SoakCfg, env: Env, ids: seq<OrderId>, top: real)
    requires CfgOk(cfg) && Safe(d, cfg, env.now, top) && 0.0 <= top <= 100.0
    requires NoDuplicates(ids) && forall k :: 0 <= k < |ids| ==> ids[k] in d.resting
    ensures forall f :: f in OnUpdate(d, cfg, env, ids) ==> Paid(f, cfg)
    decreases |ids|
  {
    hide Settles, BooksOk, Orderly, TickOne, RestLooks, OnVisit, Paid, TradeOf, NewsOf;
    if ids != [] {
      var first := TickOne(d, cfg, env, ids[0]);
      if OnVisit(d, cfg, env, ids[0]) != [] {
        var i := VisitFills(d, cfg, env, ids[0]);
        VisitPaid(d, first.desk, cfg, env, i, top);
      }
      var c, i := TickCases(d, cfg, env, ids[0]);
      RestSafe(c, d, first.desk, cfg, env, i, top);
      RestedOrderly(c, d, first.desk, cfg, env, i);
      if !first.threw {
        assert c == Stays ==> first.desk == d by { StayedPut(d, first.desk, cfg, env, i); }
        UpdatePaid(first.desk, cfg, env, ids[1..], top);
      }
    }
  }

  lemma VisitPaid(d: Desk, d': Desk, cfg: SoakCfg, env: Env, i: nat, top: real)
    requires CfgOk(cfg) && Safe(d, cfg, env.now, top) && 0.0 <= top <= 100.0
    requires RestLooks(FilledResting, d, d', cfg, env, i)
    ensures Paid(Filling(d.soak, d.reg.orders[i], NewsOf(cfg, env, d.reg.orders[i])), cfg)
  {
    hide Safe, RegimeNow, Heard;
    RestingIsPaid(d, d', cfg, env, i, top);
  }

  /** An order that fills the moment it arrives: what was approved, whole. */
  lemma ArrivalFills(d: Desk, cfg: SoakCfg, env: Env, req: Request) returns (o: Order)
    requires CfgOk(cfg) && Orderly(d, cfg) && OnArrival(d, cfg, env, req) != []
    ensures OnArrival(d, cfg, env, req) == [Filling(d.soak, o, NewsOf(cfg, env, o))]
    ensures env.mode == PaperMode && SubmittedAs(req, env, o) && o.quantity > 0.0 && o.price > 0.0
    ensures Approves(Decide(d, cfg, env, req, OpenOrders(d.reg.orders)))
      && o.quantity == Decide(d, cfg, env, req, OpenOrders(d.reg.orders)).approvedQty
    ensures o.exchange == cfg.exchange
  {
    hide Evaluate, Publish, PendingAllowed, SelfTrade, Fills, Transition, Put, ApplyEvent, RegimeNow,
      Orderly;
    var open := OpenOrders(d.reg.orders);
    ApprovedRequest(req, env.mode, VenueOf(env, req.exchange), LedgerFor(d, cfg, req.exchange), open, cfg.risk,
      env.now);
    var final := FinalRequest(req, Decide(d, cfg, env, req, open));
    o := NewOrder(final, ClientOrderId(req), true, env.now).(status := Submitted);
  }

  lemma ArrivalPaid(d: Desk, cfg: SoakCfg, env: Env, req: Request, top: real)
    requires CfgOk(cfg) && Safe(d, cfg, env.now, top) && 0.0 <= top <= 100.0 && PriceWithin(req, cfg, top)
    ensures forall f :: f in OnArrival(d, cfg, env, req) ==> Paid(f, cfg)
  {
    hide Safe, OnArrival, Decide, SubmittedAs, PriceWithin, NewsOf, TradeOf;
    SafeIsOrderly(d, cfg, env.now, top);
    if OnArrival(d, cfg, env, req) != [] {
      var o := ArrivalFills(d, cfg, env, req);
      ArrivalIsPaid(d, cfg, env, req, o, top);
    }
  }

  /**
   * With fee-inclusive prices of at most 100 USDT no step of any run ever hands the soak a fill it has not the cash
   * for: not at arrival, not after resting, and not when one market update fills several orders.
   */
  lemma CashNeverOverdrawn(cfg: SoakCfg, entryCost: real, start: int, steps: seq<Step>, k: nat, top: real)
    requires ProperRun(cfg, start, steps, top) && k < |steps| && top <= 100.0
    ensures forall f :: f in Fillings(After(cfg, entryCost, start, steps[..k]), cfg, steps[k]) ==> Paid(f, cfg)
  {
    hide After, Safe, Paid, OnArrival, OnUpdate, PriceWithin;
    var front, s := steps[..k], steps[k];
    var d := After(cfg, entryCost, start, front);
    assert ProperRun(cfg, start, front, top);
    AfterSafe(cfg, entryCost, start, front, top);
    SafeLater(d, cfg, LastTime(start, front), TimeOf(s), top);
    match s {
      case SubmitOrder(env, req) => ArrivalPaid(d, cfg, env, req, top);
      case MarketUpdate(env) =>
        RestingDistinctOf(d, cfg, env.now, top);
        UpdatePaid(d, cfg, env, d.resting, top);
      case _ =>
    }
  }
}
