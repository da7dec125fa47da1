/** What one step can do to the desk's order books, told apart case by case. */
module DeskSteps {
  import opened Numeric
  import opened Domain
  import opened Orders
  import opened PaperAccount
  import opened Risk
  import opened Soaks
  import opened Desks

  // ── Between steps ────────────────────────────────────────────────────────

  /** An order the paper engine may still fill: open, untouched, on the soak's market. */
  predicate Fresh(o: Order, cfg: SoakCfg) {
    && o.status == Status.Open && o.filledQuantity == 0.0 && o.quantity > FULL_TOLERANCE && o.price > 0.0
    && o.exchange == cfg.exchange && o.symbol == cfg.symbol
  }

  predicate Live(o: Order) { o.paper && IsOpen(o) }

  ghost predicate NoDuplicates(ids: seq<OrderId>) {
    forall i, j :: 0 <= i < j < |ids| ==> ids[i] != ids[j]
  }

  /** The engine's resting map is exactly the set of non-terminal paper orders, none of them touched yet. */
  ghost predicate RestingIsLive(d: Desk, cfg: SoakCfg) {
    && (forall i :: 0 <= i < |d.reg.orders| && Live(d.reg.orders[i]) ==>
         Fresh(d.reg.orders[i], cfg) && d.reg.orders[i].clientOrderId in d.resting)
    && (forall k :: 0 <= k < |d.resting| ==> Has(d.reg, d.resting[k]) && Live(OrderOf(d, d.resting[k])))
    && NoDuplicates(d.resting)
  }

  /** The engine fills an order once, whole, and never one that was cancelled or rejected. */
  ghost predicate FilledOnce(d: Desk) {
    && (forall id, at :: PaperFillId(id, at) in d.reg.appliedFills ==>
          Has(d.reg, id) && OrderOf(d, id).paper && OrderOf(d, id).status == Filled
            && OrderOf(d, id).filledQuantity == OrderOf(d, id).quantity)
    && (forall id, at, at' ::
          PaperFillId(id, at) in d.reg.appliedFills && PaperFillId(id, at') in d.reg.appliedFills ==> at == at')
  }

  /** Every id ever accepted is an order, and every order reached an adapter at most once. */
  ghost predicate Idempotent(d: Desk) {
    && UniqueIds(d.reg.orders)
    && (forall id :: id in d.submitted ==> Has(d.reg, id))
    && NoDuplicates(d.placed)
    && (forall k :: 0 <= k < |d.placed| ==> Has(d.reg, d.placed[k]))
  }

  ghost predicate Orderly(d: Desk, cfg: SoakCfg) {
    RestingIsLive(d, cfg) && FilledOnce(d) && Idempotent(d)
  }

  // ── Registry steps ───────────────────────────────────────────────────────

  lemma FindLast(orders: seq<Order>, o: Order)
    requires Find(orders, o.clientOrderId) < 0
    ensures Find(orders + [o], o.clientOrderId) == |orders|
    ensures forall o' :: |orders + [o]| > 0 ==> (orders + [o])[|orders| := o'] == orders + [o']
  {
    assert (orders + [o])[|orders|] == o;
    assert forall k :: 0 <= k < |orders| ==> (orders + [o])[k] == orders[k];
  }

  /** One id, one place: with unique ids the search finds the order it is asked for. */
  lemma FindAt(orders: seq<Order>, i: nat)
    requires UniqueIds(orders) && i < |orders|
    ensures Find(orders, orders[i].clientOrderId) == i
  {
  }

  lemma FindElsewhere(orders: seq<Order>, o: Order, id: OrderId)
    requires id != o.clientOrderId
    ensures Find(orders + [o], id) == Find(orders, id)
    decreases |orders|
  {
    if orders != [] {
      assert (orders + [o])[1..] == orders[1..] + [o];
      FindElsewhere(orders[1..], o, id);
    } else {
      assert orders + [o] == [o];
    }
  }

  lemma {:induction false} FindSame(orders: seq<Order>, orders': seq<Order>, id: OrderId)
    requires |orders'| == |orders|
    requires forall i :: 0 <= i < |orders| ==> orders'[i].clientOrderId == orders[i].clientOrderId
    ensures Find(orders', id) == Find(orders, id)
    decreases |orders|
  {
    if orders != [] {
      FindSame(orders[1..], orders'[1..], id);
    }
  }

  lemma ConsNoDuplicates(id: OrderId, ids: seq<OrderId>)
    requires NoDuplicates(ids) && id !in ids
    ensures NoDuplicates([id] + ids)
  {
  }

  lemma {:induction false} RemoveFacts(ids: seq<OrderId>, id: OrderId)
    requires NoDuplicates(ids)
    ensures NoDuplicates(Remove(ids, id))
    ensures forall x :: x in Remove(ids, id) <==> x in ids && x != id
  {
    if ids != [] {
      RemoveFacts(ids[1..], id);
      assert ids[0] !in ids[1..];
      assert forall x :: x in ids <==> x == ids[0] || x in ids[1..];
      ConsNoDuplicates(ids[0], Remove(ids[1..], id));
    }
  }

  // ── Cases of a step ──────────────────────────────────────────────────────

  /** A new order `o` at the end of the books; nothing else on them moved. */
  predicate Appended(d: Desk, d': Desk, o: Order) {
    && !Has(d.reg, o.clientOrderId)
    && d'.reg.orders == d.reg.orders + [o]
    && d'.placed == d.placed + [o.clientOrderId]
    && d'.submitted <= d.submitted + {o.clientOrderId}
  }

  /** Order `i` became `o`; nothing else on the books moved. */
  predicate Replaced(d: Desk, d': Desk, i: nat, o: Order) {
    && i < |d.reg.orders| && o.clientOrderId == d.reg.orders[i].clientOrderId
    && d'.reg.orders == d.reg.orders[i := o]
    && d'.placed == d.placed && d'.submitted == d.submitted
  }

  /** Nothing moved, except that ids the registry answers for may have left the idempotency buffer. */
  predicate Idle(d: Desk, d': Desk) {
    d' == d.(submitted := d'.submitted) && d'.submitted <= d.submitted
  }

  predicate FillAdded(d: Desk, d': Desk, id: OrderId, now: int) {
    d'.reg.appliedFills == d.reg.appliedFills + {PaperFillId(id, now)}
  }

  /** The news of a whole fill of `o` at its limit price. */
  function NewsOf(cfg: SoakCfg, env: Env, o: Order): FillNews {
    FillNews(Some(o.quantity), Some(o.price), env.now, RegimeNow(cfg, env), env.tag)
  }

  /** The soak heard of a whole fill of `o`. */
  predicate Heard(d: Desk, d': Desk, cfg: SoakCfg, env: Env, o: Order)
    requires CfgOk(cfg)
  {
    d'.soak == OnPaperFill(d.soak, cfg, o, NewsOf(cfg, env, o)).soak
  }

  /** The soak's handler threw on the fill. */
  predicate Threw(d: Desk, cfg: SoakCfg, env: Env, o: Order)
    requires CfgOk(cfg)
  {
    OnPaperFill(d.soak, cfg, o, NewsOf(cfg, env, o)).threw
  }

  /**
   * The submission came to nothing, was refused at the adapter, rests, was filled at once, or went to a live exchange.
   */
  datatype SubmitCase = Nothing | TurnedAway | Rests | FilledAtOnce | WentLive

  predicate SubmitLooks(c: SubmitCase, d: Desk, d': Desk, cfg: SoakCfg, env: Env, o: Order)
    requires CfgOk(cfg)
  {
    match c
    case Nothing => Idle(d, d')
    case TurnedAway =>
      Appended(d, d', o) && IsTerminal(o.status) && d'.soak == d.soak && d'.resting == d.resting
        && d'.reg.appliedFills == d.reg.appliedFills
    case Rests =>
      && Appended(d, d', o) && o.paper && Fresh(o, cfg) && d'.soak == d.soak
      && d'.resting == d.resting + [o.clientOrderId]
      && d'.reg.appliedFills == d.reg.appliedFills
    case FilledAtOnce =>
      && Appended(d, d', o) && o.paper && o.status == Filled && o.filledQuantity == o.quantity
      && d'.resting == d.resting
      && o.exchange == cfg.exchange && FillAdded(d, d', o.clientOrderId, env.now) && Heard(d, d', cfg, env, o)
    case WentLive =>
      Appended(d, d', o) && !o.paper && d'.soak == d.soak && d'.resting == d.resting
        && d'.reg.appliedFills == d.reg.appliedFills
  }

  predicate SubmittedAs(req: Request, env: Env, o: Order) {
    && o.clientOrderId == ClientOrderId(req) && o.requestId == req.requestId && o.exchange == req.exchange
    && o.symbol == req.symbol
    && o.side == req.side && o.price == req.price && o.cycleIds == req.cycleIds
    && o.rebuyDistanceBps == req.rebuyDistanceBps
    && o.reason == req.reason && o.paper == (env.mode == PaperMode) && o.createdAt == env.now
  }

  // ── Submission ───────────────────────────────────────────────────────────

  lemma EnterShape(d: Desk, req: Request, id: OrderId, paper: bool, now: int)
    requires !Has(d.reg, id)
    ensures var e := Enter(d, req, id, paper, now); var o := NewOrder(req, id, paper, now).(status := Submitted);
      && e == d.(submitted := d.submitted + {id}, placed := d.placed + [id],
           reg := d.reg.(orders := d.reg.orders + [o]))
      && Find(e.reg.orders, id) == |d.reg.orders|
  {
    FindLast(d.reg.orders, NewOrder(req, id, paper, now));
    FindLast(d.reg.orders, NewOrder(req, id, paper, now).(status := Submitted));
  }

  /** Moving the last order moves nothing else. */
  lemma MoveLast(d: Desk, orders: seq<Order>, o: Order, to: Status)
    requires d.reg.orders == orders + [o] && Find(orders, o.clientOrderId) < 0
    ensures Transition(d.reg, o.clientOrderId, to) == d.reg.(orders := orders + [Moved(o, to)])
  {
    hide Transitions;
    FindLast(orders, o);
  }

  lemma OpenLast(d: Desk, orders: seq<Order>, o: Order, now: int)
    requires d.reg.orders == orders + [o] && Find(orders, o.clientOrderId) < 0 && o.status == Submitted
    ensures Emit(d, OrderEvent(EventKind.Opened, o.clientOrderId, now)) ==
      d.(reg := d.reg.(orders := orders + [o.(status := Status.Open)]))
  {
    FindLast(orders, o);
  }

  /** The soak reads of an order only what was ordered. */
  lemma FillReadsOrder(s: Soak, cfg: SoakCfg, o: Order, o': Order, news: FillNews)
    requires CfgOk(cfg) && o' == o.(status := o'.status, filledQuantity := o'.filledQuantity)
    ensures OnPaperFill(s, cfg, o', news) == OnPaperFill(s, cfg, o, news)
  {
    hide ApplyPaperFill, AccumulationFill, Times;
    assert TradeOf(o', news) == TradeOf(o, news);
  }

  lemma FillLast(d: Desk, cfg: SoakCfg, env: Env, orders: seq<Order>, o: Order, sent: Order)
    requires CfgOk(cfg) && d.reg.orders == orders + [o] && Find(orders, o.clientOrderId) < 0
    requires o.status == Status.Open && o.filledQuantity == 0.0 && o.quantity > FULL_TOLERANCE
      && sent == o.(status := sent.status)
    requires PaperFillId(o.clientOrderId, env.now) !in d.reg.appliedFills
    ensures var f := DeliverFill(d, cfg, env, sent).desk; var o' := o.(status := Filled, filledQuantity := o.quantity);
      && f == d.(soak := f.soak,
           reg := Registry(orders + [o'], d.reg.appliedFills + {PaperFillId(o.clientOrderId, env.now)}))
      && Heard(d, f, cfg, env, o') && DeliverFill(d, cfg, env, sent).threw == Threw(d, cfg, env, o')
  {
    hide OnPaperFill, RegimeNow;
    FindLast(orders, o);
    FillReadsOrder(d.soak, cfg, o, sent, NewsOf(cfg, env, o));
    FillReadsOrder(d.soak, cfg, o, o.(status := Filled, filledQuantity := o.quantity), NewsOf(cfg, env, o));
  }

  lemma GuardMarket(d: Desk, cfg: SoakCfg, env: Env, o: Order)
    requires Guard(d, cfg, env, o)
    ensures o.exchange == cfg.exchange && o.symbol == cfg.symbol && env.mode == PaperMode
  {
    hide PendingAllowed, Decide;
  }

  lemma RefusedOnPaper(d: Desk, cfg: SoakCfg, env: Env, req: Request, id: OrderId)
    requires CfgOk(cfg) && !Has(d.reg, id) && env.mode == PaperMode
    requires !Guard(Enter(d, req, id, true, env.now), cfg, env, NewOrder(req, id, true, env.now).(status := Submitted))
    ensures var o := NewOrder(req, id, true, env.now).(status := Status.Rejected); var r := Place(d, cfg, env, req, id);
      SubmitLooks(TurnedAway, d, r.desk, cfg, env, o) && r.outcome.Declined?
  {
    hide Guard, Put, Transition, Fills, DeliverFill;
    var n := NewOrder(req, id, true, env.now).(status := Submitted);
    EnterShape(d, req, id, true, env.now);
    MoveLast(Enter(d, req, id, true, env.now), d.reg.orders, n, Status.Rejected);
  }

  lemma RestsOnPaper(d: Desk, cfg: SoakCfg, env: Env, req: Request, id: OrderId)
    requires CfgOk(cfg) && !Has(d.reg, id) && env.mode == PaperMode && req.quantity > FULL_TOLERANCE && req.price > 0.0
    requires Guard(Enter(d, req, id, true, env.now), cfg, env, NewOrder(req, id, true, env.now).(status := Submitted))
    requires !Fills(cfg, env, NewOrder(req, id, true, env.now).(status := Submitted))
    ensures var o := NewOrder(req, id, true, env.now).(status := Status.Open); var r := Place(d, cfg, env, req, id);
      SubmitLooks(Rests, d, r.desk, cfg, env, o) && r.outcome.Accepted?
  {
    hide Guard, Put, Transition, Fills, DeliverFill, ApplyEvent;
    var n := NewOrder(req, id, true, env.now).(status := Submitted);
    var e := Enter(d, req, id, true, env.now);
    EnterShape(d, req, id, true, env.now);
    GuardMarket(e, cfg, env, n);
    OpenLast(e, d.reg.orders, n, env.now);
  }

  lemma FillsOnPaper(d: Desk, cfg: SoakCfg, env: Env, req: Request, id: OrderId)
    requires CfgOk(cfg) && !Has(d.reg, id) && env.mode == PaperMode && req.quantity > FULL_TOLERANCE && req.price > 0.0
    requires PaperFillId(id, env.now) !in d.reg.appliedFills
    requires Guard(Enter(d, req, id, true, env.now), cfg, env, NewOrder(req, id, true, env.now).(status := Submitted))
    requires Fills(cfg, env, NewOrder(req, id, true, env.now).(status := Submitted))
    ensures var o := NewOrder(req, id, true, env.now).(status := Filled, filledQuantity := req.quantity);
      var r := Place(d, cfg, env, req, id);
      SubmitLooks(FilledAtOnce, d, r.desk, cfg, env, o) && (r.outcome.Accepted? <==> !Threw(d, cfg, env, o))
  {
    hide OnPaperFill, Guard, Put, Transition, Fills, DeliverFill, ApplyEvent, RegimeNow;
    var n := NewOrder(req, id, true, env.now).(status := Submitted);
    var e := Enter(d, req, id, true, env.now);
    EnterShape(d, req, id, true, env.now);
    GuardMarket(e, cfg, env, n);
    OpenLast(e, d.reg.orders, n, env.now);
    var acked := Emit(e, OrderEvent(EventKind.Opened, id, env.now));
    var o := n.(status := Status.Open);
    FillLast(acked, cfg, env, d.reg.orders, o, n);
    MoveLast(DeliverFill(acked, cfg, env, n).desk, d.reg.orders, o.(status := Filled, filledQuantity := o.quantity),
      Failed);
  }

  /** The paper adapter's three answers to a newly entered order. */
  lemma PaperCases(d: Desk, cfg: SoakCfg, env: Env, req: Request, id: OrderId) returns (c: SubmitCase, o: Order)
    requires CfgOk(cfg) && Orderly(d, cfg) && !Has(d.reg, id) && env.mode == PaperMode
    requires req.quantity > FULL_TOLERANCE && req.price > 0.0
    ensures SubmitLooks(c, d, Place(d, cfg, env, req, id).desk, cfg, env, o) && c != Nothing && c != WentLive
    ensures o == NewOrder(req, id, true, env.now).(status := o.status, filledQuantity := o.filledQuantity)
    ensures Place(d, cfg, env, req, id).outcome.Accepted? <==>
      c == Rests || (c == FilledAtOnce && !Threw(d, cfg, env, o))
  {
    hide Guard, Fills, Place, SubmitLooks, Threw, Enter, RestingIsLive, Idempotent;
    var n := NewOrder(req, id, true, env.now).(status := Submitted);
    if !Guard(Enter(d, req, id, true, env.now), cfg, env, n) {
      RefusedOnPaper(d, cfg, env, req, id);
      c, o := TurnedAway, n.(status := Status.Rejected);
    } else if Fills(cfg, env, n) {
      FillsOnPaper(d, cfg, env, req, id);
      c, o := FilledAtOnce, n.(status := Filled, filledQuantity := req.quantity);
    } else {
      RestsOnPaper(d, cfg, env, req, id);
      c, o := Rests, n.(status := Status.Open);
    }
  }

  lemma LiveCases(d: Desk, cfg: SoakCfg, env: Env, req: Request, id: OrderId) returns (c: SubmitCase, o: Order)
    requires CfgOk(cfg) && !Has(d.reg, id) && env.mode != PaperMode && env.live.Some?
    ensures SubmitLooks(c, d, Place(d, cfg, env, req, id).desk, cfg, env, o) && c == WentLive
    ensures o == NewOrder(req, id, false, env.now).(status := o.status, filledQuantity := o.filledQuantity)
  {
    hide OnPaperFill, Guard, Marketable, RegimeNow, Put, Transition, ApplyEvent;
    var n := NewOrder(req, id, false, env.now).(status := Submitted);
    var e := Enter(d, req, id, false, env.now);
    EnterShape(d, req, id, false, env.now);
    MoveLast(e, d.reg.orders, n, Status.Rejected);
    MoveLast(e, d.reg.orders, n, Failed);
    c := WentLive;
    o := match env.live.value
      case Accepts => n
      case Refuses => Moved(n, Status.Rejected)
      case Throws => Moved(n, Failed);
  }

  /**
   * Every submission ends in one of five ways; only an approved request that crosses no open order goes past the gate,
   * and never for more than was approved.
   */
  lemma SubmitCases(d: Desk, cfg: SoakCfg, env: Env, req: Request) returns (c: SubmitCase, o: Order)
    requires CfgOk(cfg) && Orderly(d, cfg)
    ensures SubmitLooks(c, d, Submit(d, cfg, env, req).desk, cfg, env, o)
    ensures c != Nothing ==>
      && SubmittedAs(req, env, o)
      && var risk := Decide(d, cfg, env, req, OpenOrders(d.reg.orders));
         Approves(risk) && o.quantity == risk.approvedQty && !SelfTrade(OpenOrders(d.reg.orders), req)
    ensures (c == Rests || c == FilledAtOnce) ==> env.mode == PaperMode
    ensures c != WentLive ==>
      (Submit(d, cfg, env, req).outcome.Accepted? <==> c == Rests || (c == FilledAtOnce && !Threw(d, cfg, env, o)))
  {
    hide Place, Evaluate, SelfTrade, Publish, SubmitLooks, Prune;
    c, o := Nothing, NewOrder(req, "", false, env.now);
    NothingIsIdle(d, cfg, env, o);
    var open := OpenOrders(d.reg.orders);
    if !SelfTrade(open, req) && Approves(Decide(d, cfg, env, req, open)) {
      var id := ClientOrderId(req);
      if id !in d.submitted && !Has(d.reg, id) {
        ApprovedRequest(req, env.mode, VenueOf(env, req.exchange), LedgerFor(d, cfg, req.exchange), open, cfg.risk,
          env.now);
        c, o := PlaceCases(d, cfg, env, FinalRequest(req, Decide(d, cfg, env, req, open)), id);
      }
    }
  }

  lemma NothingIsIdle(d: Desk, cfg: SoakCfg, env: Env, o: Order)
    requires CfgOk(cfg)
    ensures SubmitLooks(Nothing, d, d, cfg, env, o)
  {
  }

  lemma PlaceCases(d: Desk, cfg: SoakCfg, env: Env, req: Request, id: OrderId) returns (c: SubmitCase, o: Order)
    requires CfgOk(cfg) && Orderly(d, cfg) && !Has(d.reg, id)
    requires cfg.risk.minOrderZig <= req.quantity && req.price > 0.0
    ensures SubmitLooks(c, d, Place(Prune(d), cfg, env, req, id).desk, cfg, env, o)
    ensures c != Nothing ==>
      o == NewOrder(req, id, env.mode == PaperMode, env.now).(status := o.status, filledQuantity := o.filledQuantity)
    ensures (c == Rests || c == FilledAtOnce) ==> env.mode == PaperMode
    ensures c != WentLive ==>
      (Place(Prune(d), cfg, env, req, id).outcome.Accepted? <==>
        c == Rests || (c == FilledAtOnce && !Threw(d, cfg, env, o)))
  {
    hide PlaceOnPaper, OnPaperFill, Enter, Fresh, Answered;
    var p := Prune(d);
    assert Orderly(p, cfg);
    if env.mode == PaperMode {
      c, o := PaperCases(p, cfg, env, req, id);
    } else if env.live.Some? {
      c, o := LiveCases(p, cfg, env, req, id);
    } else {
      c, o := Nothing, NewOrder(req, id, false, env.now);
    }
  }

  // ── Resting orders ───────────────────────────────────────────────────────

  /** Order `i` was resting and is now over: cancelled, or filled whole. */
  datatype RestCase = Stays | Dropped | FilledResting

  predicate RestLooks(c: RestCase, d: Desk, d': Desk, cfg: SoakCfg, env: Env, i: nat)
    requires CfgOk(cfg)
  {
    match c
    case Stays => d' == d
    case Dropped =>
      && i < |d.reg.orders| && Live(d.reg.orders[i])
      && Replaced(d, d', i, d.reg.orders[i].(status := Cancelled)) && d'.soak == d.soak
      && d'.resting == Remove(d.resting, d.reg.orders[i].clientOrderId) && d'.reg.appliedFills == d.reg.appliedFills
    case FilledResting =>
      && i < |d.reg.orders| && Live(d.reg.orders[i])
      && (var o := d.reg.orders[i].(status := Filled, filledQuantity := d.reg.orders[i].quantity);
          Replaced(d, d', i, o) && Heard(d, d', cfg, env, o) && FillAdded(d, d', o.clientOrderId, env.now))
      && d'.resting == Remove(d.resting, d.reg.orders[i].clientOrderId)
  }

  lemma RestingIndex(d: Desk, cfg: SoakCfg, id: OrderId) returns (i: nat)
    requires Orderly(d, cfg) && id in d.resting
    ensures i < |d.reg.orders| && d.reg.orders[i].clientOrderId == id && Find(d.reg.orders, id) == i
    ensures Has(d.reg, id) && Live(d.reg.orders[i]) && Fresh(d.reg.orders[i], cfg)
  {
    var k :| 0 <= k < |d.resting| && d.resting[k] == id;
    i := Find(d.reg.orders, id);
  }

  lemma CancelRests(d: Desk, cfg: SoakCfg, env: Env, id: OrderId) returns (i: nat)
    requires CfgOk(cfg) && Orderly(d, cfg) && id in d.resting
    ensures RestLooks(Dropped, d, CancelOnPaper(d, env, id), cfg, env, i)
    ensures i < |d.reg.orders| && d.reg.orders[i].clientOrderId == id
  {
    i := RestingIndex(d, cfg, id);
  }

  lemma FillRests(d: Desk, cfg: SoakCfg, env: Env, id: OrderId) returns (i: nat)
    requires CfgOk(cfg) && Orderly(d, cfg) && id in d.resting
    ensures i < |d.reg.orders| && d.reg.orders[i].clientOrderId == id && Has(d.reg, id)
    ensures var f := DeliverFill(d.(resting := Remove(d.resting, id)), cfg, env, OrderOf(d, id));
      RestLooks(FilledResting, d, f.desk, cfg, env, i) && f.threw == Threw(d, cfg, env, d.reg.orders[i])
  {
    hide OnPaperFill, RegimeNow, Remove;
    i := RestingIndex(d, cfg, id);
    var o := d.reg.orders[i];
    assert PaperFillId(id, env.now) !in d.reg.appliedFills;
    FillReadsOrder(d.soak, cfg, o, o.(status := Filled, filledQuantity := o.quantity), NewsOf(cfg, env, o));
  }

  /** A market update treats each resting order in one of three ways; a fill passes the guard first. */
  lemma TickCases(d: Desk, cfg: SoakCfg, env: Env, id: OrderId) returns (c: RestCase, i: nat)
    requires CfgOk(cfg) && Orderly(d, cfg) && id in d.resting
    ensures RestLooks(c, d, TickOne(d, cfg, env, id).desk, cfg, env, i)
    ensures c != Stays ==> i < |d.reg.orders| && d.reg.orders[i].clientOrderId == id
    ensures c == FilledResting ==>
      Guard(d, cfg, env, d.reg.orders[i]) && TickOne(d, cfg, env, id).threw == Threw(d, cfg, env, d.reg.orders[i])
    ensures c != FilledResting ==> !TickOne(d, cfg, env, id).threw
  {
    hide DeliverFill, CancelOnPaper, Guard, Marketable, RestLooks;
    i := RestingIndex(d, cfg, id);
    if !Guard(d, cfg, env, OrderOf(d, id)) {
      c := Dropped;
      i := CancelRests(d, cfg, env, id);
    } else if Fills(cfg, env, OrderOf(d, id)) {
      c := FilledResting;
      i := FillRests(d, cfg, env, id);
    } else {
      c := Stays;
      StaysPut(d, cfg, env, i);
    }
  }

  lemma StaysPut(d: Desk, cfg: SoakCfg, env: Env, i: nat)
    requires CfgOk(cfg)
    ensures RestLooks(Stays, d, d, cfg, env, i)
  {
  }

  // ── Cancels and live events ──────────────────────────────────────────────

  /** A live order moved along its life cycle; no paper fill is among what is newly applied. */
  ghost predicate LiveMoved(d: Desk, d': Desk, i: nat, o: Order) {
    && Replaced(d, d', i, o) && !o.paper && Evolved(d.reg.orders[i], o)
    && d'.soak == d.soak && d'.resting == d.resting
    && forall id, at :: PaperFillId(id, at) in d'.reg.appliedFills ==> PaperFillId(id, at) in d.reg.appliedFills
  }

  lemma CancelCases(d: Desk, cfg: SoakCfg, env: Env, id: OrderId) returns (c: RestCase, i: nat, o: Order)
    requires CfgOk(cfg) && Orderly(d, cfg)
    ensures if Has(d.reg, id) && !OrderOf(d, id).paper then LiveMoved(d, Cancel(d, env, id), i, o)
            else RestLooks(c, d, Cancel(d, env, id), cfg, env, i)
    ensures c != FilledResting
  {
    c, i := Stays, 0;
    o := NewOrder(Request("", cfg.exchange, "", Buy, true, 0.0, 0.0, None, None, HarvestSell), id, false, env.now);
    if Has(d.reg, id) {
      i := Find(d.reg.orders, id);
      o := if env.live.None? then d.reg.orders[i] else Moved(d.reg.orders[i], CancelPending);
      if id in d.resting {
        c := Dropped;
        i := RestingIndex(d, cfg, id);
        PaperCancelled(d, cfg, env, id, i);
      } else {
        assert d.reg.orders[i := d.reg.orders[i]] == d.reg.orders;
      }
    }
  }

  lemma PaperCancelled(d: Desk, cfg: SoakCfg, env: Env, id: OrderId, i: nat)
    requires CfgOk(cfg) && Orderly(d, cfg) && id in d.resting && i < |d.reg.orders|
    requires d.reg.orders[i].clientOrderId == id && Find(d.reg.orders, id) == i && Live(d.reg.orders[i])
      && Fresh(d.reg.orders[i], cfg)
    ensures RestLooks(Dropped, d, Cancel(d, env, id), cfg, env, i)
  {
    hide Remove;
    var asked := d.reg.orders[i := d.reg.orders[i].(status := CancelPending)];
    FindSame(d.reg.orders, asked, id);
  }

  /** An event of a live exchange: it concerns a live order and carries no paper fill id. */
  predicate FromExchange(d: Desk, ev: OrderEvent) {
    && Has(d.reg, ev.clientOrderId) && !OrderOf(d, ev.clientOrderId).paper
    && (ev.kind.FillReport? && ev.kind.fillId.Some? ==> !ev.kind.fillId.value.PaperFillId?)
  }

  lemma EventCases(d: Desk, ev: OrderEvent) returns (i: nat, o: Order)
    requires FromExchange(d, ev)
    ensures LiveMoved(d, Emit(d, ev), i, o)
  {
    i := Find(d.reg.orders, ev.clientOrderId);
    o := Emit(d, ev).reg.orders[i];
    EventEvolves(d.reg, ev);
    assert d.reg.orders[i := d.reg.orders[i]] == d.reg.orders;
  }

  // ── Order in the books ───────────────────────────────────────────────────

  lemma SameOrderly(d: Desk, d': Desk, cfg: SoakCfg)
    requires Orderly(d, cfg) && Idle(d, d')
    ensures Orderly(d', cfg)
  {
  }

  ghost predicate FindsAppended(d: Desk, d': Desk, o: Order) {
    && Find(d'.reg.orders, o.clientOrderId) == |d.reg.orders|
    && forall id :: id != o.clientOrderId ==> Find(d'.reg.orders, id) == Find(d.reg.orders, id)
  }

  lemma AppendedFinds(d: Desk, d': Desk, o: Order)
    requires Appended(d, d', o)
    ensures FindsAppended(d, d', o)
  {
    FindLast(d.reg.orders, o);
    forall id | id != o.clientOrderId
      ensures Find(d'.reg.orders, id) == Find(d.reg.orders, id)
    {
      FindElsewhere(d.reg.orders, o, id);
    }
  }

  lemma AppendedResting(d: Desk, d': Desk, cfg: SoakCfg, o: Order)
    requires RestingIsLive(d, cfg) && Appended(d, d', o) && FindsAppended(d, d', o)
    requires if Live(o) then Fresh(o, cfg) && d'.resting == d.resting + [o.clientOrderId] else d'.resting == d.resting
    ensures RestingIsLive(d', cfg)
  {
  }

  lemma AppendedFilledOnce(d: Desk, d': Desk, o: Order, now: int)
    requires FilledOnce(d) && Appended(d, d', o) && FindsAppended(d, d', o)
    requires d'.reg.appliedFills == d.reg.appliedFills
      || (FillAdded(d, d', o.clientOrderId, now) && o.paper && o.status == Filled && o.filledQuantity == o.quantity)
    ensures FilledOnce(d')
  {
  }

  lemma AppendedIdempotent(d: Desk, d': Desk, o: Order)
    requires Idempotent(d) && Appended(d, d', o) && FindsAppended(d, d', o)
    ensures Idempotent(d')
  {
  }

  lemma AppendedOrderly(c: SubmitCase, d: Desk, d': Desk, cfg: SoakCfg, env: Env, o: Order)
    requires CfgOk(cfg) && Orderly(d, cfg) && SubmitLooks(c, d, d', cfg, env, o) && c != Nothing
    ensures Orderly(d', cfg)
  {
    hide OnPaperFill, Heard, RestingIsLive, FilledOnce, Idempotent, FindsAppended;
    AppendedFinds(d, d', o);
    AppendedResting(d, d', cfg, o);
    AppendedFilledOnce(d, d', o, env.now);
    AppendedIdempotent(d, d', o);
  }

  lemma ReplacedFinds(d: Desk, d': Desk, i: nat, o: Order)
    requires Replaced(d, d', i, o) && UniqueIds(d.reg.orders)
    ensures UniqueIds(d'.reg.orders)
    ensures forall id :: Find(d'.reg.orders, id) == Find(d.reg.orders, id)
  {
    forall id
      ensures Find(d'.reg.orders, id) == Find(d.reg.orders, id)
    {
      FindSame(d.reg.orders, d'.reg.orders, id);
    }
  }

  lemma RestingDistinct(d: Desk, cfg: SoakCfg)
    requires RestingIsLive(d, cfg)
    ensures NoDuplicates(d.resting)
  {
  }

  lemma RetiredResting(d: Desk, d': Desk, cfg: SoakCfg, i: nat, o: Order)
    requires RestingIsLive(d, cfg) && UniqueIds(d.reg.orders) && Replaced(d, d', i, o) && IsTerminal(o.status)
    requires forall id :: Find(d'.reg.orders, id) == Find(d.reg.orders, id)
    requires NoDuplicates(d'.resting) && forall id :: id in d'.resting <==> id in d.resting && id != o.clientOrderId
    ensures RestingIsLive(d', cfg)
  {
    forall k | 0 <= k < |d'.resting|
      ensures Has(d'.reg, d'.resting[k]) && Live(OrderOf(d', d'.resting[k]))
    {
      assert d'.resting[k] in d'.resting;
      var j :| 0 <= j < |d.resting| && d.resting[j] == d'.resting[k];
    }
  }

  lemma RetiredFilledOnce(d: Desk, d': Desk, i: nat, o: Order, now: int)
    requires FilledOnce(d) && UniqueIds(d.reg.orders) && Replaced(d, d', i, o) && IsTerminal(o.status)
    requires forall id :: Find(d'.reg.orders, id) == Find(d.reg.orders, id)
    requires IsOpen(d.reg.orders[i]) && d.reg.orders[i].paper && o.paper
    requires d'.reg.appliedFills == d.reg.appliedFills
      || (FillAdded(d, d', o.clientOrderId, now) && o.status == Filled && o.filledQuantity == o.quantity)
    ensures FilledOnce(d')
  {
    FindAt(d.reg.orders, i);
  }

  lemma RetiredIdempotent(d: Desk, d': Desk, i: nat, o: Order)
    requires Idempotent(d) && Replaced(d, d', i, o)
    requires UniqueIds(d'.reg.orders) && forall id :: Find(d'.reg.orders, id) == Find(d.reg.orders, id)
    ensures Idempotent(d')
  {
  }

  lemma IdempotentUnique(d: Desk)
    requires Idempotent(d)
    ensures UniqueIds(d.reg.orders)
  {
  }

  lemma RestedOrderly(c: RestCase, d: Desk, d': Desk, cfg: SoakCfg, env: Env, i: nat)
    requires CfgOk(cfg) && Orderly(d, cfg) && RestLooks(c, d, d', cfg, env, i)
    ensures Orderly(d', cfg)
    ensures c != Stays ==> i < |d.reg.orders| && forall id :: id in d'.resting <==>
      id in d.resting && id != d.reg.orders[i].clientOrderId
  {
    hide OnPaperFill, Heard, Remove, RestingIsLive, FilledOnce, Idempotent;
    if c != Stays {
      IdempotentUnique(d);
      RestingDistinct(d, cfg);
      ReplacedFinds(d, d', i, d'.reg.orders[i]);
      RemoveFacts(d.resting, d.reg.orders[i].clientOrderId);
      RetiredResting(d, d', cfg, i, d'.reg.orders[i]);
      RetiredFilledOnce(d, d', i, d'.reg.orders[i], env.now);
      RetiredIdempotent(d, d', i, d'.reg.orders[i]);
    }
  }

  lemma LiveMovedOrderly(d: Desk, d': Desk, cfg: SoakCfg, i: nat, o: Order)
    requires Orderly(d, cfg) && LiveMoved(d, d', i, o)
    ensures Orderly(d', cfg)
  {
    hide Transitions;
    ReplacedFinds(d, d', i, o);
  }
}
