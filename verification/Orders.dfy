/**
 * Orders, their life cycle and the registry that keeps them (backend/src/execution-engine/lifecycle.ts, registry.ts,
 * packages/shared-types/src/execution.ts).
 */
module Orders {
  import opened Numeric
  import opened Sums
  import opened Domain

  /** A fill within this of the ordered quantity completes the order. */
  const FULL_TOLERANCE: real := 1e-12

  datatype Status = Created | Submitted | Open | PartiallyFilled | CancelPending | Filled | Cancelled | Rejected
    | Failed

  function Transitions(s: Status): set<Status> {
    match s
    case Created => {Submitted, Rejected, Failed}
    case Submitted => {Open, PartiallyFilled, Filled, Rejected, Failed}
    case Open => {PartiallyFilled, Filled, CancelPending, Cancelled}
    case PartiallyFilled => {PartiallyFilled, Filled, CancelPending, Cancelled}
    case CancelPending => {Cancelled, Filled, PartiallyFilled}
    case Filled => {}
    case Cancelled => {}
    case Rejected => {}
    case Failed => {}
  }

  predicate CanTransition(from: Status, to: Status) {
    to in Transitions(from)
  }

  predicate IsTerminal(s: Status) {
    Transitions(s) == {}
  }

  /** Why an order exists. The soak routes fills by it; an operator may write anything. */
  datatype Reason = HarvestSell | HarvestRebuy | AccBuy | AccRecovery | Other(text: string)

  datatype Request = Request(
    requestId: string,
    exchange: Exchange,
    symbol: string,
    side: Side,
    isLimit: bool,
    quantity: real,
    price: real,
    cycleIds: Option<seq<nat>>,
    rebuyDistanceBps: Option<real>,
    reason: Reason)

  datatype Order = Order(
    clientOrderId: OrderId,
    requestId: string,
    exchange: Exchange,
    symbol: string,
    side: Side,
    price: real,
    quantity: real,
    filledQuantity: real,
    status: Status,
    cycleIds: Option<seq<nat>>,
    rebuyDistanceBps: Option<real>,
    reason: Reason,
    paper: bool,
    createdAt: int)

  function Remaining(o: Order): real { o.quantity - o.filledQuantity }

  function NewOrder(req: Request, id: OrderId, paper: bool, now: int): Order {
    Order(id, req.requestId, req.exchange, req.symbol, req.side, req.price, req.quantity, 0.0, Created, req.cycleIds,
      req.rebuyDistanceBps,
          req.reason, paper, now)
  }

  datatype EventKind =
    | Opened
    | FillReport(fillId: Option<FillId>, fillPrice: Option<real>, fillQuantity: Option<real>)
    | CancelReport
    | RejectReport

  datatype OrderEvent = OrderEvent(kind: EventKind, clientOrderId: OrderId, at: int)

  /** Every order ever registered, in registration order, and the fill ids already counted. */
  datatype Registry = Registry(orders: seq<Order>, appliedFills: set<FillId>)

  function Find(orders: seq<Order>, id: OrderId): (i: int)
    ensures -1 <= i < |orders|
    ensures i >= 0 ==> orders[i].clientOrderId == id
    ensures i < 0 ==> forall k :: 0 <= k < |orders| ==> orders[k].clientOrderId != id
  {
    if orders == [] then -1
    else if orders[0].clientOrderId == id then 0
    else
      var i := Find(orders[1..], id);
      assert forall k :: 1 <= k < |orders| ==> orders[k] == orders[1..][k - 1];
      if i < 0 then -1 else i + 1
  }

  predicate Has(r: Registry, id: OrderId) {
    Find(r.orders, id) >= 0
  }

  function Put(r: Registry, o: Order): Registry {
    var i := Find(r.orders, o.clientOrderId);
    r.(orders := if i >= 0 then r.orders[i := o] else r.orders + [o])
  }

  predicate IsOpen(o: Order) {
    !IsTerminal(o.status)
  }

  function OpenOrders(orders: seq<Order>): (r: seq<Order>)
    ensures forall o :: o in r <==> o in orders && IsOpen(o)
  {
    if orders == [] then [] else
      var rest := OpenOrders(orders[1..]);
      assert orders == [orders[0]] + orders[1..];
      if IsOpen(orders[0]) then [orders[0]] + rest else rest
  }

  /** A validated move: illegal ones leave the order as it is. */
  function Moved(o: Order, to: Status): Order {
    if o.status != to && CanTransition(o.status, to) then o.(status := to) else o
  }

  predicate MoveOk(o: Order, to: Status) {
    o.status == to || CanTransition(o.status, to)
  }

  function Transition(r: Registry, id: OrderId, to: Status): Registry {
    var i := Find(r.orders, id);
    if i < 0 then r else r.(orders := r.orders[i := Moved(r.orders[i], to)])
  }

  /** Absolute re-sync from exchange truth: any status, any quantity. */
  function SetReconciled(r: Registry, id: OrderId, filled: real, status: Status): Registry {
    var i := Find(r.orders, id);
    if i < 0 then r else r.(orders := r.orders[i := r.orders[i].(filledQuantity := filled, status := status)])
  }

  predicate Duplicate(r: Registry, fillId: Option<FillId>) {
    fillId.Some? && fillId.value in r.appliedFills
  }

  function Credited(o: Order, qty: real): Order {
    var filled := Min(o.quantity, o.filledQuantity + qty);
    Moved(o.(filledQuantity := filled), if filled >= o.quantity - FULL_TOLERANCE then Filled else PartiallyFilled)
  }

  function ApplyEvent(r: Registry, ev: OrderEvent): Registry {
    var i := Find(r.orders, ev.clientOrderId);
    if i < 0 then r
    else
      match ev.kind
      case Opened => r.(orders := r.orders[i := Moved(r.orders[i], Open)])
      case CancelReport => r.(orders := r.orders[i := Moved(r.orders[i], Cancelled)])
      case RejectReport => r.(orders := r.orders[i := Moved(r.orders[i], Rejected)])
      case FillReport(fillId, _, qty) =>
        if Duplicate(r, fillId) then r
        else Registry(r.orders[i := Credited(r.orders[i], qty.GetOr(0.0))],
                      if fillId.Some? then r.appliedFills + {fillId.value} else r.appliedFills)
  }

  /** Whether the event makes the registry announce a fill to the treasury. */
  predicate Announces(r: Registry, ev: OrderEvent) {
    Has(r, ev.clientOrderId) && ev.kind.FillReport? && !Duplicate(r, ev.kind.fillId)
  }

  function ApplyEvents(r: Registry, evs: seq<OrderEvent>): Registry {
    if evs == [] then r else ApplyEvent(ApplyEvents(r, evs[..|evs| - 1]), evs[|evs| - 1])
  }

  // ── The registry as an object ────────────────────────────────────────────

  class OrderRegistry {
    var orders: seq<Order>
    var appliedFills: set<FillId>

    function State(): Registry
      reads this
    {
      Registry(orders, appliedFills)
    }

    constructor ()
      ensures State() == Registry([], {})
    {
      orders, appliedFills := [], {};
    }

    method Register(req: Request, id: OrderId, paper: bool, now: int) returns (o: Order)
      modifies this
      ensures o == NewOrder(req, id, paper, now) && State() == Put(old(State()), o)
    {
      o := NewOrder(req, id, paper, now);
      var i := Find(orders, id);
      if i >= 0 {
        orders := orders[i := o];
      } else {
        orders := orders + [o];
      }
    }

    method MoveTo(id: OrderId, to: Status) returns (ok: bool)
      modifies this
      ensures State() == Transition(old(State()), id, to)
      ensures var i := Find(old(orders), id); ok <==> i >= 0 && MoveOk(old(orders)[i], to)
    {
      var i := Find(orders, id);
      if i < 0 {
        return false;
      }
      var o := orders[i];
      if o.status == to {
        return true;
      }
      if !CanTransition(o.status, to) {
        return false;
      }
      orders := orders[i := o.(status := to)];
      return true;
    }

    method Reconcile(id: OrderId, filled: real, status: Status)
      modifies this
      ensures State() == SetReconciled(old(State()), id, filled, status)
    {
      var i := Find(orders, id);
      if i >= 0 {
        orders := orders[i := orders[i].(filledQuantity := filled, status := status)];
      }
    }

    method OnEvent(ev: OrderEvent) returns (announced: bool)
      modifies this
      ensures State() == ApplyEvent(old(State()), ev)
      ensures announced <==> Announces(old(State()), ev)
    {
      announced := false;
      var i := Find(orders, ev.clientOrderId);
      if i < 0 {
        return;
      }
      match ev.kind {
        case Opened => orders := orders[i := Moved(orders[i], Open)];
        case CancelReport => orders := orders[i := Moved(orders[i], Cancelled)];
        case RejectReport => orders := orders[i := Moved(orders[i], Rejected)];
        case FillReport(fillId, _, qty) =>
          if fillId.Some? && fillId.value in appliedFills {
            return;
          }
          if fillId.Some? {
            appliedFills := appliedFills + {fillId.value};
          }
          orders := orders[i := Credited(orders[i], qty.GetOr(0.0))];
          announced := true;
      }
    }
  }

  // ── What the registry keeps ──────────────────────────────────────────────

  ghost predicate UniqueIds(orders: seq<Order>) {
    forall i, j :: 0 <= i < j < |orders| ==> orders[i].clientOrderId != orders[j].clientOrderId
  }

  /** What was ordered stays, and a terminal status stays. */
  predicate Evolved(o: Order, o': Order) {
    && o' == o.(status := o'.status, filledQuantity := o'.filledQuantity)
    && (IsTerminal(o.status) ==> o'.status == o.status)
  }

  ghost predicate AllEvolved(orders: seq<Order>, orders': seq<Order>) {
    |orders'| == |orders| && forall i :: 0 <= i < |orders| ==> Evolved(orders[i], orders'[i])
  }

  lemma EventEvolves(r: Registry, ev: OrderEvent)
    ensures AllEvolved(r.orders, ApplyEvent(r, ev).orders)
  {
  }

  /** No event takes an order out of a terminal state, adds an order or changes what was ordered. */
  lemma {:induction false} TerminalIsForever(r: Registry, evs: seq<OrderEvent>)
    ensures AllEvolved(r.orders, ApplyEvents(r, evs).orders)
  {
    hide Transitions, ApplyEvent;
    if evs != [] {
      TerminalIsForever(r, evs[..|evs| - 1]);
      EventEvolves(ApplyEvents(r, evs[..|evs| - 1]), evs[|evs| - 1]);
    }
  }

  lemma EvolvedFinds(orders: seq<Order>, orders': seq<Order>, id: OrderId)
    requires UniqueIds(orders) && AllEvolved(orders, orders')
    ensures UniqueIds(orders') && Find(orders', id) == Find(orders, id)
  {
    var i, j := Find(orders, id), Find(orders', id);
    assert i >= 0 ==> orders'[i].clientOrderId == id;
    assert j >= 0 ==> orders[j].clientOrderId == id;
  }

  /** First deliveries: fill reports for known orders whose id was not seen before. */
  function FirstDeliveries(r: Registry, evs: seq<OrderEvent>): seq<OrderEvent> {
    if evs == [] then [] else
      var front := evs[..|evs| - 1];
      FirstDeliveries(r, front) +
      if Announces(ApplyEvents(r, front), evs[|evs| - 1]) then [evs[|evs| - 1]] else []
  }

  /** The quantity an event reports for an order. */
  function ReportedFor(id: OrderId): OrderEvent -> real {
    (ev: OrderEvent) => if ev.kind.FillReport? && ev.clientOrderId == id then ev.kind.fillQuantity.GetOr(0.0) else 0.0
  }

  ghost predicate NonnegativeFills(evs: seq<OrderEvent>) {
    forall i :: 0 <= i < |evs| && evs[i].kind.FillReport? ==> evs[i].kind.fillQuantity.GetOr(0.0) >= 0.0
  }

  lemma EventCredits(r: Registry, ev: OrderEvent, i: nat)
    requires UniqueIds(r.orders) && i < |r.orders|
    ensures |ApplyEvent(r, ev).orders| == |r.orders|
    ensures ApplyEvent(r, ev).orders[i].filledQuantity ==
      if Announces(r, ev) && ev.clientOrderId == r.orders[i].clientOrderId
      then Min(r.orders[i].quantity, r.orders[i].filledQuantity + ReportedFor(r.orders[i].clientOrderId)(ev))
      else r.orders[i].filledQuantity
  {
  }

  /**
   * However fills are repeated or interleaved, an order's filled quantity is the sum of its distinct ones, capped by
   * the order.
   */
  lemma {:induction false} FilledIsDistinctSum(r: Registry, evs: seq<OrderEvent>, i: nat)
    requires UniqueIds(r.orders) && i < |r.orders| && NonnegativeFills(evs)
    requires r.orders[i].filledQuantity <= r.orders[i].quantity
    ensures var o := r.orders[i];
      |ApplyEvents(r, evs).orders| == |r.orders| &&
      ApplyEvents(r, evs).orders[i].filledQuantity
        == Min(o.quantity, o.filledQuantity + SumBy(FirstDeliveries(r, evs), ReportedFor(o.clientOrderId)))
  {
    hide Transitions, ApplyEvent;
    TerminalIsForever(r, evs);
    if evs != [] {
      var front, ev := evs[..|evs| - 1], evs[|evs| - 1];
      FilledIsDistinctSum(r, front, i);
      TerminalIsForever(r, front);
      EvolvedFinds(r.orders, ApplyEvents(r, front).orders, ev.clientOrderId);
      EventCredits(ApplyEvents(r, front), ev, i);
      SumByAppend(FirstDeliveries(r, front), ev, ReportedFor(r.orders[i].clientOrderId));
      assert FirstDeliveries(r, front) + [] == FirstDeliveries(r, front);
    }
  }

  /** The set of distinct fill reports, when every report carries an id that belongs to one report only. */
  ghost predicate IdsIdentify(evs: set<OrderEvent>) {
    forall e, e' :: e in evs && e' in evs ==>
      e.kind.FillReport? && e'.kind.FillReport? && e.kind.fillId.Some? && (e.kind.fillId == e'.kind.fillId ==> e == e')
  }

  function ReportSet(evs: seq<OrderEvent>): set<OrderEvent> {
    set e | e in evs
  }

  function IdsOf(evs: seq<OrderEvent>): set<FillId> {
    set e | e in evs && e.kind.FillReport? && e.kind.fillId.Some? :: e.kind.fillId.value
  }

  lemma {:induction false} AppliedAreDelivered(r: Registry, evs: seq<OrderEvent>)
    requires UniqueIds(r.orders) && r.appliedFills == {}
    requires forall i :: 0 <= i < |evs| ==> Has(r, evs[i].clientOrderId)
    ensures ApplyEvents(r, evs).appliedFills == IdsOf(evs)
  {
    hide Transitions;
    if evs != [] {
      var front, ev := evs[..|evs| - 1], evs[|evs| - 1];
      assert evs == front + [ev];
      AppliedAreDelivered(r, front);
      TerminalIsForever(r, front);
      EvolvedFinds(r.orders, ApplyEvents(r, front).orders, ev.clientOrderId);
      assert IdsOf(evs) == IdsOf(front) +
        (if ev.kind.FillReport? && ev.kind.fillId.Some? then {ev.kind.fillId.value} else {});
    }
  }

  lemma {:induction false} FirstDeliveriesCollect(r: Registry, evs: seq<OrderEvent>)
    requires UniqueIds(r.orders) && r.appliedFills == {} && IdsIdentify(ReportSet(evs))
    requires forall i :: 0 <= i < |evs| ==> Has(r, evs[i].clientOrderId)
    ensures ReportSet(FirstDeliveries(r, evs)) == ReportSet(evs)
    ensures forall i, j :: 0 <= i < j < |FirstDeliveries(r, evs)| ==>
      FirstDeliveries(r, evs)[i] != FirstDeliveries(r, evs)[j]
  {
    hide Transitions, ApplyEvent;
    if evs != [] {
      var front, ev := evs[..|evs| - 1], evs[|evs| - 1];
      assert evs == front + [ev];
      assert ReportSet(evs) == ReportSet(front) + {ev};
      FirstDeliveriesCollect(r, front);
      AppliedAreDelivered(r, front);
      TerminalIsForever(r, front);
      EvolvedFinds(r.orders, ApplyEvents(r, front).orders, ev.clientOrderId);
      assert ev in ReportSet(evs);
      DeliveredBefore(evs, front, ev);
      assert ReportSet(FirstDeliveries(r, front) + [ev]) == ReportSet(FirstDeliveries(r, front)) + {ev};
      assert ev in FirstDeliveries(r, front) <==> ev in ReportSet(FirstDeliveries(r, front));
    }
  }

  /** When ids identify reports, a report whose id was seen is one that was seen. */
  lemma DeliveredBefore(evs: seq<OrderEvent>, front: seq<OrderEvent>, ev: OrderEvent)
    requires evs == front + [ev] && IdsIdentify(ReportSet(evs)) && ev.kind.FillReport? && ev.kind.fillId.Some?
    ensures ev.kind.fillId.value in IdsOf(front) <==> ev in front
  {
    if ev.kind.fillId.value in IdsOf(front) {
      var e :| e in front && e.kind.FillReport? && e.kind.fillId.Some? && e.kind.fillId.value == ev.kind.fillId.value;
      assert e in ReportSet(evs) && ev in ReportSet(evs);
    }
  }

  /** Two deliveries of the same set of fill reports, in any order and with any repetition, fill every order alike. */
  lemma DeliveryOrderIrrelevant(r: Registry, d1: seq<OrderEvent>, d2: seq<OrderEvent>, i: nat)
    requires UniqueIds(r.orders) && r.appliedFills == {} && i < |r.orders|
    requires r.orders[i].filledQuantity <= r.orders[i].quantity
    requires ReportSet(d1) == ReportSet(d2) && IdsIdentify(ReportSet(d1))
    requires NonnegativeFills(d1) && NonnegativeFills(d2)
    requires forall k :: 0 <= k < |d1| ==> Has(r, d1[k].clientOrderId)
    requires forall k :: 0 <= k < |d2| ==> Has(r, d2[k].clientOrderId)
    ensures |ApplyEvents(r, d1).orders| == |ApplyEvents(r, d2).orders| == |r.orders|
    ensures ApplyEvents(r, d1).orders[i].filledQuantity == ApplyEvents(r, d2).orders[i].filledQuantity
  {
    hide *;
    FilledIsDistinctSum(r, d1, i);
    FilledIsDistinctSum(r, d2, i);
    FirstDeliveriesCollect(r, d1);
    FirstDeliveriesCollect(r, d2);
    DistinctMultiset(FirstDeliveries(r, d1));
    DistinctMultiset(FirstDeliveries(r, d2));
    SumByPermutation(FirstDeliveries(r, d1), FirstDeliveries(r, d2), ReportedFor(r.orders[i].clientOrderId));
  }

  lemma {:induction false} DistinctMultiset(evs: seq<OrderEvent>)
    requires forall i, j :: 0 <= i < j < |evs| ==> evs[i] != evs[j]
    ensures multiset(evs) == multiset(ReportSet(evs))
  {
    if evs != [] {
      DistinctMultiset(evs[1..]);
      assert evs == [evs[0]] + evs[1..];
      assert ReportSet(evs) == {evs[0]} + ReportSet(evs[1..]);
      assert evs[0] !in ReportSet(evs[1..]);
    }
  }
}
