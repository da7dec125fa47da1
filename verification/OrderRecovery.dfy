/** Crash recovery of live orders from exchange truth (backend/src/execution-engine/order-reconciler.ts). */
module OrderRecovery {
  import opened Numeric
  import opened Sums
  import opened Domain
  import opened Orders
  import Treasury

  /** Fills within this of the ordered quantity count as the whole of it. */
  const COVER_TOLERANCE: real := 1e-9

  datatype LiveOrder = LiveOrder(clientOrderId: OrderId, filledSize: real)

  /** What one exchange reports: its open orders and recent fills. */
  datatype Truth = Truth(openOrders: seq<LiveOrder>, fills: seq<Fill>)

  /** Truth per exchange; none where no authenticated client exists. */
  datatype Truths = Truths(bybit: Option<Truth>, mexc: Option<Truth>)

  function TruthAt(t: Truths, ex: Exchange): Option<Truth> {
    match ex case Bybit => t.bybit case Mexc => t.mexc
  }

  /** A map built from a list keeps the last entry of a key. */
  function LiveFilled(live: seq<LiveOrder>, id: OrderId): Option<real> {
    if live == [] then None
    else
      var last := live[|live| - 1];
      if last.clientOrderId == id then Some(last.filledSize) else LiveFilled(live[..|live| - 1], id)
  }

  function SizeFor(id: OrderId): Fill -> real {
    (f: Fill) => if f.clientOrderId == id then f.size else 0.0
  }

  function FilledOnExchange(t: Truth, id: OrderId): real {
    SumBy(t.fills, SizeFor(id))
  }

  /** One order against exchange truth. */
  function Recovered(o: Order, t: Truth): Order {
    var live := LiveFilled(t.openOrders, o.clientOrderId);
    var fromFills := FilledOnExchange(t, o.clientOrderId);
    if live.Some? then
      var filled := Max(live.value, fromFills);
      o.(filledQuantity := filled, status := if filled > 0.0 then PartiallyFilled else Open)
    else if fromFills >= o.quantity - COVER_TOLERANCE then o.(filledQuantity := fromFills, status := Filled)
    else if o.status == Submitted then
      if fromFills > 0.0 then o.(filledQuantity := fromFills, status := PartiallyFilled) else o
    else o.(filledQuantity := fromFills, status := Cancelled)
  }

  predicate Active(o: Order, ex: Exchange) {
    IsOpen(o) && !o.paper && o.exchange == ex
  }

  /** A pass leaves terminal, paper and clientless orders alone. */
  function AfterPass(o: Order, ts: Truths): Order {
    var t := TruthAt(ts, o.exchange);
    if Active(o, o.exchange) && t.Some? then Recovered(o, t.value) else o
  }

  function Pass(orders: seq<Order>, ts: Truths): (r: seq<Order>)
    ensures |r| == |orders|
  {
    seq(|orders|, (i: int) requires 0 <= i < |orders| => AfterPass(orders[i], ts))
  }

  function FillsOf(fills: seq<Fill>, id: OrderId): (r: seq<Fill>)
    ensures forall f :: f in r <==> f in fills && f.clientOrderId == id
  {
    if fills == [] then [] else
      var rest := FillsOf(fills[1..], id);
      assert fills == [fills[0]] + fills[1..];
      if fills[0].clientOrderId == id then [fills[0]] + rest else rest
  }

  function EmittedBy(o: Order, ts: Truths, ex: Exchange): seq<Fill> {
    if Active(o, ex) && TruthAt(ts, ex).Some? then FillsOf(TruthAt(ts, ex).value.fills, o.clientOrderId) else []
  }

  /** Real fills handed to the treasury for one exchange: those of each active order, order by order. */
  function EmittedAt(orders: seq<Order>, ts: Truths, ex: Exchange): seq<Fill> {
    if orders == [] then [] else EmittedBy(orders[0], ts, ex) + EmittedAt(orders[1..], ts, ex)
  }

  function Emitted(orders: seq<Order>, ts: Truths): seq<Fill> {
    EmittedAt(orders, ts, Bybit) + EmittedAt(orders, ts, Mexc)
  }

  // ── The reconciler as an object ──────────────────────────────────────────

  /** After one exchange has been worked through, up to order `n`. */
  ghost predicate DoneUpTo(was: seq<Order>, now: seq<Order>, ts: Truths, ex: Exchange, n: nat) {
    |now| == |was| && forall i :: 0 <= i < |was| ==>
      now[i] == (if was[i].exchange == ex && i >= n then was[i]
                else if was[i].exchange == ex || ex == Mexc then AfterPass(was[i], ts)
                else was[i])
  }

  lemma PassKeepsIds(was: seq<Order>, now: seq<Order>, ts: Truths, ex: Exchange, n: nat)
    requires UniqueIds(was) && DoneUpTo(was, now, ts, ex, n)
    ensures UniqueIds(now) && |now| == |was|
    ensures n < |now| ==> Find(now, now[n].clientOrderId) == n
  {
    assert forall i :: 0 <= i < |was| ==> now[i].clientOrderId == was[i].clientOrderId;
  }

  lemma NothingDone(was: seq<Order>, now: seq<Order>, ts: Truths, ex: Exchange)
    requires DoneUpTo(was, now, ts, ex, 0) && TruthAt(ts, ex).None?
    ensures DoneUpTo(was, now, ts, ex, |was|)
  {
  }

  /** Working through order `n` takes it to its state after the pass. */
  lemma DoneStep(was: seq<Order>, now: seq<Order>, ts: Truths, ex: Exchange, n: nat)
    requires DoneUpTo(was, now, ts, ex, n) && n < |was| && TruthAt(ts, ex).Some?
    ensures |now| == |was|
    ensures Active(now[n], ex) ==>
      && now[n] == was[n]
      && Recovered(now[n], TruthAt(ts, ex).value)
         == now[n].(filledQuantity := Recovered(now[n], TruthAt(ts, ex).value).filledQuantity,
                    status := Recovered(now[n], TruthAt(ts, ex).value).status)
      && DoneUpTo(was, now[n := Recovered(now[n], TruthAt(ts, ex).value)], ts, ex, n + 1)
    ensures !Active(now[n], ex) ==> DoneUpTo(was, now, ts, ex, n + 1)
    ensures (Active(now[n], ex) <==> Active(was[n], ex)) && now[n].clientOrderId == was[n].clientOrderId
  {
    hide LiveFilled, FilledOnExchange, Transitions;
    if was[n].exchange != ex {
      assert !Active(was[n], ex);
    }
  }

  lemma EmittedFrom(orders: seq<Order>, ts: Truths, ex: Exchange, n: nat)
    requires n < |orders|
    ensures EmittedAt(orders[n..], ts, ex) == EmittedBy(orders[n], ts, ex) + EmittedAt(orders[n + 1..], ts, ex)
  {
    assert orders[n..][0] == orders[n] && orders[n..][1..] == orders[n + 1..];
  }

  lemma OwnFills(was: Order, o: Order, ts: Truths, ex: Exchange)
    requires TruthAt(ts, ex).Some? && (Active(o, ex) <==> Active(was, ex)) && o.clientOrderId == was.clientOrderId
    ensures EmittedBy(was, ts, ex) == if Active(o, ex) then FillsOf(TruthAt(ts, ex).value.fills, o.clientOrderId)
      else []
  {
  }

  class OrderReconciler {
    const registry: OrderRegistry

    constructor (registry: OrderRegistry)
      ensures this.registry == registry
    {
      this.registry := registry;
    }

    method ReconcileExchange(ts: Truths, ex: Exchange, ghost was: seq<Order>) returns (emitted: seq<Fill>)
      requires UniqueIds(was) && DoneUpTo(was, registry.orders, ts, ex, 0)
      modifies registry
      ensures DoneUpTo(was, registry.orders, ts, ex, |was|)
      ensures registry.appliedFills == old(registry.appliedFills)
      ensures emitted == EmittedAt(was, ts, ex)
    {
      hide LiveFilled, FilledOnExchange, Transitions, FillsOf, EmittedBy, DoneUpTo, AfterPass, UniqueIds;
      emitted := [];
      PassKeepsIds(was, registry.orders, ts, ex, 0);
      var truth := TruthAt(ts, ex);
      if truth.None? {
        NothingEmitted(was, ts, ex);
        NothingDone(was, registry.orders, ts, ex);
        return;
      }
      for n := 0 to |registry.orders|
        invariant |registry.orders| == |was|
        invariant DoneUpTo(was, registry.orders, ts, ex, n)
        invariant registry.appliedFills == old(registry.appliedFills)
        invariant emitted + EmittedAt(was[n..], ts, ex) == EmittedAt(was, ts, ex)
      {
        ghost var before := registry.orders;
        var o := registry.orders[n];
        PassKeepsIds(was, before, ts, ex, n);
        DoneStep(was, before, ts, ex, n);
        EmittedFrom(was, ts, ex, n);
        ghost var rest := EmittedAt(was[n + 1..], ts, ex);
        assert emitted + (EmittedBy(was[n], ts, ex) + rest) == (emitted + EmittedBy(was[n], ts, ex)) + rest;
        OwnFills(was[n], o, ts, ex);
        if Active(o, ex) {
          emitted := emitted + FillsOf(truth.value.fills, o.clientOrderId);
          var r := Recovered(o, truth.value);
          registry.Reconcile(o.clientOrderId, r.filledQuantity, r.status);
          assert registry.orders == before[n := r];
        }
        assert emitted + EmittedAt(was[n + 1..], ts, ex) == EmittedAt(was, ts, ex);
      }
    }

    method Reconcile(ts: Truths) returns (emitted: seq<Fill>)
      requires UniqueIds(registry.orders)
      modifies registry
      ensures registry.orders == Pass(old(registry.orders), ts)
      ensures registry.appliedFills == old(registry.appliedFills)
      ensures emitted == Emitted(old(registry.orders), ts)
    {
      ghost var was := registry.orders;
      var first := ReconcileExchange(ts, Bybit, was);
      assert DoneUpTo(was, registry.orders, ts, Mexc, 0);
      var second := ReconcileExchange(ts, Mexc, was);
      emitted := first + second;
    }
  }

  lemma {:induction false} NothingEmitted(orders: seq<Order>, ts: Truths, ex: Exchange)
    requires TruthAt(ts, ex).None?
    ensures EmittedAt(orders, ts, ex) == []
  {
    if orders != [] {
      NothingEmitted(orders[1..], ts, ex);
    }
  }

  // ── What a pass achieves ─────────────────────────────────────────────────

  /** Submitted, not visible as open, and partly filled: the one state a single pass does not settle. */
  predicate HalfLanded(o: Order, ts: Truths) {
    var t := TruthAt(ts, o.exchange);
    Active(o, o.exchange) && t.Some? && o.status == Submitted &&
    LiveFilled(t.value.openOrders, o.clientOrderId).None? &&
    0.0 < FilledOnExchange(t.value, o.clientOrderId) < o.quantity - COVER_TOLERANCE
  }

  /**
   * With unchanged truth two passes reach a fixed point, and one pass does exactly when no order is half landed.
   * Filled quantities are final after the first pass. No pass cancels a submitted order, but a half-landed one is
   * cancelled by the second pass.
   */
  lemma PassConverges(o: Order, ts: Truths)
    ensures var one := AfterPass(o, ts); var two := AfterPass(one, ts);
      && AfterPass(two, ts) == two
      && (two == one <==> !HalfLanded(o, ts))
      && two.filledQuantity == one.filledQuantity
      && (o.status == Submitted ==> one.status != Cancelled)
      && (HalfLanded(o, ts) ==> two.status == Cancelled)
      && (IsTerminal(o.status) ==> one == o)
  {
    hide LiveFilled, FilledOnExchange;
  }

  /** An order for 10 of which the exchange filled 4 and lists nothing more. */
  function LandedOrder(): Order {
    Order("zig-1", "1", Bybit, "ZIGUSDT", Sell, 0.06, 10.0, 0.0, Submitted, None, None, Other("manual"), false, 0)
  }

  function LandedTruth(): Truth {
    Truth([], [Fill(ExchangeFillId("f1"), "zig-1", Sell, 0.06, 4.0, 0.0, FeeInQuote, 1)])
  }

  /** It stays open after one pass and is cancelled by the next, on the very same exchange truth. */
  lemma HalfLandedInstance(o: Order, t: Truth)
    requires o == LandedOrder() && t == LandedTruth()
    ensures var ts := Truths(Some(t), None); var one := AfterPass(o, ts);
      && HalfLanded(o, ts)
      && one == o.(filledQuantity := 4.0, status := PartiallyFilled)
      && AfterPass(one, ts) == o.(filledQuantity := 4.0, status := Cancelled)
  {
    assert t.fills == [] + [t.fills[0]];
    SumByAppend([], t.fills[0], SizeFor(o.clientOrderId));
    assert FilledOnExchange(t, o.clientOrderId) == 4.0;
  }

  /** The same for a whole registry. */
  lemma RegistryConverges(orders: seq<Order>, ts: Truths)
    ensures var one := Pass(orders, ts); var two := Pass(one, ts);
      && Pass(two, ts) == two
      && (two == one <==> forall i :: 0 <= i < |orders| ==> !HalfLanded(orders[i], ts))
  {
    hide AfterPass, HalfLanded;
    var one := Pass(orders, ts);
    var two := Pass(one, ts);
    forall i | 0 <= i < |orders|
      ensures AfterPass(two[i], ts) == two[i]
      ensures two[i] == one[i] <==> !HalfLanded(orders[i], ts)
    {
      PassConverges(orders[i], ts);
    }
  }

  /** A settled order agrees with the exchange: filled exactly when the fills cover it and it is no longer listed. */
  lemma SettledAgreesWithExchange(o: Order, ts: Truths)
    requires Active(o, o.exchange) && TruthAt(ts, o.exchange).Some?
    ensures var t := TruthAt(ts, o.exchange).value; var two := AfterPass(AfterPass(o, ts), ts);
      var listed := LiveFilled(t.openOrders, o.clientOrderId).Some?;
      var covered := FilledOnExchange(t, o.clientOrderId) >= o.quantity - COVER_TOLERANCE;
      && (two.status == Filled <==> !listed && covered)
      && (two.status == Open || two.status == PartiallyFilled <==> listed)
      && (two.status == Cancelled || two.status == Submitted <==> !listed && !covered)
      && (two.status == Submitted ==> two == o && FilledOnExchange(t, o.clientOrderId) <= 0.0)
  {
  }

  lemma EmittedByShrinks(o: Order, ts: Truths, ex: Exchange)
    ensures EmittedBy(AfterPass(o, ts), ts, ex) == EmittedBy(o, ts, ex) || EmittedBy(AfterPass(o, ts), ts, ex) == []
  {
    hide LiveFilled, FilledOnExchange, FillsOf;
    assert AfterPass(o, ts).clientOrderId == o.clientOrderId;
    assert Active(AfterPass(o, ts), ex) ==> Active(o, ex);
  }

  lemma {:induction false} EmittedShrinks(orders: seq<Order>, ts: Truths, ex: Exchange)
    ensures Treasury.Elements(EmittedAt(Pass(orders, ts), ts, ex)) <= Treasury.Elements(EmittedAt(orders, ts, ex))
  {
    hide AfterPass, EmittedBy;
    if orders != [] {
      EmittedByShrinks(orders[0], ts, ex);
      EmittedShrinks(orders[1..], ts, ex);
      assert Pass(orders, ts)[1..] == Pass(orders[1..], ts);
      ElementsOfConcat(EmittedBy(orders[0], ts, ex), EmittedAt(orders[1..], ts, ex));
      ElementsOfConcat(EmittedBy(AfterPass(orders[0], ts), ts, ex), EmittedAt(Pass(orders[1..], ts), ts, ex));
    }
  }

  /** Running recovery again tells the treasury nothing new: its state after two passes is its state after one. */
  lemma RepeatedRecoveryIsSilent(orders: seq<Order>, ts: Truths, reserveFloor: real)
    requires Treasury.Distinguishable(Treasury.Elements(Emitted(orders, ts)))
    ensures var first := Emitted(orders, ts); var second := Emitted(Pass(orders, ts), ts);
      Treasury.DeriveTreasury(Treasury.Ingest([], first + second), reserveFloor)
        == Treasury.DeriveTreasury(Treasury.Ingest([], first), reserveFloor)
  {
    var first, second := Emitted(orders, ts), Emitted(Pass(orders, ts), ts);
    EmittedShrinks(orders, ts, Bybit);
    EmittedShrinks(orders, ts, Mexc);
    ElementsOfConcat(EmittedAt(orders, ts, Bybit), EmittedAt(orders, ts, Mexc));
    ElementsOfConcat(EmittedAt(Pass(orders, ts), ts, Bybit), EmittedAt(Pass(orders, ts), ts, Mexc));
    ElementsOfConcat(first, second);
    Treasury.DeliveryIndependent(first + second, first, reserveFloor);
  }

  lemma ElementsOfConcat(a: seq<Fill>, b: seq<Fill>)
    ensures Treasury.Elements(a + b) == Treasury.Elements(a) + Treasury.Elements(b)
  {
  }
}
