/**
 * The objects of the paper soak, each refining its part of the desk: AccumulationEngine, PaperSoak, PaperEngine,
 * ExecutionPipeline and HarvestDriver. What they promise is proved about the functions they compute.
 */
module PaperTrading {
  import opened Numeric
  import opened Domain
  import opened Orders
  import opened PaperAccount
  import opened VirtualAccounts
  import opened Risk
  import opened Soaks
  import opened Desks
  import opened Drivers
  import PriceBuckets
  import H = HarvestCycles
  import Lots = AccumulationLots
  import Funds = AccumulationBudget

  /** No cycle and no lot was opened after `now`. */
  ghost predicate OpenedBy(cycles: seq<H.HarvestCycle>, lots: seq<Lots.Lot>, now: int) {
    && (forall i :: 0 <= i < |cycles| ==> cycles[i].openedAt <= now)
    && forall i :: 0 <= i < |lots| ==> lots[i].openedAt <= now
  }

  lemma RecordRolls(b: Funds.BudgetState, spentUsdt: real, now: int)
    ensures Funds.RollDay(Funds.Record(b, spentUsdt, now), now) == Funds.Record(b, spentUsdt, now)
  {
  }

  class AccumulationEngine {
    const cfg: SoakCfg
    const tracker: Lots.AccumulationCycleTracker
    const budget: Funds.Budget
    var cooldownUntil: int
    var bucketUntil: map<Bucket, int>

    ghost predicate Valid()
      reads this, tracker
    {
      CfgOk(cfg) && tracker.Valid() && tracker.params == cfg.lots && budget.caps == cfg.caps
    }

    constructor (cfg: SoakCfg, now: int)
      requires CfgOk(cfg)
      ensures Valid() && fresh(tracker) && fresh(budget) && this.cfg == cfg
      ensures tracker.lots == [] && budget.State() == Funds.Fresh(now) && cooldownUntil == 0 && bucketUntil == map[]
    {
      this.cfg := cfg;
      tracker := new Lots.AccumulationCycleTracker(cfg.lots);
      budget := new Funds.Budget(cfg.caps, now);
      cooldownUntil, bucketUntil := 0, map[];
    }

    /** A fill of an accumulation order: lots and budget move; a sell that cannot be attributed throws. */
    method OnPaperFill(t: PaperTrade) returns (threw: bool)
      requires Valid() && t.size > 0.0 && t.price > 0.0
      requires tracker.lots != [] ==> tracker.lots[|tracker.lots| - 1].openedAt <= t.at
      modifies tracker, budget
      ensures Valid()
      ensures LotBooks(tracker.lots, budget.State(), threw) == RouteFill(old(tracker.lots), old(budget.State()), cfg, t)
    {
      hide Times, Over, Lots.Sell, Lots.NewLot, Funds.Record, Funds.Release, Funds.RollDay,
        Lots.LotsInOrder, CfgOk;
      var feeUsdt := FeeUsdt(t, cfg.account);
      if t.side == Buy {
        var l := tracker.OnBuy(t.size, t.price, feeUsdt, t.at);
        budget.RecordSpend(Notional(t) + feeUsdt, t.at);
        RecordRolls(old(budget.State()), Notional(t) + feeUsdt, t.at);
        var snapshot := budget.Snapshot(t.at);
        threw := false;
      } else {
        NetPricePositive(t, cfg);
        var reclaimed;
        reclaimed, threw := tracker.OnRecoverySell(t.size, t.price, feeUsdt, t.cycleIds);
        if !threw {
          budget.ReleasePrincipal(reclaimed);
          var snapshot := budget.Snapshot(t.at);
        }
      }
    }

    /** Closes the oldest lot whose target the bid has reached; true when the tick's one action was used on it. */
    method AttemptRecoverySell(pipeline: ExecutionPipeline, env: Env, q: Quote) returns (acted: bool)
      requires pipeline.Valid() && pipeline.paper.soak.acc == this && pipeline.paper.soak.UpTo(env.now)
        && pipeline.cfg == cfg
      modifies pipeline, pipeline.paper, pipeline.paper.registry, pipeline.paper.soak.account,
        pipeline.paper.soak.account.tracker,
        tracker, budget, pipeline.paper.soak.stateEngine
      ensures pipeline.Valid() && pipeline.paper.soak.UpTo(env.now)
      ensures var move := RecoveryMove(old(pipeline.State()).soak, cfg, env, q.bid);
        && acted == move.Recover?
        && pipeline.State() ==
           if acted then Desks.Submit(old(pipeline.State()), cfg, env, RequestFor(move, cfg, env, q)).desk
           else old(pipeline.State())
    {
      hide Times, Over, Desks.Submit, CfgOk, Publish, Lots.OpenForRecovery, Lots.LotsInOrder, Lots.RecoverySellQty,
        OpenedBy;
      if !cfg.acc.recoveryEnabled || !env.allowed.accumulationRecoverySell {
        return false;
      }
      var eligible := Lots.OpenForRecovery(tracker.lots, q.bid, Pct(cfg));
      if eligible == [] {
        return false;
      }
      var l := eligible[0];
      var required := Lots.RecoverySellQty(l.usdtSpent, Pct(cfg), l.usdtRecovered,
        Times(q.bid, 1.0 - FeeRate(cfg.account)));
      var qty := Min(Lots.Held(l), Max(required, cfg.risk.minOrderZig));
      if qty <= 0.0 || qty < cfg.risk.minOrderZig {
        return false;
      }
      var outcome, halted := pipeline.Submit(env, RequestFor(Recover(qty, l.id), cfg, env, q));
      acted := true;
    }

    /** The checks before the budget is asked. */
    method MayBuy(pipeline: ExecutionPipeline, env: Env, q: Quote, ghost mem: Memory) returns (may: bool)
      requires CfgOk(cfg) && Remembers(mem)
      ensures may == MayAccumulate(pipeline.paper.soak.State(), mem, cfg, env, q)
    {
      hide PriceBuckets.PriceBucketId;
      if !env.allowed.accumulationBuy {
        return false;
      }
      if (q.market.regime == Chaotic && !cfg.acc.allowChaotic)
        || (q.market.regime == HighVol && !cfg.acc.allowHighVol) {
        return false;
      }
      if q.market.spreadBps > cfg.acc.maxSpreadBps || q.market.askLiquidity < cfg.acc.minLiquidityUsdt {
        return false;
      }
      if env.now < cooldownUntil || !Unlocked(bucketUntil, BucketOf(q.ask, cfg.acc.bucketBps), env.now) {
        return false;
      }
      may := pipeline.paper.soak.account.usdt > cfg.caps.minUsdtFloor;
    }

    /** Asks the budget, rolling its day, and sizes the tranche to the book. */
    method SizeTranche(pipeline: ExecutionPipeline, env: Env, q: Quote) returns (spend: real)
      requires pipeline.paper.soak.acc == this && budget.caps == cfg.caps
      modifies budget
      ensures pipeline.paper.soak.State() == Rolled(old(pipeline.paper.soak.State()), env.now)
      ensures spend == Tranche(pipeline.paper.soak.State(), cfg, q.market.askLiquidity)
    {
      hide Times, Over, Funds.MaxSpend;
      var account := pipeline.paper.soak.account;
      var most := budget.MaxSpendNow(account.usdt, account.tracker.RebuyReserveUsdt(), env.now);
      spend := Min(cfg.acc.trancheUsdt, most);
      if cfg.acc.liquidityMultiple > 0.0 {
        var maxAgainstBook := Over(q.market.askLiquidity, cfg.acc.liquidityMultiple);
        if maxAgainstBook < spend {
          spend := maxAgainstBook;
        }
      }
    }

    /** The engine's own part of the driver's memory. */
    predicate Remembers(mem: Memory)
      reads this
    {
      cooldownUntil == mem.accCooldownUntil && bucketUntil == mem.accBucketUntil
    }

    /** Its locks are armed by an accepted order only. */
    method Arm(move: Move, accepted: bool, env: Env, q: Quote, ghost mem: Memory)
      requires CfgOk(cfg) && Remembers(mem) && move.Accumulate?
      modifies this
      ensures Remembers(Remember(mem, move, accepted, cfg, env, q))
    {
      hide PriceBuckets.PriceBucketId;
      if accepted {
        cooldownUntil := env.now + cfg.acc.cooldownMs;
        bucketUntil := bucketUntil[BucketOf(q.ask, cfg.acc.bucketBps) := env.now + cfg.acc.cooldownMs];
      }
    }

    /** Sends the order a tranche pays for. */
    method SendTranche(pipeline: ExecutionPipeline, spend: real, env: Env, q: Quote, ghost mem: Memory)
      requires Valid() && pipeline.Valid() && pipeline.paper.soak.acc == this
      requires pipeline.paper.soak.UpTo(env.now) && pipeline.cfg == cfg
      requires Remembers(mem) && spend == Tranche(pipeline.paper.soak.State(), cfg, q.market.askLiquidity)
      modifies this, pipeline, pipeline.paper, pipeline.paper.registry, pipeline.paper.soak.account,
        pipeline.paper.soak.account.tracker, tracker, budget, pipeline.paper.soak.stateEngine
      ensures pipeline.Valid() && pipeline.paper.soak.UpTo(env.now)
      ensures var t := SendBuy(old(pipeline.State()), mem, cfg, env, q);
        pipeline.State() == t.desk && Remembers(t.memory)
    {
      hide Times, Over, Desks.Submit, Publish, Lots.LotsInOrder, CfgOk, OpenedBy, Affordable, Tranche, FeeRate,
        Remember, RequestFor;
      if spend > 0.0 {
        var move := Accumulate(Affordable(spend, Times(q.ask, 1.0 + FeeRate(cfg.account))));
        var outcome, halted := pipeline.Submit(env, RequestFor(move, cfg, env, q));
        Arm(move, outcome.Accepted?, env, q, mem);
      }
    }

    /** Opens a new lot when zone, market, cooldown, bucket and budget all allow it. */
    method AttemptBuy(pipeline: ExecutionPipeline, env: Env, q: Quote, ghost mem: Memory)
      requires Valid() && pipeline.Valid() && pipeline.paper.soak.acc == this
      requires pipeline.paper.soak.UpTo(env.now) && pipeline.cfg == cfg && Remembers(mem)
      modifies this, pipeline, pipeline.paper, pipeline.paper.registry, pipeline.paper.soak.account,
        pipeline.paper.soak.account.tracker, tracker, budget, pipeline.paper.soak.stateEngine
      ensures pipeline.Valid() && pipeline.paper.soak.UpTo(env.now)
      ensures var t := BuyAttempt(old(pipeline.State()), mem, cfg, env, q);
        pipeline.State() == t.desk && Remembers(t.memory)
    {
      hide Publish, Lots.LotsInOrder, CfgOk, OpenedBy, MayAccumulate, Tranche, SendBuy, Rolled;
      var may := MayBuy(pipeline, env, q, mem);
      if may {
        var spend := SizeTranche(pipeline, env, q);
        SendTranche(pipeline, spend, env, q, mem);
      }
    }
  }

  class PaperSoak {
    const cfg: SoakCfg
    const account: VirtualAccount
    const acc: AccumulationEngine
    const stateEngine: StateEngine

    function State(): Soak
      reads account, account.tracker, acc.tracker, acc.budget
    {
      Soak(account.State(), acc.tracker.lots, acc.budget.State())
    }

    ghost predicate Valid()
      reads account, account.tracker, acc, acc.tracker, stateEngine
    {
      account.Valid() && account.cfg == cfg.account && acc.Valid() && acc.cfg == cfg && account.Published(stateEngine)
    }

    ghost predicate UpTo(now: int)
      reads account.tracker, acc.tracker
    {
      OpenedBy(account.tracker.cycles, acc.tracker.lots, now)
    }

    /** The soak as it is started: an account seeded at the entry cost, no lots, a fresh budget. */
    constructor (cfg: SoakCfg, entryCost: real, stateEngine: StateEngine, now: int)
      requires CfgOk(cfg)
      modifies stateEngine
      ensures Valid() && UpTo(now) && this.cfg == cfg && this.stateEngine == stateEngine
      ensures fresh(account) && fresh(account.tracker) && fresh(acc) && fresh(acc.tracker) && fresh(acc.budget)
      ensures State() == Started(cfg, entryCost, now)
    {
      this.cfg := cfg;
      account := new VirtualAccount(cfg.account);
      acc := new AccumulationEngine(cfg, now);
      this.stateEngine := stateEngine;
      new;
      account.SeedPosition(stateEngine, entryCost, now);
    }

    /** The registry's news of a paper fill; the handler's exception leaves what it moved before. */
    method OnPaperFill(o: Order, news: FillNews) returns (threw: bool)
      requires Valid() && UpTo(news.at)
      modifies account, account.tracker, acc.tracker, acc.budget, stateEngine
      ensures Valid() && UpTo(news.at)
      ensures Outcome(State(), threw) == Soaks.OnPaperFill(old(State()), cfg, o, news)
    {
      hide Times, Over, RouteFill, ApplyPaperFill, Lots.SurplusZig, ProtectSurplus, InvalidSurplus, Publish, TradeOf,
        H.BookInOrder, Lots.LotsInOrder;
      FillUpTo(State(), cfg, o, news);
      if o.exchange != cfg.exchange || news.size.GetOr(0.0) <= 0.0 {
        return false;
      }
      var t := TradeOf(o, news);
      TradeTime(o, news);
      AppliedTrade(account.State(), cfg.account, t);
      var error := account.Apply(t, stateEngine);
      if error.Some? {
        return true;
      }
      if t.kind == Accumulation && cfg.accEnabled {
        var before := Lots.SurplusZig(acc.tracker.lots);
        threw := acc.OnPaperFill(t);
        if threw {
          return;
        }
        var added := Lots.SurplusZig(acc.tracker.lots) - before;
        if added > 0.0 {
          threw := account.Protect(added, stateEngine);
        }
      } else {
        threw := false;
      }
    }
  }

  lemma TradeTime(o: Order, news: FillNews)
    ensures TradeOf(o, news).at == news.at
  {
  }

  lemma AppliedTrade(a: Account, cfg: AccountCfg, t: PaperTrade)
    ensures ApplyPaperFill(a, cfg, t).Applied? ==> t.size > 0.0 && t.price > 0.0
  {
    hide Times, Settled, CyclesAfter;
  }

  /** A fill opens nothing later than itself. */
  lemma FillUpTo(s: Soak, cfg: SoakCfg, o: Order, news: FillNews)
    requires CfgOk(cfg) && OpenedBy(s.account.cycles, s.lots, news.at)
    ensures var s' := Soaks.OnPaperFill(s, cfg, o, news).soak; OpenedBy(s'.account.cycles, s'.lots, news.at)
  {
    hide Times, Over, Lots.SurplusZig, Funds.Record, Funds.Release, InvalidSurplus, ApplyPaperFill, RouteFill;
    var t := TradeOf(o, news);
    if ApplyPaperFill(s.account, cfg.account, t).Applied? {
      CyclesUpTo(s.account, cfg.account, t);
      AppliedTrade(s.account, cfg.account, t);
      LotsUpTo(s, cfg, t);
    }
  }

  lemma CyclesUpTo(a: Account, cfg: AccountCfg, t: PaperTrade)
    requires ApplyPaperFill(a, cfg, t).Applied? && forall i :: 0 <= i < |a.cycles| ==> a.cycles[i].openedAt <= t.at
    ensures var cs := ApplyPaperFill(a, cfg, t).account.cycles; forall i :: 0 <= i < |cs| ==> cs[i].openedAt <= t.at
  {
    hide Times, Over, Settled, FillProblem;
  }

  lemma LotsUpTo(s: Soak, cfg: SoakCfg, t: PaperTrade)
    requires CfgOk(cfg) && t.size > 0.0 && t.price > 0.0 && forall i :: 0 <= i < |s.lots| ==> s.lots[i].openedAt <= t.at
    ensures var ls := RouteFill(s.lots, s.budget, cfg, t).lots; forall i :: 0 <= i < |ls| ==> ls[i].openedAt <= t.at
  {
    hide Times, Over, Funds.Record, Funds.Release;
    NetPricePositive(t, cfg);
  }

  // ── Paper engine ─────────────────────────────────────────────────────────

  /** The guard reads the soak and the registry; what rests and what was submitted is nothing to it. */
  lemma GuardReads(d: Desk, d': Desk, cfg: SoakCfg, env: Env, o: Order)
    requires d'.soak == d.soak && d'.reg == d.reg
    ensures Guard(d', cfg, env, o) == Guard(d, cfg, env, o)
  {
    hide Evaluate, PendingAllowed, Publish;
  }

  class PaperEngine {
    const cfg: SoakCfg
    const registry: OrderRegistry
    const soak: PaperSoak
    var resting: seq<OrderId>

    ghost predicate Valid()
      reads soak.account, soak.account.tracker, soak.acc, soak.acc.tracker, soak.stateEngine
    {
      soak.Valid() && soak.cfg == cfg && CfgOk(cfg)
    }

    /** The engine's part of a desk: soak, registry and what rests. */
    ghost predicate Shows(d: Desk)
      reads this, registry, soak.account, soak.account.tracker, soak.acc.tracker, soak.acc.budget
    {
      d.soak == soak.State() && d.reg == registry.State() && d.resting == resting
    }

    function View(): (d: Desk)
      reads this, registry, soak.account, soak.account.tracker, soak.acc.tracker, soak.acc.budget
      ensures Shows(d)
    {
      Desk(soak.State(), registry.State(), resting, {}, [])
    }

    constructor (registry: OrderRegistry, soak: PaperSoak)
      requires soak.Valid() && CfgOk(soak.cfg)
      ensures Valid() && resting == [] && this.registry == registry && this.soak == soak && cfg == soak.cfg
    {
      this.cfg, this.registry, this.soak, resting := soak.cfg, registry, soak, [];
    }

    method Fill(env: Env, o: Order, ghost d: Desk) returns (threw: bool)
      requires Valid() && Shows(d) && soak.UpTo(env.now)
      modifies registry, soak.account, soak.account.tracker, soak.acc.tracker, soak.acc.budget, soak.stateEngine
      ensures Valid() && soak.UpTo(env.now)
      ensures var f := DeliverFill(d, cfg, env, o);
        Shows(f.desk) && threw == f.threw && f.desk.submitted == d.submitted && f.desk.placed == d.placed
    {
      hide OnPaperFill, ApplyEvent, RegimeNow, CfgOk, Publish;
      if Remaining(o) <= 0.0 {
        return false;
      }
      var ev := FillOf(o, env.now);
      var announced := registry.OnEvent(ev);
      if announced {
        threw := soak.OnPaperFill(o,
          FillNews(ev.kind.fillQuantity, ev.kind.fillPrice, ev.at, RegimeNow(cfg, env), env.tag));
      } else {
        threw := false;
      }
    }

    method PlaceOrder(env: Env, o: Order, ghost d: Desk) returns (answer: Answer)
      requires Valid() && Shows(d) && soak.UpTo(env.now)
      modifies this, registry, soak.account, soak.account.tracker, soak.acc.tracker, soak.acc.budget, soak.stateEngine
      ensures Valid() && soak.UpTo(env.now)
      ensures var p := PlaceOnPaper(d, cfg, env, o);
        Shows(p.desk) && answer == p.answer && p.desk.submitted == d.submitted && p.desk.placed == d.placed
    {
      hide OnPaperFill, ApplyEvent, CfgOk, Publish, Guard, DeliverFill, Marketable;
      GuardReads(d, View(), cfg, env, o);
      if !Guard(View(), cfg, env, o) {
        return Refuses;
      }
      var announced := registry.OnEvent(OrderEvent(EventKind.Opened, o.clientOrderId, env.now));
      if Fills(cfg, env, o) {
        var threw := Fill(env, o, Emit(d, OrderEvent(EventKind.Opened, o.clientOrderId, env.now)));
        answer := if threw then Throws else Accepts;
      } else {
        resting := resting + [o.clientOrderId];
        answer := Accepts;
      }
    }

    method CancelResting(env: Env, id: OrderId, ghost d: Desk)
      requires Valid() && Shows(d)
      modifies this, registry
      ensures Valid()
      ensures var c := CancelOnPaper(d, env, id); Shows(c) && c.submitted == d.submitted && c.placed == d.placed
    {
      hide ApplyEvent, CfgOk, Publish;
      if id in resting {
        resting := Remove(resting, id);
        var announced := registry.OnEvent(OrderEvent(CancelReport, id, env.now));
      }
    }

    method Visit(env: Env, id: OrderId, ghost d: Desk) returns (threw: bool)
      requires Valid() && Shows(d) && soak.UpTo(env.now)
      modifies this, registry, soak.account, soak.account.tracker, soak.acc.tracker, soak.acc.budget, soak.stateEngine
      ensures Valid() && soak.UpTo(env.now)
      ensures var f := TickOne(d, cfg, env, id);
        Shows(f.desk) && threw == f.threw && f.desk.submitted == d.submitted && f.desk.placed == d.placed
    {
      hide ApplyEvent, CfgOk, Publish, Guard, DeliverFill, Marketable, CancelOnPaper;
      threw := false;
      var i := Find(registry.orders, id);
      if i >= 0 {
        var o := registry.orders[i];
        GuardReads(d, View(), cfg, env, o);
        if !Guard(View(), cfg, env, o) {
          CancelResting(env, id, d);
        } else if Fills(cfg, env, o) {
          resting := Remove(resting, id);
          threw := Fill(env, o, d.(resting := Remove(d.resting, id)));
        }
      }
    }

    /** A market update visits a snapshot of what rests, one order at a time, until a handler throws. */
    method Tick(env: Env, ghost d: Desk) returns (threw: bool)
      requires Valid() && Shows(d) && soak.UpTo(env.now)
      modifies this, registry, soak.account, soak.account.tracker, soak.acc.tracker, soak.acc.budget, soak.stateEngine
      ensures Valid() && soak.UpTo(env.now)
      ensures var f := EngineTick(d, cfg, env);
        Shows(f.desk) && threw == f.threw && f.desk.submitted == d.submitted && f.desk.placed == d.placed
    {
      hide TickOne, CfgOk, Publish;
      var snapshot := resting;
      threw := false;
      ghost var now := d;
      var i := 0;
      while i < |snapshot| && !threw
        invariant 0 <= i <= |snapshot|
        invariant Valid() && soak.UpTo(env.now) && Shows(now) && now.submitted == d.submitted && now.placed == d.placed
        invariant EngineTick(d, cfg, env) == if threw then Delivered(now, true)
          else TickOver(now, cfg, env, snapshot[i..])
      {
        assert snapshot[i..][0] == snapshot[i] && snapshot[i..][1..] == snapshot[i + 1..];
        ghost var first := TickOne(now, cfg, env, snapshot[i]);
        threw := Visit(env, snapshot[i], now);
        now := first.desk;
        i := i + 1;
      }
    }
  }

  // ── Pipeline ─────────────────────────────────────────────────────────────

  lemma DecideReads(d: Desk, d': Desk, cfg: SoakCfg, env: Env, req: Request, others: seq<Order>)
    requires d'.soak == d.soak
    ensures Decide(d', cfg, env, req, others) == Decide(d, cfg, env, req, others)
  {
    hide Evaluate, Publish;
  }

  class ExecutionPipeline {
    const cfg: SoakCfg
    const paper: PaperEngine
    var submitted: set<OrderId>
    ghost var placed: seq<OrderId>

    ghost predicate Valid()
      reads paper.soak.account, paper.soak.account.tracker, paper.soak.acc, paper.soak.acc.tracker,
        paper.soak.stateEngine
    {
      paper.Valid() && paper.cfg == cfg
    }

    ghost function State(): Desk
      reads this, paper, paper.registry, paper.soak.account, paper.soak.account.tracker, paper.soak.acc.tracker,
        paper.soak.acc.budget
    {
      Desk(paper.soak.State(), paper.registry.State(), paper.resting, submitted, placed)
    }

    constructor (paper: PaperEngine)
      requires paper.Valid()
      ensures Valid() && submitted == {} && placed == [] && this.paper == paper && cfg == paper.cfg
    {
      this.cfg, this.paper, submitted, placed := paper.cfg, paper, {}, [];
    }

    method PruneSubmitted()
      modifies this`submitted
      ensures State() == Prune(old(State()))
    {
      if |submitted| < PRUNE_SUBMITTED_AT {
        return;
      }
      ghost var was, known := submitted, Ids(paper.registry.State());
      var todo := submitted;
      while todo != {}
        invariant todo <= was
        invariant forall x :: x in submitted <==> x in was && (x in todo || x !in known)
        decreases |todo|
      {
        var id :| id in todo;
        todo := todo - {id};
        KnownId(paper.registry.State(), id);
        if Find(paper.registry.orders, id) >= 0 {
          submitted := submitted - {id};
        }
      }
      assert submitted == was - known;
    }

    method Submit(env: Env, req: Request) returns (outcome: Submission, halted: bool)
      requires Valid() && paper.soak.UpTo(env.now)
      modifies this, paper, paper.registry, paper.soak.account, paper.soak.account.tracker, paper.soak.acc.tracker,
        paper.soak.acc.budget, paper.soak.stateEngine
      ensures Valid() && paper.soak.UpTo(env.now)
      ensures SubmitResult(State(), outcome, halted) == Desks.Submit(old(State()), cfg, env, req)
    {
      hide Evaluate, Publish, CfgOk, Guard, PlaceOnPaper, Place, SelfTrade, Prune;
      var open := OpenOrders(paper.registry.orders);
      if SelfTrade(open, req) {
        return Declined(AtRisk), false;
      }
      DecideReads(State(), paper.View(), cfg, env, req, open);
      var risk := Decide(paper.View(), cfg, env, req, open);
      if !Approves(risk) {
        return Declined(AtRisk), risk.verdict == HaltTrading;
      }
      var id := ClientOrderId(req);
      if id in submitted || Find(paper.registry.orders, id) >= 0 {
        return Declined(AtIdempotency), false;
      }
      PruneSubmitted();
      outcome := Hand(env, FinalRequest(req, risk), id);
      halted := false;
    }

    /** Registers the order and hands it to an adapter. */
    method Hand(env: Env, req: Request, id: OrderId) returns (outcome: Submission)
      requires Valid() && paper.soak.UpTo(env.now)
      modifies this, paper, paper.registry, paper.soak.account, paper.soak.account.tracker, paper.soak.acc.tracker,
        paper.soak.acc.budget, paper.soak.stateEngine
      ensures Valid() && paper.soak.UpTo(env.now)
      ensures SubmitResult(State(), outcome, false) == Place(old(State()), cfg, env, req, id)
    {
      hide Evaluate, Publish, CfgOk, Guard, PlaceOnPaper, Transition, Put, Answered;
      var usePaper := env.mode == PaperMode;
      if !usePaper && env.live.None? {
        return Declined(AtAdapter);
      }
      ghost var entered := Enter(State(), req, id, usePaper, env.now);
      submitted := submitted + {id};
      placed := placed + [id];
      var order := paper.registry.Register(req, id, usePaper, env.now);
      var moved := paper.registry.MoveTo(id, Submitted);
      var answer;
      if usePaper {
        answer := paper.PlaceOrder(env, order.(status := Submitted), entered);
      } else {
        answer := env.live.value;
      }
      outcome := RecordAnswer(id, answer);
    }

    /** The adapter's answer on the books. */
    method RecordAnswer(id: OrderId, answer: Answer) returns (outcome: Submission)
      modifies paper.registry
      ensures SubmitResult(State(), outcome, false) == Answered(old(State()), id, answer)
    {
      hide Transition, Publish;
      outcome := Declined(AtAdapter);
      match answer {
        case Accepts => outcome := Accepted(id);
        case Refuses => var moved := paper.registry.MoveTo(id, Status.Rejected);
        case Throws => var moved := paper.registry.MoveTo(id, Failed);
      }
    }

    method Cancel(env: Env, id: OrderId)
      requires Valid()
      modifies paper, paper.registry
      ensures Valid()
      ensures State() == Desks.Cancel(old(State()), env, id)
    {
      hide Publish, CfgOk, Transition, CancelOnPaper;
      var i := Find(paper.registry.orders, id);
      if i < 0 {
        return;
      }
      var isPaper := paper.registry.orders[i].paper;
      if !isPaper && env.live.None? {
        return;
      }
      ghost var asked := State().(reg := Transition(State().reg, id, CancelPending));
      var moved := paper.registry.MoveTo(id, CancelPending);
      if isPaper {
        paper.CancelResting(env, id, asked);
      }
    }
  }

  lemma KnownId(r: Registry, id: OrderId)
    ensures id in Ids(r) <==> Find(r.orders, id) >= 0
  {
    if id in Ids(r) {
      var o :| o in r.orders && o.clientOrderId == id;
    }
  }

  // ── Driver ───────────────────────────────────────────────────────────────

  class HarvestDriver {
    const cfg: SoakCfg
    const pipeline: ExecutionPipeline
    const acc: AccumulationEngine
    var sellCooldownUntil: int
    var buyBucketUntil: map<Bucket, int>
    var sellBackoff: Option<Backoff>
    var buyBackoff: Option<Backoff>
    var evaluating: bool

    ghost predicate Valid()
      reads pipeline.paper.soak.account, pipeline.paper.soak.account.tracker, pipeline.paper.soak.acc,
        pipeline.paper.soak.acc.tracker,
        pipeline.paper.soak.stateEngine
    {
      pipeline.Valid() && pipeline.cfg == cfg && acc == pipeline.paper.soak.acc
    }

    function Mem(): Memory
      reads this, acc
    {
      Memory(sellCooldownUntil, buyBucketUntil, sellBackoff, buyBackoff, acc.cooldownUntil, acc.bucketUntil)
    }

    ghost function State(): Trader
      reads this, acc, pipeline, pipeline.paper, pipeline.paper.registry, pipeline.paper.soak.account,
        pipeline.paper.soak.account.tracker,
        pipeline.paper.soak.acc.tracker, pipeline.paper.soak.acc.budget
    {
      Trader(pipeline.State(), Mem())
    }

    constructor (pipeline: ExecutionPipeline)
      requires pipeline.Valid()
      ensures Valid() && this.pipeline == pipeline && cfg == pipeline.cfg && !evaluating
      ensures sellCooldownUntil == 0 && buyBucketUntil == map[] && sellBackoff == None && buyBackoff == None
    {
      this.cfg, this.pipeline, acc := pipeline.cfg, pipeline, pipeline.paper.soak.acc;
      sellCooldownUntil, buyBucketUntil, sellBackoff, buyBackoff, evaluating := 0, map[], None, None, false;
    }

    method MaybeClearBackoff(q: Quote)
      modifies this`sellBackoff, this`buyBackoff
      ensures sellBackoff == Cleared(old(sellBackoff), q.bid, cfg.harvest.sellBucketBps)
      ensures buyBackoff == Cleared(old(buyBackoff), q.ask, cfg.harvest.buyBucketBps)
    {
      hide MovedAway;
      if sellBackoff.Some? && MovedAway(q.bid, sellBackoff.value, cfg.harvest.sellBucketBps) {
        sellBackoff := None;
      }
      if buyBackoff.Some? && MovedAway(q.ask, buyBackoff.value, cfg.harvest.buyBucketBps) {
        buyBackoff := None;
      }
    }

    /** An acceptance arms the cooldown of its side, a refusal its backoff. */
    method Arm(move: Move, accepted: bool, env: Env, q: Quote)
      requires CfgOk(cfg) && (move.Rebuy? || move.SellHarvest?)
      modifies this
      ensures Mem() == Remember(old(Mem()), move, accepted, cfg, env, q) && evaluating == old(evaluating)
    {
      hide PriceBuckets.PriceBucketId;
      if accepted {
        if move.SellHarvest? {
          sellCooldownUntil := env.now + cfg.harvest.sellCooldownMs;
        } else {
          buyBucketUntil := buyBucketUntil[BucketOf(q.ask, cfg.harvest.buyBucketBps) := env.now +
            cfg.harvest.buyCooldownMs];
        }
      } else if move.SellHarvest? {
        sellBackoff := Some(Backoff(env.now + cfg.harvest.rejectBackoffMs, q.bid));
      } else {
        buyBackoff := Some(Backoff(env.now + cfg.harvest.rejectBackoffMs, q.ask));
      }
    }

    method SubmitHarvest(move: Move, env: Env, q: Quote)
      requires Valid() && pipeline.paper.soak.UpTo(env.now) && (move.Rebuy? || move.SellHarvest?)
      modifies this, pipeline, pipeline.paper, pipeline.paper.registry, pipeline.paper.soak.account,
        pipeline.paper.soak.account.tracker,
        pipeline.paper.soak.acc.tracker, pipeline.paper.soak.acc.budget, pipeline.paper.soak.stateEngine
      ensures Valid() && pipeline.paper.soak.UpTo(env.now) && evaluating == old(evaluating)
      ensures var r := Desks.Submit(old(pipeline.State()), cfg, env, RequestFor(move, cfg, env, q));
        State() == Trader(r.desk, Remember(old(Mem()), move, r.outcome.Accepted?, cfg, env, q))
    {
      hide Desks.Submit, OpenedBy, CfgOk, Publish, Remember, RequestFor;
      var outcome, halted := pipeline.Submit(env, RequestFor(move, cfg, env, q));
      Arm(move, outcome.Accepted?, env, q);
    }

    method CancelStaleOrders(pending: seq<Order>, env: Env)
      requires Valid()
      modifies pipeline.paper, pipeline.paper.registry
      ensures Valid() && pipeline.State() == CancelStale(old(pipeline.State()), cfg, env, pending)
    {
      hide Desks.Cancel, CfgOk, Publish;
      for i := 0 to |pending|
        invariant Valid()
        invariant CancelStale(old(pipeline.State()), cfg, env, pending) ==
          CancelStale(pipeline.State(), cfg, env, pending[i..])
      {
        assert pending[i..][0] == pending[i] && pending[i..][1..] == pending[i + 1..];
        if env.now - pending[i].createdAt > StaleMs(cfg) {
          pipeline.Cancel(env, pending[i].clientOrderId);
        }
      }
    }

    /** One action at most, obligations first: rebuy, recovery sell, harvest sell, accumulation buy. */
    method Evaluate(env: Env, q: Quote)
      requires Valid() && pipeline.paper.soak.UpTo(env.now)
      modifies this, acc, pipeline, pipeline.paper, pipeline.paper.registry, pipeline.paper.soak.account,
        pipeline.paper.soak.account.tracker,
        pipeline.paper.soak.acc.tracker, pipeline.paper.soak.acc.budget, pipeline.paper.soak.stateEngine
      ensures Valid() && pipeline.paper.soak.UpTo(env.now) && evaluating == old(evaluating)
      ensures State() == Act(old(pipeline.State()), old(Mem()), cfg, env, q)
    {
      hide Desks.Submit, OpenedBy, RebuyMove, RecoveryMove, SellMove, BuyMove, MayAccumulate, Publish;
      ghost var mem := Mem();
      var rebuy := RebuyMove(pipeline.paper.soak.State(), Mem(), cfg, env, q.ask);
      if rebuy.Rebuy? {
        SubmitHarvest(rebuy, env, q);
        return;
      }
      if cfg.accEnabled {
        var acted := acc.AttemptRecoverySell(pipeline, env, q);
        if acted {
          return;
        }
      }
      var sell := SellMove(pipeline.paper.soak.State(), Mem(), cfg, env, q.bid, q.ask);
      if sell.SellHarvest? {
        SubmitHarvest(sell, env, q);
        return;
      }
      if cfg.accEnabled {
        acc.AttemptBuy(pipeline, env, q, mem);
      }
    }

    /** A timer tick. A tick that finds another one evaluating does nothing. */
    method Tick(env: Env)
      requires Valid() && pipeline.paper.soak.UpTo(env.now)
      modifies this, acc, pipeline, pipeline.paper, pipeline.paper.registry, pipeline.paper.soak.account,
        pipeline.paper.soak.account.tracker,
        pipeline.paper.soak.acc.tracker, pipeline.paper.soak.acc.budget, pipeline.paper.soak.stateEngine
      ensures Valid() && pipeline.paper.soak.UpTo(env.now) && evaluating == old(evaluating)
      ensures State() == if old(evaluating) then old(State()) else DriverTick(old(State()), cfg, env)
    {
      hide Act, CancelStale, OpenedBy, Publish, Stale, Cleared;
      if evaluating {
        return;
      }
      evaluating := true;
      var quote := QuoteOf(cfg, env);
      if env.mode == PaperMode && quote.Some? {
        var pending := PendingOrders(pipeline.paper.registry.orders, cfg);
        if pending != [] {
          CancelStaleOrders(pending, env);
        } else {
          MaybeClearBackoff(quote.value);
          Evaluate(env, quote.value);
        }
      }
      evaluating := false;
    }
  }
}
