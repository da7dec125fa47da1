/** When the driver acts, over whole runs: obligations first, cooldowns kept, stale orders cleared. */
module DriverTiming {
  import opened Numeric
  import opened Domain
  import opened Orders
  import opened PaperAccount
  import opened Soaks
  import opened SoakBooks
  import opened DriverBooks
  import opened Desks
  import opened DeskSteps
  import opened Drivers
  import opened DriverRuns
  import opened DriverTheorems
  import H = HarvestCycles

  // ── Closing before opening ───────────────────────────────────────────────

  /**
   * The tick never opens a sell into a dip it could buy back, and opens a lot only when it has nothing to close and
   * nothing to harvest.
   */
  lemma ClosesBeforeOpening(s: Soak, mem: Memory, cfg: SoakCfg, env: Env, q: Quote)
    requires CfgOk(cfg)
    ensures var move := Choose(s, mem, cfg, env, q).move;
      && (move.SellHarvest? && env.allowed.harvestRebuy ==>
           forall i :: 0 <= i < |s.account.cycles| ==>
             s.account.cycles[i].unrecoveredQty <= H.EPS || s.account.cycles[i].rebuyTargetPrice < q.ask)
      && (!move.Rebuy? ==> RebuyMove(s, mem, cfg, env, q.ask).Wait?)
      && (move.SellHarvest? || move.Accumulate? ==> !cfg.accEnabled || RecoveryMove(s, cfg, env, q.bid).Wait?)
      && (move.Accumulate? ==> SellMove(s, mem, cfg, env, q.bid, q.ask).Wait?)
  {
    hide RebuyMove, RecoveryMove, BuyMove, MayAccumulate, BucketOccupied, SellFloor, HarvestStock, UnrecoveredCap,
      Times, BackedOff, LotStock, ActiveZig;
    var cs := s.account.cycles;
    if Choose(s, mem, cfg, env, q).move.SellHarvest? && env.allowed.harvestRebuy {
      NoneDue(cs, q.ask);
    }
  }

  lemma NoneDue(cs: seq<H.HarvestCycle>, ask: real)
    requires H.OpenForRebuy(cs, ask) == []
    ensures forall i :: 0 <= i < |cs| ==> cs[i].unrecoveredQty <= H.EPS || cs[i].rebuyTargetPrice < ask
  {
    var due := H.Filter(cs, H.Reached(ask));
    assert |multiset(due)| == |multiset(H.OpenForRebuy(cs, ask))| == 0;
    assert due == [];
    assert forall i :: 0 <= i < |cs| ==> !H.Reached(ask)(cs[i]);
  }

  // ── Cooldowns ────────────────────────────────────────────────────────────

  /** What the tick would send, were nothing in flight. */
  function ChoiceOf(t: Trader, cfg: SoakCfg, env: Env, q: Quote): Choice
    requires CfgOk(cfg)
  {
    Choose(t.desk.soak, Refreshed(t.memory, cfg, q), cfg, env, q)
  }

  function Refreshed(mem: Memory, cfg: SoakCfg, q: Quote): Memory {
    mem.(sellBackoff := Cleared(mem.sellBackoff, q.bid, cfg.harvest.sellBucketBps),
         buyBackoff := Cleared(mem.buyBackoff, q.ask, cfg.harvest.buyBucketBps))
  }

  /** The step sends this kind of order and the pipeline accepts it. */
  predicate Sends(t: Trader, cfg: SoakCfg, s: DriverStep, reason: Reason)
    requires CfgOk(cfg)
  {
    s.TimerFires? && s.env.mode == PaperMode && QuoteOf(cfg, s.env).Some?
      && PendingOrders(t.desk.reg.orders, cfg) == [] &&
    var q := QuoteOf(cfg, s.env).value;
    var c := ChoiceOf(t, cfg, s.env, q);
    !c.move.Wait? && RequestFor(c.move, cfg, s.env, q).reason == reason
    && Submit(t.desk.(soak := c.soak), cfg, s.env, RequestFor(c.move, cfg, s.env, q)).outcome.Accepted?
  }

  /** An accepted sell or accumulation buy respects its cooldown and starts it again; nothing else touches either. */
  lemma CooldownStep(t: Trader, cfg: SoakCfg, s: DriverStep)
    requires CfgOk(cfg)
    ensures var mem, mem' := t.memory, Drive(t, cfg, s).memory;
      && mem'.sellCooldownUntil ==
           (if Sends(t, cfg, s, HarvestSell) then s.env.now + cfg.harvest.sellCooldownMs else mem.sellCooldownUntil)
      && mem'.accCooldownUntil ==
           (if Sends(t, cfg, s, AccBuy) then s.env.now + cfg.acc.cooldownMs else mem.accCooldownUntil)
      && (Sends(t, cfg, s, HarvestSell) ==> s.env.now >= mem.sellCooldownUntil)
      && (Sends(t, cfg, s, AccBuy) ==> s.env.now >= mem.accCooldownUntil)
  {
    hide Submit, EngineTick, Cancel, CancelStale, QuoteOf, PendingOrders, RebuyMove, RecoveryMove, BuyMove, Cleared,
      BucketOf,
      BucketOccupied,
      SellFloor, HarvestStock, DueCycles, BackedOff, UnrecoveredCap, Times, Unlocked;
  }

  function TraderAt(cfg: SoakCfg, entryCost: real, start: int, steps: seq<DriverStep>, k: nat): Trader
    requires CfgOk(cfg) && k <= |steps|
  {
    Reached(cfg, entryCost, start, steps[..k])
  }

  lemma NextTrader(cfg: SoakCfg, entryCost: real, start: int, steps: seq<DriverStep>, k: nat)
    requires CfgOk(cfg) && k < |steps|
    ensures TraderAt(cfg, entryCost, start, steps, k + 1) ==
      Drive(TraderAt(cfg, entryCost, start, steps, k), cfg, steps[k])
  {
    hide Drive;
    assert steps[..k + 1][..k] == steps[..k];
  }

  /** Once armed a cooldown stays armed until it is armed again, later. */
  lemma {:induction false} CooldownsHold(cfg: SoakCfg, entryCost: real, start: int, steps: seq<DriverStep>, j: nat,
      k: nat)
    requires FromStart(cfg, entryCost, start, steps) && j <= k <= |steps| && cfg.harvest.sellCooldownMs >= 0
      && cfg.acc.cooldownMs >= 0
    ensures TraderAt(cfg, entryCost, start, steps, j).memory.sellCooldownUntil
      <= TraderAt(cfg, entryCost, start, steps, k).memory.sellCooldownUntil
    ensures TraderAt(cfg, entryCost, start, steps, j).memory.accCooldownUntil
      <= TraderAt(cfg, entryCost, start, steps, k).memory.accCooldownUntil
    decreases k - j
  {
    hide TraderAt, Drive, Sends;
    if j < k {
      CooldownsHold(cfg, entryCost, start, steps, j, k - 1);
      NextTrader(cfg, entryCost, start, steps, k - 1);
      CooldownStep(TraderAt(cfg, entryCost, start, steps, k - 1), cfg, steps[k - 1]);
    }
  }

  /**
   * Over a whole run any two accepted harvest sells, and any two accepted accumulation buys, are at least their
   * cooldown apart.
   */
  lemma AcceptedOrdersCoolDown(cfg: SoakCfg, entryCost: real, start: int, steps: seq<DriverStep>, j: nat, k: nat,
      reason: Reason)
    requires FromStart(cfg, entryCost, start, steps) && j < k < |steps| && cfg.harvest.sellCooldownMs >= 0
      && cfg.acc.cooldownMs >= 0
    requires Sends(TraderAt(cfg, entryCost, start, steps, j), cfg, steps[j], reason)
    requires Sends(TraderAt(cfg, entryCost, start, steps, k), cfg, steps[k], reason)
    ensures reason == HarvestSell ==> steps[k].env.now - steps[j].env.now >= cfg.harvest.sellCooldownMs
    ensures reason == AccBuy ==> steps[k].env.now - steps[j].env.now >= cfg.acc.cooldownMs
  {
    hide TraderAt, Drive, Sends;
    NextTrader(cfg, entryCost, start, steps, j);
    CooldownStep(TraderAt(cfg, entryCost, start, steps, j), cfg, steps[j]);
    CooldownsHold(cfg, entryCost, start, steps, j + 1, k);
    CooldownStep(TraderAt(cfg, entryCost, start, steps, k), cfg, steps[k]);
  }

  // ── Buckets ──────────────────────────────────────────────────────────────

  /** The price bucket a rebuy sent by this step falls in. */
  function RebuyBucket(cfg: SoakCfg, s: DriverStep): Bucket
    requires CfgOk(cfg)
  {
    var q := QuoteOf(cfg, s.env);
    if q.Some? then BucketOf(q.value.ask, cfg.harvest.buyBucketBps) else NotANumber
  }

  predicate LockedUntil(mem: Memory, b: Bucket, until: int) {
    b in mem.buyBucketUntil && mem.buyBucketUntil[b] >= until
  }

  /** An accepted rebuy finds its bucket unlocked and locks it; nothing unlocks a bucket early. */
  lemma BucketStep(t: Trader, cfg: SoakCfg, s: DriverStep, b: Bucket, until: int)
    requires CfgOk(cfg) && cfg.harvest.buyCooldownMs >= 0
    ensures var mem, mem' := t.memory, Drive(t, cfg, s).memory;
      && (Sends(t, cfg, s, HarvestRebuy) ==>
           LockedUntil(mem', RebuyBucket(cfg, s), s.env.now + cfg.harvest.buyCooldownMs))
      && (LockedUntil(mem, b, until) ==> LockedUntil(mem', b, until))
      && (LockedUntil(mem, b, until) && Sends(t, cfg, s, HarvestRebuy) && RebuyBucket(cfg, s) == b ==>
           s.env.now >= until)
  {
    hide Submit, EngineTick, Cancel, CancelStale, QuoteOf, PendingOrders, RecoveryMove, SellMove, BuyMove, Cleared,
      BucketOf, DueCycles,
      BackedOff, MayAccumulate;
  }

  lemma {:induction false} BucketsStayLocked(cfg: SoakCfg, entryCost: real, start: int, steps: seq<DriverStep>, j: nat,
      k: nat, b: Bucket, until: int)
    requires FromStart(cfg, entryCost, start, steps) && j <= k <= |steps| && cfg.harvest.buyCooldownMs >= 0
    requires LockedUntil(TraderAt(cfg, entryCost, start, steps, j).memory, b, until)
    ensures LockedUntil(TraderAt(cfg, entryCost, start, steps, k).memory, b, until)
    decreases k - j
  {
    hide TraderAt, Drive, Sends, LockedUntil;
    if j < k {
      BucketsStayLocked(cfg, entryCost, start, steps, j, k - 1, b, until);
      NextTrader(cfg, entryCost, start, steps, k - 1);
      BucketStep(TraderAt(cfg, entryCost, start, steps, k - 1), cfg, steps[k - 1], b, until);
    }
  }

  /** Over a whole run two accepted rebuys in one price bucket are at least the buy cooldown apart. */
  lemma RebuysAreSpaced(cfg: SoakCfg, entryCost: real, start: int, steps: seq<DriverStep>, j: nat, k: nat)
    requires FromStart(cfg, entryCost, start, steps) && j < k < |steps| && cfg.harvest.buyCooldownMs >= 0
    requires Sends(TraderAt(cfg, entryCost, start, steps, j), cfg, steps[j], HarvestRebuy)
    requires Sends(TraderAt(cfg, entryCost, start, steps, k), cfg, steps[k], HarvestRebuy)
    requires RebuyBucket(cfg, steps[j]) == RebuyBucket(cfg, steps[k])
    ensures steps[k].env.now - steps[j].env.now >= cfg.harvest.buyCooldownMs
  {
    hide TraderAt, Drive, Sends, LockedUntil, RebuyBucket;
    var b := RebuyBucket(cfg, steps[j]);
    var until := steps[j].env.now + cfg.harvest.buyCooldownMs;
    NextTrader(cfg, entryCost, start, steps, j);
    BucketStep(TraderAt(cfg, entryCost, start, steps, j), cfg, steps[j], b, until);
    BucketsStayLocked(cfg, entryCost, start, steps, j + 1, k, b, until);
    BucketStep(TraderAt(cfg, entryCost, start, steps, k), cfg, steps[k], b, until);
  }

  // ── Stale orders ─────────────────────────────────────────────────────────

  predicate NoneOpen(d: Desk) {
    forall k :: 0 <= k < |d.reg.orders| ==> !IsOpen(d.reg.orders[k])
  }

  /** Every order still open has outlived its age limit. */
  predicate OnlyStaleOpen(d: Desk, cfg: SoakCfg, now: int) {
    forall k :: 0 <= k < |d.reg.orders| && IsOpen(d.reg.orders[k]) ==> now - d.reg.orders[k].createdAt > StaleMs(cfg)
  }

  lemma CancelCloses(d: Desk, cfg: SoakCfg, env: Env, id: OrderId)
    requires CfgOk(cfg) && Orderly(d, cfg) && OneOpen(d.reg.orders, cfg)
    ensures NoneOpen(d) ==> NoneOpen(Cancel(d, env, id))
    ensures Has(d.reg, id) && IsOpen(OrderOf(d, id)) ==> NoneOpen(Cancel(d, env, id))
  {
    hide Cancel, Transitions, Heard;
    var c, i, o := CancelCases(d, cfg, env, id);
    if Has(d.reg, id) {
      AllPaper(d, cfg, Find(d.reg.orders, id));
    }
    CancelledIsOver(d, Cancel(d, env, id), cfg, env, c, i);
    CancelOpen(d, cfg, env, id);
  }

  lemma CancelledIsOver(d: Desk, d': Desk, cfg: SoakCfg, env: Env, c: RestCase, i: nat)
    requires CfgOk(cfg) && OneOpen(d.reg.orders, cfg) && RestLooks(c, d, d', cfg, env, i)
    ensures NoneOpen(d) || c == Dropped ==> NoneOpen(d')
  {
    hide Heard;
  }

  /** Cancelling an open order takes it off the books. */
  lemma CancelOpen(d: Desk, cfg: SoakCfg, env: Env, id: OrderId)
    requires CfgOk(cfg) && Orderly(d, cfg) && OneOpen(d.reg.orders, cfg)
    ensures Has(d.reg, id) && IsOpen(OrderOf(d, id)) ==> NoneOpen(Cancel(d, env, id))
  {
    hide Cancel, Transitions, Heard;
    if Has(d.reg, id) && IsOpen(OrderOf(d, id)) {
      AllPaper(d, cfg, Find(d.reg.orders, id));
      assert id in d.resting;
      var i := RestingIndex(d, cfg, id);
      PaperCancelled(d, cfg, env, id, i);
      CancelledIsOver(d, Cancel(d, env, id), cfg, env, Dropped, i);
    }
  }

  lemma {:induction false} CancelStaleCloses(d: Desk, cfg: SoakCfg, env: Env, pending: seq<Order>)
    requires CfgOk(cfg) && Driven(d, cfg, env.now) && NoneOpen(d)
    ensures NoneOpen(CancelStale(d, cfg, env, pending))
    decreases |pending|
  {
    hide Cancel, NoneOpen, Orderly, Books, Timely, FlightOk, OneOpen;
    if pending != [] {
      if env.now - pending[0].createdAt > StaleMs(cfg) {
        CancelDriven(d, cfg, env, pending[0].clientOrderId);
        CancelCloses(d, cfg, env, pending[0].clientOrderId);
        CancelStaleCloses(Cancel(d, env, pending[0].clientOrderId), cfg, env, pending[1..]);
      } else {
        CancelStaleCloses(d, cfg, env, pending[1..]);
      }
    }
  }

  lemma StaleTickClears(t: Trader, cfg: SoakCfg, env: Env)
    requires CfgOk(cfg) && Driven(t.desk, cfg, env.now) && env.mode == PaperMode && QuoteOf(cfg, env).Some?
    requires OnlyStaleOpen(t.desk, cfg, env.now) && !NoneOpen(t.desk)
    ensures NoneOpen(DriverTick(t, cfg, env).desk)
  {
    hide Cancel, NoneOpen, Orderly, Books, Timely, FlightOk, OneOpen, QuoteOf, IsOpen, Act;
    var d := t.desk;
    var pending := PendingOrders(d.reg.orders, cfg);
    SomePending(d, cfg);
    var o := pending[0];
    assert o in d.reg.orders && IsOpen(o);
    var k :| 0 <= k < |d.reg.orders| && d.reg.orders[k] == o;
    FoundOpen(d, cfg, k);
    CancelCloses(d, cfg, env, o.clientOrderId);
    CancelDriven(d, cfg, env, o.clientOrderId);
    CancelStaleCloses(Cancel(d, env, o.clientOrderId), cfg, env, pending[1..]);
  }

  lemma SomePending(d: Desk, cfg: SoakCfg)
    requires OneOpen(d.reg.orders, cfg) && !NoneOpen(d)
    ensures PendingOrders(d.reg.orders, cfg) != []
  {
    hide IsOpen;
    var k :| 0 <= k < |d.reg.orders| && IsOpen(d.reg.orders[k]);
    assert d.reg.orders[k] in d.reg.orders && d.reg.orders[k] in PendingOrders(d.reg.orders, cfg);
  }

  lemma FoundOpen(d: Desk, cfg: SoakCfg, k: nat)
    requires Orderly(d, cfg) && k < |d.reg.orders|
    ensures Has(d.reg, d.reg.orders[k].clientOrderId) && OrderOf(d, d.reg.orders[k].clientOrderId) == d.reg.orders[k]
  {
    FindAt(d.reg.orders, k);
  }

  /**
   * Over a whole run no pending order freezes the driver: the first tick on a fresh quote after it went stale clears
   * it.
   */
  lemma StaleOrderIsCleared(cfg: SoakCfg, entryCost: real, start: int, steps: seq<DriverStep>, k: nat)
    requires FromStart(cfg, entryCost, start, steps) && k < |steps| && steps[k].TimerFires?
    requires steps[k].env.mode == PaperMode && QuoteOf(cfg, steps[k].env).Some?
    requires OnlyStaleOpen(TraderAt(cfg, entryCost, start, steps, k).desk, cfg, steps[k].env.now)
    ensures NoneOpen(TraderAt(cfg, entryCost, start, steps, k).desk)
      || NoneOpen(TraderAt(cfg, entryCost, start, steps, k + 1).desk)
  {
    hide Driven, DriverTick, QuoteOf, NoneOpen, OnlyStaleOpen, Reached;
    var front := steps[..k];
    NextTrader(cfg, entryCost, start, steps, k);
    ReachedDriven(cfg, entryCost, start, front);
    var t := TraderAt(cfg, entryCost, start, steps, k);
    DrivenLater(t.desk, cfg, LastTick(start, front), steps[k].env.now);
    if !NoneOpen(t.desk) {
      StaleTickClears(t, cfg, steps[k].env);
    }
  }
}
