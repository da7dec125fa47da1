/**
 * Harvest cycles in driver runs (backend/src/paper-soak/harvest-driver.ts:132-139, cycle-tracker.ts:120-149): every
 * unit bought back for a cycle was priced at or below that cycle's own target.
 */
module PricedBooks {
  import opened Numeric
  import opened Sums
  import opened Domain
  import opened Orders
  import opened PaperAccount
  import opened Soaks
  import opened SoakBooks
  import HarvestCycles

  ghost predicate Priced(s: Soak, cfg: SoakCfg) {
    && HarvestCycles.AllPriced(Cycles(s), FeeRate(cfg.account)) && HarvestCycles.BookInOrder(Cycles(s))
    && forall i :: 0 <= i < |Cycles(s)| ==> Cycles(s)[i].distanceBps >= cfg.account.distances.minBps
  }

  lemma BooksBalance(cs: seq<HarvestCycles.HarvestCycle>, f: real)
    requires HarvestCycles.AllPriced(cs, f)
    ensures HarvestCycles.BookBalanced(cs)
  {
    hide Times;
  }

  lemma {:induction false} IdsOfMembers(cs: seq<HarvestCycles.HarvestCycle>, id: nat)
    ensures id in CycleIdsOf(cs) <==> exists k :: 0 <= k < |cs| && cs[k].id == id
  {
    if cs != [] {
      IdsOfMembers(cs[1..], id);
      if id in CycleIdsOf(cs[1..]) {
        var k :| 0 <= k < |cs[1..]| && cs[1..][k].id == id;
        assert cs[k + 1].id == id;
      }
      if k :| 1 <= k < |cs| && cs[k].id == id {
        assert cs[1..][k - 1].id == id;
      }
    }
  }

  /** The ids a rebuy carries name exactly the cycles the price has reached. */
  lemma NamedIsReached(cs: seq<HarvestCycles.HarvestCycle>, ask: real, i: nat)
    requires HarvestCycles.BookInOrder(cs) && i < |cs|
    ensures HarvestCycles.Eligible(cs[i], Some(CycleIdsOf(HarvestCycles.OpenForRebuy(cs, ask)))) <==>
      HarvestCycles.Reached(ask)(cs[i])
  {
    var due := HarvestCycles.OpenForRebuy(cs, ask);
    HarvestCycles.OldestFirst(cs, ask);
    IdsOfMembers(due, cs[i].id);
    if HarvestCycles.Reached(ask)(cs[i]) {
      assert cs[i] in due;
    }
    if k :| 0 <= k < |due| && due[k].id == cs[i].id {
      assert due[k] in cs;
    }
  }

  lemma {:induction false} EligibleIsDue(cs: seq<HarvestCycles.HarvestCycle>, ids: HarvestCycles.CycleIds, ask: real)
    requires forall i :: 0 <= i < |cs| ==> (HarvestCycles.Eligible(cs[i], ids) <==> HarvestCycles.Reached(ask)(cs[i]))
    ensures HarvestCycles.EligibleUnrecovered(cs, ids) ==
      HarvestCycles.UnrecoveredTotal(HarvestCycles.Filter(cs, HarvestCycles.Reached(ask)))
  {
    if cs != [] {
      EligibleIsDue(cs[1..], ids, ask);
      assert HarvestCycles.Eligible(cs[0], ids) <==> HarvestCycles.Reached(ask)(cs[0]);
      SumByCons(cs[0], HarvestCycles.Filter(cs[1..], HarvestCycles.Reached(ask)), HarvestCycles.Unrecovered);
    }
  }

  /** A rebuy serves only cycles whose target is at or above its price, and leaves at most dust without a cycle. */
  lemma RebuyServesDue(s: Soak, cfg: SoakCfg, o: Order)
    requires CfgOk(cfg) && Pending(s, cfg, o) && o.reason == HarvestRebuy && Priced(s, cfg)
    ensures forall i :: 0 <= i < |Cycles(s)| && HarvestCycles.Eligible(Cycles(s)[i], o.cycleIds) ==>
      Cycles(s)[i].rebuyTargetPrice >= o.price
    ensures 0.0 <= HarvestCycles.Unallocated(Cycles(s), o.quantity, o.cycleIds) <= HarvestCycles.EPS
  {
    hide Times, Over, HarvestCycles.OpenForRebuy;
    var cs := Cycles(s);
    forall i | 0 <= i < |cs|
      ensures HarvestCycles.Eligible(cs[i], o.cycleIds) <==> HarvestCycles.Reached(o.price)(cs[i])
    {
      NamedIsReached(cs, o.price, i);
    }
    HarvestCycles.OldestFirst(cs, o.price);
    EligibleIsDue(cs, o.cycleIds, o.price);
    HarvestCycles.SharesExhaust(cs, o.quantity, o.cycleIds);
    HarvestCycles.SharesFair(cs, o.quantity, o.cycleIds);
  }

  /** A buy changes neither what a cycle was sold for nor how far below it waits, and never reopens a completed one. */
  lemma ServedKeeps(cs: seq<HarvestCycles.HarvestCycle>, qty: real, price: real, feeUsdt: real,
      ids: HarvestCycles.CycleIds, f: real)
    requires HarvestCycles.AllPriced(cs, f) && qty >= 0.0
    ensures var cs' := HarvestCycles.AfterBuy(cs, qty, price, feeUsdt, ids);
      forall i :: 0 <= i < |cs| ==>
        && cs'[i].avgSellPrice == cs[i].avgSellPrice && cs'[i].distanceBps == cs[i].distanceBps
        && cs'[i].openedAt == cs[i].openedAt
        && cs'[i].sellIntentPrice == cs[i].sellIntentPrice
        && (cs[i].status == HarvestCycles.Completed ==> cs'[i] == cs[i])
  {
    hide Times, Over;
    HarvestCycles.SharesFair(cs, qty, ids);
  }

  lemma SellPriced(s: Soak, cfg: SoakCfg, o: Order, at: int, regime: Option<Regime>, tag: string)
    requires CfgOk(cfg) && Priced(s, cfg) && Pending(s, cfg, o) && o.reason == HarvestSell && Timely(s, at)
    ensures Priced(AfterFill(s, cfg, o, at, regime, tag).soak, cfg)
  {
    hide Times, Over, AfterFill, ActiveZig, LotStock, UnrecoveredCap, HarvestCycles.NewCycle,
      HarvestCycles.PricedToTarget;
    HarvestFill(s, cfg, o, at, regime, tag);
    var s' := AfterFill(s, cfg, o, at, regime, tag).soak;
    if s' != s {
      var t := TradeOf(o, Whole(o, at, regime, tag));
      SellOpens(s, cfg, t);
      HarvestCycles.NewCyclePriced(|Cycles(s)| + 1, t.size, t.price, FeeRate(cfg.account), t.intentPrice,
        TradeDistance(t, cfg.account), t.at);
      NewCycleKeeps(|Cycles(s)| + 1, t, cfg.account);
    }
  }

  lemma SellOpens(s: Soak, cfg: SoakCfg, t: PaperTrade)
    requires t.kind == Harvest && t.side == Sell
    ensures var fee := Times(FeeRate(cfg.account), Times(t.size, t.price));
      CyclesAfter(Cycles(s), t, cfg.account) == Cycles(s) +
        [HarvestCycles.NewCycle(|Cycles(s)| + 1, t.size, t.price, fee, t.intentPrice, TradeDistance(t, cfg.account),
         t.at)]
  {
    hide Times, Over, HarvestCycles.NewCycle;
  }

  lemma NewCycleKeeps(id: nat, t: PaperTrade, cfg: AccountCfg)
    ensures var c := HarvestCycles.NewCycle(id, t.size, t.price, Times(FeeRate(cfg), Times(t.size, t.price)),
      t.intentPrice, TradeDistance(t, cfg), t.at);
      && c.id == id && c.openedAt == t.at && c.avgSellPrice == t.price && c.sellIntentPrice == t.intentPrice
      && c.unrecoveredQty == t.size && c.status == HarvestCycles.Open
      && c.rebuyTargetPrice == Times(t.price, 1.0 - Bps(c.distanceBps))
      && (t.distanceOverride == None ==>
           c.distanceBps == RebuyDistanceBps(t.regime, cfg.distances) >= cfg.distances.minBps)
  {
    hide Times, Over;
  }

  lemma RebuyPriced(s: Soak, cfg: SoakCfg, o: Order, at: int, regime: Option<Regime>, tag: string)
    requires CfgOk(cfg) && Priced(s, cfg) && Pending(s, cfg, o) && o.reason == HarvestRebuy
    ensures Priced(AfterFill(s, cfg, o, at, regime, tag).soak, cfg)
  {
    hide Times, Over, AfterFill, HarvestCycles.OpenForRebuy, HarvestCycles.AfterBuy, HarvestCycles.PricedToTarget;
    HarvestFill(s, cfg, o, at, regime, tag);
    var s' := AfterFill(s, cfg, o, at, regime, tag).soak;
    if s' != s {
      RebuyServesDue(s, cfg, o);
      var t := TradeOf(o, Whole(o, at, regime, tag));
      assert Cycles(s') == HarvestCycles.AfterBuy(Cycles(s), t.size, t.price, FeeUsdt(t, cfg.account), o.cycleIds);
      HarvestCycles.BuyKeepsPriced(Cycles(s), t.size, t.price, FeeRate(cfg.account), o.cycleIds);
      HarvestCycles.AfterBuyKeepsOrder(Cycles(s), t.size, t.price, FeeUsdt(t, cfg.account), o.cycleIds);
      ServedKeeps(Cycles(s), t.size, t.price, FeeUsdt(t, cfg.account), o.cycleIds, FeeRate(cfg.account));
    }
  }
}
