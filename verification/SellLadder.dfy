/**
 * The ladder of open harvest sells (backend/src/paper-soak/harvest-driver.ts:156-183): sells that are still out climb
 * by at least one bucket width each, so no price zone is sold twice and their number grows at most with the logarithm
 * of the price range.
 */
module SellLadder {
  import opened Numeric
  import opened Sums
  import opened Domain
  import opened Orders
  import opened PaperAccount
  import opened PriceBuckets
  import opened Soaks
  import opened SoakBooks
  import opened PricedBooks
  import H = HarvestCycles

  predicate Out(c: H.HarvestCycle) { c.status != H.Completed }

  ghost predicate Spaced(cs: seq<H.HarvestCycle>, bps: real) {
    forall i, j :: 0 <= i < j < |cs| && Out(cs[i]) && Out(cs[j]) ==>
      cs[j].avgSellPrice >= Times(Width(bps), cs[i].avgSellPrice)
  }

  ghost predicate Laddered(s: Soak, cfg: SoakCfg) {
    && Spaced(Cycles(s), cfg.harvest.sellBucketBps)
    && (forall i :: 0 <= i < |Cycles(s)| ==> Cycles(s)[i].sellIntentPrice == Cycles(s)[i].avgSellPrice > 0.0)
    && H.UnrecoveredTotal(Cycles(s)) <= UnrecoveredCap(s, cfg)
  }

  lemma SellLaddered(s: Soak, cfg: SoakCfg, o: Order, at: int, regime: Option<Regime>, tag: string)
    requires CfgOk(cfg) && Laddered(s, cfg) && Pending(s, cfg, o) && o.reason == HarvestSell
    ensures Laddered(AfterFill(s, cfg, o, at, regime, tag).soak, cfg)
  {
    hide Times, Over, AfterFill, ActiveZig, LotStock, H.NewCycle;
    HarvestFill(s, cfg, o, at, regime, tag);
    var s' := AfterFill(s, cfg, o, at, regime, tag).soak;
    if s' != s {
      var t := TradeOf(o, Whole(o, at, regime, tag));
      SellOpens(s, cfg, t);
      NewCycleKeeps(|Cycles(s)| + 1, t, cfg.account);
      SumByAppend(Cycles(s), Cycles(s')[|Cycles(s)|], H.Unrecovered);
    }
  }

  lemma RebuyLaddered(s: Soak, cfg: SoakCfg, o: Order, at: int, regime: Option<Regime>, tag: string)
    requires CfgOk(cfg) && Laddered(s, cfg) && Priced(s, cfg) && Pending(s, cfg, o) && o.reason == HarvestRebuy
    ensures Laddered(AfterFill(s, cfg, o, at, regime, tag).soak, cfg)
  {
    hide Times, Over, AfterFill, H.OpenForRebuy, H.AfterBuy, H.PricedToTarget;
    HarvestFill(s, cfg, o, at, regime, tag);
    var s' := AfterFill(s, cfg, o, at, regime, tag).soak;
    if s' != s {
      var t := TradeOf(o, Whole(o, at, regime, tag));
      ServedKeeps(Cycles(s), t.size, t.price, FeeUsdt(t, cfg.account), o.cycleIds, FeeRate(cfg.account));
      BooksBalance(Cycles(s), FeeRate(cfg.account));
      H.AllocationConserves(Cycles(s), t.size, t.price, FeeUsdt(t, cfg.account), o.cycleIds);
    }
  }

  /**
   * No price zone is sold twice: two cycles that are still out lie in different buckets, the younger in the higher one.
   */
  lemma OpenSellsSplit(s: Soak, cfg: SoakCfg, i: nat, j: nat)
    requires CfgOk(cfg) && Laddered(s, cfg) && i < j < |Cycles(s)| && Out(Cycles(s)[i]) && Out(Cycles(s)[j])
    ensures PriceBucketId(Cycles(s)[i].sellIntentPrice, cfg.harvest.sellBucketBps)
      < PriceBucketId(Cycles(s)[j].sellIntentPrice, cfg.harvest.sellBucketBps)
  {
    hide Times, PriceBucketId;
    SpacedPricesSplit(Cycles(s)[i].avgSellPrice, Cycles(s)[j].avgSellPrice, cfg.harvest.sellBucketBps);
  }

  /** Sell prices of the cycles that are still out, in opening order. */
  function OutPrices(cs: seq<H.HarvestCycle>): (r: seq<real>)
    ensures forall k :: 0 <= k < |r| ==> exists i :: 0 <= i < |cs| && Out(cs[i]) && cs[i].avgSellPrice == r[k]
  {
    if cs == [] then [] else
      var front := cs[..|cs| - 1];
      assert forall i :: 0 <= i < |front| ==> front[i] == cs[i];
      OutPrices(front) + (if Out(cs[|cs| - 1]) then [cs[|cs| - 1].avgSellPrice] else [])
  }

  /** n sells still out above `low` need a price of at least low * width^(n - 1). */
  lemma {:induction false} LadderClimbs(cs: seq<H.HarvestCycle>, bps: real, low: real)
    requires bps > 0.0 && Spaced(cs, bps) && OutPrices(cs) != []
    requires forall i :: 0 <= i < |cs| && Out(cs[i]) ==> cs[i].avgSellPrice >= low
    ensures var n := |OutPrices(cs)|; OutPrices(cs)[n - 1] >= Times(Pow(Width(bps), n - 1), low)
  {
    hide Times, Over;
    var front, last := cs[..|cs| - 1], cs[|cs| - 1];
    assert forall i :: 0 <= i < |front| ==> front[i] == cs[i];
    var n := |OutPrices(cs)|;
    if !Out(last) {
      LadderClimbs(front, bps, low);
    } else if OutPrices(front) == [] {
      TimesOne(low);
      TimesSwap(1.0, low);
    } else {
      LadderClimbs(front, bps, low);
      var below := OutPrices(front)[n - 2];
      var i :| 0 <= i < |front| && Out(front[i]) && front[i].avgSellPrice == below;
      PowStep(Width(bps), n - 2);
      TimesMono(Times(Pow(Width(bps), n - 2), low), below, Width(bps));
      TimesThrice(Width(bps), Pow(Width(bps), n - 2), low);
    }
  }

  lemma TimesThrice(a: real, b: real, c: real)
    ensures Times(a, Times(b, c)) == Times(Times(a, b), c)
  {
  }

  /** The number of sells out at once is logarithmic in the price range they span. */
  lemma LadderIsShort(s: Soak, cfg: SoakCfg, low: real, high: real)
    requires CfgOk(cfg) && Laddered(s, cfg) && OutPrices(Cycles(s)) != []
    requires forall i :: 0 <= i < |Cycles(s)| && Out(Cycles(s)[i]) ==> low <= Cycles(s)[i].avgSellPrice <= high
    ensures Times(Pow(Width(cfg.harvest.sellBucketBps), |OutPrices(Cycles(s))| - 1), low) <= high
  {
    hide Times, Pow;
    LadderClimbs(Cycles(s), cfg.harvest.sellBucketBps, low);
  }
}
