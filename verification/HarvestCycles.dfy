/**
 * Harvest round trips (backend/src/paper-soak/cycle-tracker.ts). Every sell opens a cycle
 * with a rebuy target; every harvest buy pays the oldest open cycles down first.
 */
module HarvestCycles {
  import opened Numeric
  import opened Sums
  import StableSort

  /** Quantities at or below this are dust and count as recovered. */
  const EPS: real := 1e-9

  datatype CycleStatus = Open | PartiallyRebought | Completed

  datatype HarvestCycle = HarvestCycle(
    id: nat,
    status: CycleStatus,
    soldQty: real,
    reboughtQty: real,
    unrecoveredQty: real,
    avgSellPrice: real,
    sellIntentPrice: real,
    rebuyTargetPrice: real,
    distanceBps: real,
    grossSellUsdt: real,
    spentRebuyUsdt: real,
    estimatedFeesUsdt: real,
    harvestedUsdt: Option<real>,
    openedAt: int)

  type CycleIds = Option<seq<nat>>

  function OpenedAt(c: HarvestCycle): int { c.openedAt }
  function Unrecovered(c: HarvestCycle): real { c.unrecoveredQty }
  function Rebought(c: HarvestCycle): real { c.reboughtQty }
  function Spent(c: HarvestCycle): real { c.spentRebuyUsdt }
  function Fees(c: HarvestCycle): real { c.estimatedFeesUsdt }

  /** USDT a cycle still needs to buy its inventory back at its target. */
  function Owed(c: HarvestCycle): real { Times(c.unrecoveredQty, c.rebuyTargetPrice) }

  function UnrecoveredTotal(cs: seq<HarvestCycle>): real { SumBy(cs, Unrecovered) }
  function RebuyReserve(cs: seq<HarvestCycle>): real { SumBy(cs, Owed) }

  predicate Named(ids: CycleIds, c: HarvestCycle) {
    ids.None? || c.id in ids.value
  }

  /** The cycle a sell fill opens. */
  function NewCycle(id: nat, qty: real, price: real, fee: real, intentPrice: real, distanceBps: real,
      now: int): HarvestCycle {
    HarvestCycle(id, Open, qty, 0.0, qty, price, intentPrice, Times(price, 1.0 - Bps(distanceBps)), distanceBps,
                 Times(qty, price), 0.0, fee, None, now)
  }

  /** One iteration of the allocation loop: `alloc` ZIG bought at `price` recovers part of the cycle. */
  function Pay(c: HarvestCycle, alloc: real, price: real, feePerQty: real): HarvestCycle {
    var unrecovered := Max(c.unrecoveredQty - alloc, 0.0);
    var spent := c.spentRebuyUsdt + Times(alloc, price);
    var fees := c.estimatedFeesUsdt + Times(alloc, feePerQty);
    var paid := c.(reboughtQty := c.reboughtQty + alloc, unrecoveredQty := unrecovered,
                   spentRebuyUsdt := spent, estimatedFeesUsdt := fees);
    if unrecovered <= EPS then
      paid.(status := Completed, harvestedUsdt := Some(c.grossSellUsdt - spent - fees))
    else
      paid.(status := PartiallyRebought)
  }

  predicate Eligible(c: HarvestCycle, ids: CycleIds) {
    c.unrecoveredQty > EPS && Named(ids, c)
  }

  /** What the loop gives this cycle out of `remaining`; zero when it is skipped. */
  function Take(c: HarvestCycle, remaining: real, ids: CycleIds): real {
    var alloc := Min(remaining, c.unrecoveredQty);
    if Eligible(c, ids) && remaining > EPS && alloc > EPS then alloc else 0.0
  }

  /** How `onBuy` splits a bought quantity over a book in opening order, and what no cycle takes. */
  function Shares(cs: seq<HarvestCycle>, remaining: real, ids: CycleIds): (r: (seq<real>, real))
    ensures |r.0| == |cs|
  {
    if cs == [] then ([], remaining)
    else
      var take := Take(cs[0], remaining, ids);
      var (rest, left) := Shares(cs[1..], remaining - take, ids);
      ([take] + rest, left)
  }

  function Serve(c: HarvestCycle, share: real, price: real, feePerQty: real): HarvestCycle {
    if share > 0.0 then Pay(c, share, price, feePerQty) else c
  }

  function BuyFee(qty: real, feeUsdt: real): real {
    if qty > 0.0 then Over(feeUsdt, qty) else 0.0
  }

  /** The book after a buy fill. */
  function AfterBuy(cs: seq<HarvestCycle>, qty: real, price: real, feeUsdt: real, ids: CycleIds): (r: seq<HarvestCycle>)
    ensures |r| == |cs|
  {
    seq(|cs|, (i: int) requires 0 <= i < |cs| => Serve(cs[i], Shares(cs, qty, ids).0[i], price, BuyFee(qty, feeUsdt)))
  }

  /** ZIG of a buy that no cycle took. */
  function Unallocated(cs: seq<HarvestCycle>, qty: real, ids: CycleIds): real {
    Shares(cs, qty, ids).1
  }

  function Filter(cs: seq<HarvestCycle>, p: HarvestCycle -> bool): (r: seq<HarvestCycle>)
    ensures forall k :: 0 <= k < |r| ==> r[k] in cs && p(r[k])
    ensures forall k :: 0 <= k < |cs| && p(cs[k]) ==> cs[k] in r
  {
    if cs == [] then [] else
      var rest := Filter(cs[1..], p);
      if p(cs[0]) then
        assert forall k :: 0 < k < |cs| ==> cs[k] == cs[1..][k - 1];
        [cs[0]] + rest
      else
        assert forall k :: 0 < k < |cs| ==> cs[k] == cs[1..][k - 1];
        rest
  }

  /** The price has come down to the target of a cycle that is still out. */
  function Reached(ask: real): HarvestCycle -> bool {
    (c: HarvestCycle) => c.unrecoveredQty > EPS && c.rebuyTargetPrice >= ask
  }

  /** Cycles a market at `ask` may close, oldest first. */
  function OpenForRebuy(cs: seq<HarvestCycle>, ask: real): seq<HarvestCycle> {
    StableSort.Sort(Filter(cs, Reached(ask)), OpenedAt)
  }

  // ── What allocation does ─────────────────────────────────────────────────

  /** Nothing is owed twice: what is sold is either bought back or still out. */
  predicate Balanced(c: HarvestCycle) {
    0.0 <= c.reboughtQty && 0.0 <= c.unrecoveredQty && c.reboughtQty + c.unrecoveredQty == c.soldQty
  }

  ghost predicate BookBalanced(cs: seq<HarvestCycle>) {
    forall i :: 0 <= i < |cs| ==> Balanced(cs[i])
  }

  /** The quantity a cycle received between two states of it. */
  function Received(before: HarvestCycle, after: HarvestCycle): real {
    after.reboughtQty - before.reboughtQty
  }

  /** A share is nothing, or a non-dust part of what an eligible cycle owes. */
  predicate FairShare(c: HarvestCycle, share: real, ids: CycleIds) {
    share == 0.0 || (Eligible(c, ids) && EPS < share <= c.unrecoveredQty)
  }

  lemma {:induction false} SharesFair(cs: seq<HarvestCycle>, remaining: real, ids: CycleIds)
    requires remaining >= 0.0
    ensures var (shares, left) := Shares(cs, remaining, ids);
      && 0.0 <= left <= remaining && Total(shares) == remaining - left
      && forall i :: 0 <= i < |cs| ==> FairShare(cs[i], shares[i], ids)
  {
    if cs != [] {
      SharesFair(cs[1..], remaining - Take(cs[0], remaining, ids), ids);
    }
  }

  /** A quantity of dust is given to nobody. */
  lemma {:induction false} SharesOfDust(cs: seq<HarvestCycle>, remaining: real, ids: CycleIds)
    requires remaining <= EPS
    ensures forall i :: 0 <= i < |cs| ==> Shares(cs, remaining, ids).0[i] == 0.0
    ensures Shares(cs, remaining, ids).1 == remaining
  {
    if cs != [] {
      SharesOfDust(cs[1..], remaining, ids);
    }
  }

  /** First in, first out: a share goes to a younger cycle only when the older eligible one gets all it is owed. */
  lemma {:induction false} SharesFifo(cs: seq<HarvestCycle>, remaining: real, ids: CycleIds, older: nat, younger: nat)
    requires older < younger < |cs|
    ensures var shares := Shares(cs, remaining, ids).0;
      Eligible(cs[older], ids) && shares[younger] != 0.0 ==> shares[older] == cs[older].unrecoveredQty
  {
    var next := remaining - Take(cs[0], remaining, ids);
    if older != 0 {
      SharesFifo(cs[1..], next, ids, older - 1, younger - 1);
    } else if next <= EPS {
      SharesOfDust(cs[1..], next, ids);
    }
  }

  /** What the named cycles still owe. */
  function EligibleUnrecovered(cs: seq<HarvestCycle>, ids: CycleIds): real {
    if cs == [] then 0.0
    else (if Eligible(cs[0], ids) then cs[0].unrecoveredQty else 0.0) + EligibleUnrecovered(cs[1..], ids)
  }

  /** A buy either is used up to dust, or makes every eligible cycle whole. */
  lemma {:induction false} SharesExhaust(cs: seq<HarvestCycle>, remaining: real, ids: CycleIds)
    ensures var left := Shares(cs, remaining, ids).1;
      left <= EPS || remaining - left == EligibleUnrecovered(cs, ids)
  {
    if remaining <= EPS {
      SharesOfDust(cs, remaining, ids);
    } else if cs != [] {
      var next := remaining - Take(cs[0], remaining, ids);
      SharesExhaust(cs[1..], next, ids);
      if next <= EPS {
        SharesOfDust(cs[1..], next, ids);
      }
    }
  }

  /** One cycle and the pool move by the same quantity, at the fill's price and fee. */
  lemma ServeFacts(c: HarvestCycle, share: real, price: real, feePerQty: real, ids: CycleIds)
    requires Balanced(c) && FairShare(c, share, ids)
    ensures var c' := Serve(c, share, price, feePerQty);
      && Balanced(c') && Received(c, c') == share
      && c'.unrecoveredQty == c.unrecoveredQty - share
      && c'.spentRebuyUsdt == c.spentRebuyUsdt + Times(share, price)
      && c'.estimatedFeesUsdt == c.estimatedFeesUsdt + Times(share, feePerQty)
      && c' == c.(status := c'.status, reboughtQty := c'.reboughtQty, unrecoveredQty := c'.unrecoveredQty,
                  spentRebuyUsdt := c'.spentRebuyUsdt, estimatedFeesUsdt := c'.estimatedFeesUsdt,
                  harvestedUsdt := c'.harvestedUsdt)
  {
  }

  /** The book after a buy, cycle by cycle. */
  lemma AfterBuyFacts(cs: seq<HarvestCycle>, qty: real, price: real, feeUsdt: real, ids: CycleIds)
    requires BookBalanced(cs) && qty >= 0.0
    ensures var cs' := AfterBuy(cs, qty, price, feeUsdt, ids); var shares := Shares(cs, qty, ids).0;
      BookBalanced(cs') && forall i :: 0 <= i < |cs| ==>
        && FairShare(cs[i], shares[i], ids)
        && Received(cs[i], cs'[i]) == shares[i]
        && cs'[i].unrecoveredQty == cs[i].unrecoveredQty - shares[i]
        && cs'[i].rebuyTargetPrice == cs[i].rebuyTargetPrice
        && cs'[i].spentRebuyUsdt == cs[i].spentRebuyUsdt + Times(shares[i], price)
        && cs'[i].estimatedFeesUsdt == cs[i].estimatedFeesUsdt + Times(shares[i], BuyFee(qty, feeUsdt))
  {
    hide Times;
    var shares := Shares(cs, qty, ids).0;
    SharesFair(cs, qty, ids);
    forall i | 0 <= i < |cs|
      ensures var c' := Serve(cs[i], shares[i], price, BuyFee(qty, feeUsdt));
        && Balanced(c') && Received(cs[i], c') == shares[i]
        && c'.unrecoveredQty == cs[i].unrecoveredQty - shares[i]
        && c'.rebuyTargetPrice == cs[i].rebuyTargetPrice
        && c'.spentRebuyUsdt == cs[i].spentRebuyUsdt + Times(shares[i], price)
        && c'.estimatedFeesUsdt == cs[i].estimatedFeesUsdt + Times(shares[i], BuyFee(qty, feeUsdt))
    {
      ServeFacts(cs[i], shares[i], price, BuyFee(qty, feeUsdt), ids);
    }
  }

  /**
   * Allocation conserves: the quantity placed, its cost and its fee are split exactly over the cycles, and
   * quantity beyond dust is left over only when every eligible cycle is whole.
   */
  lemma AllocationConserves(cs: seq<HarvestCycle>, qty: real, price: real, feeUsdt: real, ids: CycleIds)
    requires BookBalanced(cs) && qty >= 0.0
    ensures var cs' := AfterBuy(cs, qty, price, feeUsdt, ids); var left := Unallocated(cs, qty, ids);
      && 0.0 <= left <= qty
      && SumBy(cs', Rebought) == SumBy(cs, Rebought) + (qty - left)
      && UnrecoveredTotal(cs') == UnrecoveredTotal(cs) - (qty - left)
      && SumBy(cs', Spent) == SumBy(cs, Spent) + Times(qty - left, price)
      && SumBy(cs', Fees) == SumBy(cs, Fees) + Times(qty - left, BuyFee(qty, feeUsdt))
      && (left <= EPS || qty - left == EligibleUnrecovered(cs, ids))
  {
    hide Times;
    var shares := Shares(cs, qty, ids).0;
    var cs' := AfterBuy(cs, qty, price, feeUsdt, ids);
    AfterBuyFacts(cs, qty, price, feeUsdt, ids);
    SharesFair(cs, qty, ids);
    SharesExhaust(cs, qty, ids);
    SumByMove(cs, cs', Rebought, shares);
    SumByMove(cs', cs, Unrecovered, shares);
    SumByShift(cs, cs', Spent, shares, price);
    SumByShift(cs, cs', Fees, shares, BuyFee(qty, feeUsdt));
  }

  /** First in, first out: a cycle receives quantity only when every older eligible cycle is whole again. */
  lemma AllocationIsFifo(cs: seq<HarvestCycle>, qty: real, price: real, feeUsdt: real, ids: CycleIds, older: nat,
      younger: nat)
    requires BookBalanced(cs) && qty >= 0.0 && older < younger < |cs|
    requires Eligible(cs[older], ids)
    requires Received(cs[younger], AfterBuy(cs, qty, price, feeUsdt, ids)[younger]) > 0.0
    ensures AfterBuy(cs, qty, price, feeUsdt, ids)[older].unrecoveredQty == 0.0
  {
    AfterBuyFacts(cs, qty, price, feeUsdt, ids);
    SharesFifo(cs, qty, ids, older, younger);
  }

  /** Every unit bought at or below the targets of the cycles it serves lowers the reserve by at least its price. */
  lemma AllocationLowersReserve(cs: seq<HarvestCycle>, qty: real, price: real, feeUsdt: real, ids: CycleIds)
    requires BookBalanced(cs) && qty >= 0.0
    requires forall i :: 0 <= i < |cs| && Eligible(cs[i], ids) ==> cs[i].rebuyTargetPrice >= price
    ensures RebuyReserve(AfterBuy(cs, qty, price, feeUsdt, ids))
      <= RebuyReserve(cs) - Times(qty - Unallocated(cs, qty, ids), price)
  {
    hide Times;
    var shares := Shares(cs, qty, ids).0;
    var cs' := AfterBuy(cs, qty, price, feeUsdt, ids);
    SharesFair(cs, qty, ids);
    AfterBuyFacts(cs, qty, price, feeUsdt, ids);
    forall i | 0 <= i < |cs|
      ensures Owed(cs'[i]) <= Owed(cs[i]) - Times(shares[i], price)
    {
      OwedAfter(cs[i].unrecoveredQty, shares[i], cs[i].rebuyTargetPrice, price);
    }
    SumByDrop(cs, cs', Owed, shares, price);
  }

  lemma OwedAfter(unrecovered: real, share: real, target: real, price: real)
    requires share == 0.0 || (0.0 <= share && price <= target)
    ensures Times(unrecovered - share, target) <= Times(unrecovered, target) - Times(share, price)
  {
    if share > 0.0 {
      MulMono(price, target, share);
      TimesAdd(unrecovered - share, share, target);
    }
  }

  // ── Profit of a round trip ───────────────────────────────────────────────

  /** Books of a cycle whose every unit was bought back at or below its target, with fee rate `f` on both legs. */
  predicate PricedToTarget(c: HarvestCycle, f: real) {
    && Balanced(c)
    && c.soldQty > EPS && c.avgSellPrice > 0.0
    && c.grossSellUsdt == Times(c.soldQty, c.avgSellPrice)
    && c.rebuyTargetPrice == Times(c.avgSellPrice, 1.0 - Bps(c.distanceBps))
    && c.spentRebuyUsdt <= Times(c.reboughtQty, c.rebuyTargetPrice)
    && c.estimatedFeesUsdt == Times(f, c.grossSellUsdt) + Times(f, c.spentRebuyUsdt)
    && (c.status == Completed ==> c.harvestedUsdt == Some(c.grossSellUsdt - c.spentRebuyUsdt - c.estimatedFeesUsdt))
    && (c.status == Completed <==> c.unrecoveredQty <= EPS)
    && (c.reboughtQty > 0.0 ==> c.rebuyTargetPrice > 0.0)
  }

  ghost predicate AllPriced(cs: seq<HarvestCycle>, f: real) {
    forall i :: 0 <= i < |cs| ==> PricedToTarget(cs[i], f)
  }

  lemma NewCyclePriced(id: nat, qty: real, price: real, f: real, intentPrice: real, distanceBps: real, now: int)
    requires qty > EPS && price > 0.0
    ensures PricedToTarget(NewCycle(id, qty, price, Times(f, Times(qty, price)), intentPrice, distanceBps, now), f)
  {
  }

  /** The fee of a buy at a flat rate, spread over its quantity, is the rate on the price. */
  lemma FlatFee(qty: real, price: real, f: real, alloc: real)
    requires qty > 0.0
    ensures Times(alloc, BuyFee(qty, Times(f, Times(qty, price)))) == Times(f, Times(alloc, price))
  {
    OverTimes(Times(f, price), qty);
    assert Times(f, Times(qty, price)) == Times(qty, Times(f, price));
    assert Times(alloc, Times(f, price)) == Times(f, Times(alloc, price));
  }

  lemma PayKeepsPriced(c: HarvestCycle, alloc: real, price: real, f: real, qty: real)
    requires PricedToTarget(c, f) && c.status != Completed
    requires EPS < alloc <= c.unrecoveredQty && qty > 0.0
    requires 0.0 < price <= c.rebuyTargetPrice
    ensures PricedToTarget(Pay(c, alloc, price, BuyFee(qty, Times(f, Times(qty, price)))), f)
  {
    hide Times;
    FlatFee(qty, price, f, alloc);
    TimesMono(price, c.rebuyTargetPrice, alloc);
    TimesAdd(c.reboughtQty, alloc, c.rebuyTargetPrice);
    TimesSwap(f, c.spentRebuyUsdt);
    TimesSwap(f, Times(alloc, price));
    TimesSwap(f, c.spentRebuyUsdt + Times(alloc, price));
    TimesAdd(c.spentRebuyUsdt, Times(alloc, price), f);
  }

  lemma OpenWhileOut(c: HarvestCycle, f: real)
    requires PricedToTarget(c, f) && c.unrecoveredQty > EPS
    ensures c.status != Completed
  {
  }

  /** A buy priced at or below the target of every cycle it may serve keeps the whole book priced to target. */
  lemma BuyKeepsPriced(cs: seq<HarvestCycle>, qty: real, price: real, f: real, ids: CycleIds)
    requires AllPriced(cs, f) && qty > 0.0 && price > 0.0
    requires forall i :: 0 <= i < |cs| && Eligible(cs[i], ids) ==> cs[i].rebuyTargetPrice >= price
    ensures AllPriced(AfterBuy(cs, qty, price, Times(f, Times(qty, price)), ids), f)
  {
    hide Times, Over, Pay, PricedToTarget;
    SharesFair(cs, qty, ids);
    forall i | 0 <= i < |cs|
      ensures PricedToTarget(AfterBuy(cs, qty, price, Times(f, Times(qty, price)), ids)[i], f)
    {
      var share := Shares(cs, qty, ids).0[i];
      if share > 0.0 {
        OpenWhileOut(cs[i], f);
        PayKeepsPriced(cs[i], share, price, f, qty);
      }
    }
  }

  /** The exact worst case of a completed round trip: fees come off both legs, so the spread is d - 2f + df. */
  lemma CompletedProfit(c: HarvestCycle, f: real)
    requires PricedToTarget(c, f) && c.status == Completed && 0.0 <= f
    ensures c.harvestedUsdt.Some?
    ensures var d := Bps(c.distanceBps);
      c.harvestedUsdt.value >= Times(Times(c.soldQty, c.avgSellPrice), d - 2.0 * f + d * f)
  {
    var d := Bps(c.distanceBps);
    var gross := c.grossSellUsdt;
    MulMono(c.reboughtQty, c.soldQty, c.rebuyTargetPrice);
    assert c.soldQty * (c.avgSellPrice * (1.0 - d)) == gross * (1.0 - d);
    SpreadAfterFees(gross, c.spentRebuyUsdt, d, f);
  }

  lemma SpreadAfterFees(gross: real, spent: real, d: real, f: real)
    requires 0.0 <= f && spent <= gross * (1.0 - d)
    ensures gross - spent - (f * gross + f * spent) >= gross * (d - 2.0 * f + d * f)
  {
    MulMono(spent, gross * (1.0 - d), 1.0 + f);
  }

  /** The advertised floor: distance less two fees, whenever the cycle was opened below its sell price. */
  lemma ProfitFloor(c: HarvestCycle, f: real)
    requires PricedToTarget(c, f) && c.status == Completed && 0.0 <= f && c.distanceBps >= 0.0
    ensures c.harvestedUsdt.Some?
    ensures c.harvestedUsdt.value >= Times(Times(c.soldQty, c.avgSellPrice), Bps(c.distanceBps) - 2.0 * f)
  {
    CompletedProfit(c, f);
    var d := Bps(c.distanceBps);
    MulNonneg(d, f);
    TimesPositive(c.soldQty, c.avgSellPrice);
    TimesMono(d - 2.0 * f, d - 2.0 * f + d * f, Times(c.soldQty, c.avgSellPrice));
  }

  // ── The tracker ──────────────────────────────────────────────────────────

  /** Cycles carry their opening number and are stored in opening order, so the oldest comes first. */
  ghost predicate BookInOrder(cs: seq<HarvestCycle>) {
    (forall i :: 0 <= i < |cs| ==> cs[i].id == i + 1) && StableSort.SortedBy(cs, OpenedAt)
  }

  lemma {:induction false} FilterKeepsOrder(cs: seq<HarvestCycle>, p: HarvestCycle -> bool)
    requires StableSort.SortedBy(cs, OpenedAt)
    ensures StableSort.SortedBy(Filter(cs, p), OpenedAt)
  {
    if cs != [] {
      FilterKeepsOrder(cs[1..], p);
    }
  }

  /** On a book in opening order the source's sort by opening time changes nothing: FIFO is book order. */
  lemma OldestFirst(cs: seq<HarvestCycle>, ask: real)
    requires BookInOrder(cs)
    ensures OpenForRebuy(cs, ask) == Filter(cs, Reached(ask))
  {
    FilterKeepsOrder(cs, Reached(ask));
    StableSort.SortIsIdentity(Filter(cs, Reached(ask)), OpenedAt);
  }

  /** One round of the loop of `onBuy` read off the split as a whole. */
  lemma ShareStep(cs: seq<HarvestCycle>, shares: seq<real>, i: nat, remaining: real, ids: CycleIds)
    requires i < |cs| == |shares|
    requires Shares(cs[i..], remaining, ids).0 == shares[i..]
    ensures shares[i] == Take(cs[i], remaining, ids)
    ensures Shares(cs[i + 1..], remaining - shares[i], ids).0 == shares[i + 1..]
  {
    assert cs[i..][0] == cs[i] && cs[i..][1..] == cs[i + 1..];
    assert shares[i..][0] == shares[i] && shares[i..][1..] == shares[i + 1..];
  }

  class CycleTracker {
    var cycles: seq<HarvestCycle>
    var seqNo: nat

    ghost predicate Valid()
      reads this
    {
      seqNo == |cycles| && BookInOrder(cycles)
    }

    constructor ()
      ensures Valid() && cycles == []
    {
      cycles, seqNo := [], 0;
    }

    method OnSell(qty: real, price: real, feeUsdt: real, intentPrice: real, distanceBps: real,
        now: int) returns (c: HarvestCycle)
      requires Valid()
      requires cycles != [] ==> cycles[|cycles| - 1].openedAt <= now
      modifies this
      ensures Valid() && cycles == old(cycles) + [c]
      ensures c == NewCycle(|cycles|, qty, price, feeUsdt, intentPrice, distanceBps, now)
    {
      seqNo := seqNo + 1;
      c := NewCycle(seqNo, qty, price, feeUsdt, intentPrice, distanceBps, now);
      cycles := cycles + [c];
    }

    method OnBuy(qty: real, price: real, feeUsdt: real, ids: CycleIds)
      requires Valid()
      modifies this`cycles
      ensures Valid() && cycles == AfterBuy(old(cycles), qty, price, feeUsdt, ids)
    {
      hide Pay;
      var remaining := qty;
      var feePerQty := BuyFee(qty, feeUsdt);
      ghost var was := cycles;
      ghost var after := AfterBuy(was, qty, price, feeUsdt, ids);
      for i := 0 to |cycles|
        invariant |cycles| == |was|
        invariant cycles[..i] == after[..i] && cycles[i..] == was[i..]
        invariant Shares(was[i..], remaining, ids).0 == Shares(was, qty, ids).0[i..]
      {
        var c := cycles[i];
        var share := Take(c, remaining, ids);
        ShareStep(was, Shares(was, qty, ids).0, i, remaining, ids);
        cycles := cycles[i := Serve(c, share, price, feePerQty)];
        remaining := remaining - share;
      }
      assert cycles[..|cycles|] == cycles && after[..|cycles|] == after;
      AfterBuyKeepsOrder(was, qty, price, feeUsdt, ids);
    }

    function RebuyReserveUsdt(): real
      reads this
    {
      RebuyReserve(cycles)
    }
  }

  lemma AfterBuyKeepsOrder(cs: seq<HarvestCycle>, qty: real, price: real, feeUsdt: real, ids: CycleIds)
    requires BookInOrder(cs)
    ensures BookInOrder(AfterBuy(cs, qty, price, feeUsdt, ids))
  {
    hide Times;
    var cs' := AfterBuy(cs, qty, price, feeUsdt, ids);
    assert forall i :: 0 <= i < |cs| ==> cs'[i].id == cs[i].id && OpenedAt(cs'[i]) == OpenedAt(cs[i]);
  }
}
