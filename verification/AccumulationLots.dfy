/**
 * Accumulation lots (backend/src/accumulation/accumulation-cycle-tracker.ts and accumulation-recovery.ts):
 * a buy opens a lot, recovery sells reclaim its principal, and what is left is surplus.
 */
module AccumulationLots {
  import opened Numeric
  import opened Sums
  import StableSort

  const EPS: real := 1e-9

  /** A targeted sell that leaves more than this unattributed is an error. */
  const UNALLOCATED_LIMIT: real := 1e-6

  datatype LotStatus = Open | PartiallyRecovered | PrincipalRecovered

  datatype Lot = Lot(
    id: nat,
    status: LotStatus,
    boughtQty: real,
    recoveredSellQty: real,
    surplusZigQty: real,
    avgBuyPrice: real,
    targetRecoveryPrice: real,
    usdtSpent: real,
    usdtRecovered: real,
    feesUsdt: real,
    openedAt: int)

  /** Recovery profit in basis points and the share of the principal a lot must win back. */
  datatype LotParams = LotParams(recoveryProfitBps: real, principalRecoveryPct: real)

  type LotIds = Option<seq<nat>>

  function OpenedAt(l: Lot): int { l.openedAt }

  function RecoveryTargetPrice(avgBuyPrice: real, recoveryProfitBps: real): real {
    Times(avgBuyPrice, 1.0 + Bps(recoveryProfitBps))
  }

  /** ZIG to sell at `bid` to win the missing principal back. */
  function RecoverySellQty(usdtSpent: real, pct: real, usdtRecovered: real, bid: real): real {
    if bid <= 0.0 then 0.0 else Over(Max(Times(pct, usdtSpent) - usdtRecovered, 0.0), bid)
  }

  function PerQty(feeUsdt: real, qty: real): real {
    if qty > 0.0 then Over(feeUsdt, qty) else 0.0
  }

  function NewLot(id: nat, qty: real, price: real, feeUsdt: real, p: LotParams, now: int): Lot {
    Lot(id, Open, qty, 0.0, qty, price, RecoveryTargetPrice(price + PerQty(feeUsdt, qty), p.recoveryProfitBps),
        Times(qty, price) + feeUsdt, 0.0, feeUsdt, now)
  }

  predicate Owing(l: Lot) {
    l.status == Open || l.status == PartiallyRecovered
  }

  function Held(l: Lot): real { l.boughtQty - l.recoveredSellQty }
  function SurplusOf(l: Lot): real { if Owing(l) then 0.0 else l.surplusZigQty }
  function SpentOf(l: Lot): real { l.usdtSpent }

  /** ZIG still held in all lots, and the part of it that belongs to lots with their principal back. */
  function HeldZig(ls: seq<Lot>): real { SumBy(ls, Held) }
  function SurplusZig(ls: seq<Lot>): real { SumBy(ls, SurplusOf) }

  function Need(l: Lot, pct: real): real {
    Max(Times(pct, l.usdtSpent) - l.usdtRecovered, 0.0)
  }

  /** Capital a lot still ties up: the principal it has yet to win back plus the part it never has to. */
  function OutstandingOf(pct: real): Lot -> real {
    (l: Lot) => Need(l, pct) + (l.usdtSpent - Times(pct, l.usdtSpent))
  }

  function Outstanding(ls: seq<Lot>, pct: real): real { SumBy(ls, OutstandingOf(pct)) }

  predicate Chosen(l: Lot, ids: LotIds) {
    (ids.None? || l.id in ids.value) && Owing(l)
  }

  /** What a recovery sell takes from this lot out of `remaining`. An untargeted sell takes no more than the need. */
  function TakeFrom(l: Lot, remaining: real, netPrice: real, ids: LotIds, pct: real): real
    requires netPrice > 0.0
  {
    if !Chosen(l, ids) || remaining <= EPS then 0.0 else
      var available := Min(remaining, Held(l));
      var alloc := if ids.Some? then available else Min(available, Over(Need(l, pct), netPrice));
      if alloc <= EPS then 0.0 else alloc
  }

  function SellShares(ls: seq<Lot>, remaining: real, netPrice: real, ids: LotIds, pct: real): (r: (seq<real>, real))
    requires netPrice > 0.0
    ensures |r.0| == |ls|
  {
    if ls == [] then ([], remaining)
    else
      var take := TakeFrom(ls[0], remaining, netPrice, ids, pct);
      var (rest, left) := SellShares(ls[1..], remaining - take, netPrice, ids, pct);
      ([take] + rest, left)
  }

  /** A sell of `share` ZIG at a net price credited to a lot. */
  function Recover(l: Lot, share: real, netPrice: real, feePerQty: real, pct: real): Lot {
    if share <= 0.0 then l else
      var recovered := l.usdtRecovered + Times(share, netPrice);
      var sold := l.recoveredSellQty + share;
      l.(recoveredSellQty := sold, usdtRecovered := recovered,
         surplusZigQty := Max(l.boughtQty - sold, 0.0), feesUsdt := l.feesUsdt + Times(share, feePerQty),
         status := if recovered >= Times(pct, l.usdtSpent) - EPS then PrincipalRecovered else PartiallyRecovered)
  }

  /** Principal a share wins back: never more than the lot still needs. */
  function ReclaimedBy(l: Lot, share: real, netPrice: real, pct: real): real {
    if share <= 0.0 then 0.0 else Min(Need(l, pct), Times(share, netPrice))
  }

  function NetPrice(qty: real, price: real, feeUsdt: real): real {
    price - PerQty(feeUsdt, qty)
  }

  /** A recovery sell as a value: the lots after it, the principal reclaimed and the quantity no lot took. */
  datatype Sale = Sale(lots: seq<Lot>, reclaimed: real, left: real)

  function Sell(ls: seq<Lot>, qty: real, price: real, feeUsdt: real, ids: LotIds, pct: real): (r: Sale)
    requires NetPrice(qty, price, feeUsdt) > 0.0
    ensures |r.lots| == |ls|
  {
    var net := NetPrice(qty, price, feeUsdt);
    var (shares, left) := SellShares(ls, qty, net, ids, pct);
    Sale(seq(|ls|, (i: int) requires 0 <= i < |ls| => Recover(ls[i], shares[i], net, PerQty(feeUsdt, qty), pct)),
         Total(Reclaims(ls, shares, net, pct)), left)
  }

  function Reclaims(ls: seq<Lot>, shares: seq<real>, netPrice: real, pct: real): (r: seq<real>)
    requires |shares| == |ls|
    ensures |r| == |ls|
  {
    seq(|ls|, (i: int) requires 0 <= i < |ls| => ReclaimedBy(ls[i], shares[i], netPrice, pct))
  }

  /** The source throws after the lots have moved when a targeted sell cannot be attributed. */
  predicate Unallocated(s: Sale, ids: LotIds) {
    ids.Some? && s.left > UNALLOCATED_LIMIT
  }

  function Filter(ls: seq<Lot>, p: Lot -> bool): (r: seq<Lot>)
    ensures forall k :: 0 <= k < |r| ==> r[k] in ls && p(r[k])
    ensures forall k :: 0 <= k < |ls| && p(ls[k]) ==> ls[k] in r
  {
    if ls == [] then [] else
      var rest := Filter(ls[1..], p);
      assert forall k :: 0 < k < |ls| ==> ls[k] == ls[1..][k - 1];
      if p(ls[0]) then [ls[0]] + rest else rest
  }

  function Due(bid: real, pct: real): Lot -> bool {
    (l: Lot) => Owing(l) && bid >= l.targetRecoveryPrice && l.usdtRecovered < Times(pct, l.usdtSpent) - EPS
  }

  function OpenForRecovery(ls: seq<Lot>, bid: real, pct: real): (r: seq<Lot>)
    ensures forall k :: 0 <= k < |r| ==> r[k] in ls && Due(bid, pct)(r[k])
  {
    var due := Filter(ls, Due(bid, pct));
    var r := StableSort.Sort(due, OpenedAt);
    assert forall k :: 0 <= k < |r| ==> r[k] in multiset(r);
    r
  }

  /** Every lot whose target the bid has reached and whose principal is still missing, and no other, oldest first. */
  lemma EveryDueLotIsOffered(ls: seq<Lot>, bid: real, pct: real)
    ensures forall l :: l in OpenForRecovery(ls, bid, pct) <==> l in ls && Due(bid, pct)(l)
    ensures StableSort.SortedBy(OpenForRecovery(ls, bid, pct), OpenedAt)
    ensures LotsInOrder(ls) ==> OpenForRecovery(ls, bid, pct) == Filter(ls, Due(bid, pct))
  {
    hide Due;
    var due := Filter(ls, Due(bid, pct));
    StableSort.SortKeepsMembers(due, OpenedAt);
    if LotsInOrder(ls) {
      FilterKeepsLotOrder(ls, Due(bid, pct));
      StableSort.SortIsIdentity(due, OpenedAt);
    }
  }

  lemma {:induction false} FilterKeepsLotOrder(ls: seq<Lot>, p: Lot -> bool)
    requires StableSort.SortedBy(ls, OpenedAt)
    ensures StableSort.SortedBy(Filter(ls, p), OpenedAt)
  {
    if ls != [] {
      FilterKeepsLotOrder(ls[1..], p);
    }
  }

  // ── What a recovery sell does ────────────────────────────────────────────

  predicate Sound(l: Lot) {
    && 0.0 <= l.recoveredSellQty <= l.boughtQty
    && l.surplusZigQty == l.boughtQty - l.recoveredSellQty
    && 0.0 <= l.usdtSpent && 0.0 <= l.usdtRecovered
  }

  ghost predicate AllSound(ls: seq<Lot>) {
    forall i :: 0 <= i < |ls| ==> Sound(ls[i])
  }

  predicate FairShare(l: Lot, share: real, ids: LotIds) {
    share == 0.0 || (Chosen(l, ids) && EPS < share <= Held(l))
  }

  lemma {:induction false} SellSharesFair(ls: seq<Lot>, remaining: real, netPrice: real, ids: LotIds, pct: real)
    requires netPrice > 0.0 && remaining >= 0.0
    ensures var (shares, left) := SellShares(ls, remaining, netPrice, ids, pct);
      && 0.0 <= left <= remaining && Total(shares) == remaining - left
      && forall i :: 0 <= i < |ls| ==> FairShare(ls[i], shares[i], ids)
  {
    hide Times, Over;
    if ls != [] {
      SellSharesFair(ls[1..], remaining - TakeFrom(ls[0], remaining, netPrice, ids, pct), netPrice, ids, pct);
    }
  }

  /** Capital credited to a lot is exactly the capital it no longer ties up. */
  lemma RecoverFacts(l: Lot, share: real, netPrice: real, feePerQty: real, ids: LotIds, pct: real)
    requires Sound(l) && FairShare(l, share, ids) && netPrice > 0.0
    ensures var l' := Recover(l, share, netPrice, feePerQty, pct);
      && Sound(l') && Held(l') == Held(l) - share && l'.usdtSpent == l.usdtSpent && l'.id == l.id
      && l'.openedAt == l.openedAt
      && OutstandingOf(pct)(l') == OutstandingOf(pct)(l) - ReclaimedBy(l, share, netPrice, pct)
      && 0.0 <= ReclaimedBy(l, share, netPrice, pct) <= Need(l, pct)
  {
    if share > 0.0 {
      TimesPositive(share, netPrice);
    }
    hide Times;
  }

  /**
   * Every unit sold is accounted for: holdings fall by what was attributed, and the capital tied up falls by
   * exactly the principal reported back, which is never more than what is tied up.
   */
  lemma SellConserves(ls: seq<Lot>, qty: real, price: real, feeUsdt: real, ids: LotIds, pct: real)
    requires AllSound(ls) && qty >= 0.0 && NetPrice(qty, price, feeUsdt) > 0.0 && 0.0 <= pct <= 1.0
    ensures var s := Sell(ls, qty, price, feeUsdt, ids, pct);
      && AllSound(s.lots) && 0.0 <= s.left <= qty
      && HeldZig(s.lots) == HeldZig(ls) - (qty - s.left)
      && Outstanding(s.lots, pct) == Outstanding(ls, pct) - s.reclaimed
      && SumBy(s.lots, SpentOf) == SumBy(ls, SpentOf)
      && 0.0 <= s.reclaimed <= Outstanding(ls, pct)
  {
    hide Times, Over;
    var net := NetPrice(qty, price, feeUsdt);
    var (shares, left) := SellShares(ls, qty, net, ids, pct);
    var s := Sell(ls, qty, price, feeUsdt, ids, pct);
    var back := Reclaims(ls, shares, net, pct);
    SellSharesFair(ls, qty, net, ids, pct);
    forall i | 0 <= i < |ls|
      ensures Sound(s.lots[i]) && Held(ls[i]) == Held(s.lots[i]) + shares[i] && SpentOf(s.lots[i]) == SpentOf(ls[i])
      ensures OutstandingOf(pct)(ls[i]) == OutstandingOf(pct)(s.lots[i]) + back[i]
      ensures 0.0 <= back[i] && OutstandingOf(pct)(s.lots[i]) >= 0.0
    {
      RecoverFacts(ls[i], shares[i], net, PerQty(feeUsdt, qty), ids, pct);
      PartOfSpent(pct, ls[i].usdtSpent);
    }
    SumByMove(s.lots, ls, Held, shares);
    SumByMove(s.lots, ls, OutstandingOf(pct), back);
    SumBySame(ls, s.lots, SpentOf);
    SumByNonneg(s.lots, OutstandingOf(pct));
    TotalNonneg(back);
  }

  /** Principal won back is at most what the sale brought in after its fee. */
  lemma {:induction false} ReclaimsWithinProceeds(ls: seq<Lot>, shares: seq<real>, netPrice: real, pct: real)
    requires |shares| == |ls| && netPrice > 0.0 && forall i :: 0 <= i < |shares| ==> shares[i] >= 0.0
    ensures Total(Reclaims(ls, shares, netPrice, pct)) <= Times(Total(shares), netPrice)
  {
    assert Times(0.0, netPrice) == 0.0;
    hide Times;
    if ls != [] {
      var back := Reclaims(ls, shares, netPrice, pct);
      ReclaimsWithinProceeds(ls[1..], shares[1..], netPrice, pct);
      assert back[1..] == Reclaims(ls[1..], shares[1..], netPrice, pct);
      TimesAdd(shares[0], Total(shares[1..]), netPrice);
    }
  }

  lemma SaleWithinProceeds(ls: seq<Lot>, qty: real, price: real, feeUsdt: real, ids: LotIds, pct: real)
    requires qty >= 0.0 && NetPrice(qty, price, feeUsdt) > 0.0
    ensures Sell(ls, qty, price, feeUsdt, ids, pct).reclaimed <= Times(qty, NetPrice(qty, price, feeUsdt))
  {
    hide Times, Over, NetPrice, Reclaims;
    var net := NetPrice(qty, price, feeUsdt);
    var (shares, left) := SellShares(ls, qty, net, ids, pct);
    SellSharesFair(ls, qty, net, ids, pct);
    ReclaimsWithinProceeds(ls, shares, net, pct);
    TimesSwap(Total(shares), net);
    TimesSwap(qty, net);
    TimesMono(Total(shares), qty, net);
  }

  lemma PartOfSpent(pct: real, spent: real)
    requires 0.0 <= pct <= 1.0 && 0.0 <= spent
    ensures 0.0 <= Times(pct, spent) <= spent
  {
    MulMono(pct, 1.0, spent);
  }

  /** A sell aimed at one owing lot, within what it holds, goes to that lot whole. */
  lemma {:induction false} AimedShares(ls: seq<Lot>, qty: real, netPrice: real, pct: real, target: nat)
    requires target < |ls| && netPrice > 0.0
    requires Owing(ls[target]) && EPS < qty <= Held(ls[target])
    requires forall i :: 0 <= i < |ls| && i != target ==> ls[i].id != ls[target].id
    ensures var (shares, left) := SellShares(ls, qty, netPrice, Some([ls[target].id]), pct);
      left == 0.0 && forall i :: 0 <= i < |ls| ==> shares[i] == (if i == target then qty else 0.0)
  {
    hide Times, Over;
    var ids := Some([ls[target].id]);
    if target == 0 {
      NoShares(ls[1..], 0.0, netPrice, ids, pct);
    } else {
      AimedShares(ls[1..], qty, netPrice, pct, target - 1);
    }
  }

  lemma {:induction false} NoShares(ls: seq<Lot>, remaining: real, netPrice: real, ids: LotIds, pct: real)
    requires netPrice > 0.0 && remaining <= EPS
    ensures SellShares(ls, remaining, netPrice, ids, pct).1 == remaining
    ensures forall i :: 0 <= i < |ls| ==> SellShares(ls, remaining, netPrice, ids, pct).0[i] == 0.0
  {
    if ls != [] {
      NoShares(ls[1..], remaining, netPrice, ids, pct);
    }
  }

  /** The lots after a sell aimed at one of them: only that lot moves, and nothing is left unattributed. */
  lemma AimedSell(ls: seq<Lot>, qty: real, price: real, feeUsdt: real, pct: real, target: nat)
    requires target < |ls| && NetPrice(qty, price, feeUsdt) > 0.0
    requires Owing(ls[target]) && EPS < qty <= Held(ls[target])
    requires forall i :: 0 <= i < |ls| && i != target ==> ls[i].id != ls[target].id
    ensures var s := Sell(ls, qty, price, feeUsdt, Some([ls[target].id]), pct);
      && s.left == 0.0
      && s.lots == ls[target := Recover(ls[target], qty, NetPrice(qty, price, feeUsdt), PerQty(feeUsdt, qty), pct)]
  {
    hide Times, Over;
    AimedShares(ls, qty, NetPrice(qty, price, feeUsdt), pct, target);
  }

  // ── What a recovery order is for ─────────────────────────────────────────

  /** Selling the required quantity at the net bid it was computed for wins exactly the missing principal back. */
  lemma RequiredIsTheNeed(l: Lot, pct: real, netBid: real)
    requires netBid > 0.0
    ensures Times(RecoverySellQty(l.usdtSpent, pct, l.usdtRecovered, netBid), netBid) == Need(l, pct)
  {
    OverTimes(Need(l, pct), netBid);
  }

  /** So a sell of at least that much completes the lot's recovery. */
  lemma SellingTheNeedRecovers(l: Lot, share: real, pct: real, netBid: real, feePerQty: real)
    requires netBid > 0.0 && share > 0.0 && share >= RecoverySellQty(l.usdtSpent, pct, l.usdtRecovered, netBid)
    ensures Recover(l, share, netBid, feePerQty, pct).status == PrincipalRecovered
  {
    RequiredIsTheNeed(l, pct, netBid);
    hide Times, RecoverySellQty;
    TimesMono(RecoverySellQty(l.usdtSpent, pct, l.usdtRecovered, netBid), share, netBid);
    TimesSwap(netBid, share);
    TimesSwap(netBid, RecoverySellQty(l.usdtSpent, pct, l.usdtRecovered, netBid));
  }

  /**
   * A new lot can win its principal back in one sell at its target exactly when the recovery profit, net of the taker
   * fee, is at least the share of principal it must win back.
   */
  lemma TargetRecovers(id: nat, qty: real, price: real, feeUsdt: real, p: LotParams, now: int, f: real)
    requires qty > 0.0 && price > 0.0 && feeUsdt >= 0.0 && 0.0 <= f < 1.0 && p.recoveryProfitBps >= 0.0
      && p.principalRecoveryPct >= 0.0
    ensures var l := NewLot(id, qty, price, feeUsdt, p, now); var netBid := Times(l.targetRecoveryPrice, 1.0 - f);
      (RecoverySellQty(l.usdtSpent, p.principalRecoveryPct, l.usdtRecovered, netBid) <= Held(l)) <==>
      (p.principalRecoveryPct <= Times(1.0 + Bps(p.recoveryProfitBps), 1.0 - f))
  {
    var l := NewLot(id, qty, price, feeUsdt, p, now);
    var gain, pct := 1.0 + Bps(p.recoveryProfitBps), p.principalRecoveryPct;
    var netBid := Times(l.targetRecoveryPrice, 1.0 - f);
    TargetWorth(qty, price, feeUsdt, gain, f);
    RequiredIsTheNeed(l, pct, netBid);
    PartNonneg(pct, l.usdtSpent);
    RatioOrder(RecoverySellQty(l.usdtSpent, pct, 0.0, netBid), qty, netBid, pct, Times(gain, 1.0 - f), l.usdtSpent);
  }

  lemma PartNonneg(pct: real, spent: real)
    requires pct >= 0.0 && spent >= 0.0
    ensures Times(pct, spent) >= 0.0
  {
  }

  /** The whole lot at its target, net of the taker fee, is worth its cost times the net gain. */
  lemma TargetWorth(qty: real, price: real, feeUsdt: real, gain: real, f: real)
    requires qty > 0.0 && price > 0.0 && feeUsdt >= 0.0 && gain >= 1.0 && 0.0 <= f < 1.0
    ensures var netBid := Times(Times(price + PerQty(feeUsdt, qty), gain), 1.0 - f);
      var spent := Times(qty, price) + feeUsdt;
      netBid > 0.0 && spent > 0.0 && Times(qty, netBid) == Times(Times(gain, 1.0 - f), spent)
  {
    var unit := price + PerQty(feeUsdt, qty);
    OverTimes(feeUsdt, qty);
    OverNonneg(feeUsdt, qty);
    TimesPositive(qty, price);
    TimesPositive(unit, gain);
    TimesPositive(Times(unit, gain), 1.0 - f);
    assert qty * unit == Times(qty, price) + feeUsdt;
    Reorder(qty, unit, gain, 1.0 - f);
  }

  lemma Reorder(a: real, b: real, c: real, d: real)
    ensures Times(a, Times(Times(b, c), d)) == Times(Times(c, d), Times(a, b))
  {
  }

  /** Two quantities at one price compare like two shares of one sum. */
  lemma RatioOrder(need: real, qty: real, price: real, pct: real, gain: real, spent: real)
    requires price > 0.0 && spent > 0.0
    requires Times(need, price) == Times(pct, spent) && Times(qty, price) == Times(gain, spent)
    ensures need <= qty <==> pct <= gain
  {
    hide Times;
    TimesSwap(need, price);
    TimesSwap(qty, price);
    TimesSwap(pct, spent);
    TimesSwap(gain, spent);
    if need <= qty {
      TimesMono(need, qty, price);
      if pct > gain {
        TimesStrict(gain, pct, spent);
      }
    } else {
      TimesStrict(qty, need, price);
      if pct <= gain {
        TimesMono(pct, gain, spent);
      }
    }
  }

  // ── The tracker ──────────────────────────────────────────────────────────

  /** Lots carry their opening number and are stored in opening order. */
  ghost predicate LotsInOrder(ls: seq<Lot>) {
    (forall i :: 0 <= i < |ls| ==> ls[i].id == i + 1) && StableSort.SortedBy(ls, OpenedAt)
  }

  lemma SellKeepsOrder(ls: seq<Lot>, qty: real, price: real, feeUsdt: real, ids: LotIds, pct: real)
    requires LotsInOrder(ls) && NetPrice(qty, price, feeUsdt) > 0.0
    ensures LotsInOrder(Sell(ls, qty, price, feeUsdt, ids, pct).lots)
  {
    hide Times, Over;
    var ls' := Sell(ls, qty, price, feeUsdt, ids, pct).lots;
    assert forall i :: 0 <= i < |ls| ==> ls'[i].id == ls[i].id && OpenedAt(ls'[i]) == OpenedAt(ls[i]);
  }

  /** One round of the loop of `onRecoverySell` read off the split as a whole. */
  lemma SellStep(ls: seq<Lot>, shares: seq<real>, i: nat, remaining: real, netPrice: real, ids: LotIds, pct: real,
      left: real)
    requires i < |ls| == |shares| && netPrice > 0.0
    requires SellShares(ls[i..], remaining, netPrice, ids, pct) == (shares[i..], left)
    ensures shares[i] == TakeFrom(ls[i], remaining, netPrice, ids, pct)
    ensures SellShares(ls[i + 1..], remaining - shares[i], netPrice, ids, pct) == (shares[i + 1..], left)
  {
    hide TakeFrom;
    assert ls[i..][0] == ls[i] && ls[i..][1..] == ls[i + 1..];
    assert shares[i..][0] == shares[i] && shares[i..][1..] == shares[i + 1..];
  }

  lemma TotalFrom(w: seq<real>, i: nat)
    requires i < |w|
    ensures Total(w[i..]) == w[i] + Total(w[i + 1..])
  {
    assert w[i..][0] == w[i] && w[i..][1..] == w[i + 1..];
  }

  class AccumulationCycleTracker {
    var lots: seq<Lot>
    var seqNo: nat
    const params: LotParams

    ghost predicate Valid()
      reads this
    {
      seqNo == |lots| && LotsInOrder(lots)
    }

    constructor (params: LotParams)
      ensures Valid() && lots == [] && this.params == params
    {
      lots, seqNo, this.params := [], 0, params;
    }

    method OnBuy(qty: real, price: real, feeUsdt: real, now: int) returns (l: Lot)
      requires Valid()
      requires lots != [] ==> lots[|lots| - 1].openedAt <= now
      modifies this
      ensures Valid() && lots == old(lots) + [l]
      ensures l == NewLot(|lots|, qty, price, feeUsdt, params, now)
    {
      seqNo := seqNo + 1;
      l := NewLot(seqNo, qty, price, feeUsdt, params, now);
      lots := lots + [l];
    }

    /** The source throws when `threw`; its lots have moved by then. */
    method OnRecoverySell(qty: real, price: real, feeUsdt: real, ids: LotIds) returns (reclaimedUsdt: real, threw: bool)
      requires Valid() && NetPrice(qty, price, feeUsdt) > 0.0
      modifies this`lots
      ensures Valid()
      ensures var s := Sell(old(lots), qty, price, feeUsdt, ids, params.principalRecoveryPct);
        lots == s.lots && reclaimedUsdt == s.reclaimed && threw == Unallocated(s, ids)
    {
      hide Times, Over, Recover, ReclaimedBy, TakeFrom, LotsInOrder;
      var remaining := qty;
      reclaimedUsdt := 0.0;
      var feePerQty := PerQty(feeUsdt, qty);
      var net := NetPrice(qty, price, feeUsdt);
      var pct := params.principalRecoveryPct;
      ghost var was := lots;
      ghost var s := Sell(was, qty, price, feeUsdt, ids, pct);
      ghost var shares := SellShares(was, qty, net, ids, pct).0;
      ghost var back := Reclaims(was, shares, net, pct);
      for i := 0 to |lots|
        invariant |lots| == |was|
        invariant lots[..i] == s.lots[..i] && lots[i..] == was[i..]
        invariant SellShares(was[i..], remaining, net, ids, pct) == (shares[i..], s.left)
        invariant s.reclaimed == reclaimedUsdt + Total(back[i..])
      {
        var l := lots[i];
        var share := TakeFrom(l, remaining, net, ids, pct);
        SellStep(was, shares, i, remaining, net, ids, pct, s.left);
        TotalFrom(back, i);
        reclaimedUsdt := reclaimedUsdt + ReclaimedBy(l, share, net, pct);
        lots := lots[i := Recover(l, share, net, feePerQty, pct)];
        remaining := remaining - share;
      }
      assert lots[..|lots|] == lots && s.lots[..|lots|] == s.lots;
      threw := ids.Some? && remaining > UNALLOCATED_LIMIT;
      SellKeepsOrder(was, qty, price, feeUsdt, ids, pct);
    }
  }
}
