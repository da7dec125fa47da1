/** The treasury derived from its fills (backend/src/treasury/derive.ts and engine.ts). */
module Treasury {
  import opened Numeric
  import opened Sums
  import opened Domain
  import StableSort

  /** Running result of the cost-basis loop: base held, weighted-average cost, harvested profit, fees. */
  datatype Basis = Basis(qty: real, avgCost: real, realizedPnl: real, totalFeesUsdt: real)

  const EMPTY := Basis(0.0, 0.0, 0.0, 0.0)

  function FeeQuote(f: Fill): real {
    match f.feeAsset
    case FeeInQuote => f.fee
    case FeeInBase => Times(f.fee, f.price)
    case FeeElsewhere => 0.0
  }

  function BaseReceived(f: Fill): real {
    if f.feeAsset == FeeInBase then f.size - f.fee else f.size
  }

  function QuoteSpent(f: Fill): real {
    Times(f.price, f.size) + (if f.feeAsset == FeeInQuote then f.fee else 0.0)
  }

  /** One fill. A sell larger than the holding leaves it at zero: that means missing buy history. */
  function Step(b: Basis, f: Fill): Basis {
    match f.side
    case Buy =>
      var newQty := b.qty + BaseReceived(f);
      var avg := if newQty > 0.0 then Over(Times(b.qty, b.avgCost) + QuoteSpent(f), newQty) else 0.0;
      b.(qty := newQty, avgCost := avg, totalFeesUsdt := b.totalFeesUsdt + FeeQuote(f))
    case Sell =>
      var left := Max(b.qty - f.size, 0.0);
      b.(qty := left, avgCost := if left == 0.0 then 0.0 else b.avgCost,
         realizedPnl := b.realizedPnl + (Times(f.price - b.avgCost, f.size) - FeeQuote(f)),
         totalFeesUsdt := b.totalFeesUsdt + FeeQuote(f))
  }

  function Fold(fs: seq<Fill>): Basis {
    if fs == [] then EMPTY else Step(Fold(fs[..|fs| - 1]), fs[|fs| - 1])
  }

  datatype Derived = Derived(totalBase: real, activeBase: real, reserveBase: real, avgCost: real, realizedPnl: real,
                             totalFeesUsdt: real, fillCount: nat, lastFillAt: Option<int>)

  function Summary(b: Basis, ordered: seq<Fill>, reserveFloor: real): Derived {
    Derived(b.qty, Max(b.qty - reserveFloor, 0.0), Min(b.qty, reserveFloor), b.avgCost, b.realizedPnl, b.totalFeesUsdt,
            |ordered|, if ordered == [] then None else Some(ordered[|ordered| - 1].filledAt))
  }

  function DeriveTreasury(fills: seq<Fill>, reserveFloor: real): Derived {
    var ordered := StableSort.Sort(fills, FilledAt);
    Summary(Fold(ordered), ordered, reserveFloor)
  }

  /** What the holding is worth over its cost at a mark price. */
  function Unrealized(d: Derived, mark: real): real {
    Times(mark - d.avgCost, d.totalBase)
  }

  /** The source's loop over the fills in time order. */
  method Derive(fills: seq<Fill>, reserveFloor: real) returns (d: Derived)
    ensures d == DeriveTreasury(fills, reserveFloor)
  {
    hide Times, Over, FeeQuote, QuoteSpent, BaseReceived, StableSort.Sort;
    var ordered := StableSort.Sort(fills, FilledAt);
    var qty, avgCost, realizedPnl, totalFeesUsdt := 0.0, 0.0, 0.0, 0.0;
    var lastFillAt := None;
    for i := 0 to |ordered|
      invariant Basis(qty, avgCost, realizedPnl, totalFeesUsdt) == Fold(ordered[..i])
      invariant lastFillAt == if i == 0 then None else Some(ordered[i - 1].filledAt)
    {
      var f := ordered[i];
      assert ordered[..i + 1][..i] == ordered[..i];
      lastFillAt := Some(f.filledAt);
      var feeQuote := FeeQuote(f);
      totalFeesUsdt := totalFeesUsdt + feeQuote;
      if f.side == Buy {
        var newQty := qty + BaseReceived(f);
        avgCost := if newQty > 0.0 then Over(Times(qty, avgCost) + QuoteSpent(f), newQty) else 0.0;
        qty := newQty;
      } else {
        realizedPnl := realizedPnl + (Times(f.price - avgCost, f.size) - feeQuote);
        qty := qty - f.size;
        if qty < 0.0 {
          qty := 0.0;
        }
        if qty == 0.0 {
          avgCost := 0.0;
        }
      }
    }
    assert ordered[..|ordered|] == ordered;
    d := Derived(qty, Max(qty - reserveFloor, 0.0), Min(qty, reserveFloor), avgCost, realizedPnl, totalFeesUsdt,
      |ordered|, lastFillAt);
  }

  // ── Profit identity ──────────────────────────────────────────────────────

  /** A fill an exchange could report: positive price and size, and a base fee smaller than what was bought. */
  predicate WellFormed(f: Fill) {
    f.price > 0.0 && f.size > 0.0 && f.fee >= 0.0 && (f.side == Buy ==> BaseReceived(f) > 0.0)
  }

  ghost predicate AllWellFormed(fs: seq<Fill>) {
    forall i :: 0 <= i < |fs| ==> WellFormed(fs[i])
  }

  /** Quote that came in, after fees, and quote that went out, fees included. */
  function Proceeds(f: Fill): real {
    if f.side == Sell then Times(f.price, f.size) - FeeQuote(f) else 0.0
  }

  function Outlay(f: Fill): real {
    if f.side == Buy then QuoteSpent(f) else 0.0
  }

  /** Cost of units a sell took from a holding that did not have them. */
  function PhantomCost(b: Basis, f: Fill): real {
    if f.side == Sell && f.size > b.qty then Times(b.avgCost, f.size - b.qty) else 0.0
  }

  function TotalPhantomCost(fs: seq<Fill>): real {
    if fs == [] then 0.0 else
      TotalPhantomCost(fs[..|fs| - 1]) + PhantomCost(Fold(fs[..|fs| - 1]), fs[|fs| - 1])
  }

  /** No sell takes more than a holding that is there at all. */
  ghost predicate NeverOversells(fs: seq<Fill>) {
    forall i :: 0 <= i < |fs| && fs[i].side == Sell ==> fs[i].size <= Fold(fs[..i]).qty || Fold(fs[..i]).qty == 0.0
  }

  lemma {:induction false} FoldSound(fs: seq<Fill>)
    requires AllWellFormed(fs)
    ensures Fold(fs).qty >= 0.0
    ensures if Fold(fs).qty == 0.0 then Fold(fs).avgCost == 0.0 else Fold(fs).avgCost > 0.0
  {
    if fs != [] {
      var b, f := Fold(fs[..|fs| - 1]), fs[|fs| - 1];
      FoldSound(fs[..|fs| - 1]);
      if f.side == Buy {
        BuyCostPositive(b.qty, b.avgCost, f);
      }
    }
  }

  lemma BuyCostPositive(qty: real, avgCost: real, f: Fill)
    requires qty >= 0.0 && avgCost >= 0.0 && WellFormed(f) && f.side == Buy
    ensures Over(Times(qty, avgCost) + QuoteSpent(f), qty + BaseReceived(f)) > 0.0
  {
    hide Times, Over;
    TimesPositive(f.price, f.size);
    TimesNonneg(qty, avgCost);
    OverPositive(Times(qty, avgCost) + QuoteSpent(f), qty + BaseReceived(f));
  }

  lemma TimesNonneg(a: real, b: real)
    requires a >= 0.0 && b >= 0.0
    ensures Times(a, b) >= 0.0
  {
  }

  lemma SellLedger(b: Basis, f: Fill)
    requires f.side == Sell && b.qty >= 0.0
    ensures var b' := Step(b, f);
      b'.realizedPnl - Times(b'.avgCost, b'.qty) == b.realizedPnl - Times(b.avgCost, b.qty) +
        Proceeds(f) - PhantomCost(b, f)
  {
    assert Times(f.price - b.avgCost, f.size) == Times(f.price, f.size) - Times(b.avgCost, f.size);
    assert Times(b.avgCost, f.size - b.qty) == Times(b.avgCost, f.size) - Times(b.avgCost, b.qty);
    hide Times;
    TimesZero(Step(b, f).avgCost, Step(b, f).qty);
    assert f.size > b.qty ==> Step(b, f).qty == 0.0;
    if f.size <= b.qty {
      SplitTimes(b.avgCost, b.qty, f.size);
      TimesZero(b.avgCost, b.qty - f.size);
    }
  }

  lemma TimesZero(a: real, b: real)
    ensures b == 0.0 ==> Times(a, b) == 0.0
  {
  }

  lemma SplitTimes(a: real, whole: real, part: real)
    ensures Times(a, whole - part) == Times(a, whole) - Times(a, part)
  {
  }

  lemma TimesSub(a: real, b: real, k: real)
    ensures Times(a - b, k) == Times(a, k) - Times(b, k)
  {
  }

  lemma BuyLedger(b: Basis, f: Fill)
    requires f.side == Buy && b.qty + BaseReceived(f) > 0.0
    ensures var b' := Step(b, f);
      b'.realizedPnl - Times(b'.avgCost, b'.qty) == b.realizedPnl - Times(b.avgCost, b.qty) - Outlay(f)
  {
    hide Times, Over;
    var newQty := b.qty + BaseReceived(f);
    OverTimes(Times(b.qty, b.avgCost) + QuoteSpent(f), newQty);
    TimesSwap(b.qty, b.avgCost);
    TimesSwap(newQty, Step(b, f).avgCost);
  }

  /**
   * The ledger identity on every well-formed history: what was harvested is cash in, less cash out, plus the cost still
   * held, less phantom cost.
   */
  lemma {:induction false} CostLedger(fs: seq<Fill>)
    requires AllWellFormed(fs)
    ensures Fold(fs).realizedPnl - Times(Fold(fs).avgCost, Fold(fs).qty)
         == SumBy(fs, Proceeds) - SumBy(fs, Outlay) - TotalPhantomCost(fs)
  {
    hide Times, Over;
    if fs == [] {
      TimesZero(0.0, 0.0);
    } else {
      var front, f := fs[..|fs| - 1], fs[|fs| - 1];
      CostLedger(front);
      FoldSound(front);
      assert fs == front + [f];
      SumByAppend(front, f, Proceeds);
      SumByAppend(front, f, Outlay);
      if f.side == Buy {
        BuyLedger(Fold(front), f);
      } else {
        SellLedger(Fold(front), f);
      }
    }
  }

  /** The last fill decides, given all before it. */
  lemma OversellsLast(front: seq<Fill>, f: Fill)
    ensures NeverOversells(front + [f]) <==>
      NeverOversells(front) && (f.side == Sell ==> f.size <= Fold(front).qty || Fold(front).qty == 0.0)
  {
    hide Step;
    var fs := front + [f];
    assert forall i :: 0 <= i <= |front| ==> fs[..i] == front[..i];
    assert front[..|front|] == front && fs[|front|] == f;
  }

  lemma PhantomSign(b: Basis, f: Fill)
    requires b.qty >= 0.0 && if b.qty == 0.0 then b.avgCost == 0.0 else b.avgCost > 0.0
    ensures PhantomCost(b, f) >= 0.0
    ensures PhantomCost(b, f) == 0.0 <==> (f.side == Sell ==> f.size <= b.qty || b.qty == 0.0)
  {
    if f.side == Sell && f.size > b.qty && b.qty > 0.0 {
      TimesPositive(b.avgCost, f.size - b.qty);
    }
  }

  lemma {:induction false} PhantomIffOversold(fs: seq<Fill>)
    requires AllWellFormed(fs)
    ensures TotalPhantomCost(fs) >= 0.0
    ensures TotalPhantomCost(fs) == 0.0 <==> NeverOversells(fs)
  {
    hide Times, Over, PhantomCost, Step, NeverOversells;
    if fs != [] {
      var front, f := fs[..|fs| - 1], fs[|fs| - 1];
      assert fs == front + [f];
      PhantomIffOversold(front);
      FoldSound(front);
      PhantomSign(Fold(front), f);
      OversellsLast(front, f);
    } else {
      assert NeverOversells([]) by { NothingOversold(); }
    }
  }

  lemma NothingOversold()
    ensures NeverOversells([])
  {
  }

  /**
   * Profit identity. At any mark, realized plus unrealized profit is the value held plus net sell proceeds less quote
   * spent, exactly when no sell took more than a positive holding.
   */
  lemma ProfitIdentity(fills: seq<Fill>, reserveFloor: real, mark: real)
    requires AllWellFormed(StableSort.Sort(fills, FilledAt))
    ensures var fs := StableSort.Sort(fills, FilledAt); var d := DeriveTreasury(fills, reserveFloor);
      NeverOversells(fs) <==>
      d.realizedPnl + Unrealized(d, mark) == Times(mark, d.totalBase) + SumBy(fs, Proceeds) - SumBy(fs, Outlay)
  {
    hide Times, Over, Fold, Step;
    var fs := StableSort.Sort(fills, FilledAt);
    TimesSub(mark, Fold(fs).avgCost, Fold(fs).qty);
    CostLedger(fs);
    PhantomIffOversold(fs);
  }

  // ── The deduplicated ledger ──────────────────────────────────────────────

  predicate HasFill(ledger: seq<Fill>, id: FillId) {
    exists i :: 0 <= i < |ledger| && ledger[i].fillId == id
  }

  ghost predicate UniqueIds(ledger: seq<Fill>) {
    forall i, j :: 0 <= i < j < |ledger| ==> ledger[i].fillId != ledger[j].fillId
  }

  /** The insertion-ordered map after a batch: first delivery of an id wins. */
  function Ingest(ledger: seq<Fill>, batch: seq<Fill>): seq<Fill>
    decreases |batch|
  {
    if batch == [] then ledger
    else Ingest(if HasFill(ledger, batch[0].fillId) then ledger else ledger + [batch[0]], batch[1..])
  }

  class TreasuryEngine {
    var fills: seq<Fill>
    const reserveFloor: real

    constructor (reserveFloor: real)
      ensures fills == [] && this.reserveFloor == reserveFloor
    {
      fills, this.reserveFloor := [], reserveFloor;
    }

    method IngestBatch(batch: seq<Fill>) returns (changed: bool)
      requires UniqueIds(fills)
      modifies this
      ensures UniqueIds(fills) && fills == Ingest(old(fills), batch)
      ensures changed <==> fills != old(fills)
    {
      changed := false;
      for i := 0 to |batch|
        invariant UniqueIds(fills) && old(fills) <= fills
        invariant changed <==> fills != old(fills)
        invariant Ingest(fills, batch[i..]) == Ingest(old(fills), batch)
      {
        var f := batch[i];
        assert batch[i..][0] == f && batch[i..][1..] == batch[i + 1..];
        if !HasFill(fills, f.fillId) {
          fills := fills + [f];
          changed := true;
        }
      }
    }

    method DeriveNow() returns (d: Derived)
      ensures d == DeriveTreasury(fills, reserveFloor)
    {
      d := Derive(fills, reserveFloor);
    }
  }

  /** Equal ids mean the same fill, and different fills happened at different times. */
  ghost predicate Distinguishable(fs: set<Fill>) {
    forall f, g :: f in fs && g in fs && f != g ==> f.fillId != g.fillId && f.filledAt != g.filledAt
  }

  function Elements(fs: seq<Fill>): set<Fill> {
    set f | f in fs
  }

  lemma {:induction false} IngestCollects(ledger: seq<Fill>, batch: seq<Fill>)
    requires UniqueIds(ledger)
    requires Distinguishable(Elements(ledger) + Elements(batch))
    ensures UniqueIds(Ingest(ledger, batch))
    ensures Elements(Ingest(ledger, batch)) == Elements(ledger) + Elements(batch)
    decreases |batch|
  {
    if batch != [] {
      var f := batch[0];
      assert batch == [f] + batch[1..];
      var next := if HasFill(ledger, f.fillId) then ledger else ledger + [f];
      assert Elements(next) == Elements(ledger) + {f};
      assert Elements(next) + Elements(batch[1..]) == Elements(ledger) + Elements(batch);
      IngestCollects(next, batch[1..]);
    }
  }

  lemma {:induction false} MultisetOfDistinct(fs: seq<Fill>)
    requires forall i, j :: 0 <= i < j < |fs| ==> fs[i] != fs[j]
    ensures multiset(fs) == multiset(Elements(fs))
  {
    if fs != [] {
      MultisetOfDistinct(fs[1..]);
      assert fs == [fs[0]] + fs[1..];
      assert Elements(fs) == {fs[0]} + Elements(fs[1..]);
      assert fs[0] !in Elements(fs[1..]);
    }
  }

  /**
   * Delivery does not matter: the treasury depends only on which fills were delivered, not on order, batching or
   * repetition.
   */
  lemma DeliveryIndependent(d1: seq<Fill>, d2: seq<Fill>, reserveFloor: real)
    requires Elements(d1) == Elements(d2) && Distinguishable(Elements(d1))
    ensures DeriveTreasury(Ingest([], d1), reserveFloor) == DeriveTreasury(Ingest([], d2), reserveFloor)
  {
    hide Times, Over;
    var l1, l2 := Ingest([], d1), Ingest([], d2);
    IngestCollects([], d1);
    IngestCollects([], d2);
    MultisetOfDistinct(l1);
    MultisetOfDistinct(l2);
    var s1, s2 := StableSort.Sort(l1, FilledAt), StableSort.Sort(l2, FilledAt);
    forall i, j | 0 <= i < j < |s1| ensures FilledAt(s1[i]) != FilledAt(s1[j]) {
      SortedDistinct(l1, s1, i, j);
    }
    StableSort.SortedUnique(s1, s2, FilledAt);
  }

  lemma Repeated(s: seq<Fill>, i: nat, j: nat)
    requires i < j < |s| && s[i] == s[j]
    ensures multiset(s)[s[i]] >= 2
  {
    assert s == s[..j] + s[j..];
    assert s[..j][i] == s[i] && s[j..][0] == s[i];
  }

  lemma SortedDistinct(l: seq<Fill>, s: seq<Fill>, i: nat, j: nat)
    requires UniqueIds(l) && Distinguishable(Elements(l)) && multiset(s) == multiset(l) && i < j < |s|
    ensures FilledAt(s[i]) != FilledAt(s[j])
  {
    MultisetOfDistinct(l);
    assert s[i] in multiset(s) && s[j] in multiset(s);
    assert multiset(Elements(l))[s[i]] == 1;
    if s[i] == s[j] {
      Repeated(s, i, j);
    }
  }

  /** Ingesting a batch again, or in two parts, leaves the same ledger. */
  lemma {:induction false} IngestInParts(ledger: seq<Fill>, a: seq<Fill>, b: seq<Fill>)
    ensures Ingest(ledger, a + b) == Ingest(Ingest(ledger, a), b)
    decreases |a|
  {
    if a == [] {
      assert a + b == b;
    } else {
      assert (a + b)[1..] == a[1..] + b;
      IngestInParts(if HasFill(ledger, a[0].fillId) then ledger else ledger + [a[0]], a[1..], b);
    }
  }
}
