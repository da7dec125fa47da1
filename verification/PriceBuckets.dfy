/**
 * Geometric price buckets (backend/src/paper-soak/cycle-tracker.ts, `priceBucketId`), by powers instead of logarithms.
 */
module PriceBuckets {
  import opened Numeric

  /** base^k for any integer k. */
  function Pow(base: real, k: int): (r: real)
    requires base > 0.0
    ensures r > 0.0
    decreases if k < 0 then -k else k
  {
    if k == 0 then 1.0
    else if k > 0 then TimesPositive(base, Pow(base, k - 1)); Times(base, Pow(base, k - 1))
    else OverPositive(Pow(base, k + 1), base); Over(Pow(base, k + 1), base)
  }

  lemma PowStep(base: real, k: int)
    requires base > 0.0
    ensures Pow(base, k + 1) == Times(base, Pow(base, k))
  {
    hide Times, Over;
    if k < 0 {
      OverTimes(Pow(base, k + 1), base);
    }
  }

  lemma Grow(p: real, base: real)
    requires p > 0.0 && base > 1.0
    ensures p <= Times(base, p)
  {
    MulMono(1.0, base, p);
  }

  lemma {:induction false} PowGrows(base: real, j: int, k: int)
    requires base > 1.0 && j <= k
    ensures Pow(base, j) <= Pow(base, k)
    decreases k - j
  {
    hide Times, Over;
    if j < k {
      PowGrows(base, j, k - 1);
      PowStep(base, k - 1);
      Grow(Pow(base, k - 1), base);
    }
  }

  function Width(bps: real): real {
    1.0 + Bps(bps)
  }

  /** Bucket `k` holds the prices from width^k up to, not including, width^(k+1). */
  predicate InBucket(price: real, bps: real, k: int)
    requires bps > 0.0
  {
    Pow(Width(bps), k) <= price < Pow(Width(bps), k + 1)
  }

  /** A bound on how often `price` can be divided by `base` before it falls below it. */
  function Steps(price: real, base: real): (n: nat)
    requires base > 1.0
  {
    if price < 1.0 then 0 else
      OverNonneg(price - 1.0, base - 1.0);
      Over(price - 1.0, base - 1.0).Floor
  }

  lemma StepsFall(price: real, base: real)
    requires base > 1.0 && price >= base
    ensures Over(price, base) >= 1.0
    ensures Steps(Over(price, base), base) < Steps(price, base)
  {
    var q := Over(price, base);
    assert q >= 1.0 by {
      hide Times, Over;
      OverTimes(price, base);
      TimesOne(base);
      if q < 1.0 {
        TimesStrict(q, 1.0, base);
      }
    }
    assert price == Times(base, q) by {
      OverTimes(price, base);
    }
    StepsApart(q, price, base);
  }

  lemma StepsApart(q: real, price: real, base: real)
    requires base > 1.0 && q >= 1.0 && price == Times(base, q)
    ensures Over(price - 1.0, base - 1.0) >= Over(q - 1.0, base - 1.0) + 1.0
  {
    var d := base - 1.0;
    assert price - 1.0 == (q - 1.0) + q * d;
    assert (price - 1.0) / d == (q - 1.0) / d + q;
  }

  /** The bucket of a price of at least one. */
  function BucketAbove(price: real, base: real): (k: int)
    requires price >= 1.0 && base > 1.0
    ensures Pow(base, k) <= price < Pow(base, k + 1)
    decreases Steps(price, base)
  {
    if price < base then
      PowStep(base, 0);
      TimesOne(base);
      0
    else
      StepsFall(price, base);
      var k := BucketAbove(Over(price, base), base) + 1;
      ScaleBucket(price, base, k);
      k
  }

  lemma ScaleBucket(price: real, base: real, k: int)
    requires base > 1.0
    requires Pow(base, k - 1) <= Over(price, base) < Pow(base, k)
    ensures Pow(base, k) <= price < Pow(base, k + 1)
  {
    hide Times, Over;
    PowStep(base, k - 1);
    PowStep(base, k);
    OverTimes(price, base);
    TimesMono(Pow(base, k - 1), Over(price, base), base);
    TimesStrict(Over(price, base), Pow(base, k), base);
  }

  /** The bucket of a price below one, reached by growing the price until it is at least one. */
  function BucketBelow(price: real, base: real): (k: int)
    requires 0.0 < price < 1.0 && base > 1.0
    ensures Pow(base, k) <= price < Pow(base, k + 1)
    decreases Steps(Over(1.0, price), base)
  {
    TimesPositive(base, price);
    InverseAbove(price);
    if Times(base, price) >= 1.0 then
      LastBucket(price, base);
      -1
    else
      GrowFalls(price, base);
      var k := BucketBelow(Times(base, price), base) - 1;
      UnscaleBucket(price, base, k);
      k
  }

  lemma LastBucket(price: real, base: real)
    requires 0.0 < price < 1.0 && base > 1.0 && Times(base, price) >= 1.0
    ensures Pow(base, -1) <= price < Pow(base, 0)
  {
    hide Times, Over;
    PowStep(base, -1);
    if price < Pow(base, -1) {
      TimesStrict(price, Pow(base, -1), base);
    }
  }

  lemma InverseAbove(price: real)
    requires 0.0 < price < 1.0
    ensures Over(1.0, price) > 1.0
  {
    hide Times, Over;
    OverTimes(1.0, price);
    if Over(1.0, price) <= 1.0 {
      TimesMono(Over(1.0, price), 1.0, price);
      TimesOne(price);
    }
  }

  lemma GrowFalls(price: real, base: real)
    requires 0.0 < price < 1.0 && base > 1.0 && 0.0 < Times(base, price) < 1.0
    ensures Over(1.0, Times(base, price)) >= 1.0 && Over(1.0, price) >= 1.0
    ensures Steps(Over(1.0, Times(base, price)), base) < Steps(Over(1.0, price), base)
  {
    var x := Over(1.0, price);
    assert x >= base && x >= 1.0 && Over(1.0, Times(base, price)) == Over(x, base) by {
      hide Times, Over;
      OverTimes(1.0, price);
      TimesSwap(base, price);
      if x < base {
        TimesStrict(x, base, price);
      }
      InverseOfProduct(price, base);
    }
    StepsFall(x, base);
  }

  lemma InverseOfProduct(a: real, b: real)
    requires a > 0.0 && b > 0.0 && Times(b, a) > 0.0
    ensures Over(1.0, Times(b, a)) == Over(Over(1.0, a), b)
  {
    var y := Over(Over(1.0, a), b);
    assert b * y == Over(1.0, a) && a * Over(1.0, a) == 1.0;
    assert (b * a) * y == a * (b * y);
    assert (b * a) * y == 1.0;
  }

  lemma UnscaleBucket(price: real, base: real, k: int)
    requires base > 1.0
    requires Pow(base, k + 1) <= Times(base, price) < Pow(base, k + 2)
    ensures Pow(base, k) <= price < Pow(base, k + 1)
  {
    hide Times, Over;
    PowStep(base, k);
    PowStep(base, k + 1);
    if price < Pow(base, k) {
      TimesStrict(price, Pow(base, k), base);
    }
    if Pow(base, k + 1) <= price {
      TimesMono(Pow(base, k + 1), price, base);
    }
  }

  /** The bucket id of a price. */
  function PriceBucketId(price: real, bps: real): (k: int)
    requires price > 0.0 && bps > 0.0
    ensures InBucket(price, bps, k)
  {
    if price >= 1.0 then BucketAbove(price, Width(bps)) else BucketBelow(price, Width(bps))
  }

  /** Buckets do not overlap, so the id is the only bucket of a price. */
  lemma BucketUnique(price: real, bps: real, k: int)
    requires bps > 0.0 && price > 0.0 && InBucket(price, bps, k)
    ensures k == PriceBucketId(price, bps)
  {
    var j := PriceBucketId(price, bps);
    if j < k {
      PowGrows(Width(bps), j + 1, k);
    } else if k < j {
      PowGrows(Width(bps), k + 1, j);
    }
  }

  /** Two prices at least one width apart never share a bucket: the higher price has the higher id. */
  lemma SpacedPricesSplit(low: real, high: real, bps: real)
    requires bps > 0.0 && low > 0.0 && high >= Times(Width(bps), low)
    ensures high > 0.0
    ensures PriceBucketId(low, bps) < PriceBucketId(high, bps)
  {
    hide Times, Over;
    var w := Width(bps);
    TimesPositive(w, low);
    var j, k := PriceBucketId(low, bps), PriceBucketId(high, bps);
    PowStep(w, j);
    TimesMono(Pow(w, j), low, w);
    if k <= j {
      PowGrows(w, k + 1, j + 1);
    }
  }
}
