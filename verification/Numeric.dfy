/** Options, small arithmetic and finite sums shared by every ledger of the model. */
module Numeric {

  datatype Option<+T> = None | Some(value: T) {
    function GetOr(default: T): T {
      match this
      case Some(v) => v
      case None => default
    }
  }

  function Min(a: real, b: real): real {
    if a <= b then a else b
  }

  function Max(a: real, b: real): real {
    if a >= b then a else b
  }

  function Abs(a: real): real {
    if a < 0.0 then -a else a
  }

  /** One basis point is 1/10000. */
  function Bps(bps: real): real {
    bps / 10_000.0
  }

  /** A product. Lemmas about who holds what hide this definition and see products as plain terms. */
  function Times(a: real, b: real): real { a * b }

  function Over(a: real, b: real): real
    requires b > 0.0
  {
    a / b
  }

  lemma TimesPositive(a: real, b: real)
    requires a > 0.0 && b > 0.0
    ensures Times(a, b) > 0.0
  {
  }

  lemma OverPositive(a: real, b: real)
    requires a > 0.0 && b > 0.0
    ensures Over(a, b) > 0.0
  {
    OverTimes(a, b);
    if Over(a, b) <= 0.0 {
      TimesMono(Over(a, b), 0.0, b);
    }
  }

  lemma TimesMono(a: real, b: real, k: real)
    requires a <= b && 0.0 <= k
    ensures Times(k, a) <= Times(k, b)
  {
  }

  lemma TimesStrict(a: real, b: real, k: real)
    requires a < b && 0.0 < k
    ensures Times(k, a) < Times(k, b)
  {
    TimesPositive(b - a, k);
  }

  lemma OverTimes(a: real, b: real)
    requires b > 0.0
    ensures Times(b, Over(a, b)) == a && Over(Times(b, a), b) == a
  {
  }

  lemma TimesOne(a: real)
    ensures Times(a, 1.0) == a
  {
  }

  lemma TimesSwap(a: real, b: real)
    ensures Times(a, b) == Times(b, a)
  {
  }

  lemma OverNonneg(a: real, b: real)
    requires a >= 0.0 && b > 0.0
    ensures Over(a, b) >= 0.0
  {
    if a > 0.0 {
      OverPositive(a, b);
    }
  }

  lemma TimesAdd(a: real, b: real, k: real)
    ensures Times(a + b, k) == Times(a, k) + Times(b, k)
  {
  }

  const MS_PER_DAY: int := 86_400_000

  /** The UTC day a millisecond timestamp falls on, counted from the epoch. */
  function UtcDay(ms: int): int {
    ms / MS_PER_DAY
  }

  lemma MulMono(a: real, b: real, k: real)
    requires a <= b && 0.0 <= k
    ensures a * k <= b * k
  {
  }

  lemma MulNonneg(a: real, b: real)
    requires 0.0 <= a && 0.0 <= b
    ensures 0.0 <= a * b
  {
  }
}

/** The sum of a real-valued measure over a sequence. */
module Sums {
  import opened Numeric

  function SumBy<T>(s: seq<T>, f: T -> real): real {
    if s == [] then 0.0 else f(s[0]) + SumBy(s[1..], f)
  }

  lemma SumByCons<T>(x: T, s: seq<T>, f: T -> real)
    ensures SumBy([x] + s, f) == f(x) + SumBy(s, f)
  {
    assert ([x] + s)[1..] == s;
  }

  lemma {:induction false} SumByConcat<T>(a: seq<T>, b: seq<T>, f: T -> real)
    ensures SumBy(a + b, f) == SumBy(a, f) + SumBy(b, f)
  {
    if a == [] {
      assert a + b == b;
    } else {
      assert (a + b)[1..] == a[1..] + b;
      SumByConcat(a[1..], b, f);
    }
  }

  lemma SumByAppend<T>(s: seq<T>, x: T, f: T -> real)
    ensures SumBy(s + [x], f) == SumBy(s, f) + f(x)
  {
    SumByConcat(s, [x], f);
    assert SumBy([x], f) == f(x) + SumBy([], f);
  }

  lemma SumByUpdate<T>(s: seq<T>, i: nat, x: T, f: T -> real)
    requires i < |s|
    ensures SumBy(s[i := x], f) == SumBy(s, f) - f(s[i]) + f(x)
  {
    assert s == s[..i] + ([s[i]] + s[i + 1..]);
    assert s[i := x] == s[..i] + ([x] + s[i + 1..]);
    SumByConcat(s[..i], [s[i]] + s[i + 1..], f);
    SumByConcat(s[..i], [x] + s[i + 1..], f);
  }

  lemma {:induction false} SumByNonneg<T>(s: seq<T>, f: T -> real)
    requires forall i :: 0 <= i < |s| ==> f(s[i]) >= 0.0
    ensures SumBy(s, f) >= 0.0
  {
    if s != [] {
      SumByNonneg(s[1..], f);
    }
  }

  /** One element never exceeds a sum of nonnegative ones. */
  lemma {:induction false} SumByElement<T>(s: seq<T>, i: nat, f: T -> real)
    requires i < |s|
    requires forall k :: 0 <= k < |s| ==> f(s[k]) >= 0.0
    ensures f(s[i]) <= SumBy(s, f)
  {
    if i == 0 {
      SumByNonneg(s[1..], f);
    } else {
      SumByElement(s[1..], i - 1, f);
    }
  }

  lemma {:induction false} SumByLe<T>(s: seq<T>, f: T -> real, g: T -> real)
    requires forall i :: 0 <= i < |s| ==> f(s[i]) <= g(s[i])
    ensures SumBy(s, f) <= SumBy(s, g)
  {
    if s != [] {
      SumByLe(s[1..], f, g);
    }
  }

  function Total(w: seq<real>): real {
    if w == [] then 0.0 else w[0] + Total(w[1..])
  }

  lemma {:induction false} SumByMove<T>(a: seq<T>, b: seq<T>, f: T -> real, w: seq<real>)
    requires |a| == |b| == |w|
    requires forall i :: 0 <= i < |a| ==> f(b[i]) == f(a[i]) + w[i]
    ensures SumBy(b, f) == SumBy(a, f) + Total(w)
  {
    if a != [] {
      SumByMove(a[1..], b[1..], f, w[1..]);
    }
  }

  lemma {:induction false} SumBySame<T>(a: seq<T>, b: seq<T>, f: T -> real)
    requires |a| == |b|
    requires forall i :: 0 <= i < |a| ==> f(b[i]) == f(a[i])
    ensures SumBy(b, f) == SumBy(a, f)
  {
    if a != [] {
      SumBySame(a[1..], b[1..], f);
    }
  }

  lemma {:induction false} TotalNonneg(w: seq<real>)
    requires forall i :: 0 <= i < |w| ==> w[i] >= 0.0
    ensures Total(w) >= 0.0
  {
    if w != [] {
      TotalNonneg(w[1..]);
    }
  }

  /** Elements that move by `w[i]` at rate `k` move the sum by the total of `w` at rate `k`. */
  lemma {:induction false} SumByShift<T>(a: seq<T>, b: seq<T>, f: T -> real, w: seq<real>, k: real)
    requires |a| == |b| == |w|
    requires forall i :: 0 <= i < |a| ==> f(b[i]) == f(a[i]) + Times(w[i], k)
    ensures SumBy(b, f) == SumBy(a, f) + Times(Total(w), k)
  {
    if a != [] {
      SumByShift(a[1..], b[1..], f, w[1..], k);
      TimesAdd(w[0], Total(w[1..]), k);
    }
  }

  /** Elements that fall by at least `w[i]` at rate `k` lower the sum by at least the total at that rate. */
  lemma {:induction false} SumByDrop<T>(a: seq<T>, b: seq<T>, f: T -> real, w: seq<real>, k: real)
    requires |a| == |b| == |w|
    requires forall i :: 0 <= i < |a| ==> f(b[i]) <= f(a[i]) - Times(w[i], k)
    ensures SumBy(b, f) <= SumBy(a, f) - Times(Total(w), k)
  {
    if a != [] {
      SumByDrop(a[1..], b[1..], f, w[1..], k);
      TimesAdd(w[0], Total(w[1..]), k);
    }
  }

  lemma RemoveAt<T>(s: seq<T>, k: nat)
    requires k < |s|
    ensures multiset(s[..k] + s[k + 1..]) == multiset(s) - multiset{s[k]}
  {
    assert s == s[..k] + ([s[k]] + s[k + 1..]);
  }

  lemma SumByRemove<T>(s: seq<T>, k: nat, f: T -> real)
    requires k < |s|
    ensures SumBy(s, f) == f(s[k]) + SumBy(s[..k] + s[k + 1..], f)
  {
    assert s == s[..k] + ([s[k]] + s[k + 1..]);
    SumByConcat(s[..k], [s[k]] + s[k + 1..], f);
    SumByConcat(s[..k], s[k + 1..], f);
    SumByCons(s[k], s[k + 1..], f);
  }

  /** A sum does not depend on the order of its terms. */
  lemma {:induction false} SumByPermutation<T>(a: seq<T>, b: seq<T>, f: T -> real)
    requires multiset(a) == multiset(b)
    ensures SumBy(a, f) == SumBy(b, f)
  {
    if a == [] {
      assert |b| == |multiset(b)|;
    } else {
      assert a[0] in multiset(b);
      var k :| 0 <= k < |b| && b[k] == a[0];
      RemoveAt(a, 0);
      RemoveAt(b, k);
      assert a[..0] + a[0 + 1..] == a[1..];
      SumByPermutation(a[1..], b[..k] + b[k + 1..], f);
      SumByRemove(b, k, f);
    }
  }

  lemma {:induction false} SumByEq<T>(s: seq<T>, f: T -> real, g: T -> real)
    requires forall i :: 0 <= i < |s| ==> f(s[i]) == g(s[i])
    ensures SumBy(s, f) == SumBy(s, g)
  {
    if s != [] {
      SumByEq(s[1..], f, g);
    }
  }
}

/** A stable sort by an integer key, as a JavaScript array's `sort` with `(a, b) => key(a) - key(b)`. */
module StableSort {

  predicate SortedBy<T>(s: seq<T>, key: T -> int) {
    forall i, j :: 0 <= i < j < |s| ==> key(s[i]) <= key(s[j])
  }

  function Insert<T>(x: T, s: seq<T>, key: T -> int): (r: seq<T>)
    ensures multiset(r) == multiset(s) + multiset{x}
  {
    if s == [] || key(x) <= key(s[0]) then [x] + s
    else
      assert s == [s[0]] + s[1..];
      [s[0]] + Insert(x, s[1..], key)
  }

  lemma SortedCons<T>(x: T, s: seq<T>, key: T -> int)
    requires SortedBy(s, key) && forall k :: 0 <= k < |s| ==> key(x) <= key(s[k])
    ensures SortedBy([x] + s, key)
  {
  }

  lemma {:induction false} InsertSorts<T>(x: T, s: seq<T>, key: T -> int)
    requires SortedBy(s, key)
    ensures SortedBy(Insert(x, s, key), key)
  {
    if s == [] || key(x) <= key(s[0]) {
      SortedCons(x, s, key);
    } else {
      var rest := Insert(x, s[1..], key);
      InsertSorts(x, s[1..], key);
      forall k | 0 <= k < |rest|
        ensures key(s[0]) <= key(rest[k])
      {
        assert rest[k] in multiset(rest);
      }
      SortedCons(s[0], rest, key);
    }
  }

  function Sort<T>(s: seq<T>, key: T -> int): (r: seq<T>)
    ensures SortedBy(r, key)
    ensures multiset(r) == multiset(s)
  {
    if s == [] then [] else
      assert s == [s[0]] + s[1..];
      InsertSorts(s[0], Sort(s[1..], key), key);
      Insert(s[0], Sort(s[1..], key), key)
  }

  lemma SortKeepsMembers<T>(s: seq<T>, key: T -> int)
    ensures forall x :: x in Sort(s, key) <==> x in s
  {
    assert forall x :: x in Sort(s, key) <==> x in multiset(Sort(s, key));
    assert forall x :: x in s <==> x in multiset(s);
  }

  /** Sorting what is already in order changes nothing: no equal keys are swapped. */
  lemma {:induction false} SortIsIdentity<T>(s: seq<T>, key: T -> int)
    requires SortedBy(s, key)
    ensures Sort(s, key) == s
  {
    if s != [] {
      SortIsIdentity(s[1..], key);
      assert s == [s[0]] + s[1..];
    }
  }

  /** The least element of a sorted arrangement comes first, whatever the arrangement. */
  lemma SortedHead<T>(a: seq<T>, b: seq<T>, key: T -> int)
    requires SortedBy(a, key) && SortedBy(b, key)
    requires multiset(a) == multiset(b) && a != []
    ensures b != [] && key(a[0]) == key(b[0]) && b[0] in a
  {
    assert a[0] in multiset(b);
    assert b[0] in multiset(a);
  }

  lemma TailMultiset<T>(s: seq<T>)
    requires s != []
    ensures multiset(s[1..]) == multiset(s) - multiset{s[0]}
  {
    assert s == [s[0]] + s[1..];
  }

  /** With distinct keys the sorted arrangement of a multiset is unique. */
  lemma {:induction false} SortedUnique<T>(a: seq<T>, b: seq<T>, key: T -> int)
    requires SortedBy(a, key) && SortedBy(b, key)
    requires multiset(a) == multiset(b)
    requires forall i, j :: 0 <= i < j < |a| ==> key(a[i]) != key(a[j])
    ensures a == b
  {
    if a == [] {
      assert |b| == |multiset(b)|;
    } else {
      SortedHead(a, b, key);
      assert a[0] == b[0];
      TailMultiset(a);
      TailMultiset(b);
      SortedUnique(a[1..], b[1..], key);
      assert a == [a[0]] + a[1..];
      assert b == [b[0]] + b[1..];
    }
  }
}
