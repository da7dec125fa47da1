/** The band ladder and its dwell-confirmed migration (backend/src/zone-manager/band-ladder.ts). */
module Bands {
  import opened Numeric

  const ZONE_A_FLOOR_RATIO: real := 0.9
  const ZONE_B_SPAN_RATIO: real := 0.4

  datatype Rung = Rung(level: nat, low: real, high: real)

  datatype ZoneBands = ZoneBands(zoneALow: real, zoneAHigh: real, zoneBHigh: real, zoneCHigh: real)

  function BandsForRung(r: Rung): ZoneBands {
    ZoneBands(r.low * ZONE_A_FLOOR_RATIO, r.low, r.low + (r.high - r.low) * ZONE_B_SPAN_RATIO, r.high)
  }

  function Power(growth: real, k: nat): real {
    if k == 0 then 1.0 else Times(growth, Power(growth, k - 1))
  }

  function SpanAt(baseSpan: real, growth: real, level: nat): real {
    Times(baseSpan, Power(growth, if level >= 2 then level - 2 else 0))
  }

  function LowAt(baseLow: real, baseSpan: real, growth: real, level: nat): real
    requires level >= 1
  {
    if level == 1 then baseLow else LowAt(baseLow, baseSpan, growth, level - 1) + SpanAt(baseSpan, growth, level - 1)
  }

  function RungAt(baseLow: real, baseSpan: real, growth: real, level: nat): Rung
    requires level >= 1
  {
    Rung(level, LowAt(baseLow, baseSpan, growth, level),
      LowAt(baseLow, baseSpan, growth, level) + SpanAt(baseSpan, growth, level))
  }

  /** A ladder is numbered from one, positive, and each rung starts where the one below ends. */
  ghost predicate IsLadder(ladder: seq<Rung>) {
    && ladder != []
    && (forall i :: 0 <= i < |ladder| ==> ladder[i].level == i + 1 && 0.0 < ladder[i].low < ladder[i].high)
    && (forall i :: 0 < i < |ladder| ==> ladder[i].low == ladder[i - 1].high)
  }

  lemma {:induction false} SpanPositive(baseSpan: real, growth: real, level: nat)
    requires baseSpan > 0.0 && growth > 0.0
    ensures SpanAt(baseSpan, growth, level) > 0.0
  {
    hide Times;
    PowerPositive(growth, if level >= 2 then level - 2 else 0);
    TimesPositive(baseSpan, Power(growth, if level >= 2 then level - 2 else 0));
  }

  lemma {:induction false} PowerPositive(growth: real, k: nat)
    requires growth > 0.0
    ensures Power(growth, k) > 0.0
  {
    hide Times;
    if k > 0 {
      PowerPositive(growth, k - 1);
      TimesPositive(growth, Power(growth, k - 1));
    }
  }

  /** The loop of `buildLadder` computes the closed form of every rung. */
  method BuildLadder(baseLow: real, baseHigh: real, rungs: nat, growth: real) returns (ladder: seq<Rung>)
    requires 0.0 < baseLow < baseHigh && growth > 0.0
    ensures |ladder| == (if rungs >= 1 then rungs else 1)
    ensures forall i :: 0 <= i < |ladder| ==> ladder[i] == RungAt(baseLow, baseHigh - baseLow, growth, i + 1)
    ensures IsLadder(ladder)
  {
    hide Times, SpanAt, IsLadder;
    ladder := [];
    var baseSpan := baseHigh - baseLow;
    var low := baseLow;
    var top := if rungs >= 1 then rungs else 1;
    for level := 1 to top + 1
      invariant |ladder| == level - 1
      invariant low == LowAt(baseLow, baseSpan, growth, level)
      invariant forall i :: 0 <= i < |ladder| ==> ladder[i] == RungAt(baseLow, baseSpan, growth, i + 1)
    {
      var span := SpanAt(baseSpan, growth, level);
      ladder := ladder + [Rung(level, low, low + span)];
      low := low + span;
    }
    RungsAreLadder(baseLow, baseHigh, growth, ladder);
  }

  /** The first two rungs share the base span, widening starts at the third. */
  lemma RungsAreLadder(baseLow: real, baseHigh: real, growth: real, ladder: seq<Rung>)
    requires 0.0 < baseLow < baseHigh && growth > 0.0 && ladder != []
    requires forall i :: 0 <= i < |ladder| ==> ladder[i] == RungAt(baseLow, baseHigh - baseLow, growth, i + 1)
    ensures IsLadder(ladder) && ladder[0] == Rung(1, baseLow, baseHigh)
    ensures |ladder| >= 2 ==> ladder[1].high - ladder[1].low == baseHigh - baseLow
    ensures forall i :: 2 <= i < |ladder| ==>
      ladder[i].high - ladder[i].low == Times(ladder[i - 1].high - ladder[i - 1].low, growth)
  {
    var baseSpan := baseHigh - baseLow;
    TimesOne(baseSpan);
    assert SpanAt(baseSpan, growth, 1) == baseSpan == SpanAt(baseSpan, growth, 2);
    hide Times, SpanAt;
    forall i | 0 <= i < |ladder|
      ensures 0.0 < ladder[i].low < ladder[i].high
      ensures i >= 2 ==> ladder[i].high - ladder[i].low == Times(ladder[i - 1].high - ladder[i - 1].low, growth)
    {
      SpanPositive(baseSpan, growth, i + 1);
      LowPositive(baseLow, baseSpan, growth, i + 1);
      if i >= 2 {
        WidensBy(baseSpan, growth, i + 1);
      }
    }
  }

  lemma {:induction false} LowPositive(baseLow: real, baseSpan: real, growth: real, level: nat)
    requires baseLow > 0.0 && baseSpan > 0.0 && growth > 0.0 && level >= 1
    ensures LowAt(baseLow, baseSpan, growth, level) > 0.0
  {
    hide SpanAt;
    if level > 1 {
      LowPositive(baseLow, baseSpan, growth, level - 1);
      SpanPositive(baseSpan, growth, level - 1);
    }
  }

  lemma WidensBy(baseSpan: real, growth: real, level: nat)
    requires level >= 3
    ensures SpanAt(baseSpan, growth, level) == Times(SpanAt(baseSpan, growth, level - 1), growth)
  {
    assert Power(growth, level - 2) == Times(growth, Power(growth, level - 3));
    Regroup(baseSpan, growth, Power(growth, level - 3));
  }

  lemma Regroup(a: real, b: real, c: real)
    ensures Times(a, Times(b, c)) == Times(Times(a, c), b)
  {
  }

  // ── Migration ────────────────────────────────────────────────────────────

  datatype MigrationAction = Hold | Promote | Demote

  datatype MigrationState = MigrationState(level: nat, aboveSince: Option<int>, belowSince: Option<int>)

  const START := MigrationState(1, None, None)

  datatype MigrationDecision = MigrationDecision(action: MigrationAction, state: MigrationState)

  function RungOf(ladder: seq<Rung>, level: nat): Rung
    requires ladder != []
  {
    ladder[(if level < 1 then 1 else if level > |ladder| then |ladder| else level) - 1]
  }

  predicate Above(ladder: seq<Rung>, level: nat, price: real)
    requires ladder != []
  {
    price > RungOf(ladder, level).high
  }

  predicate Below(ladder: seq<Rung>, level: nat, price: real)
    requires ladder != []
  {
    price < BandsForRung(RungOf(ladder, level)).zoneALow
  }

  function EvaluateMigration(price: real, now: int, ladder: seq<Rung>, s: MigrationState,
      dwellMs: int): MigrationDecision
    requires ladder != []
  {
    var rung := RungOf(ladder, s.level);
    var above := Above(ladder, s.level, price);
    var below := Below(ladder, s.level, price);
    var aboveSince := if above then Some(s.aboveSince.GetOr(now)) else None;
    var belowSince := if below then Some(s.belowSince.GetOr(now)) else None;
    if above && now - aboveSince.value >= dwellMs && rung.level < |ladder| then
      MigrationDecision(Promote, MigrationState(rung.level + 1, None, None))
    else if below && now - belowSince.value >= dwellMs && rung.level > 1 then
      MigrationDecision(Demote, MigrationState(rung.level - 1, None, None))
    else MigrationDecision(Hold, MigrationState(s.level, aboveSince, belowSince))
  }

  /** What the zone manager sees at one evaluation: nothing usable, or a price and whether the market is orderly. */
  datatype Reading = NoPrice(at: int) | Priced(at: int, price: real, healthy: bool)

  function Advance(ladder: seq<Rung>, s: MigrationState, r: Reading, dwellMs: int): MigrationDecision
    requires ladder != []
  {
    match r
    case NoPrice(_) => MigrationDecision(Hold, s)
    case Priced(at, price, healthy) =>
      if healthy then EvaluateMigration(price, at, ladder, s, dwellMs)
      else MigrationDecision(Hold, s.(aboveSince := None, belowSince := None))
  }

  /** State before reading `n` of a run. */
  function StateAt(ladder: seq<Rung>, run: seq<Reading>, dwellMs: int, n: nat): MigrationState
    requires ladder != [] && n <= |run|
  {
    if n == 0 then START else Advance(ladder, StateAt(ladder, run, dwellMs, n - 1), run[n - 1], dwellMs).state
  }

  function ActionAt(ladder: seq<Rung>, run: seq<Reading>, dwellMs: int, n: nat): MigrationAction
    requires ladder != [] && n < |run|
  {
    Advance(ladder, StateAt(ladder, run, dwellMs, n), run[n], dwellMs).action
  }

  // ── Whole runs ───────────────────────────────────────────────────────────

  ghost predicate InTimeOrder(run: seq<Reading>) {
    forall i, j :: 0 <= i < j < |run| ==> run[i].at <= run[j].at
  }

  /** Every evaluation from `from` to `to` that had a price was healthy and beyond the rung on the given side. */
  ghost predicate HeldBeyond(ladder: seq<Rung>, run: seq<Reading>, level: nat, up: bool, from: nat, to: nat)
    requires ladder != [] && to < |run|
  {
    forall k :: from <= k <= to && run[k].Priced? ==>
      run[k].healthy && (if up then Above(ladder, level, run[k].price) else Below(ladder, level, run[k].price))
  }

  /**
   * Timer bookkeeping before reading `n`: a running timer started at a reading since the last change and was never
   * broken.
   */
  ghost predicate TimerSound(ladder: seq<Rung>, run: seq<Reading>, dwellMs: int, n: nat, up: bool)
    requires ladder != [] && n <= |run|
  {
    var s := StateAt(ladder, run, dwellMs, n);
    var since := if up then s.aboveSince else s.belowSince;
    since.Some? ==> exists from ::
      && 0 <= from < n && run[from].at == since.value && run[from].Priced?
      && HeldBeyond(ladder, run, s.level, up, from, n - 1)
      && (forall k :: from <= k <= n ==> StateAt(ladder, run, dwellMs, k).level == s.level)
      && (forall k :: from <= k < n ==> ActionAt(ladder, run, dwellMs, k) == Hold)
  }

  lemma {:induction false} LevelInLadder(ladder: seq<Rung>, run: seq<Reading>, dwellMs: int, n: nat)
    requires IsLadder(ladder) && n <= |run|
    ensures 1 <= StateAt(ladder, run, dwellMs, n).level <= |ladder|
  {
    if n > 0 {
      LevelInLadder(ladder, run, dwellMs, n - 1);
    }
  }

  lemma {:induction false} TimersSound(ladder: seq<Rung>, run: seq<Reading>, dwellMs: int, n: nat, up: bool)
    requires IsLadder(ladder) && n <= |run|
    ensures TimerSound(ladder, run, dwellMs, n, up)
  {
    if n > 0 {
      TimersSound(ladder, run, dwellMs, n - 1, up);
      LevelInLadder(ladder, run, dwellMs, n - 1);
      TimerStep(ladder, run, dwellMs, n - 1, up);
    }
  }

  lemma TimerStep(ladder: seq<Rung>, run: seq<Reading>, dwellMs: int, n: nat, up: bool)
    requires IsLadder(ladder) && n < |run| && TimerSound(ladder, run, dwellMs, n, up)
    ensures TimerSound(ladder, run, dwellMs, n + 1, up)
  {
    var s, s' := StateAt(ladder, run, dwellMs, n), StateAt(ladder, run, dwellMs, n + 1);
    var was, since := if up then s.aboveSince else s.belowSince, if up then s'.aboveSince else s'.belowSince;
    if since.Some? {
      assert s'.level == s.level && ActionAt(ladder, run, dwellMs, n) == Hold;
      if was.Some? {
        var from :| 0 <= from < n && run[from].at == was.value && run[from].Priced?
          && HeldBeyond(ladder, run, s.level, up, from, n - 1)
          && (forall k :: from <= k <= n ==> StateAt(ladder, run, dwellMs, k).level == s.level)
          && (forall k :: from <= k < n ==> ActionAt(ladder, run, dwellMs, k) == Hold);
        assert HeldBeyond(ladder, run, s'.level, up, from, n);
      } else {
        assert HeldBeyond(ladder, run, s'.level, up, n, n);
      }
    }
  }

  /**
   * Confirmed migration: a promotion (demotion) at reading `n` ends a span of at least the dwell time, with no change
   * of rung inside it, in which every evaluation that had a price was healthy and above the rung (below its Zone A
   * floor).
   */
  lemma MigrationConfirmed(ladder: seq<Rung>, run: seq<Reading>, dwellMs: int, n: nat) returns (from: nat)
    requires IsLadder(ladder) && n < |run| && ActionAt(ladder, run, dwellMs, n) != Hold
    ensures from <= n && run[n].at - run[from].at >= dwellMs
    ensures var s := StateAt(ladder, run, dwellMs, n); var up := ActionAt(ladder, run, dwellMs, n) == Promote;
      && HeldBeyond(ladder, run, s.level, up, from, n)
      && StateAt(ladder, run, dwellMs, n + 1).level == (if up then s.level + 1 else s.level - 1)
      && (forall k :: from <= k < n ==> ActionAt(ladder, run, dwellMs, k) == Hold)
  {
    var s := StateAt(ladder, run, dwellMs, n);
    var up := ActionAt(ladder, run, dwellMs, n) == Promote;
    var since := if up then s.aboveSince else s.belowSince;
    LevelInLadder(ladder, run, dwellMs, n);
    TimersSound(ladder, run, dwellMs, n, up);
    if since.Some? {
      from :| 0 <= from < n && run[from].at == since.value && run[from].Priced?
        && HeldBeyond(ladder, run, s.level, up, from, n - 1)
        && (forall k :: from <= k <= n ==> StateAt(ladder, run, dwellMs, k).level == s.level)
        && (forall k :: from <= k < n ==> ActionAt(ladder, run, dwellMs, k) == Hold);
    } else {
      from := n;
    }
  }

  /** Two changes of rung are at least the dwell time apart. */
  lemma ChangesAreSpaced(ladder: seq<Rung>, run: seq<Reading>, dwellMs: int, m: nat, n: nat)
    requires IsLadder(ladder) && InTimeOrder(run) && m < n < |run|
    requires ActionAt(ladder, run, dwellMs, m) != Hold && ActionAt(ladder, run, dwellMs, n) != Hold
    ensures run[n].at - run[m].at >= dwellMs
  {
    var from := MigrationConfirmed(ladder, run, dwellMs, n);
    assert from > m;
  }

  /** Hysteresis: adjacent rungs share an edge, and no price both promotes a rung and demotes the next one. */
  lemma NoPriceFlaps(ladder: seq<Rung>, level: nat, price: real)
    requires IsLadder(ladder) && 1 <= level < |ladder|
    ensures RungOf(ladder, level).high == RungOf(ladder, level + 1).low
    ensures !(Above(ladder, level, price) && Below(ladder, level + 1, price))
  {
    var edge := RungOf(ladder, level + 1).low;
    assert edge * ZONE_A_FLOOR_RATIO < edge;
  }

  /** Levels stay in the ladder and move one rung at a time. */
  lemma LevelsMoveByOne(ladder: seq<Rung>, run: seq<Reading>, dwellMs: int, n: nat)
    requires IsLadder(ladder) && n < |run|
    ensures var before, after := StateAt(ladder, run, dwellMs, n).level, StateAt(ladder, run, dwellMs, n + 1).level;
      && 1 <= after <= |ladder|
      && after == match ActionAt(ladder, run, dwellMs, n)
                  case Hold => before
                  case Promote => before + 1
                  case Demote => before - 1
  {
    LevelInLadder(ladder, run, dwellMs, n);
    LevelInLadder(ladder, run, dwellMs, n + 1);
  }
}
