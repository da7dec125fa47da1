/**
 * The reserve over whole runs of the desk (backend/src/paper-soak/index.ts:138-154, virtual-account.ts:48-80): a ladder
 * releases a reload of reserve with every promotion and protects one again with every demotion, while the desk trades.
 */
module BandRuns {
  import opened Numeric
  import opened PaperAccount
  import opened Soaks
  import opened Desks
  import opened DeskSteps
  import opened Settlement
  import opened DeskRuns
  import opened FillTraces
  import opened Bands
  import opened Zones
  import opened Drivers
  import opened DriverTheorems
  import opened DriverRuns
  import Lots = AccumulationLots

  // ── The reserve is sound after every run ─────────────────────────────────

  /** No more is released than there is, and surplus is never negative. */
  predicate ReserveOk(a: Account, cfg: AccountCfg) {
    ReserveSound(a, cfg) && a.protectedSurplus >= 0.0
  }

  /** A fill leaves released reserve alone and takes nothing from the surplus. */
  predicate SameReserve(a: Account, a': Account) {
    a'.reserveReleased == a.reserveReleased && a'.protectedSurplus >= a.protectedSurplus
  }

  lemma BookedKeepsReserve(f: Filling, cfg: SoakCfg)
    requires CfgOk(cfg)
    ensures SameReserve(f.soak.account, Booked(f, cfg).soak.account)
  {
    hide Times, Over, RouteFill, FillProblem, InvalidSurplus, Lots.SurplusZig, CyclesAfter, TradeOf;
  }

  lemma {:induction false} FillsKeepReserve(s: Soak, cfg: SoakCfg, fs: seq<Filling>, s': Soak, threw: bool)
    requires CfgOk(cfg) && Leads(s, cfg, fs, s', threw)
    ensures SameReserve(s.account, s'.account)
    decreases |fs|
  {
    hide Booked;
    if fs != [] {
      BookedKeepsReserve(fs[0], cfg);
      if !Booked(fs[0], cfg).threw {
        FillsKeepReserve(Booked(fs[0], cfg).soak, cfg, fs[1..], s', threw);
      }
    }
  }

  lemma StepReserve(d: Desk, cfg: SoakCfg, s: Step)
    requires CfgOk(cfg) && ReserveOk(d.soak.account, cfg.account)
    ensures ReserveOk(Take(d, cfg, s).soak.account, cfg.account)
    ensures !s.ReleaseBand? && !s.ReprotectBand? ==> SameReserve(d.soak.account, Take(d, cfg, s).soak.account)
  {
    hide Leads, Fillings, Submit, EngineTick, Cancel, Emit, FromExchange, Resynced, ReleaseReserve, ReprotectReserve;
    match s {
      case ReleaseBand(_, qty) =>
        ReserveStaysSound(d.soak.account, cfg.account, qty);
        BandsKeepSurplus(d.soak.account, cfg.account, qty);
      case ReprotectBand(_, qty) =>
        ReserveStaysSound(d.soak.account, cfg.account, qty);
        BandsKeepSurplus(d.soak.account, cfg.account, qty);
      case _ =>
        var threw := FillingsLead(d, cfg, s);
        FillsKeepReserve(d.soak, cfg, Fillings(d, cfg, s), Take(d, cfg, s).soak, threw);
    }
  }

  lemma BandsKeepSurplus(a: Account, cfg: AccountCfg, qty: real)
    ensures ReleaseReserve(a, cfg, qty) == a.(reserveReleased := ReleaseReserve(a, cfg, qty).reserveReleased)
    ensures ReprotectReserve(a, cfg, qty) == a.(reserveReleased := ReprotectReserve(a, cfg, qty).reserveReleased)
  {
  }

  lemma {:induction false} RunReserve(cfg: SoakCfg, entryCost: real, start: int, steps: seq<Step>)
    requires CfgOk(cfg)
    ensures ReserveOk(After(cfg, entryCost, start, steps).soak.account, cfg.account)
  {
    hide Take, CfgOk, ReserveOk;
    if steps == [] {
      StartReserve(cfg, entryCost, start);
    } else {
      var front := steps[..|steps| - 1];
      RunReserve(cfg, entryCost, start, front);
      StepReserve(After(cfg, entryCost, start, front), cfg, steps[|steps| - 1]);
    }
  }

  lemma StartReserve(cfg: SoakCfg, entryCost: real, start: int)
    requires CfgOk(cfg)
    ensures ReserveOk(NewDesk(cfg, entryCost, start).soak.account, cfg.account)
  {
  }

  // ── What is out, and what the pool can give back ─────────────────────────

  /** While reserve is out the active pool holds all of it exactly when the balance covers floor and surplus. */
  lemma PoolHoldsReserve(a: Account, cfg: AccountCfg)
    requires ReserveOk(a, cfg) && a.reserveReleased > 0.0
    ensures ActiveZig(a, cfg) >= a.reserveReleased <==> a.zig >= cfg.reserveFloor + a.protectedSurplus
  {
  }

  /**
   * After any run one more demotion leaves nothing out exactly when a reload is enough and the balance covers all that
   * is protected then.
   */
  lemma AllGoesBack(cfg: SoakCfg, entryCost: real, start: int, steps: seq<Step>, at: int, reloadZig: real)
    requires CfgOk(cfg) && reloadZig >= 0.0
    requires After(cfg, entryCost, start, steps).soak.account.reserveReleased > 0.0
    ensures var a := After(cfg, entryCost, start, steps).soak.account;
      var a' := After(cfg, entryCost, start, steps + [ReprotectBand(at, reloadZig)]).soak.account;
      var allCovered := a.reserveReleased <= reloadZig && a.zig >= cfg.account.reserveFloor + a.protectedSurplus;
      a'.reserveReleased == 0.0 <==> allCovered
  {
    hide CfgOk, NewDesk;
    var more := steps + [ReprotectBand(at, reloadZig)];
    assert more[..|more| - 1] == steps;
    RunReserve(cfg, entryCost, start, steps);
    hide Run;
  }

  /** ZIG that the soak was started short of its floor. */
  function Shortfall(cfg: SoakCfg): real { Max(cfg.account.reserveFloor - cfg.account.startZig, 0.0) }

  /**
   * After any run the active pool holds the released reserve but for the surplus earned meanwhile, what the soak was
   * started short of, and 1e-9: no run sells reserve that was released, though a later surplus may take its place.
   */
  lemma PoolHoldsMost(cfg: SoakCfg, entryCost: real, start: int, steps: seq<Step>, top: real)
    requires ProperRun(cfg, start, steps, top)
    ensures var a := After(cfg, entryCost, start, steps).soak.account;
      && 0.0 <= a.reserveReleased <= cfg.account.reserveFloor + a.protectedSurplus && a.protectedSurplus >= 0.0
      && a.zig >= cfg.account.reserveFloor - Shortfall(cfg) - 1e-9
      && ActiveZig(a, cfg.account) >= a.reserveReleased - a.protectedSurplus - Shortfall(cfg) - 1e-9
  {
    hide After, ProperRun, OpenSells, OpenBuys, WithFee;
    SettlementSafety(cfg, entryCost, start, steps, top);
    assert CfgOk(cfg) by { ProperIsOk(cfg, start, steps, top); }
    RunReserve(cfg, entryCost, start, steps);
  }

  lemma ProperIsOk(cfg: SoakCfg, start: int, steps: seq<Step>, top: real)
    requires ProperRun(cfg, start, steps, top)
    ensures CfgOk(cfg)
  {
  }

  // ── A ladder over a run ──────────────────────────────────────────────────

  function MoveOf(s: Step): MigrationAction {
    match s
    case ReleaseBand(_, _) => Promote
    case ReprotectBand(_, _) => Demote
    case _ => Hold
  }

  function MovesOf(steps: seq<Step>): (r: seq<MigrationAction>)
    ensures |r| == |steps|
  {
    seq(|steps|, (i: int) requires 0 <= i < |steps| => MoveOf(steps[i]))
  }

  /** The rung that a sequence of moves leads to, from the first. */
  function RungAfter(moves: seq<MigrationAction>): int {
    if moves == [] then 1
    else RungAfter(moves[..|moves| - 1]) + match moves[|moves| - 1] case Hold => 0 case Promote => 1 case Demote => -1
  }

  function Changes(moves: seq<MigrationAction>): seq<MigrationAction> {
    if moves == [] then []
    else Changes(moves[..|moves| - 1]) + (if moves[|moves| - 1] == Hold then [] else [moves[|moves| - 1]])
  }

  /** What a ladder does over the first `n` readings. */
  function LadderMoves(z: Setup, run: seq<Reading>, n: nat): (r: seq<MigrationAction>)
    requires z.rungs != [] && n <= |run|
    ensures |r| == n
  {
    if n == 0 then [] else LadderMoves(z, run, n - 1) + [ActionAt(z.rungs, run, z.dwellMs, n - 1)]
  }

  /** Moves that never leave the ladder downwards. */
  ghost predicate Climbs(moves: seq<MigrationAction>) {
    forall k :: 0 <= k <= |moves| ==> RungAfter(moves[..k]) >= 1
  }

  lemma LastMove(moves: seq<MigrationAction>, last: MigrationAction)
    ensures RungAfter(moves + [last]) ==
      RungAfter(moves) + match last case Hold => 0 case Promote => 1 case Demote => -1
  {
    assert (moves + [last])[..|moves|] == moves;
  }

  lemma {:induction false} ChangesLead(moves: seq<MigrationAction>)
    ensures RungAfter(Changes(moves)) == RungAfter(moves)
  {
    if moves != [] {
      var front, last := moves[..|moves| - 1], moves[|moves| - 1];
      ChangesLead(front);
      if last == Hold {
        assert Changes(moves) == Changes(front);
      } else {
        LastMove(Changes(front), last);
        LastMove(front, last);
        assert moves == front + [last];
      }
    }
  }

  lemma {:induction false} LadderLeads(z: Setup, run: seq<Reading>, n: nat)
    requires IsLadder(z.rungs) && n <= |run|
    ensures RungAfter(LadderMoves(z, run, n)) == StateAt(z.rungs, run, z.dwellMs, n).level >= 1
  {
    hide ActionAt, StateAt, IsLadder;
    LevelInLadder(z.rungs, run, z.dwellMs, n);
    if n == 0 {
      assert StateAt(z.rungs, run, z.dwellMs, 0) == START by { FirstState(z, run); }
    } else {
      LadderLeads(z, run, n - 1);
      LevelsMoveByOne(z.rungs, run, z.dwellMs, n - 1);
      assert LadderMoves(z, run, n)[..n - 1] == LadderMoves(z, run, n - 1);
    }
  }

  lemma FirstState(z: Setup, run: seq<Reading>)
    requires z.rungs != []
    ensures StateAt(z.rungs, run, z.dwellMs, 0) == START
  {
  }

  lemma {:induction false} ChangesOfPrefix(moves: seq<MigrationAction>, k: nat)
    requires k <= |moves|
    ensures Changes(moves[..k]) <= Changes(moves)
  {
    if k == |moves| {
      assert moves[..k] == moves;
    } else {
      assert moves[..|moves| - 1][..k] == moves[..k];
      ChangesOfPrefix(moves[..|moves| - 1], k);
    }
  }

  lemma {:induction false} PrefixOfChanges(moves: seq<MigrationAction>, p: seq<MigrationAction>) returns (m: nat)
    requires p <= Changes(moves)
    ensures m <= |moves| && Changes(moves[..m]) == p
  {
    if p == Changes(moves) {
      m := |moves|;
      assert moves[..m] == moves;
    } else {
      var front := moves[..|moves| - 1];
      m := PrefixOfChanges(front, p);
      assert front[..m] == moves[..m];
    }
  }

  lemma {:induction false} LadderPrefix(z: Setup, run: seq<Reading>, n: nat, m: nat)
    requires z.rungs != [] && m <= n <= |run|
    ensures LadderMoves(z, run, n)[..m] == LadderMoves(z, run, m)
  {
    hide ActionAt;
    if m < n {
      LadderPrefix(z, run, n - 1, m);
    }
  }

  /** Moves that change as a ladder does lead to its rung and never leave it downwards. */
  lemma FollowsLadder(z: Setup, run: seq<Reading>, n: nat, moves: seq<MigrationAction>)
    requires IsLadder(z.rungs) && n <= |run| && Changes(moves) == Changes(LadderMoves(z, run, n))
    ensures Climbs(moves) && RungAfter(moves) == StateAt(z.rungs, run, z.dwellMs, n).level
  {
    hide ActionAt, StateAt, Changes, RungAfter;
    var ladder := LadderMoves(z, run, n);
    LadderLeads(z, run, n);
    ChangesLead(moves);
    ChangesLead(ladder);
    forall k | 0 <= k <= |moves|
      ensures RungAfter(moves[..k]) >= 1
    {
      ChangesOfPrefix(moves, k);
      var m := PrefixOfChanges(ladder, Changes(moves[..k]));
      LadderPrefix(z, run, n, m);
      LadderLeads(z, run, m);
      ChangesLead(moves[..k]);
      ChangesLead(ladder[..m]);
    }
  }

  /** One reload for each rung above the first. */
  function Reloads(reloadZig: real, level: int): real { Times(reloadZig, level as real - 1.0) }

  lemma ReloadsAdd(reloadZig: real, level: int)
    requires level >= 1 && reloadZig >= 0.0
    ensures Reloads(reloadZig, level + 1) == Reloads(reloadZig, level) + reloadZig
    ensures Reloads(reloadZig, level) >= 0.0 && Reloads(reloadZig, 1) == 0.0
  {
    MulNonneg(reloadZig, level as real - 1.0);
  }

  function OutAtMost(reloadZig: real, cfg: SoakCfg, a: Account, level: int): real {
    Reloads(reloadZig, level) + a.protectedSurplus + Shortfall(cfg) + 1e-9
  }

  lemma Promotes(reloadZig: real, cfg: SoakCfg, a: Account, level: int)
    requires level >= 1 && reloadZig >= 0.0 && a.reserveReleased <= OutAtMost(reloadZig, cfg, a, level)
    ensures var a' := ReleaseReserve(a, cfg.account, reloadZig);
      a'.reserveReleased <= OutAtMost(reloadZig, cfg, a', level + 1)
  {
    ReloadsAdd(reloadZig, level);
    hide Reloads;
  }

  /** What a demotion cannot give back is bounded by the surplus that took its place, whatever was out before. */
  lemma Demotes(reloadZig: real, cfg: SoakCfg, a: Account, level: int)
    requires level >= 1 && reloadZig >= 0.0 && a.reserveReleased <= OutAtMost(reloadZig, cfg, a, level + 1)
    requires ReserveOk(a, cfg.account) && a.zig >= cfg.account.reserveFloor - Shortfall(cfg) - 1e-9
    ensures var a' := ReprotectReserve(a, cfg.account, reloadZig);
      a'.reserveReleased <= OutAtMost(reloadZig, cfg, a', level)
  {
    ReloadsAdd(reloadZig, level);
    hide Reloads;
  }

  /** Every band step moves one reload. */
  ghost predicate Reloading(steps: seq<Step>, reloadZig: real) {
    forall k :: 0 <= k < |steps| ==>
      (steps[k].ReleaseBand? || steps[k].ReprotectBand? ==> steps[k].qty == reloadZig)
  }

  lemma StartsWhole(cfg: SoakCfg, entryCost: real, start: int)
    requires CfgOk(cfg)
    ensures After(cfg, entryCost, start, []).soak.account.reserveReleased == 0.0
    ensures After(cfg, entryCost, start, []).soak.account.protectedSurplus == 0.0 && Shortfall(cfg) >= 0.0
  {
    hide CfgOk;
  }

  lemma FrontIsProper(cfg: SoakCfg, start: int, steps: seq<Step>, top: real)
    requires ProperRun(cfg, start, steps, top) && steps != []
    ensures ProperRun(cfg, start, steps[..|steps| - 1], top)
  {
    hide CfgOk, PriceWithin;
  }

  lemma FrontClimbs(moves: seq<MigrationAction>)
    requires Climbs(moves) && moves != []
    ensures var front := moves[..|moves| - 1];
      Climbs(front) && RungAfter(front) >= 1 && RungAfter(moves) >= 1
  {
    hide RungAfter;
    var front := moves[..|moves| - 1];
    assert moves[..|moves|] == moves;
    assert forall k :: 0 <= k <= |front| ==> front[..k] == moves[..k];
    assert front[..|front|] == front;
  }

  /** The account before the last step, and what a band step makes of it. */
  lemma LastStep(cfg: SoakCfg, entryCost: real, start: int, steps: seq<Step>)
    requires CfgOk(cfg) && steps != []
    ensures var a := After(cfg, entryCost, start, steps[..|steps| - 1]).soak.account;
      var s := steps[|steps| - 1]; var a' := After(cfg, entryCost, start, steps).soak.account;
      && ReserveOk(a, cfg.account)
      && (s.ReleaseBand? ==> a' == ReleaseReserve(a, cfg.account, s.qty))
      && (s.ReprotectBand? ==> a' == ReprotectReserve(a, cfg.account, s.qty))
      && (!s.ReleaseBand? && !s.ReprotectBand? ==> SameReserve(a, a'))
  {
    hide CfgOk, ReleaseReserve, ReprotectReserve, ReserveOk, SameReserve, Submit, EngineTick, Cancel, Emit,
      FromExchange, Resynced, NewDesk;
    var front := steps[..|steps| - 1];
    RunReserve(cfg, entryCost, start, front);
    StepReserve(After(cfg, entryCost, start, front), cfg, steps[|steps| - 1]);
  }

  lemma {:induction false} OutIsBounded(cfg: SoakCfg, entryCost: real, start: int, steps: seq<Step>, top: real,
      reloadZig: real)
    requires ProperRun(cfg, start, steps, top) && reloadZig >= 0.0 && Reloading(steps, reloadZig)
      && Climbs(MovesOf(steps))
    ensures var a := After(cfg, entryCost, start, steps).soak.account;
      a.reserveReleased <= OutAtMost(reloadZig, cfg, a, RungAfter(MovesOf(steps)))
  {
    hide ReleaseReserve, ReprotectReserve, CfgOk, ReserveOk, NewDesk, ProperRun, After, Shortfall, Reloads, Climbs;
    assert CfgOk(cfg) by { ProperIsOk(cfg, start, steps, top); }
    if steps == [] {
      StartsWhole(cfg, entryCost, start);
      ReloadsAdd(reloadZig, 1);
    } else {
      var front, moves := steps[..|steps| - 1], MovesOf(steps);
      assert moves[..|moves| - 1] == MovesOf(front);
      FrontClimbs(moves);
      FrontIsProper(cfg, start, steps, top);
      OutIsBounded(cfg, entryCost, start, front, top, reloadZig);
      LastStep(cfg, entryCost, start, steps);
      PoolHoldsMost(cfg, entryCost, start, front, top);
      var a, level := After(cfg, entryCost, start, front).soak.account, RungAfter(MovesOf(front));
      if steps[|steps| - 1].ReleaseBand? {
        Promotes(reloadZig, cfg, a, level);
      } else if steps[|steps| - 1].ReprotectBand? {
        Demotes(reloadZig, cfg, a, level - 1);
      }
    }
  }

  /**
   * A spike never strips the reserve for good. Over every run of a trading desk whose bands a ladder moves, no more is
   * out than one reload per rung above the first, the surplus earned meanwhile, what the soak was started short of and
   * 1e-9.
   */
  lemma SpikesGiveBack(z: Setup, run: seq<Reading>, n: nat, cfg: SoakCfg, entryCost: real, start: int, steps: seq<Step>,
      top: real)
    requires IsLadder(z.rungs) && z.reloadZig >= 0.0 && n <= |run|
    requires ProperRun(cfg, start, steps, top) && Reloading(steps, z.reloadZig)
    requires Changes(MovesOf(steps)) == Changes(LadderMoves(z, run, n))
    ensures var a := After(cfg, entryCost, start, steps).soak.account;
      var level := StateAt(z.rungs, run, z.dwellMs, n).level;
      && 1 <= level <= |z.rungs|
      && 0.0 <= a.reserveReleased <= Reloads(z.reloadZig, level) + a.protectedSurplus + Shortfall(cfg) + 1e-9
  {
    hide ActionAt, StateAt, Reloads, Shortfall, Changes, RungAfter, Climbs, IsLadder, ProperRun, After, CfgOk;
    LevelInLadder(z.rungs, run, z.dwellMs, n);
    FollowsLadder(z, run, n, MovesOf(steps));
    OutIsBounded(cfg, entryCost, start, steps, top, z.reloadZig);
    PoolHoldsMost(cfg, entryCost, start, steps, top);
  }

  // ── A ladder over a driver run ───────────────────────────────────────────

  function DriverMoveOf(s: DriverStep): MigrationAction {
    match s
    case BandReleases(_, _) => Promote
    case BandReprotects(_, _) => Demote
    case _ => Hold
  }

  function DriverMovesOf(steps: seq<DriverStep>): (r: seq<MigrationAction>)
    ensures |r| == |steps|
  {
    seq(|steps|, (i: int) requires 0 <= i < |steps| => DriverMoveOf(steps[i]))
  }

  ghost predicate DriverReloading(steps: seq<DriverStep>, reloadZig: real) {
    forall k :: 0 <= k < |steps| ==>
      (steps[k].BandReleases? || steps[k].BandReprotects? ==> steps[k].qty == reloadZig)
  }

  /** Ticks, market updates and cancels leave released reserve alone. */
  lemma DriveKeepsReleased(t: Trader, cfg: SoakCfg, s: DriverStep)
    requires CfgOk(cfg) && !s.BandReleases? && !s.BandReprotects?
    ensures SameReserve(t.desk.soak.account, Drive(t, cfg, s).desk.soak.account)
  {
    hide DriverTick, EngineTick, Cancel, Leads, TickFillings, OnUpdate, CfgOk;
    match s {
      case TimerFires(env) =>
        var asked, threw := TickLeads(t, cfg, env);
        FillsKeepReserve(asked, cfg, TickFillings(t, cfg, env), Drive(t, cfg, s).desk.soak, threw);
      case MarketMoves(env) =>
        var threw := FillingsLead(t.desk, cfg, MarketUpdate(env));
        FillsKeepReserve(t.desk.soak, cfg, Fillings(t.desk, cfg, MarketUpdate(env)), Drive(t, cfg, s).desk.soak, threw);
      case OperatorCancels(env, id) => CancelLeavesSoak(t.desk, env, id);
    }
  }

  lemma {:induction false} DriverOutIsBounded(cfg: SoakCfg, entryCost: real, start: int, steps: seq<DriverStep>,
      reloadZig: real)
    requires FromStart(cfg, entryCost, start, steps) && cfg.account.startZig >= cfg.account.reserveFloor
    requires reloadZig >= 0.0 && DriverReloading(steps, reloadZig) && Climbs(DriverMovesOf(steps))
    ensures Reached(cfg, entryCost, start, steps).desk.soak.account.reserveReleased
      <= Reloads(reloadZig, RungAfter(DriverMovesOf(steps)))
  {
    hide CfgOk, NewDesk, Reloads, Climbs, Drive;
    if steps == [] {
      assert NewDesk(cfg, entryCost, start).soak.account.reserveReleased ==
        0.0 by { NewDeskWhole(cfg, entryCost, start); }
      ReloadsAdd(reloadZig, 1);
    } else {
      var front, moves, s := steps[..|steps| - 1], DriverMovesOf(steps), steps[|steps| - 1];
      assert moves[..|moves| - 1] == DriverMovesOf(front);
      FrontClimbs(moves);
      DriverOutIsBounded(cfg, entryCost, start, front, reloadZig);
      DriverLastStep(Reached(cfg, entryCost, start, front), cfg, s);
      ReserveComesBack(cfg, entryCost, start, front, reloadZig);
      ReloadsAdd(reloadZig, RungAfter(DriverMovesOf(front)));
      ReloadsAdd(reloadZig, RungAfter(moves));
    }
  }

  lemma NewDeskWhole(cfg: SoakCfg, entryCost: real, start: int)
    ensures NewDesk(cfg, entryCost, start).soak.account.reserveReleased == 0.0
  {
  }

  lemma DriverLastStep(t: Trader, cfg: SoakCfg, s: DriverStep)
    requires CfgOk(cfg)
    ensures var a, a' := t.desk.soak.account, Drive(t, cfg, s).desk.soak.account;
      && (s.BandReleases? && s.qty >= 0.0 ==> a'.reserveReleased <= a.reserveReleased + s.qty)
      && (s.BandReprotects? ==> a'.reserveReleased == a.reserveReleased - Restorable(a, cfg.account, s.qty))
      && (!s.BandReleases? && !s.BandReprotects? ==> a'.reserveReleased == a.reserveReleased)
  {
    hide DriverTick, EngineTick, Cancel, CfgOk;
    if !s.BandReleases? && !s.BandReprotects? {
      DriveKeepsReleased(t, cfg, s);
    }
  }

  /**
   * In driver runs the promise of the ladder holds to the letter: from a covered start no more is ever out than one
   * reload per rung above the first, and on the first rung nothing is.
   */
  lemma DriverSpikesGiveBack(z: Setup, run: seq<Reading>, n: nat, cfg: SoakCfg, entryCost: real, start: int,
      steps: seq<DriverStep>)
    requires IsLadder(z.rungs) && z.reloadZig >= 0.0 && n <= |run|
    requires FromStart(cfg, entryCost, start, steps) && cfg.account.startZig >= cfg.account.reserveFloor
    requires DriverReloading(steps, z.reloadZig) && Changes(DriverMovesOf(steps)) == Changes(LadderMoves(z, run, n))
    ensures var out := Reached(cfg, entryCost, start, steps).desk.soak.account.reserveReleased;
      var level := StateAt(z.rungs, run, z.dwellMs, n).level;
      0.0 <= out <= Reloads(z.reloadZig, level) && (level == 1 ==> out == 0.0)
  {
    hide ActionAt, StateAt, Reloads, Changes, RungAfter, Climbs, IsLadder, Reached, CfgOk;
    FollowsLadder(z, run, n, DriverMovesOf(steps));
    DriverOutIsBounded(cfg, entryCost, start, steps, z.reloadZig);
    ReserveComesBack(cfg, entryCost, start, steps, z.reloadZig);
    ReloadsAdd(z.reloadZig, 1);
  }
}
