/**
 * The zone manager (backend/src/zone-manager/zone-manager.ts, zone-classifier.ts, zone-policy.ts) with the hooks the
 * soak gives it (backend/src/paper-soak/index.ts:141-154): a higher band is funded from reserve, a lost one gives it
 * back.
 */
module Zones {
  import opened Numeric
  import opened Domain
  import opened PaperAccount
  import opened VirtualAccounts
  import opened Soaks
  import opened Bands

  datatype Zone = BelowActiveBand | ZoneA | ZoneB | ZoneC | AboveActiveBand | ChaoticZone

  datatype ZoneBehavior = ZoneBehavior(
    zoneAAccumulation: bool,
    zoneASells: bool,
    zoneBHarvest: bool,
    zoneBAccumulation: bool,
    zoneCHarvest: bool,
    zoneCAccumulation: bool)

  datatype ZoneInputs = ZoneInputs(price: real, regime: Regime, exchangeHealthy: bool, reconciliationHealthy: bool)

  datatype ZoneDecision = ZoneDecision(zone: Zone, price: real, allowed: AllowedActions, reduced: bool,
    breakout: bool, bandIndex: nat)

  const NO_ACTIONS := AllowedActions(false, false, false, false)

  predicate Healthy(i: ZoneInputs) {
    i.exchangeHealthy && i.reconciliationHealthy && i.regime != Chaotic
  }

  function ClassifyZone(i: ZoneInputs, b: ZoneBands): Zone {
    if !Healthy(i) then ChaoticZone
    else if i.price < b.zoneALow then BelowActiveBand
    else if i.price < b.zoneAHigh then ZoneA
    else if i.price < b.zoneBHigh then ZoneB
    else if i.price <= b.zoneCHigh then ZoneC
    else AboveActiveBand
  }

  function DecideZone(zone: Zone, price: real, b: ZoneBehavior): ZoneDecision {
    var allowed := match zone
      case ChaoticZone => NO_ACTIONS
      case BelowActiveBand => AllowedActions(false, true, false, true)
      case ZoneA => AllowedActions(b.zoneASells, true, b.zoneAAccumulation, false)
      case ZoneB => AllowedActions(b.zoneBHarvest, true, b.zoneBAccumulation, true)
      case ZoneC => AllowedActions(b.zoneCHarvest, true, b.zoneCAccumulation, true)
      case AboveActiveBand => AllowedActions(true, true, false, true);
    ZoneDecision(zone, price, allowed, zone == ZoneC || zone == AboveActiveBand, zone == AboveActiveBand, 0)
  }

  /** What the manager is built with. Without a ladder it has no rungs. */
  datatype Setup = Setup(bands: ZoneBands, behavior: ZoneBehavior, rungs: seq<Rung>, dwellMs: int, reloadZig: real)

  datatype ZoneState = ZoneState(migration: MigrationState, decision: Option<ZoneDecision>, account: Account)

  function ReadingOf(i: ZoneInputs, now: int): Reading { Priced(now, i.price, Healthy(i)) }

  function Migrated(s: MigrationState, z: Setup, i: ZoneInputs, now: int): MigrationDecision {
    if z.rungs == [] then MigrationDecision(Hold, s) else Advance(z.rungs, s, ReadingOf(i, now), z.dwellMs)
  }

  /** A promotion releases reserve for the new band, a demotion protects as much again. */
  function Reloaded(a: Account, cfg: AccountCfg, action: MigrationAction, reloadZig: real): Account {
    match action
    case Hold => a
    case Promote => ReleaseReserve(a, cfg, reloadZig)
    case Demote => ReprotectReserve(a, cfg, reloadZig)
  }

  /** The band of the confirmed rung; the first rung keeps the configured bands. */
  function Selected(z: Setup, level: nat): ZoneBands {
    if z.rungs != [] && RungOf(z.rungs, level).level > 1 then BandsForRung(RungOf(z.rungs, level)) else z.bands
  }

  function BandIndex(z: Setup, level: nat): nat {
    if z.rungs != [] && RungOf(z.rungs, level).level > 1 then RungOf(z.rungs, level).level - 1 else 0
  }

  /** Above the band of a ladder new sells wait until the next rung is confirmed. */
  function Decided(z: Setup, level: nat, i: ZoneInputs): ZoneDecision {
    var zone := ClassifyZone(i, Selected(z, level));
    var d := DecideZone(zone, i.price, z.behavior).(bandIndex := BandIndex(z, level));
    if z.rungs != [] && zone == AboveActiveBand then d.(allowed := d.allowed.(harvestSell := false)) else d
  }

  function Evaluated(s: ZoneState, z: Setup, cfg: AccountCfg, input: Option<ZoneInputs>, now: int): ZoneState {
    if input.None? || input.value.price <= 0.0 then s.(decision := None)
    else
      var m := Migrated(s.migration, z, input.value, now);
      ZoneState(m.state, Some(Decided(z, m.state.level, input.value)), Reloaded(s.account, cfg, m.action, z.reloadZig))
  }

  class ZoneManager {
    const setup: Setup
    const account: VirtualAccount
    const stateEngine: StateEngine
    var migration: MigrationState
    var decision: Option<ZoneDecision>

    ghost predicate Valid()
      reads account, account.tracker, stateEngine
    {
      (setup.rungs != [] ==> IsLadder(setup.rungs)) && account.Valid() && account.Published(stateEngine)
    }

    function State(): ZoneState
      reads this, account, account.tracker
    {
      ZoneState(migration, decision, account.State())
    }

    constructor (setup: Setup, account: VirtualAccount, stateEngine: StateEngine)
      requires (setup.rungs != [] ==> IsLadder(setup.rungs)) && account.Valid() && account.Published(stateEngine)
      ensures Valid() && this.setup == setup && this.account == account
        && State() == ZoneState(START, None, account.State())
    {
      this.setup, this.account, this.stateEngine, migration, decision := setup, account, stateEngine, START, None;
    }

    /** Moves the ladder by one reading and funds or defunds its band. */
    method Migrate(i: ZoneInputs, now: int)
      requires Valid() && setup.rungs != []
      modifies this`migration, account, stateEngine
      ensures Valid()
      ensures var m := Migrated(old(migration), setup, i, now);
        migration == m.state && account.State() ==
          Reloaded(old(account.State()), account.cfg, m.action, setup.reloadZig)
    {
      hide Publish, ReleaseReserve, ReprotectReserve, EvaluateMigration, IsLadder;
      if Healthy(i) {
        var d := EvaluateMigration(i.price, now, setup.rungs, migration, setup.dwellMs);
        migration := d.state;
        match d.action {
          case Hold =>
          case Promote => var released := account.Release(setup.reloadZig, stateEngine);
          case Demote => var reprotected := account.Reprotect(setup.reloadZig, stateEngine);
        }
      } else {
        // an unhealthy reading accrues no dwell time
        migration := migration.(aboveSince := None, belowSince := None);
      }
    }

    method Evaluate(input: Option<ZoneInputs>, now: int)
      requires Valid()
      modifies this, account, stateEngine
      ensures Valid()
      ensures State() == Evaluated(old(State()), setup, account.cfg, input, now)
    {
      hide Publish, Migrated, Reloaded, DecideZone, IsLadder;
      if input.None? || input.value.price <= 0.0 {
        decision := None;
        return;
      }
      var i := input.value;
      NoRungsNoMigration(migration, setup, account.State(), account.cfg, i, now);
      if setup.rungs != [] {
        Migrate(i, now);
      }
      var selected, bandIndex := setup.bands, 0;
      if setup.rungs != [] {
        var rung := RungOf(setup.rungs, migration.level);
        if rung.level > 1 {
          selected, bandIndex := BandsForRung(rung), rung.level - 1;
        }
      }
      var zone := ClassifyZone(i, selected);
      var next := DecideZone(zone, i.price, setup.behavior).(bandIndex := bandIndex);
      if setup.rungs != [] && zone == AboveActiveBand {
        next := next.(allowed := next.allowed.(harvestSell := false));
      }
      decision := Some(next);
    }
  }

  lemma NoRungsNoMigration(s: MigrationState, z: Setup, a: Account, cfg: AccountCfg, i: ZoneInputs, now: int)
    ensures z.rungs == [] ==>
      Migrated(s, z, i, now) == MigrationDecision(Hold, s) && Reloaded(a, cfg, Hold, z.reloadZig) == a
  {
  }

  // ── What the decision promises ───────────────────────────────────────────

  function AllowedBy(s: ZoneState): AllowedActions {
    if s.decision.Some? then s.decision.value.allowed else NO_ACTIONS
  }

  /** Without a price or with a disordered market nothing is allowed, the ladder stands still and no reserve moves. */
  lemma FailsSafe(s: ZoneState, z: Setup, cfg: AccountCfg, input: Option<ZoneInputs>, now: int)
    requires input.None? || input.value.price <= 0.0 || !Healthy(input.value)
    ensures var s' := Evaluated(s, z, cfg, input, now);
      AllowedBy(s') == NO_ACTIONS && s'.account == s.account && s'.migration.level == s.migration.level
  {
  }

  /** Zones of a band in ascending order, as the configuration schema demands. */
  predicate Ascending(b: ZoneBands) {
    b.zoneALow <= b.zoneAHigh <= b.zoneBHigh <= b.zoneCHigh
  }

  /**
   * New positions are opened inside the band of the confirmed rung only: accumulation never below its Zone A floor or
   * above its top, and with a ladder no harvest sell outside it either.
   */
  lemma OpensInsideBand(s: ZoneState, z: Setup, cfg: AccountCfg, input: Option<ZoneInputs>, now: int)
    requires Ascending(z.bands) && (z.rungs != [] ==> IsLadder(z.rungs))
    ensures var s' := Evaluated(s, z, cfg, input, now); var b := Selected(z, s'.migration.level);
      AllowedBy(s').accumulationBuy || (z.rungs != [] && AllowedBy(s').harvestSell) ==>
        input.Some? && Healthy(input.value) && b.zoneALow <= input.value.price <= b.zoneCHigh
  {
    hide EvaluateMigration, Reloaded;
    var s' := Evaluated(s, z, cfg, input, now);
    if input.None? || input.value.price <= 0.0 || !Healthy(input.value) {
      FailsSafe(s, z, cfg, input, now);
    } else {
      SelectedAscends(z, s'.migration.level);
      hide Selected;
    }
  }

  lemma SelectedAscends(z: Setup, level: nat)
    requires Ascending(z.bands) && (z.rungs != [] ==> IsLadder(z.rungs))
    ensures Ascending(Selected(z, level))
  {
  }
}
