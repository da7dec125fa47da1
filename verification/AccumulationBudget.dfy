/**
 * How much USDT accumulation may have at work (backend/src/accumulation/accumulation-budget.ts).
 * `deployed` is outstanding capital: recovered principal comes back to it, the daily allowance does not.
 */
module AccumulationBudget {
  import opened Numeric

  datatype Caps = Caps(startingUsdt: real, budgetPct: real, dailyPct: real, totalDeployedPct: real, minUsdtFloor: real)

  datatype BudgetState = BudgetState(deployed: real, lifetimeDeployed: real, recycled: real, dailyDeployed: real,
    day: int)

  function Fresh(now: int): BudgetState {
    BudgetState(0.0, 0.0, 0.0, 0.0, UtcDay(now))
  }

  function RollDay(b: BudgetState, now: int): BudgetState {
    if UtcDay(now) != b.day then b.(day := UtcDay(now), dailyDeployed := 0.0) else b
  }

  function BudgetCap(c: Caps): real { Times(c.budgetPct, c.startingUsdt) }
  function DailyCap(c: Caps): real { Times(c.dailyPct, c.startingUsdt) }
  function TotalCap(c: Caps): real { Times(c.totalDeployedPct, c.startingUsdt) }

  /** Most USDT one accumulation buy may spend, on a book whose day has been rolled. */
  function MaxSpend(b: BudgetState, c: Caps, usdtBalance: real, harvestRebuyReserve: real): (r: real)
    ensures r >= 0.0
    ensures r > 0.0 ==>
      && b.deployed + r <= BudgetCap(c) && b.deployed + r <= TotalCap(c)
      && b.dailyDeployed + r <= DailyCap(c)
      && usdtBalance - r >= c.minUsdtFloor + harvestRebuyReserve
  {
    var remBudget := Max(BudgetCap(c) - b.deployed, 0.0);
    var remDaily := Max(DailyCap(c) - b.dailyDeployed, 0.0);
    var remTotal := Max(TotalCap(c) - b.deployed, 0.0);
    var dryPowder := Max(usdtBalance - c.minUsdtFloor - harvestRebuyReserve, 0.0);
    Max(Min(Min(remBudget, remDaily), Min(remTotal, dryPowder)), 0.0)
  }

  /** A spend that keeps every cap and leaves the floor and the rebuy reserve in cash. */
  predicate Fits(b: BudgetState, c: Caps, usdtBalance: real, harvestRebuyReserve: real, spend: real) {
    && b.deployed + spend <= BudgetCap(c) && b.deployed + spend <= TotalCap(c) && b.dailyDeployed + spend <= DailyCap(c)
    && usdtBalance - spend >= c.minUsdtFloor + harvestRebuyReserve
  }

  /** The allowance is exact: a spend is within it if and only if it fits. */
  lemma MaxSpendIsExact(b: BudgetState, c: Caps, usdtBalance: real, harvestRebuyReserve: real, spend: real)
    requires spend > 0.0
    ensures spend <= MaxSpend(b, c, usdtBalance, harvestRebuyReserve) <==>
      Fits(b, c, usdtBalance, harvestRebuyReserve, spend)
  {
    hide Times;
  }

  function Record(b: BudgetState, spentUsdt: real, now: int): BudgetState {
    var r := RollDay(b, now);
    r.(deployed := r.deployed + spentUsdt, lifetimeDeployed := r.lifetimeDeployed + spentUsdt,
       dailyDeployed := r.dailyDeployed + spentUsdt)
  }

  /** Recovered principal returns to the pool, never below zero. */
  function Release(b: BudgetState, recoveredUsdt: real): BudgetState {
    if recoveredUsdt > 0.0 then
      var applied := Min(recoveredUsdt, b.deployed);
      b.(deployed := b.deployed - applied, recycled := b.recycled + applied)
    else b
  }

  datatype BudgetSnapshot = BudgetSnapshot(deployed: real, lifetimeDeployed: real, recycled: real,
    budgetRemaining: real, dailyRemaining: real)

  function SnapshotOf(b: BudgetState, c: Caps): BudgetSnapshot {
    BudgetSnapshot(b.deployed, b.lifetimeDeployed, b.recycled, Max(BudgetCap(c) - b.deployed, 0.0),
      Max(DailyCap(c) - b.dailyDeployed, 0.0))
  }

  /** Every dollar ever deployed is either still out or was recycled. */
  predicate Accounted(b: BudgetState) {
    b.lifetimeDeployed == b.deployed + b.recycled && b.deployed >= 0.0
  }

  /** Recycling never gives a day its allowance back, and never lets a dollar be counted twice. */
  lemma RecyclingIsNotAllowance(b: BudgetState, spentUsdt: real, recoveredUsdt: real, now: int)
    requires Accounted(b) && spentUsdt >= 0.0
    ensures Accounted(Record(b, spentUsdt, now)) && Accounted(Release(b, recoveredUsdt))
    ensures Release(b, recoveredUsdt).dailyDeployed == b.dailyDeployed
    ensures Release(Record(b, spentUsdt, now), spentUsdt).deployed == b.deployed
    ensures Release(Record(b, spentUsdt, now), spentUsdt).dailyDeployed == Record(b, spentUsdt, now).dailyDeployed
  {
  }

  class Budget {
    var deployed: real
    var lifetimeDeployed: real
    var recycled: real
    var dailyDeployed: real
    var dayStart: int
    const caps: Caps

    function State(): BudgetState
      reads this
    {
      BudgetState(deployed, lifetimeDeployed, recycled, dailyDeployed, dayStart)
    }

    constructor (caps: Caps, now: int)
      ensures State() == Fresh(now) && this.caps == caps
    {
      this.caps := caps;
      deployed, lifetimeDeployed, recycled, dailyDeployed, dayStart := 0.0, 0.0, 0.0, 0.0, UtcDay(now);
    }

    method RollToday(now: int)
      modifies this
      ensures State() == RollDay(old(State()), now)
    {
      if UtcDay(now) != dayStart {
        dayStart, dailyDeployed := UtcDay(now), 0.0;
      }
    }

    method MaxSpendNow(usdtBalance: real, harvestRebuyReserve: real, now: int) returns (r: real)
      modifies this
      ensures State() == RollDay(old(State()), now)
      ensures r == MaxSpend(State(), caps, usdtBalance, harvestRebuyReserve)
    {
      RollToday(now);
      var remBudget := Max(BudgetCap(caps) - deployed, 0.0);
      var remDaily := Max(DailyCap(caps) - dailyDeployed, 0.0);
      var remTotal := Max(TotalCap(caps) - deployed, 0.0);
      var dryPowder := Max(usdtBalance - caps.minUsdtFloor - harvestRebuyReserve, 0.0);
      r := Max(Min(Min(remBudget, remDaily), Min(remTotal, dryPowder)), 0.0);
    }

    method RecordSpend(spentUsdt: real, now: int)
      modifies this
      ensures State() == Record(old(State()), spentUsdt, now)
    {
      RollToday(now);
      deployed := deployed + spentUsdt;
      lifetimeDeployed := lifetimeDeployed + spentUsdt;
      dailyDeployed := dailyDeployed + spentUsdt;
    }

    /** What is reported of the budget; reading it rolls the day. */
    method Snapshot(now: int) returns (r: BudgetSnapshot)
      modifies this
      ensures State() == RollDay(old(State()), now)
      ensures r == SnapshotOf(State(), caps)
    {
      RollToday(now);
      r := BudgetSnapshot(deployed, lifetimeDeployed, recycled, Max(BudgetCap(caps) - deployed, 0.0),
        Max(DailyCap(caps) - dailyDeployed, 0.0));
    }

    method ReleasePrincipal(recoveredUsdt: real)
      modifies this
      ensures State() == Release(old(State()), recoveredUsdt)
    {
      if recoveredUsdt > 0.0 {
        var applied := Min(recoveredUsdt, deployed);
        deployed := deployed - applied;
        recycled := recycled + applied;
      }
    }
  }
}
