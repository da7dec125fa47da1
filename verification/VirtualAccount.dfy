/** The mutable account of a paper soak, refining the fill-by-fill functions of PaperAccount. */
module VirtualAccounts {
  import opened Numeric
  import opened Domain
  import opened HarvestCycles
  import opened PaperAccount

  /** The part of the state engine the soak writes: the risk entry the risk engine reads back. */
  class StateEngine {
    var paperRisk: Option<PaperLedger>

    constructor ()
      ensures paperRisk == None
    {
      paperRisk := None;
    }

    method Dispatch(ledger: PaperLedger)
      modifies this
      ensures paperRisk == Some(ledger)
    {
      paperRisk := Some(ledger);
    }
  }

  class VirtualAccount {
    var zig: real
    var usdt: real
    var startingActiveZig: real
    var day: Option<int>
    var dailySellZig: real
    var dailyBuyUsdt: real
    var protectedSurplus: real
    var reserveReleased: real
    var fills: seq<Fill>
    const cfg: AccountCfg
    const tracker: CycleTracker

    function State(): Account
      reads this, tracker
    {
      Account(zig, usdt, startingActiveZig, day, dailySellZig, dailyBuyUsdt, protectedSurplus, reserveReleased, fills,
        tracker.cycles)
    }

    ghost predicate Valid()
      reads this, tracker
    {
      tracker.Valid()
    }

    /** The risk entry shows this account as it is now. */
    ghost predicate Published(stateEngine: StateEngine)
      reads this, tracker, stateEngine
    {
      stateEngine.paperRisk == Some(Publish(State(), cfg))
    }

    constructor (cfg: AccountCfg)
      ensures Valid() && State() == Opened(cfg) && this.cfg == cfg && fresh(tracker)
    {
      this.cfg := cfg;
      zig, usdt, startingActiveZig := cfg.startZig, cfg.startUsdt, 0.0;
      day, dailySellZig, dailyBuyUsdt := None, 0.0, 0.0;
      protectedSurplus, reserveReleased, fills := 0.0, 0.0, [];
      tracker := new CycleTracker();
    }

    method PublishBalances(stateEngine: StateEngine)
      modifies stateEngine
      ensures Published(stateEngine)
    {
      stateEngine.Dispatch(Publish(State(), cfg));
    }

    method SeedPosition(stateEngine: StateEngine, entryCost: real, now: int)
      requires Valid()
      modifies this, stateEngine
      ensures Valid() && State() == Seed(old(State()), cfg, entryCost, now) && Published(stateEngine)
    {
      if zig > 0.0 && entryCost > 0.0 {
        fills := fills + [OpeningFill(zig, entryCost, now)];
      }
      startingActiveZig := ActiveZig(State(), cfg);
      PublishBalances(stateEngine);
    }

    method Release(qty: real, stateEngine: StateEngine) returns (released: real)
      requires Valid() && Published(stateEngine)
      modifies this, stateEngine
      ensures Valid() && State() == ReleaseReserve(old(State()), cfg, qty)
        && released == Releasable(old(State()), cfg, qty)
      ensures Published(stateEngine)
    {
      if qty <= 0.0 {
        return 0.0;
      }
      var room := Max(cfg.reserveFloor + protectedSurplus - reserveReleased, 0.0);
      released := Min(qty, room);
      if released <= 0.0 {
        return 0.0;
      }
      reserveReleased := reserveReleased + released;
      PublishBalances(stateEngine);
    }

    method Reprotect(qty: real, stateEngine: StateEngine) returns (restored: real)
      requires Valid() && Published(stateEngine)
      modifies this, stateEngine
      ensures Valid() && State() == ReprotectReserve(old(State()), cfg, qty)
        && restored == Restorable(old(State()), cfg, qty)
      ensures Published(stateEngine)
    {
      if qty <= 0.0 {
        return 0.0;
      }
      restored := Min(Min(qty, reserveReleased), Max(zig - ProtectedZig(State(), cfg), 0.0));
      if restored <= 0.0 {
        return 0.0;
      }
      reserveReleased := reserveReleased - restored;
      PublishBalances(stateEngine);
    }

    method Protect(qty: real, stateEngine: StateEngine) returns (threw: bool)
      requires Valid() && Published(stateEngine)
      modifies this, stateEngine
      ensures Valid() && Published(stateEngine)
      ensures threw == InvalidSurplus(old(State()), cfg, qty)
      ensures State() == if threw then old(State()) else ProtectSurplus(old(State()), qty)
    {
      threw := qty < 0.0 || qty > ActiveZig(State(), cfg) + SURPLUS_TOLERANCE;
      if !threw {
        protectedSurplus := protectedSurplus + qty;
        PublishBalances(stateEngine);
      }
    }

    method Settle(t: PaperTrade)
      modifies this
      ensures State() == Settled(old(State()), cfg, t)
    {
      hide Times, Over;
      var feeUsdt := FeeUsdt(t, cfg);
      if day != Some(UtcDay(t.at)) {
        day, dailySellZig, dailyBuyUsdt := Some(UtcDay(t.at)), 0.0, 0.0;
      }
      if t.side == Buy {
        dailyBuyUsdt := dailyBuyUsdt + (Notional(t) + feeUsdt);
        zig := zig + t.size;
        usdt := usdt - (Notional(t) + feeUsdt);
      } else {
        dailySellZig := dailySellZig + t.size;
        zig := zig - t.size;
        usdt := usdt + (Notional(t) - feeUsdt);
      }
      fills := fills + [LedgerFill(t, cfg)];
    }

    method Track(t: PaperTrade)
      requires Valid()
      requires tracker.cycles != [] ==> tracker.cycles[|tracker.cycles| - 1].openedAt <= t.at
      modifies tracker
      ensures Valid() && tracker.cycles == CyclesAfter(old(tracker.cycles), t, cfg)
    {
      hide Times, Over, AfterBuy, NewCycle, BookInOrder, TradeDistance;
      if t.kind == Harvest {
        if t.side == Sell {
          var c := tracker.OnSell(t.size, t.price, FeeUsdt(t, cfg), t.intentPrice, TradeDistance(t, cfg), t.at);
        } else {
          tracker.OnBuy(t.size, t.price, FeeUsdt(t, cfg), t.cycleIds);
        }
      }
    }

    /** A refused fill throws before anything moves. */
    method Apply(t: PaperTrade, stateEngine: StateEngine) returns (error: Option<FillError>)
      requires Valid() && Published(stateEngine)
      requires tracker.cycles != [] ==> tracker.cycles[|tracker.cycles| - 1].openedAt <= t.at
      modifies this, tracker, stateEngine
      ensures Valid() && Published(stateEngine)
      ensures match ApplyPaperFill(old(State()), cfg, t)
        case Applied(a) => error == None && State() == a
        case Refused(e) => error == Some(e) && State() == old(State())
    {
      hide Times, Over, Settled, CyclesAfter, Publish, BookInOrder;
      if t.size <= 0.0 || t.price <= 0.0 {
        return Some(InvalidFill);
      }
      if t.side == Buy && Notional(t) + FeeUsdt(t, cfg) > usdt + CASH_TOLERANCE {
        return Some(CashOverdraw);
      }
      if t.side == Sell && t.size > ActiveZig(State(), cfg) + RESERVE_TOLERANCE {
        return Some(ReserveOverdraw);
      }
      Settle(t);
      Track(t);
      PublishBalances(stateEngine);
      error := None;
    }
  }
}
