/**
 * Drift between exchange truth and the local view, its classification and its repair (backend/src/reconciliation/
 * drift-detector.ts, engine.ts, state-engine/reducer.ts, packages/shared-types/src/reconciliation.ts).
 */
module Drift {
  import opened Numeric
  import opened Domain

  const BALANCE_EPSILON: real := 1e-8

  datatype Balance = Balance(asset: string, available: real, locked: real, total: real)

  datatype ExchangeOrder = ExchangeOrder(orderId: string, clientOrderId: string)

  /** Balances, open orders and fills of one exchange: a snapshot of its truth, or the local view of it. */
  datatype AccountView = AccountView(balances: seq<Balance>, openOrders: seq<ExchangeOrder>, fills: seq<Fill>)

  datatype Category = TimingLag | BalanceMismatch | MissingFill | MissingOrder | StaleLocalOrder
    | GhostOrder | DuplicateFill | NegativeInventory | ImpossibleBalance

  datatype Subject = Asset(name: string) | OrderKey(key: string) | FillKey(id: FillId)

  datatype Issue = Issue(category: Category, status: DriftStatus, subject: Subject)

  // ── Detection ────────────────────────────────────────────────────────────

  function Key(o: ExchangeOrder): string {
    if o.clientOrderId != "" then o.clientOrderId else o.orderId
  }

  function ImpossibleBalances(bs: seq<Balance>): seq<Issue> {
    if bs == [] then [] else
      var b := bs[|bs| - 1];
      ImpossibleBalances(bs[..|bs| - 1]) +
      if b.total < 0.0 || b.available < 0.0 || b.locked < 0.0
      then [Issue(if b.total < 0.0 then NegativeInventory else ImpossibleBalance, CriticalDrift, Asset(b.asset))]
        else []
  }

  /** A map built from a list keeps the last entry of an asset; an unknown asset counts as zero. */
  function LastTotal(bs: seq<Balance>, asset: string): real {
    if bs == [] then 0.0
    else if bs[|bs| - 1].asset == asset then bs[|bs| - 1].total
    else LastTotal(bs[..|bs| - 1], asset)
  }

  function BalanceMismatches(truth: seq<Balance>, local: seq<Balance>): seq<Issue> {
    if truth == [] then [] else
      var b := truth[|truth| - 1];
      BalanceMismatches(truth[..|truth| - 1], local) +
      if Abs(b.total - LastTotal(local, b.asset)) > BALANCE_EPSILON
      then [Issue(BalanceMismatch, HardDrift, Asset(b.asset))] else []
  }

  predicate Lists(orders: seq<ExchangeOrder>, key: string) {
    exists i :: 0 <= i < |orders| && Key(orders[i]) == key
  }

  /** Orders of `these` that `those` do not list, reported under one category. */
  function Unlisted(these: seq<ExchangeOrder>, those: seq<ExchangeOrder>, category: Category,
      status: DriftStatus): seq<Issue> {
    if these == [] then [] else
      var o := these[|these| - 1];
      Unlisted(these[..|these| - 1], those, category, status) +
      if !Lists(those, Key(o)) then [Issue(category, status, OrderKey(Key(o)))] else []
  }

  predicate Knows(fills: seq<Fill>, id: FillId) {
    exists i :: 0 <= i < |fills| && fills[i].fillId == id
  }

  function MissingFills(truth: seq<Fill>, local: seq<Fill>): seq<Issue> {
    if truth == [] then [] else
      var f := truth[|truth| - 1];
      MissingFills(truth[..|truth| - 1], local) +
      if !Knows(local, f.fillId) then [Issue(MissingFill, HardDrift, FillKey(f.fillId))] else []
  }

  function DuplicateFills(local: seq<Fill>): seq<Issue> {
    if local == [] then [] else
      var f := local[|local| - 1];
      DuplicateFills(local[..|local| - 1]) +
      if Knows(local[..|local| - 1], f.fillId) then [Issue(DuplicateFill, CriticalDrift, FillKey(f.fillId))] else []
  }

  function DetectDrift(truth: AccountView, local: AccountView): seq<Issue> {
    ImpossibleBalances(truth.balances)
    + BalanceMismatches(truth.balances, local.balances)
    + Unlisted(truth.openOrders, local.openOrders, GhostOrder, CriticalDrift)
    + Unlisted(local.openOrders, truth.openOrders, StaleLocalOrder, HardDrift)
    + MissingFills(truth.fills, local.fills)
    + DuplicateFills(local.fills)
  }

  function Severity(s: DriftStatus): nat {
    match s case Match => 0 case SoftDrift => 1 case HardDrift => 2 case CriticalDrift => 3
  }

  function Worse(a: DriftStatus, b: DriftStatus): DriftStatus {
    if Severity(b) > Severity(a) then b else a
  }

  function ClassifyDrift(issues: seq<Issue>): DriftStatus {
    if issues == [] then Match else Worse(ClassifyDrift(issues[..|issues| - 1]), issues[|issues| - 1].status)
  }

  method Classify(issues: seq<Issue>) returns (status: DriftStatus, requiresExecutionHalt: bool)
    ensures status == ClassifyDrift(issues)
    ensures requiresExecutionHalt <==> status == CriticalDrift
  {
    var worst := Match;
    for i := 0 to |issues|
      invariant worst == ClassifyDrift(issues[..i])
    {
      assert issues[..i + 1][..i] == issues[..i];
      if Severity(issues[i].status) > Severity(worst) {
        worst := issues[i].status;
      }
    }
    assert issues[..|issues|] == issues;
    status := worst;
    requiresExecutionHalt := worst == CriticalDrift;
  }

  /** The rolled-up status is the worst one present. */
  lemma {:induction false} ClassifyIsWorst(issues: seq<Issue>)
    ensures forall i :: 0 <= i < |issues| ==> Severity(issues[i].status) <= Severity(ClassifyDrift(issues))
    ensures ClassifyDrift(issues) == Match || exists i :: 0 <= i < |issues| && issues[i].status == ClassifyDrift(issues)
  {
    if issues != [] {
      ClassifyIsWorst(issues[..|issues| - 1]);
    }
  }

  // ── The detectors as loops ───────────────────────────────────────────────

  method DetectBalances(truth: seq<Balance>, local: seq<Balance>, sofar: seq<Issue>) returns (issues: seq<Issue>)
    ensures issues == sofar + ImpossibleBalances(truth) + BalanceMismatches(truth, local)
  {
    issues := sofar;
    for i := 0 to |truth|
      invariant issues == sofar + ImpossibleBalances(truth[..i])
    {
      var b := truth[i];
      assert truth[..i + 1][..i] == truth[..i];
      if b.total < 0.0 || b.available < 0.0 || b.locked < 0.0 {
        var category := if b.total < 0.0 then NegativeInventory else ImpossibleBalance;
        issues := issues + [Issue(category, CriticalDrift, Asset(b.asset))];
      }
    }
    assert truth[..|truth|] == truth;
    ghost var before := issues;
    for i := 0 to |truth|
      invariant issues == before + BalanceMismatches(truth[..i], local)
    {
      var b := truth[i];
      assert truth[..i + 1][..i] == truth[..i];
      if Abs(b.total - LastTotal(local, b.asset)) > BALANCE_EPSILON {
        issues := issues + [Issue(BalanceMismatch, HardDrift, Asset(b.asset))];
      }
    }
  }

  method DetectUnlisted(these: seq<ExchangeOrder>, those: seq<ExchangeOrder>, category: Category, status: DriftStatus,
      sofar: seq<Issue>)
    returns (issues: seq<Issue>)
    ensures issues == sofar + Unlisted(these, those, category, status)
  {
    var ids: set<string> := {};
    for i := 0 to |those|
      invariant forall k :: k in ids <==> exists j :: 0 <= j < i && Key(those[j]) == k
    {
      ids := ids + {Key(those[i])};
    }
    issues := sofar;
    for i := 0 to |these|
      invariant issues == sofar + Unlisted(these[..i], those, category, status)
    {
      assert these[..i + 1][..i] == these[..i];
      if Key(these[i]) !in ids {
        issues := issues + [Issue(category, status, OrderKey(Key(these[i])))];
      }
    }
    assert these[..|these|] == these;
  }

  method DetectFills(truth: seq<Fill>, local: seq<Fill>, sofar: seq<Issue>) returns (issues: seq<Issue>)
    ensures issues == sofar + MissingFills(truth, local) + DuplicateFills(local)
  {
    issues := sofar;
    for i := 0 to |truth|
      invariant issues == sofar + MissingFills(truth[..i], local)
    {
      assert truth[..i + 1][..i] == truth[..i];
      if !Knows(local, truth[i].fillId) {
        issues := issues + [Issue(MissingFill, HardDrift, FillKey(truth[i].fillId))];
      }
    }
    assert truth[..|truth|] == truth;
    ghost var before := issues;
    var seen: set<FillId> := {};
    for i := 0 to |local|
      invariant forall id :: id in seen <==> exists j :: 0 <= j < i && local[j].fillId == id
      invariant issues == before + DuplicateFills(local[..i])
    {
      var id := local[i].fillId;
      assert local[..i + 1][..i] == local[..i];
      assert id in seen <==> Knows(local[..i], id);
      if id in seen {
        issues := issues + [Issue(DuplicateFill, CriticalDrift, FillKey(id))];
      }
      seen := seen + {id};
    }
    assert local[..|local|] == local;
  }

  method Detect(truth: AccountView, local: AccountView) returns (issues: seq<Issue>)
    ensures issues == DetectDrift(truth, local)
  {
    issues := DetectBalances(truth.balances, local.balances, []);
    issues := DetectUnlisted(truth.openOrders, local.openOrders, GhostOrder, CriticalDrift, issues);
    issues := DetectUnlisted(local.openOrders, truth.openOrders, StaleLocalOrder, HardDrift, issues);
    issues := DetectFills(truth.fills, local.fills, issues);
  }

  // ── State and repair ─────────────────────────────────────────────────────

  datatype SystemState = SystemState(bybit: AccountView, mexc: AccountView)

  datatype Action =
    | BalancesUpdated(exchange: Exchange, balances: seq<Balance>)
    | OpenOrdersUpdated(exchange: Exchange, orders: seq<ExchangeOrder>)
    | FillReceived(exchange: Exchange, fill: Fill)
    | AccountCleared(exchange: Exchange)

  function ViewOf(s: SystemState, ex: Exchange): AccountView {
    match ex case Bybit => s.bybit case Mexc => s.mexc
  }

  function WithView(s: SystemState, ex: Exchange, v: AccountView): SystemState {
    match ex case Bybit => s.(bybit := v) case Mexc => s.(mexc := v)
  }

  /** The reducer: truth replaces balances and orders; a fill is appended unless its id is known. */
  function Reduce(s: SystemState, a: Action): SystemState {
    var v := ViewOf(s, a.exchange);
    match a
    case BalancesUpdated(ex, balances) => WithView(s, ex, v.(balances := balances))
    case OpenOrdersUpdated(ex, orders) => WithView(s, ex, v.(openOrders := orders))
    case FillReceived(ex, fill) => if Knows(v.fills, fill.fillId) then s
      else WithView(s, ex, v.(fills := v.fills + [fill]))
    case AccountCleared(ex) => WithView(s, ex, AccountView([], [], []))
  }

  /** Fills after appending, in order, those whose ids are not known yet. */
  function Appended(local: seq<Fill>, fills: seq<Fill>): seq<Fill> {
    if fills == [] then local else
      var sofar := Appended(local, fills[..|fills| - 1]);
      var f := fills[|fills| - 1];
      if Knows(sofar, f.fillId) then sofar else sofar + [f]
  }

  function Repaired(truth: AccountView, local: AccountView): AccountView {
    AccountView(truth.balances, truth.openOrders, Appended(local.fills, truth.fills))
  }

  /** One reconciliation cycle: only hard drift is repaired. */
  function AfterCycle(truth: AccountView, local: AccountView): AccountView {
    if ClassifyDrift(DetectDrift(truth, local)) == HardDrift then Repaired(truth, local) else local
  }

  class ReconciliationEngine {
    var state: SystemState

    constructor (state: SystemState)
      ensures this.state == state
    {
      this.state := state;
    }

    method Reconcile(ex: Exchange, truth: AccountView) returns (status: DriftStatus, requiresExecutionHalt: bool,
        repaired: bool)
      modifies this
      ensures status == ClassifyDrift(DetectDrift(truth, ViewOf(old(state), ex)))
      ensures requiresExecutionHalt <==> status == CriticalDrift
      ensures repaired <==> status == HardDrift
      ensures state == WithView(old(state), ex, AfterCycle(truth, ViewOf(old(state), ex)))
    {
      ghost var local := ViewOf(state, ex);
      var issues := Detect(truth, ViewOf(state, ex));
      status, requiresExecutionHalt := Classify(issues);
      repaired := false;
      if status == HardDrift {
        state := Reduce(state, BalancesUpdated(ex, truth.balances));
        state := Reduce(state, OpenOrdersUpdated(ex, truth.openOrders));
        for i := 0 to |truth.fills|
          invariant state == WithView(old(state), ex,
            AccountView(truth.balances, truth.openOrders, Appended(local.fills, truth.fills[..i])))
        {
          assert truth.fills[..i + 1][..i] == truth.fills[..i];
          state := Reduce(state, FillReceived(ex, truth.fills[i]));
        }
        assert truth.fills[..|truth.fills|] == truth.fills;
        repaired := true;
      }
    }
  }

  // ── Repair converges ─────────────────────────────────────────────────────

  ghost predicate NoFillTwice(fills: seq<Fill>) {
    forall i, j :: 0 <= i < j < |fills| ==> fills[i].fillId != fills[j].fillId
  }

  /** The exchange lists every asset with one total, up to dust. Distinct assets are enough. */
  ghost predicate Consistent(bs: seq<Balance>) {
    forall i :: 0 <= i < |bs| ==> Abs(bs[i].total - LastTotal(bs, bs[i].asset)) <= BALANCE_EPSILON
  }

  lemma {:induction false} LastTotalOf(bs: seq<Balance>, i: nat)
    requires i < |bs| && forall j :: i < j < |bs| ==> bs[j].asset != bs[i].asset
    ensures LastTotal(bs, bs[i].asset) == bs[i].total
    decreases |bs|
  {
    if i < |bs| - 1 {
      LastTotalOf(bs[..|bs| - 1], i);
    }
  }

  lemma DistinctAssetsConsistent(bs: seq<Balance>)
    requires forall i, j :: 0 <= i < j < |bs| ==> bs[i].asset != bs[j].asset
    ensures Consistent(bs)
  {
    forall i | 0 <= i < |bs| ensures Abs(bs[i].total - LastTotal(bs, bs[i].asset)) <= BALANCE_EPSILON {
      LastTotalOf(bs, i);
    }
  }

  lemma {:induction false} NoMismatchIff(truth: seq<Balance>, local: seq<Balance>)
    ensures BalanceMismatches(truth, local) == [] <==>
      forall i :: 0 <= i < |truth| ==> Abs(truth[i].total - LastTotal(local, truth[i].asset)) <= BALANCE_EPSILON
  {
    if truth != [] {
      NoMismatchIff(truth[..|truth| - 1], local);
    }
  }

  lemma {:induction false} NoUnlistedIff(these: seq<ExchangeOrder>, those: seq<ExchangeOrder>, category: Category,
      status: DriftStatus)
    ensures Unlisted(these, those, category, status) == [] <==> forall i :: 0 <= i < |these| ==>
      Lists(those, Key(these[i]))
  {
    hide Key, Lists;
    if these != [] {
      var front := these[..|these| - 1];
      NoUnlistedIff(front, those, category, status);
      assert forall i :: 0 <= i < |front| ==> front[i] == these[i];
    }
  }

  lemma {:induction false} NoMissingIff(truth: seq<Fill>, local: seq<Fill>)
    ensures MissingFills(truth, local) == [] <==> forall i :: 0 <= i < |truth| ==> Knows(local, truth[i].fillId)
  {
    if truth != [] {
      NoMissingIff(truth[..|truth| - 1], local);
    }
  }

  lemma {:induction false} NoDuplicateIff(local: seq<Fill>)
    ensures DuplicateFills(local) == [] <==> NoFillTwice(local)
  {
    if local != [] {
      var front := local[..|local| - 1];
      NoDuplicateIff(front);
      if !Knows(front, local[|local| - 1].fillId) && NoFillTwice(front) {
        forall i, j | 0 <= i < j < |local| ensures local[i].fillId != local[j].fillId {
          assert j < |front| ==> front[i].fillId != front[j].fillId;
          assert i < |front| && front[i] == local[i];
        }
      }
    }
  }

  /** Appending keeps the old history as a prefix, records every delivered id and repeats none. */
  lemma {:induction false} AppendKeepsHistory(local: seq<Fill>, fills: seq<Fill>)
    ensures local <= Appended(local, fills)
    ensures NoFillTwice(local) ==> NoFillTwice(Appended(local, fills))
    ensures forall i :: 0 <= i < |fills| ==> Knows(Appended(local, fills), fills[i].fillId)
  {
    if fills != [] {
      var front, f := fills[..|fills| - 1], fills[|fills| - 1];
      AppendKeepsHistory(local, front);
      var sofar := Appended(local, front);
      if !Knows(sofar, f.fillId) {
        assert (sofar + [f])[|sofar|].fillId == f.fillId;
      }
      forall i | 0 <= i < |front| ensures Knows(Appended(local, fills), front[i].fillId) {
        assert Knows(sofar, front[i].fillId);
        var k :| 0 <= k < |sofar| && sofar[k].fillId == front[i].fillId;
        assert Appended(local, fills)[k] == sofar[k];
      }
    }
  }

  lemma NotCritical(issues: seq<Issue>, part: seq<Issue>, a: seq<Issue>, b: seq<Issue>)
    requires issues == a + part + b && ClassifyDrift(issues) != CriticalDrift
    ensures part == [] || part[0].status != CriticalDrift
  {
    ClassifyIsWorst(issues);
    assert forall i :: 0 <= i < |part| ==> part[i] == issues[|a| + i];
  }

  lemma {:induction false} CriticalKinds(truth: AccountView, local: AccountView)
    ensures ImpossibleBalances(truth.balances) == [] || ImpossibleBalances(truth.balances)[0].status == CriticalDrift
    ensures DuplicateFills(local.fills) == [] || DuplicateFills(local.fills)[0].status == CriticalDrift
    decreases |truth.balances| + |local.fills|
  {
    if truth.balances != [] {
      CriticalKinds(truth.(balances := truth.balances[..|truth.balances| - 1]), local);
    }
    if local.fills != [] {
      CriticalKinds(truth, local.(fills := local.fills[..|local.fills| - 1]));
    }
  }

  lemma Regroup<T>(a: seq<T>, b: seq<T>, c: seq<T>, d: seq<T>, e: seq<T>, f: seq<T>)
    ensures a + b + c + d + e + f == [] + a + ((b + c + d + e) + f)
    ensures a + b + c + d + e + f == (a + (b + c + d + e)) + f + []
  {
    assert a + b + c + d + e == a + (b + c + d + e);
    assert (a + (b + c + d + e)) + f == a + ((b + c + d + e) + f);
  }

  /** Detection starts with impossible balances and ends with duplicate fills. */
  lemma IssueEnds(truth: AccountView, local: AccountView) returns (middle: seq<Issue>)
    ensures var impossible, duplicates := ImpossibleBalances(truth.balances), DuplicateFills(local.fills);
      && DetectDrift(truth, local) == [] + impossible + (middle + duplicates)
      && DetectDrift(truth, local) == (impossible + middle) + duplicates + []
  {
    var mismatches := BalanceMismatches(truth.balances, local.balances);
    var ghosts := Unlisted(truth.openOrders, local.openOrders, GhostOrder, CriticalDrift);
    var stale := Unlisted(local.openOrders, truth.openOrders, StaleLocalOrder, HardDrift);
    var missing := MissingFills(truth.fills, local.fills);
    middle := mismatches + ghosts + stale + missing;
    Regroup(ImpossibleBalances(truth.balances), mismatches, ghosts, stale, missing, DuplicateFills(local.fills));
  }

  /** A drift that is not critical has no impossible balance and no fill applied twice. */
  lemma RepairableIsClean(truth: AccountView, local: AccountView)
    requires ClassifyDrift(DetectDrift(truth, local)) != CriticalDrift
    ensures ImpossibleBalances(truth.balances) == [] && NoFillTwice(local.fills)
  {
    hide *;
    var issues := DetectDrift(truth, local);
    var impossible, duplicates := ImpossibleBalances(truth.balances), DuplicateFills(local.fills);
    var middle := IssueEnds(truth, local);
    CriticalKinds(truth, local);
    NotCritical(issues, impossible, [], middle + duplicates);
    NotCritical(issues, duplicates, impossible + middle, []);
    NoDuplicateIff(local.fills);
  }

  /** Detection is silent exactly when each of its detectors is. */
  lemma SilentIff(truth: AccountView, local: AccountView)
    ensures DetectDrift(truth, local) == [] <==>
      && ImpossibleBalances(truth.balances) == []
      && (forall i :: 0 <= i < |truth.balances| ==>
           Abs(truth.balances[i].total - LastTotal(local.balances, truth.balances[i].asset)) <= BALANCE_EPSILON)
      && (forall i :: 0 <= i < |truth.openOrders| ==> Lists(local.openOrders, Key(truth.openOrders[i])))
      && (forall i :: 0 <= i < |local.openOrders| ==> Lists(truth.openOrders, Key(local.openOrders[i])))
      && (forall i :: 0 <= i < |truth.fills| ==> Knows(local.fills, truth.fills[i].fillId))
      && NoFillTwice(local.fills)
  {
    hide Lists, Knows, Key, Abs, NoFillTwice;
    NoMismatchIff(truth.balances, local.balances);
    NoUnlistedIff(truth.openOrders, local.openOrders, GhostOrder, CriticalDrift);
    NoUnlistedIff(local.openOrders, truth.openOrders, StaleLocalOrder, HardDrift);
    NoMissingIff(truth.fills, local.fills);
    NoDuplicateIff(local.fills);
  }

  /**
   * Repair converges. After repairing a hard drift, detection on the same snapshot finds nothing exactly when the
   * snapshot lists its assets consistently; the old history is a prefix of the new one and no fill occurs twice.
   */
  lemma RepairConverges(truth: AccountView, local: AccountView)
    requires ClassifyDrift(DetectDrift(truth, local)) == HardDrift
    ensures DetectDrift(truth, AfterCycle(truth, local)) == [] <==> Consistent(truth.balances)
    ensures local.fills <= AfterCycle(truth, local).fills && NoFillTwice(AfterCycle(truth, local).fills)
  {
    hide Knows, Key, Abs, NoFillTwice, ClassifyDrift, DetectDrift;
    RepairableIsClean(truth, local);
    AppendKeepsHistory(local.fills, truth.fills);
    SilentIff(truth, Repaired(truth, local));
  }

  /** A snapshot that lists one asset twice, with different totals. */
  function TwoTotals(): AccountView {
    AccountView([Balance("USDT", 5.0, 0.0, 5.0), Balance("USDT", 7.0, 0.0, 7.0)], [], [])
  }

  /** Its drift is a hard one, and still is after the repair: cycle after cycle reports the first total. */
  lemma InconsistentInstance(truth: AccountView, local: AccountView)
    requires truth == TwoTotals() && local == AccountView([], [], [])
    ensures ClassifyDrift(DetectDrift(truth, local)) == HardDrift && !Consistent(truth.balances)
    ensures DetectDrift(truth, AfterCycle(truth, local)) != []
  {
    var bs, m := truth.balances, Issue(BalanceMismatch, HardDrift, Asset("USDT"));
    TwoMismatches(bs, m);
    assert DetectDrift(truth, local) == [m, m];
    hide ImpossibleBalances, BalanceMismatches, Unlisted, MissingFills, DuplicateFills, DetectDrift;
    assert [m, m][..1] == [m] && [m][..0] == [];
    assert ClassifyDrift([m]) == HardDrift;
    SilentIff(truth, AfterCycle(truth, local));
  }

  lemma TwoMismatches(bs: seq<Balance>, m: Issue)
    requires bs == TwoTotals().balances && m == Issue(BalanceMismatch, HardDrift, Asset("USDT"))
    ensures ImpossibleBalances(bs) == [] && BalanceMismatches(bs, []) == [m, m]
    ensures |bs| == 2 && LastTotal(bs, bs[0].asset) == 7.0 && bs[0].total == 5.0
  {
    assert bs[..1] == [bs[0]] && bs[..1][..0] == [];
    assert ImpossibleBalances(bs[..1]) == [];
    assert BalanceMismatches(bs[..1], []) == [m];
  }

  /** After any cycle a second one on the same snapshot changes nothing more. */
  lemma SecondCycleIsIdle(truth: AccountView, local: AccountView)
    ensures AfterCycle(truth, AfterCycle(truth, local)) == AfterCycle(truth, local)
  {
    if ClassifyDrift(DetectDrift(truth, local)) == HardDrift {
      AppendKeepsHistory(local.fills, truth.fills);
      AppendKnown(Appended(local.fills, truth.fills), truth.fills);
    }
  }

  lemma {:induction false} AppendKnown(local: seq<Fill>, fills: seq<Fill>)
    requires forall i :: 0 <= i < |fills| ==> Knows(local, fills[i].fillId)
    ensures Appended(local, fills) == local
  {
    if fills != [] {
      AppendKnown(local, fills[..|fills| - 1]);
    }
  }
}
