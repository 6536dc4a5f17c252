/** The simulation driver (src/lib/engine/simulate.ts): the components are
    sorted once, then every day from 0 to the horizon each runs `prepare`
    and `apply` in that order on a fresh copy of the state; the driver
    tracks deficit streaks, records daily and weekly snapshots and derives
    the summary. */
module Simulate {
  import opened Types
  import opened Sums
  import opened Strings
  import opened Graph
  import opened Fx
  import Income
  import Expenses = Expense
  import Debts = Debt
  import Assets
  import Tax
  import Shocks
  import Metrics

  // ---------------------------------------------------------------------
  // The component graph

  /** The eight components with their declared dependencies, in the order
      `buildNodes` lists them. */
  const EngineNodes: seq<NodeDecl> := [
    NodeDecl("fx", []),
    NodeDecl("income", []),
    NodeDecl("expense", ["income"]),
    NodeDecl("debt", ["income", "expense"]),
    NodeDecl("asset", ["income", "expense", "debt"]),
    NodeDecl("tax", ["income", "expense", "debt", "asset"]),
    NodeDecl("shock", ["income", "expense"]),
    NodeDecl("metrics", ["income", "expense", "debt", "asset", "shock"])]

  /** The order the sort produces. */
  const EngineOrder: seq<NodeDecl> := [
    EngineNodes[0], EngineNodes[1], EngineNodes[2], EngineNodes[3],
    EngineNodes[4], EngineNodes[6], EngineNodes[7], EngineNodes[5]]

  const EngineIds: set<string> := {"fx", "income", "expense", "debt", "asset", "tax", "shock", "metrics"}

  lemma EngineIdSet()
    ensures IdSet(EngineNodes) == EngineIds
  {
    forall x | x in EngineIds
      ensures x in IdSet(EngineNodes)
    {
      IdSetMember(EngineNodes, x);
      if x == "fx" { assert EngineNodes[0].id == x; }
      else if x == "income" { assert EngineNodes[1].id == x; }
      else if x == "expense" { assert EngineNodes[2].id == x; }
      else if x == "debt" { assert EngineNodes[3].id == x; }
      else if x == "asset" { assert EngineNodes[4].id == x; }
      else if x == "tax" { assert EngineNodes[5].id == x; }
      else if x == "shock" { assert EngineNodes[6].id == x; }
      else { assert EngineNodes[7].id == x; }
    }
  }

  /** The dependencies each engine component declares. */
  function EngineDeps(u: string): seq<string> {
    if u == "expense" then ["income"]
    else if u == "debt" then ["income", "expense"]
    else if u == "asset" then ["income", "expense", "debt"]
    else if u == "tax" then ["income", "expense", "debt", "asset"]
    else if u == "shock" then ["income", "expense"]
    else if u == "metrics" then ["income", "expense", "debt", "asset", "shock"]
    else []
  }

  lemma EngineNodeDeps()
    ensures forall n :: n in EngineNodes ==> n.deps == EngineDeps(n.id)
  {
  }

  /** A component is ready once every dependency it declares is done. */
  lemma ReadyMeans(done: set<string>, u: string)
    ensures Ready(EngineNodes, done, u) <==>
              u in EngineIds && u !in done && forall d :: d in EngineDeps(u) ==> d in done
  {
    EngineIdSet();
    EngineNodeDeps();
  }

  /** Each step of the canonical order adds its component's id. */
  lemma PrefixSnoc(k: nat)
    requires 0 < k <= 8
    ensures IdSet(EngineOrder[..k]) == IdSet(EngineOrder[..k - 1]) + {OrderId(k - 1)}
  {
    var p := EngineOrder[..k];
    IdSetSnoc(p);
    assert p[..k - 1] == EngineOrder[..k - 1];
    OrderIds(k - 1);
  }

  /** The emitted prefixes of the canonical order, as id sets. */
  lemma {:induction false} PrefixDone(k: nat)
    requires k < 8
    ensures IdSet(EngineOrder[..k]) == DoneBefore(k)
  {
    if k > 0 {
      PrefixDone(k - 1);
      PrefixSnoc(k);
      if k == 1 {
      } else if k == 2 {
      } else if k == 3 {
      } else if k == 4 {
      } else if k == 5 {
      } else if k == 6 {
      } else {
      }
    }
  }

  /** The components ready after the first `k` of the canonical order. */
  function ReadyAfter(k: nat): set<string> {
    if k == 0 then {"fx", "income"} else if k == 1 then {"income"} else if k == 2 then {"expense"}
    else if k == 3 then {"debt", "shock"} else if k == 4 then {"asset", "shock"}
    else if k == 5 then {"shock", "tax"} else if k == 6 then {"metrics", "tax"} else {"tax"}
  }

  /** The ids emitted before step `k`. */
  function DoneBefore(k: nat): set<string> {
    if k == 0 then {} else if k == 1 then {"fx"} else if k == 2 then {"fx", "income"}
    else if k == 3 then {"fx", "income", "expense"} else if k == 4 then {"fx", "income", "expense", "debt"}
    else if k == 5 then {"fx", "income", "expense", "debt", "asset"}
    else if k == 6 then {"fx", "income", "expense", "debt", "asset", "shock"}
    else {"fx", "income", "expense", "debt", "asset", "shock", "metrics"}
  }

  lemma ReadyAt(k: nat, u: string)
    requires k < 8
    requires u in EngineIds && u !in DoneBefore(k) && forall d :: d in EngineDeps(u) ==> d in DoneBefore(k)
    ensures u in ReadyAfter(k)
  {
    if u == "fx" {
    } else if u == "income" {
    } else if u == "expense" {
      assert "income" in EngineDeps(u);
    } else if u == "debt" {
      assert "expense" in EngineDeps(u);
    } else if u == "asset" {
      assert "debt" in EngineDeps(u);
    } else if u == "tax" {
      assert "asset" in EngineDeps(u);
    } else if u == "shock" {
      assert "expense" in EngineDeps(u);
    } else {
      assert "shock" in EngineDeps(u);
    }
  }

  /** At each step the component emitted is the least of the ready ones. */
  lemma LeastReady(k: nat)
    requires k < 8
    ensures EngineOrder[k].id in ReadyAfter(k)
    ensures forall u :: u in ReadyAfter(k) ==> u == EngineOrder[k].id || LexLess(EngineOrder[k].id, u)
  {
  }

  /** The id emitted at step `k`. */
  function OrderId(k: nat): string {
    if k == 0 then "fx" else if k == 1 then "income" else if k == 2 then "expense"
    else if k == 3 then "debt" else if k == 4 then "asset" else if k == 5 then "shock"
    else if k == 6 then "metrics" else "tax"
  }

  lemma OrderIds(k: nat)
    requires k < 8
    ensures EngineOrder[k].id == OrderId(k)
  {
  }

  /** The component emitted at step `k` is ready then. */
  lemma EmittedReady(k: nat)
    requires k < 8
    ensures OrderId(k) in EngineIds && OrderId(k) !in DoneBefore(k)
    ensures forall d :: d in EngineDeps(OrderId(k)) ==> d in DoneBefore(k)
  {
    if k == 0 {
    } else if k == 1 {
    } else if k == 2 {
    } else if k == 3 {
    } else if k == 4 {
    } else if k == 5 {
    } else if k == 6 {
    } else {
    }
  }

  lemma NextLiteral(k: nat)
    requires k < 8
    ensures IsNextReady(EngineNodes, DoneBefore(k), OrderId(k))
  {
    forall u | Ready(EngineNodes, DoneBefore(k), u)
      ensures u == OrderId(k) || LexLess(OrderId(k), u)
    {
      ReadyMeans(DoneBefore(k), u);
      ReadyAt(k, u);
      LeastReady(k);
    }
    ReadyMeans(DoneBefore(k), OrderId(k));
    EmittedReady(k);
  }

  lemma NextStep(k: nat)
    requires k < |EngineOrder|
    ensures IsNextReady(EngineNodes, IdSet(EngineOrder[..k]), EngineOrder[k].id)
  {
    PrefixDone(k);
    OrderIds(k);
    NextLiteral(k);
  }

  lemma OrderMembers()
    ensures DistinctIds(EngineNodes) && DistinctIds(EngineOrder)
    ensures forall k :: 0 <= k < |EngineOrder| ==> EngineOrder[k] in EngineNodes
    ensures forall n :: n in EngineNodes ==> n in EngineOrder
  {
  }

  /** For the eight engine components the sort's order is fx, income,
      expense, debt, asset, shock, metrics, tax: tax runs after metrics. */
  lemma EngineOrderIsKahn()
    ensures IsKahnOrder(EngineNodes, EngineOrder)
  {
    OrderMembers();
    forall k | 0 <= k < |EngineOrder|
      ensures IsNextReady(EngineNodes, IdSet(EngineOrder[..k]), EngineOrder[k].id)
    {
      NextStep(k);
    }
  }

  /** Every declared dependency names an engine component, the ids are
      distinct and no cycle core exists, so the sort cannot fail. */
  lemma EngineSortSucceeds()
    ensures forall e :: e in Edges(EngineNodes) ==> e.0 in IdSet(EngineNodes)
    ensures DistinctIds(EngineNodes)
    ensures forall stuck :: !CycleCore(EngineNodes, stuck)
    ensures IsKahnOrder(EngineNodes, EngineOrder)
  {
    EngineIdSet();
    EngineOrderIsKahn();
    forall e | e in Edges(EngineNodes)
      ensures e.0 in IdSet(EngineNodes)
    {
      EdgesMember(EngineNodes, e);
    }
    KahnRespectsDeps(EngineNodes, EngineOrder);
    forall stuck
      ensures !CycleCore(EngineNodes, stuck)
    {
      if CycleCore(EngineNodes, stuck) {
        CycleExcludesOrder(EngineNodes, stuck, EngineOrder);
      }
    }
  }

  /** The ids of a node list, in order. */
  function Ids(s: seq<NodeDecl>): seq<string> {
    seq(|s|, j requires 0 <= j < |s| => s[j].id)
  }

  /** The one order the sort may return for the engine. */
  lemma EngineOrderIds(s: seq<NodeDecl>)
    requires IsKahnOrder(EngineNodes, s)
    ensures Ids(s) == ["fx", "income", "expense", "debt", "asset", "shock", "metrics", "tax"]
  {
    EngineOrderIsKahn();
    KahnOrderUnique(EngineNodes, s, EngineOrder);
  }

  /** The ids of the sorted components, as `simulate` runs them. */
  method SortEngine() returns (order: seq<string>)
    ensures order == ["fx", "income", "expense", "debt", "asset", "shock", "metrics", "tax"]
  {
    EngineSortSucceeds();
    var r := TopologicalSort(EngineNodes);
    assert r.Ok?;
    EngineOrderIds(r.value);
    order := IdsOf(r.value);
  }

  method IdsOf(s: seq<NodeDecl>) returns (order: seq<string>)
    ensures order == Ids(s)
  {
    order := [];
    var i := 0;
    while i < |s|
      invariant 0 <= i <= |s|
      invariant order == Ids(s[..i])
    {
      order := order + [s[i].id];
      i := i + 1;
    }
    assert s[..i] == s;
  }

  // ---------------------------------------------------------------------
  // One day

  /** The state together with the two components that keep fields from one
      day to the next (the others recompute theirs in every `prepare`). */
  datatype Engine = Engine(state: DayState, tax: Tax.TaxLedger, shocks: Shocks.ShockLedger)

  /** What a run needs of its inputs: positive base rates and a volatility
      strictly between -10 and 10 (which keep every computed rate positive), positive rates in
      every override, and a host whose sine lies in [-1, 1] and whose
      exponential is positive. */
  ghost predicate EngineReady(input: SimulationInput, opts: RuntimeOptions, m: HostMath) {
    && PositiveRates(input.fx.baseRates)
    && -10.0 < input.fx.volatility < 10.0
    && SoundMath(m)
    && forall d :: d in opts.fxRatesByDay ==> PositiveRates(opts.fxRatesByDay[d])
  }

  /** Every day's rates are positive. */
  lemma DayRatesPositive(day: int, input: SimulationInput, opts: RuntimeOptions, m: HostMath)
    requires EngineReady(input, opts, m)
    ensures PositiveRates(RatesForDay(day, opts, input.fx, m))
  {
    OverrideWins(day, opts, input.fx, m);
    if day !in opts.fxRatesByDay {
      DeterministicRatesPositive(day, input.fx.baseRates, input.fx.volatility, m);
    }
  }

  /** The first half of a day: the copied state takes the day and the
      day's rates, then income is credited, expenses debited and debts
      serviced. */
  function Morning(day: int, st: DayState, input: SimulationInput, opts: RuntimeOptions, m: HostMath): (r: DayState)
    requires PositiveRates(RatesForDay(day, opts, input.fx, m))
    ensures r.day == day && r.fxRates == RatesForDay(day, opts, input.fx, m)
    ensures r.creditScore == st.creditScore && r.taxesPaid == st.taxesPaid && r.shockImpact == st.shockImpact
  {
    var base := input.baseCurrency;
    var rates := RatesForDay(day, opts, input.fx, m);
    var s1 := CloneState(st).(day := day).(fxRates := rates);
    var income := Income.DailyIncome(input.incomes, day, base, rates);
    var s2 := s1.(balance := s1.balance + income, totalIncome := s1.totalIncome + income);
    var expense := Expenses.DailyExpense(input.expenses, base, rates);
    var s3 := s2.(balance := s2.balance - expense, totalExpenses := s2.totalExpenses + expense);
    Debts.ApplyPlan(input.debts, Debts.PlanDebts(input.debts, day, s3, base), s3)
  }

  /** One day of the engine: each component in the sorted order prepares on
      the current state and applies to it: fx, income, expense and debt
      (the morning), then asset, shock, metrics and tax. */
  ghost function DayStep(day: int, e: Engine, input: SimulationInput, opts: RuntimeOptions, m: HostMath): Engine
    requires PositiveRates(RatesForDay(day, opts, input.fx, m))
  {
    var s4 := Morning(day, e.state, input, opts, m);
    var s5 := Assets.ApplyAssets(input.assets, input.baseCurrency, opts.liquidationOrder,
                                 Assets.ValuationChanges(input.assets, s4.assets),
                                 Assets.LiquidationWanted(s4, input.cashReserveRatio), s4);
    var sh := Shocks.PrepareShocks(day, s5, input, e.shocks);
    var s6 := Shocks.ApplyShocks(sh.dayImpact, s5);
    var s7 := Metrics.ApplyMetrics(day, s6);
    var tx := Tax.PrepareTax(day, s7, input.taxBrackets, e.tax);
    Engine(Tax.ApplyTax(tx.taxDue, s7), tx, sh)
  }

  /** What one day keeps: the day is stamped, the day's rates are in the
      state, the credit score stays in [300, 850], taxes paid never go down
      and the list of fired shocks only grows, by firings stamped with the
      day. */
  lemma DayStepFacts(day: int, e: Engine, input: SimulationInput, opts: RuntimeOptions, m: HostMath)
    requires PositiveRates(RatesForDay(day, opts, input.fx, m))
    requires 300.0 <= e.state.creditScore <= 850.0
    ensures var r := DayStep(day, e, input, opts, m);
            && r.state.day == day && r.state.fxRates == RatesForDay(day, opts, input.fx, m)
            && 300.0 <= r.state.creditScore <= 850.0
            && r.state.taxesPaid >= e.state.taxesPaid
            && |r.shocks.firedShocks| >= |e.shocks.firedShocks|
            && r.shocks.firedShocks[..|e.shocks.firedShocks|] == e.shocks.firedShocks
            && forall j :: |e.shocks.firedShocks| <= j < |r.shocks.firedShocks| ==> r.shocks.firedShocks[j].day == day
  {
    DayStepState(day, e, input, opts, m);
    DayStepFirings(day, e, input, opts, m);
  }

  lemma DayStepState(day: int, e: Engine, input: SimulationInput, opts: RuntimeOptions, m: HostMath)
    requires PositiveRates(RatesForDay(day, opts, input.fx, m))
    requires 300.0 <= e.state.creditScore <= 850.0
    ensures var r := DayStep(day, e, input, opts, m);
            && r.state.day == day && r.state.fxRates == RatesForDay(day, opts, input.fx, m)
            && 300.0 <= r.state.creditScore <= 850.0
            && r.state.taxesPaid >= e.state.taxesPaid
  {
    var s4 := Morning(day, e.state, input, opts, m);
    var s5 := Assets.ApplyAssets(input.assets, input.baseCurrency, opts.liquidationOrder,
                                 Assets.ValuationChanges(input.assets, s4.assets),
                                 Assets.LiquidationWanted(s4, input.cashReserveRatio), s4);
    var sh := Shocks.PrepareShocks(day, s5, input, e.shocks);
    var s6 := Shocks.ApplyShocks(sh.dayImpact, s5);
    Metrics.ApplyMetricsFrame(day, s6);
  }

  lemma DayStepFirings(day: int, e: Engine, input: SimulationInput, opts: RuntimeOptions, m: HostMath)
    requires PositiveRates(RatesForDay(day, opts, input.fx, m))
    ensures var r := DayStep(day, e, input, opts, m);
            && |r.shocks.firedShocks| >= |e.shocks.firedShocks|
            && r.shocks.firedShocks[..|e.shocks.firedShocks|] == e.shocks.firedShocks
            && forall j :: |e.shocks.firedShocks| <= j < |r.shocks.firedShocks| ==> r.shocks.firedShocks[j].day == day
  {
    var s4 := Morning(day, e.state, input, opts, m);
    var s5 := Assets.ApplyAssets(input.assets, input.baseCurrency, opts.liquidationOrder,
                                 Assets.ValuationChanges(input.assets, s4.assets),
                                 Assets.LiquidationWanted(s4, input.cashReserveRatio), s4);
    Shocks.PrepareAppends(day, s5, input, e.shocks);
  }

  /** `buildNodes`: one object per component; the shock component is also
      read after the run for the list of fired shocks. */
  class Components {
    const fx: FXNode
    const income: Income.IncomeNode
    const expense: Expenses.ExpenseNode
    const debt: Debts.DebtNode
    const asset: Assets.AssetNode
    const tax: Tax.TaxNode
    const shock: Shocks.ShockNode
    const metrics: Metrics.MetricsNode

    constructor(opts: RuntimeOptions)
      ensures fx.options == opts && asset.options == opts
      ensures tax.Ledger() == Tax.InitialLedger && shock.Ledger() == Shocks.ShockLedger([], 0.0)
      ensures fresh(fx) && fresh(income) && fresh(expense) && fresh(debt) && fresh(asset) && fresh(tax) && fresh(shock)
    {
      income := new Income.IncomeNode();
      expense := new Expenses.ExpenseNode();
      debt := new Debts.DebtNode();
      asset := new Assets.AssetNode(opts);
      tax := new Tax.TaxNode();
      fx := new FXNode(opts);
      shock := new Shocks.ShockNode();
      metrics := new Metrics.MetricsNode();
    }
  }

  /** The morning with the components as objects: each `prepare` reads the
      state as the earlier `apply`s left it. */
  method RunMorning(day: int, st: DayState, input: SimulationInput, m: HostMath,
                    fx: FXNode, income: Income.IncomeNode, expense: Expenses.ExpenseNode, debt: Debts.DebtNode)
    returns (r: DayState)
    requires PositiveRates(RatesForDay(day, fx.options, input.fx, m))
    modifies fx, income, expense, debt
    ensures r == Morning(day, st, input, fx.options, m)
  {
    r := CloneState(st);
    r := r.(day := day);
    fx.Prepare(day, input, m);
    r := fx.Apply(r);
    income.Prepare(day, r, input);
    r := income.Apply(r);
    expense.Prepare(r, input);
    r := expense.Apply(r);
    debt.Prepare(day, r, input);
    r := debt.Apply(r, input);
  }

  /** `simulate`'s inner loop for one day, the components run in the sorted
      order. */
  method RunDay(day: int, st: DayState, input: SimulationInput, m: HostMath,
                fx: FXNode, income: Income.IncomeNode, expense: Expenses.ExpenseNode, debt: Debts.DebtNode,
                asset: Assets.AssetNode, shock: Shocks.ShockNode, metrics: Metrics.MetricsNode, tax: Tax.TaxNode)
    returns (r: DayState)
    requires asset.options == fx.options
    requires PositiveRates(RatesForDay(day, fx.options, input.fx, m))
    modifies fx, income, expense, debt, asset, shock, tax
    ensures Engine(r, tax.Ledger(), shock.Ledger()) ==
            DayStep(day, Engine(st, old(tax.Ledger()), old(shock.Ledger())), input, fx.options, m)
  {
    r := RunMorning(day, st, input, m, fx, income, expense, debt);
    asset.Prepare(r, input);
    r := asset.Apply(r, input);
    shock.Prepare(day, r, input);
    r := shock.Apply(r);
    r := metrics.Apply(day, r);
    tax.Prepare(day, r, input);
    r := tax.Apply(r);
  }

  // ---------------------------------------------------------------------
  // Quantile bands and the composite volatility

  /** The two bands of a value. */
  datatype Bands = Bands(p5: real, p95: real)

  /** `computeQuantileBands`: a lognormal-like spread with z-scores of
      -1.645 and 1.645 and sigma = volatility * sqrt(day / 365); none on
      day 0 or without volatility. */
  function QuantileBands(expected: real, day: int, volatility: real, m: HostMath): Bands {
    if day == 0 || volatility == 0.0 then Bands(expected, expected)
    else
      var sigma := Sigma(volatility, m.sqrt(day as real / 365.0));
      Bands(Spread(expected, m.exp(-1.645 * sigma - 0.5 * sigma * sigma)),
            Spread(expected, m.exp(1.645 * sigma - 0.5 * sigma * sigma)))
  }

  function Sigma(volatility: real, rootTime: real): real {
    volatility * rootTime
  }

  function Spread(expected: real, factor: real): real {
    expected * factor
  }

  /** Both bands have the sign of the value (the host's exponential is
      positive), and on day 0 or without volatility they are the value. */
  lemma QuantileBandsFacts(expected: real, day: int, volatility: real, m: HostMath)
    requires SoundMath(m)
    ensures var b := QuantileBands(expected, day, volatility, m);
            && (day == 0 || volatility == 0.0 ==> b.p5 == expected && b.p95 == expected)
            && (expected > 0.0 ==> b.p5 > 0.0 && b.p95 > 0.0)
            && (expected < 0.0 ==> b.p5 < 0.0 && b.p95 < 0.0)
            && (expected == 0.0 ==> b.p5 == 0.0 && b.p95 == 0.0)
  {
    if day != 0 && volatility != 0.0 {
      var sigma := Sigma(volatility, m.sqrt(day as real / 365.0));
      SpreadSign(expected, m.exp(-1.645 * sigma - 0.5 * sigma * sigma));
      SpreadSign(expected, m.exp(1.645 * sigma - 0.5 * sigma * sigma));
    }
  }

  lemma SpreadSign(expected: real, factor: real)
    requires factor > 0.0
    ensures expected > 0.0 ==> Spread(expected, factor) > 0.0
    ensures expected < 0.0 ==> Spread(expected, factor) < 0.0
    ensures expected == 0.0 ==> Spread(expected, factor) == 0.0
  {
  }

  function Weighted(a: Asset): real {
    a.volatility * a.value
  }

  function WeightedVolatility(assets: seq<Asset>): real {
    if |assets| == 0 then 0.0 else WeightedVolatility(assets[..|assets| - 1]) + Weighted(assets[|assets| - 1])
  }

  function TotalValue(assets: seq<Asset>): real {
    if |assets| == 0 then 0.0 else TotalValue(assets[..|assets| - 1]) + assets[|assets| - 1].value
  }

  /** The volatility of the bands: the asset volatilities weighted by the
      assets' starting values, over at least 1; 0.1 without assets. */
  function CompositeVolatility(assets: seq<Asset>): real {
    if |assets| > 0 then WeightedVolatility(assets) / Max(1.0, TotalValue(assets)) else 0.1
  }

  lemma WeightedBounded(a: Asset, hi: real)
    requires 0.0 <= a.volatility <= hi && a.value >= 0.0
    ensures 0.0 <= Weighted(a) <= hi * a.value
  {
    assert a.volatility * a.value <= hi * a.value;
  }

  lemma {:induction false} WeightedSumBounded(assets: seq<Asset>, hi: real)
    requires forall i :: 0 <= i < |assets| ==> 0.0 <= assets[i].volatility <= hi && assets[i].value >= 0.0
    ensures 0.0 <= WeightedVolatility(assets) <= hi * TotalValue(assets)
    ensures TotalValue(assets) >= 0.0
  {
    if |assets| > 0 {
      WeightedSumBounded(assets[..|assets| - 1], hi);
      WeightedBounded(assets[|assets| - 1], hi);
    }
  }

  /** With non-negative values and volatilities at most `hi`, the composite
      lies in [0, hi]: a weighted average over a total of at least 1. */
  lemma CompositeVolatilityBounds(assets: seq<Asset>, hi: real)
    requires |assets| > 0
    requires forall i :: 0 <= i < |assets| ==> 0.0 <= assets[i].volatility <= hi && assets[i].value >= 0.0
    ensures 0.0 <= CompositeVolatility(assets) <= hi
  {
    WeightedSumBounded(assets, hi);
    var w, t := WeightedVolatility(assets), Max(1.0, TotalValue(assets));
    assert hi >= 0.0 by {
      assert 0.0 <= assets[0].volatility <= hi;
    }
    MulLe(hi, TotalValue(assets), t);
    DivAtMost(w, t, hi);
  }

  lemma MulLe(a: real, x: real, y: real)
    requires a >= 0.0 && x <= y
    ensures a * x <= a * y
  {
  }

  lemma DivAtMost(w: real, t: real, hi: real)
    requires t >= 1.0 && 0.0 <= w <= hi * t
    ensures 0.0 <= w / t <= hi
  {
  }

  // ---------------------------------------------------------------------
  // The run

  /** What `simulate` carries from day to day: the engine, the snapshots and
      the three deficit counters. */
  datatype Tracker = Tracker(engine: Engine, daily: seq<DaySnapshot>, weekly: seq<DaySnapshot>,
                             deficitDays: int, consecutiveDeficit: int, maxDeficitStreak: int)

  /** The snapshot of a day's final state, with its quantile bands. */
  ghost function SnapshotOf(st: DayState, day: int, volatility: real, m: HostMath): DaySnapshot {
    var bb := QuantileBands(st.balance, day, volatility, m);
    var nb := QuantileBands(Nav(st), day, volatility, m);
    DaySnapshot(st.day, st.balance, Nav(st), st.creditScore, bb.p5, bb.p95, nb.p5, nb.p95)
  }

  /** Before day 0. */
  function Start(input: SimulationInput, opts: RuntimeOptions): Tracker {
    Tracker(Engine(InitialState(input, opts), Tax.InitialLedger, Shocks.ShockLedger([], 0.0)), [], [], 0, 0, 0)
  }

  /** The bookkeeping after a day's components have run: the deficit
      counters, and the day's snapshot appended to the daily list and, on
      every seventh day, to the weekly list. */
  ghost function Track(day: int, e: Engine, t: Tracker, volatility: real, m: HostMath): Tracker {
    var deficit := e.state.balance < 0.0;
    var consecutive := if deficit then t.consecutiveDeficit + 1 else 0;
    var snap := SnapshotOf(e.state, day, volatility, m);
    Tracker(e, t.daily + [snap], if day % 7 == 0 then t.weekly + [snap] else t.weekly,
            if deficit then t.deficitDays + 1 else t.deficitDays,
            consecutive,
            if deficit && consecutive > t.maxDeficitStreak then consecutive else t.maxDeficitStreak)
  }

  /** The tracker after days 0 .. n - 1. */
  ghost function Run(n: nat, input: SimulationInput, opts: RuntimeOptions, m: HostMath): Tracker
    requires EngineReady(input, opts, m)
    decreases n, 2
  {
    if n == 0 then Start(input, opts) else AfterDay(n - 1, input, opts, m)
  }

  /** The tracker once day `day` has run: the day's bookkeeping on the
      engine the day leaves. */
  ghost function AfterDay(day: nat, input: SimulationInput, opts: RuntimeOptions, m: HostMath): Tracker
    requires EngineReady(input, opts, m)
    decreases day + 1, 1
  {
    Track(day, EngineAfter(day, input, opts, m), Run(day, input, opts, m), CompositeVolatility(input.assets), m)
  }

  /** The engine once day `day` has run on the one the earlier days left. */
  ghost function EngineAfter(day: nat, input: SimulationInput, opts: RuntimeOptions, m: HostMath): Engine
    requires EngineReady(input, opts, m)
    decreases day + 1, 0
  {
    DayRatesPositive(day, input, opts, m);
    DayStep(day, Run(day, input, opts, m).engine, input, opts, m)
  }

  /** Day `n` of the loop turns the tracker after `n` days into the one
      after `n + 1`; the bookkeeping does not read the old engine. */
  lemma RunSucc(n: nat, input: SimulationInput, opts: RuntimeOptions, m: HostMath)
    requires EngineReady(input, opts, m)
    ensures PositiveRates(RatesForDay(n, opts, input.fx, m))
    ensures var t := Run(n, input, opts, m);
            var e := DayStep(n, t.engine, input, opts, m);
            Run(n + 1, input, opts, m) ==
              Track(n, e, Tracker(e, t.daily, t.weekly, t.deficitDays, t.consecutiveDeficit, t.maxDeficitStreak),
                    CompositeVolatility(input.assets), m)
  {
    DayRatesPositive(n, input, opts, m);
    RunTrackStep(n, input, opts, m);
    RunEngineStep(n, input, opts, m);
  }

  /** The tracker after `n + 1` days is day `n`'s bookkeeping on the one
      after `n` days. */
  lemma RunTrackStep(n: nat, input: SimulationInput, opts: RuntimeOptions, m: HostMath)
    requires EngineReady(input, opts, m)
    ensures Run(n + 1, input, opts, m) ==
            Track(n, EngineAfter(n, input, opts, m), Run(n, input, opts, m), CompositeVolatility(input.assets), m)
  {
    assert Run(n + 1, input, opts, m) == AfterDay(n, input, opts, m);
  }

  /** The engine after day `n` is one day of the engine on the one the
      earlier days left. */
  lemma RunEngineStep(n: nat, input: SimulationInput, opts: RuntimeOptions, m: HostMath)
    requires EngineReady(input, opts, m)
    ensures PositiveRates(RatesForDay(n, opts, input.fx, m))
    ensures Run(n + 1, input, opts, m).engine == EngineAfter(n, input, opts, m)
    ensures EngineAfter(n, input, opts, m) == DayStep(n, Run(n, input, opts, m).engine, input, opts, m)
  {
    DayRatesPositive(n, input, opts, m);
    RunTrackStep(n, input, opts, m);
  }

  /** The tracker after `n > 0` days is day `n - 1`'s bookkeeping on the one
      after `n - 1` days. */
  lemma RunTrackPrev(n: nat, input: SimulationInput, opts: RuntimeOptions, m: HostMath)
    requires EngineReady(input, opts, m) && n > 0
    ensures Run(n, input, opts, m) ==
            Track(n - 1, EngineAfter(n - 1, input, opts, m), Run(n - 1, input, opts, m), CompositeVolatility(input.assets), m)
  {
    assert Run(n, input, opts, m) == AfterDay(n - 1, input, opts, m);
  }

  /** The engine after `n > 0` days is one day of the engine on the one the
      first `n - 1` days left. */
  lemma RunEnginePrev(n: nat, input: SimulationInput, opts: RuntimeOptions, m: HostMath)
    requires EngineReady(input, opts, m) && n > 0
    ensures PositiveRates(RatesForDay(n - 1, opts, input.fx, m))
    ensures Run(n, input, opts, m).engine == EngineAfter(n - 1, input, opts, m)
    ensures EngineAfter(n - 1, input, opts, m) == DayStep(n - 1, Run(n - 1, input, opts, m).engine, input, opts, m)
  {
    DayRatesPositive(n - 1, input, opts, m);
    RunTrackPrev(n, input, opts, m);
  }

  /** What day `n - 1` keeps, read off the engines before and after it. */
  lemma EngineAfterFacts(n: nat, input: SimulationInput, opts: RuntimeOptions, m: HostMath)
    requires EngineReady(input, opts, m) && n > 0
    requires 300.0 <= Run(n - 1, input, opts, m).engine.state.creditScore <= 850.0
    ensures var e, r := Run(n - 1, input, opts, m).engine, Run(n, input, opts, m).engine;
            && r.state.day == n - 1
            && 300.0 <= r.state.creditScore <= 850.0
            && r.state.taxesPaid >= e.state.taxesPaid
            && |r.shocks.firedShocks| >= |e.shocks.firedShocks|
            && r.shocks.firedShocks[..|e.shocks.firedShocks|] == e.shocks.firedShocks
            && forall j :: |e.shocks.firedShocks| <= j < |r.shocks.firedShocks| ==> r.shocks.firedShocks[j].day == n - 1
  {
    RunEnginePrev(n, input, opts, m);
    DayStepFacts(n - 1, Run(n - 1, input, opts, m).engine, input, opts, m);
  }

  // ---------------------------------------------------------------------
  // The summary

  /** `liquidityRatio`: cash over cash plus assets when assets are positive
      (-Infinity when that sum is 0, the cash then being negative), else 1
      for positive cash and 0 otherwise. */
  function LiquidityRatio(balance: real, totalAssets: real): Ratio {
    if totalAssets > 0.0 then
      if balance + totalAssets == 0.0 then MinusInfinity else Ratio.Finite(balance / (balance + totalAssets))
    else Ratio.Finite(if balance > 0.0 then 1.0 else 0.0)
  }

  /** Debt payments over income, 0 without income. */
  function DebtServiceRatio(totalDebtPayments: real, totalIncome: real): real {
    if totalIncome > 0.0 then totalDebtPayments / totalIncome else 0.0
  }

  /** The weighted risk score of `computeCollapseProbability`. */
  function RiskScore(liquidityRatio: real, debtServiceRatio: real, deficitStreak: int, creditScore: real): real {
    0.3 * Max(0.0, 1.0 - liquidityRatio * 5.0) + 0.25 * Min(1.0, debtServiceRatio * 2.0) +
    0.25 * Min(1.0, deficitStreak as real / 90.0) + 0.2 * Max(0.0, (650.0 - creditScore) / 350.0)
  }

  /** The logistic map of the risk score.  A ratio of -Infinity makes the
      liquidity risk and the score +Infinity, the exponential 0 and the
      probability exactly 1. */
  function CollapseProbability(lr: Ratio, debtServiceRatio: real, deficitStreak: int, creditScore: real, m: HostMath): real
    requires SoundMath(m)
  {
    match lr
    case MinusInfinity => 1.0
    case Finite(v) =>
      var e := m.exp(-10.0 * (RiskScore(v, debtServiceRatio, deficitStreak, creditScore) - 0.5));
      1.0 / (1.0 + e)
  }

  /** `computeShockClusteringDensity`: firings per 30 days of the run. */
  function ShockDensity(firedCount: int, horizonDays: int): real {
    (firedCount as real / (if horizonDays + 1 > 1 then horizonDays + 1 else 1) as real) * 30.0
  }

  function AbsTotal(fs: seq<FiredShock>): real {
    if |fs| == 0 then 0.0 else AbsTotal(fs[..|fs| - 1]) + Assets.Abs(fs[|fs| - 1].amount)
  }

  /** `computeShockIntensityAverage`: the mean absolute amount, 0 without
      firings. */
  function ShockIntensity(fs: seq<FiredShock>): real {
    if |fs| == 0 then 0.0 else AbsTotal(fs) / |fs| as real
  }

  /** The balance increases of the days that follow a deficit day and end
      higher than it, in day order. */
  function Recoveries(s: seq<DaySnapshot>): seq<real> {
    if |s| < 2 then []
    else
      var prev, cur := s[|s| - 2].balance, s[|s| - 1].balance;
      Recoveries(s[..|s| - 1]) + (if prev < 0.0 && cur > prev then [cur - prev] else [])
  }

  function Total(xs: seq<real>): real {
    if |xs| == 0 then 0.0 else Total(xs[..|xs| - 1]) + xs[|xs| - 1]
  }

  /** `computeRecoverySlope`: the mean recovery, 0 without one. */
  function RecoverySlopeOf(s: seq<DaySnapshot>): real {
    var r := Recoveries(s);
    if |r| > 0 then Total(r) / |r| as real else 0.0
  }

  /** `findIndex(s => s.balance < 0)`: the first deficit position, -1 if
      there is none. */
  function FirstDeficit(s: seq<DaySnapshot>): int {
    if |s| == 0 then -1
    else if s[0].balance < 0.0 then 0
    else
      var r := FirstDeficit(s[1..]);
      if r < 0 then -1 else r + 1
  }

  /** The summary of a finished run, from the final state, the snapshots,
      the deficit counters and the fired shocks. */
  ghost function SummaryOf(st: DayState, daily: seq<DaySnapshot>, deficitDays: int, consecutiveDeficit: int,
                           maxDeficitStreak: int, fired: seq<FiredShock>, horizonDays: int, m: HostMath): Summary
    requires |daily| > 0 && SoundMath(m)
  {
    var last := daily[|daily| - 1];
    var lr := LiquidityRatio(st.balance, SumValues(st.assets));
    var dsr := DebtServiceRatio(st.totalDebtPayments, st.totalIncome);
    Summary(last.balance, last.balanceP5, last.balanceP95, last.nav, last.navP5, last.navP95, st.creditScore,
            CollapseProbability(lr, dsr, consecutiveDeficit, st.creditScore, m),
            if maxDeficitStreak >= 90 then Some(FirstDeficit(daily)) else None,
            Metrics.Rsi(lr, dsr, st.creditScore, deficitDays),
            ShockDensity(|fired|, horizonDays),
            ShockIntensity(fired),
            RecoverySlopeOf(daily),
            Metrics.VibeTierOf(st.balance, Nav(st), st.creditScore, deficitDays, lr),
            lr, deficitDays, st.taxesPaid, st.realizedGains, st.assets)
  }

  /** `simulate`'s result: days 0 to the horizon, inclusive. */
  ghost function SimulationOf(input: SimulationInput, opts: RuntimeOptions, m: HostMath): SimulationResult
    requires EngineReady(input, opts, m) && input.horizonDays >= 0
  {
    var t := Run(input.horizonDays + 1, input, opts, m);
    RunLength(input.horizonDays + 1, input, opts, m);
    SimulationResult(input,
                     SummaryOf(t.engine.state, t.daily, t.deficitDays, t.consecutiveDeficit, t.maxDeficitStreak,
                               t.engine.shocks.firedShocks, input.horizonDays, m),
                     t.daily, t.weekly, t.engine.shocks.firedShocks)
  }

  lemma {:induction false} RunLength(n: nat, input: SimulationInput, opts: RuntimeOptions, m: HostMath)
    requires EngineReady(input, opts, m)
    ensures |Run(n, input, opts, m).daily| == n
  {
    if n > 0 {
      RunLength(n - 1, input, opts, m);
      RunTrackPrev(n, input, opts, m);
    }
  }

  /** `computeRecoverySlope`'s loop. */
  method RecoverySlope(s: seq<DaySnapshot>) returns (slope: real)
    ensures slope == RecoverySlopeOf(s)
  {
    var totalRecovery := 0.0;
    var recoveryPeriods := 0;
    ghost var r: seq<real> := [];
    var i := 1;
    while i < |s|
      invariant |s| > 0 ==> i <= |s| && r == Recoveries(s[..i])
      invariant |s| == 0 ==> r == []
      invariant totalRecovery == Total(r) && recoveryPeriods == |r|
    {
      RecoveriesStep(s, i);
      if s[i - 1].balance < 0.0 && s[i].balance > s[i - 1].balance {
        totalRecovery := totalRecovery + (s[i].balance - s[i - 1].balance);
        recoveryPeriods := recoveryPeriods + 1;
        TotalSnoc(r, s[i].balance - s[i - 1].balance);
        r := r + [s[i].balance - s[i - 1].balance];
      }
      i := i + 1;
    }
    if |s| > 0 {
      assert s[..i] == s;
    }
    slope := if recoveryPeriods > 0 then totalRecovery / recoveryPeriods as real else 0.0;
  }

  /** One more day adds its recovery, if it has one. */
  lemma RecoveriesStep(s: seq<DaySnapshot>, i: int)
    requires 1 <= i < |s|
    ensures Recoveries(s[..i + 1]) ==
            Recoveries(s[..i]) + (if s[i - 1].balance < 0.0 && s[i].balance > s[i - 1].balance
                                  then [s[i].balance - s[i - 1].balance] else [])
  {
    assert s[..i + 1][..i] == s[..i];
  }

  lemma TotalSnoc(xs: seq<real>, x: real)
    ensures Total(xs + [x]) == Total(xs) + x
  {
    assert (xs + [x])[..|xs|] == xs;
  }

  /** The loop's bookkeeping for one day, on the state the components left. */
  method Record(day: int, state: DayState, ghost e: Engine, daily: seq<DaySnapshot>, weekly: seq<DaySnapshot>,
                deficitDays: int, consecutiveDeficit: int, maxDeficitStreak: int, volatility: real, m: HostMath)
    returns (daily': seq<DaySnapshot>, weekly': seq<DaySnapshot>, deficitDays': int, consecutiveDeficit': int,
             maxDeficitStreak': int)
    requires e.state == state
    ensures Tracker(e, daily', weekly', deficitDays', consecutiveDeficit', maxDeficitStreak') ==
            Track(day, e, Tracker(e, daily, weekly, deficitDays, consecutiveDeficit, maxDeficitStreak), volatility, m)
  {
    deficitDays', consecutiveDeficit', maxDeficitStreak' := deficitDays, consecutiveDeficit, maxDeficitStreak;
    if state.balance < 0.0 {
      deficitDays' := deficitDays' + 1;
      consecutiveDeficit' := consecutiveDeficit' + 1;
      maxDeficitStreak' := if maxDeficitStreak' >= consecutiveDeficit' then maxDeficitStreak' else consecutiveDeficit';
    } else {
      consecutiveDeficit' := 0;
    }
    var balanceBands := QuantileBands(state.balance, day, volatility, m);
    var totalAssets := SumMap(state.assets);
    var totalDebts := SumMap(state.debts);
    var nav := state.balance + totalAssets - totalDebts;
    var navBands := QuantileBands(nav, day, volatility, m);
    var snapshot := StateToSnapshot(state, balanceBands.p5, balanceBands.p95, navBands.p5, navBands.p95);
    daily' := daily + [snapshot];
    weekly' := weekly;
    if day % 7 == 0 {
      weekly' := weekly + [snapshot];
    }
  }

  /** The summary as `simulate` computes it after the loop. */
  method Summarize(state: DayState, daily: seq<DaySnapshot>, deficitDays: int, consecutiveDeficit: int,
                   maxDeficitStreak: int, fired: seq<FiredShock>, horizonDays: int, m: HostMath)
    returns (summary: Summary)
    requires |daily| > 0 && SoundMath(m)
    ensures summary == SummaryOf(state, daily, deficitDays, consecutiveDeficit, maxDeficitStreak, fired, horizonDays, m)
  {
    var finalSnapshot := daily[|daily| - 1];
    var totalAssets := SumMap(state.assets);
    var totalDebts := SumMap(state.debts);
    var nav := state.balance + totalAssets - totalDebts;
    var liquidityRatio := LiquidityRatio(state.balance, totalAssets);
    var debtServiceRatio := DebtServiceRatio(state.totalDebtPayments, state.totalIncome);
    var recoverySlope := RecoverySlope(daily);
    summary := Summary(
      finalSnapshot.balance, finalSnapshot.balanceP5, finalSnapshot.balanceP95,
      finalSnapshot.nav, finalSnapshot.navP5, finalSnapshot.navP95,
      state.creditScore,
      CollapseProbability(liquidityRatio, debtServiceRatio, consecutiveDeficit, state.creditScore, m),
      if maxDeficitStreak >= 90 then Some(FirstDeficit(daily)) else None,
      Metrics.Rsi(liquidityRatio, debtServiceRatio, state.creditScore, deficitDays),
      ShockDensity(|fired|, horizonDays),
      ShockIntensity(fired),
      recoverySlope,
      Metrics.VibeTierOf(state.balance, nav, state.creditScore, deficitDays, liquidityRatio),
      liquidityRatio, deficitDays, state.taxesPaid, state.realizedGains, state.assets);
  }

  /** One iteration of the daily loop: the components, then the
      bookkeeping. */
  method Advance(day: nat, state: DayState, daily: seq<DaySnapshot>, weekly: seq<DaySnapshot>,
                 deficitDays: int, consecutiveDeficit: int, maxDeficitStreak: int, volatility: real,
                 input: SimulationInput, opts: RuntimeOptions, m: HostMath, c: Components)
    returns (state': DayState, daily': seq<DaySnapshot>, weekly': seq<DaySnapshot>,
             deficitDays': int, consecutiveDeficit': int, maxDeficitStreak': int)
    requires EngineReady(input, opts, m) && c.fx.options == opts && c.asset.options == opts
    requires volatility == CompositeVolatility(input.assets)
    requires Tracker(Engine(state, c.tax.Ledger(), c.shock.Ledger()), daily, weekly,
                     deficitDays, consecutiveDeficit, maxDeficitStreak) == Run(day, input, opts, m)
    modifies c.fx, c.income, c.expense, c.debt, c.asset, c.shock, c.tax
    ensures Tracker(Engine(state', c.tax.Ledger(), c.shock.Ledger()), daily', weekly',
                    deficitDays', consecutiveDeficit', maxDeficitStreak') ==
            Run(day + 1, input, opts, m)
  {
    RunSucc(day, input, opts, m);
    state' := RunDay(day, state, input, m, c.fx, c.income, c.expense, c.debt, c.asset, c.shock, c.metrics, c.tax);
    ghost var e := Engine(state', c.tax.Ledger(), c.shock.Ledger());
    daily', weekly', deficitDays', consecutiveDeficit', maxDeficitStreak' :=
      Record(day, state', e, daily, weekly, deficitDays, consecutiveDeficit, maxDeficitStreak, volatility, m);
  }

  /** `simulate`'s day loop from `day` on, the components and the tracker's fields
      standing where the run of the first `day` days leaves them. */
  method RunDays(day: nat, state: DayState, daily: seq<DaySnapshot>, weekly: seq<DaySnapshot>,
                 deficitDays: int, consecutiveDeficit: int, maxDeficitStreak: int, volatility: real,
                 input: SimulationInput, opts: RuntimeOptions, m: HostMath, c: Components)
    returns (t: Tracker)
    requires EngineReady(input, opts, m) && day <= input.horizonDays + 1
    requires c.fx.options == opts && c.asset.options == opts && volatility == CompositeVolatility(input.assets)
    requires Tracker(Engine(state, c.tax.Ledger(), c.shock.Ledger()), daily, weekly,
                     deficitDays, consecutiveDeficit, maxDeficitStreak) == Run(day, input, opts, m)
    modifies c.fx, c.income, c.expense, c.debt, c.asset, c.shock, c.tax
    ensures t == Run(input.horizonDays + 1, input, opts, m)
  {
    var d, st, dl, wk, dd, cd, mx := day, state, daily, weekly, deficitDays, consecutiveDeficit, maxDeficitStreak;
    while d <= input.horizonDays
      invariant day <= d <= input.horizonDays + 1
      invariant Tracker(Engine(st, c.tax.Ledger(), c.shock.Ledger()), dl, wk, dd, cd, mx) == Run(d, input, opts, m)
    {
      st, dl, wk, dd, cd, mx := Advance(d, st, dl, wk, dd, cd, mx, volatility, input, opts, m, c);
      d := d + 1;
    }
    t := Tracker(Engine(st, c.tax.Ledger(), c.shock.Ledger()), dl, wk, dd, cd, mx);
  }

  /** The components built fresh, the initial state, then every day from 0
      through the horizon. */
  method RunAll(input: SimulationInput, opts: RuntimeOptions, m: HostMath)
    returns (t: Tracker)
    requires EngineReady(input, opts, m) && input.horizonDays >= 0
    ensures t == Run(input.horizonDays + 1, input, opts, m)
  {
    var c := new Components(opts);
    var state := CreateInitialState(input, opts);
    t := RunDays(0, state, [], [], 0, 0, 0, CompositeVolatility(input.assets), input, opts, m, c);
  }

  /** `simulate` without the progress callback and the timing: sort the
      components, run the days, summarise. */
  method Simulate(input: SimulationInput, opts: RuntimeOptions, m: HostMath) returns (res: SimulationResult)
    requires EngineReady(input, opts, m) && input.horizonDays >= 0
    ensures res == SimulationOf(input, opts, m)
  {
    var order := SortEngine();
    var t := RunAll(input, opts, m);
    RunLength(input.horizonDays + 1, input, opts, m);
    var summary := Summarize(t.engine.state, t.daily, t.deficitDays, t.consecutiveDeficit, t.maxDeficitStreak,
                             t.engine.shocks.firedShocks, input.horizonDays, m);
    res := SimulationResult(input, summary, t.daily, t.weekly, t.engine.shocks.firedShocks);
  }

  // ---------------------------------------------------------------------
  // The counterfactual

  /** Every shock with `enabled` set to false, everything else kept. */
  function DisableShocks(shocks: seq<ShockPreset>): (r: seq<ShockPreset>)
    ensures |r| == |shocks|
    ensures forall i :: 0 <= i < |r| ==> !r[i].enabled && r[i] == shocks[i].(enabled := false)
  {
    if |shocks| == 0 then [] else DisableShocks(shocks[..|shocks| - 1]) + [shocks[|shocks| - 1].(enabled := false)]
  }

  /** Disabling is idempotent: a list whose shocks are all disabled is
      its own disabled list. */
  lemma DisableShocksFixed(shocks: seq<ShockPreset>)
    requires forall i :: 0 <= i < |shocks| ==> !shocks[i].enabled
    ensures DisableShocks(shocks) == shocks
  {
    var r := DisableShocks(shocks);
    assert forall i :: 0 <= i < |r| ==> r[i] == shocks[i];
  }

  /** The input of the run without shocks. */
  function WithoutShocks(input: SimulationInput): (r: SimulationInput)
    ensures r == input.(shocks := r.shocks) && |r.shocks| == |input.shocks|
    ensures forall i :: 0 <= i < |r.shocks| ==> !r.shocks[i].enabled
  {
    input.(shocks := DisableShocks(input.shocks))
  }

  /** `simulateWithCounterfactual`: the run as given, the run with every
      shock disabled, and what the shocks cost at the end of the horizon. */
  method SimulateWithCounterfactual(input: SimulationInput, opts: RuntimeOptions, m: HostMath)
    returns (res: CounterfactualResult)
    requires EngineReady(input, opts, m) && input.horizonDays >= 0
    ensures res.withShocks == SimulationOf(input, opts, m)
    ensures res.withoutShocks == SimulationOf(WithoutShocks(input), opts, m)
    ensures res.insights.balanceDeltaNoShocksVsActual ==
            res.withoutShocks.summary.finalBalance - res.withShocks.summary.finalBalance
    ensures res.insights.navDeltaNoShocksVsActual ==
            res.withoutShocks.summary.finalNav - res.withShocks.summary.finalNav
  {
    var withShocks := Simulate(input, opts, m);
    var withoutShocks := Simulate(WithoutShocks(input), opts, m);
    res := CounterfactualResult(withShocks, withoutShocks,
      CounterfactualInsights(withoutShocks.summary.finalBalance - withShocks.summary.finalBalance,
                             withoutShocks.summary.finalNav - withShocks.summary.finalNav));
  }
}
