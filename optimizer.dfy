/** PortfolioOptimizer.optimize_portfolio: Sharpe ratios per strategy, a
    stable sort by descending Sharpe ratio, and the greedy allocation loop
    that caps each strategy at its maximum allocation and the running total
    at 1. */
module Optimizer {
  import opened Common

  /** The keys read from each strategy dictionary; None is a missing key. */
  datatype StrategyInput = StrategyInput(
    name: Option<string>,
    expectedReturn: Option<real>,
    volatility: Option<real>,
    maxAllocation: Option<real>)

  datatype StrategyMetric = StrategyMetric(
    name: string, expectedReturn: real, volatility: real, sharpeRatio: real, maxAllocation: real)

  const RiskFreeRate: real := 0.05

  /** One entry of strategy_metrics; None when the volatility is zero (the
      division raises) or the required 'name' key is missing. */
  function MetricOf(s: StrategyInput): (r: Option<StrategyMetric>)
    ensures r.None? <==> s.volatility.GetOr(0.2) == 0.0 || s.name.None?
    ensures r.Some? ==>
      r.value.name == s.name.value &&
      r.value.sharpeRatio * r.value.volatility == r.value.expectedReturn - RiskFreeRate &&
      r.value.expectedReturn == s.expectedReturn.GetOr(0.1) &&
      r.value.volatility == s.volatility.GetOr(0.2) &&
      r.value.maxAllocation == s.maxAllocation.GetOr(0.3)
  {
    var expectedReturn := s.expectedReturn.GetOr(0.1);
    var volatility := s.volatility.GetOr(0.2);
    if volatility == 0.0 || s.name.None? then None
    else
      Some(StrategyMetric(s.name.value, expectedReturn, volatility,
                          (expectedReturn - RiskFreeRate) / volatility, s.maxAllocation.GetOr(0.3)))
  }

  /** The metrics of every strategy, in input order, or None if any of them fails. */
  function Metrics(ss: seq<StrategyInput>): (r: Option<seq<StrategyMetric>>)
    ensures r.Some? <==> forall i :: 0 <= i < |ss| ==> MetricOf(ss[i]).Some?
    ensures r.Some? ==> |r.value| == |ss| && forall i :: 0 <= i < |ss| ==> r.value[i] == MetricOf(ss[i]).value
  {
    if ss == [] then Some([])
    else
      match Metrics(ss[..|ss| - 1])
      case None => None
      case Some(front) =>
        match MetricOf(ss[|ss| - 1])
        case None => None
        case Some(m) => Some(front + [m])
  }

  // ---------------------------------------------------------------------
  // list.sort(key=sharpe_ratio, reverse=True)

  predicate Descending(ms: seq<StrategyMetric>) {
    forall i, j :: 0 <= i < j < |ms| ==> ms[i].sharpeRatio >= ms[j].sharpeRatio
  }

  /** Insert m after every entry whose Sharpe ratio is at least m's, so that
      equal keys keep their original order. */
  function InsertDescending(sorted: seq<StrategyMetric>, m: StrategyMetric): (r: seq<StrategyMetric>)
    ensures multiset(r) == multiset(sorted) + multiset{m}
    ensures |r| == |sorted| + 1
  {
    if sorted == [] then [m]
    else if sorted[|sorted| - 1].sharpeRatio >= m.sharpeRatio then sorted + [m]
    else
      var front := sorted[..|sorted| - 1];
      assert sorted == front + [sorted[|sorted| - 1]];
      InsertDescending(front, m) + [sorted[|sorted| - 1]]
  }

  lemma {:induction false} InsertKeepsDescending(sorted: seq<StrategyMetric>, m: StrategyMetric)
    requires Descending(sorted)
    ensures Descending(InsertDescending(sorted, m))
  {
    if sorted != [] && sorted[|sorted| - 1].sharpeRatio < m.sharpeRatio {
      var front := sorted[..|sorted| - 1];
      var last := sorted[|sorted| - 1];
      assert Descending(front);
      InsertKeepsDescending(front, m);
      var ins := InsertDescending(front, m);
      forall x | x in ins
        ensures x.sharpeRatio >= last.sharpeRatio
      {
        assert x in multiset(ins);
        if x != m {
          assert x in multiset(front);
          var k :| 0 <= k < |front| && front[k] == x;
          assert sorted[k] == x;
        }
      }
    }
  }

  /** Insertion sort by descending Sharpe ratio, stable like Python's sort. */
  function SortDescending(ms: seq<StrategyMetric>): (r: seq<StrategyMetric>)
    ensures multiset(r) == multiset(ms)
    ensures |r| == |ms|
  {
    if ms == [] then []
    else
      var front := ms[..|ms| - 1];
      assert ms == front + [ms[|ms| - 1]];
      InsertDescending(SortDescending(front), ms[|ms| - 1])
  }

  /** The strategies are visited in descending Sharpe order, and every
      strategy is visited: the sort is a permutation. */
  lemma {:induction false} SortDescendingSorts(ms: seq<StrategyMetric>)
    ensures Descending(SortDescending(ms))
    ensures multiset(SortDescending(ms)) == multiset(ms)
  {
    if ms != [] {
      SortDescendingSorts(ms[..|ms| - 1]);
      InsertKeepsDescending(SortDescending(ms[..|ms| - 1]), ms[|ms| - 1]);
    }
  }

  // ---------------------------------------------------------------------
  // The greedy allocation

  datatype Allocation = Allocation(allocation: real, capital: real, expectedReturn: real, volatility: real)

  /** available_capital * allocation */
  function CapitalShare(capital: real, allocation: real): real {
    capital * allocation
  }

  /** `allocations` as a dictionary: names in insertion order, each once. */
  type Allocations = seq<(string, Allocation)>

  predicate DistinctNames(allocs: Allocations) {
    forall i, j :: 0 <= i < j < |allocs| ==> allocs[i].0 != allocs[j].0
  }

  /** allocations[name] = a: overwrite in place when the name is present, else append. */
  function Upsert(allocs: Allocations, name: string, a: Allocation): (r: Allocations)
    ensures (name, a) in r
    ensures forall e :: e in allocs && e.0 != name ==> e in r
    ensures DistinctNames(allocs) ==>
      DistinctNames(r) && forall e :: e in r ==> e == (name, a) || (e in allocs && e.0 != name)
  {
    if allocs == [] then [(name, a)]
    else if allocs[0].0 == name then [(name, a)] + allocs[1..]
    else [allocs[0]] + Upsert(allocs[1..], name, a)
  }

  function SharpeSum(ms: seq<StrategyMetric>): real {
    if ms == [] then 0.0 else SharpeSum(ms[..|ms| - 1]) + ms[|ms| - 1].sharpeRatio
  }

  /** min(sharpe / sum of sharpes, max_allocation, 1 - total) */
  function NextAllocation(m: StrategyMetric, sharpeSum: real, total: real): (a: real)
    requires sharpeSum != 0.0
    ensures a <= m.maxAllocation && a <= 1.0 - total && a <= m.sharpeRatio / sharpeSum
    ensures a == m.maxAllocation || a == 1.0 - total || a == m.sharpeRatio / sharpeSum
  {
    MinReal(MinReal(m.sharpeRatio / sharpeSum, m.maxAllocation), 1.0 - total)
  }

  /** The allocation loop from a given running total and dictionary: stop at
      the end of the list or once the total reaches 1. */
  function Allocate(ms: seq<StrategyMetric>, sharpeSum: real, capital: real, total: real, allocs: Allocations)
    : (r: (real, Allocations))
    requires sharpeSum != 0.0
    decreases |ms|
  {
    if ms == [] || total >= 1.0 then (total, allocs)
    else
      var a := NextAllocation(ms[0], sharpeSum, total);
      Allocate(ms[1..], sharpeSum, capital, total + a,
               Upsert(allocs, ms[0].name, Allocation(a, CapitalShare(capital, a), ms[0].expectedReturn, ms[0].volatility)))
  }

  /** Every stored entry comes from some visited strategy of that name: its
      allocation is within that strategy's cap and its capital is the
      allocated share. */
  predicate Backed(allocs: Allocations, ms: seq<StrategyMetric>, capital: real) {
    forall e :: e in allocs ==>
      e.1.capital == CapitalShare(capital, e.1.allocation) &&
      exists m :: m in ms && m.name == e.0 && e.1.allocation <= m.maxAllocation &&
        e.1.expectedReturn == m.expectedReturn && e.1.volatility == m.volatility
  }

  /** Storing the next entry keeps every entry backed. */
  lemma UpsertBacked(allocs: Allocations, m: StrategyMetric, a: real, capital: real, all: seq<StrategyMetric>)
    requires DistinctNames(allocs) && Backed(allocs, all, capital)
    requires m in all && a <= m.maxAllocation
    ensures Backed(Upsert(allocs, m.name, Allocation(a, CapitalShare(capital, a), m.expectedReturn, m.volatility)), all, capital)
  {
    var entry := Allocation(a, CapitalShare(capital, a), m.expectedReturn, m.volatility);
    forall e | e in Upsert(allocs, m.name, entry)
      ensures e.1.capital == CapitalShare(capital, e.1.allocation) &&
        exists m' :: m' in all && m'.name == e.0 && e.1.allocation <= m'.maxAllocation &&
          e.1.expectedReturn == m'.expectedReturn && e.1.volatility == m'.volatility
    {
      if e != (m.name, entry) {
        assert e in allocs;
      }
    }
  }

  /** The loop keeps the running total at or below 1, the names distinct and
      every entry backed by a strategy and within its cap. */
  lemma {:induction false} AllocateInvariants(ms: seq<StrategyMetric>, sharpeSum: real, capital: real,
                                              total: real, allocs: Allocations, all: seq<StrategyMetric>)
    requires sharpeSum != 0.0
    requires total <= 1.0 && DistinctNames(allocs) && Backed(allocs, all, capital)
    requires forall m :: m in ms ==> m in all
    ensures var r := Allocate(ms, sharpeSum, capital, total, allocs);
      r.0 <= 1.0 && DistinctNames(r.1) && Backed(r.1, all, capital)
    decreases |ms|
  {
    if ms != [] && total < 1.0 {
      var m := ms[0];
      var a := NextAllocation(m, sharpeSum, total);
      var next := Upsert(allocs, m.name, Allocation(a, CapitalShare(capital, a), m.expectedReturn, m.volatility));
      assert Allocate(ms, sharpeSum, capital, total, allocs) == Allocate(ms[1..], sharpeSum, capital, total + a, next);
      assert m in all;
      UpsertBacked(allocs, m, a, capital, all);
      AllocateInvariants(ms[1..], sharpeSum, capital, total + a, next, all);
    }
  }

  datatype OptimizationResult = OptimizationResult(
    allocations: Allocations,
    totalAllocation: real,
    expectedPortfolioReturn: real,
    volatilitySquares: real)

  function CapitalReturn(e: (string, Allocation)): real {
    e.1.capital * e.1.expectedReturn
  }

  function CapitalVolatilitySquared(e: (string, Allocation)): real {
    (e.1.capital * e.1.volatility) * (e.1.capital * e.1.volatility)
  }

  /** optimize_portfolio as a value: None for the empty dictionary the source
      returns when any step raises (a zero volatility, a missing name, a zero
      Sharpe sum over a non-empty list, or zero capital). */
  function Optimize(ss: seq<StrategyInput>, availableCapital: real): Option<OptimizationResult> {
    match Metrics(ss)
    case None => None
    case Some(ms) =>
      var sorted := SortDescending(ms);
      var sharpeSum := SharpeSum(sorted);
      if sorted != [] && sharpeSum == 0.0 then None
      else if availableCapital == 0.0 then None
      else
        var r := if sorted == [] then (0.0, []) else Allocate(sorted, sharpeSum, availableCapital, 0.0, []);
        Some(OptimizationResult(r.1, r.0,
          SumOf(r.1, CapitalReturn) / availableCapital,
          SumOf(r.1, CapitalVolatilitySquared)))
  }

  /** The properties the allocation promises: the total stays at or below 1,
      the dictionary has one entry per name, and each entry belongs to a
      strategy of that name, within its maximum allocation. */
  lemma OptimizeBounds(ss: seq<StrategyInput>, availableCapital: real)
    requires Optimize(ss, availableCapital).Some?
    ensures var r := Optimize(ss, availableCapital).value;
      r.totalAllocation <= 1.0 && DistinctNames(r.allocations) &&
      forall e :: e in r.allocations ==>
        e.1.capital == CapitalShare(availableCapital, e.1.allocation) &&
        exists i :: (0 <= i < |ss| && ss[i].name == Some(e.0) &&
          e.1.allocation <= ss[i].maxAllocation.GetOr(0.3))
  {
    var ms := Metrics(ss).value;
    var sorted := SortDescending(ms);
    var sharpeSum := SharpeSum(sorted);
    if sorted != [] {
      AllocateInvariants(sorted, sharpeSum, availableCapital, 0.0, [], sorted);
      var r := Optimize(ss, availableCapital).value;
      forall e | e in r.allocations
        ensures exists i :: (0 <= i < |ss| && ss[i].name == Some(e.0) &&
          e.1.allocation <= ss[i].maxAllocation.GetOr(0.3))
      {
        var m :| m in sorted && m.name == e.0 && e.1.allocation <= m.maxAllocation;
        assert m in multiset(sorted);
        assert m in ms;
        var i :| 0 <= i < |ms| && ms[i] == m;
        assert MetricOf(ss[i]).value == m;
      }
    }
  }

  /** The error cases: None exactly when a strategy's metric fails, the
      Sharpe ratios of a non-empty list sum to zero, or the capital is zero. */
  lemma OptimizeErrors(ss: seq<StrategyInput>, availableCapital: real)
    ensures Optimize(ss, availableCapital).None? <==>
      (exists i :: 0 <= i < |ss| && MetricOf(ss[i]).None?) ||
      (Metrics(ss).Some? && ss != [] && SharpeSum(SortDescending(Metrics(ss).value)) == 0.0) ||
      availableCapital == 0.0
  {
  }

  /** The first loop: one metric per strategy, stopping at the first failure. */
  method CollectMetrics(ss: seq<StrategyInput>) returns (r: Option<seq<StrategyMetric>>)
    ensures r == Metrics(ss)
  {
    var strategyMetrics: seq<StrategyMetric> := [];
    var i := 0;
    while i < |ss|
      invariant 0 <= i <= |ss|
      invariant Metrics(ss[..i]) == Some(strategyMetrics)
    {
      assert ss[..i + 1][..i] == ss[..i];
      var m := MetricOf(ss[i]);
      if m.None? {
        MetricsFailFromPrefix(ss, i + 1);
        return None;
      }
      strategyMetrics := strategyMetrics + [m.value];
      i := i + 1;
    }
    assert ss[..i] == ss;
    return Some(strategyMetrics);
  }

  /** The allocation loop, with its early exit once the total reaches 1. */
  method AllocateLoop(ms: seq<StrategyMetric>, sharpeSum: real, capital: real)
    returns (totalAllocation: real, allocations: Allocations)
    requires sharpeSum != 0.0
    ensures (totalAllocation, allocations) == Allocate(ms, sharpeSum, capital, 0.0, [])
  {
    totalAllocation := 0.0;
    allocations := [];
    var k := 0;
    while k < |ms|
      invariant 0 <= k <= |ms|
      invariant Allocate(ms[k..], sharpeSum, capital, totalAllocation, allocations)
        == Allocate(ms, sharpeSum, capital, 0.0, [])
    {
      if totalAllocation >= 1.0 {
        assert Allocate(ms[k..], sharpeSum, capital, totalAllocation, allocations) == (totalAllocation, allocations);
        break;
      }
      var s := ms[k];
      var allocation := NextAllocation(s, sharpeSum, totalAllocation);
      var next := Upsert(allocations, s.name,
        Allocation(allocation, CapitalShare(capital, allocation), s.expectedReturn, s.volatility));
      AllocateStep(ms, k, sharpeSum, capital, totalAllocation, allocations);
      allocations := next;
      totalAllocation := totalAllocation + allocation;
      k := k + 1;
    }
    if k == |ms| {
      assert ms[k..] == [];
    }
  }

  /** One pass of the allocation loop, seen from position k. */
  lemma AllocateStep(ms: seq<StrategyMetric>, k: nat, sharpeSum: real, capital: real, total: real, allocs: Allocations)
    requires sharpeSum != 0.0 && k < |ms| && total < 1.0
    ensures var a := NextAllocation(ms[k], sharpeSum, total);
      Allocate(ms[k..], sharpeSum, capital, total, allocs) ==
      Allocate(ms[k + 1..], sharpeSum, capital, total + a,
        Upsert(allocs, ms[k].name, Allocation(a, CapitalShare(capital, a), ms[k].expectedReturn, ms[k].volatility)))
  {
    var tail := ms[k..];
    assert tail[0] == ms[k];
    assert tail[1..] == ms[k + 1..];
  }

  /** optimize_portfolio: collect the metrics, sort them, run the allocation
      loop and total the expected return. */
  method OptimizePortfolio(ss: seq<StrategyInput>, availableCapital: real) returns (r: Option<OptimizationResult>)
    ensures r == Optimize(ss, availableCapital)
  {
    var collected := CollectMetrics(ss);
    if collected.None? {
      return None;
    }
    var strategyMetrics := SortDescending(collected.value);
    var sharpeSum := SharpeSum(strategyMetrics);
    if strategyMetrics != [] && sharpeSum == 0.0 {
      return None;
    }
    var totalAllocation: real, allocations: Allocations := 0.0, [];
    if strategyMetrics != [] {
      totalAllocation, allocations := AllocateLoop(strategyMetrics, sharpeSum, availableCapital);
    }
    if availableCapital == 0.0 {
      return None;
    }
    r := Some(OptimizationResult(allocations, totalAllocation,
      SumOf(allocations, CapitalReturn) / availableCapital,
      SumOf(allocations, CapitalVolatilitySquared)));
  }

  /** A failing strategy anywhere makes the whole metric list fail. */
  lemma {:induction false} MetricsFailFromPrefix(ss: seq<StrategyInput>, n: nat)
    requires 0 < n <= |ss| && MetricOf(ss[n - 1]).None?
    ensures Metrics(ss).None?
  {
  }
}
