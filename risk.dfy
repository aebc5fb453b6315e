/** The risk manager: the position list it keeps, the exit levels and the
    first-match exit decision, Kelly position sizing, portfolio metrics built
    from placeholder per-contract Greeks and parametric VaR, the fixed-order
    limit alerts and the hedging recommendations. */
module Risk {
  import opened Common

  /** One option holding. Dates are day numbers; entry time is a fractional
      day. The two kinds record the runtime type of the objects stored in
      entry_price and current_price, which decides whether a division by
      them raises. */
  datatype Position = Position(
    symbol: string,
    optionType: string,
    strikePrice: real,
    expiryDate: int,
    quantity: int,
    entryPrice: real,
    currentPrice: real,
    entryTime: real,
    strategyName: string,
    entryKind: NumberKind,
    currentKind: NumberKind)

  /** The four limits fixed when the manager is built. */
  datatype RiskLimits = RiskLimits(
    maxPositionSize: real,
    maxDailyLoss: real,
    stopLossPct: real,
    takeProfitPct: real)

  /** The constructor's default arguments. */
  const DefaultLimits: RiskLimits := RiskLimits(1000000.0, 50000.0, 0.02, 0.05)

  // ---------------------------------------------------------------------
  // Exit levels and the exit decision

  /** calculate_stop_loss_level */
  function StopLossLevel(lim: RiskLimits, entryPrice: real, optionType: string): real {
    if IsCall(optionType) then entryPrice * (1.0 - lim.stopLossPct)
    else entryPrice * (1.0 + lim.stopLossPct)
  }

  /** calculate_take_profit_level */
  function TakeProfitLevel(lim: RiskLimits, entryPrice: real, optionType: string): real {
    if IsCall(optionType) then entryPrice * (1.0 + lim.takeProfitPct)
    else entryPrice * (1.0 - lim.takeProfitPct)
  }

  lemma MulBelow(x: real, k: real)
    requires x > 0.0 && 0.0 < k
    ensures x * (1.0 - k) < x && x * (1.0 + k) > x
  {
    assert x * (1.0 - k) == x - x * k;
    assert x * (1.0 + k) == x + x * k;
  }

  /** For a positive entry price and positive percentages the levels bracket
      the entry price: below/above it for a call, mirrored for anything else. */
  lemma LevelsBracketEntry(lim: RiskLimits, entryPrice: real, optionType: string)
    requires entryPrice > 0.0 && lim.stopLossPct > 0.0 && lim.takeProfitPct > 0.0
    ensures IsCall(optionType) ==>
      StopLossLevel(lim, entryPrice, optionType) < entryPrice < TakeProfitLevel(lim, entryPrice, optionType)
    ensures !IsCall(optionType) ==>
      TakeProfitLevel(lim, entryPrice, optionType) < entryPrice < StopLossLevel(lim, entryPrice, optionType)
  {
    MulBelow(entryPrice, lim.stopLossPct);
    MulBelow(entryPrice, lim.takeProfitPct);
  }

  datatype ExitReason = StopLoss | TakeProfit | TimeDecay | Hold {
    function Name(): string {
      match this
      case StopLoss => "stop_loss"
      case TakeProfit => "take_profit"
      case TimeDecay => "time_decay"
      case Hold => "hold"
    }
  }

  predicate StopHit(lim: RiskLimits, pos: Position, price: real) {
    var level := StopLossLevel(lim, pos.entryPrice, pos.optionType);
    (IsCall(pos.optionType) && price <= level) || (IsPut(pos.optionType) && price >= level)
  }

  predicate TakeProfitHit(lim: RiskLimits, pos: Position, price: real) {
    var level := TakeProfitLevel(lim, pos.entryPrice, pos.optionType);
    (IsCall(pos.optionType) && price >= level) || (IsPut(pos.optionType) && price <= level)
  }

  /** should_exit_position: stop-loss first, then take-profit, then seven or
      fewer whole days to expiry; otherwise hold. `now` is the wall clock. */
  function ShouldExitPosition(lim: RiskLimits, pos: Position, price: real, now: real): (r: (bool, ExitReason))
    ensures r.0 <==> r.1 != Hold
    ensures r.1 == StopLoss <==> StopHit(lim, pos, price)
    ensures r.1 == TakeProfit <==> !StopHit(lim, pos, price) && TakeProfitHit(lim, pos, price)
    ensures r.1 == TimeDecay <==>
      !StopHit(lim, pos, price) && !TakeProfitHit(lim, pos, price) && DaysBetween(pos.expiryDate as real, now) <= 7
  {
    if StopHit(lim, pos, price) then (true, StopLoss)
    else if TakeProfitHit(lim, pos, price) then (true, TakeProfit)
    else if DaysBetween(pos.expiryDate as real, now) <= 7 then (true, TimeDecay)
    else (false, Hold)
  }

  /** An option type that is neither 'call' nor 'put' (case-insensitively)
      can only be closed for time decay. */
  lemma UnknownTypeExitsOnlyOnTime(lim: RiskLimits, pos: Position, price: real, now: real)
    requires !IsCall(pos.optionType) && !IsPut(pos.optionType)
    ensures ShouldExitPosition(lim, pos, price, now).1 in {TimeDecay, Hold}
    ensures ShouldExitPosition(lim, pos, price, now).0 <==> DaysBetween(pos.expiryDate as real, now) <= 7
  {
  }

  /** A call priced strictly between its levels with more than a week to go is held. */
  lemma CallBetweenLevelsIsHeld(lim: RiskLimits, pos: Position, price: real, now: real)
    requires IsCall(pos.optionType)
    requires StopLossLevel(lim, pos.entryPrice, pos.optionType) < price < TakeProfitLevel(lim, pos.entryPrice, pos.optionType)
    requires pos.expiryDate as real - now >= 8.0
    ensures ShouldExitPosition(lim, pos, price, now) == (false, Hold)
  {
    CallAndPutExclusive(pos.optionType);
  }

  // ---------------------------------------------------------------------
  // Kelly position sizing

  /** The keys calculate_position_sizing reads; None is a missing key. */
  datatype SizingParams = SizingParams(
    winRate: Option<real>, avgWin: Option<real>, avgLoss: Option<real>, maxLoss: Option<real>)

  /** The Kelly fraction clamped to [0, 0.25]. */
  function KellyFraction(winRate: real, avgWin: real, avgLoss: real): (k: real)
    requires avgWin != 0.0
    ensures 0.0 <= k <= 0.25
  {
    var raw := (winRate * avgWin - (1.0 - winRate) * avgLoss) / avgWin;
    MaxReal(0.0, MinReal(raw, 0.25))
  }

  /** calculate_position_sizing: 0 when the average loss or the per-contract
      loss is zero, and 0 when the average win is zero (the division raises
      and is caught). */
  function PositionSizing(sp: SizingParams, availableCapital: real): (size: int)
    ensures size >= 0
    ensures sp.avgLoss.GetOr(100.0) == 0.0 || sp.avgWin.GetOr(100.0) == 0.0 || sp.maxLoss.GetOr(1000.0) == 0.0 ==> size == 0
    ensures sp.maxLoss.GetOr(1000.0) != 0.0 ==>
      size <= MaxInt(0, Trunc(availableCapital * 0.1 / sp.maxLoss.GetOr(1000.0)))
  {
    var winRate := sp.winRate.GetOr(0.5);
    var avgWin := sp.avgWin.GetOr(100.0);
    var avgLoss := sp.avgLoss.GetOr(100.0);
    if avgLoss == 0.0 then 0
    else if avgWin == 0.0 then 0
    else
      var kelly := KellyFraction(winRate, avgWin, avgLoss);
      var riskPerTrade := availableCapital * kelly;
      var maxLossPerContract := sp.maxLoss.GetOr(1000.0);
      if maxLossPerContract == 0.0 then 0
      else
        var positionSize := Trunc(riskPerTrade / maxLossPerContract);
        var maxPosition := Trunc(availableCapital * 0.1 / maxLossPerContract);
        MaxInt(0, MinInt(positionSize, maxPosition))
  }

  function MaxInt(a: int, b: int): int { if a >= b then a else b }
  function MinInt(a: int, b: int): int { if a <= b then a else b }

  /** With non-negative capital and a positive per-contract loss, the sized
      position never puts more than 10% of the capital at its maximum loss. */
  lemma SizingRisksAtMostTenPercent(sp: SizingParams, availableCapital: real)
    requires availableCapital >= 0.0 && sp.maxLoss.GetOr(1000.0) > 0.0
    ensures PositionSizing(sp, availableCapital) as real * sp.maxLoss.GetOr(1000.0) <= availableCapital * 0.1
  {
    var ml := sp.maxLoss.GetOr(1000.0);
    var cap := Trunc(availableCapital * 0.1 / ml);
    var size := PositionSizing(sp, availableCapital);
    var q := availableCapital * 0.1 / ml;
    assert q >= 0.0;
    assert cap as real <= q;
    assert 0 <= size <= cap;
    assert q * ml == availableCapital * 0.1;
    assert size as real * ml <= cap as real * ml;
  }

  /** The case in the test suite: win rate 0.6, average win 1000, average loss
      500, maximum loss 1000 and one million of capital. The Kelly fraction
      0.4 is capped at 0.25 and the 10% limit then gives 100 contracts. */
  lemma PositionSizingExample()
    ensures PositionSizing(SizingParams(Some(0.6), Some(1000.0), Some(500.0), Some(1000.0)), 1000000.0) == 100
  {
    assert KellyFraction(0.6, 1000.0, 500.0) == 0.25;
    assert Trunc(1000000.0 * 0.25 / 1000.0) == 250;
    assert Trunc(1000000.0 * 0.1 / 1000.0) == 100;
  }

  // ---------------------------------------------------------------------
  // Portfolio metrics

  /** The placeholder per-contract Greeks (_calculate_delta .. _calculate_rho). */
  function PlaceholderDelta(p: Position): real { if IsCall(p.optionType) then 0.5 else -0.5 }
  function PlaceholderGamma(p: Position): real { 0.01 }
  function PlaceholderTheta(p: Position): real { -0.1 }
  function PlaceholderVega(p: Position): real { 0.2 }
  function PlaceholderRho(p: Position): real { 0.05 }

  /** sum(pos.quantity * perContract(pos) for pos in positions) */
  function Weighted(ps: seq<Position>, perContract: Position -> real): real {
    if ps == [] then 0.0 else ps[0].quantity as real * perContract(ps[0]) + Weighted(ps[1..], perContract)
  }

  /** Portfolio value: quantity times the quoted price, or the position's own
      current price when the symbol has no quote. */
  function MarkedValue(ps: seq<Position>, currentPrices: map<string, real>): real {
    if ps == [] then 0.0
    else
      var price := if ps[0].symbol in currentPrices then currentPrices[ps[0].symbol] else ps[0].currentPrice;
      ps[0].quantity as real * price + MarkedValue(ps[1..], currentPrices)
  }

  function TotalQuantity(ps: seq<Position>): int {
    if ps == [] then 0 else ps[0].quantity + TotalQuantity(ps[1..])
  }

  function CallQuantity(ps: seq<Position>): int {
    if ps == [] then 0 else (if IsCall(ps[0].optionType) then ps[0].quantity else 0) + CallQuantity(ps[1..])
  }

  datatype RiskMetrics = RiskMetrics(
    portfolioValue: real, totalDelta: real, totalGamma: real, totalTheta: real,
    totalVega: real, totalRho: real, var95: real, var99: real,
    maxDrawdown: real, sharpeRatio: real, beta: real)

  /** _calculate_var: value * 20% volatility * z, for z = 1.645 and 2.326. */
  function ValueAtRisk(portfolioValue: real): (r: (real, real)) {
    (portfolioValue * 0.2 * 1.645, portfolioValue * 0.2 * 2.326)
  }

  /** calculate_portfolio_metrics over the current position list. */
  function PortfolioMetrics(ps: seq<Position>, currentPrices: map<string, real>): (m: RiskMetrics)
    ensures ps == [] ==> m == RiskMetrics(0.0, 0.0, 0.0, 0.0, 0.0, 0.0, 0.0, 0.0, 0.0, 0.0, 0.0)
    ensures ps != [] ==>
      m.portfolioValue == MarkedValue(ps, currentPrices) &&
      m.totalDelta == 0.5 * (2 * CallQuantity(ps) - TotalQuantity(ps)) as real &&
      m.totalGamma == 0.01 * TotalQuantity(ps) as real &&
      m.totalTheta == -0.1 * TotalQuantity(ps) as real &&
      m.totalVega == 0.2 * TotalQuantity(ps) as real &&
      m.totalRho == 0.05 * TotalQuantity(ps) as real &&
      m.var95 == m.portfolioValue * 0.329 && m.var99 == m.portfolioValue * 0.4652 &&
      m.maxDrawdown == 0.1 && m.sharpeRatio == 1.5 && m.beta == 1.0
  {
    if ps == [] then RiskMetrics(0.0, 0.0, 0.0, 0.0, 0.0, 0.0, 0.0, 0.0, 0.0, 0.0, 0.0)
    else
      var value := MarkedValue(ps, currentPrices);
      var v := ValueAtRisk(value);
      PlaceholderDeltaSum(ps);
      ConstantGreekSum(ps, PlaceholderGamma, 0.01);
      ConstantGreekSum(ps, PlaceholderTheta, -0.1);
      ConstantGreekSum(ps, PlaceholderVega, 0.2);
      ConstantGreekSum(ps, PlaceholderRho, 0.05);
      RiskMetrics(
        value,
        Weighted(ps, PlaceholderDelta),
        Weighted(ps, PlaceholderGamma),
        Weighted(ps, PlaceholderTheta),
        Weighted(ps, PlaceholderVega),
        Weighted(ps, PlaceholderRho),
        v.0, v.1, 0.1, 1.5, 1.0)
  }

  /** A Greek that is the same for every contract sums to that value times the total quantity. */
  lemma {:induction false} ConstantGreekSum(ps: seq<Position>, perContract: Position -> real, c: real)
    requires forall p :: perContract(p) == c
    ensures Weighted(ps, perContract) == c * TotalQuantity(ps) as real
  {
    if ps != [] {
      ConstantGreekSum(ps[1..], perContract, c);
      assert ps[0].quantity as real * c + c * TotalQuantity(ps[1..]) as real
          == c * (ps[0].quantity + TotalQuantity(ps[1..])) as real;
    }
  }

  /** Calls count +0.5 per contract and everything else -0.5: the net delta is
      half the difference between call and other contracts. */
  lemma {:induction false} PlaceholderDeltaSum(ps: seq<Position>)
    ensures Weighted(ps, PlaceholderDelta) == 0.5 * (2 * CallQuantity(ps) - TotalQuantity(ps)) as real
  {
    if ps != [] {
      PlaceholderDeltaSum(ps[1..]);
    }
  }

  // ---------------------------------------------------------------------
  // Risk alerts

  datatype RiskLevel = Low | Medium | High | Critical

  /** The six checks of check_risk_limits, in the order they run. */
  datatype AlertKind = PositionSize | DailyLoss | DeltaExposure | GammaExposure | ThetaDecay | VarLimit {
    function Order(): nat {
      match this
      case PositionSize => 0
      case DailyLoss => 1
      case DeltaExposure => 2
      case GammaExposure => 3
      case ThetaDecay => 4
      case VarLimit => 5
    }
    function Level(): RiskLevel {
      match this
      case PositionSize => Critical
      case DailyLoss => Critical
      case DeltaExposure => High
      case GammaExposure => Medium
      case ThetaDecay => Medium
      case VarLimit => High
    }
    function Action(): string {
      match this
      case PositionSize => "reduce_positions"
      case DailyLoss => "close_all_positions"
      case DeltaExposure => "hedge_delta"
      case GammaExposure => "monitor_closely"
      case ThetaDecay => "consider_rolling"
      case VarLimit => "reduce_risk"
    }
  }

  /** An alert: its type and level; its recommended action is `kind.Action()`
      (the message text is not modelled). */
  datatype Alert = Alert(kind: AlertKind, level: RiskLevel) {
    function Action(): string { kind.Action() }
  }

  function AlertOf(k: AlertKind): Alert {
    Alert(k, k.Level())
  }

  /** The threshold each check compares against. */
  predicate Breached(k: AlertKind, m: RiskMetrics, dailyPnl: real, lim: RiskLimits) {
    match k
    case PositionSize => Abs(m.portfolioValue) > lim.maxPositionSize
    case DailyLoss => dailyPnl < -lim.maxDailyLoss
    case DeltaExposure => Abs(m.totalDelta) > lim.maxPositionSize * 0.1
    case GammaExposure => Abs(m.totalGamma) > lim.maxPositionSize * 0.01
    case ThetaDecay => m.totalTheta < -lim.maxPositionSize * 0.001
    case VarLimit => m.var95 > lim.maxPositionSize * 0.05
  }

  const AllKinds: seq<AlertKind> := [PositionSize, DailyLoss, DeltaExposure, GammaExposure, ThetaDecay, VarLimit]

  /** The alerts one check contributes. */
  function RaisedBy(k: AlertKind, m: RiskMetrics, dailyPnl: real, lim: RiskLimits): seq<Alert> {
    if Breached(k, m, dailyPnl, lim) then [AlertOf(k)] else []
  }

  /** The alerts raised by the checks in `kinds`, run in that order. */
  function RaisedAmong(kinds: seq<AlertKind>, m: RiskMetrics, dailyPnl: real, lim: RiskLimits): (r: seq<Alert>)
    ensures |r| <= |kinds|
  {
    if kinds == [] then []
    else RaisedAmong(kinds[..|kinds| - 1], m, dailyPnl, lim) + RaisedBy(kinds[|kinds| - 1], m, dailyPnl, lim)
  }

  /** The alert list check_risk_limits produces: the six checks in their fixed order. */
  function ExpectedAlerts(m: RiskMetrics, dailyPnl: real, lim: RiskLimits): seq<Alert> {
    RaisedBy(PositionSize, m, dailyPnl, lim) + RaisedBy(DailyLoss, m, dailyPnl, lim)
      + RaisedBy(DeltaExposure, m, dailyPnl, lim) + RaisedBy(GammaExposure, m, dailyPnl, lim)
      + RaisedBy(ThetaDecay, m, dailyPnl, lim) + RaisedBy(VarLimit, m, dailyPnl, lim)
  }

  predicate StrictlyIncreasing(kinds: seq<AlertKind>) {
    forall i, j :: 0 <= i < j < |kinds| ==> kinds[i].Order() < kinds[j].Order()
  }

  /** Filtering keeps each alert exactly when its check fires. */
  lemma {:induction false} RaisedAmongMembership(kinds: seq<AlertKind>, m: RiskMetrics, dailyPnl: real, lim: RiskLimits, k: AlertKind)
    ensures AlertOf(k) in RaisedAmong(kinds, m, dailyPnl, lim) <==> k in kinds && Breached(k, m, dailyPnl, lim)
  {
    if kinds != [] {
      var front := kinds[..|kinds| - 1];
      RaisedAmongMembership(front, m, dailyPnl, lim, k);
      assert kinds == front + [kinds[|kinds| - 1]];
    }
  }

  /** Every alert the filter keeps is the alert of a listed kind. */
  lemma {:induction false} RaisedAmongShape(kinds: seq<AlertKind>, m: RiskMetrics, dailyPnl: real, lim: RiskLimits)
    ensures forall a :: a in RaisedAmong(kinds, m, dailyPnl, lim) ==> a == AlertOf(a.kind) && a.kind in kinds
  {
    if kinds != [] {
      var front := kinds[..|kinds| - 1];
      var last := kinds[|kinds| - 1];
      RaisedAmongShape(front, m, dailyPnl, lim);
      assert kinds == front + [last];
      var rest := RaisedAmong(front, m, dailyPnl, lim);
      var r := RaisedAmong(kinds, m, dailyPnl, lim);
      assert r == rest + RaisedBy(last, m, dailyPnl, lim);
      forall a | a in r
        ensures a == AlertOf(a.kind) && a.kind in kinds
      {
        if a in rest {
          assert a.kind in front;
        }
      }
    }
  }

  predicate AlertsIncreasing(r: seq<Alert>) {
    forall i, j :: 0 <= i < j < |r| ==> r[i].kind.Order() < r[j].kind.Order()
  }

  /** The filter keeps the order of the kinds. */
  lemma {:induction false} RaisedAmongOrdered(kinds: seq<AlertKind>, m: RiskMetrics, dailyPnl: real, lim: RiskLimits)
    requires StrictlyIncreasing(kinds)
    ensures AlertsIncreasing(RaisedAmong(kinds, m, dailyPnl, lim))
  {
    if kinds != [] {
      var front := kinds[..|kinds| - 1];
      var last := kinds[|kinds| - 1];
      assert StrictlyIncreasing(front);
      RaisedAmongOrdered(front, m, dailyPnl, lim);
      RaisedAmongShape(front, m, dailyPnl, lim);
      var rest := RaisedAmong(front, m, dailyPnl, lim);
      var r := RaisedAmong(kinds, m, dailyPnl, lim);
      assert r == rest + RaisedBy(last, m, dailyPnl, lim);
      forall i | 0 <= i < |rest|
        ensures rest[i].kind.Order() < last.Order()
      {
        assert rest[i] in rest;
        var j :| 0 <= j < |front| && front[j] == rest[i].kind;
        assert kinds[j] == front[j];
      }
      forall i, j | 0 <= i < j < |r|
        ensures r[i].kind.Order() < r[j].kind.Order()
      {
        if j < |rest| {
          assert AlertsIncreasing(rest);
          assert r[i] == rest[i] && r[j] == rest[j];
        } else {
          assert j == |rest| && i < |rest|;
          assert r[i] == rest[i] && r[j] == AlertOf(last);
        }
      }
    }
  }

  /** The first j checks, in order. */
  lemma RaisedAmongPrefix(j: nat, m: RiskMetrics, dailyPnl: real, lim: RiskLimits)
    requires 1 <= j <= |AllKinds|
    ensures RaisedAmong(AllKinds[..j], m, dailyPnl, lim)
         == RaisedAmong(AllKinds[..j - 1], m, dailyPnl, lim) + RaisedBy(AllKinds[j - 1], m, dailyPnl, lim)
  {
    assert AllKinds[..j][..j - 1] == AllKinds[..j - 1];
  }

  /** The fixed list is the filter over AllKinds. */
  lemma ExpectedAlertsAreRaisedAmongAll(m: RiskMetrics, d: real, lim: RiskLimits)
    ensures RaisedAmong(AllKinds, m, d, lim) == ExpectedAlerts(m, d, lim)
  {
    var a1 := RaisedBy(PositionSize, m, d, lim);
    var a2 := a1 + RaisedBy(DailyLoss, m, d, lim);
    var a3 := a2 + RaisedBy(DeltaExposure, m, d, lim);
    var a4 := a3 + RaisedBy(GammaExposure, m, d, lim);
    var a5 := a4 + RaisedBy(ThetaDecay, m, d, lim);
    assert RaisedAmong(AllKinds[..1], m, d, lim) == a1 by {
      RaisedAmongPrefix(1, m, d, lim);
      assert AllKinds[..0] == [];
      assert AllKinds[0] == PositionSize;
    }
    assert RaisedAmong(AllKinds[..2], m, d, lim) == a2 by {
      RaisedAmongPrefix(2, m, d, lim);
      assert AllKinds[1] == DailyLoss;
    }
    assert RaisedAmong(AllKinds[..3], m, d, lim) == a3 by {
      RaisedAmongPrefix(3, m, d, lim);
      assert AllKinds[2] == DeltaExposure;
    }
    assert RaisedAmong(AllKinds[..4], m, d, lim) == a4 by {
      RaisedAmongPrefix(4, m, d, lim);
      assert AllKinds[3] == GammaExposure;
    }
    assert RaisedAmong(AllKinds[..5], m, d, lim) == a5 by {
      RaisedAmongPrefix(5, m, d, lim);
      assert AllKinds[4] == ThetaDecay;
    }
    assert RaisedAmong(AllKinds[..6], m, d, lim) == ExpectedAlerts(m, d, lim) by {
      RaisedAmongPrefix(6, m, d, lim);
      assert AllKinds[5] == VarLimit;
    }
    assert AllKinds[..6] == AllKinds;
  }

  /** check_risk_limits raises an alert of a kind exactly when that limit is
      breached, at most one alert per kind, in the fixed order position size,
      daily loss, delta, gamma, theta, VaR. */
  lemma ExpectedAlertsFacts(m: RiskMetrics, dailyPnl: real, lim: RiskLimits, k: AlertKind)
    ensures var r := ExpectedAlerts(m, dailyPnl, lim);
      (AlertOf(k) in r <==> Breached(k, m, dailyPnl, lim)) &&
      (forall i :: 0 <= i < |r| ==> r[i] == AlertOf(r[i].kind)) &&
      (forall i, j :: 0 <= i < j < |r| ==> r[i].kind.Order() < r[j].kind.Order()) &&
      (forall i, j :: 0 <= i < j < |r| ==> r[i].kind != r[j].kind)
  {
    assert StrictlyIncreasing(AllKinds);
    RaisedAmongMembership(AllKinds, m, dailyPnl, lim, k);
    RaisedAmongShape(AllKinds, m, dailyPnl, lim);
    RaisedAmongOrdered(AllKinds, m, dailyPnl, lim);
    ExpectedAlertsAreRaisedAmongAll(m, dailyPnl, lim);
    assert k in AllKinds by {
      match k
      case PositionSize => assert AllKinds[0] == k;
      case DailyLoss => assert AllKinds[1] == k;
      case DeltaExposure => assert AllKinds[2] == k;
      case GammaExposure => assert AllKinds[3] == k;
      case ThetaDecay => assert AllKinds[4] == k;
      case VarLimit => assert AllKinds[5] == k;
    }
  }

  /** An empty book at the default limits only ever raises the daily-loss alert. */
  lemma EmptyBookRaisesOnlyDailyLoss(dailyPnl: real, currentPrices: map<string, real>)
    ensures ExpectedAlerts(PortfolioMetrics([], currentPrices), dailyPnl, DefaultLimits)
      == if dailyPnl < -50000.0 then [AlertOf(DailyLoss)] else []
  {
  }

  // ---------------------------------------------------------------------
  // Hedging recommendations

  datatype HedgeKind = DeltaHedge | GammaHedge | ThetaHedge {
    /** Position in the order the recommendations are listed. */
    function Rank(): nat {
      match this
      case DeltaHedge => 0
      case GammaHedge => 1
      case ThetaHedge => 2
    }
  }

  /** A contract count, or 'all' for the roll recommendation. */
  datatype HedgeQuantity = Contracts(count: int) | AllPositions

  datatype Recommendation = Recommendation(kind: HedgeKind, action: string, quantity: HedgeQuantity)

  /** Buy puts against a positive delta, calls against a negative one, one
      contract per 50 delta. */
  function DeltaHedgeOf(m: RiskMetrics): (rec: Recommendation)
    ensures rec.kind == DeltaHedge && rec.quantity.Contracts? && rec.quantity.count >= 0
    ensures rec.action == "buy_puts" <==> m.totalDelta > 0.0
  {
    Recommendation(DeltaHedge, if m.totalDelta > 0.0 then "buy_puts" else "buy_calls",
                   Contracts(Trunc(Abs(m.totalDelta) / 50.0)))
  }

  function GammaHedgeOf(m: RiskMetrics): (rec: Recommendation)
    ensures rec.kind == GammaHedge && rec.quantity.Contracts? && rec.quantity.count >= 0
  {
    Recommendation(GammaHedge, "reduce_position_size", Contracts(Trunc(Abs(m.totalGamma) / 10.0)))
  }

  const ThetaHedgeRecommendation: Recommendation := Recommendation(ThetaHedge, "roll_positions", AllPositions)

  /** get_hedging_recommendations: delta beyond 5% of the position limit,
      gamma beyond 0.5%, theta below -0.05%, in that order. */
  function HedgingRecommendations(m: RiskMetrics, lim: RiskLimits): (r: seq<Recommendation>)
    ensures |r| <= 3
    ensures DeltaHedgeOf(m) in r <==> Abs(m.totalDelta) > lim.maxPositionSize * 0.05
    ensures GammaHedgeOf(m) in r <==> Abs(m.totalGamma) > lim.maxPositionSize * 0.005
    ensures ThetaHedgeRecommendation in r <==> m.totalTheta < -lim.maxPositionSize * 0.0005
    ensures forall x :: x in r ==> x in [DeltaHedgeOf(m), GammaHedgeOf(m), ThetaHedgeRecommendation]
    ensures DeltaHedgeOf(m) in r ==> r[0] == DeltaHedgeOf(m)
    ensures forall i, j :: 0 <= i < j < |r| ==> r[i].kind.Rank() < r[j].kind.Rank()
  {
    (if Abs(m.totalDelta) > lim.maxPositionSize * 0.05 then [DeltaHedgeOf(m)] else [])
      + (if Abs(m.totalGamma) > lim.maxPositionSize * 0.005 then [GammaHedgeOf(m)] else [])
      + (if m.totalTheta < -lim.maxPositionSize * 0.0005 then [ThetaHedgeRecommendation] else [])
  }

  /** The hedging thresholds are half the alert thresholds: with a
      non-negative position limit every delta, gamma or theta alert comes with
      the matching recommendation. */
  lemma AlertsImplyHedges(m: RiskMetrics, dailyPnl: real, lim: RiskLimits)
    requires lim.maxPositionSize >= 0.0
    ensures var r := HedgingRecommendations(m, lim);
      (Breached(DeltaExposure, m, dailyPnl, lim) ==> DeltaHedgeOf(m) in r) &&
      (Breached(GammaExposure, m, dailyPnl, lim) ==> GammaHedgeOf(m) in r) &&
      (Breached(ThetaDecay, m, dailyPnl, lim) ==> ThetaHedgeRecommendation in r)
  {
  }

  // ---------------------------------------------------------------------
  // RiskManager

  /** Symbols other than `id` keep their positions, in their order. */
  function WithoutSymbol(ps: seq<Position>, id: string): (r: seq<Position>)
    ensures forall p :: p in r <==> p in ps && p.symbol != id
    ensures |r| <= |ps|
  {
    if ps == [] then []
    else (if ps[0].symbol == id then [] else [ps[0]]) + WithoutSymbol(ps[1..], id)
  }

  /** Removing distributes over concatenation, so the order of survivors is kept. */
  lemma {:induction false} WithoutSymbolAppend(a: seq<Position>, b: seq<Position>, id: string)
    ensures WithoutSymbol(a + b, id) == WithoutSymbol(a, id) + WithoutSymbol(b, id)
  {
    if a != [] {
      var head := if a[0].symbol == id then [] else [a[0]];
      assert (a + b)[0] == a[0] && (a + b)[1..] == a[1..] + b;
      WithoutSymbolAppend(a[1..], b, id);
      assert WithoutSymbol(a + b, id) == head + (WithoutSymbol(a[1..], id) + WithoutSymbol(b, id));
      assert WithoutSymbol(a, id) == head + WithoutSymbol(a[1..], id);
    } else {
      assert a + b == b;
    }
  }

  /** Removing a symbol nobody holds leaves the list as it was. */
  lemma {:induction false} WithoutAbsentSymbol(ps: seq<Position>, id: string)
    requires forall i :: 0 <= i < |ps| ==> ps[i].symbol != id
    ensures WithoutSymbol(ps, id) == ps
  {
    if ps != [] {
      WithoutAbsentSymbol(ps[1..], id);
    }
  }

  /** Adding a position and then removing its symbol, when no other position
      holds that symbol, restores the list; the count drops by exactly one. */
  lemma AddThenRemoveRestores(ps: seq<Position>, pos: Position)
    requires forall i :: 0 <= i < |ps| ==> ps[i].symbol != pos.symbol
    ensures WithoutSymbol(ps + [pos], pos.symbol) == ps
    ensures |WithoutSymbol(ps + [pos], pos.symbol)| == |ps + [pos]| - 1
  {
    WithoutSymbolAppend(ps, [pos], pos.symbol);
    WithoutAbsentSymbol(ps, pos.symbol);
    assert WithoutSymbol([pos], pos.symbol) == [];
  }

  class RiskManager {
    const limits: RiskLimits
    var dailyPnl: real
    var positions: seq<Position>
    var riskAlerts: seq<Alert>

    constructor (limits: RiskLimits)
      ensures this.limits == limits
      ensures dailyPnl == 0.0 && positions == [] && riskAlerts == []
    {
      this.limits := limits;
      dailyPnl := 0.0;
      positions := [];
      riskAlerts := [];
    }

    /** add_position: append exactly one position. */
    method AddPosition(position: Position)
      modifies this
      ensures positions == old(positions) + [position]
      ensures dailyPnl == old(dailyPnl) && riskAlerts == old(riskAlerts)
    {
      positions := positions + [position];
    }

    /** remove_position: drop every position with this symbol. */
    method RemovePosition(positionId: string)
      modifies this
      ensures positions == WithoutSymbol(old(positions), positionId)
      ensures dailyPnl == old(dailyPnl) && riskAlerts == old(riskAlerts)
    {
      positions := WithoutSymbol(positions, positionId);
    }

    function CalculatePortfolioMetrics(currentPrices: map<string, real>): RiskMetrics
      reads this
    {
      PortfolioMetrics(positions, currentPrices)
    }

    /** check_risk_limits: build the alert list test by test and store it. */
    method CheckRiskLimits(currentPrices: map<string, real>) returns (alerts: seq<Alert>)
      modifies this
      ensures alerts == ExpectedAlerts(PortfolioMetrics(old(positions), currentPrices), old(dailyPnl), limits)
      ensures riskAlerts == alerts
      ensures positions == old(positions) && dailyPnl == old(dailyPnl)
    {
      var m := CalculatePortfolioMetrics(currentPrices);
      alerts := [];
      if Abs(m.portfolioValue) > limits.maxPositionSize {
        alerts := alerts + [Alert(PositionSize, Critical)];
      }
      assert alerts == RaisedBy(PositionSize, m, dailyPnl, limits);
      ghost var done := alerts;
      if dailyPnl < -limits.maxDailyLoss {
        alerts := alerts + [Alert(DailyLoss, Critical)];
      }
      assert alerts == done + RaisedBy(DailyLoss, m, dailyPnl, limits);
      done := alerts;
      if Abs(m.totalDelta) > limits.maxPositionSize * 0.1 {
        alerts := alerts + [Alert(DeltaExposure, High)];
      }
      assert alerts == done + RaisedBy(DeltaExposure, m, dailyPnl, limits);
      done := alerts;
      if Abs(m.totalGamma) > limits.maxPositionSize * 0.01 {
        alerts := alerts + [Alert(GammaExposure, Medium)];
      }
      assert alerts == done + RaisedBy(GammaExposure, m, dailyPnl, limits);
      done := alerts;
      if m.totalTheta < -limits.maxPositionSize * 0.001 {
        alerts := alerts + [Alert(ThetaDecay, Medium)];
      }
      assert alerts == done + RaisedBy(ThetaDecay, m, dailyPnl, limits);
      done := alerts;
      if m.var95 > limits.maxPositionSize * 0.05 {
        alerts := alerts + [Alert(VarLimit, High)];
      }
      assert alerts == done + RaisedBy(VarLimit, m, dailyPnl, limits);
      riskAlerts := alerts;
    }
  }
}
