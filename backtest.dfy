/** The day-stepped backtest engine: each bar first closes the positions the
    risk manager flags, then may open an at-the-money straddle, then marks
    the open positions to the new close, and finally records one equity
    snapshot. After the last bar every position is closed and the results
    (return, drawdown, trade statistics) are aggregated.

    Wall-clock time (`now`, fractional days since 1970-01-01) is a
    parameter; option prices come from the pricing engine's Black-Scholes
    branch with its float formula supplied by `Numerics`, and the historical
    volatility estimator (standard deviation of daily returns) is supplied
    by the caller. */
module Backtest {
  import opened Common
  import opened Pricing
  import Risk

  type Position = Risk.Position

  /** One row of the historical frame: its date (fractional day) and close. */
  datatype Bar = Bar(date: real, close: real)

  datatype Trade = Trade(
    entryDate: real, exitDate: real, strategy: string,
    entryPrice: real, exitPrice: real, quantity: int,
    pnl: real, returnPct: ReturnRatio, duration: int)

  /** A trade's return_pct. A numpy division by a zero entry price gives
      plus or minus infinity, or nan when the current price is zero too,
      instead of raising. */
  datatype ReturnRatio = Ratio(value: real) | Unbounded(positive: bool) | NotANumber

  datatype EquityPoint = EquityPoint(date: real, equity: real, capital: real, positions: nat)

  /** abs(avg_win / avg_loss), or float('inf') when there is no losing trade. */
  datatype ProfitFactor = Finite(value: real) | Infinite

  /** BacktestResult without the annualised return, volatility and Sharpe
      ratio, which are floating-point statistics. */
  datatype BacktestResult = BacktestResult(
    totalReturn: real, maxDrawdown: real, winRate: real, profitFactor: ProfitFactor,
    totalTrades: nat, winningTrades: nat, losingTrades: nat,
    avgWin: real, avgLoss: real, maxWin: real, maxLoss: real)

  /** _create_empty_result */
  const EmptyResult: BacktestResult :=
    BacktestResult(0.0, 0.0, 0.0, Finite(0.0), 0, 0, 0, 0.0, 0.0, 0.0, 0.0)

  const MinimumCapital: real := 100000.0
  const RiskPerTrade: real := 0.02

  // ---------------------------------------------------------------------
  // Helpers

  /** _calculate_option_price: Black-Scholes with r = 0.05, sigma = 0.2 and
      whole days to expiry counted from the wall clock. */
  function OptionPrice(spot: real, strike: real, expiry: int, optionType: string, now: real, nm: Numerics): (v: real)
    ensures v >= 0.0
  {
    BlackScholesPrice(PricingParams(spot, strike, expiry, now), optionType, nm)
  }

  function PricingParams(spot: real, strike: real, expiry: int, now: real): OptionParams {
    OptionParams(spot, strike, DaysBetween(expiry as real, now) as real / 365.0, 0.05, 0.2, 0.0)
  }

  /** The runtime type of that price; the backtest's spot is row['Close'],
      a numpy float. */
  function OptionKind(spot: real, strike: real, expiry: int, optionType: string, now: real, nm: Numerics): NumberKind {
    QuoteKind(PricingParams(spot, strike, expiry, now), optionType, nm)
  }

  /** A plain price is the pricer's floor zero; on or after expiry, a zero
      price is numpy exactly when the option is struck at the spot, and
      plain otherwise. */
  lemma OptionKindOfPrice(spot: real, strike: real, expiry: int, optionType: string, now: real, nm: Numerics)
    ensures OptionKind(spot, strike, expiry, optionType, now, nm) == Plain ==>
      OptionPrice(spot, strike, expiry, optionType, now, nm) == 0.0
    ensures DaysBetween(expiry as real, now) <= 0 && OptionPrice(spot, strike, expiry, optionType, now, nm) == 0.0 ==>
      (OptionKind(spot, strike, expiry, optionType, now, nm) == Numpy <==> spot == strike)
  {
    QuoteKindOfPrice(PricingParams(spot, strike, expiry, now), optionType, nm);
  }

  /** The price is the 'price' entry of price_option's default method, and
      on or after the expiry day it is the intrinsic value. The one
      exception is a zero strike before expiry: the backtest's spot is a
      numpy float, so S/K gives infinity where the Python-float quote of
      the dispatcher's model raises and reports 0. */
  lemma OptionPriceIsDefaultQuote(spot: real, strike: real, expiry: int, optionType: string, now: real, nm: Numerics)
    ensures strike != 0.0 || DaysBetween(expiry as real, now) <= 0 ==>
      OptionPrice(spot, strike, expiry, optionType, now, nm)
         == PriceOption(PricingParams(spot, strike, expiry, now), optionType, "black_scholes", nm).price
    ensures DaysBetween(expiry as real, now) <= 0 ==>
      OptionPrice(spot, strike, expiry, optionType, now, nm) == Intrinsic(PricingParams(spot, strike, expiry, now), optionType)
  {
  }

  /** _calculate_volatility: fewer than 20 rows give the default 0.2. */
  function Volatility(closes: seq<real>, historicalVolatility: seq<real> -> real): real {
    if |closes| < 20 then 0.2 else historicalVolatility(closes)
  }

  function Closes(bars: seq<Bar>): (c: seq<real>)
    ensures |c| == |bars|
    ensures forall i :: 0 <= i < |bars| ==> c[i] == bars[i].close
  {
    if bars == [] then [] else Closes(bars[..|bars| - 1]) + [bars[|bars| - 1].close]
  }

  /** _select_strategy: the rule table applied to a one-row frame, whose
      volatility is always the 0.2 default, so the choice is always the
      butterfly; the `strategies` argument plays no part. */
  function SelectStrategy(bar: Bar, historicalVolatility: seq<real> -> real): (s: StrategyName)
    ensures s == Butterfly
  {
    VolatilityRegime(Volatility([bar.close], historicalVolatility))
  }

  /** int(x / pv) * pv never exceeds x for x >= 0 and pv > 0. */
  lemma TruncatedQuotient(x: real, pv: real)
    requires x >= 0.0 && pv > 0.0
    ensures Trunc(x / pv) as real * pv <= x
  {
    var q := x / pv;
    var t := Trunc(q) as real;
    assert t <= q;
    assert q * pv == x;
    assert t * pv <= q * pv;
  }

  lemma NonPositiveQuotient(x: real, pv: real)
    requires x <= 0.0 && pv > 0.0
    ensures Trunc(x / pv) <= 0
  {
  }

  /** _calculate_position_size: int(2% of capital / (price * 50)), or 0 when
      the lot value is not positive. */
  function PositionSize(capital: real, optionPrice: real): int {
    var positionValue := optionPrice * LotSize;
    if positionValue > 0.0 then Trunc(capital * RiskPerTrade / positionValue) else 0
  }

  /** The size is 0 for a non-positive price, never negative for a
      non-negative capital, and never risks more than 2% of it. */
  lemma PositionSizeBounds(capital: real, optionPrice: real)
    ensures optionPrice <= 0.0 ==> PositionSize(capital, optionPrice) == 0
    ensures capital >= 0.0 ==> PositionSize(capital, optionPrice) >= 0
    ensures capital >= 0.0 && optionPrice > 0.0 ==>
      PositionSize(capital, optionPrice) as real * (optionPrice * LotSize) <= capital * RiskPerTrade
    ensures PositionSize(capital, optionPrice) > 0 ==> capital > 0.0 && optionPrice > 0.0
  {
    if capital >= 0.0 && optionPrice > 0.0 {
      TruncatedQuotient(capital * RiskPerTrade, optionPrice * LotSize);
    } else if capital < 0.0 && optionPrice > 0.0 {
      NonPositiveQuotient(capital * RiskPerTrade, optionPrice * LotSize);
    }
  }

  // ---------------------------------------------------------------------
  // The engine's books as a value, and one pure function per step

  /** current_capital, positions and trades. */
  datatype Ledger = Ledger(capital: real, positions: seq<Position>, trades: seq<Trade>)

  function MarkValue(p: Position): real {
    p.currentPrice * p.quantity as real * LotSize
  }

  /** sum(pos.current_price * pos.quantity * 50) */
  function PositionValue(ps: seq<Position>): real {
    if ps == [] then 0.0 else PositionValue(ps[..|ps| - 1]) + MarkValue(ps[|ps| - 1])
  }

  lemma {:induction false} PositionValueAppend(s: seq<Position>, t: seq<Position>)
    ensures PositionValue(s + t) == PositionValue(s) + PositionValue(t)
  {
    if t == [] {
      assert s + t == s;
    } else {
      assert (s + t)[..|s + t| - 1] == s + t[..|t| - 1];
      PositionValueAppend(s, t[..|t| - 1]);
    }
  }

  function Equity(l: Ledger): real {
    l.capital + PositionValue(l.positions)
  }

  /** _update_equity_curve's record. */
  function Snapshot(l: Ledger, date: real): (e: EquityPoint)
    ensures e.equity == e.capital + PositionValue(l.positions) && e.capital == l.capital
    ensures e.positions == |l.positions| && e.date == date
  {
    EquityPoint(date, Equity(l), l.capital, |l.positions|)
  }

  function Pnl(p: Position): real {
    (p.currentPrice - p.entryPrice) * p.quantity as real * LotSize
  }

  /** The return division (current - entry) / entry raises only when both
      prices are plain numbers and the entry price is zero; a numpy operand
      on either side makes it a numpy division. */
  predicate Unclosable(p: Position) {
    p.entryKind == Plain && p.currentKind == Plain && p.entryPrice == 0.0
  }

  /** return_pct: the relative price change; for a zero entry price, an
      infinity of the sign of the price change, or nan when the current
      price is zero too. */
  function ReturnOf(p: Position): (r: ReturnRatio)
    requires !Unclosable(p)
    ensures r.Ratio? <==> p.entryPrice != 0.0
    ensures r.NotANumber? <==> p.entryPrice == 0.0 && p.currentPrice == 0.0
    ensures r.Ratio? ==> r.value * p.entryPrice == p.currentPrice - p.entryPrice
    ensures r.Unbounded? ==> (r.positive <==> p.currentPrice > p.entryPrice)
  {
    if p.entryPrice != 0.0 then Ratio((p.currentPrice - p.entryPrice) / p.entryPrice)
    else if p.currentPrice == 0.0 then NotANumber
    else Unbounded(p.currentPrice > 0.0)
  }

  function TradeOf(p: Position, date: real): Trade
    requires !Unclosable(p)
  {
    Trade(p.entryTime, date, p.strategyName, p.entryPrice, p.currentPrice, p.quantity,
          Pnl(p), ReturnOf(p), DaysBetween(date, p.entryTime))
  }

  /** _close_position: when the return division raises it does so before
      anything changes; otherwise the trade is recorded, the P&L is
      credited and the first equal position is removed (list.remove). */
  function Close(l: Ledger, p: Position, date: real): (r: Ledger)
    ensures Unclosable(p) ==> r == l
    ensures !Unclosable(p) ==>
      r.capital == l.capital + Pnl(p) &&
      r.trades == l.trades + [TradeOf(p, date)] &&
      multiset(r.positions) == multiset(l.positions) - multiset{p}
  {
    if Unclosable(p) then l
    else Ledger(l.capital + Pnl(p), RemoveFirst(l.positions, p), l.trades + [TradeOf(p, date)])
  }

  /** Close the given positions one after the other. */
  function CloseEach(l: Ledger, ps: seq<Position>, date: real): Ledger
    decreases |ps|
  {
    if ps == [] then l else CloseEach(Close(l, ps[0], date), ps[1..], date)
  }

  /** The positions _close_position can close: all but those opened at a
      plain zero and still marked with a plain number. */
  function Closable(ps: seq<Position>): (r: seq<Position>)
    ensures forall p :: p in r <==> p in ps && !Unclosable(p)
  {
    if ps == [] then [] else (if !Unclosable(ps[0]) then [ps[0]] else []) + Closable(ps[1..])
  }

  function Stuck(ps: seq<Position>): (r: seq<Position>)
    ensures forall p :: p in r <==> p in ps && Unclosable(p)
  {
    if ps == [] then [] else (if Unclosable(ps[0]) then [ps[0]] else []) + Stuck(ps[1..])
  }

  lemma {:induction false} ClosableAndStuck(ps: seq<Position>)
    ensures multiset(ps) == multiset(Closable(ps)) + multiset(Stuck(ps))
  {
    if ps != [] {
      ClosableAndStuck(ps[1..]);
      assert ps == [ps[0]] + ps[1..];
    }
  }

  /** Closing a list drawn from the book removes exactly its closable
      entries from the book. */
  lemma {:induction false} CloseEachRemovesClosable(l: Ledger, ps: seq<Position>, date: real)
    requires multiset(ps) <= multiset(l.positions)
    ensures multiset(CloseEach(l, ps, date).positions) == multiset(l.positions) - multiset(Closable(ps))
    decreases |ps|
  {
    if ps != [] {
      var p := ps[0];
      var next := Close(l, p, date);
      assert ps == [p] + ps[1..];
      assert multiset(ps[1..]) <= multiset(next.positions);
      CloseEachRemovesClosable(next, ps[1..], date);
    }
  }

  /** ... and records one trade per closable entry after the earlier trades. */
  lemma {:induction false} CloseEachRecordsTrades(l: Ledger, ps: seq<Position>, date: real)
    ensures |CloseEach(l, ps, date).trades| == |l.trades| + |Closable(ps)|
    ensures CloseEach(l, ps, date).trades[..|l.trades|] == l.trades
    decreases |ps|
  {
    if ps != [] {
      var next := Close(l, ps[0], date);
      CloseEachRecordsTrades(next, ps[1..], date);
      var r := CloseEach(next, ps[1..], date);
      assert r.trades[..|l.trades|] == r.trades[..|next.trades|][..|l.trades|];
    }
  }

  /** _close_all_positions: closing the whole book leaves exactly the
      positions opened at a plain zero and still marked with a plain
      number ... */
  lemma CloseAllLeavesOnlyStuck(l: Ledger, date: real)
    ensures multiset(CloseEach(l, l.positions, date).positions) == multiset(Stuck(l.positions))
  {
    CloseEachRemovesClosable(l, l.positions, date);
    ClosableAndStuck(l.positions);
  }

  /** ... so a book with no such position ends empty. */
  lemma CloseAllEmptiesPricedBook(l: Ledger, date: real)
    requires forall p :: p in l.positions ==> p.entryPrice != 0.0 || p.entryKind == Numpy || p.currentKind == Numpy
    ensures CloseEach(l, l.positions, date).positions == []
  {
    CloseAllLeavesOnlyStuck(l, date);
    NothingStuck(l.positions);
    var r := CloseEach(l, l.positions, date);
    assert multiset(r.positions) == multiset{};
  }

  lemma {:induction false} NothingStuck(ps: seq<Position>)
    requires forall p :: p in ps ==> p.entryPrice != 0.0 || p.entryKind == Numpy || p.currentKind == Numpy
    ensures Stuck(ps) == []
  {
    if ps != [] {
      assert ps[0] in ps;
      NothingStuck(ps[1..]);
    }
  }

  /** After expiry, a position opened at the plain zero cannot be closed
      once re-marked exactly when the new mark is zero with the close off
      its strike. Re-marked at the money it holds numpy's zero instead, and
      closes with a nan return. */
  lemma ExpiredRemarkCloses(p: Position, spot: real, now: real, nm: Numerics, date: real)
    requires p.entryKind == Plain && p.entryPrice == 0.0
    requires DaysBetween(p.expiryDate as real, now) <= 0
    ensures var q := Repriced(p, spot, now, nm);
      (Unclosable(q) <==> q.currentPrice == 0.0 && spot != p.strikePrice) &&
      (spot == p.strikePrice ==> TradeOf(q, date).returnPct == NotANumber)
  {
    OptionKindOfPrice(spot, p.strikePrice, p.expiryDate, p.optionType, now, nm);
  }

  lemma Subtract(x: real, y: real, s: real, k: real)
    ensures (x - y) * s * k == x * s * k - y * s * k
  {
  }

  /** What closing p does to the equity: the capital is credited only with
      the P&L while the position's mark leaves the book, so the equity falls
      by the entry premium, entry * quantity * 50 (nothing, for a position
      that cannot be closed, whose premium is zero). */
  lemma CloseLowersEquityByEntryPremium(l: Ledger, p: Position, date: real)
    requires p in l.positions
    ensures Equity(Close(l, p, date)) == Equity(l) - p.entryPrice * p.quantity as real * LotSize
  {
    if Unclosable(p) {
      return;
    }
    var r := Close(l, p, date);
    assert r.capital == l.capital + Pnl(p) && r.positions == RemoveFirst(l.positions, p);
    RemovalLowersEquity(l.capital, l.positions, p);
  }

  lemma RemovalLowersEquity(capital: real, ps: seq<Position>, p: Position)
    requires p in ps
    ensures capital + Pnl(p) + PositionValue(RemoveFirst(ps, p))
         == capital + PositionValue(ps) - p.entryPrice * p.quantity as real * LotSize
  {
    SumOfRemoveFirst(ps, p);
    PnlIsMarkLessPremium(p);
  }

  /** A position's P&L is its mark less what was paid for it. */
  lemma PnlIsMarkLessPremium(p: Position)
    ensures Pnl(p) == MarkValue(p) - p.entryPrice * p.quantity as real * LotSize
  {
    Subtract(p.currentPrice, p.entryPrice, p.quantity as real, LotSize);
  }

  lemma {:induction false} SumOfRemoveFirst(s: seq<Position>, x: Position)
    requires x in s
    ensures PositionValue(RemoveFirst(s, x)) == PositionValue(s) - MarkValue(x)
  {
    assert s == [s[0]] + s[1..];
    PositionValueAppend([s[0]], s[1..]);
    assert PositionValue([s[0]]) == MarkValue(s[0]) by {
      assert [s[0]][..0] == [];
    }
    if s[0] != x {
      SumOfRemoveFirst(s[1..], x);
      PositionValueAppend([s[0]], RemoveFirst(s[1..], x));
    }
  }

  /** The positions _check_exit_signals flags, in book order. */
  function ExitsOf(ps: seq<Position>, now: real): (r: seq<Position>)
    ensures forall p :: p in r <==> p in ps && Risk.ShouldExitPosition(Risk.DefaultLimits, p, p.currentPrice, now).0
  {
    if ps == [] then []
    else
      var p := ps[|ps| - 1];
      assert ps == ps[..|ps| - 1] + [p];
      ExitsOf(ps[..|ps| - 1], now) + (if Risk.ShouldExitPosition(Risk.DefaultLimits, p, p.currentPrice, now).0 then [p] else [])
  }

  lemma {:induction false} ExitsAreDrawnFromBook(ps: seq<Position>, now: real)
    ensures multiset(ExitsOf(ps, now)) <= multiset(ps)
  {
    if ps != [] {
      ExitsAreDrawnFromBook(ps[..|ps| - 1], now);
      assert ps == ps[..|ps| - 1] + [ps[|ps| - 1]];
    }
  }

  /** _check_exit_signals: collect first, then close. */
  function CheckExits(l: Ledger, date: real, now: real): Ledger {
    CloseEach(l, ExitsOf(l.positions, now), date)
  }

  /** Positions the risk manager does not flag stay in the book. */
  lemma UnflaggedPositionsStay(l: Ledger, date: real, now: real, p: Position)
    requires p in l.positions && !Risk.ShouldExitPosition(Risk.DefaultLimits, p, p.currentPrice, now).0
    ensures p in CheckExits(l, date, now).positions
  {
    var exits := ExitsOf(l.positions, now);
    ExitsAreDrawnFromBook(l.positions, now);
    CloseEachRemovesClosable(l, exits, date);
    assert p !in Closable(exits);
    assert multiset(CheckExits(l, date, now).positions)[p] == multiset(l.positions)[p];
  }

  /** _should_enter_trade */
  predicate EntryAllowed(l: Ledger, volatility: real) {
    |l.positions| == 0 && l.capital >= MinimumCapital && 0.15 <= volatility <= 0.5
  }

  /** NIFTY<strike>CE for a call, NIFTY<strike>PE for a put. */
  function LegSymbol(strike: int, isCall: bool): string {
    "NIFTY" + IntToString(strike) + (if isCall then "CE" else "PE")
  }

  /** One straddle leg at the money. */
  function Leg(strike: int, expiry: int, size: int, price: real, kind: NumberKind, date: real, strategy: string, isCall: bool): Position {
    Risk.Position(LegSymbol(strike, isCall),
             if isCall then "call" else "put",
             strike as real, expiry, size, price, price, date, strategy, kind, kind)
  }

  /** What _enter_trade prices and sizes for a bar. */
  datatype EntryPlan = EntryPlan(strike: int, expiry: int, callPrice: real, putPrice: real, size: int,
                                 callKind: NumberKind, putKind: NumberKind)

  function PlanEntry(capital: real, bar: Bar, now: real, nm: Numerics): EntryPlan {
    var strike := AtmStrike(bar.close);
    var expiry := NextExpiry(bar.date.Floor);
    var c := OptionPrice(bar.close, strike as real, expiry, "call", now, nm);
    var p := OptionPrice(bar.close, strike as real, expiry, "put", now, nm);
    SizedPlan(strike, expiry, c, p, capital,
              OptionKind(bar.close, strike as real, expiry, "call", now, nm),
              OptionKind(bar.close, strike as real, expiry, "put", now, nm))
  }

  function SizedPlan(strike: int, expiry: int, callPrice: real, putPrice: real, capital: real,
                     callKind: NumberKind, putKind: NumberKind): EntryPlan {
    EntryPlan(strike, expiry, callPrice, putPrice, PositionSize(capital, callPrice + putPrice), callKind, putKind)
  }

  lemma SizedPlanSizing(strike: int, expiry: int, callPrice: real, putPrice: real, capital: real,
                        callKind: NumberKind, putKind: NumberKind)
    ensures var e := SizedPlan(strike, expiry, callPrice, putPrice, capital, callKind, putKind);
      (capital >= 0.0 ==> e.size >= 0) &&
      (e.size > 0 ==> e.size as real * ((e.callPrice + e.putPrice) * LotSize) <= capital * RiskPerTrade)
  {
    PositionSizeBounds(capital, callPrice + putPrice);
  }

  /** The straddle is struck at a multiple of 50 within 25 of the close,
      expires on the next Thursday, and both premiums are non-negative. */
  lemma PlanEntryContract(capital: real, bar: Bar, now: real, nm: Numerics)
    ensures var e := PlanEntry(capital, bar, now, nm);
      e.strike % 50 == 0 && Abs(bar.close - e.strike as real) <= 25.0 &&
      1 <= e.expiry - bar.date.Floor <= 7 && Weekday(e.expiry) == Thursday &&
      e.callPrice >= 0.0 && e.putPrice >= 0.0
  {
    NextExpiryIsNextThursday(bar.date.Floor);
    AtmStrikeNearest(bar.close);
  }

  /** The straddle's premium is at most 2% of the capital. */
  lemma PlanEntrySizing(capital: real, bar: Bar, now: real, nm: Numerics)
    ensures var e := PlanEntry(capital, bar, now, nm);
      (capital >= 0.0 ==> e.size >= 0) &&
      (e.size > 0 ==> e.size as real * ((e.callPrice + e.putPrice) * LotSize) <= capital * RiskPerTrade)
  {
    var strike := AtmStrike(bar.close);
    var expiry := NextExpiry(bar.date.Floor);
    SizedPlanSizing(strike, expiry, OptionPrice(bar.close, strike as real, expiry, "call", now, nm),
                    OptionPrice(bar.close, strike as real, expiry, "put", now, nm), capital,
                    OptionKind(bar.close, strike as real, expiry, "call", now, nm),
                    OptionKind(bar.close, strike as real, expiry, "put", now, nm));
  }

  /** (call_price + put_price) * position_size * 50 */
  function Premium(e: EntryPlan): real {
    (e.callPrice + e.putPrice) * e.size as real * LotSize
  }

  /** Book a planned straddle: both legs at their premiums, the premium
      debited; nothing for a non-positive size. */
  function Book(l: Ledger, e: EntryPlan, date: real, strategy: string): Ledger {
    if e.size > 0 then
      Ledger(l.capital - Premium(e),
             l.positions + [Leg(e.strike, e.expiry, e.size, e.callPrice, e.callKind, date, strategy, true),
                            Leg(e.strike, e.expiry, e.size, e.putPrice, e.putKind, date, strategy, false)],
             l.trades)
    else l
  }

  /** _enter_trade: always the two straddle legs, whatever the strategy
      name, and only for a positive size. */
  function Enter(l: Ledger, bar: Bar, strategy: string, now: real, nm: Numerics): Ledger {
    Book(l, PlanEntry(l.capital, bar, now, nm), bar.date, strategy)
  }

  lemma PositionValueAppendTwo(ps: seq<Position>, a: Position, b: Position)
    ensures PositionValue(ps + [a, b]) == PositionValue(ps) + MarkValue(a) + MarkValue(b)
  {
    assert (ps + [a, b])[..|ps| + 1] == ps + [a];
    assert (ps + [a])[..|ps|] == ps;
  }

  lemma Distribute(x: real, y: real, s: real, k: real)
    ensures (x + y) * s * k == x * s * k + y * s * k
  {
  }

  /** Paying the premium and booking the legs at that premium leaves the
      equity unchanged. */
  lemma BookingKeepsEquity(l: Ledger, e: EntryPlan, date: real, strategy: string)
    ensures Equity(Book(l, e, date, strategy)) == Equity(l)
  {
    if e.size > 0 {
      var call := Leg(e.strike, e.expiry, e.size, e.callPrice, e.callKind, date, strategy, true);
      var put := Leg(e.strike, e.expiry, e.size, e.putPrice, e.putKind, date, strategy, false);
      PositionValueAppendTwo(l.positions, call, put);
      assert MarkValue(call) == e.callPrice * e.size as real * LotSize;
      assert MarkValue(put) == e.putPrice * e.size as real * LotSize;
      Distribute(e.callPrice, e.putPrice, e.size as real, LotSize);
    }
  }

  lemma EntryKeepsEquity(l: Ledger, bar: Bar, strategy: string, now: real, nm: Numerics)
    ensures Equity(Enter(l, bar, strategy, now, nm)) == Equity(l)
  {
    BookingKeepsEquity(l, PlanEntry(l.capital, bar, now, nm), bar.date, strategy);
  }

  /** _update_position_values: re-price every position at the new close. */
  function Repriced(p: Position, spot: real, now: real, nm: Numerics): Position {
    p.(currentPrice := OptionPrice(spot, p.strikePrice, p.expiryDate, p.optionType, now, nm),
       currentKind := OptionKind(spot, p.strikePrice, p.expiryDate, p.optionType, now, nm))
  }

  function Reprice(l: Ledger, spot: real, now: real, nm: Numerics): (r: Ledger)
    ensures r.capital == l.capital && r.trades == l.trades && |r.positions| == |l.positions|
    ensures forall i :: 0 <= i < |l.positions| ==> r.positions[i] == Repriced(l.positions[i], spot, now, nm)
  {
    l.(positions := seq(|l.positions|, i requires 0 <= i < |l.positions| => Repriced(l.positions[i], spot, now, nm)))
  }

  /** _process_day: exits, then the entry gate, then re-pricing. */
  function ProcessedDay(l: Ledger, bar: Bar, volatility: real, now: real, nm: Numerics,
                      historicalVolatility: seq<real> -> real): Ledger
  {
    var afterExits := CheckExits(l, bar.date, now);
    var afterEntry :=
      if EntryAllowed(afterExits, volatility)
      then Enter(afterExits, bar, SelectStrategy(bar, historicalVolatility).Name(), now, nm)
      else afterExits;
    Reprice(afterEntry, bar.close, now, nm)
  }

  /** One bar of run_backtest's loop, with the run's fixed inputs. */
  function DayStep(volatility: real, now: real, nm: Numerics, historicalVolatility: seq<real> -> real): (Ledger, Bar) -> Ledger {
    (l: Ledger, bar: Bar) => ProcessedDay(l, bar, volatility, now, nm, historicalVolatility)
  }

  /** The bar loop of run_backtest: the books after the bars and the equity
      curve, one snapshot per bar taken at the bar's date. */
  function Run(l: Ledger, bars: seq<Bar>, day: (Ledger, Bar) -> Ledger): (r: (Ledger, seq<EquityPoint>))
    ensures |r.1| == |bars|
    ensures forall i :: 0 <= i < |bars| ==> r.1[i].date == bars[i].date
  {
    if bars == [] then (l, [])
    else
      var front := bars[..|bars| - 1];
      var before := Run(l, front, day);
      var bar := bars[|bars| - 1];
      var after := day(before.0, bar);
      var curve := before.1 + [Snapshot(after, bar.date)];
      assert forall i :: 0 <= i < |front| ==> front[i] == bars[i];
      (after, curve)
  }

  /** The last snapshot is the equity of the books after the last bar. */
  lemma LastSnapshotIsEquity(l: Ledger, bars: seq<Bar>, day: (Ledger, Bar) -> Ledger)
    requires bars != []
    ensures var r := Run(l, bars, day);
      r.1[|bars| - 1].equity == Equity(r.0) && r.1[|bars| - 1].capital == r.0.capital
  {
  }

  /** The rows of the frame between the two dates, inclusive. */
  function InRange(bars: seq<Bar>, start: real, end: real): (r: seq<Bar>)
    ensures forall b :: b in r <==> b in bars && start <= b.date <= end
  {
    if bars == [] then []
    else InRange(bars[..|bars| - 1], start, end) +
         (if start <= bars[|bars| - 1].date <= end then [bars[|bars| - 1]] else [])
  }

  // ---------------------------------------------------------------------
  // _calculate_results

  /** The running maximum up to the end: peak = np.maximum.accumulate(...)[-1]. */
  function Peak(es: seq<real>): (m: real)
    requires es != []
    ensures forall i :: 0 <= i < |es| ==> es[i] <= m
    ensures exists i :: 0 <= i < |es| && es[i] == m
  {
    if |es| == 1 then es[0]
    else
      var front := Peak(es[..|es| - 1]);
      MaxReal(front, es[|es| - 1])
  }

  /** (equity - peak) / peak; a zero peak gives 0 here. */
  function Drawdown(e: real, peak: real): real {
    if peak == 0.0 then 0.0 else (e - peak) / peak
  }

  function MaxDrawdown(es: seq<real>): real
    requires es != []
  {
    if |es| == 1 then Drawdown(es[0], es[0])
    else MinReal(MaxDrawdown(es[..|es| - 1]), Drawdown(es[|es| - 1], Peak(es)))
  }

  lemma ProductSign(x: real, y: real)
    requires x >= 0.0 && y > 0.0
    ensures x * y >= 0.0 && (x > 0.0 ==> x * y > 0.0)
  {
  }

  lemma DrawdownWithin(e: real, peak: real)
    requires 0.0 < e <= peak
    ensures -1.0 < Drawdown(e, peak) <= 0.0
  {
    var d := (e - peak) / peak;
    assert d * peak == e - peak;
    if d > 0.0 {
      ProductSign(d, peak);
    }
    if d <= -1.0 {
      ProductSign(-1.0 - d, peak);
    }
  }

  /** For positive equities the maximum drawdown lies in (-1, 0]. */
  lemma {:induction false} MaxDrawdownWithin(es: seq<real>)
    requires es != [] && forall i :: 0 <= i < |es| ==> es[i] > 0.0
    ensures -1.0 < MaxDrawdown(es) <= 0.0
  {
    if |es| == 1 {
      DrawdownWithin(es[0], es[0]);
    } else {
      MaxDrawdownWithin(es[..|es| - 1]);
      DrawdownWithin(es[|es| - 1], Peak(es));
    }
  }

  function Equities(curve: seq<EquityPoint>): (es: seq<real>)
    ensures |es| == |curve| && forall i :: 0 <= i < |curve| ==> es[i] == curve[i].equity
  {
    seq(|curve|, i requires 0 <= i < |curve| => curve[i].equity)
  }

  function Winners(ts: seq<Trade>): (r: seq<Trade>)
    ensures |r| <= |ts| && forall t :: t in r <==> t in ts && t.pnl > 0.0
  {
    if ts == [] then [] else Winners(ts[..|ts| - 1]) + (if ts[|ts| - 1].pnl > 0.0 then [ts[|ts| - 1]] else [])
  }

  function Losers(ts: seq<Trade>): (r: seq<Trade>)
    ensures |r| <= |ts| && forall t :: t in r <==> t in ts && t.pnl < 0.0
  {
    if ts == [] then [] else Losers(ts[..|ts| - 1]) + (if ts[|ts| - 1].pnl < 0.0 then [ts[|ts| - 1]] else [])
  }

  lemma {:induction false} WinnersAndLosersDisjoint(ts: seq<Trade>)
    ensures |Winners(ts)| + |Losers(ts)| <= |ts|
  {
    if ts != [] {
      WinnersAndLosersDisjoint(ts[..|ts| - 1]);
    }
  }

  function SumPnl(ts: seq<Trade>): real {
    if ts == [] then 0.0 else SumPnl(ts[..|ts| - 1]) + ts[|ts| - 1].pnl
  }

  /** np.mean of the P&Ls, or 0 for an empty list. */
  function MeanPnl(ts: seq<Trade>): real {
    if ts == [] then 0.0 else SumPnl(ts) / |ts| as real
  }

  lemma {:induction false} SumOfPositive(ts: seq<Trade>)
    requires ts != [] && forall t :: t in ts ==> t.pnl > 0.0
    ensures SumPnl(ts) > 0.0
  {
    if |ts| > 1 {
      SumOfPositive(ts[..|ts| - 1]);
    }
    assert ts[|ts| - 1] in ts;
  }

  lemma {:induction false} SumOfNegative(ts: seq<Trade>)
    requires ts != [] && forall t :: t in ts ==> t.pnl < 0.0
    ensures SumPnl(ts) < 0.0
  {
    if |ts| > 1 {
      SumOfNegative(ts[..|ts| - 1]);
    }
    assert ts[|ts| - 1] in ts;
  }

  function MaxPnl(ts: seq<Trade>): (m: real)
    requires ts != []
    ensures forall t :: t in ts ==> t.pnl <= m
  {
    if |ts| == 1 then ts[0].pnl else MaxReal(MaxPnl(ts[..|ts| - 1]), ts[|ts| - 1].pnl)
  }

  function MinPnl(ts: seq<Trade>): (m: real)
    requires ts != []
    ensures forall t :: t in ts ==> m <= t.pnl
  {
    if |ts| == 1 then ts[0].pnl else MinReal(MinPnl(ts[..|ts| - 1]), ts[|ts| - 1].pnl)
  }

  /** The trade statistics of _calculate_results. */
  datatype TradeStats = TradeStats(
    winRate: real, avgWin: real, avgLoss: real, maxWin: real, maxLoss: real, profitFactor: ProfitFactor)

  function Stats(trades: seq<Trade>): TradeStats {
    if trades == [] then TradeStats(0.0, 0.0, 0.0, 0.0, 0.0, Finite(0.0))
    else
      var avgWin := MeanPnl(Winners(trades));
      var avgLoss := MeanPnl(Losers(trades));
      TradeStats(|Winners(trades)| as real / |trades| as real, avgWin, avgLoss, MaxPnl(trades), MinPnl(trades),
                 if avgLoss != 0.0 then Finite(Abs(avgWin / avgLoss)) else Infinite)
  }

  lemma QuotientSign(x: real, n: nat)
    requires x > 0.0 && n > 0
    ensures x / n as real > 0.0
  {
  }

  lemma QuotientNegative(x: real, n: nat)
    requires x < 0.0 && n > 0
    ensures x / n as real < 0.0
  {
  }

  lemma RatioWithin(a: nat, b: nat)
    requires a <= b && b > 0
    ensures 0.0 <= a as real / b as real <= 1.0
  {
    assert a as real / b as real * b as real == a as real;
  }

  /** The averages have the sign of their trades. */
  lemma AveragesSigned(trades: seq<Trade>)
    ensures Winners(trades) != [] ==> MeanPnl(Winners(trades)) > 0.0
    ensures Losers(trades) != [] ==> MeanPnl(Losers(trades)) < 0.0
  {
    var w := Winners(trades);
    var l := Losers(trades);
    if w != [] {
      SumOfPositive(w);
      QuotientSign(SumPnl(w), |w|);
    }
    if l != [] {
      SumOfNegative(l);
      QuotientNegative(SumPnl(l), |l|);
    }
  }

  /** A win rate in [0, 1]; the infinite profit factor exactly when trades
      exist and none lost; all zeros with no trades; averages of the right
      sign; the worst trade no better than the best. */
  lemma StatsFacts(trades: seq<Trade>)
    ensures 0.0 <= Stats(trades).winRate <= 1.0
    ensures Stats(trades).profitFactor == Infinite <==> trades != [] && Losers(trades) == []
    ensures trades == [] ==> Stats(trades) == TradeStats(0.0, 0.0, 0.0, 0.0, 0.0, Finite(0.0))
    ensures Winners(trades) != [] ==> Stats(trades).avgWin > 0.0
    ensures Losers(trades) != [] ==> Stats(trades).avgLoss < 0.0
    ensures trades != [] ==> Stats(trades).maxLoss <= Stats(trades).maxWin
  {
    AveragesSigned(trades);
    if trades != [] {
      RatioWithin(|Winners(trades)|, |trades|);
      assert trades[0] in trades;
    }
  }

  /** _calculate_results: the empty result for an empty curve, and (through
      the exception handler) for a zero first equity or a zero day span. */
  function Results(curve: seq<EquityPoint>, trades: seq<Trade>): BacktestResult {
    if curve == [] then EmptyResult
    else
      var initial := curve[0].equity;
      var final := curve[|curve| - 1].equity;
      if initial == 0.0 || DaysBetween(curve[|curve| - 1].date, curve[0].date) == 0 then EmptyResult
      else
        var st := Stats(trades);
        BacktestResult((final - initial) / initial, MaxDrawdown(Equities(curve)), st.winRate, st.profitFactor,
                       |trades|, |Winners(trades)|, |Losers(trades)|, st.avgWin, st.avgLoss, st.maxWin, st.maxLoss)
  }

  /** A curve whose span is under one day (a single bar, say) gives the empty result. */
  lemma ShortRunIsEmpty(curve: seq<EquityPoint>, trades: seq<Trade>)
    requires curve != [] && curve[|curve| - 1].date - curve[0].date < 1.0 && curve[|curve| - 1].date >= curve[0].date
    ensures Results(curve, trades) == EmptyResult
  {
  }

  /** The reported statistics: winners and losers within the trade count
      and the statistics above. */
  lemma ResultsFacts(curve: seq<EquityPoint>, trades: seq<Trade>)
    requires curve != [] && curve[0].equity != 0.0
    requires DaysBetween(curve[|curve| - 1].date, curve[0].date) != 0
    ensures var r := Results(curve, trades);
      r.winningTrades + r.losingTrades <= r.totalTrades == |trades| &&
      r.winRate == Stats(trades).winRate && r.profitFactor == Stats(trades).profitFactor &&
      r.avgWin == Stats(trades).avgWin && r.avgLoss == Stats(trades).avgLoss &&
      r.maxWin == Stats(trades).maxWin && r.maxLoss == Stats(trades).maxLoss
  {
    WinnersAndLosersDisjoint(trades);
  }

  /** Positive equities throughout keep the reported drawdown in (-1, 0]. */
  lemma ResultsDrawdownWithin(curve: seq<EquityPoint>, trades: seq<Trade>)
    requires curve != [] && forall i :: 0 <= i < |curve| ==> curve[i].equity > 0.0
    ensures -1.0 < Results(curve, trades).maxDrawdown <= 0.0
  {
    if DaysBetween(curve[|curve| - 1].date, curve[0].date) != 0 {
      MaxDrawdownWithin(Equities(curve));
    }
  }

  // ---------------------------------------------------------------------
  // The engine

  class BacktestEngine {
    const initialCapital: real
    var currentCapital: real
    var positions: seq<Position>
    var trades: seq<Trade>
    var equityCurve: seq<EquityPoint>

    function Books(): Ledger
      reads this
    {
      Ledger(currentCapital, positions, trades)
    }

    constructor (initialCapital: real)
      ensures this.initialCapital == initialCapital && currentCapital == initialCapital
      ensures positions == [] && trades == [] && equityCurve == []
    {
      this.initialCapital := initialCapital;
      currentCapital := initialCapital;
      positions := [];
      trades := [];
      equityCurve := [];
    }

    /** _should_enter_trade */
    function ShouldEnterTrade(volatility: real): (b: bool)
      reads this
      ensures b <==> positions == [] && currentCapital >= MinimumCapital && 0.15 <= volatility <= 0.5
    {
      EntryAllowed(Books(), volatility)
    }

    /** _enter_trade */
    method EnterTrade(bar: Bar, strategy: string, now: real, nm: Numerics)
      modifies this
      ensures Books() == Enter(old(Books()), bar, strategy, now, nm)
      ensures equityCurve == old(equityCurve)
    {
      var plan := PlanEntry(currentCapital, bar, now, nm);
      if plan.size > 0 {
        var callPosition := Leg(plan.strike, plan.expiry, plan.size, plan.callPrice, plan.callKind, bar.date, strategy, true);
        var putPosition := Leg(plan.strike, plan.expiry, plan.size, plan.putPrice, plan.putKind, bar.date, strategy, false);
        positions := positions + [callPosition, putPosition];
        currentCapital := currentCapital - Premium(plan);
      }
    }

    /** _close_position */
    method ClosePosition(position: Position, date: real)
      modifies this
      ensures Books() == Close(old(Books()), position, date)
      ensures equityCurve == old(equityCurve)
    {
      if Unclosable(position) {
        return;
      }
      var pnl := (position.currentPrice - position.entryPrice) * position.quantity as real * LotSize;
      var trade := TradeOf(position, date);
      trades := trades + [trade];
      currentCapital := currentCapital + pnl;
      positions := RemoveFirst(positions, position);
      assert Books() == Ledger(old(currentCapital) + Pnl(position), RemoveFirst(old(positions), position),
                               old(trades) + [TradeOf(position, date)]);
    }

    /** Close a list of positions in order. */
    method CloseListed(toClose: seq<Position>, date: real)
      modifies this
      ensures Books() == CloseEach(old(Books()), toClose, date)
      ensures equityCurve == old(equityCurve)
    {
      var j := 0;
      while j < |toClose|
        invariant 0 <= j <= |toClose|
        invariant CloseEach(Books(), toClose[j..], date) == CloseEach(old(Books()), toClose, date)
        invariant equityCurve == old(equityCurve)
      {
        assert toClose[j..][1..] == toClose[j + 1..];
        ClosePosition(toClose[j], date);
        j := j + 1;
      }
    }

    /** _check_exit_signals: collect the flagged positions, then close them. */
    method CheckExitSignals(date: real, now: real)
      modifies this
      ensures Books() == CheckExits(old(Books()), date, now)
      ensures equityCurve == old(equityCurve)
    {
      var positionsToClose: seq<Position> := [];
      var i := 0;
      while i < |positions|
        invariant 0 <= i <= |positions|
        invariant positionsToClose == ExitsOf(positions[..i], now)
      {
        assert positions[..i + 1][..i] == positions[..i];
        var position := positions[i];
        var shouldExit := Risk.ShouldExitPosition(Risk.DefaultLimits, position, position.currentPrice, now);
        if shouldExit.0 {
          positionsToClose := positionsToClose + [position];
        }
        i := i + 1;
      }
      assert positions[..i] == positions;
      CloseListed(positionsToClose, date);
    }

    /** _close_all_positions: iterate over a copy of the list. */
    method CloseAllPositions(lastBar: Bar)
      modifies this
      ensures Books() == CloseEach(old(Books()), old(positions), lastBar.date)
      ensures equityCurve == old(equityCurve)
    {
      var copy := positions;
      CloseListed(copy, lastBar.date);
    }

    /** _update_position_values */
    method UpdatePositionValues(spot: real, now: real, nm: Numerics)
      modifies this
      ensures Books() == Reprice(old(Books()), spot, now, nm)
      ensures equityCurve == old(equityCurve)
    {
      var i := 0;
      while i < |positions|
        invariant 0 <= i <= |positions| == |old(positions)|
        invariant forall k :: 0 <= k < i ==> positions[k] == Repriced(old(positions)[k], spot, now, nm)
        invariant forall k :: i <= k < |positions| ==> positions[k] == old(positions)[k]
        invariant currentCapital == old(currentCapital) && trades == old(trades)
        invariant equityCurve == old(equityCurve)
      {
        var position := positions[i];
        var newPrice := OptionPrice(spot, position.strikePrice, position.expiryDate, position.optionType, now, nm);
        var newKind := OptionKind(spot, position.strikePrice, position.expiryDate, position.optionType, now, nm);
        positions := positions[i := position.(currentPrice := newPrice, currentKind := newKind)];
        i := i + 1;
      }
      assert positions == Reprice(old(Books()), spot, now, nm).positions;
    }

    /** _update_equity_curve */
    method UpdateEquityCurve(date: real)
      modifies this
      ensures equityCurve == old(equityCurve) + [Snapshot(old(Books()), date)]
      ensures Books() == old(Books())
    {
      var positionValue := PositionValue(positions);
      var totalValue := currentCapital + positionValue;
      equityCurve := equityCurve + [EquityPoint(date, totalValue, currentCapital, |positions|)];
    }

    /** _process_day */
    method ProcessDay(bar: Bar, volatility: real, now: real, nm: Numerics, historicalVolatility: seq<real> -> real)
      modifies this
      ensures Books() == ProcessedDay(old(Books()), bar, volatility, now, nm, historicalVolatility)
      ensures equityCurve == old(equityCurve)
    {
      CheckExitSignals(bar.date, now);
      if ShouldEnterTrade(volatility) {
        var strategy := SelectStrategy(bar, historicalVolatility);
        EnterTrade(bar, strategy.Name(), now, nm);
      }
      UpdatePositionValues(bar.close, now, nm);
    }

    /** _calculate_results */
    function CalculateResults(): BacktestResult
      reads this
    {
      Results(equityCurve, trades)
    }

    /** The bar loop of run_backtest, from an empty equity curve. */
    method ProcessBars(data: seq<Bar>, volatility: real, now: real, nm: Numerics,
                       historicalVolatility: seq<real> -> real)
      requires equityCurve == []
      modifies this
      ensures (Books(), equityCurve) == Run(old(Books()), data, DayStep(volatility, now, nm, historicalVolatility))
    {
      ghost var start := Books();
      ghost var day := DayStep(volatility, now, nm, historicalVolatility);
      var i := 0;
      while i < |data|
        invariant 0 <= i <= |data|
        invariant (Books(), equityCurve) == Run(start, data[..i], day)
      {
        ghost var before := Run(start, data[..i], day);
        assert data[..i + 1][..i] == data[..i];
        ProcessDay(data[i], volatility, now, nm, historicalVolatility);
        ghost var after := day(before.0, data[i]);
        assert Books() == after;
        UpdateEquityCurve(data[i].date);
        assert equityCurve == before.1 + [Snapshot(after, data[i].date)];
        i := i + 1;
      }
      assert data[..i] == data;
    }

    /** run_backtest: an empty date range returns the empty result and
      leaves the engine alone; otherwise the books are reset, every bar is
      processed and snapshotted, the rest is closed at the last bar and the
      results are aggregated. Volatility is estimated once over the whole
      range, as the source does on every bar. */
    method RunBacktest(historicalData: seq<Bar>, startDate: real, endDate: real, now: real, nm: Numerics,
                       historicalVolatility: seq<real> -> real)
      returns (result: BacktestResult)
      modifies this
      ensures var data := InRange(historicalData, startDate, endDate);
        data == [] ==> result == EmptyResult && Books() == old(Books()) && equityCurve == old(equityCurve)
      ensures var data := InRange(historicalData, startDate, endDate);
        data != [] ==>
          var vol := Volatility(Closes(data), historicalVolatility);
          var run := Run(Ledger(initialCapital, [], []), data, DayStep(vol, now, nm, historicalVolatility));
          var closed := CloseEach(run.0, run.0.positions, data[|data| - 1].date);
          Books() == closed && equityCurve == run.1 && result == Results(run.1, closed.trades)
    {
      var data := InRange(historicalData, startDate, endDate);
      if data == [] {
        return EmptyResult;
      }
      currentCapital := initialCapital;
      positions := [];
      trades := [];
      equityCurve := [];
      var volatility := Volatility(Closes(data), historicalVolatility);
      ghost var run := Run(Ledger(initialCapital, [], []), data, DayStep(volatility, now, nm, historicalVolatility));
      assert Books() == Ledger(initialCapital, [], []);
      ProcessBars(data, volatility, now, nm, historicalVolatility);
      assert Books() == run.0 && equityCurve == run.1;
      CloseAllPositions(data[|data| - 1]);
      result := CalculateResults();
    }
  }
}
