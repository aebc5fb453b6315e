# NIFTY option-strategy system in Dafny

This project models the option-strategy and risk layer of a NIFTY index-options
trading system, and proves properties of that model. The layer has five parts:

- **Strategy templates.** Straddle, strangle, iron condor and butterfly
  expiry payoffs, breakevens, maximum profit and loss, signed-weight leg
  Greeks, and the volatility/trend selector.
- **Risk manager.** Stop-loss and take-profit levels, the first-match exit
  decision, Kelly position sizing, the fixed-order risk alerts, placeholder
  portfolio metrics, hedging recommendations, the position list, and the
  Sharpe-ordered portfolio optimizer.
- **Pricing engine.** The expiry branches of the three pricers, the
  Cox-Ross-Rubinstein backward induction over an array, the method dispatch
  with its error result, quantity-weighted portfolio Greeks, and the
  volatility surface with its nearest-point fallback.
- **Backtest engine.** A day-stepped state machine over capital, open
  positions, closed trades and the equity curve, plus the result
  aggregator.
- **Live trading engine.** Position bookkeeping: the strike ladders, the
  signed leg templates, clamped sizing, closing, close-all and reduce-half,
  portfolio valuation, and the entry gate with its market-hours window.

The modules follow the program:

| file | module | models |
|---|---|---|
| common.dfy | `Common` | option results, Greek vectors, Python's `int()`, `round()` and `str.lower()`, day-number calendar and next-Thursday expiry, `list.remove`, the lot size, the volatility regime table |
| pricing.dfy | `Pricing` | option_pricing.py |
| strategies.dfy | `Strategies` | option_strategies.py |
| risk.dfy | `Risk` | `RiskManager` in risk_management.py |
| optimizer.dfy | `Optimizer` | `PortfolioOptimizer` in risk_management.py |
| backtest.dfy | `Backtest` | `BacktestEngine` in backtesting.py |
| trading.dfy | `Trading` | `TradingEngine` in trading_engine.py |

Stateful objects are classes whose methods have `modifies` clauses:
`VolatilitySurface`, `RiskManager`, `BacktestEngine` and `TradingEngine`.

- Each engine's fields have a value snapshot: `Backtest.Ledger` and
  `Trading.Desk`.
- A method's contract ties the new snapshot to a pure function of the old
  one (`Close`, `CloseEach`, `CheckExits`, `Run`, `ClosePos`).
- The lemmas about those functions state what the source promises: which
  positions leave, how much P&L is realised, and that equity is unchanged
  at entry.
- Loops in the source stay loops: the binomial induction over an `array`,
  the Greek accumulation, the alert list, the optimizer's allocation loop,
  the per-bar backtest loop, and the engines' loops over positions.

Some inputs are parameters rather than modelled code:

- **Float formulas.** The Black-Scholes closed form and Greeks, the CRR
  factors and the Monte Carlo sample are uninterpreted. They arrive as the
  `Pricing.Numerics` record of functions.
- **Number types.** Whether a price is a plain Python number or a numpy
  float decides whether dividing by it raises. Each position records the
  type of its entry and current price as a `Common.NumberKind`, and the
  pricer's result type is `Pricing.QuoteKind`.
- **Wall-clock time.** `now` is a real number of days since 1970-01-01.
  Expiries are whole day numbers, and the time of day is derived from the
  fraction.
- **The historical volatility estimator** is a function parameter.

Where the code does something surprising, the model follows the code:

- **Closing a position credits only its P&L.** Closing a backtest position
  adds (current − entry)·quantity·50 to capital, although entry had already
  debited the premium. So closing lowers equity by the entry premium
  (`Backtest.CloseLowersEquityByEntryPremium`).
- **Backtest strategy and legs disagree.** The backtest's strategy selector
  always yields "butterfly", yet entry always opens two straddle legs
  tagged with that name.
- **Some zero-premium positions never close.** The pricer's `max(x, 0)`
  returns the plain 0 only when x < 0; a tie returns numpy's 0.0, and a
  positive x is numpy too. In the backtest, closing a position whose entry
  price is the plain 0 and whose current price is also a plain number
  raises in `return_pct` before any change, so such a position is never
  closed, not even at the end (`Backtest.CloseAllLeavesOnlyStuck`). Once
  either price is numpy the division gives infinity, or nan for 0/0,
  instead of raising, and the position closes (`Backtest.ReturnOf`). So a
  put opened out of the money after expiry closes once it is re-marked at
  a close equal to its strike (`Backtest.ExpiredRemarkCloses`).
- **The 0.05 fallback prices are unreachable.** Both engines' option-price
  helpers fall back to 0.05 when the pricer raises or returns no price, but
  `price_option` catches every raise itself and always returns a price
  (0 with an error), so the fallback is never taken.
- **Closing an absent position still books P&L.** The trading engine's
  `_close_position` adds the P&L to the daily P&L whether or not the
  position is in the list.
- **A fresh trading engine refuses entries.** Its portfolio value starts at
  0, so it refuses entries until the portfolio value is first updated
  (`Trading.TradingEngine.constructor`).

## Model

| member | source | states |
|---|---|---|
| Common.AtmStrikeNearest | backtesting.py:362-364 | the at-the-money strike is a multiple of 50 within 25 points of spot |
| Common.NextExpiryIsNextThursday | backtesting.py:366-372 | the next expiry lies 1 to 7 days ahead, is a Thursday, and no Thursday lies strictly between |
| Common.AtmStrike | backtesting.py:362-364 | round(spot/50)·50 with Python's half-to-even `round`; `AtmStrikeNearest` bounds it |
| Common.NextExpiry | backtesting.py:366-372 | (3 − weekday) mod 7 days ahead, 7 on a Thursday; `NextExpiryIsNextThursday` shows this is the next Thursday |
| Common.VolatilityRegime | trading_engine.py:196-203 | straddle iff vol > 0.3, strangle iff 0.25 < vol ≤ 0.3, iron condor iff vol < 0.2, butterfly iff 0.2 ≤ vol ≤ 0.25 |
| Common.RemoveFirst | backtesting.py:252 | `list.remove`: one occurrence fewer when present (as a multiset), the list unchanged when absent |
| Pricing.Intrinsic | option_pricing.py:38-39 | the expiry value is max(S−K,0) for a call (case-insensitive) and max(K−S,0) otherwise, never negative |
| Pricing.BlackScholesPrice | option_pricing.py:29-50 | intrinsic value when T ≤ 0; otherwise the formula floored at 0; never negative |
| Pricing.QuoteKindOfPrice | option_pricing.py:38-50 | the price is the floored value; a plain result is 0; a zero result is numpy iff the unfloored value is 0, which at expiry is the strike equal to the spot |
| Pricing.BlackScholesGreeks | option_pricing.py:52-102 | all Greeks are zero when T ≤ 0; otherwise the Greeks formula |
| Pricing.MonteCarloPrice | option_pricing.py:165-197 | when T ≤ 0 the price is intrinsic and the standard error is 0.0 |
| Pricing.ParseMethod | option_pricing.py:243-266 | exactly the three names price_option's if-chain accepts; every other name falls to the raising else-branch |
| Pricing.PricerRaises | option_pricing.py:38-41 | only a Black-Scholes quote before expiry with a zero strike raises (S/K with Python floats) |
| Pricing.TerminalValues | option_pricing.py:140-151 | one leaf per node 0..N, each the call or put payoff at stock S·u^(N−i)·d^i |
| Pricing.LeafStockDecreasing | option_pricing.py:140-143 | with u > 1 and d = 1/u, terminal stock prices strictly decrease in i |
| Pricing.StepInPlace | option_pricing.py:154-157 | one backward step, done in place on the array, equals the pure step: indices 0..k become disc·(p·v[i]+(1−p)·v[i+1]) and the rest are unchanged |
| Pricing.StepWithin | option_pricing.py:154-157 | for 0 ≤ p ≤ 1 and 0 < disc ≤ 1, a step keeps every value within [0, bound] |
| Pricing.BackwardWithin | option_pricing.py:154-157 | the values stay within [0, bound] through all remaining steps |
| Pricing.BinomialPrice | option_pricing.py:122-159 | the array loops return the pure CRR value: leaves, then steps N−1 down to 0, then v[0] |
| Pricing.BinomialValue | option_pricing.py:122-159 | intrinsic value when T ≤ 0; otherwise v[0] after backward induction from the N+1 leaf payoffs; `BinomialPriceBounds` bounds it |
| Pricing.BinomialPriceBounds | option_pricing.py:140-159 | the binomial price lies between 0 and the largest terminal payoff |
| Pricing.PriceOption | option_pricing.py:240-270 | black_scholes gives price and Greeks, binomial gives price, monte_carlo gives price and standard error; any other name gives price 0 with an error naming the method; a Black-Scholes quote that raises (zero strike before expiry) gives price 0 with an error, exactly when `PricerRaises` holds |
| Pricing.ExpiredQuotesAreIntrinsic | option_pricing.py:240-270 | when T ≤ 0 each of the three methods quotes the intrinsic value, with zero Greeks or zero standard error |
| Pricing.PositionParams | option_pricing.py:281-287 | the pricing inputs are the position's five keys with dividend yield 0, whatever the position holds |
| Pricing.RaisesInGreeks | option_pricing.py:60-63 | a position's Greeks raise exactly before expiry with a zero strike |
| Pricing.PortfolioGreeks | option_pricing.py:272-304 | the uncaught raise (no result) exactly when some position has a zero strike before expiry; otherwise the accumulation loop returns Σ greekᵢ·qtyᵢ per Greek |
| Pricing.WeightedGreeks | option_pricing.py:272-304 | Σ greekᵢ·qtyᵢ, Greek by Greek, over Black-Scholes Greeks at zero dividend yield; additive over books (`WeightedGreeksAppend`) |
| Pricing.WeightedGreeksAppend | option_pricing.py:272-304 | the Greeks of two books joined are the sum of their Greeks |
| Pricing.ExpiredBookHasZeroGreeks | option_pricing.py:272-304 | a book of expired options has zero Greeks (and so does an empty one) |
| Pricing.NearestIndex | option_pricing.py:216-229 | the index of a value at the least distance from the target |
| Pricing.Nearest | option_pricing.py:216-229 | the nearest value is a member, and no member is strictly nearer |
| Pricing.NearestIsFirstNearest | option_pricing.py:216-229 | ties go to the first nearest key in insertion order, as `min` does |
| Pricing.VolatilitySurface.constructor | option_pricing.py:199-200 | the surface starts empty |
| Pricing.VolatilitySurface.AddVolatilityPoint | option_pricing.py:202-205 | the (strike, expiry) entry is overwritten; a new key goes last in insertion order |
| Pricing.VolatilitySurface.InterpolateVolatility | option_pricing.py:216-229 | 0.2 for an empty surface; otherwise a stored value or 0.2 |
| Pricing.VolatilitySurface.GetVolatility | option_pricing.py:207-214 | the stored value on an exact hit, else the interpolated one |
| Pricing.VolatilitySurface.InterpolationHitsStoredPoint | option_pricing.py:216-229 | for a stored point, the nearest strike and the nearest expiry lead back to that point's value |
| Strategies.PriceOr0 | option_strategies.py:93-98 | a missing price key reads as 0 |
| Strategies.StraddlePayoff | option_strategies.py:54-59 | long call plus long put at strikes[0]; `StraddlePayoffIsDistance` gives \|S−K\| |
| Strategies.StranglePayoff | option_strategies.py:115-122 | long call at strikes[0] plus long put at strikes[1]; `StranglePayoffZeroBetweenStrikes` |
| Strategies.IronCondorPayoff | option_strategies.py:180-197 | long put, short put, short call, long call at strikes 0..3; `IronCondorPayoffBounds` |
| Strategies.ButterflyPayoff | option_strategies.py:280-294 | calls at strikes 0..2 with weights 1, −2, 1; `ButterflyPayoffPeak` |
| Strategies.StraddlePayoffIsDistance | option_strategies.py:54-59 | the straddle payoff is \|S−K\| and never negative |
| Strategies.StranglePayoffZeroBetweenStrikes | option_strategies.py:115-122 | with put ≤ call strike the payoff is ≥ 0, and 0 exactly for spots in [put, call] |
| Strategies.IronCondorPayoffBounds | option_strategies.py:180-197 | for K1≤K2≤K3≤K4 the payoff is in [−max wing, 0], 0 on [K2,K3], −(K2−K1) below K1 and −(K4−K3) above K4 |
| Strategies.IronCondorWorstCaseAttained | option_strategies.py:252-272 | the worst payoff −max wing is reached at K1 or at K4 |
| Strategies.ButterflyPayoffPeak | option_strategies.py:280-294 | for K1≤K2≤K3 the payoff is 0 below K1, at most K2−K1, and equals K2−K1 at S = K2 |
| Strategies.MissingPricesCountAsZero | option_strategies.py:93-98 | with no prices every debit and credit is 0 and both straddle breakevens sit at the strike |
| Strategies.StraddleBreakeven | option_strategies.py:93-98 | [K − debit, K + debit] with debit = call + put price (missing ones 0) |
| Strategies.StrangleBreakeven | option_strategies.py:157-163 | [strikes[1] − debit, strikes[0] + debit] |
| Strategies.IronCondorBreakeven | option_strategies.py:241-250 | [put_short − credit, call_short + credit] with the net credit of the four prices |
| Strategies.ButterflyBreakeven | option_strategies.py:336-345 | [lower + debit, upper − debit] with debit = wings − 2·middle |
| Strategies.StraddleBreakevenProperties | option_strategies.py:93-98 | [K−debit, K+debit] is ascending iff debit > 0, and both are zero-profit spots when debit ≥ 0 |
| Strategies.StrangleBreakevenProperties | option_strategies.py:157-163 | [put−debit, call+debit] is ascending iff put−call < 2·debit, and both are zero-profit spots for put ≤ call and debit ≥ 0 |
| Strategies.IronCondorBreakevenProperties | option_strategies.py:241-250 | put_short−credit and call_short+credit are zero-profit spots when 0 ≤ credit ≤ each wing |
| Strategies.ButterflyBreakevenProperties | option_strategies.py:336-345 | lower+debit and upper−debit are zero-profit spots for equal wings and 0 ≤ debit ≤ wing |
| Strategies.StraddleMaxProfitLoss | option_strategies.py:100-107 | profit is unbounded; the loss never exceeds the debit and reaches it at the strike |
| Strategies.StrangleMaxProfitLoss | option_strategies.py:165-172 | profit is unbounded; the loss never exceeds the debit and reaches it between the strikes |
| Strategies.IronCondorMaxProfitLoss | option_strategies.py:252-272 | max profit = net credit and max loss = widest wing − credit; the profit lies between them and both bounds are reached |
| Strategies.ButterflyMaxProfitLoss | option_strategies.py:347-363 | max profit = (K2−K1) − debit, reached at K2; below K1 the loss is the debit; the loss never exceeds it when the upper wing is no wider than the lower |
| Strategies.MaxProfitLossOf | option_strategies.py:100-363 | unbounded profit and the debit as loss for straddle and strangle; credit and widest wing − credit for the condor; (middle − lower) − debit and the debit for the butterfly (the four lemmas above relate them to the payoffs) |
| Strategies.StraddleGreeks | option_strategies.py:61-91 | call plus put Greeks at the strike, i.e. the weighted sum of the straddle's legs |
| Strategies.StrangleGreeks | option_strategies.py:124-155 | call Greeks at strikes[0] plus put Greeks at strikes[1] |
| Strategies.AccumulateLegs | option_strategies.py:217-231 | the loop totals greek·quantity over the listed legs |
| Strategies.IronCondorGreeks | option_strategies.py:199-239 | the signed sum with weights [1,−1,−1,1] on [put, put, call, call] |
| Strategies.ButterflyGreeks | option_strategies.py:296-334 | the signed sum with weights [1,−2,1] on calls |
| Strategies.ButterflyDeltaIsSignedSum | option_strategies.py:309-326 | the butterfly's delta is lower − 2·middle + upper call delta |
| Strategies.SelectStrategy | option_strategies.py:375-390 | any non-neutral trend gives straddle; the butterfly branch is unreachable; the neutral table is applied to the volatility |
| Strategies.SelectStrategyDefaults | option_strategies.py:375-390 | with no keys (vol 0.2, neutral) the selector gives straddle |
| Strategies.ParseStrategyName | option_strategies.py:392-394 | a name found in the registry is the name of the strategy returned |
| Strategies.ParseStrategyNameRoundTrip | option_strategies.py:367-394 | every strategy is registered under its own name |
| Strategies.Payoffs | option_strategies.py:396-415 | one payoff per input spot, in the same order |
| Strategies.HasZeroStrike | option_strategies.py:61-73 | one of the strikes the template prices is 0 |
| Strategies.HasZeroStrikeIffLegRaises | option_strategies.py:61-73 | a strike the template prices is 0 exactly when one of its legs' Greeks raise (the 30-day horizon is positive) |
| Strategies.AnalyzeStrategyPerformance | option_strategies.py:396-415 | an empty result exactly for an unknown name; the uncaught IndexError exactly when a known strategy gets fewer strikes than its legs; with enough strikes, the uncaught ZeroDivisionError of calculate_greeks exactly when one of them is 0; otherwise the strategy's payoffs, breakevens, max P&L and Greeks |
| Risk.LevelsBracketEntry | risk_management.py:211-223 | for a call, stop < entry < take-profit; for any other type the two are mirrored |
| Risk.StopLossLevel | risk_management.py:211-216 | entry·(1 − stop %) for a call, entry·(1 + stop %) otherwise |
| Risk.TakeProfitLevel | risk_management.py:218-223 | entry·(1 + take-profit %) for a call, entry·(1 − take-profit %) otherwise |
| Risk.ShouldExitPosition | risk_management.py:225-246 | first match among stop-loss, take-profit (call/put only) and ≤ 7 days to expiry; the flag is true iff the reason is not hold |
| Risk.UnknownTypeExitsOnlyOnTime | risk_management.py:225-246 | a type other than call or put exits only for time decay, and exactly when ≤ 7 days remain |
| Risk.CallBetweenLevelsIsHeld | risk_management.py:225-246 | a call strictly between its levels with more than 7 days left is held |
| Risk.KellyFraction | risk_management.py:189-190 | the Kelly fraction is clamped to [0, 0.25] |
| Risk.PositionSizing | risk_management.py:177-209 | the size is ≥ 0; it is 0 when avg loss, avg win (the caught error) or max loss is 0; it never exceeds max(0, int(capital·0.1/max_loss)) |
| Risk.SizingRisksAtMostTenPercent | risk_management.py:199-205 | for a positive max loss, size·max_loss ≤ 10% of capital |
| Risk.PositionSizingExample | tests/test_trading_system.py:149-159 | the test suite's case (win rate 0.6, win 1000, loss 500, max loss 1000, capital 1,000,000) gives 100 contracts: Kelly capped at 0.25, then the 10% limit |
| Risk.PortfolioMetrics | risk_management.py:75-113 | all zero for no positions; otherwise value = Σ qty·price (current_prices or the position's), delta = 0.5·(2·call qty − total qty) (every non-call leg counts −0.5), gamma/theta/vega/rho = constant·Σ qty, VaR = value·0.2·1.645 and value·0.2·2.326 |
| Risk.ValueAtRisk | risk_management.py:314-321 | value·0.2·1.645 and value·0.2·2.326 |
| Risk.ConstantGreekSum | risk_management.py:298-312 | a per-contract constant c weights to c·Σ qty |
| Risk.PlaceholderDeltaSum | risk_management.py:289-296 | the ±0.5 delta weights to 0.5·(2·call qty − total qty) |
| Risk.RaisedAmong | risk_management.py:115-175 | at most one alert per kind considered |
| Risk.RaisedAmongMembership | risk_management.py:115-175 | a kind's alert is raised iff the kind is checked and its limit is breached |
| Risk.RaisedAmongShape | risk_management.py:115-175 | every raised alert carries its kind's fixed level and action |
| Risk.RaisedAmongOrdered | risk_management.py:115-175 | alerts come out in check order |
| Risk.RaisedAmongPrefix | risk_management.py:115-175 | the alert list after the first j checks is the list over the first j kinds |
| Risk.ExpectedAlertsAreRaisedAmongAll | risk_management.py:115-175 | the written-out list of six checks equals the generic one |
| Risk.ExpectedAlerts | risk_management.py:115-175 | the six checks in their fixed order, each contributing its alert when breached; `ExpectedAlertsFacts` states the result |
| Risk.ExpectedAlertsFacts | risk_management.py:115-175 | an alert is in the list iff its limit is breached; the order is position size, daily loss, delta, gamma, theta, VaR; no kind appears twice |
| Risk.EmptyBookRaisesOnlyDailyLoss | risk_management.py:115-175 | with no positions at the default limits only the daily-loss alert (P&L < −50,000) can fire |
| Risk.DeltaHedgeOf | risk_management.py:253-267 | a delta hedge of a non-negative contract count; buy puts iff delta > 0 |
| Risk.GammaHedgeOf | risk_management.py:270-276 | a gamma hedge of a non-negative contract count |
| Risk.HedgingRecommendations | risk_management.py:248-287 | at most three; each present iff its threshold (5%, 0.5%, −0.05% of the position limit) is crossed; nothing else; in the order delta, gamma, theta, each at most once |
| Risk.AlertsImplyHedges | risk_management.py:248-287 | with a non-negative position limit, every delta, gamma or theta alert comes with its hedge |
| Risk.WithoutSymbol | risk_management.py:70-73 | exactly the positions with a different symbol stay |
| Risk.WithoutSymbolAppend | risk_management.py:70-73 | the filter keeps order (it distributes over concatenation) |
| Risk.WithoutAbsentSymbol | risk_management.py:70-73 | removing an absent symbol changes nothing |
| Risk.AddThenRemoveRestores | risk_management.py:65-73 | adding a position under a fresh symbol, then removing that symbol, restores the list |
| Risk.RiskManager.constructor | risk_management.py:53-63 | the limits as given, no positions, no alerts, zero daily P&L |
| Risk.RiskManager.AddPosition | risk_management.py:65-68 | appends exactly one position; nothing else changes |
| Risk.RiskManager.RemovePosition | risk_management.py:70-73 | drops every position with the symbol and keeps the rest in order |
| Risk.RiskManager.CalculatePortfolioMetrics | risk_management.py:75-113 | `PortfolioMetrics` of the manager's own position list |
| Risk.RiskManager.CheckRiskLimits | risk_management.py:115-175 | the step-by-step loop builds the fixed-order alert list, stores it in the alerts field, and changes nothing else |
| Optimizer.MetricOf | risk_management.py:351-362 | the defaults 0.1, 0.2, 0.3 apply; sharpe·vol = return − risk-free rate; no metric exactly when the volatility is 0 or the name is missing |
| Optimizer.Metrics | risk_management.py:350-362 | the metrics in input order, or none as soon as any strategy fails |
| Optimizer.InsertDescending | risk_management.py:365 | inserting keeps the same elements plus the new one |
| Optimizer.InsertKeepsDescending | risk_management.py:365 | insertion preserves descending Sharpe order |
| Optimizer.SortDescending | risk_management.py:365 | sorting is a permutation |
| Optimizer.SortDescendingSorts | risk_management.py:365 | the result is in descending Sharpe order and is a permutation of the input |
| Optimizer.Upsert | risk_management.py:382-387 | the dictionary assignment: the new entry is present, other names stay, and names stay distinct |
| Optimizer.NextAllocation | risk_management.py:376-380 | the allocation is the least of the Sharpe share, the cap and the remaining room |
| Optimizer.UpsertBacked | risk_management.py:382-387 | an assigned entry is backed by its strategy and within its cap |
| Optimizer.AllocateInvariants | risk_management.py:368-389 | the loop keeps the total ≤ 1, the names distinct, and each entry backed and capped |
| Optimizer.Allocate | risk_management.py:368-389 | the loop from a running total: stop at the end or once the total reaches 1, else allocate the next strategy and assign its entry; `AllocateInvariants` |
| Optimizer.OptimizeBounds | risk_management.py:364-400 | total allocation ≤ 1; one entry per name; each entry's capital is capital·allocation and its allocation is within that strategy's max_allocation |
| Optimizer.OptimizeErrors | risk_management.py:345-404 | the empty result exactly when a metric fails, a non-empty list's Sharpe ratios sum to 0, or the capital is 0 |
| Optimizer.Optimize | risk_management.py:345-404 | metrics, Sharpe-descending sort, allocation and the totals, or the empty result on the caught errors; `OptimizeBounds` and `OptimizeErrors` |
| Optimizer.CollectMetrics | risk_management.py:350-362 | the metrics loop computes `Metrics` |
| Optimizer.AllocateLoop | risk_management.py:368-389 | the allocation loop with early exit computes `Allocate` |
| Optimizer.AllocateStep | risk_management.py:371-389 | one loop iteration equals one step of `Allocate` |
| Optimizer.OptimizePortfolio | risk_management.py:345-404 | the method computes `Optimize` |
| Optimizer.MetricsFailFromPrefix | risk_management.py:350-362 | a failing metric in any prefix fails the whole computation |
| Backtest.OptionPrice | backtesting.py:374-394 | a non-negative price |
| Backtest.OptionPriceIsDefaultQuote | backtesting.py:374-394 | the price is the engine's default (Black-Scholes) quote whenever the strike is non-zero or expiry is reached, and the intrinsic value on or after expiry day |
| Backtest.Volatility | backtesting.py:354-360 | 0.2 for fewer than 20 rows, otherwise the supplied estimator |
| Backtest.Closes | backtesting.py:359 | the close column, one value per bar in order |
| Backtest.SelectStrategy | backtesting.py:143-159 | with the 0.2 volatility of a one-row frame the choice is always butterfly |
| Backtest.PositionSize | backtesting.py:396-400 | int(2% of capital / (price·50)), 0 when the lot value is not positive; `PositionSizeBounds` |
| Backtest.PositionSizeBounds | backtesting.py:396-400 | 0 for a price ≤ 0; ≥ 0 for non-negative capital; a positive size never spends more than 2% of capital |
| Backtest.PositionValueAppend | backtesting.py:274-283 | the mark of two books joined is the sum of their marks |
| Backtest.Snapshot | backtesting.py:274-283 | equity = capital + Σ price·qty·50, with the date and the position count |
| Backtest.ReturnOf | backtesting.py:233 | a ratio exactly for a non-zero entry, with return·entry = cur − entry; for a zero entry nan iff the current price is zero too, otherwise an infinity, positive iff the price rose |
| Backtest.Close | backtesting.py:227-257 | capital gains (cur−entry)·qty·50, exactly one trade is appended and that one position removed; when both prices are plain numbers and the entry is 0 (the raising division) nothing changes |
| Backtest.Closable | backtesting.py:227-257 | the positions with a non-zero entry price or a numpy price |
| Backtest.Stuck | backtesting.py:227-257 | the positions opened at a plain zero and still marked with a plain number |
| Backtest.ClosableAndStuck | backtesting.py:227-257 | a book splits into closable and stuck positions |
| Backtest.CloseEachRemovesClosable | backtesting.py:223-225 | closing a list drawn from the book removes exactly its closable members |
| Backtest.CloseEachRecordsTrades | backtesting.py:223-225 | closing appends one trade per closable position, keeping earlier trades |
| Backtest.CloseEach | backtesting.py:223-225 | `Close` applied to the listed positions one after another |
| Backtest.CloseAllLeavesOnlyStuck | backtesting.py:259-262 | closing all leaves just the positions opened at a plain zero and still marked with a plain number |
| Backtest.CloseAllEmptiesPricedBook | backtesting.py:259-262 | with no such position, closing all leaves the list empty |
| Backtest.NothingStuck | backtesting.py:227-257 | no positions are stuck when each has a non-zero entry price or a numpy price |
| Backtest.CloseLowersEquityByEntryPremium | backtesting.py:227-257 | closing a held position lowers equity by entry·qty·50 (by 0 for one that cannot close) |
| Backtest.PnlIsMarkLessPremium | backtesting.py:232 | P&L = mark value − entry premium |
| Backtest.ExitsOf | backtesting.py:211-225 | exactly the positions the risk manager flags at their current price |
| Backtest.CheckExits | backtesting.py:211-225 | the exits are collected from the book first, then closed; `UnflaggedPositionsStay` |
| Backtest.ExitsAreDrawnFromBook | backtesting.py:211-225 | the collected exits are a sub-multiset of the book |
| Backtest.UnflaggedPositionsStay | backtesting.py:211-225 | a position not flagged for exit stays open |
| Backtest.EntryAllowed | backtesting.py:125-141 | no open position, capital ≥ 100,000 and 0.15 ≤ vol ≤ 0.5 |
| Backtest.PlanEntry | backtesting.py:163-175 | the at-the-money strike, the next Thursday, both leg prices and the 2% size; `PlanEntryContract` |
| Backtest.SizedPlanSizing | backtesting.py:175-204 | a positive straddle size spends at most 2% of capital on premium |
| Backtest.PlanEntryContract | backtesting.py:161-209 | a strike that is a multiple of 50 within 25 of the close, expiry on the next Thursday 1–7 days ahead, non-negative premiums |
| Backtest.PlanEntrySizing | backtesting.py:161-209 | the planned size spends at most 2% of capital |
| Backtest.BookingKeepsEquity | backtesting.py:175-204 | booking two straddle legs and debiting their premium leaves equity unchanged |
| Backtest.Enter | backtesting.py:161-209 | books the two straddle legs of `PlanEntry` for a positive size; `EntryKeepsEquity` |
| Backtest.EntryKeepsEquity | backtesting.py:161-209 | entry leaves equity unchanged |
| Backtest.Reprice | backtesting.py:264-272 | every position is re-marked in place, price and price type; capital and trades are unchanged |
| Backtest.OptionKindOfPrice | backtesting.py:374-394 | a plain price is zero; on or after expiry a zero price is numpy iff the strike equals the spot |
| Backtest.ExpiredRemarkCloses | backtesting.py:227-272 | after expiry a position opened at the plain zero is unclosable once re-marked iff its new price is zero off the strike; re-marked at the strike it closes with a nan return |
| Backtest.ProcessedDay | backtesting.py:106-123 | exits first, then an entry when `EntryAllowed`, then re-marking at the close |
| Backtest.Run | backtesting.py:89-91 | one equity snapshot per bar, in bar order |
| Backtest.LastSnapshotIsEquity | backtesting.py:274-283 | the last snapshot records the final ledger's equity |
| Backtest.InRange | backtesting.py:73-76 | the bars with start ≤ date ≤ end |
| Backtest.Peak | backtesting.py:309 | the running peak is the largest equity seen |
| Backtest.MaxDrawdown | backtesting.py:309-311 | the least (e − peak)/peak over the curve; `MaxDrawdownWithin` |
| Backtest.DrawdownWithin | backtesting.py:310 | for positive equity at or below its peak, the drawdown is in (−1, 0] |
| Backtest.MaxDrawdownWithin | backtesting.py:309-311 | for positive equities the maximum drawdown is in (−1, 0] |
| Backtest.Equities | backtesting.py:300 | the equity values of the curve, in order |
| Backtest.Winners | backtesting.py:315 | the trades with positive P&L |
| Backtest.Losers | backtesting.py:316 | the trades with negative P&L |
| Backtest.WinnersAndLosersDisjoint | backtesting.py:342-343 | winning + losing ≤ total trades |
| Backtest.MaxPnl | backtesting.py:321 | no trade's P&L exceeds the maximum |
| Backtest.MinPnl | backtesting.py:322 | no trade's P&L is below the minimum |
| Backtest.AveragesSigned | backtesting.py:319-320 | the average win is positive and the average loss negative |
| Backtest.Stats | backtesting.py:313-331 | win rate, average win and loss, extremes and profit factor, or all zero without trades; `StatsFacts` |
| Backtest.StatsFacts | backtesting.py:313-331 | win rate in [0,1]; profit factor is ∞ iff trades exist and none lost; all zero without trades; max loss ≤ max win |
| Backtest.ShortRunIsEmpty | backtesting.py:296-297 | a run spanning under one day (a single bar) gives the all-zero result |
| Backtest.Results | backtesting.py:285-348 | the empty result for an empty curve, a zero first equity or a zero day span, otherwise the return, drawdown and trade statistics; `ResultsFacts` |
| Backtest.ResultsFacts | backtesting.py:285-348 | the reported counts and statistics are those of the trades, with winning + losing ≤ total |
| Backtest.ResultsDrawdownWithin | backtesting.py:308-311 | for positive equities the reported drawdown is in (−1, 0] |
| Backtest.BacktestEngine.constructor | backtesting.py:55-63 | capital = initial capital; no positions, trades or snapshots |
| Backtest.BacktestEngine.ShouldEnterTrade | backtesting.py:125-141 | entry iff no position is open, capital ≥ 100,000 and 0.15 ≤ vol ≤ 0.5 |
| Backtest.BacktestEngine.EnterTrade | backtesting.py:161-209 | the ledger becomes `Enter` of the old one; the curve is unchanged |
| Backtest.BacktestEngine.ClosePosition | backtesting.py:227-257 | the ledger becomes `Close` of the old one |
| Backtest.BacktestEngine.CloseListed | backtesting.py:223-225 | the closing loop equals closing the listed positions one after the other |
| Backtest.BacktestEngine.CheckExitSignals | backtesting.py:211-225 | exits are collected first and then closed |
| Backtest.BacktestEngine.CloseAllPositions | backtesting.py:259-262 | closes a copy of the open list |
| Backtest.BacktestEngine.UpdatePositionValues | backtesting.py:264-272 | every position is re-marked at the new close |
| Backtest.BacktestEngine.UpdateEquityCurve | backtesting.py:274-283 | appends exactly one snapshot of the current ledger; nothing else changes |
| Backtest.BacktestEngine.ProcessDay | backtesting.py:106-123 | exits, then a gated entry, then re-marking, as `ProcessedDay` |
| Backtest.BacktestEngine.ProcessBars | backtesting.py:89-91 | the per-bar loop equals `Run` |
| Backtest.BacktestEngine.RunBacktest | backtesting.py:65-104 | an empty range gives the empty result and changes nothing; otherwise the engine is reset, runs every bar, closes all and reports `Results` |
| Trading.TimeOfDay | trading_engine.py:545-554 | the time of day lies in [0, 86400) seconds |
| Trading.IsMarketOpen | trading_engine.py:545-554 | 09:15 ≤ time of day ≤ 15:30 |
| Trading.EntryWindowInsideSession | trading_engine.py:225-230 | the 09:30–15:00 entry window lies inside the 09:15–15:30 session |
| Trading.SelectStrategy | trading_engine.py:185-207 | a non-empty predicted strategy wins; otherwise the volatility table with default 0.2, which always names a registered strategy |
| Trading.DefaultSelectionIsButterfly | trading_engine.py:185-207 | with no prediction and no volatility the choice is butterfly |
| Trading.StrikePrices | trading_engine.py:481-494 | one strike per template leg slot; every strike a multiple of 50 at atm ±0/100/200; symmetric about atm; ascending except the strangle's [atm+100, atm−100] |
| Trading.LadderBracketsSpot | trading_engine.py:481-494 | the strangle's put is below spot and its call above; the condor's shorts straddle spot with the longs outside; the butterfly's wings straddle spot |
| Trading.EngineOptionPrice | trading_engine.py:516-534 | the 'price' of the engine's default quote at 30 days, r 0.05, vol 0.2: 0 for a zero strike (the caught raise), otherwise the Black-Scholes price; never negative |
| Trading.ClampedSize | trading_engine.py:496-514 | int(2% of the portfolio value / (price·50)) clamped to 0..10, 0 for a zero lot value; `ClampedSizeBounds` |
| Trading.ClampedSizeBounds | trading_engine.py:496-514 | size in [0, 10]; 0 for a zero price; a positive price keeps size·price·50 within 2% of the portfolio value and is maximal below the cap |
| Trading.ZipLegs | trading_engine.py:356-391 | one leg per (strike, type, quantity) triple |
| Trading.TemplateLegs | trading_engine.py:278-426 | the legs each `_create_*_position` appends; `TemplateFollowsUnitLegs` and `TemplateShape` |
| Trading.IronCondorDisplay | trading_engine.py:356-391 | the condor's legs written out one by one |
| Trading.ButterflyDisplay | trading_engine.py:393-426 | the butterfly's legs written out one by one |
| Trading.MakerScales | trading_engine.py:278-314 | a leg built by the engine is quantity× that strategy's unit leg, tagged with the strategy and time |
| Trading.TemplateFollowsUnitLegs | trading_engine.py:278-426 | every engine template is the strategy's unit legs scaled by the size: same strikes, types and signed weights |
| Trading.TwoLegsFollow | trading_engine.py:278-354 | the straddle and strangle templates follow their unit legs |
| Trading.IronCondorFollows | trading_engine.py:356-391 | iron condor quantities [q,−q,−q,q] on [put, put, call, call] |
| Trading.ButterflyFollows | trading_engine.py:393-426 | butterfly quantities [q,−2q,q] on calls |
| Trading.TemplateNetQuantity | trading_engine.py:278-426 | the condor and butterfly net to zero contracts; the straddle and strangle to 2q |
| Trading.TemplateShape | trading_engine.py:278-426 | 4, 3 or 2 legs; each tagged with the strategy, fresh (current = entry) and sized ±q or ±2q |
| Trading.IronCondorShape | trading_engine.py:356-391 | four fresh legs tagged iron_condor |
| Trading.ButterflyShape | trading_engine.py:393-426 | three fresh legs tagged butterfly |
| Trading.TotalPnlAppend | trading_engine.py:589-605 | the open P&L of two books joined is the sum of their P&L |
| Trading.FreshLegsHaveNoPnl | trading_engine.py:278-426 | legs whose current price equals their entry price carry no P&L |
| Trading.ClosePos | trading_engine.py:448-461 | adds the P&L to the daily P&L, then removes one occurrence (if any) |
| Trading.CloseEach | trading_engine.py:463-466 | `ClosePos` applied to the listed positions in order; `CloseEachPnl` and `CloseEachDrawn` |
| Trading.ValueLessPnlIsEntryCost | trading_engine.py:589-605 | total value − open P&L = the premium paid |
| Trading.CloseEachPnl | trading_engine.py:448-461 | closing a list adds its total P&L to the daily P&L and keeps the portfolio value |
| Trading.CloseEachPrefix | trading_engine.py:561-578 | closing a prefix of the book leaves the rest in order |
| Trading.CloseEachDrawn | trading_engine.py:448-461 | closing a list drawn from the book removes exactly it (as a multiset) |
| Trading.CloseAllRealises | trading_engine.py:463-466 | closing all empties the book and realises its whole P&L |
| Trading.CloseHalfRealises | trading_engine.py:561-578 | closing the first ⌊n/2⌋ keeps the second half and realises the first |
| Trading.ExitsRemoveFlagged | trading_engine.py:428-446 | the flagged positions leave and their P&L is realised; the others stay |
| Trading.EntryLegs | trading_engine.py:238-276 | nothing for an unregistered strategy or a zero size, otherwise the template at the strike ladder; `EntryContract` |
| Trading.EntryContract | trading_engine.py:238-276 | legs open iff the strategy is registered and the size is positive; fresh legs tagged with the name, 1–20 contracts each; the sizing stays within 2% |
| Trading.CloseAllMovesOpenPnl | trading_engine.py:589-605 | after closing all, the status shows nothing open and today's P&L has absorbed the open P&L |
| Trading.EntryKeepsOpenPnl | trading_engine.py:589-605 | opening fresh legs leaves the reported open P&L unchanged |
| Trading.Repriced | trading_engine.py:468-474 | a re-marked price is never negative |
| Trading.TradingEngine.constructor | trading_engine.py:28-50 | no positions, zero P&L and value, so no entry is allowed until the value is updated |
| Trading.TradingEngine.ShouldEnterPosition | trading_engine.py:209-236 | entry iff no position, value ≥ 100,000, 0.15 ≤ vol ≤ 0.5 and 09:30 ≤ time ≤ 15:00; so entry is inside market hours |
| Trading.TradingEngine.CreateStraddlePosition | trading_engine.py:278-314 | appends exactly the straddle template |
| Trading.TradingEngine.CreateStranglePosition | trading_engine.py:316-354 | appends the strangle template, or nothing for fewer than two strikes (the caught index error) |
| Trading.TradingEngine.BuildLegs | trading_engine.py:364-389 | the leg-building loop equals zipping strikes, types and quantities |
| Trading.TradingEngine.CreateIronCondorPosition | trading_engine.py:356-391 | appends the iron condor template, or nothing for fewer than four strikes |
| Trading.TradingEngine.CreateButterflyPosition | trading_engine.py:393-426 | appends the butterfly template, or nothing for fewer than three strikes |
| Trading.TradingEngine.EnterPosition | trading_engine.py:238-276 | appends `EntryLegs` when the options chain is available, else nothing |
| Trading.TradingEngine.ClosePosition | trading_engine.py:448-461 | adds the P&L to the daily P&L and removes one occurrence |
| Trading.TradingEngine.CloseListed | trading_engine.py:463-466 | the closing loop equals closing the listed positions one after another |
| Trading.TradingEngine.CloseAllPositions | trading_engine.py:463-466 | the list ends empty and the daily P&L gains the book's total P&L |
| Trading.TradingEngine.CheckPositionExits | trading_engine.py:428-446 | the flagged positions are collected first and then closed |
| Trading.TradingEngine.HandleRiskAlert | trading_engine.py:561-578 | close_all_positions empties the list; reduce_positions closes the first ⌊n/2⌋; any other action changes nothing |
| Trading.TradingEngine.UpdatePositionValues | trading_engine.py:468-474 | every position is re-marked in place at the spot |
| Trading.TradingEngine.UpdatePortfolioValue | trading_engine.py:476-479 | portfolio value = 1,000,000 + Σ price·qty·50 |
| Trading.TradingEngine.GetPortfolioStatus | trading_engine.py:589-605 | counts and daily figures as stored; total value − total P&L = the premium paid |

## Left out

- Black-Scholes formulas: the closed-form price and Greeks (`norm.cdf`, `log`, `exp`, `sqrt`) are floating-point numerics. They enter as uninterpreted functions in `Pricing.Numerics`.
- CRR factors: the binomial u, p and per-step discount are caller-supplied reals (u > 1, 0 ≤ p ≤ 1, 0 < disc ≤ 1), not computed from exp and sqrt.
- Monte Carlo: the sampling (global `np.random.seed`, float statistics) is an uninterpreted sample function.
- implied_volatility: it calls scipy's `minimize_scalar`, a routine outside this model, and mutates `params.volatility` as a side effect.
- Backtest.BacktestResult: omits the annualised return, return volatility and Sharpe ratio (a real-exponent power, a standard deviation and a square root).
- Optimizer.Optimize: reports the sum of squared capital-weighted volatilities instead of its square root divided by capital.
- NumPy float arithmetic: division by zero giving inf or nan without raising is not modelled, except for the infinite or nan `return_pct` of a trade opened at 0. Where Python floats raise, the raise is modelled: caught with its handler for `return_pct`, the dispatcher's S/K, Kelly's divide by avg win and the optimizer's divisions; as an error outcome where nothing catches it (the S/K of `calculate_portfolio_greeks` and of the strategies' `calculate_greeks`, in Pricing.PortfolioGreeks and Strategies.AnalyzeStrategyPerformance).
- Trading.TradingEngine.EnterPosition: all legs of one entry share one clock reading, where the source calls `datetime.now()` once per leg.
- Trading.TradingEngine.EnterPosition: the options-chain fetch is a boolean parameter (the chain is empty or not).
- Trading.EngineOptionPrice: the fallback price 0.05 is not modelled, because `price_option` catches every raise and always returns a price, so the fallback cannot be reached.
- Pricing.PricerRaises: the raise is decided on values and assumes Python-float operands. With a numpy spot, S/K gives infinity instead of raising; the backtest's spot is numpy, so `Backtest.OptionPrice` keeps the formula value there.
- Pricing.PriceOption: the error text (`str(e)`) is reduced to the error case itself.
- Backtest.Close: the price types are derived on the assumption that the backtest's spot is a numpy float and its strike a plain number; a formula price of −0.0 or nan is not distinguished from other values.
- Strategies.StraddlePayoff, Strategies.StranglePayoff, Strategies.IronCondorPayoff, Strategies.ButterflyPayoff, the four breakeven functions, Strategies.MaxProfitLossOf and the template Greeks: each requires as many strikes as its template indexes. The IndexError a shorter list raises is modelled once, as the `StrikeIndexError` outcome of Strategies.AnalyzeStrategyPerformance.
- WeightedGreeks: the sum itself has no error case. The uncaught zero-strike raise is the `None` of Pricing.PortfolioGreeks, and the `GreeksZeroStrikeError` of Strategies.AnalyzeStrategyPerformance.
- Strategies.StraddleGreeks, Strategies.StrangleGreeks, Strategies.IronCondorGreeks, Strategies.ButterflyGreeks: a zero strike makes the source raise; these functions return the sum, and the raise is modelled once, as `GreeksZeroStrikeError`.
- Pricing.RaisesInGreeks: like Pricing.PricerRaises, it assumes Python-float operands for S/K.
- Trading.SelectStrategy: the exception fallback to 'straddle' is not modelled, because no modelled step raises.
- Trading.SelectStrategy: the prediction dictionary is reduced to its 'strategy' entry.
- `_determine_trend`: a stub whose result the selector ignores.
- Trading.TradingEngine.GetPortfolioStatus: the per-position dictionaries of the status are left out; only the totals are modelled.
- Backtest.BacktestEngine.RunBacktest: the unused `strategies` argument is left out.
- Backtest.BacktestEngine.RunBacktest: the historical volatility estimator (standard deviation of returns) is a parameter.
- Clock and dates: `datetime.now()`, `strptime` and `strftime` become a real day-number parameter. Expiry strings are whole day numbers, and `timedelta.days` is the floor of the difference.
- Scheduling and I/O: `start`/`stop`, the schedule loop, market-data updates, strategy analysis, the periodic risk check, market open/close hooks, loading ML models, and all logging. These are side effects with nothing to verify.
- Data sources: data fetching (network I/O), ML models, the dashboard, the command line, the examples, and `BacktestAnalyzer` plotting and reports. These sit outside the strategy and risk layer.
- `calculate_correlation_matrix` (NumPy) is outside the strategy and risk layer.
- `RiskManager` helper stubs: `_calculate_max_drawdown`, `_calculate_sharpe_ratio` and `_calculate_beta` return constants; they enter the model as those constants.
