/** The four option-strategy templates (long straddle, long strangle, iron
    condor, long butterfly): expiry payoffs, breakeven points, maximum
    profit and loss, signed-weight leg Greeks, the rule table that picks a
    strategy from market conditions, and the per-strategy analysis. */
module Strategies {
  import opened Common
  import opened Pricing

  /** The inputs the templates read: spot, the strike list, the option price
      dictionary keyed by leg name, the rate and the volatility (expiry dates
      and quantities are carried by the source but never read). */
  datatype StrategyParams = StrategyParams(
    spotPrice: real,
    strikePrices: seq<real>,
    optionPrices: map<string, real>,
    riskFreeRate: real,
    volatility: real)

  /** option_prices.get(key, 0) */
  function PriceOr0(prices: map<string, real>, key: string): (v: real)
    ensures key in prices ==> v == prices[key]
    ensures key !in prices ==> v == 0.0
  {
    if key in prices then prices[key] else 0.0
  }

  /** How many strikes each template indexes. */
  function StrikeCount(s: StrategyName): nat {
    match s
    case Straddle => 1
    case Strangle => 2
    case IronCondor => 4
    case Butterfly => 3
  }

  // ---------------------------------------------------------------------
  // Expiry payoffs

  /** Long call plus long put at strikes[0]. */
  function StraddlePayoff(spot: real, strikes: seq<real>): real
    requires |strikes| >= 1
  {
    Max0(spot - strikes[0]) + Max0(strikes[0] - spot)
  }

  /** Call at strikes[0], put at strikes[1]. */
  function StranglePayoff(spot: real, strikes: seq<real>): real
    requires |strikes| >= 2
  {
    Max0(spot - strikes[0]) + Max0(strikes[1] - spot)
  }

  /** Strikes [put_long, put_short, call_short, call_long]: long put, short put,
      short call, long call. */
  function IronCondorPayoff(spot: real, strikes: seq<real>): real
    requires |strikes| >= 4
  {
    Max0(strikes[0] - spot) - Max0(strikes[1] - spot)
      - Max0(spot - strikes[2]) + Max0(spot - strikes[3])
  }

  /** Strikes [lower, middle, upper]: one long call, two short calls, one long call. */
  function ButterflyPayoff(spot: real, strikes: seq<real>): real
    requires |strikes| >= 3
  {
    Max0(spot - strikes[0]) - 2.0 * Max0(spot - strikes[1]) + Max0(spot - strikes[2])
  }

  function Payoff(s: StrategyName, spot: real, strikes: seq<real>): real
    requires |strikes| >= StrikeCount(s)
  {
    match s
    case Straddle => StraddlePayoff(spot, strikes)
    case Strangle => StranglePayoff(spot, strikes)
    case IronCondor => IronCondorPayoff(spot, strikes)
    case Butterfly => ButterflyPayoff(spot, strikes)
  }

  /** The straddle pays the distance from the strike, never less than zero. */
  lemma StraddlePayoffIsDistance(spot: real, strikes: seq<real>)
    requires |strikes| >= 1
    ensures StraddlePayoff(spot, strikes) == Abs(spot - strikes[0])
    ensures StraddlePayoff(spot, strikes) >= 0.0
  {
  }

  /** With put strike at or below call strike the strangle never pays less
      than zero, and pays exactly zero precisely between the two strikes. */
  lemma StranglePayoffZeroBetweenStrikes(spot: real, strikes: seq<real>)
    requires |strikes| >= 2 && strikes[1] <= strikes[0]
    ensures StranglePayoff(spot, strikes) >= 0.0
    ensures StranglePayoff(spot, strikes) == 0.0 <==> strikes[1] <= spot <= strikes[0]
  {
  }

  predicate Ascending4(k: seq<real>)
    requires |k| >= 4
  {
    k[0] <= k[1] <= k[2] <= k[3]
  }

  /** The wider of the two wings: put_short - put_long or call_long - call_short. */
  function MaxWing(k: seq<real>): real
    requires |k| >= 4
  {
    MaxReal(k[1] - k[0], k[3] - k[2])
  }

  /** For ordered strikes the condor's payoff lies in [-widest wing, 0], is
      zero between the short strikes and reaches the lower end beyond a wing. */
  lemma IronCondorPayoffBounds(spot: real, k: seq<real>)
    requires |k| >= 4 && Ascending4(k)
    ensures -MaxWing(k) <= IronCondorPayoff(spot, k) <= 0.0
    ensures k[1] <= spot <= k[2] ==> IronCondorPayoff(spot, k) == 0.0
    ensures spot <= k[0] ==> IronCondorPayoff(spot, k) == -(k[1] - k[0])
    ensures spot >= k[3] ==> IronCondorPayoff(spot, k) == -(k[3] - k[2])
  {
  }

  /** The condor's lowest payoff, -MaxWing, is attained at one of the outer strikes. */
  lemma IronCondorWorstCaseAttained(k: seq<real>)
    requires |k| >= 4 && Ascending4(k)
    ensures IronCondorPayoff(k[0], k) == -MaxWing(k) || IronCondorPayoff(k[3], k) == -MaxWing(k)
  {
    IronCondorPayoffBounds(k[0], k);
    IronCondorPayoffBounds(k[3], k);
  }

  /** For ordered strikes the butterfly pays nothing below the lower strike,
      never more than middle - lower, and exactly that at the middle strike. */
  lemma ButterflyPayoffPeak(spot: real, k: seq<real>)
    requires |k| >= 3 && k[0] <= k[1] <= k[2]
    ensures spot <= k[0] ==> ButterflyPayoff(spot, k) == 0.0
    ensures ButterflyPayoff(spot, k) <= k[1] - k[0]
    ensures ButterflyPayoff(k[1], k) == k[1] - k[0]
  {
  }

  // ---------------------------------------------------------------------
  // Net premium, breakevens and maximum profit / loss

  /** Straddle and strangle: price['call'] + price['put']. */
  function LongDebit(p: StrategyParams): real {
    PriceOr0(p.optionPrices, "call") + PriceOr0(p.optionPrices, "put")
  }

  /** Iron condor: shorts received minus longs paid. */
  function CondorCredit(p: StrategyParams): real {
    PriceOr0(p.optionPrices, "put_short") + PriceOr0(p.optionPrices, "call_short")
      - PriceOr0(p.optionPrices, "put_long") - PriceOr0(p.optionPrices, "call_long")
  }

  /** Butterfly: wings paid minus twice the middle received. */
  function ButterflyDebit(p: StrategyParams): real {
    PriceOr0(p.optionPrices, "lower_call") + PriceOr0(p.optionPrices, "upper_call")
      - 2.0 * PriceOr0(p.optionPrices, "middle_call")
  }

  function StraddleBreakeven(p: StrategyParams): seq<real>
    requires |p.strikePrices| >= 1
  {
    [p.strikePrices[0] - LongDebit(p), p.strikePrices[0] + LongDebit(p)]
  }

  function StrangleBreakeven(p: StrategyParams): seq<real>
    requires |p.strikePrices| >= 2
  {
    [p.strikePrices[1] - LongDebit(p), p.strikePrices[0] + LongDebit(p)]
  }

  function IronCondorBreakeven(p: StrategyParams): seq<real>
    requires |p.strikePrices| >= 4
  {
    [p.strikePrices[1] - CondorCredit(p), p.strikePrices[2] + CondorCredit(p)]
  }

  function ButterflyBreakeven(p: StrategyParams): seq<real>
    requires |p.strikePrices| >= 3
  {
    [p.strikePrices[0] + ButterflyDebit(p), p.strikePrices[2] - ButterflyDebit(p)]
  }

  function Breakeven(s: StrategyName, p: StrategyParams): seq<real>
    requires |p.strikePrices| >= StrikeCount(s)
  {
    match s
    case Straddle => StraddleBreakeven(p)
    case Strangle => StrangleBreakeven(p)
    case IronCondor => IronCondorBreakeven(p)
    case Butterfly => ButterflyBreakeven(p)
  }

  /** Expiry profit of one unit: payoff less the debit paid, or plus the credit received. */
  function ProfitAtExpiry(s: StrategyName, spot: real, p: StrategyParams): real
    requires |p.strikePrices| >= StrikeCount(s)
  {
    match s
    case Straddle => StraddlePayoff(spot, p.strikePrices) - LongDebit(p)
    case Strangle => StranglePayoff(spot, p.strikePrices) - LongDebit(p)
    case IronCondor => IronCondorPayoff(spot, p.strikePrices) + CondorCredit(p)
    case Butterfly => ButterflyPayoff(spot, p.strikePrices) - ButterflyDebit(p)
  }

  /** A missing price key counts as zero: with an empty dictionary the straddle
      breakevens collapse onto the strike. */
  lemma MissingPricesCountAsZero(p: StrategyParams)
    requires |p.strikePrices| >= 1 && p.optionPrices == map[]
    ensures LongDebit(p) == 0.0 && CondorCredit(p) == 0.0 && ButterflyDebit(p) == 0.0
    ensures StraddleBreakeven(p) == [p.strikePrices[0], p.strikePrices[0]]
  {
  }

  /** Straddle breakevens: ascending exactly when the debit is positive, and
      with a non-negative debit the expiry profit is zero at both of them. */
  lemma StraddleBreakevenProperties(p: StrategyParams)
    requires |p.strikePrices| >= 1
    ensures var b := StraddleBreakeven(p);
      (b[0] < b[1] <==> LongDebit(p) > 0.0) &&
      (LongDebit(p) >= 0.0 ==>
        ProfitAtExpiry(Straddle, b[0], p) == 0.0 && ProfitAtExpiry(Straddle, b[1], p) == 0.0)
  {
  }

  /** Strangle breakevens: ascending when the debit is positive and the put
      strike is at or below the call strike; then both are zero-profit spots. */
  lemma StrangleBreakevenProperties(p: StrategyParams)
    requires |p.strikePrices| >= 2
    ensures var b := StrangleBreakeven(p);
      (b[0] < b[1] <==> p.strikePrices[1] - p.strikePrices[0] < 2.0 * LongDebit(p)) &&
      (p.strikePrices[1] <= p.strikePrices[0] && LongDebit(p) >= 0.0 ==>
        ProfitAtExpiry(Strangle, b[0], p) == 0.0 && ProfitAtExpiry(Strangle, b[1], p) == 0.0)
  {
  }

  /** Iron condor breakevens are zero-profit spots whenever the credit is
      non-negative and no wider than either wing. */
  lemma IronCondorBreakevenProperties(p: StrategyParams)
    requires |p.strikePrices| >= 4 && Ascending4(p.strikePrices)
    requires 0.0 <= CondorCredit(p)
    requires CondorCredit(p) <= p.strikePrices[1] - p.strikePrices[0]
    requires CondorCredit(p) <= p.strikePrices[3] - p.strikePrices[2]
    ensures var b := IronCondorBreakeven(p);
      ProfitAtExpiry(IronCondor, b[0], p) == 0.0 && ProfitAtExpiry(IronCondor, b[1], p) == 0.0
  {
  }

  /** Butterfly breakevens are zero-profit spots for equal wings and a debit
      between zero and the wing width; the upper one relies on the wings
      being equal. */
  lemma ButterflyBreakevenProperties(p: StrategyParams)
    requires |p.strikePrices| >= 3
    requires var k := p.strikePrices; k[0] <= k[1] && k[1] - k[0] == k[2] - k[1]
    requires 0.0 <= ButterflyDebit(p) <= p.strikePrices[1] - p.strikePrices[0]
    ensures var b := ButterflyBreakeven(p);
      ProfitAtExpiry(Butterfly, b[0], p) == 0.0 && ProfitAtExpiry(Butterfly, b[1], p) == 0.0
  {
  }

  /** float('inf') for the long-volatility strategies. */
  datatype ProfitBound = Finite(value: real) | Unbounded

  datatype MaxProfitLoss = MaxProfitLoss(maxProfit: ProfitBound, maxLoss: real)

  function MaxProfitLossOf(s: StrategyName, p: StrategyParams): MaxProfitLoss
    requires |p.strikePrices| >= StrikeCount(s)
  {
    match s
    case Straddle => MaxProfitLoss(Unbounded, LongDebit(p))
    case Strangle => MaxProfitLoss(Unbounded, LongDebit(p))
    case IronCondor => MaxProfitLoss(Finite(CondorCredit(p)), MaxWing(p.strikePrices) - CondorCredit(p))
    case Butterfly => MaxProfitLoss(Finite((p.strikePrices[1] - p.strikePrices[0]) - ButterflyDebit(p)), ButterflyDebit(p))
  }

  /** Straddle: the loss never exceeds the debit and reaches it at the strike;
      the profit exceeds any bound for a spot far enough above the strike. */
  lemma StraddleMaxProfitLoss(p: StrategyParams, target: real)
    requires |p.strikePrices| >= 1
    ensures var m := MaxProfitLossOf(Straddle, p);
      m.maxProfit == Unbounded &&
      (forall spot :: ProfitAtExpiry(Straddle, spot, p) >= -m.maxLoss) &&
      ProfitAtExpiry(Straddle, p.strikePrices[0], p) == -m.maxLoss &&
      ProfitAtExpiry(Straddle, p.strikePrices[0] + LongDebit(p) + Abs(target) + 1.0, p) > target
  {
  }

  /** Strangle: the loss never exceeds the debit and reaches it between the
      strikes; the profit is unbounded above the call strike. */
  lemma StrangleMaxProfitLoss(p: StrategyParams, target: real)
    requires |p.strikePrices| >= 2 && p.strikePrices[1] <= p.strikePrices[0]
    ensures var m := MaxProfitLossOf(Strangle, p);
      m.maxProfit == Unbounded &&
      (forall spot :: ProfitAtExpiry(Strangle, spot, p) >= -m.maxLoss) &&
      ProfitAtExpiry(Strangle, p.strikePrices[0], p) == -m.maxLoss &&
      ProfitAtExpiry(Strangle, p.strikePrices[0] + LongDebit(p) + Abs(target) + 1.0, p) > target
  {
  }

  /** Iron condor: for ordered strikes the expiry profit lies between
      -max_loss and max_profit, and both ends are reached. */
  lemma IronCondorMaxProfitLoss(p: StrategyParams, spot: real)
    requires |p.strikePrices| >= 4 && Ascending4(p.strikePrices)
    ensures var m := MaxProfitLossOf(IronCondor, p);
      m.maxProfit == Finite(CondorCredit(p)) &&
      -m.maxLoss <= ProfitAtExpiry(IronCondor, spot, p) <= m.maxProfit.value &&
      ProfitAtExpiry(IronCondor, p.strikePrices[1], p) == m.maxProfit.value &&
      (ProfitAtExpiry(IronCondor, p.strikePrices[0], p) == -m.maxLoss ||
       ProfitAtExpiry(IronCondor, p.strikePrices[3], p) == -m.maxLoss)
  {
    IronCondorPayoffBounds(spot, p.strikePrices);
    IronCondorPayoffBounds(p.strikePrices[1], p.strikePrices);
    IronCondorWorstCaseAttained(p.strikePrices);
  }

  /** Butterfly: for ordered strikes the expiry profit never exceeds
      max_profit and reaches it at the middle strike; the loss is max_loss
      below the lower strike, and never more when the upper wing is not
      the wider one. */
  lemma ButterflyMaxProfitLoss(p: StrategyParams, spot: real)
    requires |p.strikePrices| >= 3
    requires var k := p.strikePrices; k[0] <= k[1] <= k[2]
    ensures var m := MaxProfitLossOf(Butterfly, p);
      m.maxProfit.Finite? &&
      ProfitAtExpiry(Butterfly, spot, p) <= m.maxProfit.value &&
      ProfitAtExpiry(Butterfly, p.strikePrices[1], p) == m.maxProfit.value &&
      (spot <= p.strikePrices[0] ==> ProfitAtExpiry(Butterfly, spot, p) == -m.maxLoss) &&
      (p.strikePrices[2] - p.strikePrices[1] <= p.strikePrices[1] - p.strikePrices[0] ==>
        ProfitAtExpiry(Butterfly, spot, p) >= -m.maxLoss)
  {
    ButterflyPayoffPeak(spot, p.strikePrices);
    ButterflyPayoffPeak(p.strikePrices[1], p.strikePrices);
  }

  // ---------------------------------------------------------------------
  // Leg Greeks

  /** Each leg is priced at 30/365 years with the template's rate and
      volatility and no dividend yield. */
  const GreeksHorizon: real := 30.0 / 365.0

  function LegParams(p: StrategyParams, strike: real): OptionParams {
    OptionParams(p.spotPrice, strike, GreeksHorizon, p.riskFreeRate, p.volatility, 0.0)
  }

  function Leg(p: StrategyParams, strike: real, optionType: string, quantity: int): GreekPosition {
    GreekPosition(LegParams(p, strike), optionType, quantity)
  }

  /** The signed legs each template aggregates. */
  function Legs(s: StrategyName, p: StrategyParams): (legs: seq<GreekPosition>)
    requires |p.strikePrices| >= StrikeCount(s)
  {
    var k := p.strikePrices;
    match s
    case Straddle => [Leg(p, k[0], "call", 1), Leg(p, k[0], "put", 1)]
    case Strangle => [Leg(p, k[0], "call", 1), Leg(p, k[1], "put", 1)]
    case IronCondor => [Leg(p, k[0], "put", 1), Leg(p, k[1], "put", -1), Leg(p, k[2], "call", -1), Leg(p, k[3], "call", 1)]
    case Butterfly => [Leg(p, k[0], "call", 1), Leg(p, k[1], "call", -2), Leg(p, k[2], "call", 1)]
  }

  function LegGreeks(p: StrategyParams, strike: real, optionType: string, nm: Numerics): Greeks {
    BlackScholesGreeks(LegParams(p, strike), optionType, nm)
  }

  /** Straddle.calculate_greeks: call Greeks plus put Greeks at the one strike,
      which is the weighted sum over its two unit legs. */
  function StraddleGreeks(p: StrategyParams, nm: Numerics): (g: Greeks)
    requires |p.strikePrices| >= 1
    ensures g == WeightedGreeks(Legs(Straddle, p), nm)
  {
    var k := p.strikePrices[0];
    var c := LegGreeks(p, k, "call", nm);
    var q := LegGreeks(p, k, "put", nm);
    var legs := Legs(Straddle, p);
    WeightedGreeksOfTwo(legs[0], legs[1], nm);
    UnitPositionGreeks(legs[0], nm);
    UnitPositionGreeks(legs[1], nm);
    Greeks(c.delta + q.delta, c.gamma + q.gamma, c.theta + q.theta, c.vega + q.vega, c.rho + q.rho)
  }

  /** Strangle.calculate_greeks: call Greeks at strikes[0] plus put Greeks at strikes[1]. */
  function StrangleGreeks(p: StrategyParams, nm: Numerics): (g: Greeks)
    requires |p.strikePrices| >= 2
    ensures g == WeightedGreeks(Legs(Strangle, p), nm)
  {
    var c := LegGreeks(p, p.strikePrices[0], "call", nm);
    var q := LegGreeks(p, p.strikePrices[1], "put", nm);
    var legs := Legs(Strangle, p);
    WeightedGreeksOfTwo(legs[0], legs[1], nm);
    UnitPositionGreeks(legs[0], nm);
    UnitPositionGreeks(legs[1], nm);
    Greeks(c.delta + q.delta, c.gamma + q.gamma, c.theta + q.theta, c.vega + q.vega, c.rho + q.rho)
  }

  /** The loop both multi-leg templates run: totals += greek * qty over the
      zipped (strike, type, quantity) lists. */
  method AccumulateLegs(p: StrategyParams, strikes: seq<real>, types: seq<string>, quantities: seq<int>, nm: Numerics)
    returns (total: Greeks)
    requires |strikes| == |types| == |quantities|
    ensures total == WeightedGreeks(seq(|strikes|, i requires 0 <= i < |strikes| => Leg(p, strikes[i], types[i], quantities[i])), nm)
  {
    ghost var legs := seq(|strikes|, i requires 0 <= i < |strikes| => Leg(p, strikes[i], types[i], quantities[i]));
    var totalDelta, totalGamma, totalTheta, totalVega, totalRho := 0.0, 0.0, 0.0, 0.0, 0.0;
    var i := 0;
    while i < |strikes|
      invariant 0 <= i <= |strikes|
      invariant Greeks(totalDelta, totalGamma, totalTheta, totalVega, totalRho) == WeightedGreeks(legs[..i], nm)
    {
      var g := LegGreeks(p, strikes[i], types[i], nm);
      var q := quantities[i] as real;
      assert PositionGreeks(legs[i], nm) == ScaleGreeks(g, q);
      assert legs[..i + 1][..i] == legs[..i];
      AddScaled(Greeks(totalDelta, totalGamma, totalTheta, totalVega, totalRho), g, q);
      totalDelta := totalDelta + g.delta * q;
      totalGamma := totalGamma + g.gamma * q;
      totalTheta := totalTheta + g.theta * q;
      totalVega := totalVega + g.vega * q;
      totalRho := totalRho + g.rho * q;
      i := i + 1;
    }
    assert legs[..i] == legs;
    total := Greeks(totalDelta, totalGamma, totalTheta, totalVega, totalRho);
  }

  /** IronCondor.calculate_greeks: weights [1, -1, -1, 1] on [put, put, call, call]. */
  method IronCondorGreeks(p: StrategyParams, nm: Numerics) returns (total: Greeks)
    requires |p.strikePrices| >= 4
    ensures total == WeightedGreeks(Legs(IronCondor, p), nm)
  {
    var k := p.strikePrices;
    var strikes := [k[0], k[1], k[2], k[3]];
    total := AccumulateLegs(p, strikes, ["put", "put", "call", "call"], [1, -1, -1, 1], nm);
    assert seq(4, i requires 0 <= i < 4 => Leg(p, strikes[i], ["put", "put", "call", "call"][i], [1, -1, -1, 1][i]))
        == Legs(IronCondor, p);
  }

  /** Butterfly.calculate_greeks: weights [1, -2, 1], all calls. */
  method ButterflyGreeks(p: StrategyParams, nm: Numerics) returns (total: Greeks)
    requires |p.strikePrices| >= 3
    ensures total == WeightedGreeks(Legs(Butterfly, p), nm)
  {
    var k := p.strikePrices;
    var strikes := [k[0], k[1], k[2]];
    total := AccumulateLegs(p, strikes, ["call", "call", "call"], [1, -2, 1], nm);
    assert seq(3, i requires 0 <= i < 3 => Leg(p, strikes[i], ["call", "call", "call"][i], [1, -2, 1][i]))
        == Legs(Butterfly, p);
  }

  /** The butterfly's net delta, written out leg by leg: lower - 2 * middle + upper. */
  lemma ButterflyDeltaIsSignedSum(p: StrategyParams, nm: Numerics)
    requires |p.strikePrices| >= 3
    ensures var k := p.strikePrices;
      WeightedGreeks(Legs(Butterfly, p), nm).delta ==
        LegGreeks(p, k[0], "call", nm).delta * 1.0
        + LegGreeks(p, k[1], "call", nm).delta * (-2.0)
        + LegGreeks(p, k[2], "call", nm).delta * 1.0
  {
    var legs := Legs(Butterfly, p);
    assert legs[..2] == [legs[0], legs[1]];
    WeightedGreeksOfTwo(legs[0], legs[1], nm);
  }

  // ---------------------------------------------------------------------
  // StrategySelector

  /** The keys select_strategy reads; None is a missing key. */
  datatype MarketConditions = MarketConditions(volatility: Option<real>, trend: Option<string>)

  /** select_strategy: defaults volatility 0.2 and trend 'neutral'. */
  function SelectStrategy(m: MarketConditions): (s: StrategyName)
    ensures m.trend.GetOr("neutral") != "neutral" ==> s == Straddle
    ensures s != Butterfly
    ensures m.trend.GetOr("neutral") == "neutral" ==>
      var v := m.volatility.GetOr(0.2);
      (s == Strangle <==> 0.25 < v <= 0.3) &&
      (s == IronCondor <==> v < 0.2) &&
      (s == Straddle <==> v > 0.3 || 0.2 <= v <= 0.25)
  {
    var volatility := m.volatility.GetOr(0.2);
    var trend := m.trend.GetOr("neutral");
    if volatility > 0.3 && trend == "neutral" then Straddle
    else if volatility > 0.25 && trend == "neutral" then Strangle
    else if volatility < 0.2 && trend == "neutral" then IronCondor
    else if volatility < 0.15 && trend == "neutral" then Butterfly
    else Straddle
  }

  /** With no keys at all the defaults (0.2, neutral) pick the default straddle. */
  lemma SelectStrategyDefaults()
    ensures SelectStrategy(MarketConditions(None, None)) == Straddle
  {
  }

  /** get_strategy: the registry lookup by name. */
  function ParseStrategyName(name: string): (r: Option<StrategyName>)
    ensures r.Some? ==> r.value.Name() == name
  {
    if name == "straddle" then Some(Straddle)
    else if name == "strangle" then Some(Strangle)
    else if name == "iron_condor" then Some(IronCondor)
    else if name == "butterfly" then Some(Butterfly)
    else None
  }

  /** Every strategy is registered under its own name. */
  lemma ParseStrategyNameRoundTrip(s: StrategyName)
    ensures ParseStrategyName(s.Name()) == Some(s)
  {
  }

  // ---------------------------------------------------------------------
  // analyze_strategy_performance

  datatype Analysis = Analysis(
    payoffs: seq<real>,
    greeks: Greeks,
    breakevenPoints: seq<real>,
    maxProfit: ProfitBound,
    maxLoss: real)

  function Payoffs(s: StrategyName, p: StrategyParams, spots: seq<real>): (r: seq<real>)
    requires |p.strikePrices| >= StrikeCount(s)
    ensures |r| == |spots|
    ensures forall i :: 0 <= i < |spots| ==> r[i] == Payoff(s, spots[i], p.strikePrices)
  {
    seq(|spots|, i requires 0 <= i < |spots| => Payoff(s, spots[i], p.strikePrices))
  }

  /** A strike the template prices is zero: its Greeks divide S/K by zero. */
  predicate HasZeroStrike(s: StrategyName, p: StrategyParams)
    requires |p.strikePrices| >= StrikeCount(s)
  {
    exists i :: 0 <= i < StrikeCount(s) && p.strikePrices[i] == 0.0
  }

  /** The zero-strike condition is exactly "some leg's Greeks raise". */
  lemma HasZeroStrikeIffLegRaises(s: StrategyName, p: StrategyParams)
    requires |p.strikePrices| >= StrikeCount(s)
    ensures HasZeroStrike(s, p) <==> exists i :: 0 <= i < |Legs(s, p)| && RaisesInGreeks(Legs(s, p)[i])
  {
    var legs := Legs(s, p);
    var k := p.strikePrices;
    assert |legs| >= StrikeCount(s);
    assert forall i :: 0 <= i < |legs| ==> PositionParams(legs[i]).timeToExpiry > 0.0;
    if HasZeroStrike(s, p) {
      var i :| 0 <= i < StrikeCount(s) && k[i] == 0.0;
      match s
      case Straddle => assert RaisesInGreeks(legs[0]);
      case Strangle => assert RaisesInGreeks(legs[i]);
      case IronCondor => assert RaisesInGreeks(legs[i]);
      case Butterfly => assert RaisesInGreeks(legs[i]);
    } else {
      forall i | 0 <= i < |legs|
        ensures !RaisesInGreeks(legs[i])
      {
        match s
        case Straddle => assert legs[i].params.strike == k[0];
        case Strangle => assert legs[i].params.strike == k[i];
        case IronCondor => assert legs[i].params.strike == k[i];
        case Butterfly => assert legs[i].params.strike == k[i];
      }
    }
  }

  /** What analyze_strategy_performance ends with: the empty dict for a name
      the registry does not know, the IndexError the templates raise (and
      nothing catches) when there are fewer strikes than legs need, the
      ZeroDivisionError calculate_greeks raises (uncaught as well) for a
      zero strike, or the analysis. */
  datatype AnalysisOutcome = NoStrategy | StrikeIndexError | GreeksZeroStrikeError | Analyzed(analysis: Analysis)

  method AnalyzeStrategyPerformance(name: string, p: StrategyParams, spots: seq<real>, nm: Numerics)
    returns (r: AnalysisOutcome)
    ensures r.NoStrategy? <==> ParseStrategyName(name).None?
    ensures r.StrikeIndexError? <==>
      ParseStrategyName(name).Some? && |p.strikePrices| < StrikeCount(ParseStrategyName(name).value)
    ensures r.GreeksZeroStrikeError? <==>
      ParseStrategyName(name).Some? && |p.strikePrices| >= StrikeCount(ParseStrategyName(name).value) &&
      HasZeroStrike(ParseStrategyName(name).value, p)
    ensures r.Analyzed? ==>
      var s := ParseStrategyName(name).value;
      var mpl := MaxProfitLossOf(s, p);
      r.analysis == Analysis(Payoffs(s, p, spots), WeightedGreeks(Legs(s, p), nm),
                             Breakeven(s, p), mpl.maxProfit, mpl.maxLoss)
  {
    var parsed := ParseStrategyName(name);
    if parsed.None? {
      return NoStrategy;
    }
    if |p.strikePrices| < StrikeCount(parsed.value) {
      return StrikeIndexError;
    }
    if exists i :: 0 <= i < StrikeCount(parsed.value) && p.strikePrices[i] == 0.0 {
      return GreeksZeroStrikeError;
    }
    var s := parsed.value;
    var payoffs := Payoffs(s, p, spots);
    var greeks: Greeks;
    match s {
      case Straddle => greeks := StraddleGreeks(p, nm);
      case Strangle => greeks := StrangleGreeks(p, nm);
      case IronCondor => greeks := IronCondorGreeks(p, nm);
      case Butterfly => greeks := ButterflyGreeks(p, nm);
    }
    var mpl := MaxProfitLossOf(s, p);
    r := Analyzed(Analysis(payoffs, greeks, Breakeven(s, p), mpl.maxProfit, mpl.maxLoss));
  }
}
