/** The option-pricing engine: the expiry (intrinsic) branches of the three
    pricers, the Cox-Ross-Rubinstein lattice run as an in-place array loop,
    the method dispatcher with its error result, quantity-weighted portfolio
    Greeks and the nearest-key volatility surface.

    The floating-point formulas (Black-Scholes closed form and Greeks, the
    CRR factors built from exp/sqrt, Monte Carlo sampling) are not re-derived:
    they enter as the caller-supplied functions of a `Numerics` value. */
module Pricing {
  import opened Common

  datatype OptionParams = OptionParams(
    spot: real, strike: real, timeToExpiry: real,
    riskFreeRate: real, volatility: real, dividendYield: real)

  type PositiveReal = x: real | x > 0.0 witness 1.0

  /** CRR lattice factors for a given step count: u = exp(sigma*sqrt(dt)),
      p = (exp((r-q)dt) - d)/(u - d) and the per-step discount exp(-r*dt). */
  datatype CrrFactors = CrrFactors(up: PositiveReal, prob: real, discount: real)

  /** Stand-ins for the floating-point routines; the Boolean argument is
      "the option type is a call". */
  datatype Numerics = Numerics(
    bsFormula: (OptionParams, bool) -> real,
    bsGreeksFormula: (OptionParams, bool) -> Greeks,
    crrFactors: (OptionParams, nat) -> CrrFactors,
    mcSample: (OptionParams, bool) -> (real, real))

  /** Value at expiry: max(S-K, 0) for a call, max(K-S, 0) otherwise. */
  function Intrinsic(p: OptionParams, optionType: string): (v: real)
    ensures v >= 0.0
    ensures IsCall(optionType) ==> v == Max0(p.spot - p.strike)
    ensures !IsCall(optionType) ==> v == Max0(p.strike - p.spot)
  {
    if IsCall(optionType) then Max0(p.spot - p.strike) else Max0(p.strike - p.spot)
  }

  /** BlackScholesPricer.calculate_price */
  function BlackScholesPrice(p: OptionParams, optionType: string, nm: Numerics): (v: real)
    ensures v >= 0.0
    ensures p.timeToExpiry <= 0.0 ==> v == Intrinsic(p, optionType)
    ensures p.timeToExpiry > 0.0 ==> v == Max0(nm.bsFormula(p, IsCall(optionType)))
  {
    if p.timeToExpiry <= 0.0 then Intrinsic(p, optionType)
    else Max0(nm.bsFormula(p, IsCall(optionType)))
  }

  /** BlackScholesPricer.calculate_greeks */
  function BlackScholesGreeks(p: OptionParams, optionType: string, nm: Numerics): (g: Greeks)
    ensures p.timeToExpiry <= 0.0 ==> g == ZeroGreeks
    ensures p.timeToExpiry > 0.0 ==> g == nm.bsGreeksFormula(p, IsCall(optionType))
  {
    if p.timeToExpiry <= 0.0 then ZeroGreeks else nm.bsGreeksFormula(p, IsCall(optionType))
  }

  /** The value calculate_price hands to max(., 0): the payoff difference
      at expiry, the formula price before it. */
  function UnflooredPrice(p: OptionParams, optionType: string, nm: Numerics): real {
    if p.timeToExpiry <= 0.0 then (if IsCall(optionType) then p.spot - p.strike else p.strike - p.spot)
    else nm.bsFormula(p, IsCall(optionType))
  }

  /** The runtime type of calculate_price's result for a numpy spot.
      max(x, 0) keeps its first argument unless 0 > x, so the result is the
      floor's own plain zero only when x < 0, and the numpy x otherwise, the
      tie x == 0 included. */
  function QuoteKind(p: OptionParams, optionType: string, nm: Numerics): NumberKind {
    if UnflooredPrice(p, optionType, nm) < 0.0 then Plain else Numpy
  }

  /** The price is the floored value; a plain result is zero, and a zero
      result is numpy exactly on the tie, which at expiry is the option
      struck at the spot. */
  lemma QuoteKindOfPrice(p: OptionParams, optionType: string, nm: Numerics)
    ensures BlackScholesPrice(p, optionType, nm) == Max0(UnflooredPrice(p, optionType, nm))
    ensures QuoteKind(p, optionType, nm) == Plain ==> BlackScholesPrice(p, optionType, nm) == 0.0
    ensures BlackScholesPrice(p, optionType, nm) == 0.0 ==>
      (QuoteKind(p, optionType, nm) == Numpy <==> UnflooredPrice(p, optionType, nm) == 0.0)
    ensures p.timeToExpiry <= 0.0 && p.spot == p.strike ==>
      QuoteKind(p, optionType, nm) == Numpy && BlackScholesPrice(p, optionType, nm) == 0.0
  {
  }

  /** MonteCarloPricer.calculate_price: (price, standard error). */
  function MonteCarloPrice(p: OptionParams, optionType: string, nm: Numerics): (r: (real, real))
    ensures p.timeToExpiry <= 0.0 ==> r == (Intrinsic(p, optionType), 0.0)
    ensures p.timeToExpiry > 0.0 ==> r == nm.mcSample(p, IsCall(optionType))
  {
    if p.timeToExpiry <= 0.0 then (Intrinsic(p, optionType), 0.0)
    else nm.mcSample(p, IsCall(optionType))
  }

  // ---------------------------------------------------------------------
  // Binomial (CRR) lattice

  function Pow(x: real, n: nat): real {
    if n == 0 then 1.0 else x * Pow(x, n - 1)
  }

  /** Stock price at leaf i of an n-step lattice: S * u^(n-i) * d^i with d = 1/u. */
  function LeafStock(spot: real, up: PositiveReal, n: nat, i: nat): real
    requires i <= n
  {
    spot * Pow(up, n - i) * Pow(1.0 / up, i)
  }

  function LeafPayoff(stock: real, strike: real, isCall: bool): real {
    if isCall then Max0(stock - strike) else Max0(strike - stock)
  }

  /** The option values at maturity, leaf 0 the highest stock price. */
  function TerminalValues(spot: real, strike: real, isCall: bool, up: PositiveReal, n: nat): (v: seq<real>)
    ensures |v| == n + 1
    ensures forall i :: 0 <= i <= n ==> v[i] == LeafPayoff(LeafStock(spot, up, n, i), strike, isCall)
  {
    seq(n + 1, i requires 0 <= i <= n => LeafPayoff(LeafStock(spot, up, n, i), strike, isCall))
  }

  /** Discounted expectation over one lattice step. */
  function Combine(up: real, down: real, prob: real, disc: real): real {
    (prob * up + (1.0 - prob) * down) * disc
  }

  /** One backward step k: entries 0..k become disc*(p*v[i] + (1-p)*v[i+1]); the rest keep their value. */
  function InductionStep(v: seq<real>, k: nat, prob: real, disc: real): (w: seq<real>)
    requires k + 1 < |v|
    ensures |w| == |v|
  {
    seq(|v|, i requires 0 <= i < |v| =>
      if i <= k then Combine(v[i], v[i + 1], prob, disc) else v[i])
  }

  /** Steps k, k-1, ..., 0 applied in that order (nothing left when k < 0). */
  function BackwardFrom(v: seq<real>, k: int, prob: real, disc: real): (w: seq<real>)
    requires k + 1 < |v|
    ensures |w| == |v|
    decreases k + 1
  {
    if k < 0 then v else BackwardFrom(InductionStep(v, k, prob, disc), k - 1, prob, disc)
  }

  /** BinomialPricer.calculate_price as a value: v[0] after steps-1 .. 0. */
  function BinomialValue(p: OptionParams, optionType: string, steps: nat, f: CrrFactors): real
    requires steps >= 1 || p.timeToExpiry <= 0.0
  {
    if p.timeToExpiry <= 0.0 then Intrinsic(p, optionType)
    else
      var leaves := TerminalValues(p.spot, p.strike, IsCall(optionType), f.up, steps);
      BackwardFrom(leaves, steps - 1, f.prob, f.discount)[0]
  }

  /** BinomialPricer.calculate_price: fills the leaf arrays, then overwrites
      option_values in place by backward induction. */
  method BinomialPrice(p: OptionParams, optionType: string, steps: nat, f: CrrFactors) returns (price: real)
    requires steps >= 1 || p.timeToExpiry <= 0.0
    ensures price == BinomialValue(p, optionType, steps, f)
  {
    if p.timeToExpiry <= 0.0 {
      return Intrinsic(p, optionType);
    }
    var isCall := IsCall(optionType);
    var stockPrices := new real[steps + 1];
    var i := 0;
    while i < steps + 1
      invariant 0 <= i <= steps + 1
      invariant forall j :: 0 <= j < i ==> stockPrices[j] == LeafStock(p.spot, f.up, steps, j)
    {
      stockPrices[i] := p.spot * Pow(f.up, steps - i) * Pow(1.0 / f.up, i);
      i := i + 1;
    }
    var optionValues := new real[steps + 1];
    i := 0;
    while i < steps + 1
      invariant 0 <= i <= steps + 1
      invariant forall j :: 0 <= j <= steps ==> stockPrices[j] == LeafStock(p.spot, f.up, steps, j)
      invariant forall j :: 0 <= j < i ==> optionValues[j] == LeafPayoff(stockPrices[j], p.strike, isCall)
    {
      if isCall {
        optionValues[i] := Max0(stockPrices[i] - p.strike);
      } else {
        optionValues[i] := Max0(p.strike - stockPrices[i]);
      }
      i := i + 1;
    }
    ghost var leaves := TerminalValues(p.spot, p.strike, isCall, f.up, steps);
    assert forall j :: 0 <= j <= steps ==> optionValues[j] == leaves[j];
    assert optionValues[..] == leaves;
    var step := steps - 1;
    while step >= 0
      invariant -1 <= step <= steps - 1
      invariant BackwardFrom(optionValues[..], step, f.prob, f.discount)
             == BackwardFrom(leaves, steps - 1, f.prob, f.discount)
      decreases step + 1
    {
      StepInPlace(optionValues, step, f.prob, f.discount);
      step := step - 1;
    }
    price := optionValues[0];
  }

  /** The inner loop of the backward induction: entries 0..k are overwritten
      left to right, each reading its right neighbour before that is updated. */
  method StepInPlace(values: array<real>, k: nat, prob: real, disc: real)
    requires k + 1 < values.Length
    modifies values
    ensures values[..] == InductionStep(old(values[..]), k, prob, disc)
  {
    ghost var before := values[..];
    var j := 0;
    while j < k + 1
      invariant 0 <= j <= k + 1
      invariant forall m :: 0 <= m < j ==>
        values[m] == Combine(before[m], before[m + 1], prob, disc)
      invariant forall m :: j <= m < values.Length ==> values[m] == before[m]
    {
      values[j] := Combine(values[j], values[j + 1], prob, disc);
      j := j + 1;
    }
    ghost var next := InductionStep(before, k, prob, disc);
    assert forall m :: 0 <= m < |next| ==> values[m] == next[m];
  }

  predicate Within(v: seq<real>, bound: real) {
    forall i :: 0 <= i < |v| ==> 0.0 <= v[i] <= bound
  }

  /** A step keeps every value in [0, bound] when p is a probability and 0 < disc <= 1. */
  lemma StepWithin(v: seq<real>, k: nat, prob: real, disc: real, bound: real)
    requires k + 1 < |v|
    requires 0.0 <= prob <= 1.0 && 0.0 < disc <= 1.0
    requires Within(v, bound)
    ensures Within(InductionStep(v, k, prob, disc), bound)
  {
    var w := InductionStep(v, k, prob, disc);
    forall i | 0 <= i <= k
      ensures 0.0 <= w[i] <= bound
    {
      EntryWithin(v[i], v[i + 1], prob, disc, bound);
    }
  }

  lemma MulNonNegative(x: real, y: real)
    requires x >= 0.0 && y >= 0.0
    ensures x * y >= 0.0
  {
  }

  lemma MixWithin(a: real, b: real, prob: real, bound: real)
    requires 0.0 <= a <= bound && 0.0 <= b <= bound && 0.0 <= prob <= 1.0
    ensures 0.0 <= prob * a + (1.0 - prob) * b <= bound
  {
    MulNonNegative(prob, a);
    MulNonNegative(1.0 - prob, b);
    MulNonNegative(prob, bound - a);
    MulNonNegative(1.0 - prob, bound - b);
    assert bound - (prob * a + (1.0 - prob) * b) == prob * (bound - a) + (1.0 - prob) * (bound - b);
  }

  lemma EntryWithin(a: real, b: real, prob: real, disc: real, bound: real)
    requires 0.0 <= a <= bound && 0.0 <= b <= bound
    requires 0.0 <= prob <= 1.0 && 0.0 < disc <= 1.0
    ensures 0.0 <= Combine(a, b, prob, disc) <= bound
  {
    var m := prob * a + (1.0 - prob) * b;
    MixWithin(a, b, prob, bound);
    MulNonNegative(m, disc);
    MulNonNegative(m, 1.0 - disc);
    assert m - m * disc == m * (1.0 - disc);
  }

  lemma {:induction false} BackwardWithin(v: seq<real>, k: int, prob: real, disc: real, bound: real)
    requires k + 1 < |v|
    requires 0.0 <= prob <= 1.0 && 0.0 < disc <= 1.0
    requires Within(v, bound)
    ensures Within(BackwardFrom(v, k, prob, disc), bound)
    decreases k + 1
  {
    if k >= 0 {
      StepWithin(v, k, prob, disc, bound);
      BackwardWithin(InductionStep(v, k, prob, disc), k - 1, prob, disc, bound);
    }
  }

  function MaxOf(s: seq<real>): (m: real)
    requires |s| > 0
    ensures forall i :: 0 <= i < |s| ==> s[i] <= m
    ensures exists i :: 0 <= i < |s| && s[i] == m
  {
    if |s| == 1 then s[0]
    else
      var rest := MaxOf(s[1..]);
      assert forall i :: 1 <= i < |s| ==> s[i] == s[1..][i - 1];
      if s[0] >= rest then s[0] else rest
  }

  /** Terminal payoffs are non-negative, and with a probability p and a
      discount in (0, 1] the lattice price stays in [0, max terminal payoff]. */
  lemma BinomialPriceBounds(p: OptionParams, optionType: string, steps: nat, f: CrrFactors)
    requires steps >= 1 && p.timeToExpiry > 0.0
    requires 0.0 <= f.prob <= 1.0 && 0.0 < f.discount <= 1.0
    ensures var leaves := TerminalValues(p.spot, p.strike, IsCall(optionType), f.up, steps);
      Within(leaves, MaxOf(leaves)) &&
      0.0 <= BinomialValue(p, optionType, steps, f) <= MaxOf(leaves)
  {
    var leaves := TerminalValues(p.spot, p.strike, IsCall(optionType), f.up, steps);
    BackwardWithin(leaves, steps - 1, f.prob, f.discount, MaxOf(leaves));
  }

  lemma LeafStockRatio(spot: real, up: PositiveReal, n: nat, i: nat)
    requires i < n
    ensures LeafStock(spot, up, n, i) == LeafStock(spot, up, n, i + 1) * (up * up)
  {
    var d := 1.0 / up;
    var a := Pow(up, n - i - 1);
    var b := Pow(d, i);
    assert Pow(up, n - i) == up * a;
    assert Pow(d, i + 1) == d * b;
    assert d * up == 1.0;
    assert LeafStock(spot, up, n, i) == spot * (up * a) * b;
    assert LeafStock(spot, up, n, i + 1) == spot * a * (d * b);
    assert spot * a * (d * b) * (up * up) == spot * a * b * up * (d * up);
  }

  lemma PowPositive(x: real, n: nat)
    requires x > 0.0
    ensures Pow(x, n) > 0.0
  {
    if n > 0 {
      PowPositive(x, n - 1);
      assert Pow(x, n) == x * Pow(x, n - 1);
    }
  }

  lemma LeafStockPositive(spot: real, up: PositiveReal, n: nat, i: nat)
    requires spot > 0.0 && i <= n
    ensures LeafStock(spot, up, n, i) > 0.0
  {
    var a := Pow(up, n - i);
    var b := Pow(1.0 / up, i);
    PowPositive(up, n - i);
    PowPositive(1.0 / up, i);
    assert spot * a > 0.0;
    assert spot * a * b > 0.0;
  }

  lemma GrowsByFactor(y: real, x: real, k: real)
    requires y == x * (k * k) && x > 0.0 && k > 1.0
    ensures y > x
  {
    assert k * k > k;
    assert x * (k * k) > x * k > x;
  }

  lemma LeafStockStep(spot: real, up: PositiveReal, n: nat, i: nat)
    requires spot > 0.0 && up > 1.0 && i < n
    ensures LeafStock(spot, up, n, i) > LeafStock(spot, up, n, i + 1)
  {
    LeafStockRatio(spot, up, n, i);
    LeafStockPositive(spot, up, n, i + 1);
    GrowsByFactor(LeafStock(spot, up, n, i), LeafStock(spot, up, n, i + 1), up);
  }

  /** With u > 1 and a positive spot the leaf stock prices strictly decrease in i. */
  lemma {:induction false} LeafStockDecreasing(spot: real, up: PositiveReal, n: nat, i: nat, j: nat)
    requires spot > 0.0 && up > 1.0
    requires i < j <= n
    ensures LeafStock(spot, up, n, i) > LeafStock(spot, up, n, j)
    decreases j - i
  {
    LeafStockStep(spot, up, n, i);
    if i + 1 < j {
      LeafStockDecreasing(spot, up, n, i + 1, j);
    }
  }

  // ---------------------------------------------------------------------
  // OptionPricingEngine.price_option

  datatype PricingMethod = BlackScholesMethod | BinomialMethod | MonteCarloMethod

  function ParseMethod(name: string): Option<PricingMethod> {
    if name == "black_scholes" then Some(BlackScholesMethod)
    else if name == "binomial" then Some(BinomialMethod)
    else if name == "monte_carlo" then Some(MonteCarloMethod)
    else None
  }

  datatype PriceResult =
    | BlackScholesQuote(price: real, greeks: Greeks)
    | BinomialQuote(price: real)
    | MonteCarloQuote(price: real, standardError: real)
    | UnknownMethod(price: real, methodName: string)
    | ZeroStrikeError(price: real)

  /** The one raise the pricers can hit on real inputs: Black-Scholes before
      expiry divides the spot by the strike (S/K in d1) with Python floats,
      which raises ZeroDivisionError for a zero strike. The lattice and the
      simulation divide only by numpy values, which give infinities instead. */
  predicate PricerRaises(p: OptionParams, m: PricingMethod) {
    m == BlackScholesMethod && p.timeToExpiry > 0.0 && p.strike == 0.0
  }

  /** Step count the dispatcher passes to the lattice (the default argument). */
  const DefaultSteps: nat := 100

  /** price_option: dispatch on the method name; an unknown name and a raise
      inside a pricer are both caught and reported with price 0. */
  function PriceOption(p: OptionParams, optionType: string, methodName: string, nm: Numerics): (r: PriceResult)
    ensures ParseMethod(methodName) == None <==> r.UnknownMethod?
    ensures r.UnknownMethod? ==> r.price == 0.0 && r.methodName == methodName
    ensures r.ZeroStrikeError? <==>
      ParseMethod(methodName).Some? && PricerRaises(p, ParseMethod(methodName).value)
    ensures r.ZeroStrikeError? ==> r.price == 0.0
    ensures ParseMethod(methodName) == Some(BlackScholesMethod) && !PricerRaises(p, BlackScholesMethod) ==>
      r == BlackScholesQuote(BlackScholesPrice(p, optionType, nm), BlackScholesGreeks(p, optionType, nm))
    ensures ParseMethod(methodName) == Some(BinomialMethod) ==>
      r == BinomialQuote(BinomialValue(p, optionType, DefaultSteps, nm.crrFactors(p, DefaultSteps)))
    ensures ParseMethod(methodName) == Some(MonteCarloMethod) ==>
      var mc := MonteCarloPrice(p, optionType, nm);
      r == MonteCarloQuote(mc.0, mc.1)
  {
    match ParseMethod(methodName)
    case Some(BlackScholesMethod) =>
      if PricerRaises(p, BlackScholesMethod) then ZeroStrikeError(0.0)
      else BlackScholesQuote(BlackScholesPrice(p, optionType, nm), BlackScholesGreeks(p, optionType, nm))
    case Some(BinomialMethod) =>
      BinomialQuote(BinomialValue(p, optionType, DefaultSteps, nm.crrFactors(p, DefaultSteps)))
    case Some(MonteCarloMethod) =>
      var mc := MonteCarloPrice(p, optionType, nm);
      MonteCarloQuote(mc.0, mc.1)
    case None => UnknownMethod(0.0, methodName)
  }

  /** At or after expiry every method quotes the intrinsic value, and the
      simulation reports no sampling error. */
  lemma ExpiredQuotesAreIntrinsic(p: OptionParams, optionType: string, methodName: string, nm: Numerics)
    requires p.timeToExpiry <= 0.0
    requires ParseMethod(methodName).Some?
    ensures PriceOption(p, optionType, methodName, nm).price == Intrinsic(p, optionType)
    ensures PriceOption(p, optionType, methodName, nm).MonteCarloQuote? ==>
      PriceOption(p, optionType, methodName, nm).standardError == 0.0
    ensures PriceOption(p, optionType, methodName, nm).BlackScholesQuote? ==>
      PriceOption(p, optionType, methodName, nm).greeks == ZeroGreeks
  {
  }

  // ---------------------------------------------------------------------
  // OptionPricingEngine.calculate_portfolio_greeks

  /** One entry of the positions list: its pricing inputs and signed quantity. */
  datatype GreekPosition = GreekPosition(params: OptionParams, optionType: string, quantity: int)

  /** The OptionParams built from a position dictionary: the five keys read,
      and the dataclass default of no dividend, whatever the position holds. */
  function PositionParams(pos: GreekPosition): (p: OptionParams)
    ensures p.dividendYield == 0.0
    ensures p.spot == pos.params.spot && p.strike == pos.params.strike
    ensures p.timeToExpiry == pos.params.timeToExpiry
    ensures p.riskFreeRate == pos.params.riskFreeRate && p.volatility == pos.params.volatility
  {
    pos.params.(dividendYield := 0.0)
  }

  /** calculate_greeks raises uncaught on this position (S/K with a zero
      strike before expiry). */
  predicate RaisesInGreeks(pos: GreekPosition) {
    PricerRaises(PositionParams(pos), BlackScholesMethod)
  }

  function PositionGreeks(pos: GreekPosition, nm: Numerics): Greeks {
    ScaleGreeks(BlackScholesGreeks(PositionParams(pos), pos.optionType, nm), pos.quantity as real)
  }

  /** Sum over the positions of greek_i * quantity_i, Greek by Greek. */
  function WeightedGreeks(positions: seq<GreekPosition>, nm: Numerics): Greeks {
    if positions == [] then ZeroGreeks
    else AddGreeks(WeightedGreeks(positions[..|positions| - 1], nm), PositionGreeks(positions[|positions| - 1], nm))
  }

  lemma AddScaled(t: Greeks, g: Greeks, q: real)
    ensures AddGreeks(t, ScaleGreeks(g, q)) ==
      Greeks(t.delta + g.delta * q, t.gamma + g.gamma * q, t.theta + g.theta * q, t.vega + g.vega * q, t.rho + g.rho * q)
  {
    var s := ScaleGreeks(g, q);
    assert s == Greeks(g.delta * q, g.gamma * q, g.theta * q, g.vega * q, g.rho * q);
  }

  /** calculate_portfolio_greeks: None when a position's Greeks raise, which
      nothing in the method catches. */
  method PortfolioGreeks(positions: seq<GreekPosition>, nm: Numerics) returns (total: Option<Greeks>)
    ensures total.None? <==> exists i :: 0 <= i < |positions| && RaisesInGreeks(positions[i])
    ensures total.Some? ==> total.value == WeightedGreeks(positions, nm)
  {
    var totalDelta, totalGamma, totalTheta, totalVega, totalRho := 0.0, 0.0, 0.0, 0.0, 0.0;
    var i := 0;
    while i < |positions|
      invariant 0 <= i <= |positions|
      invariant forall j :: 0 <= j < i ==> !RaisesInGreeks(positions[j])
      invariant Greeks(totalDelta, totalGamma, totalTheta, totalVega, totalRho) == WeightedGreeks(positions[..i], nm)
    {
      if RaisesInGreeks(positions[i]) {
        return None;
      }
      var g := BlackScholesGreeks(PositionParams(positions[i]), positions[i].optionType, nm);
      var q := positions[i].quantity as real;
      assert positions[..i + 1][..i] == positions[..i];
      AddScaled(Greeks(totalDelta, totalGamma, totalTheta, totalVega, totalRho), g, q);
      totalDelta := totalDelta + g.delta * q;
      totalGamma := totalGamma + g.gamma * q;
      totalTheta := totalTheta + g.theta * q;
      totalVega := totalVega + g.vega * q;
      totalRho := totalRho + g.rho * q;
      i := i + 1;
    }
    assert positions[..i] == positions;
    total := Some(Greeks(totalDelta, totalGamma, totalTheta, totalVega, totalRho));
  }

  /** A unit-quantity position contributes its Greeks unchanged. */
  lemma UnitPositionGreeks(pos: GreekPosition, nm: Numerics)
    requires pos.quantity == 1
    ensures PositionGreeks(pos, nm) == BlackScholesGreeks(PositionParams(pos), pos.optionType, nm)
  {
    var g := BlackScholesGreeks(PositionParams(pos), pos.optionType, nm);
    assert ScaleGreeks(g, 1.0) == g;
  }

  /** Unfolding the sum for a two-position book. */
  lemma WeightedGreeksOfTwo(a: GreekPosition, b: GreekPosition, nm: Numerics)
    ensures WeightedGreeks([a, b], nm) == AddGreeks(PositionGreeks(a, nm), PositionGreeks(b, nm))
  {
    assert [a, b][..1] == [a];
    assert [a][..0] == [];
    var pa := PositionGreeks(a, nm);
    assert WeightedGreeks([a], nm) == AddGreeks(ZeroGreeks, pa);
    assert AddGreeks(ZeroGreeks, pa) == pa;
  }

  /** An empty book, or one where every position is at or past expiry, has zero Greeks. */
  lemma {:induction false} ExpiredBookHasZeroGreeks(positions: seq<GreekPosition>, nm: Numerics)
    requires forall i :: 0 <= i < |positions| ==> positions[i].params.timeToExpiry <= 0.0
    ensures WeightedGreeks(positions, nm) == ZeroGreeks
  {
    if positions != [] {
      ExpiredBookHasZeroGreeks(positions[..|positions| - 1], nm);
      var last := positions[|positions| - 1];
      assert BlackScholesGreeks(PositionParams(last), last.optionType, nm) == ZeroGreeks;
      assert PositionGreeks(last, nm) == ZeroGreeks;
    }
  }

  /** Splitting the book splits its Greeks: the totals are additive. */
  lemma {:induction false} WeightedGreeksAppend(a: seq<GreekPosition>, b: seq<GreekPosition>, nm: Numerics)
    ensures WeightedGreeks(a + b, nm) == AddGreeks(WeightedGreeks(a, nm), WeightedGreeks(b, nm))
  {
    if b == [] {
      assert a + b == a;
    } else {
      var front := b[..|b| - 1];
      assert (a + b)[..|a + b| - 1] == a + front;
      assert (a + b)[|a + b| - 1] == b[|b| - 1];
      WeightedGreeksAppend(a, front, nm);
      var head := WeightedGreeks(a, nm);
      var mid := WeightedGreeks(front, nm);
      var last := PositionGreeks(b[|b| - 1], nm);
      assert WeightedGreeks(a + b, nm) == AddGreeks(AddGreeks(head, mid), last);
      assert WeightedGreeks(b, nm) == AddGreeks(mid, last);
      AddGreeksAssociative(head, mid, last);
    }
  }

  // ---------------------------------------------------------------------
  // VolatilitySurface

  type SurfaceKey = (real, real)

  /** Where min(key=...) finds the entry of xs nearest to target. */
  function NearestIndex(xs: seq<real>, target: real): (k: nat)
    requires |xs| > 0
    ensures k < |xs|
    ensures forall i :: 0 <= i < |xs| ==> Abs(xs[k] - target) <= Abs(xs[i] - target)
  {
    if |xs| == 1 then 0
    else
      var front := xs[..|xs| - 1];
      var best := NearestIndex(front, target);
      assert forall i :: 0 <= i < |front| ==> front[i] == xs[i];
      if Abs(xs[|xs| - 1] - target) < Abs(xs[best] - target) then |xs| - 1 else best
  }

  /** The entry of xs nearest to target, as Python's min(key=...). */
  function Nearest(xs: seq<real>, target: real): (r: real)
    requires |xs| > 0
    ensures r in xs
    ensures forall i :: 0 <= i < |xs| ==> Abs(r - target) <= Abs(xs[i] - target)
  {
    xs[NearestIndex(xs, target)]
  }

  /** min(key=...) keeps the first of several equally near entries: every
      entry before the chosen one is strictly farther from the target. */
  lemma {:induction false} NearestIsFirstNearest(xs: seq<real>, target: real)
    requires |xs| > 0
    ensures forall j :: 0 <= j < NearestIndex(xs, target) ==> Abs(xs[j] - target) > Abs(Nearest(xs, target) - target)
  {
    if |xs| > 1 {
      var front := xs[..|xs| - 1];
      NearestIsFirstNearest(front, target);
      assert forall i :: 0 <= i < |front| ==> front[i] == xs[i];
    }
  }

  function Strikes(keys: seq<SurfaceKey>): (s: seq<real>)
    ensures |s| == |keys| && forall i :: 0 <= i < |keys| ==> s[i] == keys[i].0
  {
    seq(|keys|, i requires 0 <= i < |keys| => keys[i].0)
  }

  function Expiries(keys: seq<SurfaceKey>): (s: seq<real>)
    ensures |s| == |keys| && forall i :: 0 <= i < |keys| ==> s[i] == keys[i].1
  {
    seq(|keys|, i requires 0 <= i < |keys| => keys[i].1)
  }

  class VolatilitySurface {
    /** surface_data's keys in insertion order (a dict iterates in that order). */
    var keys: seq<SurfaceKey>
    var surfaceData: map<SurfaceKey, real>

    ghost predicate Valid()
      reads this
    {
      (forall i, j :: 0 <= i < j < |keys| ==> keys[i] != keys[j]) &&
      (forall k :: k in surfaceData <==> k in keys)
    }

    constructor ()
      ensures Valid() && keys == [] && surfaceData == map[]
    {
      keys := [];
      surfaceData := map[];
    }

    /** add_volatility_point: overwrite (or insert) the value at (strike, expiry). */
    method AddVolatilityPoint(strike: real, expiry: real, iv: real)
      requires Valid()
      modifies this
      ensures Valid()
      ensures surfaceData == old(surfaceData)[(strike, expiry) := iv]
      ensures keys == if (strike, expiry) in old(surfaceData) then old(keys) else old(keys) + [(strike, expiry)]
    {
      var key := (strike, expiry);
      if key !in surfaceData {
        keys := keys + [key];
      }
      surfaceData := surfaceData[key := iv];
    }

    /** _interpolate_volatility: 0.2 on an empty surface, otherwise the value
        at (nearest strike, nearest expiry), chosen independently, or 0.2 when
        that pair is not on the surface. */
    function InterpolateVolatility(strike: real, expiry: real): (v: real)
      reads this
      requires Valid()
      ensures surfaceData == map[] ==> v == 0.2
      ensures v == 0.2 || v in surfaceData.Values
    {
      if surfaceData == map[] then 0.2
      else
        assert keys != [] by {
          var k :| k in surfaceData;
        }
        var closest := (Nearest(Strikes(keys), strike), Nearest(Expiries(keys), expiry));
        if closest in surfaceData then surfaceData[closest] else 0.2
    }

    /** get_volatility: the stored value on an exact hit, the interpolation otherwise. */
    function GetVolatility(strike: real, expiry: real): (v: real)
      reads this
      requires Valid()
      ensures (strike, expiry) in surfaceData ==> v == surfaceData[(strike, expiry)]
      ensures (strike, expiry) !in surfaceData ==> v == InterpolateVolatility(strike, expiry)
    {
      if (strike, expiry) in surfaceData then surfaceData[(strike, expiry)]
      else InterpolateVolatility(strike, expiry)
    }

    /** The interpolation agrees with the stored value at a point on the surface. */
    lemma InterpolationHitsStoredPoint(strike: real, expiry: real)
      requires Valid()
      requires (strike, expiry) in surfaceData
      ensures InterpolateVolatility(strike, expiry) == surfaceData[(strike, expiry)]
    {
      var i :| 0 <= i < |keys| && keys[i] == (strike, expiry);
      var s := Nearest(Strikes(keys), strike);
      var e := Nearest(Expiries(keys), expiry);
      assert Abs(s - strike) <= Abs(Strikes(keys)[i] - strike);
      assert Abs(e - expiry) <= Abs(Expiries(keys)[i] - expiry);
    }
  }
}
