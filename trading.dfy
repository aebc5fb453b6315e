/** The live trading engine: strategy choice, the entry gate, strike ladders,
    position sizing, the four leg templates, closing (single, all, half on a
    risk alert), exits flagged by the risk manager, repricing and the
    portfolio status. Instants are real day numbers (days since 1970-01-01,
    the fraction being the time of day), as in the backtest. */
module Trading {
  import opened Common
  import opened Pricing
  import Risk
  import Strategies
  import Backtest

  type Position = Risk.Position

  /** The capital the engine assumes when it values its portfolio. */
  const AssumedCapital: real := 1000000.0
  const MinimumPortfolioValue: real := 100000.0
  const RiskPerTrade: real := 0.02
  const MaxContracts: int := 10

  /** Seconds after midnight: 09:15 and 15:30 bound the session, entries are
      allowed from 09:30 to 15:00. */
  const MarketOpen: real := 33300.0
  const MarketClose: real := 55800.0
  const EntryStart: real := 34200.0
  const EntryEnd: real := 54000.0

  function TimeOfDay(now: real): (t: real)
    ensures 0.0 <= t < 86400.0
  {
    (now - now.Floor as real) * 86400.0
  }

  /** _is_market_open */
  predicate IsMarketOpen(now: real) {
    MarketOpen <= TimeOfDay(now) <= MarketClose
  }

  /** The entry window lies inside the trading session. */
  lemma EntryWindowInsideSession(now: real)
    ensures EntryStart <= TimeOfDay(now) <= EntryEnd ==> IsMarketOpen(now)
  {
  }

  // ---------------------------------------------------------------------
  // Strategy choice, strikes and sizing

  /** _select_strategy: a non-empty model prediction wins; otherwise the
      volatility regime, with 0.2 when the market data has no volatility. */
  function SelectStrategy(prediction: Option<string>, currentVolatility: Option<real>): (r: string)
    ensures prediction.Some? && prediction.value != "" ==> r == prediction.value
    ensures !(prediction.Some? && prediction.value != "") ==>
      Strategies.ParseStrategyName(r) == Some(VolatilityRegime(currentVolatility.GetOr(0.2)))
  {
    if prediction.Some? && prediction.value != "" then prediction.value
    else
      var s := VolatilityRegime(currentVolatility.GetOr(0.2));
      Strategies.ParseStrategyNameRoundTrip(s);
      s.Name()
  }

  /** Without a prediction or a volatility reading the engine picks the butterfly. */
  lemma DefaultSelectionIsButterfly()
    ensures SelectStrategy(None, None) == "butterfly"
  {
  }

  /** _calculate_strike_prices: a ladder around the at-the-money strike,
      the strangle's call strike first. */
  function StrikePrices(spot: real, strategyName: string): (r: seq<int>)
    ensures Strategies.ParseStrategyName(strategyName).Some? ==>
      |r| == Strategies.StrikeCount(Strategies.ParseStrategyName(strategyName).value)
    ensures Strategies.ParseStrategyName(strategyName).None? ==> r == [AtmStrike(spot)]
    ensures |r| >= 1 && r[0] + r[|r| - 1] == 2 * AtmStrike(spot)
    ensures forall i :: 0 <= i < |r| ==> r[i] % 50 == 0 && (r[i] - AtmStrike(spot)) in {-200, -100, 0, 100, 200}
    ensures strategyName != "strangle" ==> forall i, j :: 0 <= i < j < |r| ==> r[i] < r[j]
    ensures strategyName == "strangle" ==> r[0] == r[1] + 200
  {
    AtmStrikeNearest(spot);
    var atm := AtmStrike(spot);
    if strategyName == "straddle" then [atm]
    else if strategyName == "strangle" then [atm + 100, atm - 100]
    else if strategyName == "iron_condor" then [atm - 200, atm - 100, atm + 100, atm + 200]
    else if strategyName == "butterfly" then [atm - 100, atm, atm + 100]
    else [atm]
  }

  /** The out-of-the-money strikes lie on the far side of the spot: the
      strangle's call above it and its put below, the condor's puts below and
      its calls above, the butterfly's wings on either side. */
  lemma LadderBracketsSpot(spot: real)
    ensures var r := StrikePrices(spot, "strangle"); r[1] as real < spot < r[0] as real
    ensures var r := StrikePrices(spot, "iron_condor"); r[0] < r[1] && r[1] as real < spot < r[2] as real && r[2] < r[3]
    ensures var r := StrikePrices(spot, "butterfly"); r[0] as real < spot < r[2] as real
  {
    AtmStrikeNearest(spot);
  }

  /** _calculate_option_price: Black-Scholes with 30 days to expiry, a 5%
      rate, 20% volatility and no dividend. */
  function EngineParams(spot: real, strike: real): OptionParams {
    OptionParams(spot, strike, 30.0 / 365.0, 0.05, 0.2, 0.0)
  }

  function EngineOptionPrice(spot: real, strike: real, optionType: string, nm: Numerics): (v: real)
    ensures v >= 0.0
    ensures strike == 0.0 ==> v == 0.0
    ensures strike != 0.0 ==> v == BlackScholesPrice(EngineParams(spot, strike), optionType, nm)
  {
    PriceOption(EngineParams(spot, strike), optionType, "black_scholes", nm).price
  }

  /** The runtime type of that price: the caught raise leaves the plain 0,
      and the formula price is numpy unless max(price, 0.0) floored it. */
  function EngineQuoteKind(spot: real, strike: real, optionType: string, nm: Numerics): NumberKind {
    if strike == 0.0 then Plain else QuoteKind(EngineParams(spot, strike), optionType, nm)
  }

  function Clamp(n: int): int {
    if n > MaxContracts then MaxContracts else if n < 0 then 0 else n
  }

  /** The risk-budget part of _calculate_position_size: int(2% of the
      portfolio value / lot value), clamped to 0..10, and 0 for a zero price. */
  function ClampedSize(portfolioValue: real, optionPrice: real): int {
    var positionValue := optionPrice * LotSize;
    if positionValue == 0.0 then 0 else Clamp(Trunc(portfolioValue * RiskPerTrade / positionValue))
  }

  lemma ScaleMonotone(a: real, b: real, v: real)
    requires v > 0.0
    ensures a <= b ==> a * v <= b * v
    ensures a < b ==> a * v < b * v
  {
  }

  lemma QuotientBounds(x: real, v: real)
    requires v > 0.0
    ensures x >= 0.0 ==> Trunc(x / v) as real * v <= x < (Trunc(x / v) + 1) as real * v
    ensures x < 0.0 ==> Trunc(x / v) <= 0
  {
    var q := x / v;
    assert q * v == x;
    if x >= 0.0 {
      assert q >= 0.0 by {
        if q < 0.0 {
          ScaleMonotone(q, 0.0, v);
        }
      }
      var t := Trunc(q) as real;
      assert t <= q < t + 1.0;
      ScaleMonotone(t, q, v);
      ScaleMonotone(q, t + 1.0, v);
      var u := (Trunc(q) + 1) as real;
      assert u == t + 1.0;
      assert x < u * v;
    }
  }

  /** The size is between 0 and 10, is 0 for a free option, never spends more
      than 2% of the portfolio value on a positive price, and is the largest
      such count below the cap. */
  lemma ClampedSizeBounds(portfolioValue: real, optionPrice: real)
    ensures 0 <= ClampedSize(portfolioValue, optionPrice) <= MaxContracts
    ensures optionPrice == 0.0 ==> ClampedSize(portfolioValue, optionPrice) == 0
    ensures optionPrice > 0.0 ==>
      ClampedSize(portfolioValue, optionPrice) as real * (optionPrice * LotSize) <= Max0(portfolioValue * RiskPerTrade)
    ensures optionPrice > 0.0 && ClampedSize(portfolioValue, optionPrice) < MaxContracts ==>
      (ClampedSize(portfolioValue, optionPrice) + 1) as real * (optionPrice * LotSize) > portfolioValue * RiskPerTrade
  {
    if optionPrice > 0.0 {
      var v := optionPrice * LotSize;
      var x := portfolioValue * RiskPerTrade;
      QuotientBounds(x, v);
      var t := Trunc(x / v);
      var n := ClampedSize(portfolioValue, optionPrice);
      assert n == Clamp(t);
      if x >= 0.0 {
        assert n <= t;
        ScaleMonotone(n as real, t as real, v);
        assert n as real * v <= x;
      } else {
        assert n == 0;
      }
    }
  }

  /** _calculate_position_size: the lot value is an at-the-money call. */
  function EngineSize(portfolioValue: real, spot: real, nm: Numerics): int {
    ClampedSize(portfolioValue, EngineOptionPrice(spot, spot, "call", nm))
  }

  // ---------------------------------------------------------------------
  // Leg templates

  /** One leg as the templates build it: symbol NIFTY<strike>CE/PE, the
      option priced at its own strike, entry and current price equal, expiry
      the next Thursday after the day of `now`. */
  function EngineLeg(spot: real, strike: int, isCall: bool, quantity: int, strategy: string, nm: Numerics, now: real): Position {
    var optionType := if isCall then "call" else "put";
    Backtest.Leg(strike, NextExpiry(now.Floor), quantity,
                 EngineOptionPrice(spot, strike as real, optionType, nm),
                 EngineQuoteKind(spot, strike as real, optionType, nm), now, strategy, isCall)
  }

  /** The templates build every leg through one maker per entry. */
  function LegMaker(spot: real, strategy: string, nm: Numerics, now: real): (int, bool, int) -> Position {
    (strike: int, isCall: bool, quantity: int) => EngineLeg(spot, strike, isCall, quantity, strategy, nm, now)
  }

  function Min3(a: nat, b: nat, c: nat): nat {
    if a <= b && a <= c then a else if b <= c then b else c
  }

  /** The legs of zip(strikes, types, quantities). */
  function ZipLegs(strikes: seq<int>, calls: seq<bool>, quantities: seq<int>, mk: (int, bool, int) -> Position): (legs: seq<Position>)
    ensures |legs| == Min3(|strikes|, |calls|, |quantities|)
  {
    var n := Min3(|strikes|, |calls|, |quantities|);
    seq(n, i requires 0 <= i < n => mk(strikes[i], calls[i], quantities[i]))
  }

  /** The positions each _create_*_position method appends. */
  function TemplateLegs(s: StrategyName, spot: real, strikes: seq<int>, q: int, nm: Numerics, now: real): seq<Position>
    requires |strikes| >= Strategies.StrikeCount(s)
  {
    var mk := LegMaker(spot, s.Name(), nm, now);
    match s
    case Straddle => [mk(strikes[0], true, q), mk(strikes[0], false, q)]
    case Strangle => [mk(strikes[0], true, q), mk(strikes[1], false, q)]
    case IronCondor => ZipLegs(strikes[..4], [false, false, true, true], [q, -q, -q, q], mk)
    case Butterfly => ZipLegs(strikes[..3], [true, true, true], [q, -2 * q, q], mk)
  }

  /** The condor's zip written out leg by leg. */
  lemma IronCondorDisplay(strikes: seq<int>, q: int, mk: (int, bool, int) -> Position)
    requires |strikes| >= 4
    ensures ZipLegs(strikes[..4], [false, false, true, true], [q, -q, -q, q], mk) ==
      [mk(strikes[0], false, q), mk(strikes[1], false, -q), mk(strikes[2], true, -q), mk(strikes[3], true, q)]
  {
  }

  /** The butterfly's zip written out leg by leg. */
  lemma ButterflyDisplay(strikes: seq<int>, q: int, mk: (int, bool, int) -> Position)
    requires |strikes| >= 3
    ensures ZipLegs(strikes[..3], [true, true, true], [q, -2 * q, q], mk) ==
      [mk(strikes[0], true, q), mk(strikes[1], true, -2 * q), mk(strikes[2], true, q)]
  {
  }

  /** A live leg is its unit leg scaled by q: same option type and strike,
      q times the weight, tagged with the strategy, opened at `now` at its
      current price, expiring on the next Thursday. */
  predicate ScaledLeg(leg: Position, unit: GreekPosition, q: int, strategy: string, now: real) {
    leg.optionType == unit.optionType && leg.strikePrice == unit.params.strike &&
    leg.quantity == q * unit.quantity && leg.strategyName == strategy &&
    leg.entryPrice == leg.currentPrice && leg.entryTime == now && leg.expiryDate == NextExpiry(now.Floor)
  }

  lemma MakerScales(spot: real, strike: int, isCall: bool, quantity: int, strategy: string, nm: Numerics, now: real,
                    unit: GreekPosition, q: int)
    requires unit.optionType == (if isCall then "call" else "put") && unit.params.strike == strike as real
    requires quantity == q * unit.quantity
    ensures ScaledLeg(LegMaker(spot, strategy, nm, now)(strike, isCall, quantity), unit, q, strategy, now)
  {
  }

  /** The template's legs match the unit legs one for one. */
  predicate FollowsUnitLegs(legs: seq<Position>, unit: seq<GreekPosition>, q: int, strategy: string, now: real) {
    |legs| == |unit| && forall i :: 0 <= i < |legs| ==> ScaledLeg(legs[i], unit[i], q, strategy, now)
  }

  /** Each template's legs are its strategy's signed unit legs scaled by the
      contract count. */
  lemma TemplateFollowsUnitLegs(s: StrategyName, spot: real, strikes: seq<int>, q: int, nm: Numerics, now: real,
                                p: Strategies.StrategyParams)
    requires |strikes| >= Strategies.StrikeCount(s) && |p.strikePrices| >= Strategies.StrikeCount(s)
    requires forall i :: 0 <= i < Strategies.StrikeCount(s) ==> p.strikePrices[i] == strikes[i] as real
    ensures FollowsUnitLegs(TemplateLegs(s, spot, strikes, q, nm, now), Strategies.Legs(s, p), q, s.Name(), now)
  {
    var k := p.strikePrices;
    assert k[0] == strikes[0] as real;
    match s
    case Straddle =>
      TwoLegsFollow(s, spot, strikes, q, nm, now, p);
    case Strangle =>
      assert k[1] == strikes[1] as real;
      TwoLegsFollow(s, spot, strikes, q, nm, now, p);
    case IronCondor =>
      assert k[1] == strikes[1] as real && k[2] == strikes[2] as real && k[3] == strikes[3] as real;
      IronCondorFollows(spot, strikes, q, nm, now, p);
    case Butterfly =>
      assert k[1] == strikes[1] as real && k[2] == strikes[2] as real;
      ButterflyFollows(spot, strikes, q, nm, now, p);
  }

  lemma TwoLegsFollow(s: StrategyName, spot: real, strikes: seq<int>, q: int, nm: Numerics, now: real,
                      p: Strategies.StrategyParams)
    requires s == Straddle || s == Strangle
    requires |strikes| >= 2 || s == Straddle
    requires |strikes| >= 1 && |p.strikePrices| >= Strategies.StrikeCount(s)
    requires p.strikePrices[0] == strikes[0] as real
    requires s == Strangle ==> p.strikePrices[1] == strikes[1] as real
    ensures FollowsUnitLegs(TemplateLegs(s, spot, strikes, q, nm, now), Strategies.Legs(s, p), q, s.Name(), now)
  {
    var unit := Strategies.Legs(s, p);
    var name := s.Name();
    var second := if s == Straddle then strikes[0] else strikes[1];
    MakerScales(spot, strikes[0], true, q, name, nm, now, unit[0], q);
    MakerScales(spot, second, false, q, name, nm, now, unit[1], q);
  }

  lemma IronCondorFollows(spot: real, strikes: seq<int>, q: int, nm: Numerics, now: real, p: Strategies.StrategyParams)
    requires |strikes| >= 4 && |p.strikePrices| >= 4
    requires forall i :: 0 <= i < 4 ==> p.strikePrices[i] == strikes[i] as real
    ensures FollowsUnitLegs(TemplateLegs(IronCondor, spot, strikes, q, nm, now), Strategies.Legs(IronCondor, p), q, "iron_condor", now)
  {
    var k := p.strikePrices;
    var name := "iron_condor";
    var mk := LegMaker(spot, name, nm, now);
    var u0, u1, u2, u3 := Strategies.Leg(p, k[0], "put", 1), Strategies.Leg(p, k[1], "put", -1),
                          Strategies.Leg(p, k[2], "call", -1), Strategies.Leg(p, k[3], "call", 1);
    assert Strategies.Legs(IronCondor, p) == [u0, u1, u2, u3];
    IronCondorDisplay(strikes, q, mk);
    MakerScales(spot, strikes[0], false, q, name, nm, now, u0, q);
    MakerScales(spot, strikes[1], false, -q, name, nm, now, u1, q);
    MakerScales(spot, strikes[2], true, -q, name, nm, now, u2, q);
    MakerScales(spot, strikes[3], true, q, name, nm, now, u3, q);
    FourFollow(mk(strikes[0], false, q), mk(strikes[1], false, -q), mk(strikes[2], true, -q), mk(strikes[3], true, q),
               u0, u1, u2, u3, q, name, now);
  }

  lemma FourFollow(a: Position, b: Position, c: Position, d: Position,
                   ua: GreekPosition, ub: GreekPosition, uc: GreekPosition, ud: GreekPosition,
                   q: int, strategy: string, now: real)
    requires ScaledLeg(a, ua, q, strategy, now) && ScaledLeg(b, ub, q, strategy, now)
    requires ScaledLeg(c, uc, q, strategy, now) && ScaledLeg(d, ud, q, strategy, now)
    ensures FollowsUnitLegs([a, b, c, d], [ua, ub, uc, ud], q, strategy, now)
  {
  }

  lemma ThreeFollow(a: Position, b: Position, c: Position, ua: GreekPosition, ub: GreekPosition, uc: GreekPosition,
                    q: int, strategy: string, now: real)
    requires ScaledLeg(a, ua, q, strategy, now) && ScaledLeg(b, ub, q, strategy, now) && ScaledLeg(c, uc, q, strategy, now)
    ensures FollowsUnitLegs([a, b, c], [ua, ub, uc], q, strategy, now)
  {
  }

  lemma ButterflyFollows(spot: real, strikes: seq<int>, q: int, nm: Numerics, now: real, p: Strategies.StrategyParams)
    requires |strikes| >= 3 && |p.strikePrices| >= 3
    requires forall i :: 0 <= i < 3 ==> p.strikePrices[i] == strikes[i] as real
    ensures FollowsUnitLegs(TemplateLegs(Butterfly, spot, strikes, q, nm, now), Strategies.Legs(Butterfly, p), q, "butterfly", now)
  {
    var k := p.strikePrices;
    var name := "butterfly";
    var mk := LegMaker(spot, name, nm, now);
    var u0, u1, u2 := Strategies.Leg(p, k[0], "call", 1), Strategies.Leg(p, k[1], "call", -2), Strategies.Leg(p, k[2], "call", 1);
    assert Strategies.Legs(Butterfly, p) == [u0, u1, u2];
    ButterflyDisplay(strikes, q, mk);
    MakerScales(spot, strikes[0], true, q, name, nm, now, u0, q);
    MakerScales(spot, strikes[1], true, -2 * q, name, nm, now, u1, q);
    MakerScales(spot, strikes[2], true, q, name, nm, now, u2, q);
    ThreeFollow(mk(strikes[0], true, q), mk(strikes[1], true, -2 * q), mk(strikes[2], true, q), u0, u1, u2, q, name, now);
  }

  /** Net contracts across a list of positions. */
  function NetQuantity(ps: seq<Position>): int {
    if ps == [] then 0 else NetQuantity(ps[..|ps| - 1]) + ps[|ps| - 1].quantity
  }

  lemma NetQuantityOfTwo(a: Position, b: Position)
    ensures NetQuantity([a, b]) == a.quantity + b.quantity
  {
    assert [a, b][..1] == [a];
    assert [a][..0] == [];
    assert NetQuantity([a]) == a.quantity;
  }

  lemma NetQuantityOfThree(a: Position, b: Position, c: Position)
    ensures NetQuantity([a, b, c]) == a.quantity + b.quantity + c.quantity
  {
    assert [a, b, c][..2] == [a, b];
    NetQuantityOfTwo(a, b);
  }

  lemma NetQuantityOfFour(a: Position, b: Position, c: Position, d: Position)
    ensures NetQuantity([a, b, c, d]) == a.quantity + b.quantity + c.quantity + d.quantity
  {
    assert [a, b, c, d][..3] == [a, b, c];
    NetQuantityOfThree(a, b, c);
  }

  /** The condor and the butterfly are net flat in contracts; the straddle
      and the strangle hold 2q. */
  lemma TemplateNetQuantity(s: StrategyName, spot: real, strikes: seq<int>, q: int, nm: Numerics, now: real)
    requires |strikes| >= Strategies.StrikeCount(s)
    ensures NetQuantity(TemplateLegs(s, spot, strikes, q, nm, now)) == (if s in {IronCondor, Butterfly} then 0 else 2 * q)
  {
    var legs := TemplateLegs(s, spot, strikes, q, nm, now);
    match s
    case Straddle =>
      NetQuantityOfTwo(legs[0], legs[1]);
    case Strangle =>
      NetQuantityOfTwo(legs[0], legs[1]);
    case IronCondor =>
      IronCondorDisplay(strikes, q, LegMaker(spot, "iron_condor", nm, now));
      NetQuantityOfFour(legs[0], legs[1], legs[2], legs[3]);
    case Butterfly =>
      ButterflyDisplay(strikes, q, LegMaker(spot, "butterfly", nm, now));
      NetQuantityOfThree(legs[0], legs[1], legs[2]);
  }

  /** Every template leg is tagged with its strategy, opened at its current
      price, and holds q, -q or -2q contracts. */
  predicate LegShape(leg: Position, q: int, strategy: string) {
    leg.strategyName == strategy && leg.entryPrice == leg.currentPrice &&
    (leg.quantity == q || leg.quantity == -q || leg.quantity == -2 * q)
  }

  predicate AllShaped(legs: seq<Position>, q: int, strategy: string) {
    forall i :: 0 <= i < |legs| ==> LegShape(legs[i], q, strategy)
  }

  lemma MakerShape(spot: real, strike: int, isCall: bool, quantity: int, strategy: string, nm: Numerics, now: real, q: int)
    requires quantity == q || quantity == -q || quantity == -2 * q
    ensures LegShape(LegMaker(spot, strategy, nm, now)(strike, isCall, quantity), q, strategy)
  {
  }

  lemma ShapedFour(a: Position, b: Position, c: Position, d: Position, q: int, strategy: string)
    requires LegShape(a, q, strategy) && LegShape(b, q, strategy) && LegShape(c, q, strategy) && LegShape(d, q, strategy)
    ensures AllShaped([a, b, c, d], q, strategy)
  {
  }

  lemma ShapedThree(a: Position, b: Position, c: Position, q: int, strategy: string)
    requires LegShape(a, q, strategy) && LegShape(b, q, strategy) && LegShape(c, q, strategy)
    ensures AllShaped([a, b, c], q, strategy)
  {
  }

  lemma ShapedTwo(a: Position, b: Position, q: int, strategy: string)
    requires LegShape(a, q, strategy) && LegShape(b, q, strategy)
    ensures AllShaped([a, b], q, strategy)
  {
  }

  lemma TemplateShape(s: StrategyName, spot: real, strikes: seq<int>, q: int, nm: Numerics, now: real)
    requires |strikes| >= Strategies.StrikeCount(s)
    ensures |TemplateLegs(s, spot, strikes, q, nm, now)| == (if s == IronCondor then 4 else if s == Butterfly then 3 else 2)
    ensures AllShaped(TemplateLegs(s, spot, strikes, q, nm, now), q, s.Name())
  {
    var name := s.Name();
    var mk := LegMaker(spot, name, nm, now);
    match s
    case Straddle =>
      MakerShape(spot, strikes[0], true, q, name, nm, now, q);
      MakerShape(spot, strikes[0], false, q, name, nm, now, q);
      ShapedTwo(mk(strikes[0], true, q), mk(strikes[0], false, q), q, name);
    case Strangle =>
      MakerShape(spot, strikes[0], true, q, name, nm, now, q);
      MakerShape(spot, strikes[1], false, q, name, nm, now, q);
      ShapedTwo(mk(strikes[0], true, q), mk(strikes[1], false, q), q, name);
    case IronCondor =>
      IronCondorShape(spot, strikes, q, nm, now);
    case Butterfly =>
      ButterflyShape(spot, strikes, q, nm, now);
  }

  lemma IronCondorShape(spot: real, strikes: seq<int>, q: int, nm: Numerics, now: real)
    requires |strikes| >= 4
    ensures |TemplateLegs(IronCondor, spot, strikes, q, nm, now)| == 4
    ensures AllShaped(TemplateLegs(IronCondor, spot, strikes, q, nm, now), q, "iron_condor")
  {
    var name := "iron_condor";
    var mk := LegMaker(spot, name, nm, now);
    IronCondorDisplay(strikes, q, mk);
    MakerShape(spot, strikes[0], false, q, name, nm, now, q);
    MakerShape(spot, strikes[1], false, -q, name, nm, now, q);
    MakerShape(spot, strikes[2], true, -q, name, nm, now, q);
    MakerShape(spot, strikes[3], true, q, name, nm, now, q);
    ShapedFour(mk(strikes[0], false, q), mk(strikes[1], false, -q), mk(strikes[2], true, -q), mk(strikes[3], true, q), q, name);
  }

  lemma ButterflyShape(spot: real, strikes: seq<int>, q: int, nm: Numerics, now: real)
    requires |strikes| >= 3
    ensures |TemplateLegs(Butterfly, spot, strikes, q, nm, now)| == 3
    ensures AllShaped(TemplateLegs(Butterfly, spot, strikes, q, nm, now), q, "butterfly")
  {
    var name := "butterfly";
    var mk := LegMaker(spot, name, nm, now);
    ButterflyDisplay(strikes, q, mk);
    MakerShape(spot, strikes[0], true, q, name, nm, now, q);
    MakerShape(spot, strikes[1], true, -2 * q, name, nm, now, q);
    MakerShape(spot, strikes[2], true, q, name, nm, now, q);
    ShapedThree(mk(strikes[0], true, q), mk(strikes[1], true, -2 * q), mk(strikes[2], true, q), q, name);
  }

  // ---------------------------------------------------------------------
  // P&L over a book

  function TotalPnl(ps: seq<Position>): real {
    if ps == [] then 0.0 else TotalPnl(ps[..|ps| - 1]) + Backtest.Pnl(ps[|ps| - 1])
  }

  lemma {:induction false} TotalPnlAppend(s: seq<Position>, t: seq<Position>)
    ensures TotalPnl(s + t) == TotalPnl(s) + TotalPnl(t)
  {
    if t == [] {
      assert s + t == s;
    } else {
      assert (s + t)[..|s + t| - 1] == s + t[..|t| - 1];
      TotalPnlAppend(s, t[..|t| - 1]);
    }
  }

  /** Legs opened at their current price carry no P&L. */
  lemma {:induction false} FreshLegsHaveNoPnl(ps: seq<Position>)
    requires forall i :: 0 <= i < |ps| ==> ps[i].entryPrice == ps[i].currentPrice
    ensures TotalPnl(ps) == 0.0
  {
    if ps != [] {
      FreshLegsHaveNoPnl(ps[..|ps| - 1]);
    }
  }

  /** The premium paid for a book: entry price times quantity times lot size. */
  function EntryCost(ps: seq<Position>): real {
    if ps == [] then 0.0
    else EntryCost(ps[..|ps| - 1]) + ps[|ps| - 1].entryPrice * ps[|ps| - 1].quantity as real * LotSize
  }

  /** The status's total value less its total P&L is the premium paid. */
  lemma {:induction false} ValueLessPnlIsEntryCost(ps: seq<Position>)
    ensures Backtest.PositionValue(ps) - TotalPnl(ps) == EntryCost(ps)
  {
    if ps != [] {
      ValueLessPnlIsEntryCost(ps[..|ps| - 1]);
      Backtest.PnlIsMarkLessPremium(ps[|ps| - 1]);
    }
  }

  // ---------------------------------------------------------------------
  // The engine's books as a value

  datatype Desk = Desk(positions: seq<Position>, dailyPnl: real, portfolioValue: real)

  /** _close_position: the P&L is added before list.remove, so it is added
      even when the position is not held (the ValueError is caught after). */
  function ClosePos(d: Desk, p: Position): Desk {
    Desk(RemoveFirst(d.positions, p), d.dailyPnl + Backtest.Pnl(p), d.portfolioValue)
  }

  /** Close a list of positions in order. */
  function CloseEach(d: Desk, ps: seq<Position>): Desk {
    if ps == [] then d else ClosePos(CloseEach(d, ps[..|ps| - 1]), ps[|ps| - 1])
  }

  /** Closing adds the closed positions' P&L and leaves the portfolio value. */
  lemma {:induction false} CloseEachPnl(d: Desk, ps: seq<Position>)
    ensures CloseEach(d, ps).dailyPnl == d.dailyPnl + TotalPnl(ps)
    ensures CloseEach(d, ps).portfolioValue == d.portfolioValue
  {
    if ps != [] {
      CloseEachPnl(d, ps[..|ps| - 1]);
    }
  }

  /** Closing a prefix of the book in order leaves the rest of the book. */
  lemma {:induction false} CloseEachPrefix(d: Desk, ps: seq<Position>)
    requires ps <= d.positions
    ensures CloseEach(d, ps).positions == d.positions[|ps|..]
  {
    if ps != [] {
      var n := |ps| - 1;
      assert ps[..n] <= d.positions;
      CloseEachPrefix(d, ps[..n]);
      var rest := d.positions[n..];
      assert rest[0] == ps[n];
      assert rest == [rest[0]] + rest[1..];
      assert rest[1..] == d.positions[n + 1..];
    }
  }

  /** Closing positions drawn from the book removes exactly them. */
  lemma {:induction false} CloseEachDrawn(d: Desk, ps: seq<Position>)
    requires multiset(ps) <= multiset(d.positions)
    ensures multiset(CloseEach(d, ps).positions) == multiset(d.positions) - multiset(ps)
  {
    if ps != [] {
      var n := |ps| - 1;
      assert ps == ps[..n] + [ps[n]];
      assert multiset(ps) == multiset(ps[..n]) + multiset{ps[n]};
      CloseEachDrawn(d, ps[..n]);
      assert ps[n] in multiset(CloseEach(d, ps[..n]).positions);
    }
  }

  /** Closing the whole book in order empties it and realises its P&L. */
  lemma CloseAllRealises(d: Desk)
    ensures CloseEach(d, d.positions) == Desk([], d.dailyPnl + TotalPnl(d.positions), d.portfolioValue)
  {
    CloseEachPrefix(d, d.positions);
    CloseEachPnl(d, d.positions);
  }

  /** Closing the first half keeps the second half and realises the first. */
  lemma CloseHalfRealises(d: Desk)
    ensures var half := d.positions[..|d.positions| / 2];
      CloseEach(d, half) == Desk(d.positions[|d.positions| / 2..], d.dailyPnl + TotalPnl(half), d.portfolioValue)
  {
    var half := d.positions[..|d.positions| / 2];
    CloseEachPrefix(d, half);
    CloseEachPnl(d, half);
  }

  /** _check_position_exits: the positions the risk manager flags are removed
      and their P&L realised; the others stay. */
  lemma ExitsRemoveFlagged(d: Desk, now: real)
    ensures var exits := Backtest.ExitsOf(d.positions, now);
      var r := CloseEach(d, exits);
      multiset(r.positions) == multiset(d.positions) - multiset(exits) &&
      r.dailyPnl == d.dailyPnl + TotalPnl(exits) && r.portfolioValue == d.portfolioValue
  {
    var exits := Backtest.ExitsOf(d.positions, now);
    Backtest.ExitsAreDrawnFromBook(d.positions, now);
    CloseEachDrawn(d, exits);
    CloseEachPnl(d, exits);
  }

  /** What _enter_position appends: nothing for an unregistered strategy or a
      zero size, otherwise the strategy's template at its strike ladder. */
  function EntryLegs(portfolioValue: real, spot: real, strategyName: string, nm: Numerics, now: real): seq<Position> {
    match Strategies.ParseStrategyName(strategyName)
    case None => []
    case Some(s) =>
      var strikes := StrikePrices(spot, strategyName);
      var size := EngineSize(portfolioValue, spot, nm);
      if size <= 0 then [] else TemplateLegs(s, spot, strikes, size, nm, now)
  }

  /** An entry opens legs exactly when the strategy is registered and the
      budget buys a contract; the legs are tagged with the strategy, carry
      no P&L and hold between 1 and 20 contracts each, and the at-the-money
      call estimate of the size stays within 2% of the portfolio value. */
  lemma EntryContract(portfolioValue: real, spot: real, strategyName: string, nm: Numerics, now: real)
    ensures var legs := EntryLegs(portfolioValue, spot, strategyName, nm, now);
      (legs != [] <==> Strategies.ParseStrategyName(strategyName).Some? && EngineSize(portfolioValue, spot, nm) > 0) &&
      TotalPnl(legs) == 0.0 &&
      forall i :: 0 <= i < |legs| ==>
        legs[i].strategyName == strategyName && legs[i].quantity != 0 &&
        -2 * MaxContracts <= legs[i].quantity <= 2 * MaxContracts
    ensures EngineSize(portfolioValue, spot, nm) as real * (EngineOptionPrice(spot, spot, "call", nm) * LotSize)
      <= Max0(portfolioValue * RiskPerTrade)
  {
    var price := EngineOptionPrice(spot, spot, "call", nm);
    ClampedSizeBounds(portfolioValue, price);
    var legs := EntryLegs(portfolioValue, spot, strategyName, nm, now);
    var size := EngineSize(portfolioValue, spot, nm);
    assert 0 <= size <= MaxContracts;
    match Strategies.ParseStrategyName(strategyName)
    case None =>
    case Some(s) =>
      if size > 0 {
        var strikes := StrikePrices(spot, strategyName);
        assert legs == TemplateLegs(s, spot, strikes, size, nm, now);
        TemplateShape(s, spot, strikes, size, nm, now);
        FreshLegsHaveNoPnl(legs);
      }
  }

  /** A Desk's status as get_portfolio_status reports it (the per-position
      dictionaries aside). */
  datatype Status = Status(totalPositions: nat, totalValue: real, totalPnl: real, dailyPnl: real, portfolioValue: real)

  function StatusOf(d: Desk): Status {
    Status(|d.positions|, Backtest.PositionValue(d.positions), TotalPnl(d.positions), d.dailyPnl, d.portfolioValue)
  }

  /** Closing everything moves the open P&L the status reports into the day's
      P&L and leaves nothing open. */
  lemma CloseAllMovesOpenPnl(d: Desk)
    ensures var after := StatusOf(CloseEach(d, d.positions));
      after.totalPositions == 0 && after.totalValue == 0.0 && after.totalPnl == 0.0 &&
      after.dailyPnl == StatusOf(d).dailyPnl + StatusOf(d).totalPnl
  {
    CloseAllRealises(d);
  }

  /** Opening fresh legs leaves the status's open P&L unchanged. */
  lemma EntryKeepsOpenPnl(d: Desk, legs: seq<Position>)
    requires forall i :: 0 <= i < |legs| ==> legs[i].entryPrice == legs[i].currentPrice
    ensures StatusOf(Desk(d.positions + legs, d.dailyPnl, d.portfolioValue)).totalPnl == StatusOf(d).totalPnl
  {
    TotalPnlAppend(d.positions, legs);
    FreshLegsHaveNoPnl(legs);
  }

  /** _update_position_values for one position. */
  function Repriced(p: Position, spot: real, nm: Numerics): (r: Position)
    ensures r.currentPrice >= 0.0
  {
    p.(currentPrice := EngineOptionPrice(spot, p.strikePrice, p.optionType, nm),
       currentKind := EngineQuoteKind(spot, p.strikePrice, p.optionType, nm))
  }

  // ---------------------------------------------------------------------
  // The engine

  class TradingEngine {
    var positions: seq<Position>
    var dailyPnl: real
    var portfolioValue: real

    function Books(): Desk
      reads this
    {
      Desk(positions, dailyPnl, portfolioValue)
    }

    /** A fresh engine holds nothing and values its portfolio at 0, so it
        refuses entries until the value has been updated. */
    constructor ()
      ensures positions == [] && dailyPnl == 0.0 && portfolioValue == 0.0
      ensures forall v, now :: !ShouldEnterPosition(v, now)
    {
      positions := [];
      dailyPnl := 0.0;
      portfolioValue := 0.0;
    }

    /** _should_enter_position */
    function ShouldEnterPosition(currentVolatility: Option<real>, now: real): (b: bool)
      reads this
      ensures b <==> (positions == [] && portfolioValue >= MinimumPortfolioValue &&
                      0.15 <= currentVolatility.GetOr(0.2) <= 0.5 && EntryStart <= TimeOfDay(now) <= EntryEnd)
      ensures b ==> IsMarketOpen(now)
    {
      var volatility := currentVolatility.GetOr(0.2);
      var t := TimeOfDay(now);
      if |positions| > 0 then false
      else if portfolioValue < MinimumPortfolioValue then false
      else if volatility < 0.15 || volatility > 0.5 then false
      else if t < EntryStart then false
      else if t > EntryEnd then false
      else true
    }

    /** _create_straddle_position */
    method CreateStraddlePosition(spot: real, strike: int, quantity: int, nm: Numerics, now: real)
      modifies this
      ensures positions == old(positions) + TemplateLegs(Straddle, spot, [strike], quantity, nm, now)
      ensures dailyPnl == old(dailyPnl) && portfolioValue == old(portfolioValue)
    {
      var callPrice := EngineOptionPrice(spot, strike as real, "call", nm);
      var putPrice := EngineOptionPrice(spot, strike as real, "put", nm);
      var expiry := NextExpiry(now.Floor);
      var callKind := EngineQuoteKind(spot, strike as real, "call", nm);
      var putKind := EngineQuoteKind(spot, strike as real, "put", nm);
      var callPosition := Backtest.Leg(strike, expiry, quantity, callPrice, callKind, now, "straddle", true);
      var putPosition := Backtest.Leg(strike, expiry, quantity, putPrice, putKind, now, "straddle", false);
      positions := positions + [callPosition, putPosition];
    }

    /** _create_strangle_position; a list shorter than two strikes raises
        IndexError, which is caught before anything is appended. */
    method CreateStranglePosition(spot: real, strikes: seq<int>, quantity: int, nm: Numerics, now: real)
      modifies this
      ensures |strikes| >= 2 ==> positions == old(positions) + TemplateLegs(Strangle, spot, strikes, quantity, nm, now)
      ensures |strikes| < 2 ==> positions == old(positions)
      ensures dailyPnl == old(dailyPnl) && portfolioValue == old(portfolioValue)
    {
      if |strikes| < 2 {
        return;
      }
      var callStrike := strikes[0];
      var putStrike := strikes[1];
      var callPrice := EngineOptionPrice(spot, callStrike as real, "call", nm);
      var putPrice := EngineOptionPrice(spot, putStrike as real, "put", nm);
      var expiry := NextExpiry(now.Floor);
      var callKind := EngineQuoteKind(spot, callStrike as real, "call", nm);
      var putKind := EngineQuoteKind(spot, putStrike as real, "put", nm);
      var callPosition := Backtest.Leg(callStrike, expiry, quantity, callPrice, callKind, now, "strangle", true);
      var putPosition := Backtest.Leg(putStrike, expiry, quantity, putPrice, putKind, now, "strangle", false);
      positions := positions + [callPosition, putPosition];
    }

    /** The loop over zip(strikes, types, quantities) that builds a local
        list, each leg priced and built by `mk`. */
    static method BuildLegs(strikes: seq<int>, calls: seq<bool>, quantities: seq<int>,
                            mk: (int, bool, int) -> Position) returns (legs: seq<Position>)
      ensures legs == ZipLegs(strikes, calls, quantities, mk)
    {
      var n := Min3(|strikes|, |calls|, |quantities|);
      legs := [];
      var i := 0;
      while i < n
        invariant 0 <= i <= n
        invariant |legs| == i
        invariant forall k :: 0 <= k < i ==> legs[k] == mk(strikes[k], calls[k], quantities[k])
      {
        var position := mk(strikes[i], calls[i], quantities[i]);
        legs := legs + [position];
        i := i + 1;
      }
    }

    /** _create_iron_condor_position: long put, short put, short call, long call. */
    method CreateIronCondorPosition(spot: real, strikes: seq<int>, quantity: int, nm: Numerics, now: real)
      modifies this
      ensures |strikes| >= 4 ==> positions == old(positions) + TemplateLegs(IronCondor, spot, strikes, quantity, nm, now)
      ensures |strikes| < 4 ==> positions == old(positions)
      ensures dailyPnl == old(dailyPnl) && portfolioValue == old(portfolioValue)
    {
      if |strikes| < 4 {
        return;
      }
      var legs := BuildLegs([strikes[0], strikes[1], strikes[2], strikes[3]], [false, false, true, true],
                            [quantity, -quantity, -quantity, quantity], LegMaker(spot, "iron_condor", nm, now));
      assert strikes[..4] == [strikes[0], strikes[1], strikes[2], strikes[3]];
      positions := positions + legs;
    }

    /** _create_butterfly_position: one long call, two short, one long. */
    method CreateButterflyPosition(spot: real, strikes: seq<int>, quantity: int, nm: Numerics, now: real)
      modifies this
      ensures |strikes| >= 3 ==> positions == old(positions) + TemplateLegs(Butterfly, spot, strikes, quantity, nm, now)
      ensures |strikes| < 3 ==> positions == old(positions)
      ensures dailyPnl == old(dailyPnl) && portfolioValue == old(portfolioValue)
    {
      if |strikes| < 3 {
        return;
      }
      var legs := BuildLegs([strikes[0], strikes[1], strikes[2]], [true, true, true],
                            [quantity, -2 * quantity, quantity], LegMaker(spot, "butterfly", nm, now));
      assert strikes[..3] == [strikes[0], strikes[1], strikes[2]];
      positions := positions + legs;
    }

    /** _enter_position; `chainAvailable` stands for a non-empty options chain. */
    method EnterPosition(spot: real, strategyName: string, chainAvailable: bool, nm: Numerics, now: real)
      modifies this
      ensures positions == old(positions) + (if chainAvailable then EntryLegs(old(portfolioValue), spot, strategyName, nm, now) else [])
      ensures dailyPnl == old(dailyPnl) && portfolioValue == old(portfolioValue)
    {
      var strategy := Strategies.ParseStrategyName(strategyName);
      if strategy.None? {
        return;
      }
      var strikePrices := StrikePrices(spot, strategyName);
      if !chainAvailable {
        return;
      }
      var positionSize := EngineSize(portfolioValue, spot, nm);
      if positionSize <= 0 {
        return;
      }
      match strategy.value
      case Straddle =>
        assert [strikePrices[0]] == strikePrices;
        CreateStraddlePosition(spot, strikePrices[0], positionSize, nm, now);
      case Strangle =>
        CreateStranglePosition(spot, strikePrices, positionSize, nm, now);
      case IronCondor =>
        CreateIronCondorPosition(spot, strikePrices, positionSize, nm, now);
      case Butterfly =>
        CreateButterflyPosition(spot, strikePrices, positionSize, nm, now);
    }

    /** _close_position */
    method ClosePosition(position: Position)
      modifies this
      ensures Books() == ClosePos(old(Books()), position)
    {
      var pnl := (position.currentPrice - position.entryPrice) * position.quantity as real * LotSize;
      dailyPnl := dailyPnl + pnl;
      positions := RemoveFirst(positions, position);
    }

    /** Close a list of positions one after the other. */
    method CloseListed(toClose: seq<Position>)
      modifies this
      ensures Books() == CloseEach(old(Books()), toClose)
    {
      var j := 0;
      while j < |toClose|
        invariant 0 <= j <= |toClose|
        invariant Books() == CloseEach(old(Books()), toClose[..j])
      {
        assert toClose[..j + 1][..j] == toClose[..j];
        ClosePosition(toClose[j]);
        j := j + 1;
      }
      assert toClose[..j] == toClose;
    }

    /** _close_all_positions: iterate over a copy of the list. */
    method CloseAllPositions()
      modifies this
      ensures positions == [] && dailyPnl == old(dailyPnl) + TotalPnl(old(positions))
      ensures portfolioValue == old(portfolioValue)
    {
      var copy := positions;
      CloseListed(copy);
      CloseAllRealises(old(Books()));
    }

    /** _check_position_exits: collect the flagged positions, then close them. */
    method CheckPositionExits(now: real)
      modifies this
      ensures Books() == CloseEach(old(Books()), Backtest.ExitsOf(old(positions), now))
    {
      var positionsToClose: seq<Position> := [];
      var i := 0;
      while i < |positions|
        invariant 0 <= i <= |positions|
        invariant positionsToClose == Backtest.ExitsOf(positions[..i], now)
      {
        assert positions[..i + 1][..i] == positions[..i];
        var position := positions[i];
        var shouldExit := Risk.ShouldExitPosition(Risk.DefaultLimits, position, position.currentPrice, now);
        if shouldExit.0 {
          positionsToClose := positionsToClose + [position];
        }
        i := i + 1;
      }
      assert positions[..i] == positions;
      CloseListed(positionsToClose);
    }

    /** _handle_risk_alert: close everything, close the first half, or do
        nothing, by the alert's action. */
    method HandleRiskAlert(action: Option<string>)
      modifies this
      ensures action == Some("close_all_positions") ==>
        positions == [] && dailyPnl == old(dailyPnl) + TotalPnl(old(positions))
      ensures action == Some("reduce_positions") ==>
        positions == old(positions)[|old(positions)| / 2..] &&
        dailyPnl == old(dailyPnl) + TotalPnl(old(positions)[..|old(positions)| / 2])
      ensures action != Some("close_all_positions") && action != Some("reduce_positions") ==>
        positions == old(positions) && dailyPnl == old(dailyPnl)
      ensures portfolioValue == old(portfolioValue)
    {
      if action == Some("close_all_positions") {
        CloseAllPositions();
      } else if action == Some("reduce_positions") {
        var positionsToClose := positions[..|positions| / 2];
        CloseListed(positionsToClose);
        CloseHalfRealises(old(Books()));
      }
    }

    /** _update_position_values */
    method UpdatePositionValues(spot: real, nm: Numerics)
      modifies this
      ensures |positions| == |old(positions)|
      ensures forall k :: 0 <= k < |positions| ==> positions[k] == Repriced(old(positions)[k], spot, nm)
      ensures dailyPnl == old(dailyPnl) && portfolioValue == old(portfolioValue)
    {
      var i := 0;
      while i < |positions|
        invariant 0 <= i <= |positions| == |old(positions)|
        invariant forall k :: 0 <= k < i ==> positions[k] == Repriced(old(positions)[k], spot, nm)
        invariant forall k :: i <= k < |positions| ==> positions[k] == old(positions)[k]
        invariant dailyPnl == old(dailyPnl) && portfolioValue == old(portfolioValue)
      {
        var position := positions[i];
        var newPrice := EngineOptionPrice(spot, position.strikePrice, position.optionType, nm);
        var newKind := EngineQuoteKind(spot, position.strikePrice, position.optionType, nm);
        positions := positions[i := position.(currentPrice := newPrice, currentKind := newKind)];
        i := i + 1;
      }
    }

    /** _update_portfolio_value: the assumed capital plus the marked book. */
    method UpdatePortfolioValue()
      modifies this
      ensures portfolioValue == AssumedCapital + Backtest.PositionValue(positions)
      ensures positions == old(positions) && dailyPnl == old(dailyPnl)
    {
      portfolioValue := AssumedCapital + Backtest.PositionValue(positions);
    }

    /** get_portfolio_status */
    function GetPortfolioStatus(): (r: Status)
      reads this
      ensures r.totalPositions == |positions| && r.dailyPnl == dailyPnl && r.portfolioValue == portfolioValue
      ensures r.totalValue - r.totalPnl == EntryCost(positions)
    {
      ValueLessPnlIsEntryCost(positions);
      StatusOf(Books())
    }
  }
}
