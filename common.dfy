/** Shared vocabulary of the option-strategy system: option results, Greek
    vectors, the Python conversions the source relies on (int(), round(),
    str.lower()), calendar helpers over day numbers, and the lot size. */
module Common {

  datatype Option<+T> = None | Some(value: T) {
    function GetOr(default: T): T {
      match this
      case Some(v) => v
      case None => default
    }
  }

  /** NIFTY contract lot size (config.py LOT_SIZE). */
  const LotSize: real := 50.0

  /** The five sensitivities the pricing engine reports. */
  datatype Greeks = Greeks(delta: real, gamma: real, theta: real, vega: real, rho: real)

  const ZeroGreeks: Greeks := Greeks(0.0, 0.0, 0.0, 0.0, 0.0)

  function AddGreeks(a: Greeks, b: Greeks): Greeks {
    Greeks(a.delta + b.delta, a.gamma + b.gamma, a.theta + b.theta, a.vega + b.vega, a.rho + b.rho)
  }

  lemma AddGreeksAssociative(a: Greeks, b: Greeks, c: Greeks)
    ensures AddGreeks(AddGreeks(a, b), c) == AddGreeks(a, AddGreeks(b, c))
  {
  }

  function ScaleGreeks(g: Greeks, k: real): Greeks {
    Greeks(g.delta * k, g.gamma * k, g.theta * k, g.vega * k, g.rho * k)
  }

  /** Python max(x, 0). */
  function Max0(x: real): (r: real)
    ensures r >= 0.0 && r >= x && (r == x || r == 0.0)
  {
    if x > 0.0 then x else 0.0
  }

  /** The runtime type of a number: a plain Python int or float, or a numpy
      float64. Python division by a plain zero raises ZeroDivisionError; a
      division with a numpy operand gives an infinity or nan instead. */
  datatype NumberKind = Plain | Numpy

  function Abs(x: real): (r: real)
    ensures r >= 0.0 && (r == x || r == -x)
  {
    if x < 0.0 then -x else x
  }

  function MaxReal(a: real, b: real): real { if a >= b then a else b }
  function MinReal(a: real, b: real): real { if a <= b then a else b }

  /** Python int(x) on a float: truncation toward zero. */
  function Trunc(x: real): (r: int)
    ensures x >= 0.0 ==> 0 <= r && r as real <= x < r as real + 1.0
    ensures x < 0.0 ==> r <= 0 && r as real - 1.0 < x <= r as real
  {
    if x >= 0.0 then x.Floor else -((-x).Floor)
  }

  /** Python round(x) on a float: to the nearest integer, ties to the even one. */
  function RoundHalfEven(x: real): (r: int)
    ensures Abs(x - r as real) <= 0.5
    ensures Abs(x - r as real) == 0.5 ==> r % 2 == 0
  {
    var f := x.Floor;
    var frac := x - f as real;
    if frac < 0.5 then f
    else if frac > 0.5 then f + 1
    else if f % 2 == 0 then f
    else f + 1
  }

  /** ASCII case folding, the part of str.lower() the option-type tests use. */
  function LowerChar(c: char): char {
    if 'A' <= c <= 'Z' then (c as int + 32) as char else c
  }

  function Lower(s: string): (r: string)
    ensures |r| == |s|
    ensures forall i :: 0 <= i < |s| ==> r[i] == LowerChar(s[i])
  {
    if s == [] then [] else [LowerChar(s[0])] + Lower(s[1..])
  }

  /** option_type.lower() == 'call' */
  predicate IsCall(optionType: string) { Lower(optionType) == "call" }

  /** option_type.lower() == 'put' */
  predicate IsPut(optionType: string) { Lower(optionType) == "put" }

  lemma CallAndPutExclusive(optionType: string)
    ensures !(IsCall(optionType) && IsPut(optionType))
  {
    if IsCall(optionType) {
      assert |Lower(optionType)| == 4;
    }
  }

  lemma {:induction false} LowerIdempotentOnLowercase(s: string)
    requires forall i :: 0 <= i < |s| ==> !('A' <= s[i] <= 'Z')
    ensures Lower(s) == s
  {
    if s != [] {
      LowerIdempotentOnLowercase(s[1..]);
    }
  }

  /** Day numbers count days since 1970-01-01, a Thursday; weekday() is 0 on Monday. */
  function Weekday(day: int): (w: int)
    ensures 0 <= w < 7
  {
    (day + 3) % 7
  }

  /** (later - earlier).days for datetimes: whole days, rounded down. */
  function DaysBetween(later: real, earlier: real): (d: int)
    ensures d as real <= later - earlier < d as real + 1.0
  {
    (later - earlier).Floor
  }

  const Thursday: int := 3

  /** Next Thursday strictly after `day`: (3 - weekday) % 7, with 0 replaced by 7. */
  function NextExpiry(day: int): int {
    var ahead := (Thursday - Weekday(day)) % 7;
    day + (if ahead == 0 then 7 else ahead)
  }

  lemma NextExpiryIsNextThursday(day: int)
    ensures 1 <= NextExpiry(day) - day <= 7
    ensures Weekday(NextExpiry(day)) == Thursday
    ensures forall d :: day < d < NextExpiry(day) ==> Weekday(d) != Thursday
  {
    var w := Weekday(day);
    var ahead := (Thursday - w) % 7;
    var step := if ahead == 0 then 7 else ahead;
    assert Weekday(day + step) == (w + step) % 7 by {
      assert (day + 3) % 7 == w;
    }
    forall d | day < d < NextExpiry(day)
      ensures Weekday(d) != Thursday
    {
      assert Weekday(d) == (w + (d - day)) % 7;
    }
  }

  /** Decimal rendering of an integer, as Python's str() / f-strings print it. */
  function DigitChar(d: int): char
    requires 0 <= d < 10
  {
    "0123456789"[d]
  }

  function NatToString(n: nat): (s: string)
    ensures |s| >= 1
    decreases n
  {
    if n < 10 then [DigitChar(n)] else NatToString(n / 10) + [DigitChar(n % 10)]
  }

  function IntToString(n: int): string {
    if n < 0 then "-" + NatToString(-n) else NatToString(n)
  }

  /** The at-the-money strike: round(spot / 50) * 50. */
  function AtmStrike(spot: real): int {
    RoundHalfEven(spot / 50.0) * 50
  }

  /** The strike is a multiple of 50 within 25 of the spot. */
  lemma AtmStrikeNearest(spot: real)
    ensures AtmStrike(spot) % 50 == 0
    ensures Abs(spot - AtmStrike(spot) as real) <= 25.0
  {
    var n := RoundHalfEven(spot / 50.0);
    assert spot - (n * 50) as real == 50.0 * (spot / 50.0 - n as real);
  }

  /** list.remove(x): drop the first element equal to x; ValueError when absent. */
  function RemoveFirst<T(==)>(s: seq<T>, x: T): (r: seq<T>)
    ensures x in s ==> |r| == |s| - 1 && multiset(r) == multiset(s) - multiset{x}
    ensures x !in s ==> r == s
  {
    if s == [] then []
    else
      assert s == [s[0]] + s[1..];
      if s[0] == x then s[1..] else [s[0]] + RemoveFirst(s[1..], x)
  }

  /** Sum of f over a sequence, left to right, as Python's sum(generator). */
  function SumOf<T>(s: seq<T>, f: T -> real): real {
    if s == [] then 0.0 else SumOf(s[..|s| - 1], f) + f(s[|s| - 1])
  }

  lemma {:induction false} SumOfAppend<T>(s: seq<T>, t: seq<T>, f: T -> real)
    ensures SumOf(s + t, f) == SumOf(s, f) + SumOf(t, f)
  {
    if t == [] {
      assert s + t == s;
    } else {
      assert (s + t)[..|s + t| - 1] == s + t[..|t| - 1];
      SumOfAppend(s, t[..|t| - 1], f);
    }
  }

  /** The rule table shared by the backtest and the live engine: volatility regime to strategy. */
  datatype StrategyName = Straddle | Strangle | IronCondor | Butterfly {
    function Name(): string {
      match this
      case Straddle => "straddle"
      case Strangle => "strangle"
      case IronCondor => "iron_condor"
      case Butterfly => "butterfly"
    }
  }

  function VolatilityRegime(volatility: real): (s: StrategyName)
    ensures s == Straddle <==> volatility > 0.3
    ensures s == Strangle <==> 0.25 < volatility <= 0.3
    ensures s == IronCondor <==> volatility < 0.2
    ensures s == Butterfly <==> 0.2 <= volatility <= 0.25
  {
    if volatility > 0.3 then Straddle
    else if volatility > 0.25 then Strangle
    else if volatility < 0.2 then IronCondor
    else Butterfly
  }
}
