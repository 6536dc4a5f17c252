/** Currency conversion and the FX component (src/lib/engine/modules/fx.ts).
    All conversion goes through USD: a rate is the number of units of EUR
    (or PKR) per USD. */
module Fx {
  import opened Types
  import opened Graph

  /** Rates that can be divided by; positive rates also keep signs. */
  predicate PositiveRates(r: Rates) {
    r.eur > 0.0 && r.pkr > 0.0
  }

  /** The rate a division by `c`'s rate needs to be non-zero. */
  predicate CanDivide(c: Currency, r: Rates) {
    (c == EUR ==> r.eur != 0.0) && (c == PKR ==> r.pkr != 0.0)
  }

  /** `convertToUSD`. */
  function ToUSD(amount: real, from: Currency, rates: Rates): real
    requires CanDivide(from, rates)
  {
    match from
    case USD => amount
    case EUR => amount / rates.eur
    case PKR => amount / rates.pkr
  }

  /** `convertFromUSD`. */
  function FromUSD(amount: real, to: Currency, rates: Rates): real {
    match to
    case USD => amount
    case EUR => amount * rates.eur
    case PKR => amount * rates.pkr
  }

  /** `convertCurrency`: the identity between equal currencies, else via USD. */
  function Convert(amount: real, from: Currency, to: Currency, rates: Rates): real
    requires from != to ==> CanDivide(from, rates)
  {
    if from == to then amount
    else FromUSD(ToUSD(amount, from, rates), to, rates)
  }

  lemma PositiveCanDivide(r: Rates, c: Currency)
    requires PositiveRates(r)
    ensures CanDivide(c, r)
  {
  }

  /** Converting to the same currency changes nothing. */
  lemma ConvertSameCurrency(x: real, c: Currency, r: Rates)
    ensures Convert(x, c, c, r) == x
  {
  }

  /** The six cross conversions: to USD divides by the source rate, from USD
      multiplies by the target rate, and EUR/PKR goes through USD. */
  lemma ConvertRoutes(x: real, r: Rates)
    requires PositiveRates(r)
    ensures Convert(x, EUR, USD, r) == x / r.eur && Convert(x, PKR, USD, r) == x / r.pkr
    ensures Convert(x, USD, EUR, r) == x * r.eur && Convert(x, USD, PKR, r) == x * r.pkr
    ensures Convert(x, EUR, PKR, r) == (x / r.eur) * r.pkr && Convert(x, PKR, EUR, r) == (x / r.pkr) * r.eur
  {
  }

  lemma DivMul(x: real, k: real)
    requires k > 0.0
    ensures (x / k) * k == x && (x * k) / k == x
  {
  }

  /** The rate of a non-USD currency (USD's own rate is 1). */
  function RateOf(c: Currency, r: Rates): real {
    match c
    case USD => 1.0
    case EUR => r.eur
    case PKR => r.pkr
  }

  lemma ConvertByRates(x: real, a: Currency, b: Currency, r: Rates)
    requires PositiveRates(r) && a != b
    ensures Convert(x, a, b, r) == (x / RateOf(a, r)) * RateOf(b, r)
  {
  }

  lemma RoundTripByRates(x: real, u: real, v: real)
    requires u > 0.0 && v > 0.0
    ensures (((x / u) * v) / v) * u == x
  {
    DivMul(x / u, v);
    DivMul(x, u);
  }

  /** With positive rates the round trip a -> b -> a returns the amount. */
  lemma ConvertRoundTrip(x: real, a: Currency, b: Currency, r: Rates)
    requires PositiveRates(r)
    ensures Convert(Convert(x, a, b, r), b, a, r) == x
  {
    if a != b {
      var y := Convert(x, a, b, r);
      ConvertByRates(x, a, b, r);
      ConvertByRates(y, b, a, r);
      RoundTripByRates(x, RateOf(a, r), RateOf(b, r));
    }
  }

  lemma ScaleByRates(k: real, x: real, u: real, v: real)
    requires u != 0.0
    ensures ((k * x) / u) * v == k * ((x / u) * v)
  {
  }

  lemma AddByRates(x: real, y: real, u: real, v: real)
    requires u != 0.0
    ensures ((x + y) / u) * v == (x / u) * v + (y / u) * v
  {
  }

  /** Conversion commutes with scaling the amount. */
  lemma ConvertScale(k: real, x: real, a: Currency, b: Currency, r: Rates)
    requires PositiveRates(r)
    ensures Convert(k * x, a, b, r) == k * Convert(x, a, b, r)
  {
    if a != b {
      ToUSDScale(k, x, a, r);
      FromUSDScale(k, ToUSD(x, a, r), b, r);
    }
  }

  lemma ToUSDScale(k: real, x: real, c: Currency, r: Rates)
    requires PositiveRates(r)
    ensures ToUSD(k * x, c, r) == k * ToUSD(x, c, r)
  {
    match c
    case USD =>
    case EUR => ScaleByRates(k, x, r.eur, 1.0);
    case PKR => ScaleByRates(k, x, r.pkr, 1.0);
  }

  lemma FromUSDScale(k: real, x: real, c: Currency, r: Rates)
    ensures FromUSD(k * x, c, r) == k * FromUSD(x, c, r)
  {
  }

  lemma ToUSDAdditive(x: real, y: real, c: Currency, r: Rates)
    requires PositiveRates(r)
    ensures ToUSD(x + y, c, r) == ToUSD(x, c, r) + ToUSD(y, c, r)
  {
    match c
    case USD =>
    case EUR => AddByRates(x, y, r.eur, 1.0);
    case PKR => AddByRates(x, y, r.pkr, 1.0);
  }

  lemma FromUSDAdditive(x: real, y: real, c: Currency, r: Rates)
    ensures FromUSD(x + y, c, r) == FromUSD(x, c, r) + FromUSD(y, c, r)
  {
  }

  /** Converting a sum is the sum of the conversions. */
  lemma ConvertAdditive(x: real, y: real, a: Currency, b: Currency, r: Rates)
    requires PositiveRates(r)
    ensures Convert(x + y, a, b, r) == Convert(x, a, b, r) + Convert(y, a, b, r)
  {
    if a != b {
      ToUSDAdditive(x, y, a, r);
      FromUSDAdditive(ToUSD(x, a, r), ToUSD(y, a, r), b, r);
    }
  }

  /** Positive rates keep the sign of the amount. */
  lemma ConvertSign(x: real, a: Currency, b: Currency, r: Rates)
    requires PositiveRates(r)
    ensures x >= 0.0 ==> Convert(x, a, b, r) >= 0.0
    ensures x > 0.0 ==> Convert(x, a, b, r) > 0.0
    ensures x <= 0.0 ==> Convert(x, a, b, r) <= 0.0
  {
  }

  /** `getDeterministicFXRates`: a bounded oscillation around the base rates,
      with the host's sine. */
  function DeterministicRates(day: int, base: Rates, volatility: real, m: HostMath): Rates {
    Rates(base.eur * (1.0 + volatility * m.sin(day as real * 0.017) * 0.1),
          base.pkr * (1.0 + volatility * m.sin(day as real * 0.023 + 1.5) * 0.1))
  }

  /** Without volatility the computed rates are the base rates exactly. */
  lemma ZeroVolatilityIsBase(day: int, base: Rates, m: HostMath)
    ensures DeterministicRates(day, base, 0.0, m) == base
  {
  }

  /** The factor `1 + volatility * sin * 0.1` stays positive while the
      volatility lies strictly between -10 and 10. */
  lemma FactorPositive(vol: real, s: real)
    requires -10.0 < vol < 10.0 && -1.0 <= s <= 1.0
    ensures 1.0 + vol * s * 0.1 > 0.0
  {
    if vol >= 0.0 && s >= 0.0 {
      assert vol * s >= 0.0;
    } else if vol >= 0.0 {
      assert vol * s >= vol * -1.0;
    } else if s >= 0.0 {
      assert vol * s >= vol * 1.0;
    } else {
      assert vol * s >= 0.0;
    }
  }

  lemma ProductPositive(a: real, b: real)
    requires a > 0.0 && b > 0.0
    ensures a * b > 0.0
  {
  }

  /** The oscillation moves each rate by at most ten percent per unit of
      volatility, so positive base rates and a volatility strictly between
      -10 and 10 give positive rates. */
  lemma DeterministicRatesPositive(day: int, base: Rates, volatility: real, m: HostMath)
    requires PositiveRates(base) && -10.0 < volatility < 10.0 && SoundMath(m)
    ensures PositiveRates(DeterministicRates(day, base, volatility, m))
  {
    var s1, s2 := m.sin(day as real * 0.017), m.sin(day as real * 0.023 + 1.5);
    var f1, f2 := 1.0 + volatility * s1 * 0.1, 1.0 + volatility * s2 * 0.1;
    FactorPositive(volatility, s1);
    FactorPositive(volatility, s2);
    ProductPositive(base.eur, f1);
    ProductPositive(base.pkr, f2);
  }

  /** The rates of a day: the override for that day if there is one, else the
      computed ones. */
  function RatesForDay(day: int, opts: RuntimeOptions, fx: FxConfig, m: HostMath): Rates {
    if day in opts.fxRatesByDay then opts.fxRatesByDay[day]
    else DeterministicRates(day, fx.baseRates, fx.volatility, m)
  }

  /** An override for the day wins; without one the computed path is used. */
  lemma OverrideWins(day: int, opts: RuntimeOptions, fx: FxConfig, m: HostMath)
    ensures day in opts.fxRatesByDay ==> RatesForDay(day, opts, fx, m) == opts.fxRatesByDay[day]
    ensures day !in opts.fxRatesByDay ==>
              RatesForDay(day, opts, fx, m) == DeterministicRates(day, fx.baseRates, fx.volatility, m)
  {
  }

  /** `FXNode`: picks the day's rates in `prepare` and publishes them in `apply`. */
  class FXNode {
    const options: RuntimeOptions
    var currentRates: Rates

    constructor(options: RuntimeOptions)
      ensures this.options == options && currentRates == Rates(1.0, 1.0)
    {
      this.options := options;
      currentRates := Rates(1.0, 1.0);
    }

    method Prepare(day: int, input: SimulationInput, m: HostMath)
      modifies this
      ensures currentRates == RatesForDay(day, options, input.fx, m)
    {
      if day in options.fxRatesByDay {
        currentRates := options.fxRatesByDay[day];
        return;
      }
      currentRates := DeterministicRates(day, input.fx.baseRates, input.fx.volatility, m);
    }

    /** Writes the chosen rates into the state and changes nothing else. */
    method Apply(st: DayState) returns (r: DayState)
      ensures r == st.(fxRates := currentRates)
    {
      r := st.(fxRates := currentRates);
    }
  }
}
