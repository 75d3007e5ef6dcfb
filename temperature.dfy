/** Temperature scale conversion and display formatting (axe/util.py,
    classes Convert and Format). All arithmetic is over `real`, so the
    linear formulas hold exactly; floating-point rounding is not modelled. */
module Temperature {

  /** The four scales computed together from one Celsius value. */
  datatype Scales = Scales(celsius: real, fahrenheit: real, rankine: real, kelvin: real)

  /** One displayed value with its unit symbol. */
  datatype Tagged = Tagged(value: real, symbol: string)

  /** The formatted form of `Scales`: each value tagged with its symbol. */
  datatype Formatted = Formatted(celsius: Tagged, fahrenheit: Tagged, rankine: Tagged, kelvin: Tagged)

  const FahrenheitOffset: real := 32.0
  const RankineOffset: real := 459.67
  const KelvinOffset: real := 273.15

  const CelsiusSymbol: string := "°C"
  const FahrenheitSymbol: string := "°F"
  const RankineSymbol: string := "°R"
  const KelvinSymbol: string := "K"

  /** Convert.temperature: a Celsius reading expressed in all four scales.
      Rankine is built on top of Fahrenheit and Kelvin on top of Celsius, so
      the two absolute scales agree: Rankine is Kelvin scaled by 9/5. */
  function Convert(celsius: real): (t: Scales)
    ensures t.celsius == celsius
    ensures t.fahrenheit == 9.0 / 5.0 * celsius + FahrenheitOffset
    ensures t.rankine == t.fahrenheit + RankineOffset
    ensures t.kelvin == celsius + KelvinOffset
    ensures t.rankine == t.kelvin * 9.0 / 5.0
  {
    var fahrenheit := ((9.0 / 5.0) * celsius) + FahrenheitOffset;
    var rankine := fahrenheit + RankineOffset;
    var kelvin := celsius + KelvinOffset;
    Scales(celsius, fahrenheit, rankine, kelvin)
  }

  /** The inverse of the Kelvin conversion. */
  function CelsiusFromKelvin(kelvin: real): (celsius: real)
    ensures Convert(celsius).kelvin == kelvin
  {
    kelvin - KelvinOffset
  }

  /** The inverse of the Fahrenheit conversion. */
  function CelsiusFromFahrenheit(fahrenheit: real): (celsius: real)
    ensures Convert(celsius).fahrenheit == fahrenheit
  {
    (fahrenheit - FahrenheitOffset) * 5.0 / 9.0
  }

  /** The Celsius input is recovered from both the Kelvin and the
      Fahrenheit value of its conversion. */
  lemma ConvertRoundTrip(celsius: real)
    ensures CelsiusFromKelvin(Convert(celsius).kelvin) == celsius
    ensures CelsiusFromFahrenheit(Convert(celsius).fahrenheit) == celsius
  {
  }

  /** Every scale is strictly increasing in the Celsius input. */
  lemma ConvertStrictlyIncreasing(c1: real, c2: real)
    requires c1 < c2
    ensures Convert(c1).celsius < Convert(c2).celsius
    ensures Convert(c1).fahrenheit < Convert(c2).fahrenheit
    ensures Convert(c1).rankine < Convert(c2).rankine
    ensures Convert(c1).kelvin < Convert(c2).kelvin
  {
  }

  /** Format.temperatures: tag each of the four values with its fixed
      symbol; the values themselves are carried over unchanged. */
  function Format(t: Scales): (f: Formatted)
    ensures Values(f) == t
    ensures Symbols(f) == [CelsiusSymbol, FahrenheitSymbol, RankineSymbol, KelvinSymbol]
  {
    Formatted(
      Tagged(t.celsius, CelsiusSymbol),
      Tagged(t.fahrenheit, FahrenheitSymbol),
      Tagged(t.rankine, RankineSymbol),
      Tagged(t.kelvin, KelvinSymbol))
  }

  /** The numeric values of a formatted temperature, without symbols. */
  function Values(f: Formatted): Scales
  {
    Scales(f.celsius.value, f.fahrenheit.value, f.rankine.value, f.kelvin.value)
  }

  /** The symbols of a formatted temperature, in the order
      Celsius, Fahrenheit, Rankine, Kelvin. */
  function Symbols(f: Formatted): seq<string>
  {
    [f.celsius.symbol, f.fahrenheit.symbol, f.rankine.symbol, f.kelvin.symbol]
  }
}
