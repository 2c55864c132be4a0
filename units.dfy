/** The temperature conversions of the two handler variants, over exact reals. */
module Units {

  /** F = C * 1.8 + 32 (both handlers). */
  function Fahrenheit(celsius: real): (f: real)
    ensures (f - 32.0) / 1.8 == celsius
  {
    celsius * 1.8 + 32.0
  }

  /** K = C + 273, the offset of the orchestration handler. */
  function KelvinWhole(celsius: real): (k: real)
    ensures Fahrenheit(celsius) == (k - 273.0) * 1.8 + 32.0
  {
    celsius + 273.0
  }

  /** K = C + 273.15, the offset of the earlier handler. */
  function KelvinPrecise(celsius: real): (k: real)
    ensures Fahrenheit(celsius) == (k - 273.15) * 1.8 + 32.0
  {
    celsius + 273.15
  }

  /** The two Kelvin readings of one Celsius value are always 0.15 apart. */
  lemma KelvinOffsetsDiffer(celsius: real)
    ensures KelvinPrecise(celsius) - KelvinWhole(celsius) == 0.15
  {
  }
}
