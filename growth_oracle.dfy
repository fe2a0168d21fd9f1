/** The pygrowup `Calculator` seen from the core: three z-score lookups
    against the WHO growth tables. The lookups are foreign code doing
    floating-point table arithmetic, so they are abstract here; each either
    returns a z-score or raises. */
module GrowthOracle {

  /** The outcome of one lookup: a z-score, or the exception it raised. */
  datatype Lookup = ZOk(z: real) | ZFail(reason: string)

  /** The three lookups of one `Calculator` instance:
      `wfa(measurement, age_in_months, sex)`,
      `lhfa(measurement, age_in_months, sex)` and
      `wfh(measurement, age_in_months, sex, height)`. */
  datatype Calculator = Calculator(
    wfa: (real, int, string) -> Lookup,
    lhfa: (real, int, string) -> Lookup,
    wfh: (real, int, string, real) -> Lookup)

  /** The three lookups the core makes for one child, in the order made. */
  datatype Lookups = Lookups(wfa: Lookup, lhfa: Lookup, wfh: Lookup)

  /** Weight-for-age gets the weight, height-for-age the height, and
      weight-for-height the weight with `height = height_cm`; the sex code is
      passed to each as given. */
  function LookupsFor(growth: Calculator, ageMonths: int, weightKg: real, heightCm: real, sex: string): (l: Lookups)
    ensures l.wfa == growth.wfa(weightKg, ageMonths, sex)
    ensures l.lhfa == growth.lhfa(heightCm, ageMonths, sex)
    ensures l.wfh == growth.wfh(weightKg, ageMonths, sex, heightCm)
  {
    Lookups(growth.wfa(weightKg, ageMonths, sex), growth.lhfa(heightCm, ageMonths, sex),
            growth.wfh(weightKg, ageMonths, sex, heightCm))
  }

  predicate AllOk(l: Lookups) {
    l.wfa.ZOk? && l.lhfa.ZOk? && l.wfh.ZOk?
  }
}
