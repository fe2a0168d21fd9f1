/** `ZScoreCalculator.calculate_zscore` of `lib/prediction/zscore.py`: the
    three lookups inside one try block, so the result is all or nothing. */
module ZScore {
  import opened Wrappers
  import opened GrowthOracle

  /** `ZscoreResults`. */
  datatype ZscoreResults = ZscoreResults(calculated: bool, bbu: Option<real>, tbu: Option<real>, bbtb: Option<real>)

  /** `calculate_zscore`. A failing lookup ends the try block before the
      later lookups run, and the handler returns the empty result; nothing
      escapes to the caller. */
  function CalculateZscore(growth: Calculator, ageMonths: int, weightKg: real, heightCm: real, sex: string): (r: ZscoreResults)
    ensures var l := LookupsFor(growth, ageMonths, weightKg, heightCm, sex);
      r.calculated <==> AllOk(l)
    ensures var l := LookupsFor(growth, ageMonths, weightKg, heightCm, sex);
      r.calculated ==> r.bbu == Some(l.wfa.z) && r.tbu == Some(l.lhfa.z) && r.bbtb == Some(l.wfh.z)
    ensures !r.calculated ==> r.bbu.None? && r.tbu.None? && r.bbtb.None?
  {
    match growth.wfa(weightKg, ageMonths, sex)
    case ZFail(_) => ZscoreResults(false, None, None, None)
    case ZOk(zWfa) =>
      match growth.lhfa(heightCm, ageMonths, sex)
      case ZFail(_) => ZscoreResults(false, None, None, None)
      case ZOk(zHfa) =>
        match growth.wfh(weightKg, ageMonths, sex, heightCm)
        case ZFail(_) => ZscoreResults(false, None, None, None)
        case ZOk(zWfh) => ZscoreResults(true, Some(zWfa), Some(zHfa), Some(zWfh))
  }

  /** No partial result is ever kept: the three fields are all set or all
      empty, together with `calculated`. */
  lemma NoPartialResult(growth: Calculator, ageMonths: int, weightKg: real, heightCm: real, sex: string)
    ensures var r := CalculateZscore(growth, ageMonths, weightKg, heightCm, sex);
      (r.bbu.Some? <==> r.calculated) && (r.tbu.Some? <==> r.calculated) && (r.bbtb.Some? <==> r.calculated)
  {
  }

  /** The calculator does not canonicalise the sex code: "L" is not turned
      into "M" on the way, so a table that rejects "L" but knows "M" makes
      the two codes give different results. */
  lemma SexNotCanonicalised(growth: Calculator, ageMonths: int, weightKg: real, heightCm: real)
    requires growth.wfa(weightKg, ageMonths, "L").ZFail?
    requires AllOk(LookupsFor(growth, ageMonths, weightKg, heightCm, "M"))
    ensures !CalculateZscore(growth, ageMonths, weightKg, heightCm, "L").calculated
    ensures CalculateZscore(growth, ageMonths, weightKg, heightCm, "M").calculated
  {
  }

  /** Such a table exists: one that only knows the codes "M" and "F". */
  lemma SexNotCanonicalisedWitness()
    ensures var growth := Calculator(
        (w: real, a: int, s: string) => if s == "M" || s == "F" then ZOk(0.0) else ZFail("sex"),
        (h: real, a: int, s: string) => if s == "M" || s == "F" then ZOk(0.0) else ZFail("sex"),
        (w: real, a: int, s: string, h: real) => if s == "M" || s == "F" then ZOk(0.0) else ZFail("sex"));
      CalculateZscore(growth, 24, 12.0, 85.0, "L") != CalculateZscore(growth, 24, 12.0, 85.0, "M")
  {
    var growth := Calculator(
        (w: real, a: int, s: string) => if s == "M" || s == "F" then ZOk(0.0) else ZFail("sex"),
        (h: real, a: int, s: string) => if s == "M" || s == "F" then ZOk(0.0) else ZFail("sex"),
        (w: real, a: int, s: string, h: real) => if s == "M" || s == "F" then ZOk(0.0) else ZFail("sex"));
    SexNotCanonicalised(growth, 24, 12.0, 85.0);
  }
}
