/** `test/zscore_test.py`: the module-level `calculate_zscore` wrapper and the
    status interpretation of its three z-scores, lifted out of the script's
    if/elif chains into classifiers. */
module ZScoreInterpretation {
  import opened Wrappers
  import opened GrowthOracle
  import ZScore

  /** The wrapper's dict `{"bbu", "tbu", "bbtb"}`. */
  datatype ZTriple = ZTriple(bbu: Option<real>, tbu: Option<real>, bbtb: Option<real>)

  /** `calculate_zscore` of the script: the same three lookups as the
      calculator class, in one try block. */
  function CalculateZscore(growth: Calculator, ageMonths: int, weightKg: real, heightCm: real, sex: string): (r: ZTriple)
    ensures var l := LookupsFor(growth, ageMonths, weightKg, heightCm, sex);
      AllOk(l) ==> r == ZTriple(Some(l.wfa.z), Some(l.lhfa.z), Some(l.wfh.z))
    ensures var l := LookupsFor(growth, ageMonths, weightKg, heightCm, sex);
      !AllOk(l) ==> r == ZTriple(None, None, None)
  {
    match growth.wfa(weightKg, ageMonths, sex)
    case ZFail(_) => ZTriple(None, None, None)
    case ZOk(zWfa) =>
      match growth.lhfa(heightCm, ageMonths, sex)
      case ZFail(_) => ZTriple(None, None, None)
      case ZOk(zHfa) =>
        match growth.wfh(weightKg, ageMonths, sex, heightCm)
        case ZFail(_) => ZTriple(None, None, None)
        case ZOk(zWfh) => ZTriple(Some(zWfa), Some(zHfa), Some(zWfh))
  }

  /** The script's wrapper and `ZScoreCalculator.calculate_zscore` agree
      field by field, and `calculated` is exactly "the BB/U value is set". */
  lemma WrapperAgreesWithCalculator(growth: Calculator, ageMonths: int, weightKg: real, heightCm: real, sex: string)
    ensures var w := CalculateZscore(growth, ageMonths, weightKg, heightCm, sex);
      var c := ZScore.CalculateZscore(growth, ageMonths, weightKg, heightCm, sex);
      w.bbu == c.bbu && w.tbu == c.tbu && w.bbtb == c.bbtb && (c.calculated <==> w.bbu.Some?)
  {
  }

  // ---------------------------------------------------------------------------
  // Status bands

  /** BB/U (weight-for-age) status. */
  datatype BbuStatus = SangatKurang | Kurang | RisikoLebih | BbuNormal {
    function Label(): string {
      match this
      case SangatKurang => "Sangat Kurang (Severely Underweight)"
      case Kurang => "Kurang (Underweight)"
      case RisikoLebih => "Risiko Lebih (Risk of Overweight)"
      case BbuNormal => "Normal"
    }
    /** Position on the z-score axis, lowest band first. */
    function Rank(): nat {
      match this
      case SangatKurang => 0
      case Kurang => 1
      case BbuNormal => 2
      case RisikoLebih => 3
    }
  }

  /** TB/U (height-for-age) status; there is no band above normal. */
  datatype TbuStatus = SangatPendek | Pendek | TbuNormal {
    function Label(): string {
      match this
      case SangatPendek => "Sangat Pendek (Severely Stunted)"
      case Pendek => "Pendek (Stunted)"
      case TbuNormal => "Normal"
    }
    function Rank(): nat {
      match this
      case SangatPendek => 0
      case Pendek => 1
      case TbuNormal => 2
    }
  }

  /** BB/TB (weight-for-height) status. */
  datatype BbtbStatus = SangatKurus | Kurus | Gemuk | BbtbNormal {
    function Label(): string {
      match this
      case SangatKurus => "Sangat Kurus (Severely Wasted)"
      case Kurus => "Kurus (Wasted)"
      case Gemuk => "Gemuk (Obese)"
      case BbtbNormal => "Normal"
    }
    function Rank(): nat {
      match this
      case SangatKurus => 0
      case Kurus => 1
      case BbtbNormal => 2
      case Gemuk => 3
    }
  }

  /** The BB/U chain. Each band is an interval, and every z lies in exactly
      one of them: -2 and 2 are normal, -3 is underweight. */
  function ClassifyBbu(z: real): (s: BbuStatus)
    ensures s == SangatKurang <==> z < -3.0
    ensures s == Kurang <==> -3.0 <= z < -2.0
    ensures s == BbuNormal <==> -2.0 <= z <= 2.0
    ensures s == RisikoLebih <==> 2.0 < z
  {
    if z < -3.0 then SangatKurang
    else if z < -2.0 then Kurang
    else if z > 2.0 then RisikoLebih
    else BbuNormal
  }

  /** The TB/U chain: everything from -2 upwards is normal. */
  function ClassifyTbu(z: real): (s: TbuStatus)
    ensures s == SangatPendek <==> z < -3.0
    ensures s == Pendek <==> -3.0 <= z < -2.0
    ensures s == TbuNormal <==> -2.0 <= z
  {
    if z < -3.0 then SangatPendek
    else if z < -2.0 then Pendek
    else TbuNormal
  }

  /** The BB/TB chain. */
  function ClassifyBbtb(z: real): (s: BbtbStatus)
    ensures s == SangatKurus <==> z < -3.0
    ensures s == Kurus <==> -3.0 <= z < -2.0
    ensures s == BbtbNormal <==> -2.0 <= z <= 2.0
    ensures s == Gemuk <==> 2.0 < z
  {
    if z < -3.0 then SangatKurus
    else if z < -2.0 then Kurus
    else if z > 2.0 then Gemuk
    else BbtbNormal
  }

  /** The comparisons are strict: the thresholds themselves fall on the side
      named. */
  lemma Boundaries()
    ensures ClassifyBbu(-3.0) == Kurang && ClassifyBbu(-2.0) == BbuNormal && ClassifyBbu(2.0) == BbuNormal
    ensures ClassifyTbu(-3.0) == Pendek && ClassifyTbu(-2.0) == TbuNormal && ClassifyTbu(100.0) == TbuNormal
    ensures ClassifyBbtb(-3.0) == Kurus && ClassifyBbtb(-2.0) == BbtbNormal && ClassifyBbtb(2.0) == BbtbNormal
  {
  }

  /** A larger z-score never falls in a lower band. */
  lemma ClassifiersMonotone(z1: real, z2: real)
    requires z1 <= z2
    ensures ClassifyBbu(z1).Rank() <= ClassifyBbu(z2).Rank()
    ensures ClassifyTbu(z1).Rank() <= ClassifyTbu(z2).Rank()
    ensures ClassifyBbtb(z1).Rank() <= ClassifyBbtb(z2).Rank()
  {
  }

  /** Labels name their bands one to one within each indicator. */
  lemma LabelsDistinct(a: BbuStatus, b: BbuStatus, c: TbuStatus, d: TbuStatus, e: BbtbStatus, f: BbtbStatus)
    ensures a.Label() == b.Label() ==> a == b
    ensures c.Label() == d.Label() ==> c == d
    ensures e.Label() == f.Label() ==> e == f
  {
  }

  /** The three labels printed for one child. */
  datatype Interpretation = Interpretation(bbu: BbuStatus, tbu: TbuStatus, bbtb: BbtbStatus)

  /** The body of the script's loop: classify when the BB/U value is set.
      The wrapper's all-or-nothing result is what makes the TB/U and BB/TB
      comparisons safe there (comparing `None` with a number raises). */
  function Interpret(growth: Calculator, ageMonths: int, weightKg: real, heightCm: real, sex: string): (r: Option<Interpretation>)
    ensures var l := LookupsFor(growth, ageMonths, weightKg, heightCm, sex);
      r.Some? <==> AllOk(l)
    ensures var l := LookupsFor(growth, ageMonths, weightKg, heightCm, sex);
      r.Some? ==> r.value == Interpretation(ClassifyBbu(l.wfa.z), ClassifyTbu(l.lhfa.z), ClassifyBbtb(l.wfh.z))
  {
    var result := CalculateZscore(growth, ageMonths, weightKg, heightCm, sex);
    if result.bbu.Some? then
      Some(Interpretation(ClassifyBbu(result.bbu.value), ClassifyTbu(result.tbu.value), ClassifyBbtb(result.bbtb.value)))
    else None
  }
}
