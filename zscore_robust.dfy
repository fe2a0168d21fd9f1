/** `test/zscore_replace.py`: the batch z-score script's case-sensitive age
    parser, its range validator, and `calculate_zscore_robust`, which runs
    the three lookups separately and reports partial success. */
module ZScoreRobust {
  import opened Wrappers
  import opened PyStr
  import opened DigitSearch
  import opened GrowthOracle
  import AgeParser

  // ---------------------------------------------------------------------------
  // parse_usia_to_months

  /** `(\d+) Tahun` and `(\d+) Bulan`: one literal space, capitalised
      keyword, no lower-casing of the text. */
  const TahunCap := Pattern(false, " Tahun")
  const BulanCap := Pattern(false, " Bulan")

  function Max(a: int, b: int): int {
    if a >= b then a else b
  }

  /** `parse_usia_to_months`. `None` is a missing (NaN) cell, which maps to
      NaN, also `None` here. The days are read by the script but not used. */
  function ParseUsiaToMonths(usia: Option<string>): (m: Option<int>)
    ensures usia.None? <==> m.None?
    ensures m.Some? ==> m.value >= 1
    ensures m.Some? ==>
      var t := SearchValue(usia.value, TahunCap);
      var b := SearchValue(usia.value, BulanCap);
      m.value == Max(1, AgeParser.UsiaBulan(t, b))
      && (AgeParser.UsiaBulan(t, b) >= 1 ==> m.value == AgeParser.UsiaBulan(t, b))
  {
    match usia
    case None => None
    case Some(s) =>
      var tahun := SearchValue(s, TahunCap);
      var bulan := SearchValue(s, BulanCap);
      Some(Max(1, tahun * 12 + bulan))
  }

  /** Capitalised keywords are read. */
  lemma ParseUsiaCapitalised()
    ensures ParseUsiaToMonths(Some("2 Tahun")) == Some(24)
  {
    var s := "2 Tahun";
    assert DigitRunEnd(s, 0) == 1;
    assert s[1..][..6] == " Tahun";
    assert MatchAt(s, TahunCap, 0);
    assert s[0..1] == "2";
    FirstMatchSkipsNonDigits(s, BulanCap, 1, |s|);
  }

  /** Lower-case keywords are not: "2 tahun" finds no year and is floored to
      one month. */
  lemma ParseUsiaIsCaseSensitive()
    ensures ParseUsiaToMonths(Some("2 tahun")) == Some(1)
  {
    var s := "2 tahun";
    assert s[0] == '2' && s[1] == ' ' && s[2] == 't';
    assert DigitRunEnd(s, 1) == 1;
    assert DigitRunEnd(s, 0) == 1;
    assert KeywordStart(s, TahunCap, 0) == 1 && KeywordStart(s, BulanCap, 0) == 1;
    var rest := s[1..];
    assert rest[1] == 't' && " Tahun"[1] == 'T' && " Bulan"[1] == 'B';
    assert rest[..6][1] == 't';
    assert !StartsWith(rest, " Tahun") && !StartsWith(rest, " Bulan");
    assert !MatchAt(s, TahunCap, 0) && !MatchAt(s, BulanCap, 0);
    assert forall k :: 1 <= k < |s| ==> !IsDigit(s[k]);
    FirstMatchSkipsNonDigits(s, TahunCap, 1, |s|);
    FirstMatchSkipsNonDigits(s, BulanCap, 1, |s|);
    assert FirstMatch(s, TahunCap, 0) == None && FirstMatch(s, BulanCap, 0) == None;
  }

  // ---------------------------------------------------------------------------
  // validate_input_data

  /** The lookup an error belongs to. */
  datatype Indicator = BBU | TBU | BBTB {
    function Name(): string {
      match this
      case BBU => "BB/U"
      case TBU => "TB/U"
      case BBTB => "BB/TB"
    }
  }

  /** One entry of the `errors` list. `None` stands for NaN. */
  datatype Problem =
    | AgeInvalid(age: Option<int>)
    | WeightInvalid(weight: Option<real>)
    | HeightInvalid(height: Option<real>)
    | SexInvalid(sex: string)
    | LookupFailed(indicator: Indicator, reason: string)
    | Unexpected(reason: string)
  {
    /** The order in which the script can append entries. */
    function Rank(): nat {
      match this
      case AgeInvalid(_) => 0
      case WeightInvalid(_) => 1
      case HeightInvalid(_) => 2
      case SexInvalid(_) => 3
      case LookupFailed(i, _) => if i == BBU then 4 else if i == TBU then 5 else 6
      case Unexpected(_) => 7
    }

    /** The text appended to `errors`. NaN prints as `nan`; `showFloat` is
        Python's `str` of a float, which is not modelled. */
    function Message(showFloat: real -> string): (m: string)
      ensures |m| >= 10 && KindOf(m) == Rank()
    {
      match this
      case AgeInvalid(a) => "Usia tidak valid: " + (if a.Some? then IntToDecimal(a.value) else "nan") + " bulan"
      case WeightInvalid(w) => "Berat badan tidak valid: " + (if w.Some? then showFloat(w.value) else "nan") + " kg"
      case HeightInvalid(h) => "Tinggi badan tidak valid: " + (if h.Some? then showFloat(h.value) else "nan") + " cm"
      case SexInvalid(x) => "Jenis kelamin tidak valid: " + x
      case LookupFailed(i, reason) => LookupMessage(i, reason)
      case Unexpected(reason) => "Unexpected error: " + reason
    }
  }

  /** Reads the kind of an entry back from the first characters of its text,
      as a `Rank`. */
  function KindOf(m: string): nat
    requires |m| >= 10
  {
    if m[0] == 'U' then (if m[1] == 's' then 0 else 7)
    else if m[0] == 'B' then 1
    else if m[0] == 'T' then 2
    else if m[0] == 'J' then 3
    else if m[6] == 'T' then 5
    else if m[9] == 'U' then 4
    else 6
  }

  /** Entries of different kinds never share a text, whatever their payload. */
  lemma MessagesTellKindsApart(p: Problem, q: Problem, f: real -> string, g: real -> string)
    requires p.Rank() != q.Rank()
    ensures p.Message(f) != q.Message(g)
  {
  }

  /** The error text of a failed lookup, `"Error BB/U: " + str(e)`. */
  function LookupMessage(i: Indicator, reason: string): (m: string)
    ensures StartsWith(m, "Error ") && |reason| <= |m| && m[|m| - |reason|..] == reason
  {
    "Error " + i.Name() + ": " + reason
  }

  predicate AgeOk(age: Option<int>) {
    age.Some? && 1 <= age.value <= 60
  }

  predicate WeightOk(weight: Option<real>) {
    weight.Some? && 0.0 < weight.value <= 50.0
  }

  predicate HeightOk(height: Option<real>) {
    height.Some? && 45.0 <= height.value <= 130.0
  }

  predicate SexOk(sex: string) {
    sex == "L" || sex == "P" || sex == "M" || sex == "F"
  }

  /** The ranges within which the script computes z-scores. */
  predicate InputValid(age: Option<int>, weight: Option<real>, height: Option<real>, sex: string) {
    AgeOk(age) && WeightOk(weight) && HeightOk(height) && SexOk(sex)
  }

  /** Entries appear in the order the script appends them, at most one per
      check. */
  predicate Ordered(errs: seq<Problem>) {
    forall i, j :: 0 <= i < j < |errs| ==> errs[i].Rank() < errs[j].Rank()
  }

  /** `e` is the entry of a check that fails on this input, naming the
      offending value. */
  predicate Justified(e: Problem, age: Option<int>, weight: Option<real>, height: Option<real>, sex: string) {
    match e
    case AgeInvalid(a) => a == age && !AgeOk(age)
    case WeightInvalid(w) => w == weight && !WeightOk(weight)
    case HeightInvalid(h) => h == height && !HeightOk(height)
    case SexInvalid(x) => x == sex && !SexOk(sex)
    case _ => false
  }

  /** `errs` reports the first `k` checks: only justified entries of those
      checks, in order, and one for each of them that fails. */
  predicate ReportsUpTo(errs: seq<Problem>, k: nat, age: Option<int>, weight: Option<real>, height: Option<real>, sex: string) {
    Ordered(errs)
    && (forall i :: 0 <= i < |errs| ==> errs[i].Rank() < k && Justified(errs[i], age, weight, height, sex))
    && (k > 0 && !AgeOk(age) ==> AgeInvalid(age) in errs)
    && (k > 1 && !WeightOk(weight) ==> WeightInvalid(weight) in errs)
    && (k > 2 && !HeightOk(height) ==> HeightInvalid(height) in errs)
    && (k > 3 && !SexOk(sex) ==> SexInvalid(sex) in errs)
  }

  /** `errs` is a validation report for the input: one entry for each
      failing check, naming the offending value, in check order, and nothing
      else. */
  predicate Reports(errs: seq<Problem>, age: Option<int>, weight: Option<real>, height: Option<real>, sex: string) {
    ReportsUpTo(errs, 4, age, weight, height, sex)
  }

  /** The entry check `k` appends: nothing when it passes. */
  function CheckEntry(k: nat, age: Option<int>, weight: Option<real>, height: Option<real>, sex: string): (e: seq<Problem>)
    requires k < 4
    ensures |e| <= 1
    ensures forall i :: 0 <= i < |e| ==> e[i].Rank() == k && Justified(e[i], age, weight, height, sex)
  {
    if k == 0 then (if AgeOk(age) then [] else [AgeInvalid(age)])
    else if k == 1 then (if WeightOk(weight) then [] else [WeightInvalid(weight)])
    else if k == 2 then (if HeightOk(height) then [] else [HeightInvalid(height)])
    else (if SexOk(sex) then [] else [SexInvalid(sex)])
  }

  /** Running check `k` after the first `k` extends the report by one check. */
  lemma ExtendReport(errs: seq<Problem>, k: nat, age: Option<int>, weight: Option<real>, height: Option<real>, sex: string)
    requires k < 4 && ReportsUpTo(errs, k, age, weight, height, sex)
    ensures ReportsUpTo(errs + CheckEntry(k, age, weight, height, sex), k + 1, age, weight, height, sex)
  {
    var e := CheckEntry(k, age, weight, height, sex);
    var r := errs + e;
    forall i, j | 0 <= i < j < |r|
      ensures r[i].Rank() < r[j].Rank()
    {
      if j >= |errs| {
        assert r[j] == e[j - |errs|];
      }
    }
    forall i | 0 <= i < |r|
      ensures r[i].Rank() < k + 1 && Justified(r[i], age, weight, height, sex)
    {
      if i >= |errs| {
        assert r[i] == e[i - |errs|];
      }
    }
    assert forall x :: x in errs ==> x in r;
    assert forall x :: x in e ==> x in r;
  }

  /** Every entry of a report belongs to a failing check, so the report is
      empty exactly when the input is valid. */
  lemma ReportEmptyIffValid(errs: seq<Problem>, age: Option<int>, weight: Option<real>, height: Option<real>, sex: string)
    requires Reports(errs, age, weight, height, sex)
    ensures errs == [] <==> InputValid(age, weight, height, sex)
    ensures forall e :: e in errs ==>
      e == AgeInvalid(age) || e == WeightInvalid(weight) || e == HeightInvalid(height) || e == SexInvalid(sex)
  {
    if errs != [] {
      assert Justified(errs[0], age, weight, height, sex);
    }
  }

  /** `validate_input_data`. */
  method ValidateInputData(age: Option<int>, weight: Option<real>, height: Option<real>, sex: string)
      returns (errors: seq<Problem>)
    ensures Reports(errors, age, weight, height, sex)
    ensures errors == [] <==> InputValid(age, weight, height, sex)
  {
    errors := [];
    ExtendReport(errors, 0, age, weight, height, sex);
    if !AgeOk(age) {
      errors := errors + [AgeInvalid(age)];
    }
    assert ReportsUpTo(errors, 1, age, weight, height, sex);
    ExtendReport(errors, 1, age, weight, height, sex);
    if !WeightOk(weight) {
      errors := errors + [WeightInvalid(weight)];
    } else {
      assert errors + CheckEntry(1, age, weight, height, sex) == errors;
    }
    assert ReportsUpTo(errors, 2, age, weight, height, sex);
    ExtendReport(errors, 2, age, weight, height, sex);
    if !HeightOk(height) {
      errors := errors + [HeightInvalid(height)];
    } else {
      assert errors + CheckEntry(2, age, weight, height, sex) == errors;
    }
    assert ReportsUpTo(errors, 3, age, weight, height, sex);
    ExtendReport(errors, 3, age, weight, height, sex);
    if !SexOk(sex) {
      errors := errors + [SexInvalid(sex)];
    } else {
      assert errors + CheckEntry(3, age, weight, height, sex) == errors;
    }
    assert Reports(errors, age, weight, height, sex);
    ReportEmptyIffValid(errors, age, weight, height, sex);
  }

  /** The head of an ordered list has the least rank, and is the only
      entry with that rank. */
  lemma FirstIsLeast(a: seq<Problem>, e: Problem)
    requires Ordered(a) && e in a
    ensures a[0].Rank() <= e.Rank()
    ensures e.Rank() == a[0].Rank() ==> e == a[0]
  {
    var i :| 0 <= i < |a| && a[i] == e;
    if i > 0 {
      assert a[0].Rank() < a[i].Rank();
    }
  }

  /** The tail of an ordered list holds every entry but the head. */
  lemma TailMembers(a: seq<Problem>, e: Problem)
    requires Ordered(a) && a != []
    ensures Ordered(a[1..])
    ensures e in a[1..] <==> e in a && e != a[0]
  {
    if e in a[1..] {
      var i :| 0 <= i < |a| - 1 && a[1..][i] == e;
      assert a[i + 1] == e;
      assert a[0].Rank() < a[i + 1].Rank();
    }
    if e in a && e != a[0] {
      var i :| 0 <= i < |a| && a[i] == e;
      assert a[1..][i - 1] == e;
    }
    forall i, j | 0 <= i < j < |a| - 1
      ensures a[1..][i].Rank() < a[1..][j].Rank()
    {
      assert a[1..][i] == a[i + 1] && a[1..][j] == a[j + 1];
    }
  }

  /** Two ordered lists with the same entries are the same list. */
  lemma {:induction false} OrderedUnique(a: seq<Problem>, b: seq<Problem>)
    requires Ordered(a) && Ordered(b)
    requires forall e :: e in a <==> e in b
    ensures a == b
    decreases |a|
  {
    if a != [] && b != [] {
      assert a[0] in a && b[0] in b;
      FirstIsLeast(a, b[0]);
      FirstIsLeast(b, a[0]);
      assert a[0] == b[0];
      forall e
        ensures e in a[1..] <==> e in b[1..]
      {
        TailMembers(a, e);
        TailMembers(b, e);
      }
      TailMembers(a, a[0]);
      TailMembers(b, b[0]);
      OrderedUnique(a[1..], b[1..]);
      assert a == [a[0]] + a[1..] && b == [b[0]] + b[1..];
    } else {
      HeadIsMember(a);
      HeadIsMember(b);
    }
  }

  lemma HeadIsMember(a: seq<Problem>)
    ensures a != [] ==> a[0] in a
  {
  }

  /** A report is determined by the input, so every caller that checks
      `Reports` has the exact list the validator returns. */
  lemma ReportsUnique(e1: seq<Problem>, e2: seq<Problem>, age: Option<int>, weight: Option<real>, height: Option<real>, sex: string)
    requires Reports(e1, age, weight, height, sex) && Reports(e2, age, weight, height, sex)
    ensures e1 == e2
  {
    OrderedUnique(e1, e2);
  }

  // ---------------------------------------------------------------------------
  // calculate_zscore_robust

  /** The pygrowup sex code: "M" when the upper-cased code is L or M,
      "F" for everything else. */
  function PygrowupSex(sex: string): (code: string)
    ensures code == "M" <==> Upper(sex) == "L" || Upper(sex) == "M"
    ensures code == "M" || code == "F"
  {
    var u := Upper(sex);
    if u == "L" || u == "M" then "M" else "F"
  }

  /** On the codes the validator lets through: L and M are male, P and F
      female. */
  lemma PygrowupSexOfValidCodes()
    ensures PygrowupSex("L") == "M" && PygrowupSex("M") == "M"
    ensures PygrowupSex("P") == "F" && PygrowupSex("F") == "F"
  {
    assert Upper("P") == "P";
    assert Upper("F") == "F";
  }

  /** `result["status"]`. */
  datatype Status = Initial | ValidationFailed | Succeeded | PartialSuccess | Failed | FatalError {
    function Name(): string {
      match this
      case Initial => "error"
      case ValidationFailed => "validation_failed"
      case Succeeded => "success"
      case PartialSuccess => "partial_success"
      case Failed => "failed"
      case FatalError => "fatal_error"
    }
  }

  /** The `result` dict. */
  datatype RobustResult = RobustResult(bbu: Option<real>, tbu: Option<real>, bbtb: Option<real>,
                                       status: Status, errors: seq<Problem>)

  /** A z-field holds the lookup's value exactly when the lookup succeeded. */
  predicate FieldFrom(field: Option<real>, l: Lookup) {
    (field.Some? <==> l.ZOk?) && (field.Some? ==> field.value == l.z)
  }

  /** `errs` holds one `LookupFailed` per failed lookup, carrying the
      exception text, in the order BB/U, TB/U, BB/TB, and nothing else. */
  predicate LookupReport(errs: seq<Problem>, l: Lookups) {
    Ordered(errs)
    && (forall e :: e in errs ==> e.LookupFailed?)
    && (l.wfa.ZFail? ==> LookupFailed(BBU, l.wfa.reason) in errs)
    && (l.lhfa.ZFail? ==> LookupFailed(TBU, l.lhfa.reason) in errs)
    && (l.wfh.ZFail? ==> LookupFailed(BBTB, l.wfh.reason) in errs)
    && (forall e :: e in errs ==>
          (e.indicator == BBU && l.wfa.ZFail? && e.reason == l.wfa.reason)
          || (e.indicator == TBU && l.lhfa.ZFail? && e.reason == l.lhfa.reason)
          || (e.indicator == BBTB && l.wfh.ZFail? && e.reason == l.wfh.reason))
  }

  /** `calculate_zscore_robust`. `instance` is `calc_instance`; `constructed` is
      the outcome of constructing a default `Calculator` when none is given,
      the only step that can raise outside the three guarded lookups. The
      `round(..., 2)` of each z-score is not modelled. */
  method CalculateZscoreRobust(age: Option<int>, weight: Option<real>, height: Option<real>, sex: string,
                               instance: Option<Calculator>, constructed: Result<Calculator, string>)
      returns (r: RobustResult)
    ensures !InputValid(age, weight, height, sex) ==>
      r.status == ValidationFailed && r.bbu.None? && r.tbu.None? && r.bbtb.None?
      && Reports(r.errors, age, weight, height, sex)
    ensures InputValid(age, weight, height, sex) && instance.None? && constructed.Failure? ==>
      r.status == FatalError && r.bbu.None? && r.tbu.None? && r.bbtb.None?
      && r.errors == [Unexpected(constructed.error)]
    ensures InputValid(age, weight, height, sex) && (instance.Some? || constructed.Success?) ==>
      var growth := if instance.Some? then instance.value else constructed.value;
      var l := LookupsFor(growth, age.value, weight.value, height.value, PygrowupSex(sex));
      FieldFrom(r.bbu, l.wfa) && FieldFrom(r.tbu, l.lhfa) && FieldFrom(r.bbtb, l.wfh)
      && LookupReport(r.errors, l)
    ensures r.status == Succeeded <==> r.bbu.Some? && r.tbu.Some? && r.bbtb.Some?
    ensures r.status == PartialSuccess <==>
      (r.bbu.Some? || r.tbu.Some? || r.bbtb.Some?) && !(r.bbu.Some? && r.tbu.Some? && r.bbtb.Some?)
    ensures r.status == Failed <==>
      InputValid(age, weight, height, sex) && (instance.Some? || constructed.Success?)
      && r.bbu.None? && r.tbu.None? && r.bbtb.None?
    ensures r.status != Initial
  {
    r := RobustResult(None, None, None, Initial, []);
    var validationErrors := ValidateInputData(age, weight, height, sex);
    if validationErrors != [] {
      r := r.(errors := validationErrors, status := ValidationFailed);
      return;
    }
    var sexCode := PygrowupSex(sex);
    var growth: Calculator;
    if instance.Some? {
      growth := instance.value;
    } else if constructed.Success? {
      growth := constructed.value;
    } else {
      r := r.(errors := r.errors + [Unexpected(constructed.error)], status := FatalError);
      return;
    }
    r := RunLookups(growth, age.value, weight.value, height.value, sexCode);
  }

  /** The entry a guarded lookup appends: nothing when it succeeds. */
  function LookupEntry(i: Indicator, l: Lookup): (e: seq<Problem>)
    ensures e == [] <==> l.ZOk?
    ensures l.ZFail? ==> e == [LookupFailed(i, l.reason)]
  {
    if l.ZFail? then [LookupFailed(i, l.reason)] else []
  }

  /** The errors of the three guarded lookups, in the order they run. */
  function LookupErrors(l: Lookups): (e: seq<Problem>)
    ensures LookupReport(e, l)
  {
    var e1, e2, e3 := LookupEntry(BBU, l.wfa), LookupEntry(TBU, l.lhfa), LookupEntry(BBTB, l.wfh);
    var e := e1 + e2 + e3;
    assert forall x :: x in e <==> x in e1 || x in e2 || x in e3;
    LookupErrorsOrdered(l);
    e
  }

  /** Appending an entry ranked above every entry keeps a list ordered. */
  lemma OrderedSnoc(s: seq<Problem>, x: Problem)
    requires Ordered(s) && forall y :: y in s ==> y.Rank() < x.Rank()
    ensures Ordered(s + [x])
  {
    var r := s + [x];
    forall i, j | 0 <= i < j < |r|
      ensures r[i].Rank() < r[j].Rank()
    {
      assert r[i] == s[i] || i == |s|;
      if j == |s| {
        assert r[i] in s;
      }
    }
  }

  /** The three guarded lookups append their errors in rank order. */
  lemma LookupErrorsOrdered(l: Lookups)
    ensures Ordered(LookupEntry(BBU, l.wfa) + LookupEntry(TBU, l.lhfa) + LookupEntry(BBTB, l.wfh))
  {
    var e1 := LookupEntry(BBU, l.wfa);
    var e2 := e1 + LookupEntry(TBU, l.lhfa);
    assert forall y :: y in e1 ==> y.Rank() == 4;
    if l.lhfa.ZFail? {
      OrderedSnoc(e1, LookupFailed(TBU, l.lhfa.reason));
    } else {
      assert e2 == e1;
    }
    assert forall y :: y in e2 ==> y.Rank() <= 5;
    if l.wfh.ZFail? {
      OrderedSnoc(e2, LookupFailed(BBTB, l.wfh.reason));
    } else {
      assert e2 + LookupEntry(BBTB, l.wfh) == e2;
    }
  }

  /** The three guarded lookups of `calculate_zscore_robust` on an empty
      result, and the status their outcomes give. */
  method RunLookups(growth: Calculator, ageMonths: int, weightKg: real, heightCm: real, sexCode: string)
      returns (r: RobustResult)
    ensures var l := LookupsFor(growth, ageMonths, weightKg, heightCm, sexCode);
      FieldFrom(r.bbu, l.wfa) && FieldFrom(r.tbu, l.lhfa) && FieldFrom(r.bbtb, l.wfh)
      && r.errors == LookupErrors(l)
    ensures r.status == Succeeded <==> r.bbu.Some? && r.tbu.Some? && r.bbtb.Some?
    ensures r.status == PartialSuccess <==>
      (r.bbu.Some? || r.tbu.Some? || r.bbtb.Some?) && !(r.bbu.Some? && r.tbu.Some? && r.bbtb.Some?)
    ensures r.status == Failed <==> r.bbu.None? && r.tbu.None? && r.bbtb.None?
  {
    ghost var l := LookupsFor(growth, ageMonths, weightKg, heightCm, sexCode);
    r := RobustResult(None, None, None, Initial, []);
    match growth.wfa(weightKg, ageMonths, sexCode) {
      case ZOk(z) => r := r.(bbu := Some(z));
      case ZFail(e) => r := r.(errors := r.errors + [LookupFailed(BBU, e)]);
    }
    assert r.errors == LookupEntry(BBU, l.wfa);
    ghost var e1 := r.errors;
    match growth.lhfa(heightCm, ageMonths, sexCode) {
      case ZOk(z) => r := r.(tbu := Some(z));
      case ZFail(e) => r := r.(errors := r.errors + [LookupFailed(TBU, e)]);
    }
    assert r.errors == e1 + LookupEntry(TBU, l.lhfa);
    ghost var e2 := r.errors;
    match growth.wfh(weightKg, ageMonths, sexCode, heightCm) {
      case ZOk(z) => r := r.(bbtb := Some(z));
      case ZFail(e) => r := r.(errors := r.errors + [LookupFailed(BBTB, e)]);
    }
    assert r.errors == e2 + LookupEntry(BBTB, l.wfh);
    if r.bbu.Some? && r.tbu.Some? && r.bbtb.Some? {
      r := r.(status := Succeeded);
    } else if r.bbu.Some? || r.tbu.Some? || r.bbtb.Some? {
      r := r.(status := PartialSuccess);
    } else {
      r := r.(status := Failed);
    }
  }

  /** Each failed lookup appends exactly one error. */
  lemma OneErrorPerFailedLookup(errs: seq<Problem>, l: Lookups)
    requires LookupReport(errs, l)
    ensures |errs| == (if l.wfa.ZFail? then 1 else 0) + (if l.lhfa.ZFail? then 1 else 0) + (if l.wfh.ZFail? then 1 else 0)
  {
    var expected := (if l.wfa.ZFail? then [LookupFailed(BBU, l.wfa.reason)] else [])
      + (if l.lhfa.ZFail? then [LookupFailed(TBU, l.lhfa.reason)] else [])
      + (if l.wfh.ZFail? then [LookupFailed(BBTB, l.wfh.reason)] else []);
    assert Ordered(expected);
    OrderedUnique(errs, expected);
  }
}
