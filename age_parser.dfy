/** Age arithmetic and parsing of `lib/prediction/parser.py`: the month and
    year conversions, the L/P sex code, the free-text "<n> tahun / bulan / hari"
    scanner and the day-count decomposition behind `parse_tanggal_lahir`. */
module AgeParser {
  import opened Wrappers
  import opened PyStr
  import opened DigitSearch

  /** `ParsingUsiaOutput`: an age as years (tahun), months (bulan), days (hari). */
  datatype AgeBreakdown = AgeBreakdown(tahun: int, bulan: int, hari: int)

  // ---------------------------------------------------------------------------
  // parser_usia_bulan and parser_usia_tahun

  /** `parser_usia_bulan`: the age in whole months. */
  function UsiaBulan(tahun: int, bulan: int): (months: int)
    ensures 0 <= bulan < 12 ==> months / 12 == tahun && months % 12 == bulan
  {
    tahun * 12 + bulan
  }

  /** `parser_usia_tahun`: the age as a fraction of years, with 12-month years
      and 365-day years for the day part. Over the common denominator
      4380 = 12 * 365 a month weighs 365 and a day 12; an age below a month
      of days and a year of months lies within its whole years. */
  function UsiaTahun(tahun: int, bulan: int, hari: int): (y: real)
    ensures y * 4380.0 == (4380 * tahun + 365 * bulan + 12 * hari) as real
    ensures 0 <= bulan < 12 && 0 <= hari < 30 ==> tahun as real <= y < (tahun + 1) as real
  {
    tahun as real + bulan as real / 12.0 + hari as real / 365.0
  }

  /** The fractional age exceeds the elapsed days over 365 by exactly
      bulan/876: the 30-day month is counted as 1/12 year. */
  lemma UsiaTahunOfElapsedDays(d: int)
    ensures var a := Decompose(d);
      UsiaTahun(a.tahun, a.bulan, a.hari) == d as real / 365.0 + a.bulan as real / 876.0
  {
    var a := Decompose(d);
    var t, b, h := a.tahun as real, a.bulan as real, a.hari as real;
    assert d as real == 365.0 * t + 30.0 * b + h;
    calc {
      UsiaTahun(a.tahun, a.bulan, a.hari);
      t + b / 12.0 + h / 365.0;
      (365.0 * t + 30.0 * b + h) / 365.0 + b / 876.0;
    }
  }

  /** The last five days of a 365-day year decompose into 12 months, and
      those count in whole months exactly as one more year would: the month
      total of a decomposition is 12 * (d / 365) + (d % 365) / 30 and never
      reaches the following year's total plus one. */
  lemma UsiaBulanOfTwelveMonths(d: int)
    ensures var a := Decompose(d);
      a.bulan == 12 ==> UsiaBulan(a.tahun, a.bulan) == UsiaBulan(a.tahun + 1, 0)
    ensures var a := Decompose(d);
      UsiaBulan(a.tahun, a.bulan) <= 12 * (d / 365 + 1)
  {
  }

  // ---------------------------------------------------------------------------
  // parser_gender

  /** `parser_gender`: the caller's L/P code mapped to pygrowup's M/F;
      every other string, lower case included, raises. */
  function ParseGender(gender: string): (r: Result<string, string>)
    ensures r == Success("M") <==> gender == "L"
    ensures r == Success("F") <==> gender == "P"
    ensures r.Failure? <==> gender != "L" && gender != "P"
    ensures r.Failure? ==> r.error == "Jenis kelamin tidak valid"
  {
    if gender == "L" then Success("M")
    else if gender == "P" then Success("F")
    else Failure("Jenis kelamin tidak valid")
  }

  // ---------------------------------------------------------------------------
  // parser_usia_from_string: re.search(r'(\d+)\s*<keyword>', usia_str.lower())

  const Tahun := Pattern(true, "tahun")
  const Bulan := Pattern(true, "bulan")
  const Hari := Pattern(true, "hari")

  /** `parser_usia_from_string`: each of tahun/bulan/hari is read from its
      own leftmost match in the lower-cased text, independent of the other
      two; a missing one is 0, so text with no match gives 0/0/0. */
  function ParseUsiaFromString(usia: string): (r: AgeBreakdown)
    ensures r.tahun == SearchValue(Lower(usia), Tahun)
    ensures r.bulan == SearchValue(Lower(usia), Bulan)
    ensures r.hari == SearchValue(Lower(usia), Hari)
  {
    var text := Lower(usia);
    AgeBreakdown(SearchValue(text, Tahun), SearchValue(text, Bulan), SearchValue(text, Hari))
  }

  /** An age written out the way the scanner reads it:
      "<t> tahun <b> bulan <h> hari". */
  function AgeText(t: nat, b: nat, h: nat): string {
    NatToDecimal(t) + (" tahun " + (NatToDecimal(b) + (" bulan " + (NatToDecimal(h) + " hari"))))
  }

  /** Every age written as "<t> tahun <b> bulan <h> hari" is read back as
      exactly t years, b months and h days. */
  lemma ParseUsiaRoundTrip(t: nat, b: nat, h: nat)
    ensures ParseUsiaFromString(AgeText(t, b, h)) == AgeBreakdown(t, b, h)
  {
    AgeTextIsLowerCase(t, b, h);
    AgeTextTahun(t, b, h);
    AgeTextBulan(t, b, h);
    AgeTextHari(t, b, h);
  }

  lemma AgeTextIsLowerCase(t: nat, b: nat, h: nat)
    ensures Lower(AgeText(t, b, h)) == AgeText(t, b, h)
  {
    var dt, db, dh := NatToDecimal(t), NatToDecimal(b), NatToDecimal(h);
    assert NoUpper(" tahun ") && NoUpper(" bulan ") && NoUpper(" hari");
    NoUpperAppend(dh, " hari");
    NoUpperAppend(" bulan ", dh + " hari");
    NoUpperAppend(db, " bulan " + (dh + " hari"));
    NoUpperAppend(" tahun ", db + (" bulan " + (dh + " hari")));
    NoUpperAppend(dt, " tahun " + (db + (" bulan " + (dh + " hari"))));
    LowerOfLowerCase(AgeText(t, b, h));
  }

  /** A number, a spaced word and the rest, bracketed the way the searches
      read it. */
  lemma SpacedWord(d: string, word: string, rest: string)
    ensures d + ((" " + word + " ") + rest) == d + " " + word + (" " + rest)
    ensures StartsWith(d + ((" " + word + " ") + rest), d + " " + (word + " "))
    ensures (d + ((" " + word + " ") + rest))[|d| + |word| + 2..] == rest
  {
    var s := d + ((" " + word + " ") + rest);
    assert s == d + " " + (word + " ") + rest;
    StartsWithAppend(d + " " + (word + " "), rest);
  }

  lemma AgeTextTahun(t: nat, b: nat, h: nat)
    ensures SearchValue(AgeText(t, b, h), Tahun) == t
  {
    var dt, db, dh := NatToDecimal(t), NatToDecimal(b), NatToDecimal(h);
    var q := db + (" bulan " + (dh + " hari"));
    assert " tahun " == " " + "tahun" + " ";
    SpacedWord(dt, "tahun", q);
    SearchValueOfNumber(t, Tahun, " ", " " + q);
  }

  /** The text from the months on. */
  lemma AgeTextFromMonths(t: nat, b: nat, h: nat)
    ensures var s := AgeText(t, b, h);
      |NatToDecimal(t)| + 7 <= |s| && s[0..] == s
      && StartsWith(s, NatToDecimal(t) + " " + "tahun ")
      && s[|NatToDecimal(t)| + 7..] == NatToDecimal(b) + (" bulan " + (NatToDecimal(h) + " hari"))
  {
    var dt, db, dh := NatToDecimal(t), NatToDecimal(b), NatToDecimal(h);
    assert " tahun " == " " + "tahun" + " ";
    assert "tahun" + " " == "tahun ";
    SpacedWord(dt, "tahun", db + (" bulan " + (dh + " hari")));
  }

  /** The text from the days on. */
  lemma MonthsOn(b: nat, h: nat)
    ensures var q := NatToDecimal(b) + (" bulan " + (NatToDecimal(h) + " hari"));
      |NatToDecimal(b)| + 7 <= |q|
      && StartsWith(q, NatToDecimal(b) + " " + "bulan")
      && StartsWith(q, NatToDecimal(b) + " " + "bulan ")
      && q[|NatToDecimal(b)| + 7..] == NatToDecimal(h) + " hari"
  {
    var db, dh := NatToDecimal(b), NatToDecimal(h);
    var q := db + (" bulan " + (dh + " hari"));
    assert " bulan " == " " + "bulan" + " ";
    assert "bulan" + " " == "bulan ";
    SpacedWord(db, "bulan", dh + " hari");
    StartsWithAppend(db + " " + "bulan", " " + (dh + " hari"));
  }

  /** The text from the months on, and from the days on. */
  lemma AgeTextFromDays(t: nat, b: nat, h: nat)
    ensures var s := AgeText(t, b, h);
      var a := |NatToDecimal(t)| + 7;
      var c := a + |NatToDecimal(b)| + 7;
      c <= |s| && StartsWith(s[a..], NatToDecimal(b) + " " + "bulan ")
      && s[c..] == NatToDecimal(h) + " hari"
  {
    var s := AgeText(t, b, h);
    var a := |NatToDecimal(t)| + 7;
    var q := s[a..];
    AgeTextFromMonths(t, b, h);
    MonthsOn(b, h);
    assert s[a + |NatToDecimal(b)| + 7..] == q[|NatToDecimal(b)| + 7..];
  }

  lemma AgeTextBulan(t: nat, b: nat, h: nat)
    ensures SearchValue(AgeText(t, b, h), Bulan) == b
  {
    var a := |NatToDecimal(t)| + 7;
    SkipsYears(t, b, h, Bulan, a);
    BulanAtMonths(t, b, h, a);
  }

  /** The months' number and keyword are found where they are written. */
  lemma BulanAtMonths(t: nat, b: nat, h: nat, a: nat)
    requires a == |NatToDecimal(t)| + 7
    ensures a < |AgeText(t, b, h)| && FirstMatch(AgeText(t, b, h), Bulan, a) == Some(a)
    ensures DigitsValue(AgeText(t, b, h)[a..DigitRunEnd(AgeText(t, b, h), a)]) == b
  {
    AgeTextFromMonths(t, b, h);
    MonthsOn(b, h);
    NumberMatchesAt(AgeText(t, b, h), Bulan, a, b, " ");
  }

  lemma DaysOn(h: nat)
    ensures StartsWith(NatToDecimal(h) + " hari", NatToDecimal(h) + " " + "hari")
  {
    assert NatToDecimal(h) + " hari" == NatToDecimal(h) + " " + "hari";
  }

  lemma AgeTextHari(t: nat, b: nat, h: nat)
    ensures SearchValue(AgeText(t, b, h), Hari) == h
  {
    var a := |NatToDecimal(t)| + 7;
    var c := a + |NatToDecimal(b)| + 7;
    SkipsYears(t, b, h, Hari, a);
    SkipsMonths(t, b, h, Hari, a, c);
    HariAtDays(t, b, h, c);
  }

  /** A search for a keyword not starting with 't' passes over the years. */
  lemma SkipsYears(t: nat, b: nat, h: nat, p: Pattern, a: nat)
    requires p.skipSpaces && p.keyword != [] && p.keyword[0] != 't'
    requires a == |NatToDecimal(t)| + 7
    ensures a <= |AgeText(t, b, h)|
    ensures FirstMatch(AgeText(t, b, h), p, 0) == FirstMatch(AgeText(t, b, h), p, a)
  {
    AgeTextFromMonths(t, b, h);
    SkipNumberAndWord(AgeText(t, b, h), p, 0, NatToDecimal(t), " ", "tahun ", a);
  }

  /** A search for a keyword not starting with 'b' passes over the months. */
  lemma SkipsMonths(t: nat, b: nat, h: nat, p: Pattern, a: nat, c: nat)
    requires p.skipSpaces && p.keyword != [] && p.keyword[0] != 'b'
    requires a == |NatToDecimal(t)| + 7 && c == a + |NatToDecimal(b)| + 7
    ensures a <= c <= |AgeText(t, b, h)|
    ensures FirstMatch(AgeText(t, b, h), p, a) == FirstMatch(AgeText(t, b, h), p, c)
  {
    AgeTextFromDays(t, b, h);
    SkipNumberAndWord(AgeText(t, b, h), p, a, NatToDecimal(b), " ", "bulan ", c);
  }

  /** The days' number and keyword are found where they are written. */
  lemma HariAtDays(t: nat, b: nat, h: nat, c: nat)
    requires c == |NatToDecimal(t)| + 7 + |NatToDecimal(b)| + 7
    ensures c < |AgeText(t, b, h)| && FirstMatch(AgeText(t, b, h), Hari, c) == Some(c)
    ensures DigitsValue(AgeText(t, b, h)[c..DigitRunEnd(AgeText(t, b, h), c)]) == h
  {
    AgeTextFromDays(t, b, h);
    DaysOn(h);
    NumberMatchesAt(AgeText(t, b, h), Hari, c, h, " ");
  }

  /** The scanner ignores case: upper- or lower-casing the text first gives
      the same age. */
  lemma ParseUsiaIgnoresCase(usia: string)
    ensures ParseUsiaFromString(Lower(usia)) == ParseUsiaFromString(usia)
    ensures ParseUsiaFromString(Upper(usia)) == ParseUsiaFromString(usia)
  {
    LowerIdempotent(usia);
    LowerOfUpper(usia);
  }

  /** Text in which no keyword follows a number yields 0/0/0 rather than an error. */
  lemma ParseUsiaNoTokens(usia: string)
    requires forall k :: 0 <= k <= |usia| ==>
      !MatchAt(Lower(usia), Tahun, k) && !MatchAt(Lower(usia), Bulan, k)
      && !MatchAt(Lower(usia), Hari, k)
    ensures ParseUsiaFromString(usia) == AgeBreakdown(0, 0, 0)
  {
    var text := Lower(usia);
    assert |text| == |usia|;
    NoMatchNoValue(text, Tahun);
    NoMatchNoValue(text, Bulan);
    NoMatchNoValue(text, Hari);
  }

  /** A pattern that matches nowhere reads as 0. */
  lemma NoMatchNoValue(text: string, p: Pattern)
    requires forall k :: 0 <= k <= |text| ==> !MatchAt(text, p, k)
    ensures SearchValue(text, p) == 0
  {
    match FirstMatch(text, p, 0) {
      case None =>
      case Some(_) => assert false;
    }
  }

  // ---------------------------------------------------------------------------
  // parse_tanggal_lahir

  /** The elapsed-days decomposition with 365-day years and 30-day months.
      Dafny's `/` and `%` by a positive constant floor like Python's `//` and
      `%`, so this holds for a birth date in the future (d < 0) too. */
  function Decompose(d: int): (a: AgeBreakdown)
    ensures 365 * a.tahun + 30 * a.bulan + a.hari == d
    ensures 0 <= a.hari < 30 && 0 <= a.bulan <= 12
    ensures 30 * a.bulan + a.hari < 365
    ensures a.bulan == 12 <==> d % 365 >= 360
    ensures d >= 0 <==> a.tahun >= 0
  {
    AgeBreakdown(d / 365, (d % 365) / 30, (d % 365) % 30)
  }

  /** The decomposition is the only split of d into years, months below 13
      and days below 30 whose months and days are less than a year. */
  lemma DecomposeUnique(d: int, a: AgeBreakdown)
    requires 365 * a.tahun + 30 * a.bulan + a.hari == d
    requires 0 <= a.hari < 30 && 0 <= a.bulan
    requires 30 * a.bulan + a.hari < 365
    ensures a == Decompose(d)
  {
    DivideBy365(d, a.tahun, 30 * a.bulan + a.hari);
    DivideBy30(30 * a.bulan + a.hari, a.bulan, a.hari);
  }

  /** Euclidean division by 365 has exactly one quotient and remainder. */
  lemma DivideBy365(d: int, q: int, r: int)
    requires d == 365 * q + r && 0 <= r < 365
    ensures d / 365 == q && d % 365 == r
  {
    var q', r' := d / 365, d % 365;
    assert d == 365 * q' + r' && 0 <= r' < 365;
    var k := q - q';
    assert 365 * k == r' - r;
    assert -365 < 365 * k < 365;
    assert k == 0;
  }

  /** Euclidean division by 30 has exactly one quotient and remainder. */
  lemma DivideBy30(d: int, q: int, r: int)
    requires d == 30 * q + r && 0 <= r < 30
    ensures d / 30 == q && d % 30 == r
  {
    var q', r' := d / 30, d % 30;
    assert d == 30 * q' + r' && 0 <= r' < 30;
    var k := q - q';
    assert 30 * k == r' - r;
    assert -30 < 30 * k < 30;
    assert k == 0;
  }

  /** A remainder of 360 to 364 days after the whole years gives bulan = 12. */
  lemma TwelveMonthsReachable()
    ensures Decompose(360) == AgeBreakdown(0, 12, 0)
    ensures Decompose(364) == AgeBreakdown(0, 12, 4)
  {
  }

  /** `parse_tanggal_lahir`. `strptime` and `datetime.now` are outside the
      model: `birthDay` is the day number of the parsed date (None when the
      text is not a `YYYY-MM-DD` date) and `today` the current day number, so
      `delta.days == today - birthDay`. */
  function ParseTanggalLahir(birthDay: Option<int>, today: int): (r: Result<AgeBreakdown, string>)
    ensures birthDay.None? <==> r.Failure?
    ensures r.Failure? ==> r.error == "Format tanggal lahir tidak valid"
    ensures r.Success? ==>
      var a := r.value;
      365 * a.tahun + 30 * a.bulan + a.hari == today - birthDay.value
      && 0 <= a.hari < 30 && 0 <= a.bulan <= 12 && 30 * a.bulan + a.hari < 365
  {
    match birthDay
    case None => Failure("Format tanggal lahir tidak valid")
    case Some(b) => Success(Decompose(today - b))
  }
}
