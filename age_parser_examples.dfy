/** The two worked examples of the free-text age scanner, evaluated step by
    step: "2 tahun 3 bulan 10 hari" gives 2/3/10 and "5 bulan" gives 0/5/0.
    Each step is its own small lemma so that every proof sees few facts. */
module AgeParserExamples {
  import opened Wrappers
  import opened PyStr
  import opened DigitSearch
  import opened AgeParser

  const Full := "2 tahun 3 bulan 10 hari"
  const MonthsOnly := "5 bulan"

  lemma FullSlices()
    ensures Full[8..9] == "3" && Full[0..1] == "2" && Full[16..18] == "10"
  {
  }

  lemma FullIsLowerCase()
    ensures Lower(Full) == Full
  {
    var s := "2 tahun 3 bulan 10 hari";
    LowerOfLowerCase(s);
    assert Lower(s) == s;
  }

  lemma FullGaps()
    ensures forall k :: 1 <= k < 8 ==> !IsDigit(Full[k])
    ensures forall k :: 9 <= k < 16 ==> !IsDigit(Full[k])
  {
  }

  /** A single digit followed by a single space. */
  lemma DigitThenSpace(s: string, i: nat)
    requires i + 2 < |s| && IsDigit(s[i]) && !IsDigit(s[i + 1])
    requires IsSpace(s[i + 1]) && !IsSpace(s[i + 2])
    ensures DigitRunEnd(s, i) == i + 1 && SpaceRunEnd(s, i + 1) == i + 2
  {
    assert DigitRunEnd(s, i + 1) == i + 1;
    assert SpaceRunEnd(s, i + 2) == i + 2;
  }

  lemma FullTahunRuns()
    ensures DigitRunEnd(Full, 0) == 1 && SpaceRunEnd(Full, 1) == 2
  {
    assert Full[0] == '2' && Full[1] == ' ' && Full[2] == 't';
    DigitThenSpace(Full, 0);
  }

  lemma FullBulanRuns()
    ensures DigitRunEnd(Full, 8) == 9 && SpaceRunEnd(Full, 9) == 10
  {
    assert Full[8] == '3' && Full[9] == ' ' && Full[10] == 'b';
    DigitThenSpace(Full, 8);
  }

  lemma FullHariRuns()
    ensures DigitRunEnd(Full, 16) == 18 && SpaceRunEnd(Full, 18) == 19
  {
    assert Full[16] == '1' && Full[17] == '0' && Full[18] == ' ' && Full[19] == 'h';
    assert DigitRunEnd(Full, 16) == DigitRunEnd(Full, 17);
    DigitThenSpace(Full, 17);
  }

  lemma FullTahunMatch()
    ensures MatchAt(Full, Tahun, 0)
  {
    FullTahunRuns();
    assert Full[2..][..5] == "tahun";
  }

  lemma FullTahun()
    ensures SearchValue(Full, Tahun) == 2
  {
    FullTahunMatch();
    assert FirstMatch(Full, Tahun, 0) == Some(0);
    FullTahunRuns();
    FullSlices();
    TwoValue();
  }

  lemma TwoValue()
    ensures DigitsValue("2") == 2
  {
    assert "2"[..0] == [];
  }

  lemma FullBulanMatch()
    ensures MatchAt(Full, Bulan, 8) && !MatchAt(Full, Bulan, 0)
  {
    FullTahunRuns();
    FullBulanRuns();
    assert Full[10..][..5] == "bulan";
    assert Full[2..][..5] != "bulan";
  }

  lemma FullBulanFirst()
    ensures FirstMatch(Full, Bulan, 0) == Some(8)
  {
    FullBulanMatch();
    FullGaps();
    FirstMatchSkipsNonDigits(Full, Bulan, 1, 8);
  }

  lemma FullBulan()
    ensures SearchValue(Full, Bulan) == 3
  {
    FullBulanFirst();
    FullBulanRuns();
    FullSlices();
  }

  lemma FullHariMatch()
    ensures MatchAt(Full, Hari, 16) && !MatchAt(Full, Hari, 0) && !MatchAt(Full, Hari, 8)
  {
    FullTahunRuns();
    FullBulanRuns();
    FullHariRuns();
    assert Full[19..] == "hari";
    assert Full[2..][..4] != "hari";
    assert Full[10..][..4] != "hari";
  }

  lemma FullHariFirst()
    ensures FirstMatch(Full, Hari, 0) == Some(16)
  {
    FullHariMatch();
    FullGaps();
    FirstMatchSkipsNonDigits(Full, Hari, 9, 16);
    FirstMatchSkipsNonDigits(Full, Hari, 1, 8);
  }

  lemma TenValue()
    ensures DigitsValue("10") == 10
  {
    assert "10"[..1] == "1";
  }

  lemma FullHari()
    ensures SearchValue(Full, Hari) == 10
  {
    FullHariFirst();
    FullHariRuns();
    FullSlices();
    TenValue();
  }

  /** "2 tahun 3 bulan 10 hari" reads as 2 years, 3 months, 10 days. */
  lemma FullExample()
    ensures ParseUsiaFromString(Full) == AgeBreakdown(2, 3, 10)
  {
    FullIsLowerCase();
    FullTahun();
    FullBulan();
    FullHari();
  }

  lemma MonthsOnlyIsLowerCase()
    ensures Lower(MonthsOnly) == MonthsOnly
  {
    var s := "5 bulan";
    LowerOfLowerCase(s);
    assert Lower(s) == s;
  }

  lemma MonthsOnlyRuns()
    ensures DigitRunEnd(MonthsOnly, 0) == 1 && SpaceRunEnd(MonthsOnly, 1) == 2
    ensures MonthsOnly[0..1] == "5"
  {
    assert MonthsOnly[0] == '5' && MonthsOnly[1] == ' ' && MonthsOnly[2] == 'b';
    DigitThenSpace(MonthsOnly, 0);
  }

  lemma MonthsOnlyGap()
    ensures forall k :: 1 <= k < |MonthsOnly| ==> !IsDigit(MonthsOnly[k])
  {
  }

  lemma MonthsOnlyBulan()
    ensures FirstMatch(MonthsOnly, Bulan, 0) == Some(0)
  {
    MonthsOnlyRuns();
    assert MonthsOnly[2..] == "bulan";
    assert MatchAt(MonthsOnly, Bulan, 0);
  }

  /** No match at the start, and no digit after it, means no match at all. */
  lemma NoMatchAfterFirstDigit(s: string, p: Pattern)
    requires |s| > 0 && !MatchAt(s, p, 0)
    requires forall k :: 1 <= k < |s| ==> !IsDigit(s[k])
    ensures FirstMatch(s, p, 0) == None
  {
    FirstMatchSkipsNonDigits(s, p, 1, |s|);
  }

  lemma MonthsOnlyMatches()
    ensures FirstMatch(MonthsOnly, Bulan, 0) == Some(0)
    ensures FirstMatch(MonthsOnly, Tahun, 0) == None
    ensures FirstMatch(MonthsOnly, Hari, 0) == None
  {
    MonthsOnlyBulan();
    MonthsOnlyRuns();
    assert MonthsOnly[2..][..5] != "tahun";
    assert MonthsOnly[2..][..4] != "hari";
    MonthsOnlyGap();
    NoMatchAfterFirstDigit(MonthsOnly, Tahun);
    NoMatchAfterFirstDigit(MonthsOnly, Hari);
  }

  /** "5 bulan" reads as 0 years, 5 months, 0 days: missing tokens are 0. */
  lemma MonthsOnlyExample()
    ensures ParseUsiaFromString(MonthsOnly) == AgeBreakdown(0, 5, 0)
  {
    MonthsOnlyIsLowerCase();
    MonthsOnlyRuns();
    MonthsOnlyMatches();
  }
}
