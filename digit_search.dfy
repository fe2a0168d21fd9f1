/** The regular-expression searches of the age parsers, `re.search` with a
    pattern of the shape `(\d+)<gap><keyword>`: `(\d+)\s*tahun` in
    `lib/prediction/parser.py` and `(\d+) Tahun` in `test/zscore_replace.py`. */
module DigitSearch {
  import opened Wrappers
  import opened PyStr

  /** `(\d+)\s*keyword` when `skipSpaces`, `(\d+)keyword` otherwise (the
      literal space of `(\d+) Tahun` is then the keyword's first character). */
  datatype Pattern = Pattern(skipSpaces: bool, keyword: string)

  /** The end of the run of digits that starts at `i`. */
  function DigitRunEnd(s: string, i: nat): (j: nat)
    requires i <= |s|
    ensures i <= j <= |s|
    ensures forall k :: i <= k < j ==> IsDigit(s[k])
    ensures j == |s| || !IsDigit(s[j])
    decreases |s| - i
  {
    if i < |s| && IsDigit(s[i]) then DigitRunEnd(s, i + 1) else i
  }

  /** The end of the run of whitespace that starts at `i`. */
  function SpaceRunEnd(s: string, i: nat): (j: nat)
    requires i <= |s|
    ensures i <= j <= |s|
    ensures forall k :: i <= k < j ==> IsSpace(s[k])
    ensures j == |s| || !IsSpace(s[j])
    decreases |s| - i
  {
    if i < |s| && IsSpace(s[i]) then SpaceRunEnd(s, i + 1) else i
  }

  /** Where the keyword has to start for a match whose digits start at `i`. */
  function KeywordStart(s: string, p: Pattern, i: nat): (j: nat)
    requires i <= |s|
    ensures DigitRunEnd(s, i) <= j <= |s|
  {
    if p.skipSpaces then SpaceRunEnd(s, DigitRunEnd(s, i)) else DigitRunEnd(s, i)
  }

  /** The pattern matches at position `i`. Greedy `\d+` and `\s*` never need
      to give characters back here: the character after a shorter digit run
      is a digit, which neither `\s`, a space nor a letter matches, so the
      keywords used (each starting with a letter or a space) cannot follow it. */
  predicate MatchAt(s: string, p: Pattern, i: nat)
    requires i <= |s|
  {
    i < |s| && IsDigit(s[i]) && StartsWith(s[KeywordStart(s, p, i)..], p.keyword)
  }

  /** The leftmost position at or after `i` where the pattern matches. */
  function FirstMatch(s: string, p: Pattern, i: nat): (r: Option<nat>)
    requires i <= |s|
    ensures r.Some? ==> i <= r.value < |s| && MatchAt(s, p, r.value)
    ensures r.Some? ==> forall k :: i <= k < r.value ==> !MatchAt(s, p, k)
    ensures r.None? ==> forall k :: i <= k <= |s| ==> !MatchAt(s, p, k)
    decreases |s| - i
  {
    if i == |s| then None
    else if MatchAt(s, p, i) then Some(i)
    else FirstMatch(s, p, i + 1)
  }

  /** The leftmost match starts a digit run, so the captured group is the
      whole number in front of the keyword ("12 tahun" gives 12, not 2). */
  lemma FirstMatchStartsRun(s: string, p: Pattern)
    requires FirstMatch(s, p, 0).Some?
    ensures var k := FirstMatch(s, p, 0).value;
      k == 0 || !IsDigit(s[k - 1])
  {
    var k := FirstMatch(s, p, 0).value;
    if k > 0 {
      MatchExtendsLeft(s, p, k);
    }
  }

  /** A match preceded by a digit is also a match one position earlier. */
  lemma MatchExtendsLeft(s: string, p: Pattern, i: nat)
    requires 0 < i <= |s|
    ensures IsDigit(s[i - 1]) && MatchAt(s, p, i) ==> MatchAt(s, p, i - 1)
  {
    if IsDigit(s[i - 1]) && i < |s| {
      assert DigitRunEnd(s, i - 1) == DigitRunEnd(s, i);
    }
  }

  /** The search passes over positions where the pattern does not match. */
  lemma {:induction false} FirstMatchSkips(s: string, p: Pattern, i: nat, j: nat)
    requires i <= j <= |s|
    requires forall k :: i <= k < j ==> !MatchAt(s, p, k)
    ensures FirstMatch(s, p, i) == FirstMatch(s, p, j)
    decreases j - i
  {
    if i < j {
      FirstMatchSkips(s, p, i + 1, j);
    }
  }

  /** In particular it passes over characters that are not digits. */
  lemma FirstMatchSkipsNonDigits(s: string, p: Pattern, i: nat, j: nat)
    requires i <= j <= |s|
    requires forall k :: i <= k < j ==> !IsDigit(s[k])
    ensures FirstMatch(s, p, i) == FirstMatch(s, p, j)
  {
    FirstMatchSkips(s, p, i, j);
  }

  /** The keyword cannot be taken for part of the number or of the gap in
      front of it: it starts with neither a digit nor, when the pattern skips
      whitespace, a space. */
  predicate KeywordFits(p: Pattern) {
    p.keyword != [] && !IsDigit(p.keyword[0]) && (p.skipSpaces ==> !IsSpace(p.keyword[0]))
  }

  /** What may stand between the number and the keyword: a run of
      whitespace when the pattern has `\s*`, nothing otherwise. */
  predicate Gap(p: Pattern, w: string) {
    (p.skipSpaces || w == []) && forall k :: 0 <= k < |w| ==> IsSpace(w[k])
  }

  lemma Associative(a: string, b: string, c: string)
    ensures a + b + c == a + (b + c)
  {
  }

  /** A prefix of a prefix, and what follows it. */
  lemma StartsWithParts(y: string, a: string, b: string)
    requires StartsWith(y, a + b)
    ensures StartsWith(y, a) && StartsWith(y[|a|..], b)
  {
    assert y[..|a|] == (a + b)[..|a|] == a;
    assert y[|a|..][..|b|] == (a + b)[|a|..] == b;
  }

  /** A text does not start with a word whose first character differs. */
  lemma FirstDiffers(y: string, a: string)
    requires y != [] && a != [] && y[0] != a[0]
    ensures !StartsWith(y, a)
  {
    if |a| <= |y| {
      assert y[..|a|][0] != a[0];
    }
  }

  /** The characters of a prefix of the text from `i`. */
  lemma CharsAt(s: string, i: nat, x: string)
    requires i <= |s| && StartsWith(s[i..], x)
    ensures forall k :: 0 <= k < |x| ==> s[i + k] == x[k]
  {
    forall k | 0 <= k < |x| ensures s[i + k] == x[k] {
      assert s[i..][..|x|][k] == x[k];
    }
  }

  /** A run of digits `d` written at `i` and not followed by a digit: the
      digit run from any of its positions ends at its end. */
  lemma DigitsRun(s: string, i: nat, d: string)
    requires forall k :: 0 <= k < |d| ==> IsDigit(d[k])
    requires i <= |s| && StartsWith(s[i..], d)
    requires i + |d| == |s| || !IsDigit(s[i + |d|])
    ensures s[i..i + |d|] == d
    ensures forall k :: i <= k <= i + |d| ==> DigitRunEnd(s, k) == i + |d|
  {
    CharsAt(s, i, d);
    assert forall k :: i <= k < i + |d| ==> IsDigit(s[k]) by {
      forall k | i <= k < i + |d| ensures IsDigit(s[k]) {
        assert s[i + (k - i)] == d[k - i];
      }
    }
    assert s[i..i + |d|] == s[i..][..|d|];
  }

  /** A gap of whitespace at `i` followed by a character that is not
      whitespace ends where that character stands. */
  lemma GapRun(s: string, i: nat, w: string)
    requires forall k :: 0 <= k < |w| ==> IsSpace(w[k])
    requires i <= |s| && StartsWith(s[i..], w)
    requires i + |w| < |s| && !IsSpace(s[i + |w|])
    ensures SpaceRunEnd(s, i) == i + |w|
  {
    CharsAt(s, i, w);
    assert forall k :: i <= k < i + |w| ==> IsSpace(s[k]) by {
      forall k | i <= k < i + |w| ensures IsSpace(s[k]) {
        assert s[i + (k - i)] == w[k - i];
      }
    }
  }

  /** The digits `d`, a gap and then the text `x` written at `i`, with `x`
      starting with neither a digit nor, when the pattern skips whitespace,
      a space: the digit run ends after `d` and the keyword must stand where
      `x` does. */
  lemma LayoutAt(s: string, p: Pattern, i: nat, d: string, w: string, x: string)
    requires forall k :: 0 <= k < |d| ==> IsDigit(d[k])
    requires Gap(p, w) && x != [] && !IsDigit(x[0]) && (p.skipSpaces ==> !IsSpace(x[0]))
    requires i <= |s| && StartsWith(s[i..], d + w + x)
    ensures s[i..i + |d|] == d
    ensures forall k :: i <= k <= i + |d| ==> DigitRunEnd(s, k) == i + |d|
    ensures forall k :: i <= k <= i + |d| ==> KeywordStart(s, p, k) == i + |d| + |w|
    ensures forall k :: i + |d| <= k < i + |d| + |w| ==> IsSpace(s[k])
    ensures StartsWith(s[i + |d| + |w|..], x)
  {
    var y := s[i..];
    StartsWithParts(y, d + w, x);
    StartsWithParts(y, d, w);
    assert y[|d|..] == s[i + |d|..];
    assert y[|d + w|..] == s[i + |d| + |w|..];
    CharsAt(s, i + |d| + |w|, x);
    assert s[i + |d| + |w|] == x[0];
    CharsAt(s, i + |d|, w);
    if w != [] {
      assert s[i + |d| + 0] == w[0];
    }
    assert forall k :: i + |d| <= k < i + |d| + |w| ==> IsSpace(s[k]) by {
      forall k | i + |d| <= k < i + |d| + |w| ensures IsSpace(s[k]) {
        assert s[i + |d| + (k - i - |d|)] == w[k - i - |d|];
      }
    }
    DigitsRun(s, i, d);
    if p.skipSpaces {
      GapRun(s, i + |d|, w);
    }
  }

  /** `str(n)`, a gap and the keyword written at `i`: the pattern matches
      there, and the captured digits are exactly those of `n`. */
  lemma NumberMatchesAt(s: string, p: Pattern, i: nat, n: nat, w: string)
    requires KeywordFits(p) && Gap(p, w)
    requires i <= |s| && StartsWith(s[i..], NatToDecimal(n) + w + p.keyword)
    ensures MatchAt(s, p, i)
    ensures DigitRunEnd(s, i) == i + |NatToDecimal(n)|
    ensures DigitsValue(s[i..DigitRunEnd(s, i)]) == n
  {
    LayoutAt(s, p, i, NatToDecimal(n), w, p.keyword);
  }

  /** The number written in front of the keyword is the value read, for
      every number, every admissible gap and whatever follows. */
  lemma SearchValueOfNumber(n: nat, p: Pattern, w: string, rest: string)
    requires KeywordFits(p) && Gap(p, w)
    ensures SearchValue(NatToDecimal(n) + w + p.keyword + rest, p) == n
  {
    var s := NatToDecimal(n) + w + p.keyword + rest;
    assert s[0..] == s;
    assert StartsWith(s, NatToDecimal(n) + w + p.keyword);
    NumberMatchesAt(s, p, 0, n, w);
  }

  /** Digits, a gap and then a word the keyword does not start with: the
      search passes over the digits, the gap and the word. */
  lemma SkipNumberAndWord(s: string, p: Pattern, i: nat, d: string, w: string, u: string, j: nat)
    requires forall k :: 0 <= k < |d| ==> IsDigit(d[k])
    requires Gap(p, w) && p.keyword != []
    requires u != [] && u[0] != p.keyword[0] && (p.skipSpaces ==> !IsSpace(u[0]))
    requires forall k :: 0 <= k < |u| ==> !IsDigit(u[k])
    requires i <= |s| && StartsWith(s[i..], d + w + u)
    requires j == i + |d| + |w| + |u|
    ensures j <= |s| && FirstMatch(s, p, i) == FirstMatch(s, p, j)
  {
    SkipDigits(s, p, i, d, w, u);
    SkipGapAndWord(s, p, i, d, w, u);
  }

  /** No match starts inside the digits: the keyword would have to stand
      where the word does. */
  lemma SkipDigits(s: string, p: Pattern, i: nat, d: string, w: string, u: string)
    requires forall k :: 0 <= k < |d| ==> IsDigit(d[k])
    requires Gap(p, w) && p.keyword != []
    requires u != [] && u[0] != p.keyword[0] && (p.skipSpaces ==> !IsSpace(u[0]))
    requires forall k :: 0 <= k < |u| ==> !IsDigit(u[k])
    requires i <= |s| && StartsWith(s[i..], d + w + u)
    ensures i + |d| <= |s| && FirstMatch(s, p, i) == FirstMatch(s, p, i + |d|)
  {
    LayoutAt(s, p, i, d, w, u);
    var ks := i + |d| + |w|;
    assert s[ks..][0] == u[0];
    FirstDiffers(s[ks..], p.keyword);
    FirstMatchSkips(s, p, i, i + |d|);
  }

  /** Whitespace followed by a word without digits holds no digit. */
  lemma GapNoDigits(w: string, u: string)
    requires forall k :: 0 <= k < |w| ==> IsSpace(w[k])
    requires forall k :: 0 <= k < |u| ==> !IsDigit(u[k])
    ensures forall k :: 0 <= k < |w + u| ==> !IsDigit((w + u)[k])
  {
  }

  /** Nor inside the gap or the word, neither of which holds a digit. */
  lemma SkipGapAndWord(s: string, p: Pattern, i: nat, d: string, w: string, u: string)
    requires forall k :: 0 <= k < |w| ==> IsSpace(w[k])
    requires forall k :: 0 <= k < |u| ==> !IsDigit(u[k])
    requires i <= |s| && StartsWith(s[i..], d + w + u)
    ensures i + |d| + |w| + |u| <= |s|
    ensures FirstMatch(s, p, i + |d|) == FirstMatch(s, p, i + |d| + |w| + |u|)
  {
    Associative(d, w, u);
    GapNoDigits(w, u);
    SkipNonDigits(s, p, i, d, w + u);
  }

  /** The search passes over text without digits that follows digits. */
  lemma SkipNonDigits(s: string, p: Pattern, i: nat, d: string, v: string)
    requires forall k :: 0 <= k < |v| ==> !IsDigit(v[k])
    requires i <= |s| && StartsWith(s[i..], d + v)
    ensures i + |d| + |v| <= |s|
    ensures FirstMatch(s, p, i + |d|) == FirstMatch(s, p, i + |d| + |v|)
  {
    var t := d + v;
    CharsAt(s, i, t);
    forall k | i + |d| <= k < i + |d| + |v|
      ensures !IsDigit(s[k])
    {
      var j := k - i;
      assert s[i + j] == t[j];
      assert t[j] == v[j - |d|];
    }
    FirstMatchSkipsNonDigits(s, p, i + |d|, i + |d| + |v|);
  }

  /** `int(m.group(1)) if m else 0` for the leftmost match. */
  function SearchValue(s: string, p: Pattern): (v: nat)
    ensures FirstMatch(s, p, 0).None? ==> v == 0
    ensures FirstMatch(s, p, 0).Some? ==>
      var k := FirstMatch(s, p, 0).value;
      v == DigitsValue(s[k..DigitRunEnd(s, k)])
  {
    match FirstMatch(s, p, 0)
    case None => 0
    case Some(k) => DigitsValue(s[k..DigitRunEnd(s, k)])
  }
}
