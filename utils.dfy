/** The name recognisers and the time-string helper of planobs/utils.py.
    Each regular expression is written out as a predicate that follows its
    alternatives, and is then proved equal to the plain description of the
    names it accepts. Python's `$` (with re.match) also matches just before a
    single final "\n", so every accepted name followed by one newline is
    accepted too. */
module Utils {
  import opened Text

  predicate IsLower(c: char) {
    'a' <= c <= 'z'
  }

  predicate IsLetter(c: char) {
    'a' <= c <= 'z' || 'A' <= c <= 'Z'
  }

  function DigitValue(c: char): (d: nat)
    requires IsDigit(c)
    ensures d < 10
  {
    c as int - '0' as int
  }

  /** The value of two decimal digit characters. */
  function TwoDigits(tens: char, units: char): (n: nat)
    requires IsDigit(tens) && IsDigit(units)
    ensures n < 100
  {
    10 * DigitValue(tens) + DigitValue(units)
  }

  /** A pattern that must match the whole string, where `$` also allows one final "\n". */
  predicate FullMatchWithDollar(s: string, core: string -> bool) {
    core(s) || (|s| >= 1 && s[|s| - 1] == '\n' && core(s[..|s| - 1]))
  }

  // ---------------------------------------------------------------- ZTF names

  /** ZTF[1-2]\d[a-z]{7} */
  predicate ZtfPattern(s: string) {
    && |s| == 12
    && s[..3] == "ZTF"
    && s[3] in "12"
    && IsDigit(s[4])
    && forall i :: 5 <= i < 12 ==> IsLower(s[i])
  }

  /** is_ztf_name: re.match(r"^ZTF[1-2]\d[a-z]{7}$", name). A name is
      accepted exactly when its first twelve characters match the pattern and
      nothing but one newline follows them. */
  predicate IsZtfName(name: string)
    ensures IsZtfName(name) <==>
              (|name| == 12 || (|name| == 13 && name[12] == '\n')) && ZtfPattern(name[..12])
  {
    assert |name| == 12 ==> name[..12] == name;
    FullMatchWithDollar(name, ZtfPattern)
  }

  /** A ZTF name is "ZTF", a two-digit year from 10 to 29, and seven lower-case
      letters; every such string is one. */
  lemma ZtfNameParts(s: string)
    ensures ZtfPattern(s) <==>
              && |s| == 12 && s[..3] == "ZTF" && AllDigits(s[3..5])
              && 10 <= TwoDigits(s[3], s[4]) <= 29
              && forall i :: 5 <= i < 12 ==> IsLower(s[i])
  {
    if |s| == 12 && AllDigits(s[3..5]) {
      assert IsDigit(s[3]) && IsDigit(s[4]) by { assert s[3] == s[3..5][0] && s[4] == s[3..5][1]; }
      if 10 <= TwoDigits(s[3], s[4]) <= 29 {
        assert DigitValue(s[3]) in {1, 2};
      }
    }
  }

  /** A ZTF name followed by a single newline is accepted; two newlines are not. */
  lemma ZtfTrailingNewline(s: string)
    requires ZtfPattern(s)
    ensures IsZtfName(s) && IsZtfName(s + "\n") && !IsZtfName(s + "\n\n")
  {
    assert (s + "\n")[..|s|] == s;
    assert (s + "\n\n")[..|s| + 1] == s + "\n";
  }

  // ------------------------------------------------------------ IceCube names

  /** (0[13578]|1[02])(0[1-9]|[12]\d|3[01]): a 31-day month, days 01 to 31 */
  predicate LongMonthDay(m0: char, m1: char, d0: char, d1: char) {
    && ((m0 == '0' && m1 in "13578") || (m0 == '1' && m1 in "02"))
    && ((d0 == '0' && d1 in "123456789") || (d0 in "12" && IsDigit(d1)) || (d0 == '3' && d1 in "01"))
  }

  /** (0[13456789]|1[012])(0[1-9]|[12]\d|30): any month but February, days 01 to 30 */
  predicate ThirtyDayMonthDay(m0: char, m1: char, d0: char, d1: char) {
    && ((m0 == '0' && m1 in "13456789") || (m0 == '1' && m1 in "012"))
    && ((d0 == '0' && d1 in "123456789") || (d0 in "12" && IsDigit(d1)) || (d0 == '3' && d1 == '0'))
  }

  /** 02(0[1-9]|1\d|2[0-8]): February, days 01 to 28 */
  predicate FebruaryDay(m0: char, m1: char, d0: char, d1: char) {
    && m0 == '0' && m1 == '2'
    && ((d0 == '0' && d1 in "123456789") || (d0 == '1' && IsDigit(d1)) || (d0 == '2' && d1 in "012345678"))
  }

  /** ([02468][048]|[13579][26]): a two-digit year divisible by four */
  predicate LeapYearDigits(y0: char, y1: char) {
    (y0 in "02468" && y1 in "048") || (y0 in "13579" && y1 in "26")
  }

  /** (\d{2}(... | ... | ...))|([02468][048]|[13579][26])0229 on the six characters YYMMDD */
  predicate IceCubeDatePattern(d: string)
    requires |d| == 6
  {
    || (IsDigit(d[0]) && IsDigit(d[1])
        && (LongMonthDay(d[2], d[3], d[4], d[5])
            || ThirtyDayMonthDay(d[2], d[3], d[4], d[5])
            || FebruaryDay(d[2], d[3], d[4], d[5])))
    || (LeapYearDigits(d[0], d[1]) && d[2..] == "0229")
  }

  /** IC + the date pattern + [a-zA-Z] */
  predicate IceCubePattern(s: string) {
    |s| == 9 && s[..2] == "IC" && IceCubeDatePattern(s[2..8]) && IsLetter(s[8])
  }

  /** is_icecube_name: a name is accepted exactly when it is "IC", a calendar
      date YYMMDD and one ASCII letter, optionally followed by one newline. */
  predicate IsIcecubeName(name: string)
    ensures IsIcecubeName(name) <==>
              && (|name| == 9 || (|name| == 10 && name[9] == '\n'))
              && name[..2] == "IC" && IsCalendarDate(name[2..8]) && IsLetter(name[8])
  {
    if |name| < 9 then FullMatchWithDollar(name, IceCubePattern)
    else
      var head := name[..9];
      assert head[..2] == name[..2] && head[2..8] == name[2..8] && head[8] == name[8];
      assert |name| == 9 ==> head == name;
      IceCubeNameParts(head);
      FullMatchWithDollar(name, IceCubePattern)
  }

  /** Days in month `month` of the two-digit year `yy`: February has 29 days
      exactly when yy is a multiple of four (00 included). */
  function DaysInMonth(month: nat, yy: nat): (n: nat)
    ensures n <= 31
  {
    if month in {1, 3, 5, 7, 8, 10, 12} then 31
    else if month in {4, 6, 9, 11} then 30
    else if month == 2 then (if yy % 4 == 0 then 29 else 28)
    else 0
  }

  /** YYMMDD as six digits naming a calendar date under the two-digit leap rule. */
  predicate IsCalendarDate(d: string) {
    && |d| == 6 && AllDigits(d)
    && var yy, mm, dd := TwoDigits(d[0], d[1]), TwoDigits(d[2], d[3]), TwoDigits(d[4], d[5]);
       1 <= mm <= 12 && 1 <= dd <= DaysInMonth(mm, yy)
  }

  /** The leap-year digit pattern is exactly divisibility of YY by four. */
  lemma LeapYearDigitsIsDivisibleByFour(y0: char, y1: char)
    requires IsDigit(y0) && IsDigit(y1)
    ensures LeapYearDigits(y0, y1) <==> TwoDigits(y0, y1) % 4 == 0
  {
    var t, u := DigitValue(y0), DigitValue(y1);
    assert TwoDigits(y0, y1) % 4 == (2 * t + u) % 4;
    assert y0 in "02468" <==> t % 2 == 0;
    assert y1 in "048" <==> u in {0, 4, 8};
    assert y1 in "26" <==> u in {2, 6};
  }

  /** The month and day part of the pattern outside the leap-day branch
      accepts exactly the valid month/day pairs other than 29 February. */
  lemma MonthDayPatterns(m0: char, m1: char, d0: char, d1: char)
    requires IsDigit(m0) && IsDigit(m1) && IsDigit(d0) && IsDigit(d1)
    ensures (LongMonthDay(m0, m1, d0, d1) || ThirtyDayMonthDay(m0, m1, d0, d1) || FebruaryDay(m0, m1, d0, d1))
            <==> (var mm, dd := TwoDigits(m0, m1), TwoDigits(d0, d1);
                  1 <= mm <= 12 && 1 <= dd <= DaysInMonth(mm, 1) && !(mm == 2 && dd == 29))
  {
    var mm, dd := TwoDigits(m0, m1), TwoDigits(d0, d1);
    assert m1 in "13578" <==> DigitValue(m1) in {1, 3, 5, 7, 8};
    assert m1 in "13456789" <==> DigitValue(m1) in {1, 3, 4, 5, 6, 7, 8, 9};
    assert m1 in "02" <==> DigitValue(m1) in {0, 2};
    assert m1 in "012" <==> DigitValue(m1) in {0, 1, 2};
    assert d0 in "12" <==> DigitValue(d0) in {1, 2};
    assert d1 in "123456789" <==> DigitValue(d1) != 0;
    assert d1 in "01" <==> DigitValue(d1) in {0, 1};
    assert d1 in "012345678" <==> DigitValue(d1) != 9;
  }

  /** The date part of the IceCube pattern accepts exactly the calendar dates
      YYMMDD, with 29 February exactly in the years divisible by four. */
  lemma IceCubeDateIsCalendarDate(d: string)
    requires |d| == 6
    ensures IceCubeDatePattern(d) <==> IsCalendarDate(d)
  {
    if IceCubeDatePattern(d) {
      DatePatternIsDigits(d);
    }
    if AllDigits(d) {
      LeapYearDigitsIsDivisibleByFour(d[0], d[1]);
      MonthDayPatterns(d[2], d[3], d[4], d[5]);
      assert d[2..] == "0229" <==> (d[2] == '0' && d[3] == '2' && d[4] == '2' && d[5] == '9');
    }
  }

  /** Whatever the date pattern accepts is six digits. */
  lemma DatePatternIsDigits(d: string)
    requires |d| == 6 && IceCubeDatePattern(d)
    ensures AllDigits(d)
  {
    if LeapYearDigits(d[0], d[1]) && d[2..] == "0229" {
      assert d[2] == d[2..][0] && d[3] == d[2..][1] && d[4] == d[2..][2] && d[5] == d[2..][3];
    }
  }

  /** An IceCube name is "IC", a calendar date YYMMDD and one ASCII letter. */
  lemma IceCubeNameParts(s: string)
    ensures IceCubePattern(s) <==>
              |s| == 9 && s[..2] == "IC" && IsCalendarDate(s[2..8]) && IsLetter(s[8])
  {
    if |s| == 9 {
      IceCubeDateIsCalendarDate(s[2..8]);
    }
  }

  /** "IC" + a calendar date + a letter is an IceCube name. */
  lemma AcceptsDate(s: string)
    requires |s| == 9 && s[..2] == "IC" && IsCalendarDate(s[2..8]) && IsLetter(s[8])
    ensures IsIcecubeName(s)
  {
    IceCubeNameParts(s);
  }

  /** The IceCube names the repository's tests use are recognised. */
  lemma TestIceCubeNamesRecognised()
    ensures IsIcecubeName("IC220624A") && IsIcecubeName("IC220501A")
  {
    var a, b := "IC220624A", "IC220501A";
    assert a[2..8] == "220624" && a[..2] == "IC";
    assert a[2] == '2' && a[3] == '2' && a[4] == '0' && a[5] == '6' && a[6] == '2' && a[7] == '4';
    AcceptsDate(a);
    assert b[2..8] == "220501" && b[..2] == "IC";
    assert b[2] == '2' && b[3] == '2' && b[4] == '0' && b[5] == '5' && b[6] == '0' && b[7] == '1';
    AcceptsDate(b);
  }

  /** The example of the docstring, IC201021B, is recognised. */
  lemma DocstringNameRecognised()
    ensures IsIcecubeName("IC201021B")
  {
    var c := "IC201021B";
    assert c[2..8] == "201021" && c[..2] == "IC";
    assert c[2] == '2' && c[3] == '0' && c[4] == '1' && c[5] == '0' && c[6] == '2' && c[7] == '1';
    AcceptsDate(c);
  }

  /** The ZTF name the repository's tests use is recognised. */
  lemma TestZtfNameRecognised()
    ensures IsZtfName("ZTF19accdntg")
  {
    var z := "ZTF19accdntg";
    assert z[..3] == "ZTF" && z[3] == '1' && z[4] == '9';
    assert z[5] == 'a' && z[6] == 'c' && z[7] == 'c' && z[8] == 'd' && z[9] == 'n' && z[10] == 't' && z[11] == 'g';
    assert ZtfPattern(z);
  }

  /** A name with a six-digit date part is rejected when that date is not a
      calendar date. */
  lemma RejectsNonDate(s: string)
    requires |s| == 9 && AllDigits(s[2..8]) && !IsCalendarDate(s[2..8])
    ensures !IsIcecubeName(s)
  {
    IceCubeNameParts(s);
  }

  /** 29 February is accepted in 2000 and 2024 and rejected in 2023. */
  lemma LeapDayExamples()
    ensures IsIcecubeName("IC000229A") && IsIcecubeName("IC240229a")
    ensures !IsIcecubeName("IC230229A")
  {
    var a, b := "IC000229A", "IC240229a";
    assert a[2..8] == "000229" && a[..2] == "IC";
    assert a[2] == '0' && a[3] == '0' && a[4] == '0' && a[5] == '2' && a[6] == '2' && a[7] == '9';
    AcceptsDate(a);
    assert b[2..8] == "240229" && b[..2] == "IC";
    assert b[2] == '2' && b[3] == '4' && b[4] == '0' && b[5] == '2' && b[6] == '2' && b[7] == '9';
    AcceptsDate(b);
    var s := "IC230229A";
    var d := s[2..8];
    assert d == "230229";
    assert d[0] == '2' && d[1] == '3' && d[2] == '0' && d[3] == '2' && d[4] == '2' && d[5] == '9';
    RejectsNonDate(s);
  }

  /** Month 00, month 13 and day 00 are rejected. */
  lemma InvalidDateExamples()
    ensures !IsIcecubeName("IC220001A") && !IsIcecubeName("IC221301A") && !IsIcecubeName("IC220100A")
  {
    var s1, s2, s3 := "IC220001A", "IC221301A", "IC220100A";
    assert s1[2..8] == "220001" && s1[2..8][2] == '0' && s1[2..8][3] == '0';
    assert s2[2..8] == "221301" && s2[2..8][2] == '1' && s2[2..8][3] == '3';
    assert s3[2..8] == "220100" && s3[2..8][4] == '0' && s3[2..8][5] == '0';
    RejectsNonDate(s1);
    RejectsNonDate(s2);
    RejectsNonDate(s3);
  }

  // --------------------------------------------------------------- short_time

  /** short_time: str(time)[:-4], dropping the fractional seconds ".sss" of an
      ISO time string; the result is a prefix four characters shorter, or empty. */
  function ShortTime(time: string): (r: string)
    ensures |r| == (if |time| <= 4 then 0 else |time| - 4)
    ensures r == time[..|r|]
  {
    DropLast(time, 4)
  }
}
