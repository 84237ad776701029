/** The few pieces of Python string behaviour the modelled code relies on:
    slicing with a bound that may fall outside the string, str() of a
    non-negative int, and str.join. */
module Text {

  /** Python's s[:n] for n >= 0: the whole string when it is shorter than n. */
  function Take(s: string, n: nat): (r: string)
    ensures |r| == (if |s| <= n then |s| else n)
    ensures r == s[..|r|]
  {
    if |s| <= n then s else s[..n]
  }

  /** Python's s[:-n] for n >= 1: the empty string when s has at most n characters. */
  function DropLast(s: string, n: nat): (r: string)
    requires n >= 1
    ensures |r| == (if |s| <= n then 0 else |s| - n)
    ensures r == s[..|r|]
  {
    if |s| <= n then "" else s[..|s| - n]
  }

  predicate IsDigit(c: char) {
    '0' <= c <= '9'
  }

  predicate AllDigits(s: string) {
    forall i :: 0 <= i < |s| ==> IsDigit(s[i])
  }

  function DigitChar(d: nat): (c: char)
    requires d < 10
    ensures IsDigit(c) && c as int - '0' as int == d
  {
    ('0' as int + d) as char
  }

  /** str(n) for a non-negative int: decimal digits, no leading zero. */
  function NatToString(n: nat): (s: string)
    ensures |s| >= 1 && AllDigits(s)
    ensures s[0] == '0' <==> n == 0
  {
    if n < 10 then [DigitChar(n)] else NatToString(n / 10) + [DigitChar(n % 10)]
  }

  /** The number a string of decimal digits denotes (int(s) on such a string). */
  function DigitsValue(s: string): nat
    requires AllDigits(s)
  {
    if s == [] then 0
    else DigitsValue(s[..|s| - 1]) * 10 + (s[|s| - 1] as int - '0' as int)
  }

  /** Reading back str(n) gives n. */
  lemma {:induction false} NatToStringRoundTrip(n: nat)
    ensures DigitsValue(NatToString(n)) == n
  {
    if n >= 10 {
      var s := NatToString(n);
      assert s[..|s| - 1] == NatToString(n / 10);
      NatToStringRoundTrip(n / 10);
    }
  }

  /** Distinct numbers have distinct decimal strings. */
  lemma NatToStringInjective(m: nat, n: nat)
    requires NatToString(m) == NatToString(n)
    ensures m == n
  {
    NatToStringRoundTrip(m);
    NatToStringRoundTrip(n);
  }

  /** sep.join(parts) */
  function Join(parts: seq<string>, sep: string): (r: string)
  {
    if parts == [] then ""
    else if |parts| == 1 then parts[0]
    else Join(parts[..|parts| - 1], sep) + sep + parts[|parts| - 1]
  }

  /** The concatenation of every part followed by sep, as a loop that appends
      `part + sep` builds it. */
  function ConcatEach(parts: seq<string>, sep: string): (r: string)
  {
    if parts == [] then "" else ConcatEach(parts[..|parts| - 1], sep) + parts[|parts| - 1] + sep
  }

  /** Appending a one-character separator after each part and then dropping the
      last character is the same as joining with that separator. */
  lemma {:induction false} ConcatEachThenDropIsJoin(parts: seq<string>, sep: string)
    requires |sep| == 1
    ensures DropLast(ConcatEach(parts, sep), 1) == Join(parts, sep)
  {
    if |parts| >= 2 {
      var init := parts[..|parts| - 1];
      ConcatEachThenDropIsJoin(init, sep);
      var c := ConcatEach(init, sep);
      assert |c| >= 1 by { assert init != []; }
      assert c == DropLast(c, 1) + sep;
    } else if |parts| == 1 {
      assert parts[..0] == [];
    }
  }
}
