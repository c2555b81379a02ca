/**
 * Text encodings the scraper relies on: Python's `str()` and `int()` on
 * integers (the progress table stores every number as TEXT), and
 * `"\n".join(...)` with its inverse `str.split("\n")`.
 * Only ASCII digits are modelled.
 */
module Text {
  import opened Wrappers

  predicate IsDigit(c: char) {
    '0' <= c <= '9'
  }

  predicate AllDigits(s: string) {
    forall i :: 0 <= i < |s| ==> IsDigit(s[i])
  }

  function DigitChar(d: nat): (c: char)
    requires d < 10
    ensures IsDigit(c)
  {
    ('0' as int + d) as char
  }

  function DigitValue(c: char): (d: nat)
    requires IsDigit(c)
    ensures d < 10
  {
    c as int - '0' as int
  }

  /** The number a string of decimal digits denotes (most significant first). */
  function DigitsValue(s: string): nat
    requires AllDigits(s)
  {
    if s == [] then 0 else 10 * DigitsValue(s[..|s| - 1]) + DigitValue(s[|s| - 1])
  }

  /** Python's `str(n)` for `n >= 0`: digits without leading zeros, "0" for zero. */
  function NatToString(n: nat): (s: string)
    ensures 1 <= |s| && AllDigits(s)
    ensures |s| > 1 ==> s[0] != '0'
  {
    if n < 10 then [DigitChar(n)] else NatToString(n / 10) + [DigitChar(n % 10)]
  }

  /** Python's `str(n)`: a minus sign exactly for negative numbers, then the digits of the magnitude. */
  function IntToString(n: int): (s: string)
    ensures |s| >= 1 && (s[0] == '-' <==> n < 0)
    ensures n < 0 ==> |s| >= 2 && AllDigits(s[1..])
    ensures n >= 0 ==> AllDigits(s)
  {
    if n < 0 then "-" + NatToString(-n) else NatToString(n)
  }

  /** Python's `int(s)` on an optional sign followed by decimal digits; `None` where `int` raises. */
  function ParseInt(s: string): (r: Option<int>)
    ensures r.Some? <==>
      (|s| >= 1 && AllDigits(s)) || (|s| >= 2 && (s[0] == '-' || s[0] == '+') && AllDigits(s[1..]))
    ensures r.Some? && r.value < 0 ==> s[0] == '-'
  {
    if |s| >= 2 && (s[0] == '-' || s[0] == '+') && AllDigits(s[1..]) then
      var magnitude: int := DigitsValue(s[1..]);
      Some(if s[0] == '-' then -magnitude else magnitude)
    else if |s| >= 1 && AllDigits(s) then
      Some(DigitsValue(s))
    else
      None
  }

  lemma {:induction false} NatToStringValue(n: nat)
    ensures DigitsValue(NatToString(n)) == n
  {
    if n >= 10 {
      var s := NatToString(n);
      assert s[..|s| - 1] == NatToString(n / 10);
      NatToStringValue(n / 10);
    }
  }

  /** `int(str(n)) == n`: a number written to the progress table reads back unchanged. */
  lemma ParseIntRoundTrip(n: int)
    ensures ParseInt(IntToString(n)) == Some(n)
  {
    var s := IntToString(n);
    if n < 0 {
      var digits := NatToString(-n);
      assert s == "-" + digits && s[1..] == digits;
      assert |s| >= 2 && s[0] == '-' && AllDigits(s[1..]);
      NatToStringValue(-n);
    } else {
      assert s == NatToString(n) && IsDigit(s[0]);
      NatToStringValue(n);
    }
  }

  /** Python's `"\n".join(ps)`. */
  function JoinLines(ps: seq<string>): string {
    if ps == [] then ""
    else if |ps| == 1 then ps[0]
    else ps[0] + "\n" + JoinLines(ps[1..])
  }

  /** Python's `s.split("\n")`: always at least one part; "" gives [""]. */
  function SplitLines(s: string): (parts: seq<string>)
    ensures |parts| >= 1
  {
    if s == [] then [""]
    else
      var rest := SplitLines(s[1..]);
      if s[0] == '\n' then [""] + rest
      else [[s[0]] + rest[0]] + rest[1..]
  }

  predicate NoNewline(p: string) {
    '\n' !in p
  }

  predicate NoNewlines(ps: seq<string>) {
    forall i :: 0 <= i < |ps| ==> NoNewline(ps[i])
  }

  lemma {:induction false} SplitLinesSingle(p: string, t: string)
    requires NoNewline(p)
    ensures SplitLines(p + t) == [p + SplitLines(t)[0]] + SplitLines(t)[1..]
  {
    var tail := SplitLines(t);
    if p == [] {
      assert p + t == t;
      assert p + tail[0] == tail[0];
      assert tail == [tail[0]] + tail[1..];
    } else {
      assert (p + t)[0] == p[0] && (p + t)[1..] == p[1..] + t;
      SplitLinesSingle(p[1..], t);
      assert [p[0]] + (p[1..] + tail[0]) == p + tail[0];
    }
  }

  /**
   * Splitting a newline-joined list gives the list back, provided it is not
   * empty and no element holds a newline of its own.
   */
  lemma {:induction false} SplitJoinLines(ps: seq<string>)
    requires |ps| >= 1
    requires NoNewlines(ps)
    ensures SplitLines(JoinLines(ps)) == ps
  {
    if |ps| == 1 {
      SplitLinesSingle(ps[0], "");
      assert ps[0] + "" == ps[0];
    } else {
      var t := JoinLines(ps[1..]);
      SplitJoinLines(ps[1..]);
      assert SplitLines("\n" + t) == [""] + ps[1..];
      assert ps[0] + "\n" + t == ps[0] + ("\n" + t);
      SplitLinesSingle(ps[0], "\n" + t);
      assert ps[0] + "" == ps[0];
      assert ps == [ps[0]] + ps[1..];
    }
  }
}
