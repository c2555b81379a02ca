/**
 * The publication date: `datetime.strptime(text, "%B %d, %Y").date()`
 * followed by `.isoformat()`, over ASCII text in the C locale.
 */
module Dates {
  import opened Wrappers
  import opened Text

  datatype Date = Date(year: int, month: int, day: int)

  const MONTH_NAMES: seq<string> := [
    "January", "February", "March", "April", "May", "June",
    "July", "August", "September", "October", "November", "December"]

  predicate IsLeapYear(year: int) {
    year % 4 == 0 && (year % 100 != 0 || year % 400 == 0)
  }

  function DaysInMonth(year: int, month: int): int
    requires 1 <= month <= 12
  {
    if month == 2 then (if IsLeapYear(year) then 29 else 28)
    else if month == 4 || month == 6 || month == 9 || month == 11 then 30
    else 31
  }

  /** A date Python's `datetime.date` accepts (years 1 to 9999). */
  predicate ValidDate(d: Date) {
    1 <= d.year <= 9999 && 1 <= d.month <= 12 && 1 <= d.day <= DaysInMonth(d.year, d.month)
  }

  function LowerAscii(c: char): char {
    if 'A' <= c <= 'Z' then (c as int + 32) as char else c
  }

  /**
   * The ASCII characters the `\s` of strptime's pattern matches: space, tab,
   * newline, carriage return, vertical tab, form feed, and the separators
   * 0x1C-0x1F that Python's `str.isspace` also counts.
   */
  predicate IsSpace(c: char) {
    c == ' ' || c == '\t' || c == '\n' || c == '\r' || c as int == 11 || c as int == 12 || 28 <= c as int <= 31
  }

  /** `name` is a case-insensitive prefix of `text` (the `%B` directive matches ignoring case). */
  predicate StartsWithIgnoringCase(name: string, text: string) {
    |name| <= |text| && forall i :: 0 <= i < |name| ==> LowerAscii(name[i]) == LowerAscii(text[i])
  }

  /** The first month, from `month` on, whose full name begins `text`. */
  function MatchMonth(text: string, month: int): (r: Option<int>)
    requires 1 <= month <= 13
    ensures r.Some? ==> month <= r.value <= 12 && StartsWithIgnoringCase(MONTH_NAMES[r.value - 1], text)
    decreases 13 - month
  {
    if month == 13 then None
    else if StartsWithIgnoringCase(MONTH_NAMES[month - 1], text) then Some(month)
    else MatchMonth(text, month + 1)
  }

  /** The number of whitespace characters at the head of `s`. */
  function LeadingSpaces(s: string): (n: nat)
    ensures n <= |s|
  {
    if s != [] && IsSpace(s[0]) then 1 + LeadingSpaces(s[1..]) else 0
  }

  /** The position of the first `c` in `s`. */
  function IndexOf(s: string, c: char): (r: Option<nat>)
    ensures r.Some? ==> r.value < |s| && s[r.value] == c && c !in s[..r.value]
    ensures r.None? ==> c !in s
  {
    if s == [] then None
    else if s[0] == c then Some(0)
    else match IndexOf(s[1..], c)
      case None => None
      case Some(i) => assert s[..i + 1] == [s[0]] + s[1..][..i]; Some(i + 1)
  }

  /** What strptime's `%d` accepts: one or two digits denoting 1 to 31. */
  predicate IsDayField(t: string) {
    1 <= |t| <= 2 && AllDigits(t) && 1 <= DigitsValue(t) <= 31
  }

  /**
   * `datetime.strptime(text, "%B %d, %Y").date()`: a month name, whitespace,
   * the day, a comma, whitespace, exactly four year digits and nothing more;
   * then the calendar check of `datetime.date`. `None` where strptime raises
   * `ValueError`.
   */
  function ParseLongDate(text: string): (r: Option<Date>)
    ensures r.Some? ==> ValidDate(r.value)
  {
    match MatchMonth(text, 1)
    case None => None
    case Some(month) => ParseDayAndYear(month, text[|MONTH_NAMES[month - 1]|..])
  }

  /** The part of `ParseLongDate` after the month name: " %d, %Y". */
  function ParseDayAndYear(month: int, s: string): (r: Option<Date>)
    requires 1 <= month <= 12
    ensures r.Some? ==> ValidDate(r.value) && r.value.month == month
  {
    var gap := LeadingSpaces(s);
    var afterGap := s[gap..];
    match IndexOf(afterGap, ',')
    case None => None
    case Some(comma) =>
      if gap == 0 then None else CheckDate(month, afterGap[..comma], afterGap[comma + 1..])
  }

  /** The day field, then ", %Y" to the end, then the calendar check. */
  function CheckDate(month: int, dayText: string, afterComma: string): (r: Option<Date>)
    requires 1 <= month <= 12
    ensures r.Some? ==> ValidDate(r.value) && r.value.month == month
  {
    var gap := LeadingSpaces(afterComma);
    var yearText := afterComma[gap..];
    if gap == 0 || !IsDayField(dayText) || |yearText| != 4 || !AllDigits(yearText) then None
    else
      var d := Date(DigitsValue(yearText), month, DigitsValue(dayText));
      if ValidDate(d) then Some(d) else None
  }

  function Pow10(n: nat): (p: nat)
    ensures p >= 1
  {
    if n == 0 then 1 else 10 * Pow10(n - 1)
  }

  /** `n` in exactly `width` digits with leading zeros (the `%04d`/`%02d` of `isoformat`). */
  function PadDigits(n: nat, width: nat): (s: string)
    ensures |s| == width && AllDigits(s)
  {
    if width == 0 then "" else PadDigits(n / 10, width - 1) + [DigitChar(n % 10)]
  }

  /** `date.isoformat()`: YYYY-MM-DD. */
  function IsoFormat(d: Date): (s: string)
    requires ValidDate(d)
    ensures |s| == 10 && s[4] == '-' && s[7] == '-'
    ensures AllDigits(s[..4]) && AllDigits(s[5..7]) && AllDigits(s[8..])
  {
    PadDigits(d.year, 4) + "-" + PadDigits(d.month, 2) + "-" + PadDigits(d.day, 2)
  }

  /** Reads a YYYY-MM-DD text back (the inverse of `IsoFormat`). */
  function ParseIso(s: string): Option<Date> {
    if |s| == 10 && s[4] == '-' && s[7] == '-' && AllDigits(s[..4]) && AllDigits(s[5..7]) && AllDigits(s[8..]) then
      Some(Date(DigitsValue(s[..4]), DigitsValue(s[5..7]), DigitsValue(s[8..])))
    else
      None
  }

  lemma {:induction false} PadDigitsValue(n: nat, width: nat)
    requires n < Pow10(width)
    ensures DigitsValue(PadDigits(n, width)) == n
  {
    if width > 0 {
      var s := PadDigits(n, width);
      assert s[..|s| - 1] == PadDigits(n / 10, width - 1);
      assert n / 10 < Pow10(width - 1);
      PadDigitsValue(n / 10, width - 1);
    }
  }

  /** The ISO text stored for a date reads back as that date. */
  lemma IsoRoundTrip(d: Date)
    requires ValidDate(d)
    ensures ParseIso(IsoFormat(d)) == Some(d)
  {
    var y, m, dd := PadDigits(d.year, 4), PadDigits(d.month, 2), PadDigits(d.day, 2);
    var s := IsoFormat(d);
    assert s[..4] == y && s[5..7] == m && s[8..] == dd;
    assert Pow10(4) == 10000 && Pow10(2) == 100;
    PadDigitsValue(d.year, 4);
    PadDigitsValue(d.month, 2);
    PadDigitsValue(d.day, 2);
  }

  /** The way the site prints a date: "January 5, 2024". */
  function LongDate(d: Date): string
    requires ValidDate(d)
  {
    MONTH_NAMES[d.month - 1] + " " + NatToString(d.day) + ", " + PadDigits(d.year, 4)
  }

  /** The first three letters of a month's name, lower-cased. */
  function MonthKey(month: int): string
    requires 1 <= month <= 12
  {
    var name := MONTH_NAMES[month - 1];
    [LowerAscii(name[0]), LowerAscii(name[1]), LowerAscii(name[2])]
  }

  /** The month a lower-cased three-letter key belongs to. */
  function MonthOfKey(key: string): int {
    if key == "jan" then 1 else if key == "feb" then 2 else if key == "mar" then 3
    else if key == "apr" then 4 else if key == "may" then 5 else if key == "jun" then 6
    else if key == "jul" then 7 else if key == "aug" then 8 else if key == "sep" then 9
    else if key == "oct" then 10 else if key == "nov" then 11 else 12
  }

  lemma MonthKeyInverse(month: int)
    requires 1 <= month <= 12
    ensures MonthOfKey(MonthKey(month)) == month
  {
    if month <= 6 {
      assert MonthKey(month) == ["jan", "feb", "mar", "apr", "may", "jun"][month - 1];
    } else {
      assert MonthKey(month) == ["jul", "aug", "sep", "oct", "nov", "dec"][month - 7];
    }
  }

  /** No two month names agree, ignoring case, on their first three letters. */
  lemma MonthNamesDiffer(j: int, k: int, text: string)
    requires 1 <= j <= 12 && 1 <= k <= 12 && j != k
    requires StartsWithIgnoringCase(MONTH_NAMES[k - 1], text)
    ensures !StartsWithIgnoringCase(MONTH_NAMES[j - 1], text)
  {
    var a, b := MONTH_NAMES[j - 1], MONTH_NAMES[k - 1];
    assert |a| >= 3 && |b| >= 3;
    if StartsWithIgnoringCase(a, text) {
      var key := [LowerAscii(text[0]), LowerAscii(text[1]), LowerAscii(text[2])];
      assert MonthKey(j) == key && MonthKey(k) == key;
      MonthKeyInverse(j);
      MonthKeyInverse(k);
    }
  }

  lemma {:induction false} MatchMonthFinds(text: string, from: int, month: int)
    requires 1 <= from <= month <= 12
    requires StartsWithIgnoringCase(MONTH_NAMES[month - 1], text)
    ensures MatchMonth(text, from) == Some(month)
    decreases month - from
  {
    if from < month {
      MonthNamesDiffer(from, month, text);
      MatchMonthFinds(text, from + 1, month);
    }
  }

  lemma DigitsHaveNoSpace(s: string, t: string)
    requires |s| >= 1 && AllDigits(s)
    ensures LeadingSpaces(s + t) == 0
  {
  }

  lemma ShortDayText(n: nat)
    requires 1 <= n <= 31
    ensures IsDayField(NatToString(n))
  {
    NatToStringValue(n);
  }

  lemma {:induction false} CheckDateOfLongDate(d: Date)
    requires ValidDate(d)
    ensures CheckDate(d.month, NatToString(d.day), " " + PadDigits(d.year, 4)) == Some(d)
  {
    var year := PadDigits(d.year, 4);
    var afterComma := " " + year;
    assert afterComma[1..] == year;
    DigitsHaveNoSpace(year, "");
    assert year + "" == year;
    assert LeadingSpaces(afterComma) == 1;
    ShortDayText(d.day);
    NatToStringValue(d.day);
    assert Pow10(4) == 10000;
    PadDigitsValue(d.year, 4);
  }

  /** The first comma of a text that starts with digits and then a comma is the one after the digits. */
  lemma CommaAfterDigits(day: string, t: string)
    requires AllDigits(day) && |t| >= 1 && t[0] == ','
    ensures IndexOf(day + t, ',') == Some(|day|)
  {
    var s := day + t;
    assert s[|day|] == ',';
    assert forall j :: 0 <= j < |day| ==> s[j] == day[j] && s[j] != ',';
    assert s[..|day| + 1][|day|] == ',';
  }

  lemma {:induction false} DayAndYearOfLongDate(d: Date)
    requires ValidDate(d)
    ensures ParseDayAndYear(d.month, " " + (NatToString(d.day) + ", " + PadDigits(d.year, 4))) == Some(d)
  {
    var day, year := NatToString(d.day), PadDigits(d.year, 4);
    var s := " " + (day + ", " + year);
    assert s[1..] == day + ", " + year;
    DigitsHaveNoSpace(day, ", " + year);
    assert LeadingSpaces(s) == 1;
    var afterGap := s[1..];
    assert afterGap == day + (", " + year);
    CommaAfterDigits(day, ", " + year);
    assert afterGap[..|day|] == day;
    assert afterGap[|day| + 1..] == " " + year;
    CheckDateOfLongDate(d);
  }

  /** A date printed the way the site prints it parses back to that date. */
  lemma LongDateRoundTrip(d: Date)
    requires ValidDate(d)
    ensures ParseLongDate(LongDate(d)) == Some(d)
  {
    var name := MONTH_NAMES[d.month - 1];
    var rest := " " + (NatToString(d.day) + ", " + PadDigits(d.year, 4));
    var text := LongDate(d);
    assert text == name + rest;
    assert text[..|name|] == name && text[|name|..] == rest;
    MatchMonthFinds(text, 1, d.month);
    DayAndYearOfLongDate(d);
  }
}
