/** Calendar dates as the core uses them: `Date.parse` of a `YYYY-MM-DD ...` text,
    `strftime('%Y-%m-%d')`, `strftime('%d/%m')`, `Date.current + 1.day` and `>=`. */
module Dates {
  import opened Optional
  import opened Text

  datatype Date = Date(year: int, month: int, day: int)

  predicate IsLeap(y: int) {
    (y % 4 == 0 && y % 100 != 0) || y % 400 == 0
  }

  function DaysInMonth(y: int, m: int): int
    requires 1 <= m <= 12
  {
    if m == 2 then (if IsLeap(y) then 29 else 28)
    else if m == 4 || m == 6 || m == 9 || m == 11 then 30
    else 31
  }

  predicate Valid(d: Date) {
    1 <= d.month <= 12 && 1 <= d.day <= DaysInMonth(d.year, d.month)
  }

  /** A date the clock can give (`Date.current`). */
  type CalendarDate = d: Date | Valid(d) witness Date(1970, 1, 1)

  /** Chronological order. */
  predicate Before(a: Date, b: Date) {
    a.year < b.year
    || (a.year == b.year && a.month < b.month)
    || (a.year == b.year && a.month == b.month && a.day < b.day)
  }

  /** `d + 1.day`. */
  function Succ(d: Date): (e: Date)
    requires Valid(d)
    ensures Valid(e) && Before(d, e)
  {
    if d.day < DaysInMonth(d.year, d.month) then Date(d.year, d.month, d.day + 1)
    else if d.month < 12 then Date(d.year, d.month + 1, 1)
    else Date(d.year + 1, 1, 1)
  }

  /** No valid date lies strictly between a date and its successor, so
      "on or after tomorrow" is "after today". */
  lemma OnOrAfterTomorrow(today: Date, e: Date)
    requires Valid(today) && Valid(e)
    ensures !Before(e, Succ(today)) <==> Before(today, e)
  {
  }

  function Digits2(n: int): (s: string)
    requires 0 <= n < 100
    ensures |s| == 2 && IsDigit(s[0]) && IsDigit(s[1])
    ensures 10 * DigitValue(s[0]) + DigitValue(s[1]) == n
  {
    [DigitChar(n / 10), DigitChar(n % 10)]
  }

  function Digits4(n: int): (s: string)
    requires 0 <= n < 10000
    ensures |s| == 4 && forall i :: 0 <= i < 4 ==> IsDigit(s[i])
    ensures 100 * (10 * DigitValue(s[0]) + DigitValue(s[1])) + (10 * DigitValue(s[2]) + DigitValue(s[3])) == n
  {
    Digits2(n / 100) + Digits2(n % 100)
  }

  /** `strftime('%Y-%m-%d')` for years with four digits. */
  function FormatYmd(d: Date): (s: string)
    requires Valid(d) && 0 <= d.year < 10000
    ensures |s| == 10
  {
    Digits4(d.year) + "-" + Digits2(d.month) + "-" + Digits2(d.day)
  }

  /** `strftime('%d/%m')`. */
  function FormatDayMonth(d: Date): (s: string)
    requires Valid(d)
    ensures |s| == 5 && s[2] == '/'
  {
    Digits2(d.day) + "/" + Digits2(d.month)
  }

  function Number2(s: string, i: nat): int
    requires i + 2 <= |s| && IsDigit(s[i]) && IsDigit(s[i + 1])
  {
    10 * DigitValue(s[i]) + DigitValue(s[i + 1])
  }

  /** The text has the shape `DDDD-DD-DD` followed by nothing or a non-digit. */
  predicate YmdShape(s: string) {
    |s| >= 10
    && IsDigit(s[0]) && IsDigit(s[1]) && IsDigit(s[2]) && IsDigit(s[3])
    && s[4] == '-' && IsDigit(s[5]) && IsDigit(s[6])
    && s[7] == '-' && IsDigit(s[8]) && IsDigit(s[9])
    && (|s| == 10 || !IsDigit(s[10]))
  }

  /** `Date.parse` on a text that starts with an ISO date: the date, or None where
      Ruby raises `Date::Error` (an impossible day such as 2024-02-30, or a text
      without that shape). */
  function ParseYmd(s: string): (r: Option<Date>)
    ensures r.Some? ==> Valid(r.value) && 0 <= r.value.year < 10000
  {
    if !YmdShape(s) then None
    else
      var d := Date(100 * Number2(s, 0) + Number2(s, 2), Number2(s, 5), Number2(s, 8));
      if Valid(d) then Some(d) else None
  }

  /** Parsing a formatted date gives the date back, with or without a time after it. */
  lemma ParseFormat(d: Date, rest: string)
    requires Valid(d) && 0 <= d.year < 10000
    requires rest == [] || !IsDigit(rest[0])
    ensures ParseYmd(FormatYmd(d) + rest) == Some(d)
  {
    var s := FormatYmd(d) + rest;
    var y := Digits4(d.year);
    assert s[..4] == y;
    assert s[5..7] == Digits2(d.month);
    assert s[8..10] == Digits2(d.day);
    assert YmdShape(s);
  }

  /** Formatting a parsed date gives back the text's first ten characters, so grouping
      by the formatted date is grouping by the `YYYY-MM-DD` prefix. */
  lemma FormatParse(s: string)
    requires ParseYmd(s).Some?
    ensures FormatYmd(ParseYmd(s).value) == s[..10]
  {
    var d := ParseYmd(s).value;
    var f := FormatYmd(d);
    var y := Digits4(d.year);
    CenturySplit(Number2(y, 0), Number2(y, 2), Number2(s, 0), Number2(s, 2));
    assert forall i :: 0 <= i < 10 ==> f[i] == s[i] by {
      DigitsAgree(y, s, 0);
      DigitsAgree(y, s, 2);
      DigitsAgree(Digits2(d.month), s[5..7], 0);
      DigitsAgree(Digits2(d.day), s[8..10], 0);
    }
  }

  /** A year written as two two-digit halves has one such writing. */
  lemma CenturySplit(a: int, b: int, c: int, e: int)
    requires 0 <= b < 100 && 0 <= e < 100
    requires 100 * a + b == 100 * c + e
    ensures a == c && b == e
  {
  }

  /** Two two-digit numbers agree only when their digits do. */
  lemma DigitsAgree(a: string, b: string, i: nat)
    requires i + 2 <= |a| && i + 2 <= |b|
    requires IsDigit(a[i]) && IsDigit(a[i + 1]) && IsDigit(b[i]) && IsDigit(b[i + 1])
    requires Number2(a, i) == Number2(b, i)
    ensures a[i] == b[i] && a[i + 1] == b[i + 1]
  {
    assert DigitChar(DigitValue(a[i])) == a[i] && DigitChar(DigitValue(b[i])) == b[i];
    assert DigitChar(DigitValue(a[i + 1])) == a[i + 1] && DigitChar(DigitValue(b[i + 1])) == b[i + 1];
  }
}
