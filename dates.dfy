/**
 * Calendar dates as `datetime.strptime(s, '%Y-%m-%d')` reads them, and
 * the order `datetime` compares them by. CPython's `_strptime` turns the
 * format into the regular expression
 *   (?P<Y>\d\d\d\d)-(?P<m>1[0-2]|0[1-9]|[1-9])-(?P<d>3[01]|[12]\d|0[1-9]|[1-9]| [1-9])
 * matches it at the start of the text, rejects any unconverted text left
 * over, and then builds the date, which fails for year 0 and for a day past
 * the end of the month. Any of these failures is a `ValueError`, here `None`.
 */
module Dates {
  import opened Wrappers

  datatype Date = Date(year: int, month: int, day: int)

  predicate IsLeapYear(y: int) {
    y % 4 == 0 && (y % 100 != 0 || y % 400 == 0)
  }

  function DaysInYear(y: int): int {
    if IsLeapYear(y) then 366 else 365
  }

  function DaysInMonth(y: int, m: int): (n: int)
    requires 1 <= m <= 12
    ensures 28 <= n <= 31
  {
    if m == 2 then (if IsLeapYear(y) then 29 else 28)
    else if m == 4 || m == 6 || m == 9 || m == 11 then 30
    else 31
  }

  /** The dates `datetime.date` can represent (years 1 through 9999). */
  predicate IsValidDate(d: Date) {
    1 <= d.year <= 9999 && 1 <= d.month <= 12 && 1 <= d.day <= DaysInMonth(d.year, d.month)
  }

  predicate IsDigit(c: char) {
    '0' <= c <= '9'
  }

  /** An ASCII digit other than 0. */
  predicate IsNonZeroDigit(c: char) {
    '1' <= c <= '9'
  }

  function Digit(c: char): (v: int)
    requires IsDigit(c)
    ensures 0 <= v <= 9
  {
    c as int - '0' as int
  }

  /** A matched number and the count of characters it took. */
  datatype Field = Field(value: int, width: nat)

  /**
   * The `%m` group followed by the literal '-': `1[0-2]` or `0[1-9]`, and
   * on backtracking `[1-9]`. The '-' must follow whichever alternative is
   * taken, so at most one of the two widths succeeds.
   */
  function MonthField(r: string): (f: Option<Field>)
    ensures f.Some? ==> 1 <= f.value.value <= 12 && 1 <= f.value.width <= 2
    ensures f.Some? ==> f.value.width < |r| && r[f.value.width] == '-'
  {
    if |r| >= 3 && r[2] == '-' &&
       ((r[0] == '1' && '0' <= r[1] <= '2') || (r[0] == '0' && IsNonZeroDigit(r[1])))
    then Some(Field(10 * Digit(r[0]) + Digit(r[1]), 2))
    else if |r| >= 2 && r[1] == '-' && IsNonZeroDigit(r[0])
    then Some(Field(Digit(r[0]), 1))
    else None
  }

  /**
   * The `%d` group, which must take all of `t`: `3[01]`, `[12]\d`, `0[1-9]`,
   * `[1-9]` or a space then `[1-9]`. Whichever alternative the expression
   * takes first, text it leaves over is "unconverted data".
   */
  function DayField(t: string): (d: Option<int>)
    ensures d.Some? ==> 1 <= d.value <= 31
  {
    if |t| == 2 &&
       ((t[0] == '3' && (t[1] == '0' || t[1] == '1')) ||
        ((t[0] == '1' || t[0] == '2') && IsDigit(t[1])) ||
        (t[0] == '0' && IsNonZeroDigit(t[1])))
    then Some(10 * Digit(t[0]) + Digit(t[1]))
    else if |t| == 2 && t[0] == ' ' && IsNonZeroDigit(t[1])
    then Some(Digit(t[1]))
    else if |t| == 1 && IsNonZeroDigit(t[0])
    then Some(Digit(t[0]))
    else None
  }

  /** `datetime.strptime(s, '%Y-%m-%d')`, with `None` for its `ValueError`. */
  function ParseDate(s: string): (r: Option<Date>)
    ensures r.Some? ==> IsValidDate(r.value)
  {
    if |s| < 5 || !IsDigit(s[0]) || !IsDigit(s[1]) || !IsDigit(s[2]) || !IsDigit(s[3]) || s[4] != '-'
    then None
    else
      var year := 1000 * Digit(s[0]) + 100 * Digit(s[1]) + 10 * Digit(s[2]) + Digit(s[3]);
      var rest := s[5..];
      match MonthField(rest)
      case None => None
      case Some(m) =>
        match DayField(rest[m.width + 1..])
        case None => None
        case Some(day) =>
          var d := Date(year, m.value, day);
          if IsValidDate(d) then Some(d) else None
  }

  function DigitChar(k: int): (c: char)
    requires 0 <= k <= 9
    ensures IsDigit(c) && Digit(c) == k
  {
    ('0' as int + k) as char
  }

  /** `date.isoformat()`: four-digit year, two-digit month and day. */
  function FormatDate(d: Date): (s: string)
    requires IsValidDate(d)
    ensures |s| == 10 && s[4] == '-' && s[7] == '-'
  {
    [DigitChar(d.year / 1000), DigitChar(d.year / 100 % 10), DigitChar(d.year / 10 % 10), DigitChar(d.year % 10),
     '-', DigitChar(d.month / 10), DigitChar(d.month % 10),
     '-', DigitChar(d.day / 10), DigitChar(d.day % 10)]
  }

  lemma FourDigits(y: int)
    requires 0 <= y <= 9999
    ensures 1000 * (y / 1000) + 100 * (y / 100 % 10) + 10 * (y / 10 % 10) + y % 10 == y
  {
    var a, b, c, e := y / 1000, y / 100 % 10, y / 10 % 10, y % 10;
    assert y / 100 == 10 * a + b;
    assert y / 10 == 10 * (y / 100) + c;
    assert y == 10 * (y / 10) + e;
  }

  /** Every representable date survives formatting and parsing. */
  lemma ParseFormat(d: Date)
    requires IsValidDate(d)
    ensures ParseDate(FormatDate(d)) == Some(d)
  {
    var s := FormatDate(d);
    FourDigits(d.year);
    assert 1000 * Digit(s[0]) + 100 * Digit(s[1]) + 10 * Digit(s[2]) + Digit(s[3]) == d.year;
    var rest := s[5..];
    assert rest == s[5..7] + ['-'] + s[8..];
    assert MonthField(rest) == Some(Field(d.month, 2));
    assert rest[3..] == s[8..];
    assert DayField(s[8..]) == Some(d.day);
  }

  /** Lexicographic order on (year, month, day), as `datetime` compares. */
  predicate DateLe(a: Date, b: Date) {
    a.year < b.year ||
    (a.year == b.year && (a.month < b.month || (a.month == b.month && a.day <= b.day)))
  }

  /** Days before 1 January of year `y`, counted from 1 January of year 1. */
  function DaysBeforeYear(y: int): int
    requires y >= 1
  {
    var p := y - 1;
    365 * p + p / 4 - p / 100 + p / 400
  }

  /** Days in year `y` before the first of month `m`. */
  function DaysBeforeMonth(y: int, m: int): (n: int)
    requires 1 <= m <= 12
    ensures 0 <= n <= 335
  {
    var table := [0, 31, 59, 90, 120, 151, 181, 212, 243, 273, 304, 334];
    table[m - 1] + (if m > 2 && IsLeapYear(y) then 1 else 0)
  }

  /** The proleptic Gregorian ordinal, 1 January of year 1 being day 1 (`date.toordinal()`). */
  function Ordinal(d: Date): int
    requires IsValidDate(d)
  {
    DaysBeforeYear(d.year) + DaysBeforeMonth(d.year, d.month) + d.day
  }

  /** Stepping from `p` to `p + 1` raises the quotient by one exactly at a multiple of `n`. */
  lemma QuotientStep(p: int, n: int)
    requires p >= 0 && (n == 4 || n == 100 || n == 400)
    ensures (p + 1) / n == p / n + (if (p + 1) % n == 0 then 1 else 0)
  {
    if n == 4 {
      assert (p + 1) / 4 == p / 4 + (if (p + 1) % 4 == 0 then 1 else 0);
    } else if n == 100 {
      assert (p + 1) / 100 == p / 100 + (if (p + 1) % 100 == 0 then 1 else 0);
    } else {
      assert (p + 1) / 400 == p / 400 + (if (p + 1) % 400 == 0 then 1 else 0);
    }
  }

  /** Centuries are multiples of 4, and multiples of 400 are centuries. */
  lemma MultiplesNest(y: int)
    ensures y % 100 == 0 ==> y % 4 == 0
    ensures y % 400 == 0 ==> y % 100 == 0
  {
    if y % 100 == 0 {
      var k := y / 100;
      assert y == 4 * (25 * k);
    }
    if y % 400 == 0 {
      var k := y / 400;
      assert y == 100 * (4 * k);
    }
  }

  lemma DaysBeforeNextYear(y: int)
    requires y >= 1
    ensures DaysBeforeYear(y + 1) == DaysBeforeYear(y) + DaysInYear(y)
  {
    var p := y - 1;
    QuotientStep(p, 4);
    QuotientStep(p, 100);
    QuotientStep(p, 400);
    MultiplesNest(y);
    assert DaysBeforeYear(y + 1) == 365 * p + 365 + y / 4 - y / 100 + y / 400;
  }

  /** A whole year (or more) lies between 1 January of `y1` and that of a later `y2`. */
  lemma {:induction false} DaysBeforeLaterYear(y1: int, y2: int)
    requires 1 <= y1 < y2
    ensures DaysBeforeYear(y1) + DaysInYear(y1) <= DaysBeforeYear(y2)
    decreases y2 - y1
  {
    DaysBeforeNextYear(y1);
    if y1 + 1 < y2 {
      DaysBeforeLaterYear(y1 + 1, y2);
    }
  }

  /** A day within month `m1` precedes every day of a later month of the same year. */
  lemma DaysBeforeLaterMonth(y: int, m1: int, m2: int)
    requires 1 <= m1 < m2 <= 12
    ensures DaysBeforeMonth(y, m1) + DaysInMonth(y, m1) <= DaysBeforeMonth(y, m2)
  {
  }

  lemma DayOfYearBound(d: Date)
    requires IsValidDate(d)
    ensures DaysBeforeMonth(d.year, d.month) + d.day <= DaysInYear(d.year)
  {
  }

  lemma OrdinalIncreasing(a: Date, b: Date)
    requires IsValidDate(a) && IsValidDate(b)
    requires DateLe(a, b) && a != b
    ensures Ordinal(a) < Ordinal(b)
  {
    if a.year < b.year {
      DayOfYearBound(a);
      DaysBeforeLaterYear(a.year, b.year);
    } else if a.month < b.month {
      DaysBeforeLaterMonth(a.year, a.month, b.month);
    }
  }

  /**
   * The lexicographic comparison agrees with comparing day counts, so on
   * representable dates it is the order of the calendar.
   */
  lemma DateLeIsCalendarOrder(a: Date, b: Date)
    requires IsValidDate(a) && IsValidDate(b)
    ensures DateLe(a, b) <==> Ordinal(a) <= Ordinal(b)
  {
    if DateLe(a, b) {
      if a != b {
        OrdinalIncreasing(a, b);
      }
    } else {
      OrdinalIncreasing(b, a);
    }
  }

  /** One-digit months and days, and a space-padded day, are accepted too. */
  lemma ShortFieldsAccepted()
    ensures ParseDate("2026-1-5") == Some(Date(2026, 1, 5))
    ensures ParseDate("2026-10- 5") == Some(Date(2026, 10, 5))
    ensures ParseDate("2024-02-29") == Some(Date(2024, 2, 29))
  {
    assert "2026-1-5"[5..] == "1-5";
    assert "1-5"[2..] == "5";
    assert "2026-10- 5"[5..] == "10- 5";
    assert "10- 5"[3..] == " 5";
    assert "2024-02-29"[5..] == "02-29";
    assert "02-29"[3..] == "29";
  }

  /** Text the format does not describe, or a date the calendar lacks, is refused. */
  lemma MalformedRefused()
    ensures ParseDate("not-a-date") == None
    ensures ParseDate("2023-02-29") == None
    ensures ParseDate("0000-01-01") == None
    ensures ParseDate("2026-13-01") == None
    ensures ParseDate("2026-01-011") == None
    ensures ParseDate("2026-01-32") == None
  {
    assert "2023-02-29"[5..] == "02-29";
    assert "02-29"[3..] == "29";
    assert "0000-01-01"[5..] == "01-01";
    assert "01-01"[3..] == "01";
    assert "2026-13-01"[5..] == "13-01";
    assert "2026-01-011"[5..] == "01-011";
    assert "01-011"[3..] == "011";
    assert "2026-01-32"[5..] == "01-32";
    assert "01-32"[3..] == "32";
  }
}
