/**
  Dates of the proleptic Gregorian calendar, their day numbers and their
  "Y-m-d" text form. A DATE column is stored as a day number; the current time
  is a count of seconds on the same scale, so the start of day n is second
  n * 86400 (time zones are not modelled).
 */
module Calendar {
  import opened Wrappers
  import opened Text

  const SecondsPerDay: int := 86400

  datatype Date = Date(year: nat, month: nat, day: nat)

  predicate IsLeapYear(y: nat) {
    y % 4 == 0 && (y % 100 != 0 || y % 400 == 0)
  }

  function DaysInYear(y: nat): nat {
    if IsLeapYear(y) then 366 else 365
  }

  function DaysInMonth(y: nat, m: nat): nat
    requires 1 <= m <= 12
  {
    if m == 2 then (if IsLeapYear(y) then 29 else 28)
    else if m == 4 || m == 6 || m == 9 || m == 11 then 30
    else 31
  }

  predicate ValidDate(d: Date) {
    1 <= d.month <= 12 && 1 <= d.day <= DaysInMonth(d.year, d.month)
  }

  /** Days of year y that lie before the first of month m. */
  function DaysBeforeMonth(y: nat, m: nat): nat
    requires 1 <= m <= 12
  {
    var common := [0, 31, 59, 90, 120, 151, 181, 212, 243, 273, 304, 334][m - 1];
    if m > 2 && IsLeapYear(y) then common + 1 else common
  }

  /** Days from 1 January of year 0 to 1 January of year y. */
  function DaysBeforeYear(y: nat): nat
    decreases y
  {
    if y == 0 then 0 else DaysBeforeYear(y - 1) + DaysInYear(y - 1)
  }

  /** The day number of a date: 0 for 0000-01-01, one more for each following day. */
  function DayNumber(d: Date): nat
    requires ValidDate(d)
  {
    DaysBeforeYear(d.year) + DaysBeforeMonth(d.year, d.month) + d.day - 1
  }

  /** The second at which a day number's day starts (a DATE compared with a DATETIME). */
  function StartOfDay(day: int): int {
    day * SecondsPerDay
  }

  /** Calendar order. */
  predicate Precedes(a: Date, b: Date) {
    a.year < b.year
    || (a.year == b.year && (a.month < b.month || (a.month == b.month && a.day < b.day)))
  }

  lemma MonthFitsInYear(y: nat, m: nat)
    requires 1 <= m <= 12
    ensures DaysBeforeMonth(y, m) + DaysInMonth(y, m) <= DaysInYear(y)
  {
  }

  lemma MonthsInOrder(y: nat, m: nat, m': nat)
    requires 1 <= m < m' <= 12
    ensures DaysBeforeMonth(y, m) + DaysInMonth(y, m) <= DaysBeforeMonth(y, m')
  {
  }

  lemma {:induction false} YearsInOrder(y: nat, y': nat)
    requires y < y'
    ensures DaysBeforeYear(y) + DaysInYear(y) <= DaysBeforeYear(y')
    decreases y' - y
  {
    if y' > y + 1 {
      YearsInOrder(y, y' - 1);
    }
  }

  /** Day numbers follow calendar order, so comparing stored day numbers compares dates. */
  lemma DayNumberIncreasing(a: Date, b: Date)
    requires ValidDate(a) && ValidDate(b) && Precedes(a, b)
    ensures DayNumber(a) < DayNumber(b)
  {
    if a.year < b.year {
      MonthFitsInYear(a.year, a.month);
      YearsInOrder(a.year, b.year);
    } else if a.month < b.month {
      MonthsInOrder(a.year, a.month, b.month);
    }
  }

  /** Different valid dates have different day numbers. */
  lemma DayNumberInjective(a: Date, b: Date)
    requires ValidDate(a) && ValidDate(b) && a != b
    ensures DayNumber(a) != DayNumber(b)
  {
    if Precedes(a, b) {
      DayNumberIncreasing(a, b);
    } else {
      assert Precedes(b, a);
      DayNumberIncreasing(b, a);
    }
  }

  // ---------------------------------------------------------------------------
  // The "Y-m-d" text form

  function Pow10(n: nat): nat {
    if n == 0 then 1 else 10 * Pow10(n - 1)
  }

  /** The last `width` decimal digits of n, zero-padded. */
  function Pad(n: nat, width: nat): (s: string)
    ensures |s| == width && AllDigits(s)
  {
    if width == 0 then "" else Pad(n / 10, width - 1) + [DigitChar(n % 10)]
  }

  /** Padding a number below 10^width to width digits loses nothing. */
  lemma {:induction false} PadValue(n: nat, width: nat)
    requires n < Pow10(width)
    ensures DigitsValue(Pad(n, width)) == n
  {
    if width > 0 {
      var p := Pad(n / 10, width - 1);
      PadValue(n / 10, width - 1);
      assert (p + [DigitChar(n % 10)])[..width - 1] == p;
    }
  }

  /** A digit string is the padding of its own value to its own length. */
  lemma {:induction false} PadDigits(t: string)
    requires AllDigits(t)
    ensures Pad(DigitsValue(t), |t|) == t
  {
    if |t| > 0 {
      var init := t[..|t| - 1];
      PadDigits(init);
      assert t == init + [t[|t| - 1]];
    }
  }

  /** The date a "Y-m-d" string denotes: four, two and two digits, and a real calendar day. */
  function ParseYmd(s: string): (r: Option<Date>)
    ensures r.Some? ==> ValidDate(r.value) && r.value.year < 10000
  {
    if |s| == 10 && s[4] == '-' && s[7] == '-'
       && AllDigits(s[..4]) && AllDigits(s[5..7]) && AllDigits(s[8..])
    then
      var d := Date(DigitsValue(s[..4]), DigitsValue(s[5..7]), DigitsValue(s[8..]));
      DigitsBelowPow10(s[..4]);
      if ValidDate(d) then Some(d) else None
    else None
  }

  lemma {:induction false} DigitsBelowPow10(t: string)
    requires AllDigits(t)
    ensures DigitsValue(t) < Pow10(|t|)
  {
    if |t| > 0 {
      DigitsBelowPow10(t[..|t| - 1]);
    }
  }

  function FormatYmd(d: Date): string {
    Pad(d.year, 4) + "-" + Pad(d.month, 2) + "-" + Pad(d.day, 2)
  }

  /** Formatting a date with a four-digit year and reading it back gives the date. */
  lemma FormatThenParse(d: Date)
    requires ValidDate(d) && d.year < 10000
    ensures ParseYmd(FormatYmd(d)) == Some(d)
  {
    var s := FormatYmd(d);
    assert s[..4] == Pad(d.year, 4) && s[5..7] == Pad(d.month, 2) && s[8..] == Pad(d.day, 2);
    PadValue(d.year, 4);
    PadValue(d.month, 2);
    PadValue(d.day, 2);
  }

  /**
    A string is accepted exactly when formatting the date it denotes gives the
    string back (the date_format rule's own test).
   */
  lemma ParseThenFormat(s: string)
    requires ParseYmd(s).Some?
    ensures FormatYmd(ParseYmd(s).value) == s
  {
    PadDigits(s[..4]);
    PadDigits(s[5..7]);
    PadDigits(s[8..]);
    assert s == s[..4] + "-" + s[5..7] + "-" + s[8..];
  }
}
