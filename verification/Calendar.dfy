/**
 The proleptic Gregorian calendar of Python's datetime module, as far as src/period_parser.py:109-130
 uses it: years 1 to 9999, days of 86400 seconds, both counted from 0001-01-01T00:00:00 UTC.
 */
module Calendar {
  import opened Common

  const FIRST_YEAR: int := 1

  const LAST_YEAR: int := 9999

  datatype Date = Date(year: int, month: int, day: int)

  datatype Time = Time(hour: int, minute: int, second: int)

  predicate Leap(y: int) {
    y % 4 == 0 && (y % 100 != 0 || y % 400 == 0)
  }

  function DaysInYear(y: int): int {
    if Leap(y) then 366 else 365
  }

  function DaysInMonth(y: int, m: int): int {
    if m == 2 then (if Leap(y) then 29 else 28)
    else if m == 4 || m == 6 || m == 9 || m == 11 then 30
    else 31
  }

  /** The days before the first of January, as datetime computes them. */
  function DaysBeforeYear(y: int): int {
    var n := y - 1;
    n * 365 + n / 4 - n / 100 + n / 400
  }

  /** The days of a year before the first of a month. */
  function DaysBeforeMonth(y: int, m: int): int
    decreases m
  {
    if m <= 1 then 0 else DaysBeforeMonth(y, m - 1) + DaysInMonth(y, m - 1)
  }

  predicate ValidMonth(y: int, m: int) {
    FIRST_YEAR <= y <= LAST_YEAR && 1 <= m <= 12
  }

  predicate ValidDate(d: Date) {
    ValidMonth(d.year, d.month) && 1 <= d.day <= DaysInMonth(d.year, d.month)
  }

  predicate ValidTime(t: Time) {
    0 <= t.hour < 24 && 0 <= t.minute < 60 && 0 <= t.second < 60
  }

  function Ordinal(d: Date): int {
    DaysBeforeYear(d.year) + DaysBeforeMonth(d.year, d.month) + d.day - 1
  }

  function SecondOfDay(t: Time): int {
    t.hour * 3600 + t.minute * 60 + t.second
  }

  /** The second count of a UTC date and time. */
  function Second(d: Date, t: Time): int {
    Ordinal(d) * 86_400 + SecondOfDay(t)
  }

  /** The number of seconds datetime can express. */
  function EndOfTime(): int {
    DaysBeforeYear(LAST_YEAR + 1) * 86_400
  }

  /** A year starts where the one before it ends. */
  lemma YearsTile(y: int)
    ensures DaysBeforeYear(y + 1) == DaysBeforeYear(y) + DaysInYear(y)
  {
    Multiples(y, 4);
    Multiples(y, 100);
    Multiples(y, 400);
    LeapCycles(y);
  }

  lemma LeapCycles(y: int)
    ensures y % 400 == 0 ==> y % 100 == 0
    ensures y % 100 == 0 ==> y % 4 == 0
  {
    if y % 400 == 0 {
      Quotient(y, 100, 4 * (y / 400), 0);
    }
    if y % 100 == 0 {
      Quotient(y, 4, 25 * (y / 100), 0);
    }
  }

  lemma Multiples(y: int, k: int)
    requires k > 0
    ensures y / k == (y - 1) / k + (if y % k == 0 then 1 else 0)
  {
    if y % k == 0 {
      Quotient(y - 1, k, y / k - 1, k - 1);
    } else {
      Quotient(y - 1, k, y / k, y % k - 1);
    }
  }

  /** The twelve months make up the year. */
  lemma MonthsTile(y: int)
    ensures DaysBeforeMonth(y, 13) == DaysInYear(y)
  {
    assert DaysBeforeMonth(y, 4) == DaysInMonth(y, 1) + DaysInMonth(y, 2) + DaysInMonth(y, 3);
    assert DaysBeforeMonth(y, 7) == DaysBeforeMonth(y, 4) + DaysInMonth(y, 4) + DaysInMonth(y, 5) + DaysInMonth(y, 6);
    assert DaysBeforeMonth(y, 10) == DaysBeforeMonth(y, 7) + DaysInMonth(y, 7) + DaysInMonth(y, 8) + DaysInMonth(y, 9);
    var last := DaysInMonth(y, 10) + DaysInMonth(y, 11) + DaysInMonth(y, 12);
    assert DaysBeforeMonth(y, 13) == DaysBeforeMonth(y, 10) + last;
  }

  /** The table of datetime: the days before each month, one more after February in a leap year. */
  lemma MonthsAre(y: int, m: int)
    requires 1 <= m <= 12
    ensures DaysBeforeMonth(y, m)
         == [0, 31, 59, 90, 120, 151, 181, 212, 243, 273, 304, 334][m - 1] + if m > 2 && Leap(y) then 1 else 0
  {
    hide Leap;
    assert DaysBeforeMonth(y, 4) == DaysInMonth(y, 1) + DaysInMonth(y, 2) + DaysInMonth(y, 3);
    assert DaysBeforeMonth(y, 7) == DaysBeforeMonth(y, 4) + DaysInMonth(y, 4) + DaysInMonth(y, 5) + DaysInMonth(y, 6);
    assert DaysBeforeMonth(y, 10) == DaysBeforeMonth(y, 7) + DaysInMonth(y, 7) + DaysInMonth(y, 8) + DaysInMonth(y, 9);
  }

  lemma {:induction false} YearsOrdered(y: int, z: int)
    requires y <= z
    ensures DaysBeforeYear(y) <= DaysBeforeYear(z)
    ensures y < z ==> DaysBeforeYear(y + 1) <= DaysBeforeYear(z)
    decreases z - y
  {
    if y < z {
      YearsTile(y);
      YearsOrdered(y + 1, z);
    }
  }

  lemma {:induction false} MonthsOrdered(y: int, m: int, n: int)
    requires 1 <= m <= n
    ensures DaysBeforeMonth(y, m) <= DaysBeforeMonth(y, n)
    ensures m < n ==> DaysBeforeMonth(y, m + 1) <= DaysBeforeMonth(y, n)
    decreases n - m
  {
    if m < n {
      MonthsOrdered(y, m, n - 1);
    }
  }

  lemma MonthsStart(y: int, m: int)
    requires m >= 1
    ensures DaysBeforeYear(FIRST_YEAR) == 0 && DaysBeforeMonth(y, 1) == 0
    ensures DaysBeforeMonth(y, m + 1) == DaysBeforeMonth(y, m) + DaysInMonth(y, m)
  {}

  /** Where a date lies in its month, its year and all time. */
  lemma DateBounds(d: Date)
    requires ValidDate(d)
    ensures DaysBeforeYear(d.year) + DaysBeforeMonth(d.year, d.month) <= Ordinal(d)
    ensures Ordinal(d) < DaysBeforeYear(d.year) + DaysBeforeMonth(d.year, d.month + 1)
    ensures DaysBeforeYear(d.year) <= Ordinal(d) < DaysBeforeYear(d.year + 1)
    ensures 0 <= Ordinal(d) && Ordinal(d) * 86_400 + 86_400 <= EndOfTime()
  {
    MonthsStart(d.year, d.month);
    hide DaysBeforeYear, DaysBeforeMonth, DaysInMonth, Leap;
    MonthsTile(d.year);
    MonthsOrdered(d.year, d.month + 1, 13);
    MonthsOrdered(d.year, 1, d.month);
    YearsTile(d.year);
    YearsOrdered(FIRST_YEAR, d.year);
    YearsOrdered(d.year + 1, LAST_YEAR + 1);
    assert Ordinal(d) + 1 <= DaysBeforeYear(LAST_YEAR + 1);
  }

  // ---------- From day numbers back to dates ----------

  function YearFrom(n: int, y: int): (r: int)
    requires DaysBeforeYear(y) <= n < DaysBeforeYear(LAST_YEAR + 1) && FIRST_YEAR <= y <= LAST_YEAR
    ensures y <= r <= LAST_YEAR && DaysBeforeYear(r) <= n < DaysBeforeYear(r + 1)
    decreases LAST_YEAR - y
  {
    if n < DaysBeforeYear(y + 1) then y
    else YearFrom(n, y + 1)
  }

  function MonthFrom(y: int, n: int, m: int): (r: int)
    requires 1 <= m <= 12 && DaysBeforeMonth(y, m) <= n < DaysBeforeMonth(y, 13)
    ensures m <= r <= 12 && DaysBeforeMonth(y, r) <= n < DaysBeforeMonth(y, r + 1)
    decreases 12 - m
  {
    if n < DaysBeforeMonth(y, m + 1) then m
    else MonthFrom(y, n, m + 1)
  }

  /** The date of a day number. */
  function DateOf(n: int): (d: Date)
    requires 0 <= n < DaysBeforeYear(LAST_YEAR + 1)
    ensures ValidDate(d) && Ordinal(d) == n
  {
    var y := YearFrom(n, FIRST_YEAR);
    YearsTile(y);
    MonthsTile(y);
    var rest := n - DaysBeforeYear(y);
    var m := MonthFrom(y, rest, 1);
    Date(y, m, rest - DaysBeforeMonth(y, m) + 1)
  }

  function TimeOf(s: int): (t: Time)
    requires 0 <= s < 86_400
    ensures ValidTime(t) && SecondOfDay(t) == s
  {
    Time(s / 3600, s % 3600 / 60, s % 60)
  }

  /** No two dates have the same day number. */
  lemma DatesDiffer(d: Date, e: Date)
    requires ValidDate(d) && ValidDate(e) && Ordinal(d) == Ordinal(e)
    ensures d == e
  {
    hide DaysBeforeYear, DaysBeforeMonth, DaysInMonth, Leap;
    DateBounds(d);
    DateBounds(e);
    if d.year < e.year {
      YearsOrdered(d.year, e.year);
    } else if e.year < d.year {
      YearsOrdered(e.year, d.year);
    } else if d.month < e.month {
      MonthsOrdered(d.year, d.month, e.month);
    } else if e.month < d.month {
      MonthsOrdered(d.year, e.month, d.month);
    }
  }

  lemma TimesDiffer(t: Time, u: Time)
    requires ValidTime(t) && ValidTime(u) && SecondOfDay(t) == SecondOfDay(u)
    ensures t == u
  {}

  /** Every second of the calendar has one date and time. */
  lemma SecondsAreUnique(d: Date, t: Time, e: Date, u: Time)
    requires ValidDate(d) && ValidTime(t) && ValidDate(e) && ValidTime(u) && Second(d, t) == Second(e, u)
    ensures d == e && t == u
  {
    SecondDay(d, t);
    SecondDay(e, u);
    DatesDiffer(d, e);
    TimesDiffer(t, u);
  }

  lemma SecondDay(d: Date, t: Time)
    requires ValidTime(t)
    ensures 0 <= SecondOfDay(t) < 86_400
    ensures Second(d, t) / 86_400 == Ordinal(d) && Second(d, t) % 86_400 == SecondOfDay(t)
  {
    Quotient(Second(d, t), 86_400, Ordinal(d), SecondOfDay(t));
  }

  lemma SecondBounds(d: Date, t: Time)
    requires ValidDate(d) && ValidTime(t)
    ensures 0 <= Second(d, t) < EndOfTime()
  {
    DateBounds(d);
  }
}
