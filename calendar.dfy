/** The UTC calendar behind `Date.prototype.getUTCMonth` and `getUTCDate`
    (ECMAScript, section 21.4.1 "Time Values and Time Range"): a time value
    is a count of milliseconds from 1 January 1970 UTC, the day number is
    its floor division by the length of a day, and the proleptic Gregorian
    calendar splits day numbers into years, months and days. */
module Calendar {

  const MsPerDay: int := 86400000

  predicate IsLeap(y: int) {
    y % 4 == 0 && (y % 100 != 0 || y % 400 == 0)
  }

  function DaysInYear(y: int): int {
    if IsLeap(y) then 366 else 365
  }

  /** The day number of 1 January of year `y`. */
  function DayFromYear(y: int): int
    decreases if y >= 1970 then y - 1970 else 1970 - y
  {
    if y == 1970 then 0
    else if y > 1970 then DayFromYear(y - 1) + DaysInYear(y - 1)
    else DayFromYear(y + 1) - DaysInYear(y)
  }

  /** Each year starts where the previous one ends, before and after 1970. */
  lemma DayFromYearStep(y: int)
    ensures DayFromYear(y + 1) == DayFromYear(y) + DaysInYear(y)
  {
  }

  /** Later years start later: year `a` ends no later than year `b` starts. */
  lemma {:induction false} DayFromYearMonotone(a: int, b: int)
    requires a < b
    ensures DayFromYear(a) + DaysInYear(a) <= DayFromYear(b)
    decreases b - a
  {
    DayFromYearStep(a);
    if a + 1 < b {
      DayFromYearMonotone(a + 1, b);
    }
  }

  /** Year `y` contains day number `day`. */
  predicate InYear(y: int, day: int) {
    DayFromYear(y) <= day < DayFromYear(y) + DaysInYear(y)
  }

  /** Walks from year `y` towards the year containing `day`. */
  function YearSearch(y: int, day: int): (r: int)
    ensures InYear(r, day)
    decreases if day < DayFromYear(y) then DayFromYear(y) - day + 366 else day - DayFromYear(y)
  {
    var start := DayFromYear(y);
    if day < start then
      DayFromYearStep(y - 1);
      YearSearch(y - 1, day)
    else if day >= start + DaysInYear(y) then
      DayFromYearStep(y);
      YearSearch(y + 1, day)
    else y
  }

  /** Exactly one year contains a given day. */
  lemma YearUnique(a: int, b: int, day: int)
    requires InYear(a, day) && InYear(b, day)
    ensures a == b
  {
    if a < b {
      DayFromYearMonotone(a, b);
    } else if b < a {
      DayFromYearMonotone(b, a);
    }
  }

  const CumulativeDays: seq<int> := [0, 31, 59, 90, 120, 151, 181, 212, 243, 273, 304, 334, 365]

  /** Days of year `y` before the first of month `m` (1-based; m = 13 gives
      the length of the year). */
  function DaysBeforeMonth(y: int, m: int): int
    requires 1 <= m <= 13
  {
    CumulativeDays[m - 1] + (if IsLeap(y) && m > 2 then 1 else 0)
  }

  function DaysInMonth(y: int, m: int): int
    requires 1 <= m <= 12
  {
    DaysBeforeMonth(y, m + 1) - DaysBeforeMonth(y, m)
  }

  /** Month `m` of year `y` contains day `doy` of that year (0-based). */
  predicate InMonth(y: int, m: int, doy: int)
    requires 1 <= m <= 12
  {
    DaysBeforeMonth(y, m) <= doy < DaysBeforeMonth(y, m + 1)
  }

  /** Walks from month `m` to the month containing day `doy` of year `y`. */
  function MonthSearch(y: int, doy: int, m: int): (r: int)
    requires 1 <= m <= 12 && DaysBeforeMonth(y, m) <= doy < DaysInYear(y)
    ensures 1 <= r <= 12 && InMonth(y, r, doy)
    decreases 12 - m
  {
    if doy < DaysBeforeMonth(y, m + 1) then m else MonthSearch(y, doy, m + 1)
  }

  /** Exactly one month contains a given day of the year. */
  lemma MonthUnique(y: int, a: int, b: int, doy: int)
    requires 1 <= a <= 12 && 1 <= b <= 12 && InMonth(y, a, doy) && InMonth(y, b, doy)
    ensures a == b
  {
  }

  datatype Date = Date(year: int, month: int, day: int)

  /** A real calendar date: month 1-12, day within the month. */
  predicate ValidDate(d: Date) {
    1 <= d.month <= 12 && 1 <= d.day <= DaysInMonth(d.year, d.month)
  }

  /** The day number of a valid date. */
  function DayOfDate(d: Date): int
    requires ValidDate(d)
  {
    DayFromYear(d.year) + DaysBeforeMonth(d.year, d.month) + d.day - 1
  }

  /** The UTC date of time value `t`: its year, month (1-12) and day of month. */
  function UtcDate(t: int): (d: Date)
    ensures ValidDate(d)
    ensures DayOfDate(d) == t / MsPerDay
  {
    var day := t / MsPerDay;
    var y := YearSearch(1970, day);
    var doy := day - DayFromYear(y);
    var m := MonthSearch(y, doy, 1);
    Date(y, m, doy - DaysBeforeMonth(y, m) + 1)
  }

  /** The converse: the UTC date of any instant of a valid date's day is
      that date. */
  lemma UtcDateOfDay(d: Date, t: int)
    requires ValidDate(d) && t / MsPerDay == DayOfDate(d)
    ensures UtcDate(t) == d
  {
    var u := UtcDate(t);
    var day := t / MsPerDay;
    assert InYear(d.year, day) by {
      assert DaysBeforeMonth(d.year, d.month + 1) <= DaysInYear(d.year);
    }
    assert InYear(u.year, day) by {
      assert DaysBeforeMonth(u.year, u.month + 1) <= DaysInYear(u.year);
    }
    YearUnique(u.year, d.year, day);
    MonthUnique(d.year, u.month, d.month, day - DayFromYear(d.year));
  }

  lemma UtcDateExamples()
    ensures UtcDate(0) == Date(1970, 1, 1)
    ensures UtcDate(59 * MsPerDay + 1) == Date(1970, 3, 1)
    ensures UtcDate(-1) == Date(1969, 12, 31)
  {
    UtcDateOfDay(Date(1970, 1, 1), 0);
    UtcDateOfDay(Date(1970, 3, 1), 59 * MsPerDay + 1);
    assert DayFromYear(1969) == -365;
    UtcDateOfDay(Date(1969, 12, 31), -1);
  }
}
