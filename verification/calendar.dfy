/** Instants and calendar days as the projection sees them.

    A JavaScript `Date` holds a number of milliseconds since 1970-01-01T00:00Z.
    The model keeps that representation (`Time`) and reads calendar days off it
    in UTC (`Day`, days since 1970-01-01), so `getDate()` becomes the
    Gregorian civil-from-days conversion below.
 */
module Calendar {

  /** Milliseconds since 1970-01-01T00:00Z, as `Date.prototype.valueOf` returns. */
  type Time = int

  /** Whole days since 1970-01-01. */
  type Day = int

  /** The divisor `1000 * 3600 * 24` of the day-difference computation. */
  const MsPerDay: int := 1000 * 3600 * 24

  /** Days from 1970-01-01 to 2000-01-01, the start of a 400-year Gregorian cycle. */
  const DaysTo2000: int := 10957

  /** Days in one 400-year Gregorian cycle. */
  const DaysPerCycle: int := 146097

  /** The calendar day an instant falls on. */
  function ToDay(t: Time): (d: Day)
    ensures d * MsPerDay <= t < (d + 1) * MsPerDay
  {
    t / MsPerDay
  }

  /** The instant at which a calendar day begins: what parsing a date string yields. */
  function Midnight(d: Day): (t: Time)
    ensures ToDay(t) == d
    ensures t % MsPerDay == 0
  {
    d * MsPerDay
  }

  /** Moving an instant by whole days moves its calendar day by as many. */
  lemma ToDayShift(t: Time, n: int)
    ensures ToDay(t + n * MsPerDay) == ToDay(t) + n
  {
    var d := ToDay(t);
    assert (d + n) * MsPerDay <= t + n * MsPerDay < (d + n + 1) * MsPerDay;
  }

  predicate IsLeapYear(y: int) {
    y % 4 == 0 && (y % 100 != 0 || y % 400 == 0)
  }

  function YearLength(y: int): (n: int)
    ensures 365 <= n <= 366
  {
    if IsLeapYear(y) then 366 else 365
  }

  /** Days in month `m` of a leap year (`leap`) or a common year. The months
      depend on the year only through whether it is a leap year. */
  function MonthDays(leap: bool, m: int): (n: int)
    requires 1 <= m <= 12
    ensures 28 <= n <= 31
  {
    if m == 2 then (if leap then 29 else 28)
    else if m == 4 || m == 6 || m == 9 || m == 11 then 30
    else 31
  }

  /** Days in month `m` of year `y`. */
  function MonthLength(y: int, m: int): (n: int)
    requires 1 <= m <= 12
    ensures 28 <= n <= 31
  {
    MonthDays(IsLeapYear(y), m)
  }

  /** Days in months `m` through December. */
  function DaysFromMonth(leap: bool, m: int): (n: int)
    requires 1 <= m <= 13
    ensures n >= 0
    decreases 13 - m
  {
    if m == 13 then 0 else MonthDays(leap, m) + DaysFromMonth(leap, m + 1)
  }

  /** The twelve months make up the year. */
  lemma YearIsItsMonths(y: int)
    ensures DaysFromMonth(IsLeapYear(y), 1) == YearLength(y)
  {
    assert DaysFromMonth(IsLeapYear(y), 3) == 306;
  }

  /** Splits `r` days counted from January 1 of year `y` into a year and a
      zero-based day of that year. */
  function SplitYears(r: nat, y: int): (yd: (int, nat))
    ensures yd.0 >= y
    ensures yd.1 < YearLength(yd.0)
    decreases r
  {
    if r < YearLength(y) then (y, r) else SplitYears(r - YearLength(y), y + 1)
  }

  /** Splits a zero-based day `r` of a year, counted from the first of
      month `m`, into a month and a zero-based day of that month. */
  function SplitMonths(r: nat, leap: bool, m: int): (md: (int, nat))
    requires 1 <= m <= 12
    requires r < DaysFromMonth(leap, m)
    ensures m <= md.0 <= 12
    ensures md.1 < MonthDays(leap, md.0)
    decreases 12 - m
  {
    if r < MonthDays(leap, m) then (m, r) else SplitMonths(r - MonthDays(leap, m), leap, m + 1)
  }

  datatype CivilDate = CivilDate(year: int, month: int, day: int)

  /** The Gregorian date `r` days after January 1 of year `y`. */
  function CivilFromYear(y: int, r: nat): (c: CivilDate)
    ensures 1 <= c.month <= 12
    ensures 1 <= c.day <= MonthLength(c.year, c.month)
  {
    var yd := SplitYears(r, y);
    YearIsItsMonths(yd.0);
    var md := SplitMonths(yd.1, IsLeapYear(yd.0), 1);
    CivilDate(yd.0, md.0, md.1 + 1)
  }

  /** The Gregorian date of a day number: whole 400-year cycles from
      2000-01-01, then the years and months of the last cycle. */
  function CivilFromDays(d: Day): (c: CivilDate)
    ensures 1 <= c.month <= 12
    ensures 1 <= c.day <= MonthLength(c.year, c.month)
  {
    var k := d - DaysTo2000;
    CivilFromYear(2000 + 400 * (k / DaysPerCycle), k % DaysPerCycle)
  }

  /** `Date.prototype.getDate()`: the day of the month, 1 to 31. */
  function DayOfMonth(d: Day): (r: int)
    ensures 1 <= r <= 31
  {
    CivilFromDays(d).day
  }

  /** The leap-year rule repeats every 400 years. */
  lemma LeapCycle(y: int)
    ensures IsLeapYear(y + 400) == IsLeapYear(y)
  {
  }

  /** Splitting a day count into years gives the same day of year when the
      starting year moves by 400. */
  lemma {:induction false} SplitYearsCycle(r: nat, y: int)
    ensures SplitYears(r, y + 400) == (SplitYears(r, y).0 + 400, SplitYears(r, y).1)
    decreases r
  {
    LeapCycle(y);
    if r >= YearLength(y) {
      SplitYearsCycle(r - YearLength(y), y + 1);
    }
  }

  lemma CycleDivision(k: int)
    ensures (k + DaysPerCycle) % DaysPerCycle == k % DaysPerCycle
    ensures (k + DaysPerCycle) / DaysPerCycle == k / DaysPerCycle + 1
  {
    var q, r := k / DaysPerCycle, k % DaysPerCycle;
    assert k + DaysPerCycle == (q + 1) * DaysPerCycle + r;
  }

  lemma CivilFromYearCycle(y: int, r: nat)
    ensures CivilFromYear(y + 400, r) == CivilDate(CivilFromYear(y, r).year + 400, CivilFromYear(y, r).month, CivilFromYear(y, r).day)
  {
    SplitYearsCycle(r, y);
    var yd := SplitYears(r, y);
    var yd' := SplitYears(r, y + 400);
    assert yd' == (yd.0 + 400, yd.1);
    LeapCycle(yd.0);
    YearIsItsMonths(yd.0);
    var md := SplitMonths(yd.1, IsLeapYear(yd.0), 1);
    assert CivilFromYear(y, r) == CivilDate(yd.0, md.0, md.1 + 1);
    assert CivilFromYear(y + 400, r) == CivilDate(yd'.0, md.0, md.1 + 1);
  }

  /** The Gregorian calendar repeats every 146097 days: a day and the same
      day 400 years later have the same month and day of month. */
  lemma GregorianCycle(d: Day)
    ensures CivilFromDays(d + DaysPerCycle).month == CivilFromDays(d).month
    ensures DayOfMonth(d + DaysPerCycle) == DayOfMonth(d)
  {
    var k := d - DaysTo2000;
    CycleDivision(k);
    var q := k / DaysPerCycle;
    assert 2000 + 400 * (q + 1) == (2000 + 400 * q) + 400;
    CivilFromYearCycle(2000 + 400 * q, k % DaysPerCycle);
  }

  /** 2000-01-01, the start of a cycle, is the first of a month. */
  lemma CycleStartsOnTheFirst()
    ensures CivilFromDays(DaysTo2000) == CivilDate(2000, 1, 1)
  {
    YearIsItsMonths(2000);
  }
}
