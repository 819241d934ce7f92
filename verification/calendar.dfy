/**
 * Calendar dates and the part of JavaScript's `new Date(year, monthIndex, day)`
 * that the date shortcuts use: an out-of-range month index rolls into the
 * neighbouring year, day 0 is the last day of the previous month, and a day
 * past the end of the month rolls into the next one.
 */
module Calendar {

  /** A calendar date; `month` is 1-based (January is 1). */
  datatype Date = Date(year: int, month: int, day: int)

  /** An inclusive range of dates, as bound to `TARIH >= start AND TARIH <= end`. */
  datatype DateRange = DateRange(start: Date, end: Date)

  /** Proleptic Gregorian leap years, as JavaScript's Date uses. */
  predicate IsLeapYear(y: int) {
    (y % 4 == 0 && y % 100 != 0) || y % 400 == 0
  }

  function DaysInMonth(y: int, m: int): (n: int)
    requires 1 <= m <= 12
    ensures 28 <= n <= 31
  {
    if m == 2 then (if IsLeapYear(y) then 29 else 28)
    else if m == 4 || m == 6 || m == 9 || m == 11 then 30
    else 31
  }

  predicate ValidDate(d: Date) {
    1 <= d.month <= 12 && 1 <= d.day <= DaysInMonth(d.year, d.month)
  }

  /** `a <= b` in calendar order. */
  predicate LessEq(a: Date, b: Date) {
    a.year < b.year
    || (a.year == b.year && (a.month < b.month || (a.month == b.month && a.day <= b.day)))
  }

  /**
   * `new Date(year, monthIndex, day)` for a 0-based month index of any size
   * and a day between 0 and 31: the month index is carried into the year, day
   * 0 steps back to the last day of the previous month, and a day beyond the
   * month's length carries into the following month.
   */
  function MakeDate(year: int, monthIndex: int, day: int): (d: Date)
    requires 0 <= day <= 31
    ensures ValidDate(d)
    ensures var (y, m) := CarriedMonth(year, monthIndex);
      && (1 <= day <= DaysInMonth(y, m) ==> d == Date(y, m, day))
      && (day == 0 ==> var (py, pm) := PreviousMonth(y, m); d == Date(py, pm, DaysInMonth(py, pm)))
      && (day > DaysInMonth(y, m) ==> var (ny, nm) := NextMonth(y, m); d == Date(ny, nm, day - DaysInMonth(y, m)))
  {
    var (y, m) := CarriedMonth(year, monthIndex);
    if day == 0 then
      (if m == 1 then Date(y - 1, 12, 31) else Date(y, m - 1, DaysInMonth(y, m - 1)))
    else if day <= DaysInMonth(y, m) then Date(y, m, day)
    else if m == 12 then Date(y + 1, 1, day - DaysInMonth(y, m))
    else Date(y, m + 1, day - DaysInMonth(y, m))
  }

  /**
   * The day argument counts days: raising it by one moves the date one
   * calendar day on, from day 0 (the previous month's last day) through the
   * month and into the next one.
   */
  lemma MakeDateCountsDays(year: int, monthIndex: int, day: int)
    requires 0 <= day < 31
    ensures MakeDate(year, monthIndex, day + 1) == NextDay(MakeDate(year, monthIndex, day))
  {
    var (y, m) := CarriedMonth(year, monthIndex);
    var n := DaysInMonth(y, m);
    if day == 0 {
      var (py, pm) := PreviousMonth(y, m);
      assert NextMonth(py, pm) == (y, m);
    } else if day < n {
    } else if day == n {
    } else {
      var (ny, nm) := NextMonth(y, m);
      assert day + 1 - n <= DaysInMonth(ny, nm);
    }
  }

  /**
   * The year and 1-based month that month index `monthIndex` of `year`
   * denotes: index 12 is January of the next year, index -1 December of
   * the previous one.
   */
  function CarriedMonth(year: int, monthIndex: int): (ym: (int, int))
    ensures 1 <= ym.1 <= 12
    ensures 12 * ym.0 + (ym.1 - 1) == 12 * year + monthIndex
  {
    (year + monthIndex / 12, monthIndex % 12 + 1)
  }

  /** The month after `m` of year `y`: January of the next year for December. */
  function NextMonth(y: int, m: int): (ym: (int, int))
    requires 1 <= m <= 12
    ensures 1 <= ym.1 <= 12
  {
    if m == 12 then (y + 1, 1) else (y, m + 1)
  }

  /** The calendar day after `d`. */
  function NextDay(d: Date): (r: Date)
    requires ValidDate(d)
    ensures ValidDate(r)
  {
    if d.day < DaysInMonth(d.year, d.month) then d.(day := d.day + 1)
    else Date(NextMonth(d.year, d.month).0, NextMonth(d.year, d.month).1, 1)
  }

  /** The month before `m` of year `y`: December of the previous year for January. */
  function PreviousMonth(y: int, m: int): (ym: (int, int))
    requires 1 <= m <= 12
    ensures 1 <= ym.1 <= 12
  {
    if m == 1 then (y - 1, 12) else (y, m - 1)
  }

  /** The range from the first to the last day of month `m` of year `y`. */
  function WholeMonth(y: int, m: int): DateRange
    requires 1 <= m <= 12
  {
    DateRange(Date(y, m, 1), Date(y, m, DaysInMonth(y, m)))
  }

  /** `new Date(Y, M, 1)` .. `new Date(Y, M + 1, 0)` for the month of `now`. */
  function ThisMonth(now: Date): (r: DateRange)
    requires ValidDate(now)
    ensures r == WholeMonth(now.year, now.month)
  {
    var mi := now.month - 1;
    DateRange(MakeDate(now.year, mi, 1), MakeDate(now.year, mi + 1, 0))
  }

  /** `new Date(Y, M - 1, 1)` .. `new Date(Y, M, 0)`: the whole previous month. */
  function LastMonth(now: Date): (r: DateRange)
    requires ValidDate(now)
    ensures var (py, pm) := PreviousMonth(now.year, now.month); r == WholeMonth(py, pm)
  {
    var mi := now.month - 1;
    DateRange(MakeDate(now.year, mi - 1, 1), MakeDate(now.year, mi, 0))
  }

  /** `new Date(Y, 0, 1)` .. `new Date(Y, 11, 31)`: January 1 to December 31. */
  function ThisYear(now: Date): (r: DateRange)
    ensures r == DateRange(Date(now.year, 1, 1), Date(now.year, 12, 31))
  {
    DateRange(MakeDate(now.year, 0, 1), MakeDate(now.year, 11, 31))
  }

  /** Each of the three shortcuts gives a non-empty range of valid dates. */
  lemma ShortcutRangesAreProper(now: Date)
    requires ValidDate(now)
    ensures forall r :: r in {ThisMonth(now), LastMonth(now), ThisYear(now)} ==>
      ValidDate(r.start) && ValidDate(r.end) && LessEq(r.start, r.end) && r.start.day == 1
  {
  }
}
