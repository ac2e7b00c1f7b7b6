/**
 * Proleptic Gregorian calendar dates, as Python's `datetime.date`, and the
 * month arithmetic of `dateutil.relativedelta` used by the time-window filters.
 */
module Calendar {

  datatype Ymd = Ymd(year: int, month: int, day: int)

  predicate IsLeapYear(y: int) {
    (y % 4 == 0 && y % 100 != 0) || y % 400 == 0
  }

  /** Number of days of month `m` of year `y` (`calendar.monthrange(y, m)[1]`). */
  function DaysInMonth(y: int, m: int): (n: int)
    requires 1 <= m <= 12
    ensures 28 <= n <= 31
    ensures n == 29 <==> m == 2 && IsLeapYear(y)
  {
    if m == 2 then (if IsLeapYear(y) then 29 else 28)
    else if m == 4 || m == 6 || m == 9 || m == 11 then 30
    else 31
  }

  predicate ValidDate(d: Ymd) {
    1 <= d.month <= 12 && 1 <= d.day <= DaysInMonth(d.year, d.month)
  }

  /** A calendar date; Python cannot build an invalid one. */
  type Date = d: Ymd | ValidDate(d) witness Ymd(1970, 1, 1)

  /** Months elapsed since month 1 of year 0. */
  function MonthIndex(d: Ymd): int {
    d.year * 12 + (d.month - 1)
  }

  /** `a` falls on or before `b` (chronological order, equal dates included). */
  predicate OnOrBefore(a: Ymd, b: Ymd) {
    a.year < b.year
    || (a.year == b.year && a.month < b.month)
    || (a.year == b.year && a.month == b.month && a.day <= b.day)
  }

  function Min(a: int, b: int): int { if a <= b then a else b }

  /**
   * `d - relativedelta(months=n)`: step the month back by `n` (borrowing a
   * year when it drops below January), then clamp the day to the length of
   * the month reached.
   */
  function SubMonths(d: Date, n: int): (r: Date)
    requires 0 <= n <= 12
    ensures MonthIndex(r) == MonthIndex(d) - n
    ensures r.day == Min(d.day, DaysInMonth(r.year, r.month))
  {
    var year := if d.month - n < 1 then d.year - 1 else d.year;
    var month := if d.month - n < 1 then d.month - n + 12 else d.month - n;
    Ymd(year, month, Min(d.day, DaysInMonth(year, month)))
  }

  /** `d + relativedelta(months=n)`, the inverse step, with the same clamping. */
  function AddMonths(d: Date, n: int): (r: Date)
    requires 0 <= n <= 12
    ensures MonthIndex(r) == MonthIndex(d) + n
    ensures r.day == Min(d.day, DaysInMonth(r.year, r.month))
  {
    var year := if d.month + n > 12 then d.year + 1 else d.year;
    var month := if d.month + n > 12 then d.month + n - 12 else d.month + n;
    Ymd(year, month, Min(d.day, DaysInMonth(year, month)))
  }

  /** `d.replace(month=1, day=1)` */
  function YearStart(d: Date): (r: Date)
    ensures r.year == d.year && r.month == 1 && r.day == 1
    ensures OnOrBefore(r, d)
  {
    Ymd(d.year, 1, 1)
  }

  /** `d.replace(month=12, day=31)` */
  function YearEnd(d: Date): (r: Date)
    ensures r.year == d.year && r.month == 12 && r.day == 31
    ensures OnOrBefore(d, r)
  {
    Ymd(d.year, 12, 31)
  }

  /** Going back a non-negative number of months never moves past the anchor date. */
  lemma SubMonthsNotAfter(d: Date, n: int)
    requires 0 <= n <= 12
    ensures OnOrBefore(SubMonths(d, n), d)
    ensures n > 0 ==> SubMonths(d, n) != d
  {
    var r := SubMonths(d, n);
    if n == 0 {
      assert r == d;
    } else {
      assert MonthIndex(r) < MonthIndex(d);
      assert r.year < d.year || (r.year == d.year && r.month < d.month);
    }
  }

  /**
   * A day of month that every month has (1..28) survives going back and
   * forth by the same number of months; larger days may be clamped.
   */
  lemma SubThenAddMonths(d: Date, n: int)
    requires 0 <= n <= 12
    requires d.day <= 28
    ensures AddMonths(SubMonths(d, n), n) == d
  {
  }

  /** A concrete clamp: three months before 31 May 2025 is 28 February 2025. */
  lemma SubMonthsClampsDay()
    ensures SubMonths(Ymd(2025, 5, 31), 3) == Ymd(2025, 2, 28)
    ensures SubMonths(Ymd(2024, 8, 31), 6) == Ymd(2024, 2, 29)
  {
  }
}
