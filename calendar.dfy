/** Timestamps (`fecha`) and the calendar arithmetic the queries use.

    A timestamp is a number of seconds counted from 0000-01-01 00:00:00 of
    the proleptic Gregorian calendar, and a day is a number of days counted
    from that same origin; both may be negative. A calendar date given by the
    caller (`YYYY-MM-DD`) is a day. */
module Calendar {

  const SECONDS_PER_DAY: int := 86400

  /** `d 00:00:00`. */
  function DayStart(d: int): int {
    d * SECONDS_PER_DAY
  }

  /** `d 23:59:59`. */
  function DayEnd(d: int): int {
    d * SECONDS_PER_DAY + SECONDS_PER_DAY - 1
  }

  /** A timestamp lies within the day `d` exactly when it is between that
      day's first and last second, and every timestamp lies in one day. */
  lemma DayBounds(d: int, t: int)
    ensures DayStart(d) <= t <= DayEnd(d) <==> t / SECONDS_PER_DAY == d
    ensures DayEnd(d) + 1 == DayStart(d + 1)
  {
  }

  /** A calendar month; `month` is 1 for January through 12 for December. */
  datatype YearMonth = YearMonth(year: int, month: int)

  ghost predicate ValidMonth(ym: YearMonth) {
    1 <= ym.month <= 12
  }

  /** Months counted from January of year 0. */
  function MonthIndex(ym: YearMonth): int {
    ym.year * 12 + ym.month - 1
  }

  function FromMonthIndex(k: int): (ym: YearMonth)
    ensures ValidMonth(ym) && MonthIndex(ym) == k
  {
    YearMonth(k / 12, k % 12 + 1)
  }

  /** The month `i` months before `ym` (a plain year/month decrement). */
  function MonthsBack(ym: YearMonth, i: nat): (r: YearMonth)
    ensures ValidMonth(r)
    ensures MonthIndex(r) == MonthIndex(ym) - i
  {
    FromMonthIndex(MonthIndex(ym) - i)
  }

  /** The month after `ym`. */
  function NextMonth(ym: YearMonth): (r: YearMonth)
    ensures ValidMonth(r)
    ensures MonthIndex(r) == MonthIndex(ym) + 1
  {
    FromMonthIndex(MonthIndex(ym) + 1)
  }

  lemma MonthIndexInjective(a: YearMonth, b: YearMonth)
    requires ValidMonth(a) && ValidMonth(b) && MonthIndex(a) == MonthIndex(b)
    ensures a == b
  {
  }

  /** Going back `i + 1` months and then forward one is going back `i`
      months; going back 0 months from a valid month stays there. */
  lemma MonthsBackStep(ym: YearMonth, i: nat)
    ensures NextMonth(MonthsBack(ym, i + 1)) == MonthsBack(ym, i)
    ensures ValidMonth(ym) ==> MonthsBack(ym, 0) == ym
  {
    MonthIndexInjective(NextMonth(MonthsBack(ym, i + 1)), MonthsBack(ym, i));
    if ValidMonth(ym) {
      MonthIndexInjective(MonthsBack(ym, 0), ym);
    }
  }

  predicate IsLeapYear(y: int) {
    y % 4 == 0 && (y % 100 != 0 || y % 400 == 0)
  }

  function DaysInMonth(ym: YearMonth): int
    requires ValidMonth(ym)
  {
    match ym.month
    case 2 => if IsLeapYear(ym.year) then 29 else 28
    case 4 => 30
    case 6 => 30
    case 9 => 30
    case 11 => 30
    case _ => 31
  }

  /** Leap years in [0, y) (negative for y < 0). */
  function LeapYearsBefore(y: int): int {
    (y + 3) / 4 - (y + 99) / 100 + (y + 399) / 400
  }

  function DaysBeforeYear(y: int): int {
    365 * y + LeapYearsBefore(y)
  }

  /** Days of year `ym.year` before the first of `ym.month`. */
  function DaysBeforeMonth(ym: YearMonth): int
    requires ValidMonth(ym)
  {
    var common :=
      match ym.month
      case 1 => 0    case 2 => 31   case 3 => 59   case 4 => 90
      case 5 => 120  case 6 => 151  case 7 => 181  case 8 => 212
      case 9 => 243  case 10 => 273 case 11 => 304 case _ => 334;
    if ym.month > 2 && IsLeapYear(ym.year) then common + 1 else common
  }

  /** The day number of the first day of the month. */
  function FirstDay(ym: YearMonth): int
    requires ValidMonth(ym)
  {
    DaysBeforeYear(ym.year) + DaysBeforeMonth(ym)
  }

  /** `Y-m-01 00:00:00`. */
  function MonthStart(ym: YearMonth): int
    requires ValidMonth(ym)
  {
    DayStart(FirstDay(ym))
  }

  /** `Y-m-t 23:59:59`, the last second of the month's last day. */
  function MonthEnd(ym: YearMonth): int
    requires ValidMonth(ym)
  {
    DayEnd(FirstDay(ym) + DaysInMonth(ym) - 1)
  }

  lemma {:induction false} LeapYearsStep(y: int)
    ensures LeapYearsBefore(y + 1) - LeapYearsBefore(y) == if IsLeapYear(y) then 1 else 0
  {
    assert (y + 4) / 4 - (y + 3) / 4 == if y % 4 == 0 then 1 else 0;
    assert (y + 100) / 100 - (y + 99) / 100 == if y % 100 == 0 then 1 else 0;
    assert (y + 400) / 400 - (y + 399) / 400 == if y % 400 == 0 then 1 else 0;
    if y % 100 == 0 {
      assert y % 4 == 0;
    }
    if y % 400 == 0 {
      assert y % 100 == 0;
    }
  }

  /** The next month starts exactly one second after the last second of a
      month: the closed window [MonthStart, MonthEnd] of one month and the
      half-open window [MonthStart(m), MonthStart(next m)) are the same. */
  lemma MonthEndMeetsNext(ym: YearMonth)
    requires ValidMonth(ym)
    ensures MonthEnd(ym) + 1 == MonthStart(NextMonth(ym))
    ensures MonthStart(ym) <= MonthEnd(ym)
  {
    var n := NextMonth(ym);
    if ym.month == 12 {
      assert n == YearMonth(ym.year + 1, 1);
      LeapYearsStep(ym.year);
    } else {
      assert n == YearMonth(ym.year, ym.month + 1);
    }
    DayBounds(FirstDay(n) - 1, 0);
  }
}
