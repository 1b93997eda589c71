/**
  The calendar as the picker sees it. The picker never does date arithmetic itself:
  it asks moment.js (adding days and months, start and end of a locale week) and the
  week-count utility. Those are not part of this model; they are the fields of a
  `Calendar` value that every operation receives.
*/
module Dates {

  /** A calendar day: its month, as year * 12 + (0-based month of the year), and its day of the month. */
  datatype Date = Date(monthIndex: int, dayOfMonth: int)

  /** moment's `month()`: the 0-based month of the year, with the year forgotten. */
  function MonthOfYear(d: Date): (m: int)
    ensures 0 <= m < 12
    ensures (d.monthIndex - m) % 12 == 0
  {
    d.monthIndex % 12
  }

  /** The first day of the month with index `month` (moment's `startOf('month')`). */
  function StartOfMonth(month: int): Date
  {
    Date(month, 1)
  }

  /**
    The date services the picker calls.
    - addDays(d, k): moment `add(k, 'day')`; a week is seven days (`add(1, 'week')`).
    - addMonths(d, k): moment `add(k, 'month')`.
    - startOfWeek, endOfWeek: moment `startOf('week')`, `endOf('week')` in the locale's week.
    - weeksInMonth(month, firstDayOfWeek): the number of grid rows the month needs
      (getNumberOfCalendarMonthWeeks).
  */
  datatype Calendar = Calendar(
    addDays: (Date, int) -> Date,
    addMonths: (Date, int) -> Date,
    startOfWeek: Date -> Date,
    endOfWeek: Date -> Date,
    weeksInMonth: (int, int) -> nat)

  /**
    What any real calendar satisfies: moving forward by at most a week, or to the end of
    the week, lands in the same or the next month; moving back by at most a week, or to
    the start of the week, in the same or the previous month; adding k months moves the
    month index by k.
  */
  ghost predicate WellBehaved(cal: Calendar)
  {
    && (forall d: Date, k: int :: 0 <= k <= 7 ==> 0 <= cal.addDays(d, k).monthIndex - d.monthIndex <= 1)
    && (forall d: Date, k: int :: -7 <= k <= 0 ==> -1 <= cal.addDays(d, k).monthIndex - d.monthIndex <= 0)
    && (forall d: Date, k: int :: cal.addMonths(d, k).monthIndex == d.monthIndex + k)
    && (forall d: Date :: -1 <= cal.startOfWeek(d).monthIndex - d.monthIndex <= 0)
    && (forall d: Date :: 0 <= cal.endOfWeek(d).monthIndex - d.monthIndex <= 1)
  }

  /**
    isDayVisible(day, month, numberOfMonths) with outside days disabled: the day lies in
    one of the `numberOfMonths` months starting at `month`.
  */
  predicate IsDayVisible(d: Date, month: int, numberOfMonths: int)
  {
    month <= d.monthIndex < month + numberOfMonths
  }

  /**
    Comparing months of the year (as the picker does, without the year) decides the same
    as comparing month indices for any two dates less than a year apart.
  */
  lemma MonthOfYearDecidesNearbyMonths(a: Date, b: Date)
    requires -12 < a.monthIndex - b.monthIndex < 12
    ensures MonthOfYear(a) != MonthOfYear(b) <==> a.monthIndex != b.monthIndex
  {
    var diff := a.monthIndex - b.monthIndex;
    if MonthOfYear(a) == MonthOfYear(b) {
      var qa, qb := a.monthIndex / 12, b.monthIndex / 12;
      assert a.monthIndex == qa * 12 + MonthOfYear(a);
      assert b.monthIndex == qb * 12 + MonthOfYear(b);
      assert diff == (qa - qb) * 12;
    }
  }

  /** The year-blind comparison does confuse dates a year apart. */
  lemma MonthOfYearIgnoresTheYear(d: Date)
    ensures MonthOfYear(Date(d.monthIndex + 12, d.dayOfMonth)) == MonthOfYear(d)
  {
  }
}
