/** The date-picker calendar: a month grid of leading fillers followed by the
    days of the month, laid out in seven weekday columns starting on Sunday; a
    same-day test on calendar fields; and the selectable range from the start
    of today to `maxDate`, midnight seven days ahead. */
module Calendar {
  import opened SolarWindow

  /** A grid entry: a filler (`{ day: null, date: null }`) or a day with its date. */
  datatype Cell = Filler | DayCell(day: int, date: CalendarDate)

  /** `days` is the grid of a month whose first day falls on weekday `startDay`
      (0 = Sunday): `startDay` fillers, then the days 1..`daysInMonth` in order,
      each dated in that month. */
  ghost predicate IsMonthGrid(days: seq<Cell>, year: nat, month: Month, startDay: int, daysInMonth: int)
  {
    0 <= startDay && 0 <= daysInMonth <= 31 &&
    |days| == startDay + daysInMonth &&
    (forall i :: 0 <= i < startDay ==> days[i] == Filler) &&
    (forall i :: startDay <= i < |days| ==> days[i].DayCell? && days[i].day == i - startDay + 1) &&
    (forall i :: startDay <= i < |days| ==> days[i].date == CalendarDate(year, month, i - startDay + 1))
  }

  /** The two `push` loops of the calendar: the fillers for the days before the
      first of the month, then one dated cell per day of the month. */
  method MonthGrid(year: nat, month: Month, startDay: int, daysInMonth: int) returns (days: seq<Cell>)
    requires 0 <= startDay <= 6 && 28 <= daysInMonth <= 31
    ensures IsMonthGrid(days, year, month, startDay, daysInMonth)
  {
    days := [];
    var i := 0;
    while i < startDay
      invariant 0 <= i <= startDay
      invariant |days| == i
      invariant forall k :: 0 <= k < i ==> days[k] == Filler
    {
      days := days + [Filler];
      i := i + 1;
    }
    i := 1;
    while i <= daysInMonth
      invariant 1 <= i <= daysInMonth + 1
      invariant |days| == startDay + i - 1
      invariant forall k :: 0 <= k < startDay ==> days[k] == Filler
      invariant forall k :: startDay <= k < |days| ==> days[k].DayCell? && days[k].day == k - startDay + 1
      invariant forall k :: startDay <= k < |days| ==> days[k].date == CalendarDate(year, month, k - startDay + 1)
    {
      days := days + [DayCell(i, CalendarDate(year, month, i))];
      i := i + 1;
    }
  }

  /** In a month grid every day of the month occurs exactly once, at position
      `startDay + day - 1`; in the seven-column layout the day a week later sits
      seven cells on, in the same column. The grid never needs more than six rows. */
  lemma MonthGridPlacesDays(days: seq<Cell>, year: nat, month: Month, startDay: int, daysInMonth: int, d: int)
    requires 0 <= startDay <= 6 && 28 <= daysInMonth <= 31
    requires IsMonthGrid(days, year, month, startDay, daysInMonth)
    requires 1 <= d <= daysInMonth
    ensures days[startDay + d - 1] == DayCell(d, CalendarDate(year, month, d))
    ensures forall i :: 0 <= i < |days| && days[i].DayCell? && days[i].day == d ==> i == startDay + d - 1
    ensures d + 7 <= daysInMonth ==>
              days[startDay + d + 6] == DayCell(d + 7, CalendarDate(year, month, d + 7)) &&
              (startDay + d + 6) % 7 == (startDay + d - 1) % 7
    ensures |days| <= 6 * 7
  {
    var i := startDay + d - 1;
    assert days[i].DayCell? && days[i].day == d;
    assert days[i].date == CalendarDate(year, month, d);
    if d + 7 <= daysInMonth {
      assert days[i + 7].DayCell? && days[i + 7].day == d + 7;
      assert days[i + 7].date == CalendarDate(year, month, d + 7);
    }
  }

  /** A `Date`: its local calendar fields and the milliseconds since local midnight. */
  datatype Instant = Instant(date: CalendarDate, msOfDay: int)

  /** `isSameDay`: equal day of month, month and full year; the time of day is ignored. */
  predicate IsSameDay(d1: Instant, d2: Instant)
  {
    d1.date.day == d2.date.day && d1.date.month == d2.date.month && d1.date.year == d2.date.year
  }

  /** Two instants fall on the same day exactly when their dates have the same
      `YYYY-MM-DD` key, so a highlighted grid day and the forecast row for the
      selected date agree. */
  lemma SameDayIffSameKey(d1: Instant, d2: Instant)
    ensures IsSameDay(d1, d2) <==> d1.date == d2.date
    ensures IsSameDay(d1, d2) <==> DateKey(d1.date) == DateKey(d2.date)
  {
    DateKeyInjective(d1.date, d2.date);
  }

  /** The `<=` of two `Date`s: chronological order, by year, month, day of month
      and then time of day. */
  predicate NotAfter(a: Instant, b: Instant)
  {
    a.date.year < b.date.year ||
    (a.date.year == b.date.year &&
     (a.date.month < b.date.month ||
      (a.date.month == b.date.month &&
       (a.date.day < b.date.day ||
        (a.date.day == b.date.day && a.msOfDay <= b.msOfDay)))))
  }

  /** Chronological order is total, antisymmetric and transitive. */
  lemma NotAfterIsTotalOrder(a: Instant, b: Instant, c: Instant)
    ensures NotAfter(a, b) || NotAfter(b, a)
    ensures NotAfter(a, b) && NotAfter(b, a) ==> a == b
    ensures NotAfter(a, b) && NotAfter(b, c) ==> NotAfter(a, c)
  {
  }

  /** `isSelectable`: from the start of today up to and including `maxDate`. */
  predicate IsSelectable(d: Instant, todayZero: Instant, maxDate: Instant)
  {
    NotAfter(todayZero, d) && NotAfter(d, maxDate)
  }

  /** The selectable range has no gaps: a date between two selectable dates is selectable. */
  lemma SelectableIsInterval(a: Instant, b: Instant, c: Instant, todayZero: Instant, maxDate: Instant)
    requires IsSelectable(a, todayZero, maxDate) && IsSelectable(c, todayZero, maxDate)
    requires NotAfter(a, b) && NotAfter(b, c)
    ensures IsSelectable(b, todayZero, maxDate)
  {
    NotAfterIsTotalOrder(todayZero, a, b);
    NotAfterIsTotalOrder(b, c, maxDate);
  }
}
