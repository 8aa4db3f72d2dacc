/** Solar window resolution: the selected date becomes a `YYYY-MM-DD` key (the
    full-date form of section 5.6 of RFC 3339), the key is looked up in the daily
    forecast table, and the sunrise and sunset of the first matching row become
    minutes from local midnight; without a match the window is 06:30-18:30. */
module SolarWindow {
  import opened Builtins

  type Month = m: int | 1 <= m <= 12 witness 1
  type MonthDay = d: int | 1 <= d <= 31 witness 1
  type Hour = h: int | 0 <= h <= 23
  type Minute = m: int | 0 <= m <= 59

  /** The local calendar fields of a `Date`: full year, month (1-12), day of month. */
  datatype CalendarDate = CalendarDate(year: nat, month: Month, day: MonthDay)

  /** `getHours()` and `getMinutes()` of a parsed local timestamp. */
  datatype LocalTime = LocalTime(hour: Hour, minute: Minute)

  /** The daily feed: date keys with index-aligned sunrise and sunset timestamps. */
  datatype DailyTable = DailyTable(time: seq<string>, sunrise: seq<LocalTime>, sunset: seq<LocalTime>)
  {
    predicate Aligned() { |sunrise| == |time| && |sunset| == |time| }
  }

  /** The resolved window, in minutes from local midnight, and the date key. */
  datatype SolarDay = SolarDay(sunriseMins: int, sunsetMins: int, dateKey: string)
  {
    predicate InDay() { 0 <= sunriseMins < 1440 && 0 <= sunsetMins < 1440 }
  }

  const DefaultSunrise: int := 6 * 60 + 30
  const DefaultSunset: int := 18 * 60 + 30

  /** The `YYYY-MM-DD` key of a date: the year in decimal, month and day padded to two digits. */
  function DateKey(d: CalendarDate): string
  {
    NatToString(d.year) + "-" + Pad2(d.month) + "-" + Pad2(d.day)
  }

  /** Distinct dates have distinct keys, so an exact key match finds the selected date. */
  lemma DateKeyInjective(a: CalendarDate, b: CalendarDate)
    ensures DateKey(a) == DateKey(b) ==> a == b
  {
    if DateKey(a) == DateKey(b) {
      var ya, yb := NatToString(a.year), NatToString(b.year);
      var ma, mb := Pad2(a.month), Pad2(b.month);
      var da, db := Pad2(a.day), Pad2(b.day);
      assert DateKey(a) == ya + ['-'] + (ma + "-" + da);
      assert DateKey(b) == yb + ['-'] + (mb + "-" + db);
      DigitsExclude(ya, '-');
      DigitsExclude(yb, '-');
      SplitAtFirst(ya, ma + "-" + da, yb, mb + "-" + db, '-');
      NatToStringInjective(a.year, b.year);
      assert ma + "-" + da == ma + ['-'] + da;
      assert mb + "-" + db == mb + ['-'] + db;
      DigitsExclude(ma, '-');
      DigitsExclude(mb, '-');
      SplitAtFirst(ma, da, mb, db, '-');
      Pad2Injective(a.month, b.month);
      Pad2Injective(a.day, b.day);
    }
  }

  /** `getHours() * 60 + getMinutes()`: a minute of the day that gives the fields back. */
  function MinutesOf(t: LocalTime): (m: int)
    ensures 0 <= m < 1440
    ensures m / 60 == t.hour && m % 60 == t.minute
  {
    t.hour * 60 + t.minute
  }

  /** `i` is the first index at which `x` occurs in `xs`. */
  predicate IsFirstIndex<T(==)>(xs: seq<T>, x: T, i: int)
  {
    0 <= i < |xs| && xs[i] == x && forall j :: 0 <= j < i ==> xs[j] != x
  }

  function Resolve(date: CalendarDate, daily: Option<DailyTable>): (w: SolarDay)
    requires daily.Some? ==> daily.value.Aligned()
    ensures w.dateKey == DateKey(date)
    ensures w.InDay()
    ensures daily.None? || DateKey(date) !in daily.value.time ==>
              w.sunriseMins == DefaultSunrise && w.sunsetMins == DefaultSunset
    ensures daily.Some? ==> forall i :: IsFirstIndex(daily.value.time, DateKey(date), i) ==>
              w.sunriseMins == MinutesOf(daily.value.sunrise[i]) &&
              w.sunsetMins == MinutesOf(daily.value.sunset[i])
  {
    var key := DateKey(date);
    var index := if daily.Some? then FindIndex(daily.value.time, (t: string) => t == key) else None;
    if index.Some? then
      SolarDay(MinutesOf(daily.value.sunrise[index.value]), MinutesOf(daily.value.sunset[index.value]), key)
    else
      SolarDay(DefaultSunrise, DefaultSunset, key)
  }

  /** No date key occurs twice in the daily feed. */
  predicate UniqueKeys(time: seq<string>)
  {
    forall i, j :: 0 <= i < j < |time| ==> time[i] != time[j]
  }

  /** With unique date keys, a row whose key is the selected date is the row the
      window comes from. */
  lemma ResolveReadsMatchingRow(date: CalendarDate, daily: DailyTable, i: int)
    requires daily.Aligned() && UniqueKeys(daily.time)
    requires 0 <= i < |daily.time| && daily.time[i] == DateKey(date)
    ensures Resolve(date, Some(daily)) ==
              SolarDay(MinutesOf(daily.sunrise[i]), MinutesOf(daily.sunset[i]), DateKey(date))
  {
    assert IsFirstIndex(daily.time, DateKey(date), i);
  }
}
