/** The dashboard's render step: resolve the solar window for the selected date,
    take the wall-clock progress or the drag override, and derive the bundle. */
module Engine {
  import opened Builtins
  import opened Weather
  import opened SolarWindow
  import opened Hourly
  import opened Progress
  import opened Derived

  /** Without an override, the progress of the wall clock maps back to the wall
      clock: the simulated minute is the current minute. */
  lemma WallClockRoundTrip(nowMins: int, sunriseMins: int, sunsetMins: int)
    requires 0 <= nowMins < 1440 && sunriseMins != sunsetMins
    ensures SimulatedMinute(sunriseMins, sunsetMins, DefaultProgress(nowMins, sunriseMins, sunsetMins)) == nowMins
  {
    var p := DefaultProgress(nowMins, sunriseMins, sunsetMins);
    assert DayPosition(sunriseMins, sunsetMins, p) == nowMins as real;
    assert Round(nowMins as real) == nowMins;
  }

  /** Without an override and with sunrise before sunset, the phase narrative and
      the night flag agree: it is night exactly in the pre-dawn and post-sunset
      phases. */
  lemma WallClockNightMatchesPhase(nowMins: int, sunriseMins: int, sunsetMins: int)
    requires 0 <= nowMins < 1440 && sunriseMins < sunsetMins
    ensures var p := DefaultProgress(nowMins, sunriseMins, sunsetMins);
            IsNight(SimulatedMinute(sunriseMins, sunsetMins, p), sunriseMins, sunsetMins) <==>
            PhaseOf(p) == PreDawn || PhaseOf(p) == PostSunset
  {
    WallClockRoundTrip(nowMins, sunriseMins, sunsetMins);
    DefaultProgressSides(nowMins, sunriseMins, sunsetMins);
  }

  /** One render: the resolved window and the bundle for the effective progress.
      The source divides by the raw span, so without a stored override the
      window must not be empty; with one, the quotient is never used. */
  method Render(drag: DragState, date: CalendarDate, daily: Option<DailyTable>,
                hourly: Option<HourlyTable>, now: LocalTime)
    returns (day: SolarDay, s: DerivedState)
    requires drag.Valid()
    requires daily.Some? ==> daily.value.Aligned()
    requires hourly.Some? ==> hourly.value.Aligned()
    requires drag.dragProgress.None? ==> Resolve(date, daily).sunriseMins != Resolve(date, daily).sunsetMins
    ensures day == Resolve(date, daily)
    ensures IsDerivedState(if drag.dragProgress.Some? then drag.dragProgress.value
                           else DefaultProgress(MinutesOf(now), day.sunriseMins, day.sunsetMins),
                           day, hourly, s)
    ensures drag.dragProgress.None? ==>
              s.timeString == TimeLabel(MinutesOf(now)) && s.period == Period(now.hour)
  {
    day := Resolve(date, daily);
    var progress: real;
    if day.sunriseMins != day.sunsetMins {
      var wallClock := DefaultProgress(MinutesOf(now), day.sunriseMins, day.sunsetMins);
      progress := drag.Progress(wallClock);
      WallClockRoundTrip(MinutesOf(now), day.sunriseMins, day.sunsetMins);
    } else {
      progress := drag.dragProgress.value;
    }
    s := Derive(progress, day, hourly);
  }
}
