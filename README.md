# Solar Timeline Engine — a Dafny model

This project models the solar timeline of the SolarSync dashboard
(`pages/Dashboard.tsx`). The timeline works as follows:

- The selected date becomes a `YYYY-MM-DD` key. The key picks the sunrise and
  sunset of the day from the daily forecast table. Without a matching row, the
  window is 06:30–18:30.
- A progress value places the viewer on the day's arc: 0 at sunrise, 1 at
  sunset, below 0 before dawn and above 1 after dusk. It comes from the wall
  clock, or from a drag gesture on the arc while one is active.
- From the progress, the window and the hourly forecast table, one
  calculation derives everything the dashboard shows:
  - the simulated 12-hour clock;
  - the hourly sample;
  - the weather category and its display record;
  - the UV level;
  - the vitamin-D status;
  - the circadian phase and its tip, with a rain override;
  - the countdown to the next sunrise or sunset.
- The date picker lays out a month grid. It compares dates by calendar day and
  lets the user pick from today to seven days ahead. The daily feed covers
  seven days, today through today + 6 (`pages/Dashboard.tsx:103`). The eighth
  selectable day, today + 7, therefore has no forecast row, and its window
  and sample fall back to 06:30–18:30 and 20/0/1.
- The forecast list shows each day's length in hours and minutes.

The modules follow the source:

- `Builtins`: the JavaScript primitives the code relies on. These are
  `String(n)`, `padStart(2, '0')`, `Math.round`, the clamp, `findIndex`, and
  the `%` whose result keeps the sign of the dividend.
- `Weather`: classification and display.
- `SolarWindow`: the date key and the window resolution.
- `Hourly`: the hourly lookup.
- `Progress`: wall-clock progress, the angle mapping, and the drag state as a
  class.
- `Derived`: the derived-state calculation.
- `Engine`: one render step.
- `Calendar`: the date picker.
- `Forecast`: the day length.

The loops and step-by-step reassignments of the source are methods proved
against reference functions:

| method | loops or reassignments | reference |
|---|---|---|
| `NormaliseMinutes` | the two normalisation loops | `total % 1440` |
| `ClassifyUv` | the successive reassignments of the UV level | `UvBand` |
| `PhaseAndTip` | the phase branching and the rain override | `PhaseOf` / `InfoOf` / `PhaseTip` |
| `MonthGrid` | the two `push` loops | `IsMonthGrid` |

`Derive` composes these methods. It is proved to produce, field by field, the
bundle that `IsDerivedState` defines.

The code divides by the raw span `sunset - sunrise`
(`pages/Dashboard.tsx:166`, `:174`):

- It does not fall back to the default window when the span is zero or
  negative. The model invents no fallback.
- The wall-clock progress requires a nonzero span
  (`Progress.DefaultProgress`).
- A render requires it only when no drag override is stored
  (`Engine.Render`). With an override, the quotient is never used.
- Derived values use the span as the code does, even when it is negative.

For a sunset earlier than the sunrise, the day-length formatter gives parts
that do not add up to the difference: −1 minute becomes "-1h -1m"
(`Forecast.DayLengthNegativeDifference`). Real forecast data never has this
order, so this is recorded as behaviour, not as a defect.

## Model

| member | source | states |
|---|---|---|
| Builtins.ParseNatToString | pages/Dashboard.tsx:140-143 | reading back the decimal digits of `String(n)` gives `n` |
| Builtins.Pad2RoundTrip | pages/Dashboard.tsx:141-142 | `padStart(2, '0')` of a number below 100 is two digits that read back as the number |
| Builtins.Round | pages/Dashboard.tsx:180 | `Math.round(x)` is the integer within half a unit of `x`, halves rounding up |
| Builtins.Clamp01 | pages/Dashboard.tsx:334 | `Math.max(0, Math.min(1, x))` lies in [0, 1], equals `x` inside, 0 below and 1 above |
| Builtins.FindIndex | pages/Dashboard.tsx:207 | `findIndex` returns the first index whose element satisfies the test, or none if no element does |
| Builtins.JsRem | pages/Dashboard.tsx:749 | JavaScript `%` with a positive divisor: magnitude below the divisor, sign of the dividend |
| Builtins.JsRemCongruent | pages/Dashboard.tsx:749 | the dividend is the divisor times the quotient truncated towards zero, plus the remainder |
| Weather.Classify | pages/Dashboard.tsx:121-128 | Night iff the night flag is set and the code is 0 or 1; Sunny iff it is 0 or 1 by day; Cloudy iff another code ≤ 48; Snow iff 71–77 or 85–86; Rain for all other codes |
| Weather.NightMattersOnlyForClearSky | pages/Dashboard.tsx:121-128 | the night flag changes the category exactly for codes 0 and 1 |
| Weather.ConfigDistinguishesCategories | pages/Dashboard.tsx:12-18 | each category has its own icon and its own description |
| Weather.ClassifyExamples | pages/Dashboard.tsx:121-128 | 0 gives Sunny or Night, 45 gives Cloudy, 73 gives Snow, 95 gives Rain |
| SolarWindow.DateKeyInjective | pages/Dashboard.tsx:139-143 | distinct dates have distinct `YYYY-MM-DD` keys |
| SolarWindow.MinutesOf | pages/Dashboard.tsx:133-136 | minutes from midnight lie in [0, 1439] and give back the hour (`/ 60`) and the minute (`% 60`) |
| SolarWindow.Resolve | pages/Dashboard.tsx:145-154 | the window carries the date key and lies within the day; it is 390/1110 with no table or no matching key, and otherwise comes from the row at the first index of the key |
| SolarWindow.ResolveReadsMatchingRow | pages/Dashboard.tsx:148-153 | when keys are unique, any row holding the selected key is the row the window is read from |
| Hourly.LookupSample | pages/Dashboard.tsx:196-220 | no feed gives 0/0/0; no timestamp with the `date T HH:00` prefix gives 20/0/1; otherwise the first matching row gives the rounded temperature, UV index and code |
| Hourly.PrefixDeterminesHour | pages/Dashboard.tsx:203-207 | a timestamp matches the search prefix of at most one hour |
| Progress.DefaultProgress | pages/Dashboard.tsx:166-174 | progress times span equals minutes since sunrise |
| Progress.DefaultProgressSides | pages/Dashboard.tsx:172-174 | with sunrise before sunset, progress < 0 iff before sunrise and > 1 iff after sunset |
| Progress.AngleToProgress | pages/Dashboard.tsx:331-334 | the result lies in [0, 1]; a positive angle snaps to 0 (pointer left) or 1; an angle in [-π, 0] maps linearly, `p·π = angle + π` |
| Progress.AngleToProgressMonotone | pages/Dashboard.tsx:331-334 | over the arc, a larger angle never gives a smaller progress |
| Progress.DragState.constructor | pages/Dashboard.tsx:21-22 | the initial state: not dragging, no override |
| Progress.DragState.Progress | pages/Dashboard.tsx:175 | the effective progress is the stored override (in [0, 1]) if there is one, else the wall-clock progress |
| Progress.DragState.Start | pages/Dashboard.tsx:339-341 | a gesture begins and the stored override is kept |
| Progress.DragState.Move | pages/Dashboard.tsx:331-336 | during a gesture the override becomes the angle's progress; outside one nothing changes |
| Progress.DragState.End | pages/Dashboard.tsx:357-360 | the gesture ends and the override is cleared, so the effective progress is the wall clock again |
| Derived.SimulatedMinute | pages/Dashboard.tsx:180-184 | the simulated minute lies in [0, 1440) |
| Derived.NormaliseMinutes | pages/Dashboard.tsx:182-184 | after both loops the minute lies in [0, 1440) and is congruent to the input modulo 1440 |
| Derived.TwelveHour | pages/Dashboard.tsx:191 | the 12-hour clock hour lies in 1..12 and is congruent to the hour modulo 12 |
| Derived.Period | pages/Dashboard.tsx:190 | the period is "PM" iff the hour is at least 12, else "AM" |
| Derived.TimeLabelShape | pages/Dashboard.tsx:186-192 | the clock label reads back as the clock: the digits before the colon are the 12-hour hour, and the two digits after it are the minute |
| Derived.TimeLabelIdentifiesMinute | pages/Dashboard.tsx:186-192 | clock label plus period determine the minute of day |
| Derived.ClassifyUv | pages/Dashboard.tsx:229-235 | the reassignments give the band of the reference definition: None at exactly 0, then Low, Moderate, High, Very High, Extreme at 3, 6, 8, 11 |
| Derived.UvBandMonotone | pages/Dashboard.tsx:230-234 | for a positive index the level never falls as the index rises |
| Derived.UvBandBoundaries | pages/Dashboard.tsx:230-235 | 2.9 is Low, 3 is Moderate, 10.9 is Very High, 11 is Extreme, 0 is None |
| Derived.VitaminDStatus | pages/Dashboard.tsx:237-244 | active and "Synthesizing" iff UV ≥ 3; "Low" iff 1 ≤ UV < 3; "Inactive" iff UV < 1 |
| Derived.VitaminDFollowsUvLevel | pages/Dashboard.tsx:230-244 | vitamin D is synthesised exactly when the UV level is Moderate or higher |
| Derived.PhaseMonotone | pages/Dashboard.tsx:251-275 | the phase moves forward through the day as progress grows |
| Derived.DaylightBuckets | pages/Dashboard.tsx:257-274 | inside [0, 1] the comparisons with 0.2, 0.4, 0.6, 0.8 pick the fifth of the span the progress falls in |
| Derived.PhaseAndTip | pages/Dashboard.tsx:246-280 | the title and subtitle are those of the progress's phase; the tip is the rain tip under rain, else the phase's tip, with the UV warning at solar noon when UV > 5 |
| Derived.CountdownAt | pages/Dashboard.tsx:282-302 | the countdown is 1..1440 minutes and ends exactly on the named event's minute; the event is Sunset iff sunrise ≤ t < sunset; the caption is "until dawn" iff t < sunrise, "remaining" iff the event is Sunset, and "until tomorrow" iff t is at or after both sunrise and sunset |
| Derived.CountdownIsNext | pages/Dashboard.tsx:285-302 | no sunrise or sunset minute is passed before the named event |
| Derived.CountdownCoversGap | pages/Dashboard.tsx:285-302 | time since the previous event plus the countdown equals the daylight span or the night span |
| Derived.HoursMinutesLabelInjective | pages/Dashboard.tsx:288-290 | the `${h}h ${m}m` label determines both numbers |
| Derived.CountdownLabelIdentifies | pages/Dashboard.tsx:286-301 | the countdown label determines the minutes of the countdown |
| Derived.Derive | pages/Dashboard.tsx:178-317 | the bundle is, field by field, the derived state of the reference definitions |
| Derived.DaylightProgressIsDay | pages/Dashboard.tsx:180-223 | a progress in [0, 1] lands between sunrise and sunset and is never night |
| Derived.NoonScenario | pages/Dashboard.tsx:178-317 | 06:30–18:30 at 0.5 is 12:30 PM at solar noon; UV 7 is High, synthesises vitamin D and draws the UV warning |
| Derived.PreDawnScenario | pages/Dashboard.tsx:178-317 | 06:30–18:30 at −0.1 is minute 318, pre-dawn, night, with sunrise 72 minutes "until dawn" and a clear sky shown as night |
| Engine.WallClockRoundTrip | pages/Dashboard.tsx:166-184 | without an override the simulated minute is the current minute |
| Engine.WallClockNightMatchesPhase | pages/Dashboard.tsx:172-256 | without an override, with sunrise before sunset, the night flag holds exactly in the pre-dawn and post-sunset phases |
| Engine.Render | pages/Dashboard.tsx:138-180 | a render resolves the window and derives the bundle for the stored override if there is one, else for the wall-clock progress; without an override it shows the wall-clock time; an empty window is allowed when an override is stored |
| Calendar.MonthGrid | pages/Dashboard.tsx:619-636 | the grid is `startDay` fillers then days 1..`daysInMonth`, each dated in the month |
| Calendar.MonthGridPlacesDays | pages/Dashboard.tsx:619-636 | each day occurs exactly once, at `startDay + day - 1`; the day a week later is the cell seven positions on, in the same column; the grid fits six rows of seven |
| Calendar.SameDayIffSameKey | pages/Dashboard.tsx:638-640 | same day iff same calendar date iff same `YYYY-MM-DD` key |
| Calendar.NotAfterIsTotalOrder | pages/Dashboard.tsx:642-645 | the `<=` of dates is total, antisymmetric and transitive |
| Calendar.SelectableIsInterval | pages/Dashboard.tsx:642-645 | a date between two selectable dates is selectable |
| Forecast.DayLengthParts | pages/Dashboard.tsx:744-751 | whole hours are the floor of the difference; minutes lie in −60..59; both are nonnegative for an ordered pair |
| Forecast.DayLengthWholeMinutes | pages/Dashboard.tsx:747-749 | for an ordered pair, hours·60 + minutes is the whole minutes of the difference |
| Forecast.DayLengthNegativeDifference | pages/Dashboard.tsx:747-749 | one minute reversed gives −1 h −1 m, which does not add up to the difference |
| Forecast.DayLengthLabelIdentifies | pages/Dashboard.tsx:744-751 | for ordered pairs, the label determines the whole minutes of the day length |
| Forecast.DayLengthMatchesWindow | pages/Dashboard.tsx:744-751 | for a same-day sunrise and sunset, the day length in minutes is the span of the timeline's window |

## Left out

- Network and storage: the location, weather and geocoding requests and the
  `localStorage` reads (`pages/Dashboard.tsx:49-118`). The daily and hourly
  tables they produce are inputs.
- Date parsing, time zones and locale formatting (`new Date(...)`,
  `toLocaleDateString`, `toLocaleTimeString`, `formatDayLabel`). Parsed
  timestamps are bounded hour and minute fields. Dates are calendar fields.
  Epoch milliseconds in the day-length formatter are plain integers.
- The pointer geometry of `handleMove` (`pages/Dashboard.tsx:321-330`): the
  bounding rectangle, the scaling and `Math.atan2`. `angle` and `dx` are
  inputs.
- `Math.PI` is the exact rational 3.141592653589793. Floating-point numbers
  are exact reals, so rounding error and `NaN` are not modelled.
- The SVG placement of the sun and the arc, and all JSX rendering.
- The window event-listener wiring of the drag gesture
  (`pages/Dashboard.tsx:343-375`). The state it drives is the `DragState`
  class.
- React's memoisation and re-render scheduling. `Engine.Render` is one render
  step.
- `activeUV.toFixed(1)`: the bundle keeps the raw UV index.
- `pages/Settings.tsx`, `pages/Insights.tsx` and `App.tsx` are not part of this
  model. They hold persistence, geocoding, static content and a tab switch.
- Calendar.MonthGrid: `getDay()` of the first of the month and the month
  length from `new Date(year, month + 1, 0)` are inputs, with the month
  length in 28..31.
- Calendar.IsSelectable: `maxDate` (today plus seven days via `setDate`) is
  an input. Date comparison is chronological order on calendar fields and
  time of day, not on epoch milliseconds.
- SolarWindow.DateKey: years are nonnegative. The key of a negative year
  (`String` with a minus sign) is not modelled.
- SolarWindow.Resolve and Hourly.LookupSample: the feed's columns are taken to
  have equal lengths. A shorter sunrise, sunset or value column (an
  out-of-range read yielding `undefined`) is not modelled.
- Progress.DefaultProgress: it requires a nonzero span, because the source
  divides by it. A zero span gives an infinite or `NaN` progress, which is not
  modelled.
