/** The day length shown in the seven-day forecast: the sunset timestamp minus
    the sunrise timestamp, in milliseconds, split into whole hours (rounded
    down) and the minutes of the remaining part of an hour, shown as
    `${hours}h ${mins}m`. */
module Forecast {
  import opened Builtins
  import opened SolarWindow
  import opened Derived

  const MsPerMinute: int := 1000 * 60
  const MsPerHour: int := 1000 * 60 * 60

  datatype DayLength = DayLength(hours: int, mins: int)

  /** `Math.floor(diff / hour)` and `Math.floor((diff % hour) / minute)`, where
      `%` keeps the sign of the difference. */
  function DayLengthParts(riseMs: int, setMs: int): (r: DayLength)
    ensures r.hours * MsPerHour <= setMs - riseMs < (r.hours + 1) * MsPerHour
    ensures -60 <= r.mins <= 59
    ensures setMs >= riseMs ==> 0 <= r.hours && 0 <= r.mins
  {
    var diffMs := setMs - riseMs;
    DayLength(diffMs / MsPerHour, JsRem(diffMs, MsPerHour) / MsPerMinute)
  }

  /** For a sunset no earlier than the sunrise, the hours and minutes add up to
      the whole minutes of the difference. */
  lemma DayLengthWholeMinutes(riseMs: int, setMs: int)
    requires riseMs <= setMs
    ensures var r := DayLengthParts(riseMs, setMs);
            r.hours * 60 + r.mins == (setMs - riseMs) / MsPerMinute
  {
    var diff := setMs - riseMs;
    var h, rem := diff / MsPerHour, diff % MsPerHour;
    assert JsRem(diff, MsPerHour) == rem;
    var m, sec := rem / MsPerMinute, rem % MsPerMinute;
    assert diff == h * MsPerHour + rem;
    assert rem == m * MsPerMinute + sec;
    assert diff == (h * 60 + m) * MsPerMinute + sec;
    assert 0 <= sec < MsPerMinute;
    DivisionUnique(diff, MsPerMinute, h * 60 + m, sec);
  }

  /** Euclidean division has one quotient for each remainder in range. */
  lemma DivisionUnique(n: int, d: int, q: int, r: int)
    requires d > 0 && 0 <= r < d && n == q * d + r
    ensures n / d == q
  {
    var q', r' := n / d, n % d;
    assert n == q' * d + r';
    if q' < q {
      assert (q - q') * d == r' - r;
      MulAtLeast(q - q', d);
    } else if q < q' {
      assert (q' - q) * d == r - r';
      MulAtLeast(q' - q, d);
    }
  }

  lemma MulAtLeast(k: int, d: int)
    requires k >= 1 && d > 0
    ensures k * d >= d
  {
  }

  /** With a sunset before the sunrise the two parts do not add up: one minute
      short of the sunrise gives -1 hours and -1 minutes, 61 minutes in all. */
  lemma DayLengthNegativeDifference()
    ensures DayLengthParts(60000, 0) == DayLength(-1, -1)
    ensures DayLengthParts(60000, 0).hours * 60 + DayLengthParts(60000, 0).mins != (0 - 60000) / MsPerMinute
  {
    assert JsRem(-60000, MsPerHour) == -60000;
  }

  /** `getDayLength`: the `${hours}h ${mins}m` label. */
  function DayLengthLabel(riseMs: int, setMs: int): string
  {
    var r := DayLengthParts(riseMs, setMs);
    HoursMinutesLabel(r.hours, r.mins)
  }

  /** For ordered timestamps the label gives back the whole minutes of the day length. */
  lemma DayLengthLabelIdentifies(rise1: int, set1: int, rise2: int, set2: int)
    requires rise1 <= set1 && rise2 <= set2
    requires DayLengthLabel(rise1, set1) == DayLengthLabel(rise2, set2)
    ensures (set1 - rise1) / MsPerMinute == (set2 - rise2) / MsPerMinute
  {
    var r1, r2 := DayLengthParts(rise1, set1), DayLengthParts(rise2, set2);
    HoursMinutesLabelInjective(r1.hours, r1.mins, r2.hours, r2.mins);
    DayLengthWholeMinutes(rise1, set1);
    DayLengthWholeMinutes(rise2, set2);
  }

  /** For a sunrise and a sunset on the same day, given to the minute, the
      forecast's day length is the span of the solar window the timeline uses. */
  lemma DayLengthMatchesWindow(midnightMs: int, sunrise: LocalTime, sunset: LocalTime)
    requires MinutesOf(sunrise) <= MinutesOf(sunset)
    ensures var r := DayLengthParts(midnightMs + MinutesOf(sunrise) * MsPerMinute,
                                    midnightMs + MinutesOf(sunset) * MsPerMinute);
            r.hours * 60 + r.mins == MinutesOf(sunset) - MinutesOf(sunrise)
  {
    var riseMs := midnightMs + MinutesOf(sunrise) * MsPerMinute;
    var setMs := midnightMs + MinutesOf(sunset) * MsPerMinute;
    DayLengthWholeMinutes(riseMs, setMs);
    assert setMs - riseMs == (MinutesOf(sunset) - MinutesOf(sunrise)) * MsPerMinute;
    DivisionUnique(setMs - riseMs, MsPerMinute, MinutesOf(sunset) - MinutesOf(sunrise), 0);
  }
}
