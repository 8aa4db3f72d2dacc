/** The derived-state calculation: from a timeline progress, the resolved solar
    window and the hourly feed it computes the simulated clock, the hourly
    sample, the weather display, the UV level, the vitamin-D status, the
    circadian phase with its tip, and the countdown to the next solar event. */
module Derived {
  import opened Builtins
  import opened Weather
  import opened SolarWindow
  import opened Hourly

  // ---------------------------------------------------------------------------
  // Simulated minute of day and clock label

  /** `sunrise + progress * span`: the point of the day a progress value denotes,
      in minutes from midnight, before rounding. */
  function DayPosition(sunriseMins: int, sunsetMins: int, progress: real): real
  {
    sunriseMins as real + progress * (sunsetMins - sunriseMins) as real
  }

  /** The minute of day a progress value denotes: the rounded position reduced
      into [0, 1440). */
  function SimulatedMinute(sunriseMins: int, sunsetMins: int, progress: real): (t: int)
    ensures 0 <= t < 1440
  {
    Round(DayPosition(sunriseMins, sunsetMins, progress)) % 1440
  }

  /** The two normalisation loops: add or subtract whole days until the minute
      lies in [0, 1440); the result is the unique such minute congruent to the input. */
  method NormaliseMinutes(total: int) returns (t: int)
    ensures 0 <= t < 1440
    ensures t == total % 1440
  {
    t := total;
    while t < 0
      invariant t % 1440 == total % 1440
      decreases -t
    {
      t := t + 1440;
    }
    while t >= 1440
      invariant 0 <= t
      invariant t % 1440 == total % 1440
      decreases t
    {
      t := t - 1440;
    }
  }

  /** The 12-hour clock hour: 12 for midnight and noon, else the hour modulo 12. */
  function TwelveHour(hours: int): (h: int)
    requires 0 <= hours <= 23
    ensures 1 <= h <= 12
    ensures h % 12 == hours % 12
  {
    if hours > 12 then hours - 12 else if hours == 0 then 12 else hours
  }

  function Period(hours: int): (p: string)
    ensures p == "PM" || p == "AM"
    ensures p == "PM" <==> hours >= 12
  {
    if hours >= 12 then "PM" else "AM"
  }

  /** `h + ":" + mm` for the minute of day `t`. */
  function TimeLabel(t: int): string
    requires 0 <= t < 1440
  {
    NatToString(TwelveHour(t / 60)) + ":" + Pad2(t % 60)
  }

  /** The label reads back as the clock it shows: the digits before the colon
      are the 12-hour hour, the two digits after it the minute. */
  lemma TimeLabelShape(t: int)
    requires 0 <= t < 1440
    ensures var s := TimeLabel(t);
            var n := |s|;
            4 <= n && s[n - 3] == ':' &&
            AllDigits(s[..n - 3]) && ParseDigits(s[..n - 3]) == TwelveHour(t / 60) &&
            AllDigits(s[n - 2..]) && ParseDigits(s[n - 2..]) == t % 60
  {
    var h, m := NatToString(TwelveHour(t / 60)), Pad2(t % 60);
    var s := TimeLabel(t);
    assert s == h + [':'] + m;
    assert |m| == 2;
    assert s[..|s| - 3] == h;
    assert s[|s| - 2..] == m;
    ParseNatToString(TwelveHour(t / 60));
    Pad2RoundTrip(t % 60);
  }

  /** The label together with the AM/PM period identifies the minute of day:
      the displayed clock never shows two different minutes the same way. */
  lemma TimeLabelIdentifiesMinute(t1: int, t2: int)
    requires 0 <= t1 < 1440 && 0 <= t2 < 1440
    requires TimeLabel(t1) == TimeLabel(t2) && Period(t1 / 60) == Period(t2 / 60)
    ensures t1 == t2
  {
    var h1, h2 := NatToString(TwelveHour(t1 / 60)), NatToString(TwelveHour(t2 / 60));
    DigitsExclude(h1, ':');
    DigitsExclude(h2, ':');
    assert TimeLabel(t1) == h1 + [':'] + Pad2(t1 % 60);
    assert TimeLabel(t2) == h2 + [':'] + Pad2(t2 % 60);
    SplitAtFirst(h1, Pad2(t1 % 60), h2, Pad2(t2 % 60), ':');
    NatToStringInjective(TwelveHour(t1 / 60), TwelveHour(t2 / 60));
    Pad2Injective(t1 % 60, t2 % 60);
    assert t1 / 60 == t2 / 60;
  }

  // ---------------------------------------------------------------------------
  // UV level and vitamin D

  datatype UvLevel = NoUv | Low | Moderate | High | VeryHigh | Extreme

  function UvLabel(level: UvLevel): string
  {
    match level
    case NoUv => "None"
    case Low => "Low"
    case Moderate => "Moderate"
    case High => "High"
    case VeryHigh => "Very High"
    case Extreme => "Extreme"
  }

  function UvRank(level: UvLevel): nat
  {
    match level
    case NoUv => 0
    case Low => 1
    case Moderate => 2
    case High => 3
    case VeryHigh => 4
    case Extreme => 5
  }

  /** Reference definition of the UV level: an index of exactly 0 has none;
      otherwise the band between consecutive thresholds 3, 6, 8 and 11. */
  function UvBand(uv: real): UvLevel
  {
    if uv == 0.0 then NoUv
    else if uv < 3.0 then Low
    else if uv < 6.0 then Moderate
    else if uv < 8.0 then High
    else if uv < 11.0 then VeryHigh
    else Extreme
  }

  /** The successive reassignments of the source: each threshold met raises the
      level, and an index of exactly 0 overrides everything. */
  method ClassifyUv(uv: real) returns (level: UvLevel)
    ensures level == UvBand(uv)
  {
    level := Low;
    if uv >= 3.0 { level := Moderate; }
    if uv >= 6.0 { level := High; }
    if uv >= 8.0 { level := VeryHigh; }
    if uv >= 11.0 { level := Extreme; }
    if uv == 0.0 { level := NoUv; }
  }

  /** For a positive index the level never falls as the index rises. */
  lemma UvBandMonotone(u1: real, u2: real)
    requires 0.0 < u1 <= u2
    ensures UvRank(UvBand(u1)) <= UvRank(UvBand(u2))
  {
  }

  /** Boundary cases of the UV bands. */
  lemma UvBandBoundaries()
    ensures UvBand(2.9) == Low && UvBand(3.0) == Moderate
    ensures UvBand(10.9) == VeryHigh && UvBand(11.0) == Extreme && UvBand(0.0) == NoUv
  {
  }

  datatype VitaminD = VitaminD(val: string, sub: string, active: bool)

  function VitaminDStatus(uv: real): (v: VitaminD)
    ensures v.active <==> uv >= 3.0
    ensures v.val == "Synthesizing" <==> uv >= 3.0
    ensures v.val == "Low" <==> 1.0 <= uv < 3.0
    ensures v.val == "Inactive" <==> uv < 1.0
  {
    if uv >= 3.0 then VitaminD("Synthesizing", "Optimal production", true)
    else if uv >= 1.0 && uv < 3.0 then VitaminD("Low", "Inefficient production", false)
    else VitaminD("Inactive", "UV Index too low", false)
  }

  /** Vitamin D is synthesised exactly when the UV level is Moderate or higher. */
  lemma VitaminDFollowsUvLevel(uv: real)
    ensures VitaminDStatus(uv).active <==> UvRank(UvBand(uv)) >= UvRank(Moderate)
  {
  }

  // ---------------------------------------------------------------------------
  // Circadian phase and tip

  datatype Phase = PreDawn | SunrisePhase | MorningRise | SolarNoon | Afternoon | SunsetPhase | PostSunset

  datatype PhaseInfo = PhaseInfo(title: string, sub: string)

  /** Position of a phase in the course of the day. */
  function PhaseOrder(ph: Phase): nat
  {
    match ph
    case PreDawn => 0
    case SunrisePhase => 1
    case MorningRise => 2
    case SolarNoon => 3
    case Afternoon => 4
    case SunsetPhase => 5
    case PostSunset => 6
  }

  /** Reference definition of the phase: outside [0, 1] the sign decides; inside,
      the fifth of the daylight span the progress falls in, the last fifth
      closed at 1. */
  function PhaseOf(progress: real): Phase
  {
    if progress < 0.0 then PreDawn
    else if progress > 1.0 then PostSunset
    else
      var fifth := (5.0 * progress).Floor;
      if fifth == 0 then SunrisePhase
      else if fifth == 1 then MorningRise
      else if fifth == 2 then SolarNoon
      else if fifth == 3 then Afternoon
      else SunsetPhase
  }

  /** The phase moves forward through the day as the progress grows. */
  lemma PhaseMonotone(p1: real, p2: real)
    requires p1 <= p2
    ensures PhaseOrder(PhaseOf(p1)) <= PhaseOrder(PhaseOf(p2))
  {
    if 0.0 <= p1 && p2 <= 1.0 {
      assert (5.0 * p1).Floor <= (5.0 * p2).Floor;
    }
  }

  function InfoOf(ph: Phase): PhaseInfo
  {
    match ph
    case PreDawn => PhaseInfo("Pre-Dawn", "Melatonin is peaking.")
    case PostSunset => PhaseInfo("Post-Sunset", "Melatonin production begins.")
    case SunrisePhase => PhaseInfo("Sunrise Phase", "Critical for circadian reset.")
    case MorningRise => PhaseInfo("Morning Rise", "Cortisol is elevating naturally.")
    case SolarNoon => PhaseInfo("Solar Noon", "Sun is at highest elevation.")
    case Afternoon => PhaseInfo("Afternoon", "Natural energy dip.")
    case SunsetPhase => PhaseInfo("Sunset Phase", "Signal to body day is ending.")
  }

  const UvWarningTip := "UV is high. Limit direct exposure or use protection."
  const WalkTip := "Take a walk. Brightest light of the day."
  const RainTip := "Rainy day? Indoor lighting is often too dim. Sit by a window."

  /** The phase's own tip; at solar noon it warns when the UV index exceeds 5. */
  function PhaseTip(ph: Phase, uv: real): string
  {
    match ph
    case PreDawn => "Keep environments dark to preserve sleep quality until wake time."
    case PostSunset => "Avoid blue light now. Use warm lighting to prepare for bed."
    case SunrisePhase => "Get 10-30 mins of light now to anchor your wake/sleep cycle."
    case MorningRise => "Great time for caffeine or exercise. Alertness is rising."
    case SolarNoon => if uv > 5.0 then UvWarningTip else WalkTip
    case Afternoon => "Naps should be <20 mins. A walk is better than caffeine now."
    case SunsetPhase => "View the sunset. The color spectrum signals safety to your brain."
  }

  /** Inside the daylight span, the fifths of the reference definition are the
      source's comparisons against 0.2, 0.4, 0.6 and 0.8. */
  lemma DaylightBuckets(p: real)
    requires 0.0 <= p <= 1.0
    ensures p < 0.2 ==> PhaseOf(p) == SunrisePhase
    ensures 0.2 <= p < 0.4 ==> PhaseOf(p) == MorningRise
    ensures 0.4 <= p < 0.6 ==> PhaseOf(p) == SolarNoon
    ensures 0.6 <= p < 0.8 ==> PhaseOf(p) == Afternoon
    ensures 0.8 <= p ==> PhaseOf(p) == SunsetPhase
  {
  }

  /** The phase branching of the source, then the rain override, which replaces
      the tip and leaves the title and subtitle alone. */
  method PhaseAndTip(progress: real, uv: real, weather: WeatherType) returns (info: PhaseInfo, tip: string)
    ensures info == InfoOf(PhaseOf(progress))
    ensures weather == Rain ==> tip == RainTip
    ensures weather != Rain ==> tip == PhaseTip(PhaseOf(progress), uv)
  {
    var clamped := Clamp01(progress);
    info := PhaseInfo("Solar Day", "Tracking solar position.");
    tip := "Monitor light exposure for better sleep.";
    if progress < 0.0 {
      info, tip := InfoOf(PreDawn), PhaseTip(PreDawn, uv);
    } else if progress > 1.0 {
      info, tip := InfoOf(PostSunset), PhaseTip(PostSunset, uv);
    } else {
      DaylightBuckets(progress);
      if clamped < 0.2 {
        info, tip := InfoOf(SunrisePhase), PhaseTip(SunrisePhase, uv);
      } else if clamped < 0.4 {
        info, tip := InfoOf(MorningRise), PhaseTip(MorningRise, uv);
      } else if clamped < 0.6 {
        info, tip := InfoOf(SolarNoon), if uv > 5.0 then UvWarningTip else WalkTip;
      } else if clamped < 0.8 {
        info, tip := InfoOf(Afternoon), PhaseTip(Afternoon, uv);
      } else {
        info, tip := InfoOf(SunsetPhase), PhaseTip(SunsetPhase, uv);
      }
    }
    if weather == Rain {
      tip := RainTip;
    }
  }

  // ---------------------------------------------------------------------------
  // Night flag and next-event countdown

  /** Strictly before sunrise or strictly after sunset; the sunset minute is day. */
  predicate IsNight(t: int, sunriseMins: int, sunsetMins: int)
  {
    t < sunriseMins || t > sunsetMins
  }

  datatype SolarEvent = Sunrise | Sunset

  /** The next event, the minutes until it, and the caption under the countdown. */
  datatype Countdown = Countdown(event: SolarEvent, minutes: int, sub: string)

  function CountdownAt(t: int, sunriseMins: int, sunsetMins: int): (c: Countdown)
    requires 0 <= t < 1440 && 0 <= sunriseMins < 1440 && 0 <= sunsetMins < 1440
    ensures 1 <= c.minutes <= 1440
    ensures (t + c.minutes) % 1440 == (if c.event == Sunrise then sunriseMins else sunsetMins)
    ensures c.event == Sunset <==> sunriseMins <= t < sunsetMins
    ensures c.sub == "until dawn" <==> t < sunriseMins
    ensures c.sub == "remaining" <==> c.event == Sunset
    ensures c.sub == "until tomorrow" <==> sunriseMins <= t && sunsetMins <= t
  {
    if t < sunriseMins then Countdown(Sunrise, sunriseMins - t, "until dawn")
    else if t < sunsetMins then Countdown(Sunset, sunsetMins - t, "remaining")
    else Countdown(Sunrise, (1440 - t) + sunriseMins, "until tomorrow")
  }

  /** With sunrise no later than sunset, the countdown names the first solar
      event after `t`: no sunrise or sunset minute is passed on the way. */
  lemma CountdownIsNext(t: int, sunriseMins: int, sunsetMins: int, k: int)
    requires 0 <= t < 1440 && 0 <= sunriseMins <= sunsetMins < 1440
    requires 0 < k < CountdownAt(t, sunriseMins, sunsetMins).minutes
    ensures (t + k) % 1440 != sunriseMins && (t + k) % 1440 != sunsetMins
  {
    if t + k >= 1440 {
      assert (t + k) % 1440 == t + k - 1440;
    }
  }

  /** The countdown and the time elapsed since the previous event add up to the
      daylight span or to the night span: no minute is lost or counted twice
      across midnight. */
  lemma CountdownCoversGap(t: int, sunriseMins: int, sunsetMins: int)
    requires 0 <= t < 1440 && 0 <= sunriseMins <= sunsetMins < 1440
    ensures var c := CountdownAt(t, sunriseMins, sunsetMins);
            if c.event == Sunset then (t - sunriseMins) + c.minutes == sunsetMins - sunriseMins
            else if t < sunriseMins then (t + 1440 - sunsetMins) + c.minutes == 1440 - (sunsetMins - sunriseMins)
            else (t - sunsetMins) + c.minutes == 1440 - (sunsetMins - sunriseMins)
  {
  }

  /** `${h}h ${m}m`. */
  function HoursMinutesLabel(h: int, m: int): string
  {
    IntToString(h) + "h " + IntToString(m) + "m"
  }

  /** For naturals the label is the hours digits, `h`, then ` `, the minute
      digits and `m`. */
  lemma HoursMinutesLabelParts(h: nat, m: nat)
    ensures HoursMinutesLabel(h, m) == NatToString(h) + ['h'] + ([' '] + NatToString(m) + ['m'])
  {
    assert IntToString(h) == NatToString(h);
    assert IntToString(m) == NatToString(m);
  }

  /** The `${h}h ${m}m` label gives back the hours and the minutes it shows. */
  lemma HoursMinutesLabelInjective(h1: nat, m1: nat, h2: nat, m2: nat)
    requires HoursMinutesLabel(h1, m1) == HoursMinutesLabel(h2, m2)
    ensures h1 == h2 && m1 == m2
  {
    var s1, s2 := NatToString(h1), NatToString(h2);
    var r1, r2 := NatToString(m1), NatToString(m2);
    HoursMinutesLabelParts(h1, m1);
    HoursMinutesLabelParts(h2, m2);
    DigitsExclude(s1, 'h');
    DigitsExclude(s2, 'h');
    SplitAtFirst(s1, [' '] + r1 + ['m'], s2, [' '] + r2 + ['m'], 'h');
    NatToStringInjective(h1, h2);
    Unwrap(r1, r2, ' ', 'm');
    NatToStringInjective(m1, m2);
  }

  /** A countdown label identifies the countdown: hours and minutes recombine
      into the minute count, the minutes part being below 60. */
  lemma CountdownLabelIdentifies(d1: nat, d2: nat)
    requires HoursMinutesLabel(d1 / 60, d1 % 60) == HoursMinutesLabel(d2 / 60, d2 % 60)
    ensures d1 == d2
  {
    HoursMinutesLabelInjective(d1 / 60, d1 % 60, d2 / 60, d2 % 60);
  }

  datatype NextEvent = NextEvent(name: string, time: string, sub: string, icon: string)

  function NextEventOf(c: Countdown): NextEvent
  {
    match c.event
    case Sunrise => NextEvent("Sunrise", HoursMinutesLabel(c.minutes / 60, c.minutes % 60), c.sub, "wb_twilight")
    case Sunset => NextEvent("Sunset", HoursMinutesLabel(c.minutes / 60, c.minutes % 60), c.sub, "bedtime")
  }

  // ---------------------------------------------------------------------------
  // The derived-state bundle

  /** `uv` is the raw index; its one-decimal rendering is not modelled. */
  datatype DerivedState = DerivedState(
    timeString: string,
    period: string,
    info: PhaseInfo,
    tip: string,
    uv: real,
    uvLevel: string,
    vitaminD: VitaminD,
    nextEvent: NextEvent,
    weather: Display,
    temp: int)

  /** What the bundle for `progress` is, field by field, in terms of the
      reference definitions above. */
  ghost predicate IsDerivedState(progress: real, day: SolarDay, hourly: Option<HourlyTable>, s: DerivedState)
    requires day.InDay()
    requires hourly.Some? ==> hourly.value.Aligned()
  {
    var t := SimulatedMinute(day.sunriseMins, day.sunsetMins, progress);
    var sample := LookupSample(day.dateKey, t / 60, hourly);
    var weatherType := Classify(sample.code, IsNight(t, day.sunriseMins, day.sunsetMins));
    && s.timeString == TimeLabel(t)
    && s.period == Period(t / 60)
    && s.temp == sample.temp
    && s.uv == sample.uv
    && s.weather == Config(weatherType)
    && s.uvLevel == UvLabel(UvBand(sample.uv))
    && s.vitaminD == VitaminDStatus(sample.uv)
    && s.info == InfoOf(PhaseOf(progress))
    && s.tip == (if weatherType == Rain then RainTip else PhaseTip(PhaseOf(progress), sample.uv))
    && s.nextEvent == NextEventOf(CountdownAt(t, day.sunriseMins, day.sunsetMins))
  }

  method Derive(progress: real, day: SolarDay, hourly: Option<HourlyTable>) returns (s: DerivedState)
    requires day.InDay()
    requires hourly.Some? ==> hourly.value.Aligned()
    ensures IsDerivedState(progress, day, hourly, s)
  {
    var sunrise, sunset := day.sunriseMins, day.sunsetMins;
    var t := NormaliseMinutes(Round(DayPosition(sunrise, sunset, progress)));
    var hours := t / 60;
    var sample := LookupSample(day.dateKey, hours, hourly);
    var isNight := t < sunrise || t > sunset;
    var weatherType := Classify(sample.code, isNight);
    var level := ClassifyUv(sample.uv);
    var info, tip := PhaseAndTip(progress, sample.uv, weatherType);
    var nextEvent := NextEventOf(CountdownAt(t, sunrise, sunset));
    s := DerivedState(TimeLabel(t), Period(hours), info, tip, sample.uv, UvLabel(level),
                      VitaminDStatus(sample.uv), nextEvent, Config(weatherType), sample.temp);
  }

  // ---------------------------------------------------------------------------
  // Properties of the bundle

  /** A progress inside the daylight span, with sunrise no later than sunset,
      lands on a minute between the two: never night, never before sunrise. */
  lemma DaylightProgressIsDay(progress: real, sunriseMins: int, sunsetMins: int)
    requires 0.0 <= progress <= 1.0
    requires 0 <= sunriseMins <= sunsetMins < 1440
    ensures var t := SimulatedMinute(sunriseMins, sunsetMins, progress);
            sunriseMins <= t <= sunsetMins && !IsNight(t, sunriseMins, sunsetMins)
  {
    var span := (sunsetMins - sunriseMins) as real;
    MulNonNegative(progress, span);
    MulNonNegative(1.0 - progress, span);
    assert (1.0 - progress) * span == span - progress * span;
    var x := DayPosition(sunriseMins, sunsetMins, progress);
    assert x == sunriseMins as real + progress * span;
    assert sunriseMins as real <= x <= sunsetMins as real;
    var r := Round(x);
    assert sunriseMins <= r <= sunsetMins;
  }

  /** Example: a window 06:30-18:30 at progress 0.5 is 12:30 PM,
      solar noon in daylight, and a UV index of 7 is High, synthesises vitamin D
      and draws the protection tip. */
  lemma NoonScenario()
    ensures SimulatedMinute(390, 1110, 0.5) == 750
    ensures TimeLabel(750) == "12:30" && Period(750 / 60) == "PM"
    ensures PhaseOf(0.5) == SolarNoon && !IsNight(750, 390, 1110)
    ensures UvBand(7.0) == High && VitaminDStatus(7.0).active
    ensures PhaseTip(SolarNoon, 7.0) == UvWarningTip
  {
    assert NatToString(12) == "12";
    assert Pad2(30) == "30";
  }

  /** Example: progress -0.1 is pre-dawn, the next event is a
      sunrise ahead, and a clear sky shows as night. */
  lemma PreDawnScenario()
    ensures var t := SimulatedMinute(390, 1110, -0.1);
            t == 318 && PhaseOf(-0.1) == PreDawn && IsNight(t, 390, 1110) &&
            CountdownAt(t, 390, 1110) == Countdown(Sunrise, 72, "until dawn") &&
            Classify(0, IsNight(t, 390, 1110)) == Night
  {
  }
}
