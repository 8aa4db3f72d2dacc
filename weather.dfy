/** Weather classification: a WMO weather interpretation code (the present-weather
    table, WMO code table 4677, as served by the forecast provider) and a night flag
    map to one of five display categories, each with a fixed display record. */
module Weather {

  datatype WeatherType = Sunny | Cloudy | Rain | Snow | Night

  /** Display record of a category: icon name, short description, colour class. */
  datatype Display = Display(icon: string, desc: string, color: string)

  /** Codes 0 (clear sky) and 1 (mainly clear). */
  predicate IsClearSky(code: int) { code == 0 || code == 1 }

  /** Snow fall (71-77, including snow grains) and snow showers (85-86). */
  predicate IsSnowCode(code: int) { 71 <= code <= 77 || 85 <= code <= 86 }

  /** First match wins: night only overrides the clear-sky codes. */
  function Classify(code: int, isNight: bool): (w: WeatherType)
    ensures w == Night <==> isNight && IsClearSky(code)
    ensures w == Sunny <==> !isNight && IsClearSky(code)
    ensures w == Cloudy <==> !IsClearSky(code) && code <= 48
    ensures w == Snow <==> IsSnowCode(code)
    ensures w == Rain <==> code > 48 && !IsSnowCode(code)
  {
    if isNight && (code == 0 || code == 1) then Night
    else if code == 0 || code == 1 then Sunny
    else if code <= 48 then Cloudy
    else if 71 <= code <= 77 then Snow
    else if 85 <= code <= 86 then Snow
    else Rain
  }

  /** The night flag changes the category for the two clear-sky codes and for no other. */
  lemma NightMattersOnlyForClearSky(code: int)
    ensures Classify(code, true) != Classify(code, false) <==> IsClearSky(code)
  {
  }

  /** The fixed category-to-display table. */
  function Config(w: WeatherType): Display
  {
    match w
    case Sunny => Display("wb_sunny", "Clear", "text-yellow-400")
    case Cloudy => Display("cloud", "Cloudy", "text-white")
    case Rain => Display("rainy", "Rain", "text-blue-400")
    case Snow => Display("ac_unit", "Snow", "text-white")
    case Night => Display("bedtime", "Clear Night", "text-blue-200")
  }

  /** Distinct categories show distinct icons and descriptions, so the display
      record identifies the category. */
  lemma ConfigDistinguishesCategories(w1: WeatherType, w2: WeatherType)
    ensures Config(w1).icon == Config(w2).icon ==> w1 == w2
    ensures Config(w1).desc == Config(w2).desc ==> w1 == w2
  {
  }

  /** Example classifications: clear sky by day and by night, fog, snow, thunderstorm. */
  lemma ClassifyExamples()
    ensures Classify(0, false) == Sunny && Classify(0, true) == Night
    ensures Classify(45, false) == Cloudy && Classify(73, false) == Snow
    ensures Classify(95, false) == Rain
  {
  }
}
