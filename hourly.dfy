/** Hourly sample lookup: the hourly feed row for the selected date and the
    simulated hour is the first row whose timestamp starts with
    `YYYY-MM-DDTHH:00`; a miss gives a fixed neutral sample, and no feed at all
    leaves the zero sample. */
module Hourly {
  import opened Builtins

  /** The hourly feed: timestamps with index-aligned temperature, weather code and UV index. */
  datatype HourlyTable = HourlyTable(time: seq<string>, temperature: seq<real>, weatherCode: seq<int>, uvIndex: seq<real>)
  {
    predicate Aligned()
    {
      |temperature| == |time| && |weatherCode| == |time| && |uvIndex| == |time|
    }
  }

  /** The sample the dashboard shows: rounded temperature, raw UV index, raw weather code. */
  datatype Sample = Sample(temp: int, uv: real, code: int)

  /** Shown while no hourly feed has arrived. */
  const NoFeedSample := Sample(0, 0.0, 0)

  /** Shown when the feed has no row for the date and hour. */
  const FallbackSample := Sample(20, 0.0, 1)

  /** The search prefix `dateKey + "T" + HH + ":00"`. */
  function HourPrefix(dateKey: string, hours: nat): string
  {
    dateKey + "T" + Pad2(hours) + ":00"
  }

  /** `i` is the first row whose timestamp starts with `prefix`. */
  predicate IsFirstMatch(time: seq<string>, prefix: string, i: int)
  {
    0 <= i < |time| && prefix <= time[i] && forall j :: 0 <= j < i ==> !(prefix <= time[j])
  }

  /** No timestamp starts with `prefix`. */
  predicate NoMatch(time: seq<string>, prefix: string)
  {
    forall i :: 0 <= i < |time| ==> !(prefix <= time[i])
  }

  function LookupSample(dateKey: string, hours: nat, hourly: Option<HourlyTable>): (s: Sample)
    requires hourly.Some? ==> hourly.value.Aligned()
    ensures hourly.None? ==> s == NoFeedSample
    ensures hourly.Some? && NoMatch(hourly.value.time, HourPrefix(dateKey, hours)) ==> s == FallbackSample
    ensures hourly.Some? ==> forall i :: IsFirstMatch(hourly.value.time, HourPrefix(dateKey, hours), i) ==>
              s == Sample(Round(hourly.value.temperature[i]), hourly.value.uvIndex[i], hourly.value.weatherCode[i])
  {
    match hourly
    case None => NoFeedSample
    case Some(table) =>
      var prefix := HourPrefix(dateKey, hours);
      match FindIndex(table.time, (t: string) => prefix <= t)
      case None => FallbackSample
      case Some(i) => Sample(Round(table.temperature[i]), table.uvIndex[i], table.weatherCode[i])
  }

  /** For a given date key, a timestamp starts with the prefix of at most one
      hour, so the lookup never confuses two hours of the same day. */
  lemma PrefixDeterminesHour(dateKey: string, h1: nat, h2: nat, stamp: string)
    requires h1 < 100 && h2 < 100
    requires HourPrefix(dateKey, h1) <= stamp && HourPrefix(dateKey, h2) <= stamp
    ensures h1 == h2
  {
    var p1, p2 := HourPrefix(dateKey, h1), HourPrefix(dateKey, h2);
    assert |p1| == |p2| == |dateKey| + 6;
    assert p1 == stamp[..|p1|] == p2;
    assert Pad2(h1) == p1[|dateKey| + 1..|dateKey| + 3];
    assert Pad2(h2) == p2[|dateKey| + 1..|dateKey| + 3];
    Pad2Injective(h1, h2);
  }
}
