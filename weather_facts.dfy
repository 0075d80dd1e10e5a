/**
 * What the two normalisers promise, stated about their specification
 * functions `CurrentWeatherOf` and `DailyForecastOf` (which the methods are
 * proved equal to): the request each sends, the order of the error checks,
 * the zone policy, and the shape of a success.
 */
module WeatherFacts {
  import opened Wrappers
  import opened Timestamps
  import opened OpenMeteo
  import opened Weather
  import Decimal
  import WeatherCodes
  import TimestampFacts
  import Q = ForecastQuery

  // ---------------------------------------------------------------- requests

  /** The daily path asks for the daily list only, no past days, and the clamped day count. */
  lemma DailyRequestQuery(
    latitude: Float64, longitude: Float64, numDays: Int64,
    tempUnit: string, windUnit: string, precipUnit: string, formatFloat: Float64 -> string)
    ensures var q := Q.QueryPairs(DailyRequest(latitude, longitude, numDays, tempUnit, windUnit, precipUnit), formatFloat);
      && Q.ValuesOf(q, Q.Daily) == [Q.Join(DailyParams, ",")]
      && Q.ValuesOf(q, Q.Current) == [] && Q.ValuesOf(q, Q.Hourly) == []
      && Q.ValuesOf(q, Q.PastDays) == ["0"]
      && Q.ValuesOf(q, Q.ForecastDays) == [Decimal.IntToString(ClampDays(numDays) as int)]
  {
    var req := DailyRequest(latitude, longitude, numDays, tempUnit, windUnit, precipUnit);
    Q.QuerySections(req, formatFloat);
    Q.QueryDayCounts(req, formatFloat);
  }

  /** The current path asks for the current list only, with zero past and zero forecast days. */
  lemma CurrentRequestQuery(
    latitude: Float64, longitude: Float64,
    tempUnit: string, windUnit: string, precipUnit: string, formatFloat: Float64 -> string)
    ensures var q := Q.QueryPairs(CurrentRequest(latitude, longitude, tempUnit, windUnit, precipUnit), formatFloat);
      && Q.ValuesOf(q, Q.Current) == [Q.Join(CurrentParams, ",")]
      && Q.ValuesOf(q, Q.Hourly) == [] && Q.ValuesOf(q, Q.Daily) == []
      && Q.ValuesOf(q, Q.PastDays) == ["0"] && Q.ValuesOf(q, Q.ForecastDays) == ["0"]
  {
    var req := CurrentRequest(latitude, longitude, tempUnit, windUnit, precipUnit);
    Q.QuerySections(req, formatFloat);
    Q.QueryDayCounts(req, formatFloat);
  }

  // ---------------------------------------------------------------- the current path

  /**
   * The current path's zone is whatever `LoadLocation` resolves, and UTC when it
   * fails: the separate test for an empty name agrees with `LoadLocation("")`.
   */
  lemma CurrentZonePolicy(name: string, tzdb: set<string>)
    ensures CurrentZone(name, tzdb) == if LoadLocation(name, tzdb).Success? then LoadLocation(name, tzdb).value else UTC
    ensures name == "" || name == "UTC" || (name != "Local" && name !in tzdb) ==> CurrentZone(name, tzdb) == UTC
  {
  }

  /**
   * The current path's errors, in the order they are checked; a zone that does
   * not load is never one of them.
   */
  lemma CurrentErrorOrder(resp: Result<ForecastResult, string>, tzdb: set<string>)
    ensures resp.Failure? ==> CurrentWeatherOf(resp, tzdb) == Failure(Upstream(resp.error))
    ensures resp.Success? && resp.value.current.None? ==> CurrentWeatherOf(resp, tzdb) == Failure(NoCurrentData)
    ensures resp.Success? && resp.value.current.Some?
      && ParseTimestamp(resp.value.current.value.time, CurrentZone(resp.value.timezone, tzdb)).None?
      ==> CurrentWeatherOf(resp, tzdb) == Failure(ObservationTimeParse(resp.value.current.value.time))
    ensures CurrentWeatherOf(resp, tzdb).Failure? ==> !CurrentWeatherOf(resp, tzdb).error.ZoneLoad?
  {
  }

  /** The current path succeeds exactly when the call, the section, the observation time and the units all do. */
  lemma CurrentSuccessIff(resp: Result<ForecastResult, string>, tzdb: set<string>)
    ensures CurrentWeatherOf(resp, tzdb).Success? <==>
      && resp.Success? && resp.value.current.Some?
      && ParseTimestamp(resp.value.current.value.time, CurrentZone(resp.value.timezone, tzdb)).Some?
      && resp.value.currentUnits.Some?
  {
  }

  /**
   * A current-weather record copies the section's values, describes its code,
   * reads its time local-naive in the zone or else as RFC 3339, and takes its
   * units from the current units section.
   */
  lemma CurrentSuccessFields(resp: Result<ForecastResult, string>, tzdb: set<string>)
    requires CurrentWeatherOf(resp, tzdb).Success?
    ensures resp.Success? && resp.value.current.Some? && resp.value.currentUnits.Some?
    ensures var c := resp.value.current.value;
      var zone := CurrentZone(resp.value.timezone, tzdb);
      var cw := CurrentWeatherOf(resp, tzdb).value;
      && cw.temperature == c.temperature2m && cw.humidity == c.relativeHumidity2m
      && cw.apparentTemperature == c.apparentTemperature && cw.precipitation == c.precipitation
      && cw.windSpeed == c.windSpeed10m && cw.isDay == c.isDay
      && cw.weatherDescription == WeatherCodes.Describe(c.weatherCode)
      && cw.units == Units(resp.value.currentUnits.value.temperature2m, resp.value.currentUnits.value.windSpeed10m,
                           resp.value.currentUnits.value.precipitation)
      && cw.observationTime == (if ParseLocalNaive(c.time, zone).Some? then ParseLocalNaive(c.time, zone).value
                                else ParseRFC3339(c.time).value)
      && ValidCivil(cw.observationTime.civil)
      && (cw.observationTime.place == In(zone) || cw.observationTime.place == In(UTC)
          || (cw.observationTime.place.Offset? && -86400 < cw.observationTime.place.seconds < 86400))
  {
    var c := resp.value.current.value;
    var zone := CurrentZone(resp.value.timezone, tzdb);
    TimestampFacts.ParseTimestampFallback(c.time, zone);
    TimestampFacts.ParseTimestampAccepted(c.time, zone);
  }

  // ---------------------------------------------------------------- the daily path

  /** The response passed the presence, length and emptiness checks. */
  predicate Validated(f: ForecastResult) {
    f.daily.Some? && Readable(f.daily.value) && |f.daily.value.time.value| > 0
  }

  /** Every text of day i parses: the date as a bare date, sunrise and sunset as timestamps. */
  predicate DayParses(d: ForecastDaily, loc: Location, i: nat)
    requires Readable(d) && i < |d.time.value|
  {
    && ParseDate(d.time.value[i], loc).Some?
    && ParseTimestamp(d.sunrise.value[i], loc).Some?
    && ParseTimestamp(d.sunset.value[i], loc).Some?
  }

  /** The error of a day that does not parse: its first text that fails, date before sunrise before sunset. */
  function DayError(d: ForecastDaily, loc: Location, i: nat): WeatherError
    requires Readable(d) && i < |d.time.value|
  {
    if ParseDate(d.time.value[i], loc).None? then DateParse(d.time.value[i])
    else if ParseTimestamp(d.sunrise.value[i], loc).None? then SunriseParse(d.sunrise.value[i])
    else SunsetParse(d.sunset.value[i])
  }

  /** A day's record is built exactly when its texts parse, from index i of every array. */
  lemma EntryAtSucceeds(d: ForecastDaily, loc: Location, units: Units, i: nat)
    requires Readable(d) && i < |d.time.value|
    ensures EntryAt(d, loc, units, i).Success? <==> DayParses(d, loc, i)
    ensures EntryAt(d, loc, units, i).Failure? ==> EntryAt(d, loc, units, i).error == DayError(d, loc, i)
    ensures EntryAt(d, loc, units, i).Success? ==>
      var e := EntryAt(d, loc, units, i).value;
      && e.date == ParseDate(d.time.value[i], loc).value
      && e.sunrise == ParseTimestamp(d.sunrise.value[i], loc).value
      && e.sunset == ParseTimestamp(d.sunset.value[i], loc).value
      && e.maxTemperature == d.temperature2mMax.value[i] && e.minTemperature == d.temperature2mMin.value[i]
      && e.weatherDescription == WeatherCodes.Describe(d.weatherCode.value[i])
      && e.precipitationSum == d.precipitationSum.value[i]
      && e.precipitationProb == d.precipitationProbabilityMean.value[i]
      && e.windGusts == d.windSpeed10mMax.value[i]
      && e.units == units
  {
  }

  /** A day's date is midnight in the zone; its sunrise and sunset are valid times in the zone, at UTC or at an offset. */
  lemma DayTimes(d: ForecastDaily, loc: Location, units: Units, i: nat)
    requires Readable(d) && i < |d.time.value|
    requires EntryAt(d, loc, units, i).Success?
    ensures var e := EntryAt(d, loc, units, i).value;
      && ValidCivil(e.date.civil) && e.date.place == In(loc)
      && e.date.civil.hour == 0 && e.date.civil.minute == 0 && e.date.civil.second == 0
      && ValidCivil(e.sunrise.civil) && ValidCivil(e.sunset.civil)
  {
    TimestampFacts.DateAccepted(d.time.value[i], loc);
    TimestampFacts.ParseTimestampAccepted(d.sunrise.value[i], loc);
    TimestampFacts.ParseTimestampAccepted(d.sunset.value[i], loc);
  }

  /** The daily path's errors before any day is read, in the order they are checked. */
  lemma DailyErrorOrder(resp: Result<ForecastResult, string>, tzdb: set<string>)
    ensures resp.Failure? ==> DailyForecastOf(resp, tzdb) == Failure(Upstream(resp.error))
    ensures resp.Success? && (resp.value.daily.None? || !Complete(resp.value.daily.value))
      ==> DailyForecastOf(resp, tzdb) == Failure(IncompleteDaily)
    ensures resp.Success? && resp.value.daily.Some? && Complete(resp.value.daily.value) && !Consistent(resp.value.daily.value)
      ==> DailyForecastOf(resp, tzdb) == Failure(InconsistentLengths)
    ensures resp.Success? && resp.value.daily.Some? && Readable(resp.value.daily.value) && |resp.value.daily.value.time.value| == 0
      ==> DailyForecastOf(resp, tzdb) == Failure(NoDailyData)
    ensures resp.Success? && Validated(resp.value) && LoadLocation(resp.value.timezone, tzdb).Failure?
      ==> DailyForecastOf(resp, tzdb) == Failure(ZoneLoad(resp.value.timezone))
  {
  }

  /**
   * A successful daily result has one record per date, in input order, each
   * built from the same index of every array, all with the units of the daily
   * units section.
   */
  lemma DailySuccessShape(resp: Result<ForecastResult, string>, tzdb: set<string>)
    requires DailyForecastOf(resp, tzdb).Success?
    ensures resp.Success? && Validated(resp.value) && resp.value.dailyUnits.Some?
    ensures LoadLocation(resp.value.timezone, tzdb).Success?
    ensures var d := resp.value.daily.value;
      var loc := LoadLocation(resp.value.timezone, tzdb).value;
      var units := DailyUnitsOf(resp.value.dailyUnits.value);
      var days := DailyForecastOf(resp, tzdb).value;
      && |days| == |d.time.value|
      && forall i :: 0 <= i < |days| ==> EntryAt(d, loc, units, i) == Success(days[i])
  {
    var f := resp.value;
    var d := f.daily.value;
    var loc := LoadLocation(f.timezone, tzdb).value;
    var units := DailyUnitsOf(f.dailyUnits.value);
    CollectSucceeds(Entries(d, loc, units));
  }

  /** Every record of a success carries the same units, those of the daily units section. */
  lemma DailyUnitsShared(resp: Result<ForecastResult, string>, tzdb: set<string>)
    requires DailyForecastOf(resp, tzdb).Success?
    ensures resp.Success? && resp.value.dailyUnits.Some?
    ensures forall day :: day in DailyForecastOf(resp, tzdb).value ==> day.units == DailyUnitsOf(resp.value.dailyUnits.value)
  {
    DailySuccessShape(resp, tzdb);
    var d := resp.value.daily.value;
    var loc := LoadLocation(resp.value.timezone, tzdb).value;
    var units := DailyUnitsOf(resp.value.dailyUnits.value);
    var days := DailyForecastOf(resp, tzdb).value;
    forall day | day in days
      ensures day.units == units
    {
      var i :| 0 <= i < |days| && days[i] == day;
      EntryAtSucceeds(d, loc, units, i);
    }
  }

  /** The daily path succeeds exactly when the checks pass, the zone loads, the units are there and every day parses. */
  lemma DailySuccessIff(resp: Result<ForecastResult, string>, tzdb: set<string>)
    ensures DailyForecastOf(resp, tzdb).Success? <==>
      && resp.Success? && Validated(resp.value)
      && LoadLocation(resp.value.timezone, tzdb).Success? && resp.value.dailyUnits.Some?
      && forall i :: 0 <= i < |resp.value.daily.value.time.value| ==>
           DayParses(resp.value.daily.value, LoadLocation(resp.value.timezone, tzdb).value, i)
  {
    if resp.Success? && Validated(resp.value) && LoadLocation(resp.value.timezone, tzdb).Success? && resp.value.dailyUnits.Some? {
      var d := resp.value.daily.value;
      var loc := LoadLocation(resp.value.timezone, tzdb).value;
      var units := DailyUnitsOf(resp.value.dailyUnits.value);
      CollectSucceeds(Entries(d, loc, units));
      forall i | 0 <= i < |d.time.value|
        ensures EntryAt(d, loc, units, i).Success? <==> DayParses(d, loc, i)
      {
        EntryAtSucceeds(d, loc, units, i);
      }
    }
  }

  /** When every check passes, the first day that does not parse decides the error and nothing is returned besides it. */
  lemma DailyFirstBadDay(resp: Result<ForecastResult, string>, tzdb: set<string>, k: nat)
    requires resp.Success? && Validated(resp.value)
    requires LoadLocation(resp.value.timezone, tzdb).Success? && resp.value.dailyUnits.Some?
    requires k < |resp.value.daily.value.time.value|
    requires !DayParses(resp.value.daily.value, LoadLocation(resp.value.timezone, tzdb).value, k)
    requires forall j :: 0 <= j < k ==> DayParses(resp.value.daily.value, LoadLocation(resp.value.timezone, tzdb).value, j)
    ensures DailyForecastOf(resp, tzdb) ==
      Failure(DayError(resp.value.daily.value, LoadLocation(resp.value.timezone, tzdb).value, k))
  {
    var d := resp.value.daily.value;
    var loc := LoadLocation(resp.value.timezone, tzdb).value;
    var units := DailyUnitsOf(resp.value.dailyUnits.value);
    var rs := Entries(d, loc, units);
    forall j | 0 <= j < k
      ensures rs[j].Success?
    {
      EntryAtSucceeds(d, loc, units, j);
    }
    EntryAtSucceeds(d, loc, units, k);
    CollectStopsAt(rs, k);
  }

  /** A failure after the checks names a day: the first one that does not parse. */
  lemma DailyFailureNamesDay(resp: Result<ForecastResult, string>, tzdb: set<string>)
    requires resp.Success? && Validated(resp.value)
    requires LoadLocation(resp.value.timezone, tzdb).Success? && resp.value.dailyUnits.Some?
    requires DailyForecastOf(resp, tzdb).Failure?
    ensures var d := resp.value.daily.value;
      var loc := LoadLocation(resp.value.timezone, tzdb).value;
      exists k :: 0 <= k < |d.time.value| && !DayParses(d, loc, k)
        && (forall j :: 0 <= j < k ==> DayParses(d, loc, j))
        && DailyForecastOf(resp, tzdb).error == DayError(d, loc, k)
  {
    var d := resp.value.daily.value;
    var loc := LoadLocation(resp.value.timezone, tzdb).value;
    var units := DailyUnitsOf(resp.value.dailyUnits.value);
    var rs := Entries(d, loc, units);
    CollectFailsAtFirst(rs);
    var k :| 0 <= k < |rs| && rs[k] == Failure(Collect(rs).error) && forall j :: 0 <= j < k ==> rs[j].Success?;
    EntryAtSucceeds(d, loc, units, k);
    forall j | 0 <= j < k
      ensures DayParses(d, loc, j)
    {
      EntryAtSucceeds(d, loc, units, j);
    }
  }

  /**
   * The daily path reports a zone error exactly when the checks pass and the
   * zone name does not load; an empty name, like "UTC", loads as UTC.
   */
  lemma DailyZonePolicy(resp: Result<ForecastResult, string>, tzdb: set<string>, name: string)
    ensures DailyForecastOf(resp, tzdb) == Failure(ZoneLoad(name)) <==>
      resp.Success? && Validated(resp.value) && LoadLocation(resp.value.timezone, tzdb).Failure?
      && name == resp.value.timezone
    ensures resp.Success? && (resp.value.timezone == "" || resp.value.timezone == "UTC") ==>
      DailyForecastOf(resp, tzdb) != Failure(ZoneLoad(name))
  {
    if resp.Success? && Validated(resp.value) && LoadLocation(resp.value.timezone, tzdb).Success?
       && resp.value.dailyUnits.Some? && DailyForecastOf(resp, tzdb).Failure? {
      DailyFailureNamesDay(resp, tzdb);
    }
  }
}
