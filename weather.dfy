/**
 * The response-normalisation layer: the application's weather records, the
 * two operations that fetch a raw Open-Meteo response through a forecast
 * client and reshape it, and what they promise.
 *
 * Each operation is a method written as the Go code runs (clamp, fetch, check,
 * resolve the zone, fill the output in order) and is proved equal to a
 * specification function of the client's response; the lemmas below state the
 * error order, the shape of a success and the zone policy about those
 * functions.
 */
module Weather {
  import opened Wrappers
  import opened Timestamps
  import opened OpenMeteo
  import WeatherCodes
  import TimestampFacts

  // ---------------------------------------------------------------- records

  /** The unit strings attached to every normalised record. */
  datatype Units = Units(temperature: string, windSpeed: string, precipitation: string)

  datatype CurrentWeather = CurrentWeather(
    temperature: Float64,
    humidity: Float64,
    apparentTemperature: Float64,
    precipitation: Float64,
    windSpeed: Float64,
    weatherDescription: string,
    observationTime: Time,
    isDay: int,
    units: Units)

  datatype DailyForecast = DailyForecast(
    date: Time,
    maxTemperature: Float64,
    minTemperature: Float64,
    weatherDescription: string,
    sunrise: Time,
    sunset: Time,
    precipitationSum: Float64,
    precipitationProb: Float64,
    windGusts: Float64,
    units: Units)

  /**
   * The low-level forecast call: the request's arguments to either a decoded
   * response or an error message. The HTTP request and the JSON decoding
   * behind it are not part of this model.
   */
  type ForecastClient = WeatherRequest -> Result<ForecastResult, string>

  /** The application's client, composing a forecast client. */
  datatype WeatherClient = WeatherClient(openmeteoClient: ForecastClient)

  /**
   * Why a call fails. `MissingUnits` stands for the Go code's dereference of an
   * absent units section, which is a run-time panic there rather than an
   * error value.
   */
  datatype WeatherError =
    | Upstream(cause: string)
    | NoCurrentData
    | ObservationTimeParse(raw: string)
    | IncompleteDaily
    | InconsistentLengths
    | NoDailyData
    | ZoneLoad(name: string)
    | DateParse(raw: string)
    | SunriseParse(raw: string)
    | SunsetParse(raw: string)
    | MissingUnits

  // ---------------------------------------------------------------- requests

  const CurrentParams: seq<string> := [
    "temperature_2m", "relative_humidity_2m", "weather_code", "is_day",
    "apparent_temperature", "precipitation", "wind_speed_10m"
  ]

  const DailyParams: seq<string> := [
    "temperature_2m_max", "temperature_2m_min", "weather_code", "sunrise", "sunset",
    "precipitation_sum", "precipitation_probability_mean", "wind_speed_10m_max"
  ]

  /** A requested day count outside 1..16 becomes 1; one inside is kept. */
  function ClampDays(numDays: Int64): (days: Int64)
    ensures 1 <= days <= 16
    ensures 1 <= numDays <= 16 ==> days == numDays
    ensures numDays < 1 || numDays > 16 ==> days == 1
  {
    if numDays < 1 || numDays > 16 then 1 else numDays
  }

  /** The request of the current-weather path: current fields only, no past or forecast days. */
  function CurrentRequest(latitude: Float64, longitude: Float64, tempUnit: string, windUnit: string, precipUnit: string): WeatherRequest {
    WeatherRequest(latitude, longitude, CurrentParams, [], [], tempUnit, windUnit, precipUnit, 0, 0)
  }

  /** The request of the daily path: daily fields only, no past days, the clamped number of forecast days. */
  function DailyRequest(latitude: Float64, longitude: Float64, numDays: Int64, tempUnit: string, windUnit: string, precipUnit: string): WeatherRequest {
    WeatherRequest(latitude, longitude, [], [], DailyParams, tempUnit, windUnit, precipUnit, 0, ClampDays(numDays))
  }

  // ---------------------------------------------------------------- the current path

  /** The zone of the current path: UTC when the name is empty or cannot be loaded. */
  function CurrentZone(name: string, tzdb: set<string>): Location {
    if name == "" then UTC
    else match LoadLocation(name, tzdb)
      case Failure(_) => UTC
      case Success(loc) => loc
  }

  function CurrentUnitsOf(u: ForecastCurrentUnits): Units {
    Units(u.temperature2m, u.windSpeed10m, u.precipitation)
  }

  /** What `GetCurrentWeather` returns for a given response of the client. */
  function CurrentWeatherOf(resp: Result<ForecastResult, string>, tzdb: set<string>): Result<CurrentWeather, WeatherError> {
    match resp
    case Failure(e) => Failure(Upstream(e))
    case Success(f) =>
      if f.current.None? then Failure(NoCurrentData)
      else
        var c := f.current.value;
        match ParseTimestamp(c.time, CurrentZone(f.timezone, tzdb))
        case None => Failure(ObservationTimeParse(c.time))
        case Some(t) =>
          if f.currentUnits.None? then Failure(MissingUnits)
          else Success(CurrentWeather(
            c.temperature2m, c.relativeHumidity2m, c.apparentTemperature, c.precipitation, c.windSpeed10m,
            WeatherCodes.Describe(c.weatherCode), t, c.isDay, CurrentUnitsOf(f.currentUnits.value)))
  }

  method GetCurrentWeather(
    w: WeatherClient, latitude: Float64, longitude: Float64,
    tempUnit: string, windUnit: string, precipUnit: string, tzdb: set<string>)
    returns (r: Result<CurrentWeather, WeatherError>)
    ensures r == CurrentWeatherOf(w.openmeteoClient(CurrentRequest(latitude, longitude, tempUnit, windUnit, precipUnit)), tzdb)
  {
    var forecast := w.openmeteoClient(WeatherRequest(latitude, longitude, CurrentParams, [], [], tempUnit, windUnit, precipUnit, 0, 0));
    if forecast.Failure? {
      return Failure(Upstream(forecast.error));
    }
    var f := forecast.value;
    if f.current.None? {
      return Failure(NoCurrentData);
    }
    var current := f.current.value;

    var location: Location;
    if f.timezone == "" {
      location := UTC;
    } else {
      var loaded := LoadLocation(f.timezone, tzdb);
      if loaded.Failure? {
        location := UTC;
      } else {
        location := loaded.value;
      }
    }

    var obsTime := ParseLocalNaive(current.time, location);
    if obsTime.None? {
      obsTime := ParseRFC3339(current.time);
      if obsTime.None? {
        TimestampFacts.ParseTimestampFallback(current.time, location);
        return Failure(ObservationTimeParse(current.time));
      }
    }
    TimestampFacts.ParseTimestampFallback(current.time, location);

    var weatherDesc := WeatherCodes.Describe(current.weatherCode);
    if f.currentUnits.None? {
      return Failure(MissingUnits);
    }
    var units := f.currentUnits.value;
    r := Success(CurrentWeather(
      current.temperature2m, current.relativeHumidity2m, current.apparentTemperature,
      current.precipitation, current.windSpeed10m, weatherDesc, obsTime.value, current.isDay,
      Units(units.temperature2m, units.windSpeed10m, units.precipitation)));
  }

  // ---------------------------------------------------------------- the daily path

  /** Every array the daily path reads is present. */
  predicate Complete(d: ForecastDaily) {
    && d.time.Some? && d.temperature2mMax.Some? && d.temperature2mMin.Some?
    && d.weatherCode.Some? && d.sunrise.Some? && d.sunset.Some? && d.precipitationSum.Some?
    && d.precipitationProbabilityMean.Some? && d.windSpeed10mMax.Some?
  }

  /** Every array the daily path reads is as long as the dates. */
  predicate Consistent(d: ForecastDaily)
    requires Complete(d)
  {
    var n := |d.time.value|;
    && |d.temperature2mMax.value| == n && |d.temperature2mMin.value| == n
    && |d.weatherCode.value| == n && |d.sunrise.value| == n && |d.sunset.value| == n
    && |d.precipitationSum.value| == n && |d.precipitationProbabilityMean.value| == n
    && |d.windSpeed10mMax.value| == n
  }

  /** Arrays the day at index i can be read from. */
  predicate Readable(d: ForecastDaily) {
    Complete(d) && Consistent(d)
  }

  function DailyUnitsOf(u: ForecastDailyUnits): Units {
    Units(u.temperature2mMax, u.windSpeed10mMax, u.precipitationSum)
  }

  /**
   * Day i of the response: its date read as a bare date in `loc` (no fallback),
   * then its sunrise and sunset read as timestamps, each failure reported with
   * the text that did not parse.
   */
  function EntryAt(d: ForecastDaily, loc: Location, units: Units, i: nat): Result<DailyForecast, WeatherError>
    requires Readable(d) && i < |d.time.value|
  {
    var rawDate := d.time.value[i];
    var rawSunrise := d.sunrise.value[i];
    var rawSunset := d.sunset.value[i];
    match ParseDate(rawDate, loc)
    case None => Failure(DateParse(rawDate))
    case Some(date) =>
      match ParseTimestamp(rawSunrise, loc)
      case None => Failure(SunriseParse(rawSunrise))
      case Some(sunrise) =>
        match ParseTimestamp(rawSunset, loc)
        case None => Failure(SunsetParse(rawSunset))
        case Some(sunset) =>
          Success(DailyForecast(
            date, d.temperature2mMax.value[i], d.temperature2mMin.value[i],
            WeatherCodes.Describe(d.weatherCode.value[i]), sunrise, sunset,
            d.precipitationSum.value[i], d.precipitationProbabilityMean.value[i],
            d.windSpeed10mMax.value[i], units))
  }

  /** The outcome of every day, in order. */
  function Entries(d: ForecastDaily, loc: Location, units: Units): (rs: seq<Result<DailyForecast, WeatherError>>)
    requires Readable(d)
    ensures |rs| == |d.time.value|
    ensures forall j :: 0 <= j < |rs| ==> rs[j] == EntryAt(d, loc, units, j)
  {
    seq(|d.time.value|, j requires 0 <= j < |d.time.value| => EntryAt(d, loc, units, j))
  }

  /** What `GetDailyForecast` returns for a given response of the client. */
  function DailyForecastOf(resp: Result<ForecastResult, string>, tzdb: set<string>): Result<seq<DailyForecast>, WeatherError> {
    match resp
    case Failure(e) => Failure(Upstream(e))
    case Success(f) =>
      if f.daily.None? || !Complete(f.daily.value) then Failure(IncompleteDaily)
      else if !Consistent(f.daily.value) then Failure(InconsistentLengths)
      else if |f.daily.value.time.value| == 0 then Failure(NoDailyData)
      else match LoadLocation(f.timezone, tzdb)
        case Failure(_) => Failure(ZoneLoad(f.timezone))
        case Success(loc) =>
          if f.dailyUnits.None? then Failure(MissingUnits)
          else Collect(Entries(f.daily.value, loc, DailyUnitsOf(f.dailyUnits.value)))
  }

  method GetDailyForecast(
    w: WeatherClient, latitude: Float64, longitude: Float64, numDays: Int64,
    tempUnit: string, windUnit: string, precipUnit: string, tzdb: set<string>)
    returns (r: Result<seq<DailyForecast>, WeatherError>)
    ensures r == DailyForecastOf(w.openmeteoClient(DailyRequest(latitude, longitude, numDays, tempUnit, windUnit, precipUnit)), tzdb)
  {
    var days := numDays;
    if days < 1 || days > 16 {
      days := 1;
    }
    var forecast := w.openmeteoClient(WeatherRequest(latitude, longitude, [], [], DailyParams, tempUnit, windUnit, precipUnit, 0, days));
    assert forecast == w.openmeteoClient(DailyRequest(latitude, longitude, numDays, tempUnit, windUnit, precipUnit));
    if forecast.Failure? {
      return Failure(Upstream(forecast.error));
    }
    var f := forecast.value;

    if f.daily.None? || !Complete(f.daily.value) {
      return Failure(IncompleteDaily);
    }
    var daily := f.daily.value;
    if !Consistent(daily) {
      return Failure(InconsistentLengths);
    }

    var n := |daily.time.value|;
    if n == 0 {
      return Failure(NoDailyData);
    }

    var location := LoadLocation(f.timezone, tzdb);
    if location.Failure? {
      return Failure(ZoneLoad(f.timezone));
    }
    var loc := location.value;

    if f.dailyUnits.None? {
      return Failure(MissingUnits);
    }
    var units := Units(f.dailyUnits.value.temperature2mMax, f.dailyUnits.value.windSpeed10mMax, f.dailyUnits.value.precipitationSum);
    r := FillDays(daily, loc, units);
  }

  /**
   * The output array and the loop over the days: day by day in input order,
   * stopping at the first day that cannot be read.
   */
  method FillDays(daily: ForecastDaily, loc: Location, units: Units) returns (r: Result<seq<DailyForecast>, WeatherError>)
    requires Readable(daily)
    ensures r == Collect(Entries(daily, loc, units))
  {
    var n := |daily.time.value|;
    ghost var entries := Entries(daily, loc, units);
    var dailyForecasts := new DailyForecast[n];
    var i := 0;
    while i < n
      invariant 0 <= i <= n
      invariant forall j :: 0 <= j < i ==> entries[j] == Success(dailyForecasts[j])
    {
      var entry := ReadDay(daily, loc, units, i);
      if entry.Failure? {
        CollectStopsAt(entries, i);
        return Failure(entry.error);
      }
      dailyForecasts[i] := entry.value;
      i := i + 1;
    }
    CollectAllSucceed(entries, dailyForecasts[..]);
    return Success(dailyForecasts[..]);
  }

  /** One pass of the loop: day i's date, sunrise and sunset, then its record. */
  method ReadDay(daily: ForecastDaily, loc: Location, units: Units, i: nat) returns (r: Result<DailyForecast, WeatherError>)
    requires Readable(daily) && i < |daily.time.value|
    ensures r == Entries(daily, loc, units)[i]
  {
    var forecastDate := ParseDate(daily.time.value[i], loc);
    if forecastDate.None? {
      return Failure(DateParse(daily.time.value[i]));
    }

    var sunriseTime := ParseLocalNaive(daily.sunrise.value[i], loc);
    if sunriseTime.None? {
      sunriseTime := ParseRFC3339(daily.sunrise.value[i]);
      if sunriseTime.None? {
        TimestampFacts.ParseTimestampFallback(daily.sunrise.value[i], loc);
        return Failure(SunriseParse(daily.sunrise.value[i]));
      }
    }
    TimestampFacts.ParseTimestampFallback(daily.sunrise.value[i], loc);

    var sunsetTime := ParseLocalNaive(daily.sunset.value[i], loc);
    if sunsetTime.None? {
      sunsetTime := ParseRFC3339(daily.sunset.value[i]);
      if sunsetTime.None? {
        TimestampFacts.ParseTimestampFallback(daily.sunset.value[i], loc);
        return Failure(SunsetParse(daily.sunset.value[i]));
      }
    }
    TimestampFacts.ParseTimestampFallback(daily.sunset.value[i], loc);

    r := Success(DailyForecast(
      forecastDate.value,
      daily.temperature2mMax.value[i],
      daily.temperature2mMin.value[i],
      WeatherCodes.Describe(daily.weatherCode.value[i]),
      sunriseTime.value,
      sunsetTime.value,
      daily.precipitationSum.value[i],
      daily.precipitationProbabilityMean.value[i],
      daily.windSpeed10mMax.value[i],
      units));
  }
}
