/**
 * The decoded Open-Meteo forecast response and the argument list of the
 * low-level forecast call. JSON `null`/absent sections and arrays are `None`;
 * an array present but empty is `Some([])`, as Go's decoder distinguishes a
 * nil slice from an empty one. Floating-point payloads are only copied; their
 * type is another name for `real`.
 */
module OpenMeteo {
  import opened Wrappers

  /** A float64 payload; no arithmetic is done on it. */
  type Float64 = real

  /** Go's int64. */
  newtype Int64 = x: int | -0x8000_0000_0000_0000 <= x < 0x8000_0000_0000_0000

  datatype ForecastCurrent = ForecastCurrent(
    time: string,
    temperature2m: Float64,
    relativeHumidity2m: Float64,
    precipitation: Float64,
    snowfall: Float64,
    weatherCode: int,
    windSpeed10m: Float64,
    windDirection10m: Float64,
    isDay: int,
    apparentTemperature: Float64)

  datatype ForecastCurrentUnits = ForecastCurrentUnits(
    time: string,
    temperature2m: string,
    relativeHumidity2m: string,
    precipitation: string,
    snowfall: string,
    weatherCode: string,
    windSpeed10m: string,
    windDirection10m: string,
    isDay: string,
    apparentTemperature: string)

  datatype ForecastDaily = ForecastDaily(
    time: Option<seq<string>>,
    temperature2mMax: Option<seq<Float64>>,
    temperature2mMin: Option<seq<Float64>>,
    sunrise: Option<seq<string>>,
    sunset: Option<seq<string>>,
    daylightDuration: Option<seq<Float64>>,
    precipitationSum: Option<seq<Float64>>,
    snowfallSum: Option<seq<Float64>>,
    precipitationProbabilityMean: Option<seq<Float64>>,
    weatherCode: Option<seq<int>>,
    windSpeed10mMax: Option<seq<Float64>>,
    apparentTemperatureMax: Option<seq<Float64>>,
    apparentTemperatureMin: Option<seq<Float64>>)

  datatype ForecastDailyUnits = ForecastDailyUnits(
    time: string,
    temperature2mMax: string,
    temperature2mMin: string,
    sunrise: string,
    sunset: string,
    daylightDuration: string,
    precipitationSum: string,
    snowfallSum: string,
    precipitationProbabilityMean: string,
    weatherCode: string,
    windSpeed10mMax: string,
    apparentTemperatureMax: string,
    apparentTemperatureMin: string)

  /** The decoded response; the hourly section is not part of this model. */
  datatype ForecastResult = ForecastResult(
    generationTimeMs: Float64,
    timezone: string,
    elevation: Float64,
    current: Option<ForecastCurrent>,
    currentUnits: Option<ForecastCurrentUnits>,
    daily: Option<ForecastDaily>,
    dailyUnits: Option<ForecastDailyUnits>)

  /** The arguments of `GetWeather`, in its parameter order. */
  datatype WeatherRequest = WeatherRequest(
    latitude: Float64,
    longitude: Float64,
    currentParameters: seq<string>,
    hourlyParameters: seq<string>,
    dailyParameters: seq<string>,
    temperatureUnit: string,
    windSpeedUnit: string,
    precipitationUnit: string,
    pastDays: Int64,
    forecastDays: Int64)
}
