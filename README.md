# sky: the weather normaliser, modelled in Dafny

`sky` is a command-line weather tool built on the Open-Meteo API. Its core is
the normalisation layer of `internal/weather/weather.go`. `GetCurrentWeather`
and `GetDailyForecast` ask a forecast client for a raw Open-Meteo response and
reshape it into the application's `CurrentWeather` and `DailyForecast`
records. On the way they check the response, resolve its time zone, parse its
timestamps and map weather codes to phrases. The second part of the core is
the query assembly at the start of `ForecastClient.GetWeather` in
`internal/client/openmateo/forecast.go`. It builds the ordered multimap of
URL parameters that the forecast request sends.

The files, by module:

- `wrappers.dfy`, module `Wrappers`.
  - `Option` and `Result`.
  - `Collect`: the first failure of a sequence of results, or all of their values.
- `decimal.dfy`, module `Decimal`. Go's base-10 integer rendering (`%d`,
  `strconv.FormatInt`), with a parser as its inverse.
- `weather_codes.dfy`, module `WeatherCodes`. `mapWeatherCodeToDescription`, with
  one lemma per case of its switch and lemmas about the default branch.
- `timestamps.dfy`, module `Timestamps`.
  - The zone lookup `time.LoadLocation`.
  - The three layouts the normaliser parses: local-naive `2006-01-02T15:04`, bare
    date `2006-01-02`, and RFC 3339 (the `date-time` production of section 5.6
    of RFC 3339, as Go's `time.RFC3339` layout reads it).
  - The ordered fallback between layouts.
- `timestamp_facts.dfy`, module `TimestampFacts`.
  - Formatters for each layout and round trips through them.
  - What an accepted string looks like.
  - The layouts are disjoint, so the order of the fallback never matters.
- `openmeteo_types.dfy`, module `OpenMeteo`. The decoded response (sections and
  arrays may be absent) and the argument list of `GetWeather`.
- `forecast_query.dfy`, module `ForecastQuery`.
  - `BuildQuery`, the guarded `Add` sequence, written as the Go code runs.
  - It is proved equal to the specification function `QueryPairs`.
  - Lemmas say which values each key carries.
- `weather.dfy`, module `Weather`.
  - The records, the error kinds, and the forecast client (a function from a
    request to a response or an error message).
  - `GetCurrentWeather` and `GetDailyForecast` as methods. Each is proved equal
    to a specification function of the client's response: `CurrentWeatherOf` and
    `DailyForecastOf`.
- `weather_facts.dfy`, module `WeatherFacts`. What those functions promise:
  - the requests sent;
  - the order of the error checks;
  - the zone policy of each path;
  - the shape of a success.

Modelling choices:

- **Time zones.** The zone database is a parameter `tzdb: set<string>`: the
  names `time.LoadLocation` can load. `""` and `"UTC"` load as UTC and `"Local"`
  as the local zone.
- **Floats.** Float payloads have the type `Float64`, another name for `real`.
  No arithmetic is done on them; they are only copied. Go's `%f` rendering of
  the coordinates is the function parameter `formatFloat`.
- **Query keys.** The parameter keys are an enumeration. `KeyName` gives each
  key's wire name.
- **Missing units.** The Go code reads `CurrentUnits` and `DailyUnits` without a
  nil check, so an absent units section panics. The model returns the error
  `MissingUnits` at that exact point of the order.
- **Tests.** The repository's test files build responses without units sections
  and call the functions with outdated signatures; the model follows the code.

An observation differs from a comment in the code. The comment at
`internal/weather/weather.go:120-122` says `LoadLocation("")` fails. In fact it
returns UTC, as `LoadLocation` does here. So the daily path, which has no
empty-name check, also resolves an empty zone name to UTC. `DailyZonePolicy`
states this, and `CurrentZonePolicy` shows that the current path's explicit
empty-name test changes nothing.

## Model

| member | source | states |
|---|---|---|
| WeatherCodes.Describe | internal/weather/weather.go:290-320 | `mapWeatherCodeToDescription`, total; stated by the per-case lemmas below, `DescribeFallback` and `DescribeClassifies` |
| WeatherCodes.DescribeClearSky | internal/weather/weather.go:292-293 | code 0 is "Clear sky" |
| WeatherCodes.DescribeCloudiness | internal/weather/weather.go:294-295 | codes 1, 2, 3 share the cloudiness phrase |
| WeatherCodes.DescribeFog | internal/weather/weather.go:296-297 | codes 45, 48 give the fog phrase |
| WeatherCodes.DescribeDrizzle | internal/weather/weather.go:298-299 | codes 51, 53, 55 give the drizzle phrase |
| WeatherCodes.DescribeFreezingDrizzle | internal/weather/weather.go:300-301 | codes 56, 57 give the freezing-drizzle phrase |
| WeatherCodes.DescribeRain | internal/weather/weather.go:302-303 | codes 61, 63, 65 give the rain phrase |
| WeatherCodes.DescribeFreezingRain | internal/weather/weather.go:304-305 | codes 66, 67 give the freezing-rain phrase |
| WeatherCodes.DescribeSnowfall | internal/weather/weather.go:306-307 | codes 71, 73, 75 give the snowfall phrase |
| WeatherCodes.DescribeSnowGrains | internal/weather/weather.go:308-309 | code 77 gives "Snow grains" |
| WeatherCodes.DescribeRainShowers | internal/weather/weather.go:310-311 | codes 80, 81, 82 give the rain-showers phrase |
| WeatherCodes.DescribeSnowShowers | internal/weather/weather.go:312-313 | codes 85, 86 give the snow-showers phrase |
| WeatherCodes.DescribeThunderstorm | internal/weather/weather.go:314-315 | code 95 gives the thunderstorm phrase |
| WeatherCodes.DescribeThunderstormHail | internal/weather/weather.go:316-317 | codes 96, 99 give the hail phrase |
| WeatherCodes.DescribeFallback | internal/weather/weather.go:318-319 | every unlisted code yields exactly "Unknown weather code: " and its decimal rendering |
| WeatherCodes.DescribeClassifies | internal/weather/weather.go:290-319 | the default branch is taken exactly for unlisted codes (no phrase ends in a digit, every fallback does); the fallback text starts with the prefix and reading its tail back gives the code |
| WeatherCodes.DescribeFallbackInjective | internal/weather/weather.go:318-319 | distinct unlisted codes get distinct descriptions |
| Decimal.IntToString | internal/weather/weather.go:319 | `%d` and `strconv.FormatInt(n, 10)`; stated by `IntToStringRoundTrip`, `IntToStringShape` and `IntToStringInjective` |
| Decimal.IntToStringRoundTrip | internal/client/openmateo/forecast.go:55 | parsing the base-10 rendering of any integer gives it back |
| Decimal.IntToStringShape | internal/weather/weather.go:319 | the rendering is digits with a leading '-' exactly for negatives, and no leading zero |
| Decimal.IntToStringInjective | internal/client/openmateo/forecast.go:59 | distinct integers render differently |
| Decimal.NatDigitsValue | internal/client/openmateo/forecast.go:55 | the digits of a natural number denote it |
| Timestamps.LoadLocation | internal/weather/weather.go:233 | lookup fails exactly for a name other than "", "UTC", "Local" that is not in the database; "" and "UTC" give UTC |
| Timestamps.ParseDate | internal/weather/weather.go:246 | the bare-date layout read in a zone; stated by `TimestampFacts.DateAccepted` and `TimestampFacts.DateRoundTrip` |
| Timestamps.ParseLocalNaive | internal/weather/weather.go:136 | the local-naive layout read in a zone (also at weather.go:251 and 262); stated by `TimestampFacts.LocalNaiveAccepted` and `TimestampFacts.LocalNaiveRoundTrip` |
| Timestamps.ParseRFC3339 | internal/weather/weather.go:139 | Go's strict RFC 3339 reader (also at weather.go:257 and 264); stated by `TimestampFacts.RFC3339Accepted` and `TimestampFacts.RFC3339RoundTrip` |
| Timestamps.FirstParse | internal/weather/weather.go:136-143 | an ordered chain of layouts; stated by `TimestampFacts.FirstParseIsFirstSuccess` |
| Timestamps.ParseTimestamp | internal/weather/weather.go:136-143 | local-naive then RFC 3339 (also at weather.go:251-268); stated by `TimestampFacts.ParseTimestampFallback` and `TimestampFacts.ParseTimestampAccepted` |
| TimestampFacts.DateAccepted | internal/weather/weather.go:246 | an accepted bare date is 10 characters of a valid calendar date, midnight in the given zone, and formats back to itself |
| TimestampFacts.DateRoundTrip | internal/weather/weather.go:246 | formatting a valid date and parsing it gives the date at midnight in the zone |
| TimestampFacts.LocalNaiveAccepted | internal/weather/weather.go:10 | an accepted local-naive time is valid, in the given zone, with zero seconds; it is 16 characters, or 15 with a one-digit hour |
| TimestampFacts.LocalNaiveRoundTrip | internal/weather/weather.go:10 | formatting a valid minute-precision time and parsing it gives it back in the zone |
| TimestampFacts.RFC3339Accepted | internal/weather/weather.go:139 | an accepted RFC 3339 time has valid fields written in its first 19 characters and is at UTC or at an offset under a day |
| TimestampFacts.ZoneSuffixRoundTrip | internal/weather/weather.go:139 | offset 0 renders as "Z" and reads back as UTC; every other whole-minute offset under a day reads back as that offset |
| TimestampFacts.RFC3339RoundTrip | internal/weather/weather.go:139 | formatting a valid time with an offset and parsing it as RFC 3339 gives it back |
| TimestampFacts.FractionNanosBound | internal/weather/weather.go:139 | the fraction of a second is below one second |
| TimestampFacts.LayoutsDisjoint | internal/weather/weather.go:136-143 | no string is accepted by two of the three layouts |
| TimestampFacts.FirstParseIsFirstSuccess | internal/weather/weather.go:136-143 | a chain of layouts fails exactly when every layout fails, and otherwise gives the first layout's success |
| TimestampFacts.ParseTimestampFallback | internal/weather/weather.go:136-143 | a timestamp is its local-naive reading when there is one and its RFC 3339 reading otherwise; the reverse order gives the same |
| TimestampFacts.ParseTimestampAccepted | internal/weather/weather.go:251-268 | an accepted timestamp has valid fields and lies in the zone, at UTC or at an offset under a day |
| ForecastQuery.Join | internal/client/openmateo/forecast.go:31 | `strings.Join` (also at forecast.go:35 and 39); stated by `SplitJoin` |
| ForecastQuery.ValuesOf | internal/client/openmateo/forecast.go:24 | the values `url.Values` holds under a key, in add order; stated by `ValuesOfMembers`, `ValuesOfEmptyIff` and `ValuesOfConcat` |
| ForecastQuery.SplitJoin | internal/client/openmateo/forecast.go:31 | a list joined with a separator none of its elements contains splits back into the list |
| ForecastQuery.ValuesOfMembers | internal/client/openmateo/forecast.go:24 | a value is listed under a key exactly when the pair was added |
| ForecastQuery.ValuesOfEmptyIff | internal/client/openmateo/forecast.go:24 | a key has no values exactly when no pair carries it |
| ForecastQuery.ValuesOfConcat | internal/client/openmateo/forecast.go:24 | the values of a key in two lists of pairs put together are the values in each, in order |
| ForecastQuery.KeyNameInjective | internal/client/openmateo/forecast.go:25-59 | distinct keys have distinct wire names, so a key's values are those under its name in `url.Values` |
| ForecastQuery.QueryPairs | internal/client/openmateo/forecast.go:24-60 | the whole parameter list; stated key by key by `QueryValuesOf` and the `Query*` lemmas |
| ForecastQuery.BuildQuery | internal/client/openmateo/forecast.go:24-60 | the parameter list equals `QueryPairs` of the request |
| ForecastQuery.AddFixed | internal/client/openmateo/forecast.go:24-28 | the four unconditional pairs, in order |
| ForecastQuery.AddSections | internal/client/openmateo/forecast.go:30-40 | the guarded section pairs appended to the list |
| ForecastQuery.AddUnits | internal/client/openmateo/forecast.go:42-52 | the guarded unit pairs appended to the list |
| ForecastQuery.AddDayCounts | internal/client/openmateo/forecast.go:54-60 | the guarded day-count pairs appended to the list |
| ForecastQuery.Add | internal/client/openmateo/forecast.go:25 | `url.Values.Add` appends one pair at the end |
| ForecastQuery.ValuesOfExtend | internal/client/openmateo/forecast.go:30-32 | a guarded add contributes its value to its own key only, and only when the guard holds |
| ForecastQuery.FixedValuesOf | internal/client/openmateo/forecast.go:24-28 | the fixed pairs give latitude, longitude, "celsius" and "auto" one value each |
| ForecastQuery.SectionsValuesOf | internal/client/openmateo/forecast.go:30-40 | the section block adds current, hourly and daily exactly when their lists are non-empty, and keeps what came before |
| ForecastQuery.UnitsValuesOf | internal/client/openmateo/forecast.go:42-52 | the unit block adds each unit exactly when it is non-empty, and keeps what came before |
| ForecastQuery.DayCountsValuesOf | internal/client/openmateo/forecast.go:54-60 | the day-count block adds each count exactly when it is not negative, and keeps what came before |
| ForecastQuery.QueryValuesOf | internal/client/openmateo/forecast.go:24-60 | the values of every key of the whole query; no other key is ever added, and values under one key keep their add order |
| ForecastQuery.QueryFixedFirst | internal/client/openmateo/forecast.go:24-28 | the query starts with latitude, longitude, temperature_unit=celsius and timezone=auto, in that order |
| ForecastQuery.QueryCoordinates | internal/client/openmateo/forecast.go:25-28 | latitude, longitude and timezone have exactly one value each |
| ForecastQuery.QuerySections | internal/client/openmateo/forecast.go:30-40 | current, hourly and daily are present exactly when their list is non-empty, as the comma-joined list |
| ForecastQuery.QueryTemperatureUnit | internal/client/openmateo/forecast.go:27 | "celsius" is always the first temperature unit; a non-empty caller unit is a second value after it |
| ForecastQuery.QueryOtherUnits | internal/client/openmateo/forecast.go:46-52 | wind and precipitation units are present exactly when non-empty, copied verbatim |
| ForecastQuery.QueryDayCounts | internal/client/openmateo/forecast.go:54-60 | past_days and forecast_days are present exactly when not negative, in base-10 decimal |
| Weather.ClampDays | internal/weather/weather.go:171-173 | the day count is within 1..16; one inside is kept and one outside becomes 1 |
| Weather.CurrentZone | internal/weather/weather.go:123-134 | the current path's zone; stated by `WeatherFacts.CurrentZonePolicy` |
| Weather.CurrentWeatherOf | internal/weather/weather.go:106-162 | the outcome of the current path for a response; stated by `WeatherFacts.CurrentErrorOrder`, `CurrentSuccessIff` and `CurrentSuccessFields` |
| Weather.EntryAt | internal/weather/weather.go:245-282 | the outcome of one day; stated by `WeatherFacts.EntryAtSucceeds` and `WeatherFacts.DayTimes` |
| Weather.DailyForecastOf | internal/weather/weather.go:199-284 | the outcome of the daily path for a response; stated by `WeatherFacts.DailyErrorOrder`, `DailySuccessShape`, `DailySuccessIff`, `DailyFirstBadDay`, `DailyFailureNamesDay` and `DailyZonePolicy` |
| Weather.GetCurrentWeather | internal/weather/weather.go:77-163 | the result is `CurrentWeatherOf` of the client's response to the current request |
| Weather.GetDailyForecast | internal/weather/weather.go:166-236 | the result is `DailyForecastOf` of the client's response to the daily request |
| Weather.FillDays | internal/weather/weather.go:238-284 | the loop over the days is the first failing day's error, or every day's record in order |
| Weather.ReadDay | internal/weather/weather.go:245-282 | one loop pass gives the specification of that day |
| WeatherFacts.DailyRequestQuery | internal/weather/weather.go:186-197 | the daily request sends only the comma-joined daily list, past_days "0" and the clamped forecast_days |
| WeatherFacts.CurrentRequestQuery | internal/weather/weather.go:94-105 | the current request sends only the comma-joined current list, with past_days and forecast_days "0" |
| WeatherFacts.CurrentZonePolicy | internal/weather/weather.go:123-134 | the current zone is what `LoadLocation` resolves, or UTC when it fails; an empty name gives UTC |
| WeatherFacts.CurrentErrorOrder | internal/weather/weather.go:106-143 | a client error is wrapped, then an absent section, then an unparsable observation time; a zone error never occurs |
| WeatherFacts.CurrentSuccessIff | internal/weather/weather.go:106-160 | success exactly when the call, the section, the observation time and the units are all there |
| WeatherFacts.CurrentSuccessFields | internal/weather/weather.go:136-160 | the record copies the section's values, describes its code, takes its units from the units section, and reads its time local-naive in the zone or else as RFC 3339, yielding a valid time |
| WeatherFacts.EntryAtSucceeds | internal/weather/weather.go:245-282 | a day's record is built exactly when its texts parse, from index i of each array; otherwise the error is its first failing text |
| WeatherFacts.DayTimes | internal/weather/weather.go:246-267 | a day's date is a valid midnight in the zone, and its sunrise and sunset are valid times |
| WeatherFacts.DailyErrorOrder | internal/weather/weather.go:199-236 | the checks fail in order: client error, missing data, inconsistent lengths, no dates, zone that does not load |
| WeatherFacts.DailySuccessShape | internal/weather/weather.go:238-284 | a success passed every check and has one record per date, record i built from index i |
| WeatherFacts.DailyUnitsShared | internal/weather/weather.go:239-243 | every record carries the units of the daily units section |
| WeatherFacts.DailySuccessIff | internal/weather/weather.go:204-284 | success exactly when every check passes, the zone loads and every day's texts parse |
| WeatherFacts.DailyFirstBadDay | internal/weather/weather.go:245-268 | after the checks, the first day that does not parse decides the error |
| WeatherFacts.DailyFailureNamesDay | internal/weather/weather.go:245-268 | a failure after the checks is the error of the first day that does not parse |
| WeatherFacts.DailyZonePolicy | internal/weather/weather.go:233-236 | a zone error occurs exactly when the checks pass and the name does not load; never for "" or "UTC" |

## Left out

- HTTP, JSON and URL encoding. The request (`doRequest`, status handling, `APIError`), the JSON decoding
  and `params.Encode` are not modelled. The forecast client is a function parameter from request to
  response.
- The hourly section of the response and its types: neither normaliser reads them.
- Float formatting. The coordinates' `%f` rendering is the opaque parameter `formatFloat`. The `%.2f`
  coordinates in error messages are not modelled, and neither is the wording of any error message
  (errors are kinds).
- ForecastQuery.KeyName: a key's wire name is not the key itself. `url.Values` keys are strings, and the
  model's keys are an enumeration mapped to those strings; `KeyNameInjective` shows the mapping loses nothing.
- Timestamps.ParseRFC3339: models Go's strict RFC 3339 reader. It does not model the leniencies of Go's
  general layout parser, which `time.Parse` falls back to when that reader fails.
- Time zone interpretation is not modelled: no instants, no UTC offsets of named zones and no daylight
  saving time. A parsed time is its calendar fields and the place they are read in.
- The time zone database is not modelled: it is the set of names it can load.
- Weather.GetCurrentWeather, Weather.GetDailyForecast: where Go panics on an absent units section, the
  model returns `MissingUnits`. A nil response with a nil error cannot arise in the model, since the
  client's response is a value.
- `NewWeatherClient` is the `WeatherClient` datatype's constructor.
- Location search and air quality (`search.go`, `airquality.go`) are not part of this model.
