/**
 * The query parameters of the forecast request, built as Go's `url.Values`
 * is built: an ordered list of key/value pairs grown by `Add`. The per-key
 * view `ValuesOf` is what `url.Values` maps a key to, and `Get` is its first
 * value. Keys are the eleven names the request can carry, as an enumeration
 * with their wire spelling given by `KeyName`.
 */
module ForecastQuery {
  import opened Decimal
  import opened OpenMeteo

  // ---------------------------------------------------------------- strings.Join and its inverse

  /** `strings.Join(elems, sep)`. */
  function Join(elems: seq<string>, sep: string): string
    decreases |elems|
  {
    if |elems| == 0 then ""
    else if |elems| == 1 then elems[0]
    else elems[0] + sep + Join(elems[1..], sep)
  }

  /** The position of the first `c` in `s`. */
  function IndexOf(s: string, c: char): (i: nat)
    requires c in s
    ensures i < |s| && s[i] == c && c !in s[..i]
  {
    if s[0] == c then 0
    else
      var i := 1 + IndexOf(s[1..], c);
      assert s[..i] == [s[0]] + s[1..][..i - 1];
      i
  }

  /** `strings.Split(s, string(c))`: the pieces between the separators, at least one. */
  function Split(s: string, c: char): (pieces: seq<string>)
    ensures |pieces| >= 1
    decreases |s|
  {
    if c !in s then [s]
    else
      var i := IndexOf(s, c);
      [s[..i]] + Split(s[i + 1..], c)
  }

  lemma IndexOfFirst(s: string, c: char, i: nat)
    requires i < |s| && s[i] == c && c !in s[..i]
    ensures IndexOf(s, c) == i
  {
    var j := IndexOf(s, c);
    assert forall k :: 0 <= k < i ==> s[..i][k] == s[k];
    assert forall k :: 0 <= k < j ==> s[..j][k] == s[k];
  }

  /** Joining a non-empty list whose elements do not contain the separator can be undone by splitting. */
  lemma {:induction false} SplitJoin(elems: seq<string>, c: char)
    requires |elems| >= 1
    requires forall k :: 0 <= k < |elems| ==> c !in elems[k]
    ensures Split(Join(elems, [c]), c) == elems
    decreases |elems|
  {
    if |elems| > 1 {
      var x, rest := elems[0], Join(elems[1..], [c]);
      var s := x + [c] + rest;
      assert s[..|x|] == x;
      IndexOfFirst(s, c, |x|);
      assert s[|x| + 1..] == rest;
      SplitJoin(elems[1..], c);
    }
  }

  // ---------------------------------------------------------------- the multimap view

  datatype Key =
    | Latitude | Longitude | TemperatureUnit | Timezone | Current | Hourly | Daily
    | WindSpeedUnit | PrecipitationUnit | PastDays | ForecastDays

  /** The key as it appears in the URL. */
  function KeyName(k: Key): string {
    match k
    case Latitude => "latitude"
    case Longitude => "longitude"
    case TemperatureUnit => "temperature_unit"
    case Timezone => "timezone"
    case Current => "current"
    case Hourly => "hourly"
    case Daily => "daily"
    case WindSpeedUnit => "wind_speed_unit"
    case PrecipitationUnit => "precipitation_unit"
    case PastDays => "past_days"
    case ForecastDays => "forecast_days"
  }

  type Params = seq<(Key, string)>

  /** Distinct keys have distinct wire names, so per-key facts hold of the string-keyed `url.Values`. */
  lemma KeyNameInjective(a: Key, b: Key)
    requires KeyName(a) == KeyName(b)
    ensures a == b
  {
  }

  /** The values stored under `key`, in the order they were added. */
  function ValuesOf(params: Params, key: Key): seq<string>
    decreases |params|
  {
    if params == [] then []
    else
      var last := params[|params| - 1];
      ValuesOf(params[..|params| - 1], key) + (if last.0 == key then [last.1] else [])
  }

  /** `url.Values.Get`: the first value under `key`, or "" when there is none. */
  function Get(params: Params, key: Key): string {
    var vs := ValuesOf(params, key);
    if vs == [] then "" else vs[0]
  }

  /** A value is listed under a key exactly when that pair was added. */
  lemma {:induction false} ValuesOfMembers(params: Params, key: Key, v: string)
    ensures v in ValuesOf(params, key) <==> (key, v) in params
    decreases |params|
  {
    if params != [] {
      var init := params[..|params| - 1];
      ValuesOfMembers(init, key, v);
      assert params == init + [params[|params| - 1]];
    }
  }

  /** A key has no values exactly when no pair was added under it. */
  lemma {:induction false} ValuesOfEmptyIff(params: Params, key: Key)
    ensures ValuesOf(params, key) == [] <==> forall i :: 0 <= i < |params| ==> params[i].0 != key
    decreases |params|
  {
    if params != [] {
      var init := params[..|params| - 1];
      ValuesOfEmptyIff(init, key);
      assert forall i :: 0 <= i < |init| ==> init[i] == params[i];
    }
  }

  /** Splitting the pair list splits every key's values the same way. */
  lemma {:induction false} ValuesOfConcat(a: Params, b: Params, key: Key)
    ensures ValuesOf(a + b, key) == ValuesOf(a, key) + ValuesOf(b, key)
    decreases |b|
  {
    if b != [] {
      var b' := b[..|b| - 1];
      ValuesOfConcat(a, b', key);
      assert (a + b)[..|a + b| - 1] == a + b';
    } else {
      assert a + b == a;
    }
  }

  // ---------------------------------------------------------------- the forecast query

  /** One value when `present`, none otherwise. */
  function OptionalValue(present: bool, v: string): seq<string> {
    if present then [v] else []
  }

  /** The pair a guarded `Add` contributes: one when `present`, none otherwise. */
  function OptionalPair(present: bool, k: Key, v: string): Params {
    if present then [(k, v)] else []
  }

  /** The four pairs added unconditionally; `formatFloat` is the opaque `%f` rendering. */
  function FixedPairs(req: WeatherRequest, formatFloat: Float64 -> string): Params {
    [(Latitude, formatFloat(req.latitude)), (Longitude, formatFloat(req.longitude)),
     (TemperatureUnit, "celsius"), (Timezone, "auto")]
  }

  /** The list after a guarded `Add`: one more pair when `present`, unchanged otherwise. */
  function Extend(params: Params, present: bool, k: Key, v: string): Params {
    params + OptionalPair(present, k, v)
  }

  /** The section lists, each joined with commas and added only when non-empty. */
  function WithSections(params: Params, req: WeatherRequest): Params {
    var p1 := Extend(params, |req.currentParameters| > 0, Current, Join(req.currentParameters, ","));
    var p2 := Extend(p1, |req.hourlyParameters| > 0, Hourly, Join(req.hourlyParameters, ","));
    Extend(p2, |req.dailyParameters| > 0, Daily, Join(req.dailyParameters, ","))
  }

  /** The unit strings, each added only when non-empty. */
  function WithUnits(params: Params, req: WeatherRequest): Params {
    var p1 := Extend(params, req.temperatureUnit != "", TemperatureUnit, req.temperatureUnit);
    var p2 := Extend(p1, req.windSpeedUnit != "", WindSpeedUnit, req.windSpeedUnit);
    Extend(p2, req.precipitationUnit != "", PrecipitationUnit, req.precipitationUnit)
  }

  /** The day counts in decimal, each added only when not negative. */
  function WithDayCounts(params: Params, req: WeatherRequest): Params {
    var p1 := Extend(params, req.pastDays >= 0, PastDays, IntToString(req.pastDays as int));
    Extend(p1, req.forecastDays >= 0, ForecastDays, IntToString(req.forecastDays as int))
  }

  /** The whole query of a request as a pair list, in the order the pairs are added. */
  function QueryPairs(req: WeatherRequest, formatFloat: Float64 -> string): Params {
    WithDayCounts(WithUnits(WithSections(FixedPairs(req, formatFloat), req), req), req)
  }

  /**
   * The parameter assembly of `GetWeather`: four fixed pairs, then the guarded
   * `Add`s for the sections, the units and the day counts.
   */
  method BuildQuery(req: WeatherRequest, formatFloat: Float64 -> string) returns (params: Params)
    ensures params == QueryPairs(req, formatFloat)
  {
    params := AddFixed(req, formatFloat);
    params := AddSections(params, req);
    params := AddUnits(params, req);
    params := AddDayCounts(params, req);
  }

  method AddFixed(req: WeatherRequest, formatFloat: Float64 -> string) returns (r: Params)
    ensures r == FixedPairs(req, formatFloat)
  {
    r := [];
    r := Add(r, Latitude, formatFloat(req.latitude));
    r := Add(r, Longitude, formatFloat(req.longitude));
    r := Add(r, TemperatureUnit, "celsius");
    r := Add(r, Timezone, "auto");
  }

  method AddSections(params: Params, req: WeatherRequest) returns (r: Params)
    ensures r == WithSections(params, req)
  {
    r := params;
    if |req.currentParameters| > 0 {
      r := Add(r, Current, Join(req.currentParameters, ","));
    }
    if |req.hourlyParameters| > 0 {
      r := Add(r, Hourly, Join(req.hourlyParameters, ","));
    }
    if |req.dailyParameters| > 0 {
      r := Add(r, Daily, Join(req.dailyParameters, ","));
    }
  }

  method AddUnits(params: Params, req: WeatherRequest) returns (r: Params)
    ensures r == WithUnits(params, req)
  {
    r := params;
    if req.temperatureUnit != "" {
      r := Add(r, TemperatureUnit, req.temperatureUnit);
    }
    if req.windSpeedUnit != "" {
      r := Add(r, WindSpeedUnit, req.windSpeedUnit);
    }
    if req.precipitationUnit != "" {
      r := Add(r, PrecipitationUnit, req.precipitationUnit);
    }
  }

  method AddDayCounts(params: Params, req: WeatherRequest) returns (r: Params)
    ensures r == WithDayCounts(params, req)
  {
    r := params;
    if req.pastDays >= 0 {
      r := Add(r, PastDays, IntToString(req.pastDays as int));
    }
    if req.forecastDays >= 0 {
      r := Add(r, ForecastDays, IntToString(req.forecastDays as int));
    }
  }

  /** `url.Values.Add` on the pair list: the pair goes last. */
  method Add(params: Params, k: Key, v: string) returns (r: Params)
    ensures r == params + [(k, v)]
  {
    r := params + [(k, v)];
  }

  // ---------------------------------------------------------------- what the query carries

  /** A guarded `Add` contributes one value under its own key when `present`, and nothing anywhere else. */
  lemma ValuesOfExtend(params: Params, present: bool, k: Key, v: string, key: Key)
    ensures ValuesOf(Extend(params, present, k, v), key) == ValuesOf(params, key) + (if k == key then OptionalValue(present, v) else [])
  {
    ValuesOfConcat(params, OptionalPair(present, k, v), key);
    if present {
      assert OptionalPair(present, k, v)[..0] == [];
    }
  }

  /** `after` starts with `before`. */
  predicate Extends(after: Params, before: Params) {
    |before| <= |after| && forall i :: 0 <= i < |before| ==> after[i] == before[i]
  }

  lemma SectionsValuesOf(params: Params, req: WeatherRequest, key: Key)
    ensures ValuesOf(WithSections(params, req), key) == ValuesOf(params, key)
      + (if key == Current then OptionalValue(|req.currentParameters| > 0, Join(req.currentParameters, ",")) else [])
      + (if key == Hourly then OptionalValue(|req.hourlyParameters| > 0, Join(req.hourlyParameters, ",")) else [])
      + (if key == Daily then OptionalValue(|req.dailyParameters| > 0, Join(req.dailyParameters, ",")) else [])
    ensures Extends(WithSections(params, req), params)
  {
    var p1 := Extend(params, |req.currentParameters| > 0, Current, Join(req.currentParameters, ","));
    var p2 := Extend(p1, |req.hourlyParameters| > 0, Hourly, Join(req.hourlyParameters, ","));
    ValuesOfExtend(params, |req.currentParameters| > 0, Current, Join(req.currentParameters, ","), key);
    ValuesOfExtend(p1, |req.hourlyParameters| > 0, Hourly, Join(req.hourlyParameters, ","), key);
    ValuesOfExtend(p2, |req.dailyParameters| > 0, Daily, Join(req.dailyParameters, ","), key);
  }

  lemma UnitsValuesOf(params: Params, req: WeatherRequest, key: Key)
    ensures ValuesOf(WithUnits(params, req), key) == ValuesOf(params, key)
      + (if key == TemperatureUnit then OptionalValue(req.temperatureUnit != "", req.temperatureUnit) else [])
      + (if key == WindSpeedUnit then OptionalValue(req.windSpeedUnit != "", req.windSpeedUnit) else [])
      + (if key == PrecipitationUnit then OptionalValue(req.precipitationUnit != "", req.precipitationUnit) else [])
    ensures Extends(WithUnits(params, req), params)
  {
    var p1 := Extend(params, req.temperatureUnit != "", TemperatureUnit, req.temperatureUnit);
    var p2 := Extend(p1, req.windSpeedUnit != "", WindSpeedUnit, req.windSpeedUnit);
    ValuesOfExtend(params, req.temperatureUnit != "", TemperatureUnit, req.temperatureUnit, key);
    ValuesOfExtend(p1, req.windSpeedUnit != "", WindSpeedUnit, req.windSpeedUnit, key);
    ValuesOfExtend(p2, req.precipitationUnit != "", PrecipitationUnit, req.precipitationUnit, key);
  }

  lemma DayCountsValuesOf(params: Params, req: WeatherRequest, key: Key)
    ensures ValuesOf(WithDayCounts(params, req), key) == ValuesOf(params, key)
      + (if key == PastDays then OptionalValue(req.pastDays >= 0, IntToString(req.pastDays as int)) else [])
      + (if key == ForecastDays then OptionalValue(req.forecastDays >= 0, IntToString(req.forecastDays as int)) else [])
    ensures Extends(WithDayCounts(params, req), params)
  {
    var p1 := Extend(params, req.pastDays >= 0, PastDays, IntToString(req.pastDays as int));
    ValuesOfExtend(params, req.pastDays >= 0, PastDays, IntToString(req.pastDays as int), key);
    ValuesOfExtend(p1, req.forecastDays >= 0, ForecastDays, IntToString(req.forecastDays as int), key);
  }

  lemma FixedValuesOf(req: WeatherRequest, formatFloat: Float64 -> string, key: Key)
    ensures ValuesOf(FixedPairs(req, formatFloat), key) ==
      (if key == Latitude then [formatFloat(req.latitude)] else [])
      + (if key == Longitude then [formatFloat(req.longitude)] else [])
      + (if key == TemperatureUnit then ["celsius"] else [])
      + (if key == Timezone then ["auto"] else [])
  {
    var f := FixedPairs(req, formatFloat);
    ValuesOfConcat([f[0]], [f[1]], key);
    ValuesOfConcat([f[0], f[1]], [f[2]], key);
    ValuesOfConcat([f[0], f[1], f[2]], [f[3]], key);
    assert [f[0]] + [f[1]] == [f[0], f[1]];
    assert [f[0], f[1]] + [f[2]] == [f[0], f[1], f[2]];
    assert [f[0], f[1], f[2]] + [f[3]] == f;
  }

  /**
   * Every key's values in the finished query: the fixed value(s) first, then
   * the guarded one when its guard holds. No key receives anything else.
   */
  lemma QueryValuesOf(req: WeatherRequest, formatFloat: Float64 -> string, key: Key)
    ensures ValuesOf(QueryPairs(req, formatFloat), key) ==
      (if key == Latitude then [formatFloat(req.latitude)] else [])
      + (if key == Longitude then [formatFloat(req.longitude)] else [])
      + (if key == TemperatureUnit then ["celsius"] else [])
      + (if key == Timezone then ["auto"] else [])
      + (if key == Current then OptionalValue(|req.currentParameters| > 0, Join(req.currentParameters, ",")) else [])
      + (if key == Hourly then OptionalValue(|req.hourlyParameters| > 0, Join(req.hourlyParameters, ",")) else [])
      + (if key == Daily then OptionalValue(|req.dailyParameters| > 0, Join(req.dailyParameters, ",")) else [])
      + (if key == TemperatureUnit then OptionalValue(req.temperatureUnit != "", req.temperatureUnit) else [])
      + (if key == WindSpeedUnit then OptionalValue(req.windSpeedUnit != "", req.windSpeedUnit) else [])
      + (if key == PrecipitationUnit then OptionalValue(req.precipitationUnit != "", req.precipitationUnit) else [])
      + (if key == PastDays then OptionalValue(req.pastDays >= 0, IntToString(req.pastDays as int)) else [])
      + (if key == ForecastDays then OptionalValue(req.forecastDays >= 0, IntToString(req.forecastDays as int)) else [])
  {
    var f := FixedPairs(req, formatFloat);
    var s := WithSections(f, req);
    var u := WithUnits(s, req);
    FixedValuesOf(req, formatFloat, key);
    SectionsValuesOf(f, req, key);
    UnitsValuesOf(s, req, key);
    DayCountsValuesOf(u, req, key);
  }

  /** latitude, longitude, temperature_unit=celsius and timezone=auto come first, in that order. */
  lemma QueryFixedFirst(req: WeatherRequest, formatFloat: Float64 -> string)
    ensures |QueryPairs(req, formatFloat)| >= 4
    ensures QueryPairs(req, formatFloat)[..4] ==
      [(Latitude, formatFloat(req.latitude)), (Longitude, formatFloat(req.longitude)),
       (TemperatureUnit, "celsius"), (Timezone, "auto")]
  {
    var f := FixedPairs(req, formatFloat);
    var s := WithSections(f, req);
    var u := WithUnits(s, req);
    SectionsValuesOf(f, req, Latitude);
    UnitsValuesOf(s, req, Latitude);
    DayCountsValuesOf(u, req, Latitude);
    var q := QueryPairs(req, formatFloat);
    assert forall i :: 0 <= i < 4 ==> q[i] == f[i];
  }

  /** The coordinates and the timezone each carry exactly the one fixed value. */
  lemma QueryCoordinates(req: WeatherRequest, formatFloat: Float64 -> string)
    ensures ValuesOf(QueryPairs(req, formatFloat), Latitude) == [formatFloat(req.latitude)]
    ensures ValuesOf(QueryPairs(req, formatFloat), Longitude) == [formatFloat(req.longitude)]
    ensures ValuesOf(QueryPairs(req, formatFloat), Timezone) == ["auto"]
  {
    QueryValuesOf(req, formatFloat, Latitude);
    QueryValuesOf(req, formatFloat, Longitude);
    QueryValuesOf(req, formatFloat, Timezone);
  }

  /** current, hourly and daily are present exactly when their list is non-empty, as the comma-joined list. */
  lemma QuerySections(req: WeatherRequest, formatFloat: Float64 -> string)
    ensures ValuesOf(QueryPairs(req, formatFloat), Current) == OptionalValue(|req.currentParameters| > 0, Join(req.currentParameters, ","))
    ensures ValuesOf(QueryPairs(req, formatFloat), Hourly) == OptionalValue(|req.hourlyParameters| > 0, Join(req.hourlyParameters, ","))
    ensures ValuesOf(QueryPairs(req, formatFloat), Daily) == OptionalValue(|req.dailyParameters| > 0, Join(req.dailyParameters, ","))
  {
    QueryValuesOf(req, formatFloat, Current);
    QueryValuesOf(req, formatFloat, Hourly);
    QueryValuesOf(req, formatFloat, Daily);
  }

  /** "celsius" is always the first temperature unit; a non-empty caller unit is a second value after it. */
  lemma QueryTemperatureUnit(req: WeatherRequest, formatFloat: Float64 -> string)
    ensures ValuesOf(QueryPairs(req, formatFloat), TemperatureUnit) ==
      ["celsius"] + OptionalValue(req.temperatureUnit != "", req.temperatureUnit)
    ensures Get(QueryPairs(req, formatFloat), TemperatureUnit) == "celsius"
  {
    QueryValuesOf(req, formatFloat, TemperatureUnit);
  }

  /** wind_speed_unit and precipitation_unit are present exactly when non-empty, copied verbatim. */
  lemma QueryOtherUnits(req: WeatherRequest, formatFloat: Float64 -> string)
    ensures ValuesOf(QueryPairs(req, formatFloat), WindSpeedUnit) == OptionalValue(req.windSpeedUnit != "", req.windSpeedUnit)
    ensures ValuesOf(QueryPairs(req, formatFloat), PrecipitationUnit) == OptionalValue(req.precipitationUnit != "", req.precipitationUnit)
  {
    QueryValuesOf(req, formatFloat, WindSpeedUnit);
    QueryValuesOf(req, formatFloat, PrecipitationUnit);
  }

  /** past_days and forecast_days are present exactly when not negative, in base-10 decimal. */
  lemma QueryDayCounts(req: WeatherRequest, formatFloat: Float64 -> string)
    ensures ValuesOf(QueryPairs(req, formatFloat), PastDays) == OptionalValue(req.pastDays >= 0, IntToString(req.pastDays as int))
    ensures ValuesOf(QueryPairs(req, formatFloat), ForecastDays) == OptionalValue(req.forecastDays >= 0, IntToString(req.forecastDays as int))
  {
    QueryValuesOf(req, formatFloat, PastDays);
    QueryValuesOf(req, formatFloat, ForecastDays);
  }
}
