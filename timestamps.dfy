/**
 * The three time layouts the normaliser parses, written out as structural
 * recognisers with the field ranges Go's `time` package enforces:
 *   LocalNaive  "2006-01-02T15:04"            (time.ParseInLocation, weather.go:10)
 *   RFC3339     "2006-01-02T15:04:05Z07:00"   (section 5.6 of RFC 3339, as read by the strict
 *                                             reader behind time.Parse(time.RFC3339, ...))
 *   DateOnly    "2006-01-02"                  (time.ParseInLocation, weather.go:246)
 * A parsed time keeps its calendar fields and either the location it was read
 * in or the explicit UTC offset the string carried.
 */
module Timestamps {
  import opened Wrappers
  import opened Decimal

  // ---------------------------------------------------------------- zones

  /** A loaded `*time.Location`: UTC, the process's local zone, or a zone of the database. */
  datatype Location = UTC | Local | Named(name: string)

  /**
   * `time.LoadLocation(name)`: "" and "UTC" give UTC and "Local" the local zone;
   * any other name is looked up in the zone database, given here as the set
   * `tzdb` of names it can load.
   */
  function LoadLocation(name: string, tzdb: set<string>): (r: Result<Location, string>)
    ensures r.Failure? <==> name != "" && name != "UTC" && name != "Local" && name !in tzdb
    ensures name == "" || name == "UTC" ==> r == Success(UTC)
    ensures r.Success? && r.value.Named? ==> r.value.name == name && name in tzdb
  {
    if name == "" || name == "UTC" then Success(UTC)
    else if name == "Local" then Success(Local)
    else if name in tzdb then Success(Named(name))
    else Failure(name)
  }

  // ---------------------------------------------------------------- time values

  /** Calendar fields as Go's `time.Date` takes them. */
  datatype Civil = Civil(year: int, month: int, day: int, hour: int, minute: int, second: int, nanosecond: int)

  /** Where the calendar fields are read: in a location, or at a fixed offset east of UTC in seconds. */
  datatype Place = In(location: Location) | Offset(seconds: int)

  datatype Time = Time(civil: Civil, place: Place)

  predicate IsLeap(year: int) {
    year % 4 == 0 && (year % 100 != 0 || year % 400 == 0)
  }

  function DaysIn(month: int, year: int): int
    requires 1 <= month <= 12
  {
    if month == 2 then (if IsLeap(year) then 29 else 28)
    else if month == 4 || month == 6 || month == 9 || month == 11 then 30
    else 31
  }

  predicate ValidDate(year: int, month: int, day: int) {
    0 <= year <= 9999 && 1 <= month <= 12 && 1 <= day <= DaysIn(month, year)
  }

  predicate ValidCivil(c: Civil) {
    && ValidDate(c.year, c.month, c.day)
    && 0 <= c.hour < 24 && 0 <= c.minute < 60 && 0 <= c.second < 60
    && 0 <= c.nanosecond < 1_000_000_000
  }

  // ---------------------------------------------------------------- digit fields

  predicate DigitsAt(s: string, i: nat, n: nat) {
    i + n <= |s| && forall k :: i <= k < i + n ==> IsDigit(s[k])
  }

  /** The two-digit number at position i. */
  function Two(s: string, i: nat): nat
    requires DigitsAt(s, i, 2)
  {
    DigitValue(s[i]) * 10 + DigitValue(s[i + 1])
  }

  /** The four-digit number at position i. */
  function Four(s: string, i: nat): nat
    requires DigitsAt(s, i, 4)
  {
    Two(s, i) * 100 + Two(s, i + 2)
  }

  function Pow10(k: nat): nat {
    if k == 0 then 1 else 10 * Pow10(k - 1)
  }

  /** How many decimal digits `s` starts with. */
  function LeadingDigits(s: string): (n: nat)
    ensures n <= |s| && AllDigits(s[..n])
    ensures n < |s| ==> !IsDigit(s[n])
  {
    if s == [] || !IsDigit(s[0]) then 0
    else
      var n := 1 + LeadingDigits(s[1..]);
      assert s[..n] == [s[0]] + s[1..][..n - 1];
      n
  }

  /** Nanoseconds of a fraction's digits: the first nine count, the rest are dropped (Go's parseNanoseconds). */
  function FractionNanos(ds: string): nat
    requires |ds| >= 1 && AllDigits(ds)
  {
    var k := if |ds| < 9 then |ds| else 9;
    assert AllDigits(ds[..k]);
    DigitsValue(ds[..k]) * Pow10(9 - k)
  }

  // ---------------------------------------------------------------- the three layouts

  /** "YYYY-MM-DD" at the start of s, without the range checks. */
  predicate DateShape(s: string) {
    DigitsAt(s, 0, 4) && |s| >= 10 && s[4] == '-' && DigitsAt(s, 5, 2) && s[7] == '-' && DigitsAt(s, 8, 2)
  }

  /** time.ParseInLocation("2006-01-02", s, loc). */
  function ParseDate(s: string, loc: Location): Option<Time> {
    if |s| == 10 && DateShape(s) && ValidDate(Four(s, 0), Two(s, 5), Two(s, 8)) then
      Some(Time(Civil(Four(s, 0), Two(s, 5), Two(s, 8), 0, 0, 0, 0), In(loc)))
    else None
  }

  /**
   * time.ParseInLocation("2006-01-02T15:04", s, loc). The layout's hour element
   * is Go's variable-width "15", which reads one or two digits; the minute is
   * exactly two digits; nothing may follow.
   */
  function ParseLocalNaive(s: string, loc: Location): Option<Time> {
    if |s| < 15 || !DateShape(s) || s[10] != 'T' || !IsDigit(s[11]) then None
    else
      var hour := if IsDigit(s[12]) then Two(s, 11) else DigitValue(s[11]);
      var k := if IsDigit(s[12]) then 13 else 12;
      if |s| == k + 3 && s[k] == ':' && DigitsAt(s, k + 1, 2) then
        var c := Civil(Four(s, 0), Two(s, 5), Two(s, 8), hour, Two(s, k + 1), 0, 0);
        if ValidDate(c.year, c.month, c.day) && c.hour < 24 && c.minute < 60 then Some(Time(c, In(loc)))
        else None
      else None
  }

  /** "YYYY-MM-DDTHH:MM:SS" at the start of s, without the range checks. */
  predicate DateTimeShape(s: string) {
    && DateShape(s) && |s| >= 19 && s[10] == 'T' && DigitsAt(s, 11, 2) && s[13] == ':'
    && DigitsAt(s, 14, 2) && s[16] == ':' && DigitsAt(s, 17, 2)
  }

  /** The length of a fraction ".ddd" at the start of rest, or 0 when there is none. */
  function FractionLength(rest: string): (n: nat)
    ensures n <= |rest|
    ensures n > 0 ==> n >= 2 && rest[0] == '.' && AllDigits(rest[1..n])
    ensures n == 0 ==> !(|rest| >= 2 && rest[0] == '.' && IsDigit(rest[1]))
  {
    if |rest| >= 2 && rest[0] == '.' && IsDigit(rest[1]) then
      var n := 1 + LeadingDigits(rest[1..]);
      assert rest[1..n] == rest[1..][..n - 1];
      n
    else 0
  }

  /** The zone suffix: "Z", or a sign, two hour digits (0-23), ':' and two minute digits (0-59). */
  function ParseZoneSuffix(z: string): Option<Place> {
    if z == "Z" then Some(In(UTC))
    else if |z| == 6 && (z[0] == '+' || z[0] == '-') && z[3] == ':' && DigitsAt(z, 1, 2) && DigitsAt(z, 4, 2)
            && Two(z, 1) <= 23 && Two(z, 4) <= 59 then
      var east := (Two(z, 1) * 60 + Two(z, 4)) * 60;
      Some(Offset(if z[0] == '-' then -east else east))
    else None
  }

  /**
   * Go's strict RFC 3339 reader, the fast path of time.Parse(time.RFC3339, s),
   * without the general layout parser it falls back to: fixed positions for
   * the date and the time of day, an optional fraction of a second, then the
   * zone suffix. The location argument of the other layouts plays no part:
   * the string carries its offset.
   */
  function ParseRFC3339(s: string): Option<Time> {
    if !DateTimeShape(s) then None
    else
      var c := Civil(Four(s, 0), Two(s, 5), Two(s, 8), Two(s, 11), Two(s, 14), Two(s, 17), 0);
      if !(ValidDate(c.year, c.month, c.day) && c.hour <= 23 && c.minute <= 59 && c.second <= 59) then None
      else
        var rest := s[19..];
        var n := FractionLength(rest);
        var nanos := if n == 0 then 0 else FractionNanos(rest[1..n]);
        match ParseZoneSuffix(rest[n..])
        case Some(place) => Some(Time(c.(nanosecond := nanos), place))
        case None => None
  }

  datatype Layout = LocalNaive | RFC3339 | DateOnly

  function ParseWith(layout: Layout, s: string, loc: Location): Option<Time> {
    match layout
    case LocalNaive => ParseLocalNaive(s, loc)
    case RFC3339 => ParseRFC3339(s)
    case DateOnly => ParseDate(s, loc)
  }

  /** Tries the layouts in order and keeps the first success. */
  function FirstParse(layouts: seq<Layout>, s: string, loc: Location): Option<Time>
    decreases |layouts|
  {
    if layouts == [] then None
    else match ParseWith(layouts[0], s, loc)
      case Some(t) => Some(t)
      case None => FirstParse(layouts[1..], s, loc)
  }

  /** The chain used for observation, sunrise and sunset times: local-naive first, then RFC 3339. */
  const TimestampLayouts: seq<Layout> := [LocalNaive, RFC3339]

  /** An observation, sunrise or sunset time read in `loc`. */
  function ParseTimestamp(s: string, loc: Location): Option<Time> {
    FirstParse(TimestampLayouts, s, loc)
  }
}
