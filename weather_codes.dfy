/** The weather-code mapper of internal/weather/weather.go: WMO-style codes to English phrases. */
module WeatherCodes {
  import Decimal
  import Wrappers

  // The phrases the switch returns, one per `case`.
  const ClearSky := "Clear sky"
  const Cloudiness := "Mainly clear, partly cloudy, and overcast"
  const Fog := "Fog and depositing rime fog"
  const Drizzle := "Drizzle: Light, moderate, and dense intensity"
  const FreezingDrizzle := "Freezing Drizzle: Light and dense intensity"
  const Rain := "Rain: Slight, moderate and heavy intensity"
  const FreezingRain := "Freezing Rain: Light and heavy intensity"
  const Snowfall := "Snow fall: Slight, moderate, and heavy intensity"
  const SnowGrains := "Snow grains"
  const RainShowers := "Rain showers: Slight, moderate, and violent"
  const SnowShowers := "Snow showers: Slight and heavy"
  const Thunderstorm := "Thunderstorm: Slight or moderate"
  const ThunderstormHail := "Thunderstorm with slight and heavy hail"

  const UnknownPrefix := "Unknown weather code: "

  /** The codes the switch lists; every other integer takes the default branch. */
  const KnownCodes: set<int> :=
    {0, 1, 2, 3, 45, 48, 51, 53, 55, 56, 57, 61, 63, 65, 66, 67,
     71, 73, 75, 77, 80, 81, 82, 85, 86, 95, 96, 99}

  /** `mapWeatherCodeToDescription`: total, no error path. */
  function Describe(code: int): string {
    match code
    case 0 => ClearSky
    case 1 | 2 | 3 => Cloudiness
    case 45 | 48 => Fog
    case 51 | 53 | 55 => Drizzle
    case 56 | 57 => FreezingDrizzle
    case 61 | 63 | 65 => Rain
    case 66 | 67 => FreezingRain
    case 71 | 73 | 75 => Snowfall
    case 77 => SnowGrains
    case 80 | 81 | 82 => RainShowers
    case 85 | 86 => SnowShowers
    case 95 => Thunderstorm
    case 96 | 99 => ThunderstormHail
    case _ => UnknownPrefix + Decimal.IntToString(code)
  }

  // One lemma per `case` of the switch: the codes it lists map to its phrase.

  lemma DescribeClearSky(code: int)
    requires code == 0
    ensures Describe(code) == ClearSky
  {
  }

  lemma DescribeCloudiness(code: int)
    requires code in {1, 2, 3}
    ensures Describe(code) == Cloudiness
  {
  }

  lemma DescribeFog(code: int)
    requires code in {45, 48}
    ensures Describe(code) == Fog
  {
  }

  lemma DescribeDrizzle(code: int)
    requires code in {51, 53, 55}
    ensures Describe(code) == Drizzle
  {
  }

  lemma DescribeFreezingDrizzle(code: int)
    requires code in {56, 57}
    ensures Describe(code) == FreezingDrizzle
  {
  }

  lemma DescribeRain(code: int)
    requires code in {61, 63, 65}
    ensures Describe(code) == Rain
  {
  }

  lemma DescribeFreezingRain(code: int)
    requires code in {66, 67}
    ensures Describe(code) == FreezingRain
  {
  }

  lemma DescribeSnowfall(code: int)
    requires code in {71, 73, 75}
    ensures Describe(code) == Snowfall
  {
  }

  lemma DescribeSnowGrains(code: int)
    requires code == 77
    ensures Describe(code) == SnowGrains
  {
  }

  lemma DescribeRainShowers(code: int)
    requires code in {80, 81, 82}
    ensures Describe(code) == RainShowers
  {
  }

  lemma DescribeSnowShowers(code: int)
    requires code in {85, 86}
    ensures Describe(code) == SnowShowers
  {
  }

  lemma DescribeThunderstorm(code: int)
    requires code == 95
    ensures Describe(code) == Thunderstorm
  {
  }

  lemma DescribeThunderstormHail(code: int)
    requires code in {96, 99}
    ensures Describe(code) == ThunderstormHail
  {
  }

  /** A code outside the table yields exactly the prefix followed by its decimal rendering. */
  lemma DescribeFallback(code: int)
    requires code !in KnownCodes
    ensures Describe(code) == UnknownPrefix + Decimal.IntToString(code)
  {
  }

  /** The texts the listed codes map to. */
  const Phrases: set<string> :=
    {ClearSky, Cloudiness, Fog, Drizzle, FreezingDrizzle, Rain, FreezingRain,
     Snowfall, SnowGrains, RainShowers, SnowShowers, Thunderstorm, ThunderstormHail}

  predicate HasUnknownPrefix(d: string) {
    |d| >= |UnknownPrefix| && d[..|UnknownPrefix|] == UnknownPrefix
  }

  predicate EndsWithDigit(d: string) {
    |d| > 0 && Decimal.IsDigit(d[|d| - 1])
  }

  /** No phrase ends with a digit. */
  lemma PhrasesEndInLetters(p: string)
    requires p in Phrases
    ensures !EndsWithDigit(p)
  {
  }

  /** The default branch is taken exactly for unlisted codes; its text is the prefix and the code, which can be read back. */
  lemma DescribeClassifies(code: int)
    ensures code in KnownCodes <==> !EndsWithDigit(Describe(code))
    ensures code !in KnownCodes ==> HasUnknownPrefix(Describe(code))
    ensures code !in KnownCodes ==> Decimal.ParseInt(Describe(code)[|UnknownPrefix|..]) == Wrappers.Some(code)
  {
    var d := Describe(code);
    if code in KnownCodes {
      assert d in Phrases;
      PhrasesEndInLetters(d);
    } else {
      var digits := Decimal.IntToString(code);
      assert d == UnknownPrefix + digits;
      assert d[..|UnknownPrefix|] == UnknownPrefix;
      assert d[|UnknownPrefix|..] == digits;
      Decimal.IntToStringShape(code);
      assert d[|d| - 1] == digits[|digits| - 1];
      if code < 0 {
        assert digits[|digits| - 1] == digits[1..][|digits| - 2];
      }
      Decimal.IntToStringRoundTrip(code);
    }
  }

  /** Distinct unlisted codes give distinct descriptions. */
  lemma DescribeFallbackInjective(a: int, b: int)
    requires a !in KnownCodes && b !in KnownCodes && a != b
    ensures Describe(a) != Describe(b)
  {
    DescribeClassifies(a);
    DescribeClassifies(b);
  }
}
