/**
 * The mock data services of the dashboard: the coordinate-derived seed,
 * the seeded weather generator, the OpenWeather icon table, the
 * air-quality forecast builder and the location search. Network calls and
 * the simulated delays are not modelled; `Math.random()` draws and the
 * clock reading are parameters, as in `AirQuality`.
 */
module Api {
  import Text
  import opened Wrappers
  import opened AirQuality

  function Abs(n: int): (a: nat)
    ensures a == n || a == -n
  {
    if n < 0 then -n else n
  }

  /**
   * JavaScript's `a % b` for a positive divisor: the remainder of the
   * division truncated toward zero, which takes the sign of the dividend.
   */
  function JsRem(a: int, b: int): (r: int)
    requires b > 0
    ensures Abs(r) == Abs(a) % b
    ensures (a > 0 ==> r >= 0) && (a < 0 ==> r <= 0)
    ensures (r - a) % b == 0
  {
    if a >= 0 then
      assert a % b - a == -(a / b) * b;
      RemOfMultiple(-(a / b), b);
      a % b
    else
      assert -((-a) % b) - a == ((-a) / b) * b;
      RemOfMultiple((-a) / b, b);
      -((-a) % b)
  }

  /** A multiple of `b` leaves no remainder. */
  lemma RemOfMultiple(q: int, b: int)
    requires b > 0
    ensures (q * b) % b == 0
  {
    var k := q - (q * b) / b;
    assert k * b == (q * b) % b by {
      assert q * b == ((q * b) / b) * b + (q * b) % b;
    }
  }

  /**
   * `Math.abs(Math.floor((latitude + longitude) * 10)) % 100`, given
   * `n = Math.floor((latitude + longitude) * 10)`: a seed in [0, 99]
   * congruent to |n| modulo 100.
   */
  function SeedOf(n: int): (seed: nat)
    ensures seed < 100
    ensures (Abs(n) - seed) % 100 == 0
  {
    JsRem(Abs(n), 100)
  }

  /** Opposite coordinate sums give the same seed. */
  lemma SeedOfNegation(n: int)
    ensures SeedOf(-n) == SeedOf(n)
  {
  }

  /**
   * `fetchAirQualityData` with the delay left out. The seed it derives is
   * passed to `generateMockAirQualityData`, which declares no parameter for
   * it, so the record depends only on the place and the draws.
   */
  function FetchAirQuality(n: int, city: string, country: string, d: Draws, now: Timestamp): (r: AirQualityData)
    ensures r.location == Place(city, country) && r.time == now
    ensures r.category == Category(r.aqi as real) && 0 <= r.aqi <= 299
    ensures r.pollutants == PollutantList(d)
    ensures r.dominantPollutant == if r.pollutants[5].value > 0.0 then "CO" else "PM2.5"
    ensures r == GenerateAirQuality(city, country, d, now)
  {
    DominantOfGenerated(city, country, d, now);
    var seed := SeedOf(n);
    GenerateAirQuality(city, country, d, now)
  }

  /** The coordinates do not reach the record: two coordinate sums give the same record for the same place, draws and time. */
  lemma FetchIgnoresCoordinates(n: int, m: int, city: string, country: string, d: Draws, now: Timestamp)
    ensures FetchAirQuality(n, city, country, d, now) == FetchAirQuality(m, city, country, d, now)
  {
  }

  const SeededConditions: seq<string> :=
    ["Clear", "Partly Cloudy", "Cloudy", "Light Rain", "Heavy Rain", "Thunderstorm", "Snow"]
  const SeededIcons: seq<string> :=
    ["sun", "cloud-sun", "cloud", "cloud-rain", "cloud-rain", "cloud-lightning", "cloud-snow"]

  /** An array read `xs[k]`: `undefined` outside the array. */
  function At<T>(xs: seq<T>, k: int): (v: Option<T>)
    ensures v.Some? <==> 0 <= k < |xs|
    ensures v.Some? ==> v.value == xs[k]
  {
    if 0 <= k < |xs| then Some(xs[k]) else None
  }

  /**
   * The seeded `generateMockWeatherData` of the services file. Condition and
   * icon are read at the same index, so they always come as one of the
   * seven fixed pairs; a negative seed whose remainder is not zero reads
   * below the arrays and gets neither.
   */
  function MockWeather(seed: int): (w: WeatherData)
    ensures seed >= 0 ==> 10 <= w.temperature <= 34 && 30 <= w.humidity <= 89 && 5 <= w.windSpeed <= 24
    ensures seed >= 0 ==> w.condition.Some? && w.icon.Some?
    ensures w.condition.Some? <==> w.icon.Some?
    ensures w.condition.Some? ==> exists k :: (0 <= k < |SeededConditions| &&
      w.condition.value == SeededConditions[k] && w.icon.value == SeededIcons[k])
    ensures seed >= 0 ==> w.condition == Some(SeededConditions[seed % 7]) && w.icon == Some(SeededIcons[seed % 7])
    ensures (w.temperature - 10 - seed) % 25 == 0 && (w.humidity - 30 - seed) % 60 == 0
      && (w.windSpeed - 5 - seed) % 20 == 0
    ensures w.locationName == Some("Weather Location")
  {
    var k := JsRem(seed, |SeededConditions|);
    WeatherData(
      10 + JsRem(seed, 25),
      30 + JsRem(seed, 60),
      5 + JsRem(seed, 20),
      At(SeededConditions, k),
      At(SeededIcons, k),
      Some("Weather Location"))
  }

  /** The condition determines the icon: two seeds with the same condition get the same icon. */
  lemma MockWeatherIconFollowsCondition(s: int, t: int)
    requires MockWeather(s).condition.Some? && MockWeather(s).condition == MockWeather(t).condition
    ensures MockWeather(s).icon == MockWeather(t).icon
  {
    var k :| 0 <= k < 7 && MockWeather(s).condition.value == SeededConditions[k]
      && MockWeather(s).icon.value == SeededIcons[k];
    var j :| 0 <= j < 7 && MockWeather(t).condition.value == SeededConditions[j]
      && MockWeather(t).icon.value == SeededIcons[j];
  }

  /** The icon does not determine the condition: light and heavy rain share one. */
  lemma RainConditionsShareIcon()
    ensures MockWeather(3).icon == MockWeather(4).icon == Some("cloud-rain")
    ensures MockWeather(3).condition != MockWeather(4).condition
  {
  }

  /**
   * The weather fallback of `fetchWeatherData`, taken when the OpenWeather
   * request fails: the seeded generator at the coordinate seed.
   */
  function FallbackWeather(n: int): (w: WeatherData)
    ensures 10 <= w.temperature <= 34 && 30 <= w.humidity <= 89 && 5 <= w.windSpeed <= 24
    ensures w.condition.Some? && w.icon.Some? && w.icon.value in AppIcons
  {
    MockWeather(SeedOf(n))
  }

  /** The icon names the dashboard draws. */
  const AppIcons: set<string> := {"sun", "cloud-sun", "cloud", "cloud-rain", "cloud-lightning", "cloud-snow"}

  /** `iconCode.substring(0, 2)`: the first two characters, or the whole code when shorter. */
  function IconPrefix(code: string): (p: string)
    ensures |p| == if |code| < 2 then |code| else 2
    ensures p == code[..|p|]
  {
    if |code| < 2 then code else code[..2]
  }

  /**
   * `mapOpenWeatherIconToApp`: the OpenWeather condition group, read from
   * the first two characters, picks one of the six icons; every code
   * outside the table gets "cloud".
   */
  function MapOpenWeatherIcon(code: string): (icon: string)
    ensures icon in AppIcons
    ensures icon == "sun" <==> IconPrefix(code) == "01"
    ensures icon == "cloud-sun" <==> IconPrefix(code) in {"02", "03"}
    ensures icon == "cloud-rain" <==> IconPrefix(code) in {"09", "10"}
    ensures icon == "cloud-lightning" <==> IconPrefix(code) == "11"
    ensures icon == "cloud-snow" <==> IconPrefix(code) == "13"
    ensures icon == "cloud" <==> IconPrefix(code) !in {"01", "02", "03", "09", "10", "11", "13"}
  {
    var p := IconPrefix(code);
    if p == "01" then "sun"
    else if p == "02" || p == "03" then "cloud-sun"
    else if p == "04" then "cloud"
    else if p == "09" || p == "10" then "cloud-rain"
    else if p == "11" then "cloud-lightning"
    else if p == "13" then "cloud-snow"
    else if p == "50" then "cloud"
    else "cloud"
  }

  /** Only the first two characters count: day and night variants map alike. */
  lemma MapOpenWeatherIconIgnoresSuffix(code: string, suffix: string)
    requires |code| >= 2
    ensures MapOpenWeatherIcon(code + suffix) == MapOpenWeatherIcon(code)
  {
    assert IconPrefix(code + suffix) == IconPrefix(code);
  }

  /** The generator call of the forecast loop: city "Forecast", no country. */
  function ForecastSample(d: Draws, today: Timestamp): (r: AirQualityData)
    ensures r.location == Place("Forecast", "") && r.time == today
  {
    GenerateAirQuality("Forecast", "", d, today)
  }

  /**
   * Day i of the forecast: a record generated for place ("Forecast", "")
   * with its city then cleared and its time moved to day `today + i`; the
   * readings, AQI, category and dominant pollutant are the generated ones.
   */
  function ForecastDay(i: int, today: Timestamp, d: Draws): (r: AirQualityData)
    ensures r.location == Place("", "") && r.time == Timestamp(today.day + i, today.msOfDay)
    ensures var generated := ForecastSample(d, today);
      && r.aqi == generated.aqi && r.category == generated.category
      && r.pollutants == generated.pollutants && r.dominantPollutant == generated.dominantPollutant
  {
    var generated := ForecastSample(d, today);
    generated.(location := generated.location.(city := ""), time := Timestamp(today.day + i, today.msOfDay))
  }

  /**
   * A forecast record keeps the generator's readings: its band is the band
   * of its index, the index is below 300, the six readings are the
   * generated ones and the dominant pollutant is CO or PM2.5.
   */
  lemma ForecastDayReadings(i: int, today: Timestamp, d: Draws)
    ensures var r := ForecastDay(i, today, d);
      && r.category == Category(r.aqi as real) && r.category != Hazardous && 0 <= r.aqi <= 299
      && r.pollutants == PollutantList(d)
      && r.dominantPollutant == if r.pollutants[5].value > 0.0 then "CO" else "PM2.5"
  {
    DominantOfGenerated("Forecast", "", d, today);
  }

  /** The number of forecast days when the caller passes none. */
  const DefaultForecastDays: nat := 5

  /**
   * `fetchAirQualityForecast` called without `days`, as the dashboard
   * page calls it: five records, for today and the four days after.
   */
  method DefaultAirQualityForecast(n: int, today: Timestamp, draws: nat -> Draws)
    returns (forecast: seq<AirQualityData>)
    ensures |forecast| == DefaultForecastDays
    ensures forall i :: 0 <= i < DefaultForecastDays ==> forecast[i] == ForecastDay(i, today, draws(i))
  {
    forecast := AirQualityForecast(n, DefaultForecastDays, today, draws);
  }

    /** Clearing the city and moving the date of the generated sample gives the day's forecast. */
  lemma ForecastDayIsRelabelledSample(i: int, today: Timestamp, d: Draws)
    ensures var sample := ForecastSample(d, today);
      sample.(location := sample.location.(city := "")).(time := Timestamp(today.day + i, today.msOfDay))
        == ForecastDay(i, today, d)
  {
  }

  /** Appending the next day's forecast to the first `|forecast|` days gives the first `|forecast| + 1` days. */
  lemma ForecastAppend(forecast: seq<AirQualityData>, today: Timestamp, draws: nat -> Draws, next: AirQualityData)
    requires forall k :: 0 <= k < |forecast| ==> forecast[k] == ForecastDay(k, today, draws(k))
    requires next == ForecastDay(|forecast|, today, draws(|forecast|))
    ensures forall k :: 0 <= k < |forecast| + 1 ==> (forecast + [next])[k] == ForecastDay(k, today, draws(k))
  {
  }

  /**
   * `fetchAirQualityForecast` with the delay left out: one record per day
   * for `days` days (none when `days` is not positive), day i stamped
   * `today + i`, so the stamps strictly increase along the list.
   * `draws(i)` are the random draws of the i-th generator call; the clock
   * is read once, as `today`.
   */
  method AirQualityForecast(n: int, days: int, today: Timestamp, draws: nat -> Draws)
    returns (forecast: seq<AirQualityData>)
    ensures |forecast| == if days > 0 then days else 0
    ensures forall i :: 0 <= i < |forecast| ==> forecast[i] == ForecastDay(i, today, draws(i))
    ensures forall i :: 0 <= i < |forecast| ==>
      forecast[i].location == Place("", "") && forecast[i].time.day == today.day + i
    ensures forall i, j :: 0 <= i < j < |forecast| ==> forecast[i].time.day < forecast[j].time.day
  {
    forecast := [];
    var baseSeed := SeedOf(n);
    var i := 0;
    while i < days
      invariant 0 <= i <= if days > 0 then days else 0
      invariant |forecast| == i
      invariant forall k :: 0 <= k < i ==> forecast[k] == ForecastDay(k, today, draws(k))
    {
      var forecastDate := Timestamp(today.day + i, today.msOfDay);
      // The generator declares no seed parameter; the daily seed is dropped.
      var dailySeed := (baseSeed + i) % 100;
      var mockData := ForecastSample(draws(i), today);
      mockData := mockData.(location := mockData.location.(city := ""));
      mockData := mockData.(time := forecastDate);
      ForecastDayIsRelabelledSample(i, today, draws(i));
      ForecastAppend(forecast, today, draws, mockData);
      forecast := forecast + [mockData];
      i := i + 1;
    }
  }

  datatype Location = Location(latitude: real, longitude: real, city: string, country: string)

  /** The static table `searchLocation` filters, in its order. */
  const MockLocations: seq<Location> := [
    Location(40.7128, -74.0060, "New York", "United States"),
    Location(51.5074, 0.1278, "London", "United Kingdom"),
    Location(35.6762, 139.6503, "Tokyo", "Japan"),
    Location(48.8566, 2.3522, "Paris", "France"),
    Location(37.7749, -122.4194, "San Francisco", "United States"),
    Location(19.4326, -99.1332, "Mexico City", "Mexico"),
    Location(55.7558, 37.6173, "Moscow", "Russia"),
    Location(-33.8688, 151.2093, "Sydney", "Australia"),
    Location(31.2304, 121.4737, "Shanghai", "China"),
    Location(-22.9068, -43.1729, "Rio de Janeiro", "Brazil"),
    Location(13.0827, 80.2707, "Chennai", "India"),
    Location(28.6139, 77.2090, "Delhi", "India"),
    Location(19.0760, 72.8777, "Mumbai", "India"),
    Location(22.5726, 88.3639, "Kolkata", "India"),
    Location(17.3850, 78.4867, "Hyderabad", "India"),
    Location(12.9716, 77.5946, "Bangalore", "India"),
    Location(23.0225, 72.5714, "Ahmedabad", "India"),
    Location(26.9124, 75.7873, "Jaipur", "India")]

  /** `xs` is `ys` with some entries left out, the rest in their order. */
  predicate IsSubsequence<T(==)>(xs: seq<T>, ys: seq<T>)
  {
    xs == [] || (ys != [] && ((xs[0] == ys[0] && IsSubsequence(xs[1..], ys[1..])) || IsSubsequence(xs, ys[1..])))
  }

  /** The filter's test: the lower-cased city or country contains the lower-cased query. */
  predicate Matches(l: Location, lowerQuery: string)
    ensures Matches(l, lowerQuery) <==>
      (exists i :: Text.OccursAt(Text.Lower(l.city), lowerQuery, i))
      || (exists i :: Text.OccursAt(Text.Lower(l.country), lowerQuery, i))
  {
    Text.ContainsIffOccurs(Text.Lower(l.city), lowerQuery);
    Text.ContainsIffOccurs(Text.Lower(l.country), lowerQuery);
    Text.Contains(Text.Lower(l.city), lowerQuery) || Text.Contains(Text.Lower(l.country), lowerQuery)
  }

  /** `Array.prototype.filter` with `Matches`: exactly the matching entries, in order. */
  function FilterMatching(ls: seq<Location>, lowerQuery: string): (r: seq<Location>)
    ensures IsSubsequence(r, ls)
    ensures forall l :: l in r ==> l in ls && Matches(l, lowerQuery)
    ensures forall l :: l in ls && Matches(l, lowerQuery) ==> l in r
    ensures forall l :: multiset(r)[l] == if Matches(l, lowerQuery) then multiset(ls)[l] else 0
  {
    if ls == [] then []
    else
      var rest := FilterMatching(ls[1..], lowerQuery);
      assert ls == [ls[0]] + ls[1..];
      if Matches(ls[0], lowerQuery) then
        assert ([ls[0]] + rest)[1..] == rest;
        [ls[0]] + rest
      else
        rest
  }

  /**
   * `searchLocation` with the delay left out: nothing for a query that is
   * only white space, otherwise the table entries whose city or country
   * contains the lower-cased query, untrimmed, in table order.
   */
  function SearchLocation(query: string): (r: seq<Location>)
    ensures Text.AllSpace(query) ==> r == []
    ensures !Text.AllSpace(query) ==> IsSubsequence(r, MockLocations)
    ensures !Text.AllSpace(query) ==>
      forall l :: l in r <==> l in MockLocations && Matches(l, Text.Lower(query))
  {
    Text.TrimEmptyIffAllSpace(query);
    if Text.Trim(query) == [] then [] else FilterMatching(MockLocations, Text.Lower(query))
  }

  /** Searching for the lower-cased query finds what searching for the query finds. */
  lemma SearchIgnoresCase(query: string)
    ensures SearchLocation(Text.Lower(query)) == SearchLocation(query)
  {
    Text.LowerKeepsSpace(query);
    Text.LowerIdempotent(query);
    Text.TrimEmptyIffAllSpace(query);
    Text.TrimEmptyIffAllSpace(Text.Lower(query));
  }
}
