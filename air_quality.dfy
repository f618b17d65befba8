/**
 * The air-quality utilities of the dashboard: the AQI category bands,
 * the per-category and per-pollutant lookup tables, and the builder of a
 * mock air-quality record. `Math.random()` and the wall clock are
 * parameters: each draw is a `Unit`, the clock a `Timestamp`.
 */
module AirQuality {
  import Text
  import opened Wrappers

  /** A value of `Math.random()`: a number in [0, 1). */
  type Unit = r: real | 0.0 <= r < 1.0

  /**
   * A moment on the wall clock: the local calendar day (a day number) and
   * the milliseconds since its midnight. Its renderings by `toLocaleString`
   * and `toISOString` are not part of this model.
   */
  datatype Timestamp = Timestamp(day: int, msOfDay: MsOfDay)

  /** Milliseconds since midnight: fewer than the 86 400 000 of a day. */
  type MsOfDay = m: nat | m < 86_400_000

  datatype AqiCategory = Good | Moderate | Sensitive | Unhealthy | VeryUnhealthy | Hazardous

  /** Severity order of the categories, from 0 (good) to 5 (hazardous). */
  function Rank(c: AqiCategory): (k: nat)
    ensures k < 6
  {
    match c
    case Good => 0
    case Moderate => 1
    case Sensitive => 2
    case Unhealthy => 3
    case VeryUnhealthy => 4
    case Hazardous => 5
  }

  /** The inclusive upper ends of the first five category bands. */
  const Breakpoints: seq<real> := [50.0, 100.0, 150.0, 200.0, 300.0]

  /** How many of the breakpoints in `bps` lie strictly below `aqi`. */
  function CountBelow(bps: seq<real>, aqi: real): (n: nat)
    ensures n <= |bps|
  {
    if bps == [] then 0 else (if bps[0] < aqi then 1 else 0) + CountBelow(bps[1..], aqi)
  }

  /**
   * `getAqiCategory`. For every breakpoint k, the AQI lies at or below
   * breakpoint k exactly when the category's rank is at most k: the bands
   * are right-inclusive and anything above 300 is hazardous.
   */
  function Category(aqi: real): (c: AqiCategory)
    ensures aqi <= 50.0 <==> Rank(c) <= 0
    ensures aqi <= 100.0 <==> Rank(c) <= 1
    ensures aqi <= 150.0 <==> Rank(c) <= 2
    ensures aqi <= 200.0 <==> Rank(c) <= 3
    ensures aqi <= 300.0 <==> Rank(c) <= 4
  {
    if aqi <= 50.0 then Good
    else if aqi <= 100.0 then Moderate
    else if aqi <= 150.0 then Sensitive
    else if aqi <= 200.0 then Unhealthy
    else if aqi <= 300.0 then VeryUnhealthy
    else Hazardous
  }

  /** The category's rank is the number of breakpoints the AQI exceeds. */
  lemma CategoryRankCountsBreakpoints(aqi: real)
    ensures Rank(Category(aqi)) == CountBelow(Breakpoints, aqi)
  {
    var bps := Breakpoints;
    assert bps[1..][1..][1..][1..][1..] == [];
    calc {
      CountBelow(bps, aqi);
      (if 50.0 < aqi then 1 else 0) + CountBelow(bps[1..], aqi);
      (if 50.0 < aqi then 1 else 0) + (if 100.0 < aqi then 1 else 0) + CountBelow(bps[1..][1..], aqi);
      (if 50.0 < aqi then 1 else 0) + (if 100.0 < aqi then 1 else 0) + (if 150.0 < aqi then 1 else 0)
        + CountBelow(bps[1..][1..][1..], aqi);
      (if 50.0 < aqi then 1 else 0) + (if 100.0 < aqi then 1 else 0) + (if 150.0 < aqi then 1 else 0)
        + (if 200.0 < aqi then 1 else 0) + (if 300.0 < aqi then 1 else 0);
    }
  }

  /** A higher AQI never gives a less severe category. */
  lemma CategoryMonotone(a: real, b: real)
    requires a <= b
    ensures Rank(Category(a)) <= Rank(Category(b))
  {
    var k := Rank(Category(b));
    if k < |Breakpoints| {
      assert b <= Breakpoints[k];
    }
  }

  /** The boundary values of the bands. */
  lemma CategoryBoundaries()
    ensures Category(-1.0) == Good && Category(50.0) == Good && Category(51.0) == Moderate
    ensures Category(100.0) == Moderate && Category(101.0) == Sensitive
    ensures Category(150.0) == Sensitive && Category(151.0) == Unhealthy
    ensures Category(200.0) == Unhealthy && Category(201.0) == VeryUnhealthy
    ensures Category(300.0) == VeryUnhealthy && Category(301.0) == Hazardous
  {
  }

  /** The fallback sentence of `getAqiDescription`, reached by no category. */
  const UnknownLevelDescription: string := "Unknown air quality level."

  const GoodText: string := "Air quality is considered satisfactory, and air pollution poses little or no risk."
  const ModerateText: string := "Air quality is acceptable; however, for some pollutants there may be a moderate health concern for a very small number of people."
  const SensitiveText: string := "Members of sensitive groups may experience health effects. The general public is not likely to be affected."
  const UnhealthyText: string := "Everyone may begin to experience health effects; members of sensitive groups may experience more serious health effects."
  const VeryUnhealthyText: string := "Health warnings of emergency conditions. The entire population is more likely to be affected."
  const HazardousText: string := "Health alert: everyone may experience more serious health effects."

  /** `getAqiDescription`: one fixed sentence per category, never the fallback. */
  function Description(c: AqiCategory): (s: string)
    ensures |s| > |UnknownLevelDescription|
  {
    match c
    case Good => GoodText
    case Moderate => ModerateText
    case Sensitive => SensitiveText
    case Unhealthy => UnhealthyText
    case VeryUnhealthy => VeryUnhealthyText
    case Hazardous => HazardousText
  }

  /** Different categories are described by different sentences. */
  lemma DescriptionInjective(c: AqiCategory, d: AqiCategory)
    requires Description(c) == Description(d)
    ensures c == d
  {
  }

  /** The fallback colour of `getAqiColor`, reached by no category. */
  const UnknownLevelColor: string := "#9E9E9E"

  predicate IsHexDigit(ch: char) {
    '0' <= ch <= '9' || 'A' <= ch <= 'F'
  }

  /** A `#RRGGBB` colour. */
  predicate IsHexColor(s: string) {
    |s| == 7 && s[0] == '#' && forall i :: 1 <= i < 7 ==> IsHexDigit(s[i])
  }

  /** `getAqiColor`: one `#RRGGBB` colour per category. */
  function Color(c: AqiCategory): (s: string)
    ensures IsHexColor(s)
    ensures s != UnknownLevelColor
  {
    match c
    case Good => "#4CAF50"
    case Moderate => "#FFEB3B"
    case Sensitive => "#FF9800"
    case Unhealthy => "#F44336"
    case VeryUnhealthy => "#9C27B0"
    case Hazardous => "#7E0023"
  }

  /** Different categories get different colours. */
  lemma ColorInjective(c: AqiCategory, d: AqiCategory)
    requires Color(c) == Color(d)
    ensures c == d
  {
  }

  /** The names `getPollutantDescription` recognises, after upper-casing. */
  const PollutantKeys: set<string> := {"PM2.5", "PM10", "O3", "OZONE", "NO2", "SO2", "CO"}

  const DefaultPollutantDescription: string := "An air pollutant that can affect health and environment."

  const FineParticleText: string := "Fine particulate matter that can penetrate deep into the lungs and bloodstream."
  const CoarseParticleText: string := "Coarse particulate matter that can cause respiratory issues."
  const OzoneText: string := "Ground-level ozone that can trigger asthma and other respiratory problems."
  const NitrogenDioxideText: string := "Nitrogen dioxide that can cause inflammation of the airways."
  const SulfurDioxideText: string := "Sulfur dioxide that can cause irritation to the eyes and respiratory system."
  const CarbonMonoxideText: string := "Carbon monoxide that reduces oxygen delivery to the body's organs."

  /** The sentence for an already upper-cased name. */
  function DescriptionForKey(key: string): (d: string)
    ensures d == DefaultPollutantDescription <==> key !in PollutantKeys
  {
    if key == "PM2.5" then FineParticleText
    else if key == "PM10" then CoarseParticleText
    else if key == "O3" || key == "OZONE" then OzoneText
    else if key == "NO2" then NitrogenDioxideText
    else if key == "SO2" then SulfurDioxideText
    else if key == "CO" then CarbonMonoxideText
    else DefaultPollutantDescription
  }

  /**
   * `getPollutantDescription`: the name is upper-cased, then looked up; a
   * name that is none of the six (or "OZONE") gets the fallback sentence.
   */
  function PollutantDescription(name: string): (d: string)
    ensures d == DefaultPollutantDescription <==> Text.Upper(name) !in PollutantKeys
  {
    DescriptionForKey(Text.Upper(name))
  }

  /** The lookup ignores case: a name and its upper-cased form get the same sentence. */
  lemma PollutantDescriptionIgnoresCase(name: string)
    ensures PollutantDescription(Text.Upper(name)) == PollutantDescription(name)
  {
    Text.UpperIdempotent(name);
  }

  /** Ozone under either of its names, in any case. */
  lemma OzoneSynonyms()
    ensures PollutantDescription("O3") == PollutantDescription("o3") == OzoneText
    ensures PollutantDescription("OZONE") == PollutantDescription("Ozone") == PollutantDescription("ozone") == OzoneText
    ensures OzoneText != DefaultPollutantDescription
  {
    assert Text.Upper("O3") == Text.Upper("o3") == "O3";
    assert Text.Upper("OZONE") == Text.Upper("Ozone") == Text.Upper("ozone") == "OZONE";
  }

  /** One reading in a record: its name, value, unit and description. */
  datatype Pollutant = Pollutant(name: string, value: real, unit: string, description: string)

  datatype Place = Place(city: string, country: string)

  datatype AirQualityData = AirQualityData(
    aqi: int,
    category: AqiCategory,
    dominantPollutant: string,
    pollutants: seq<Pollutant>,
    location: Place,
    time: Timestamp)

  /** The seven `Math.random()` draws of one call, in the order the source makes them. */
  datatype Draws = Draws(aqi: Unit, pm25: Unit, pm10: Unit, o3: Unit, no2: Unit, so2: Unit, co: Unit)

  const MicrogramsPerCubicMetre: string := "\U{03BC}g/m\U{00B3}"

  /** The names of a generated record's readings, in order. */
  const GeneratedNames: seq<string> := ["PM2.5", "PM10", "O3", "NO2", "SO2", "CO"]

  /** The generated names as a set: the names with an unhealthy threshold. */
  const KnownNames: set<string> := {"PM2.5", "PM10", "O3", "NO2", "SO2", "CO"}

  /** The unit of each of those readings. */
  const GeneratedUnits: seq<string> := [MicrogramsPerCubicMetre, MicrogramsPerCubicMetre, "ppb", "ppb", "ppb", "ppm"]

  /** `Math.floor(Math.random() * scale)`: a whole number from 0 to scale - 1. */
  function ScaledDraw(x: Unit, scale: nat): (n: int)
    requires scale > 0
    ensures 0 <= n < scale
  {
    assert x * scale as real < scale as real by {
      assert (1.0 - x) * (scale as real) > 0.0;
    }
    (x * scale as real).Floor
  }

  /**
   * The six readings of a generated record, from the six pollutant draws.
   * Each description is the sentence `getPollutantDescription` gives the
   * reading's name (see `GeneratedDescriptions`).
   */
  function PollutantList(d: Draws): (ps: seq<Pollutant>)
    ensures |ps| == 6
    ensures forall i :: 0 <= i < 6 ==> ps[i].name == GeneratedNames[i] && ps[i].unit == GeneratedUnits[i]
  {
    [ Pollutant("PM2.5", ScaledDraw(d.pm25, 150) as real, MicrogramsPerCubicMetre, FineParticleText),
      Pollutant("PM10", ScaledDraw(d.pm10, 200) as real, MicrogramsPerCubicMetre, CoarseParticleText),
      Pollutant("O3", ScaledDraw(d.o3, 150) as real, "ppb", OzoneText),
      Pollutant("NO2", ScaledDraw(d.no2, 200) as real, "ppb", NitrogenDioxideText),
      Pollutant("SO2", ScaledDraw(d.so2, 100) as real, "ppb", SulfurDioxideText),
      Pollutant("CO", ScaledDraw(d.co, 10000) as real / 100.0, "ppm", CarbonMonoxideText) ]
  }

  /** Every generated reading carries the description its own name looks up. */
  lemma GeneratedDescriptions(d: Draws)
    ensures var ps := PollutantList(d);
      forall i :: 0 <= i < |ps| ==> ps[i].description == PollutantDescription(ps[i].name)
  {
    DescriptionsMatchNames(PollutantList(d));
  }

  /** Six readings named and described as a generated record's are each described by their own name. */
  lemma DescriptionsMatchNames(ps: seq<Pollutant>)
    requires |ps| == 6
    requires ps[0].name == "PM2.5" && ps[0].description == FineParticleText
    requires ps[1].name == "PM10" && ps[1].description == CoarseParticleText
    requires ps[2].name == "O3" && ps[2].description == OzoneText
    requires ps[3].name == "NO2" && ps[3].description == NitrogenDioxideText
    requires ps[4].name == "SO2" && ps[4].description == SulfurDioxideText
    requires ps[5].name == "CO" && ps[5].description == CarbonMonoxideText
    ensures forall i :: 0 <= i < |ps| ==> ps[i].description == PollutantDescription(ps[i].name)
  {
    GeneratedNamesDescriptions();
    forall i | 0 <= i < |ps| ensures ps[i].description == PollutantDescription(ps[i].name) {
      if i == 0 { } else if i == 1 { } else if i == 2 { } else if i == 3 { } else if i == 4 { } else { }
    }
  }

  /** The sentence each of the six generated names looks up. */
  lemma GeneratedNamesDescriptions()
    ensures PollutantDescription("PM2.5") == FineParticleText
    ensures PollutantDescription("PM10") == CoarseParticleText
    ensures PollutantDescription("O3") == OzoneText
    ensures PollutantDescription("NO2") == NitrogenDioxideText
    ensures PollutantDescription("SO2") == SulfurDioxideText
    ensures PollutantDescription("CO") == CarbonMonoxideText
  {
    assert Text.Upper("PM2.5") == "PM2.5";
    assert Text.Upper("PM10") == "PM10";
    assert Text.Upper("O3") == "O3";
    assert Text.Upper("NO2") == "NO2";
    assert Text.Upper("SO2") == "SO2";
    assert Text.Upper("CO") == "CO";
  }

  predicate IsWhole(v: real) {
    v == v.Floor as real
  }

  /** Each generated value is a whole number below its scale; CO is a whole number of hundredths below 100. */
  lemma PollutantRanges(d: Draws)
    ensures var ps := PollutantList(d);
      && IsWhole(ps[0].value) && 0.0 <= ps[0].value <= 149.0
      && IsWhole(ps[1].value) && 0.0 <= ps[1].value <= 199.0
      && IsWhole(ps[2].value) && 0.0 <= ps[2].value <= 149.0
      && IsWhole(ps[3].value) && 0.0 <= ps[3].value <= 199.0
      && IsWhole(ps[4].value) && 0.0 <= ps[4].value <= 99.0
      && IsWhole(ps[5].value * 100.0) && 0.0 <= ps[5].value <= 99.99
  {
  }

  /**
   * The "unhealthy" level of each pollutant, used both to normalise values
   * in the dominant-pollutant fold and as the chart's reference values.
   */
  function UnhealthyThreshold(name: string): (t: Option<real>)
    ensures t.Some? <==> name in KnownNames
    ensures t.Some? ==> t.value > 0.0
  {
    if name == "PM2.5" then Some(35.0)
    else if name == "PM10" then Some(150.0)
    else if name == "O3" then Some(70.0)
    else if name == "NO2" then Some(100.0)
    else if name == "SO2" then Some(75.0)
    else if name == "CO" then Some(9.0)
    else None
  }

  /**
   * The `normalizedValues` table of the fold, built from the value `v` of
   * the pollutant being visited, read at `name`; 0 for a name outside it.
   */
  function NormalizedAs(v: real, name: string): (r: real)
    ensures UnhealthyThreshold(name).None? ==> r == 0.0
    ensures UnhealthyThreshold(name).Some? ==> r * UnhealthyThreshold(name).value == v
    ensures v >= 0.0 ==> r >= 0.0
  {
    match UnhealthyThreshold(name)
    case Some(t) => v / t
    case None => 0.0
  }

  /**
   * One step of the dominant-pollutant `reduce`. As written, both sides of
   * the comparison divide `current.value`: the incumbent's own value is
   * never read.
   */
  function DominantStep(highest: Pollutant, current: Pollutant): (r: Pollutant)
    ensures r == highest || r == current
    ensures UnhealthyThreshold(current.name).None? && current.value >= 0.0 ==> r == highest
    ensures current.value == 0.0 ==> r == highest
  {
    if NormalizedAs(current.value, current.name) > NormalizedAs(current.value, highest.name) then current
    else highest
  }

  /**
   * Between two recognised pollutants, the step replaces the incumbent
   * exactly when the visited value is positive and its threshold lower, or
   * negative and its threshold higher: the incumbent's value plays no part.
   */
  lemma DominantStepReplaces(highest: Pollutant, current: Pollutant)
    requires UnhealthyThreshold(highest.name).Some? && UnhealthyThreshold(current.name).Some?
    ensures var th, tc := UnhealthyThreshold(highest.name).value, UnhealthyThreshold(current.name).value;
      DominantStep(highest, current) == current <==>
        highest == current || (current.value > 0.0 && tc < th) || (current.value < 0.0 && tc > th)
  {
    var th, tc := UnhealthyThreshold(highest.name).value, UnhealthyThreshold(current.name).value;
    QuotientOrder(current.value, tc, th);
  }

  /** Dividing one value by two positive divisors: the smaller divisor gives the larger quotient when the value is positive. */
  lemma QuotientOrder(v: real, a: real, b: real)
    requires a > 0.0 && b > 0.0
    ensures v / a > v / b <==> (v > 0.0 && a < b) || (v < 0.0 && a > b)
  {
    var x, y := v / a, v / b;
    assert x * a == v && y * b == v;
    assert (x - y) * (a * b) == v * (b - a) by {
      calc {
        (x - y) * (a * b);
        (x * a) * b - (y * b) * a;
        v * b - v * a;
      }
    }
    assert a * b > 0.0;
    assert x > y <==> (x - y) * (a * b) > 0.0;
  }

  /** `pollutants.reduce(step, acc)`: a left fold. */
  function DominantFold(ps: seq<Pollutant>, acc: Pollutant): (r: Pollutant)
    ensures r == acc || r in ps
  {
    if ps == [] then acc else DominantFold(ps[1..], DominantStep(acc, ps[0]))
  }

  /** The name of the pollutant the `reduce` settles on, started from the first reading. */
  function DominantName(ps: seq<Pollutant>): (name: string)
    requires |ps| > 0
    ensures exists i :: 0 <= i < |ps| && name == ps[i].name
  {
    var dominant := DominantFold(ps, ps[0]);
    assert dominant == ps[0] || dominant in ps;
    dominant.name
  }

  /** Folding over a concatenation folds over the second part from where the first left off. */
  lemma {:induction false} DominantFoldAppend(ps: seq<Pollutant>, qs: seq<Pollutant>, acc: Pollutant)
    ensures DominantFold(ps + qs, acc) == DominantFold(qs, DominantFold(ps, acc))
  {
    if ps != [] {
      assert (ps + qs)[1..] == ps[1..] + qs;
      DominantFoldAppend(ps[1..], qs, DominantStep(acc, ps[0]));
    } else {
      assert ps + qs == qs;
    }
  }

  /** An incumbent that no single step replaces survives the whole fold. */
  lemma {:induction false} DominantFoldKeeps(ps: seq<Pollutant>, acc: Pollutant)
    requires forall i :: 0 <= i < |ps| ==> DominantStep(acc, ps[i]) == acc
    ensures DominantFold(ps, acc) == acc
  {
    if ps != [] {
      DominantFoldKeeps(ps[1..], acc);
    }
  }

  /** `generateMockAirQualityData`: the record built from one call's draws and clock reading. */
  function GenerateAirQuality(city: string, country: string, d: Draws, now: Timestamp): (r: AirQualityData)
    ensures 0 <= r.aqi <= 299
    ensures r.category == Category(r.aqi as real) && r.category != Hazardous
    ensures r.pollutants == PollutantList(d)
    ensures r.location == Place(city, country) && r.time == now
  {
    var aqi := ScaledDraw(d.aqi, 300);
    var ps := PollutantList(d);
    AirQualityData(aqi, Category(aqi as real), DominantName(ps), ps, Place(city, country), now)
  }

  /**
   * Over six non-negative readings named as in a generated record, the fold
   * started at the first returns CO when CO's value is positive and PM2.5
   * otherwise: CO has the lowest threshold, and every other reading has a
   * threshold no lower than PM2.5's.
   */
  lemma DominantOfSix(ps: seq<Pollutant>)
    requires |ps| == 6
    requires forall i :: 0 <= i < 6 ==> ps[i].name == GeneratedNames[i] && ps[i].value >= 0.0
    ensures DominantFold(ps, ps[0]) == if ps[5].value > 0.0 then ps[5] else ps[0]
  {
    var p0 := ps[0];
    forall i | 0 <= i < 5 ensures DominantStep(p0, ps[..5][i]) == p0 {
      DominantStepReplaces(p0, ps[i]);
    }
    DominantFoldKeeps(ps[..5], p0);
    assert ps[..5] + [ps[5]] == ps;
    DominantFoldAppend(ps[..5], [ps[5]], p0);
    DominantStepReplaces(p0, ps[5]);
  }

  /** The dominant pollutant of a generated record is CO when CO's value is positive, PM2.5 otherwise. */
  lemma DominantOfGenerated(city: string, country: string, d: Draws, now: Timestamp)
    ensures var r := GenerateAirQuality(city, country, d, now);
      r.dominantPollutant == if r.pollutants[5].value > 0.0 then "CO" else "PM2.5"
  {
    PollutantRanges(d);
    DominantOfSix(PollutantList(d));
  }

  /** Its `value / threshold` ratio, the quantity the fold's comment says it maximises. */
  function Ratio(p: Pollutant): real
  {
    NormalizedAs(p.value, p.name)
  }

  /**
   * The fold does not pick the reading with the highest ratio to its
   * threshold: with PM2.5 at 148 (ratio above 4) and CO at 0.01 ppm, the
   * record names CO.
   */
  lemma DominantNotHighestRatio(now: Timestamp)
    ensures var r := GenerateAirQuality("Demo City", "Demo Country", Draws(0.0, 0.99, 0.0, 0.0, 0.0, 0.0, 0.0001), now);
      r.dominantPollutant == "CO" && Ratio(r.pollutants[0]) > 4.0 && Ratio(r.pollutants[5]) < 0.01
  {
    var d := Draws(0.0, 0.99, 0.0, 0.0, 0.0, 0.0, 0.0001);
    assert (d.pm25 * 150.0).Floor == 148;
    assert (d.co * 10000.0).Floor == 1;
    DominantOfGenerated("Demo City", "Demo Country", d, now);
  }

  /** The weather record; `condition` and `icon` are `undefined` when the seeded table index is negative. */
  datatype WeatherData = WeatherData(
    temperature: int,
    humidity: int,
    windSpeed: int,
    condition: Option<string>,
    icon: Option<string>,
    locationName: Option<string>)

  /** The four `Math.random()` draws of the unseeded weather generator, in call order. */
  datatype WeatherDraws = WeatherDraws(condition: Unit, temperature: Unit, humidity: Unit, windSpeed: Unit)

  const RandomConditions: seq<(string, string)> := [
    ("Clear", "sun"), ("Partly Cloudy", "cloud-sun"), ("Cloudy", "cloud"), ("Rain", "cloud-rain"),
    ("Thunderstorm", "cloud-lightning"), ("Snow", "cloud-snow"), ("Fog", "cloud-fog")]

  /**
   * The unseeded `generateMockWeatherData` of this file: one of seven
   * (condition, icon) pairs, 5-39 degrees, 20-79 % humidity, 1-30 km/h wind.
   */
  function RandomWeather(d: WeatherDraws): (w: WeatherData)
    ensures exists k :: (0 <= k < |RandomConditions| &&
      w.condition == Some(RandomConditions[k].0) && w.icon == Some(RandomConditions[k].1))
    ensures 5 <= w.temperature <= 39 && 20 <= w.humidity <= 79 && 1 <= w.windSpeed <= 30
    ensures w.locationName == None
  {
    var k := (d.condition * 7.0).Floor;
    WeatherData(
      (d.temperature * 35.0).Floor + 5,
      (d.humidity * 60.0).Floor + 20,
      (d.windSpeed * 30.0).Floor + 1,
      Some(RandomConditions[k].0),
      Some(RandomConditions[k].1),
      None)
  }
}
