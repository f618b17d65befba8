# Air-quality dashboard: data layer

This project models the data layer of a small air-quality dashboard. The
dashboard's own code is TypeScript. The model has five modules:

- `Wrappers` (`wrappers.dfy`) holds `Option`, which stands for `undefined`.
- `Text` (`text.dfy`) holds the JavaScript string operations the code calls:
  `toUpperCase`, `toLowerCase`, `trim` and `includes`.
- `AirQuality` (`air_quality.dfy`) covers the AQI category bands, the category
  descriptions and colours, and the pollutant descriptions. It also covers the
  mock air-quality generator with its dominant-pollutant `reduce`, and the
  random mock weather generator.
- `Api` (`api.dfy`) covers the mock services: the seed derived from the
  coordinates and the air-quality fetch, the seeded weather generator with the
  OpenWeather fallback, and the OpenWeather icon table. It also covers the
  forecast loop, as an imperative method, and the location search.
- `PollutantChart` (`pollutant_chart.dfy`) covers the chart data: each reading
  as a percentage of its "unhealthy" reference level, capped at 150.

Nothing nondeterministic is left in the model. Each
`Math.random()` result is a parameter: a `Unit`, a real in [0, 1). The clock is
a `Timestamp` parameter, read once. A coordinate sum enters as the integer
`n = Math.floor((latitude + longitude) * 10)`.

The dominant-pollutant `reduce` is modelled as written
(`src/utils/airQualityUtils.ts:178-193`). The comment above it says it picks the
reading with the highest share of its own threshold. The code does not: both
normalised values divide `current.value`, so the incumbent's own value is never
read.

- `DominantStepReplaces` states what one step actually does.
- `DominantOfGenerated` shows the consequence for the six generated readings:
  the result is CO whenever the CO reading is positive, and PM2.5 otherwise.
- `DominantNotHighestRatio` exhibits draws for which CO is chosen even though
  PM2.5 is above four times its threshold and CO is below 1% of its own.

## Model

| member | source | states |
|---|---|---|
| Text.Upper | src/utils/airQualityUtils.ts:102 | `toUpperCase`: same length, each character mapped by `UpperChar`, with no lower-case ASCII letter left |
| Text.UpperChar | src/utils/airQualityUtils.ts:102 | a-z move up by 32; only a-z, dotless i and long s change; the result is never a-z |
| Text.UpperIdempotent | src/utils/airQualityUtils.ts:102 | upper-casing twice gives the same string as upper-casing once |
| Text.Lower | src/utils/api.ts:190-194 | `toLowerCase`: same length, each character mapped by `LowerChar` |
| Text.LowerChar | src/utils/api.ts:190-194 | A-Z move down by 32; only A-Z and the Kelvin sign change; the result is never A-Z |
| Text.LowerIdempotent | src/utils/api.ts:190-194 | lower-casing twice gives the same string as lower-casing once |
| Text.LowerKeepsSpace | src/utils/api.ts:187-191 | lower-casing neither creates nor removes white space |
| Text.TrimStart | src/utils/api.ts:187 | result is a suffix of the input, does not start with white space, and only white space was removed |
| Text.TrimEnd | src/utils/api.ts:187 | result is a prefix of the input, does not end with white space, and only white space was removed |
| Text.Trim | src/utils/api.ts:187 | `trim`: the slice of the input left after removing only white space from both ends, which neither starts nor ends with white space |
| Text.TrimEmptyIffAllSpace | src/utils/api.ts:187-189 | `!query.trim()` holds exactly when every character of the query is white space |
| Text.Contains | src/utils/api.ts:193-194 | `includes`: the empty needle is always found, and a found needle is no longer than the haystack |
| Text.ContainsIffOccurs | src/utils/api.ts:193-194 | `includes` is true exactly when the needle occurs at some position of the haystack |
| AirQuality.Category | src/utils/airQualityUtils.ts:45-52 | for each bound 50/100/150/200/300, the AQI is at most that bound exactly when the band's rank is at most that bound's index |
| AirQuality.CategoryRankCountsBreakpoints | src/utils/airQualityUtils.ts:45-52 | a band's rank equals the number of breakpoints the AQI exceeds |
| AirQuality.CategoryMonotone | src/utils/airQualityUtils.ts:45-52 | a higher AQI never falls in a lower band |
| AirQuality.CategoryBoundaries | src/utils/airQualityUtils.ts:46-51 | each bound belongs to the lower band and the next integer to the higher one, with anything above 300 hazardous |
| AirQuality.Description | src/utils/airQualityUtils.ts:57-74 | every band's sentence is longer than the unknown-level text, so no band falls to the default |
| AirQuality.DescriptionInjective | src/utils/airQualityUtils.ts:57-74 | distinct bands get distinct sentences |
| AirQuality.Color | src/utils/airQualityUtils.ts:79-96 | every band gets a `#RRGGBB` colour other than the unknown-level grey |
| AirQuality.ColorInjective | src/utils/airQualityUtils.ts:79-96 | distinct bands get distinct colours |
| AirQuality.DescriptionForKey | src/utils/airQualityUtils.ts:102-118 | the switch falls to the default sentence exactly when the key is none of the seven case labels |
| AirQuality.PollutantDescription | src/utils/airQualityUtils.ts:101-119 | the default sentence is returned exactly when the upper-cased name is none of the seven case labels |
| AirQuality.PollutantDescriptionIgnoresCase | src/utils/airQualityUtils.ts:102 | a name and its upper-cased form get the same description |
| AirQuality.OzoneSynonyms | src/utils/airQualityUtils.ts:107-109 | "O3", "o3", "OZONE", "Ozone" and "ozone" all get the ozone sentence, which is not the default one |
| AirQuality.ScaledDraw | src/utils/airQualityUtils.ts:128-136 | `Math.floor(Math.random() * scale)` lies in [0, scale) |
| AirQuality.PollutantList | src/utils/airQualityUtils.ts:131-175 | six readings, with the fixed names and units in the fixed order |
| AirQuality.GeneratedDescriptions | src/utils/airQualityUtils.ts:142-174 | each generated reading carries `getPollutantDescription` of its name |
| AirQuality.GeneratedNamesDescriptions | src/utils/airQualityUtils.ts:101-116 | each of the six generated names, looked up as written, gets its own sentence: PM2.5 the fine-particle one, PM10 the coarse-particle one, and likewise for O3, NO2, SO2 and CO |
| AirQuality.PollutantRanges | src/utils/airQualityUtils.ts:131-136 | whole readings in 0-149, 0-199, 0-149, 0-199 and 0-99; CO in hundredths, 0-99.99 |
| AirQuality.UnhealthyThreshold | src/utils/airQualityUtils.ts:180-187 | a threshold exists exactly for the six generated names, and it is positive |
| AirQuality.NormalizedAs | src/utils/airQualityUtils.ts:180-190 | the value as a multiple of the named pollutant's threshold, 0 for a name outside the table, and never negative for a non-negative value |
| AirQuality.DominantStep | src/utils/airQualityUtils.ts:178-192 | a step returns the incumbent or the visited reading; a zero reading, or a non-negative reading with no threshold, keeps the incumbent |
| AirQuality.DominantStepReplaces | src/utils/airQualityUtils.ts:178-193 | between two known names, a step switches to the visited reading exactly when its value is positive and its threshold lower, or negative and its threshold higher |
| AirQuality.DominantFold | src/utils/airQualityUtils.ts:178-193 | the `reduce` returns its start value or one of the readings |
| AirQuality.DominantName | src/utils/airQualityUtils.ts:178-193 | the dominant name is the name of one of the readings |
| AirQuality.DominantFoldAppend | src/utils/airQualityUtils.ts:178-193 | folding a concatenation is folding the second part from the first part's result |
| AirQuality.DominantFoldKeeps | src/utils/airQualityUtils.ts:178-193 | when no single step would displace the incumbent, the whole fold ends at the incumbent |
| AirQuality.DominantOfSix | src/utils/airQualityUtils.ts:178-193 | for non-negative readings in generated order, the fold ends at CO if the CO value is positive, and at PM2.5 otherwise |
| AirQuality.GenerateAirQuality | src/utils/airQualityUtils.ts:124-209 | AQI in [0, 299], band as `getAqiCategory` of it (never hazardous), the generated readings, and the given place and time |
| AirQuality.DominantOfGenerated | src/utils/airQualityUtils.ts:177-198 | the generated record's dominant pollutant is "CO" when the CO reading is positive and "PM2.5" otherwise |
| AirQuality.DominantNotHighestRatio | src/utils/airQualityUtils.ts:177-193 | with PM2.5 at 148 and CO at 0.01, CO is dominant although PM2.5 is over four times its threshold and CO under 1% of its own |
| AirQuality.RandomWeather | src/utils/airQualityUtils.ts:214-234 | one of the seven fixed condition/icon pairs; temperature 5-39, humidity 20-79, wind 1-30; no location name |
| Api.JsRem | src/utils/api.ts:104-111 | JavaScript `%`: the magnitude is the remainder of the magnitudes, the sign follows the dividend, and the result differs from the dividend by a multiple of the divisor |
| Api.Abs | src/utils/api.ts:22 | `Math.abs`: a non-negative number equal to the input or to its negation |
| Api.SeedOf | src/utils/api.ts:22 | the seed lies in [0, 99] and is congruent to the magnitude of the coordinate sum modulo 100 |
| Api.SeedOfNegation | src/utils/api.ts:60 | opposite coordinate sums give the same seed |
| Api.FetchAirQuality | src/utils/api.ts:11-24 | the record is exactly the generator's for the given place, draws and time: band and AQI range as generated, and the dominant pollutant CO or PM2.5 by the CO reading |
| Api.FetchIgnoresCoordinates | src/utils/api.ts:20-23 | two coordinate sums give the same record: the derived seed reaches nothing |
| Api.At | src/utils/api.ts:108-109 | an array read is defined exactly inside the array, and there gives the element |
| Api.MockWeather | src/utils/api.ts:99-116 | temperature, humidity and wind are 10, 30 and 5 plus the seed's remainder by 25, 60 and 20 (congruent to the seed for any sign); for a non-negative seed they lie in 10-34, 30-89 and 5-24, and the condition and the icon are both taken from index seed mod 7; the location name is fixed |
| Api.MockWeatherIconFollowsCondition | src/utils/api.ts:101-109 | two seeds that give the same condition give the same icon |
| Api.RainConditionsShareIcon | src/utils/api.ts:101-102 | "Light Rain" and "Heavy Rain" share the icon "cloud-rain" |
| Api.FallbackWeather | src/utils/api.ts:56-62 | the fallback weather is in the seeded ranges, has a condition, and its icon is one the dashboard draws |
| Api.IconPrefix | src/utils/api.ts:71 | `substring(0, 2)`: the first two characters, or the whole code when it is shorter |
| Api.MapOpenWeatherIcon | src/utils/api.ts:69-93 | each icon is returned exactly for its group codes, and "cloud" for every code outside the table |
| Api.MapOpenWeatherIconIgnoresSuffix | src/utils/api.ts:71 | day and night variants of a code map to the same icon |
| Api.ForecastSample | src/utils/api.ts:141 | the generator is called for the place ("Forecast", "") at the current time |
| Api.ForecastDay | src/utils/api.ts:137-145 | a forecast record has an empty place and is dated day `today + i`, and keeps the generated AQI, band, readings and dominant pollutant |
| Api.ForecastDayReadings | src/utils/api.ts:141 | a forecast record's band matches its AQI in [0, 299], and its dominant pollutant is CO or PM2.5 |
| Api.DefaultAirQualityForecast | src/utils/api.ts:125 | called without `days`, the forecast has five records, record i being day i's record |
| Api.AirQualityForecast | src/utils/api.ts:122-152 | one record per day for `days` days (none if not positive), record i is day i's record, and the dates strictly increase |
| Api.Matches | src/utils/api.ts:192-194 | an entry matches exactly when the query occurs at some position of its lower-cased city or of its lower-cased country |
| Api.FilterMatching | src/utils/api.ts:191-194 | `filter` keeps exactly the matching entries, each as often as it occurs, in table order |
| Api.SearchLocation | src/utils/api.ts:158-196 | a blank query finds nothing; otherwise exactly the table entries whose lower-cased city or country contains the lower-cased query, in table order |
| Api.SearchIgnoresCase | src/utils/api.ts:187-194 | searching for the lower-cased query finds the same entries as searching for the query |
| Wrappers.Option.GetOr | src/components/PollutantChart.tsx:39 | the fallback `referenceValues[name] or 100`: the value when there is one, the default otherwise |
| PollutantChart.RefValue | src/components/PollutantChart.tsx:26-40 | the six reference levels from the table, and 100 for any other name |
| PollutantChart.ToChartEntry | src/components/PollutantChart.tsx:37-49 | the bar copies the reading's fields and never exceeds 150; below 150 it is the reading as a percentage of its reference level |
| PollutantChart.Min | src/components/PollutantChart.tsx:45 | `Math.min`: no larger than either argument, and equal to one of them |
| PollutantChart.ChartData | src/components/PollutantChart.tsx:37-50 | one bar per reading, in the same order |
| PollutantChart.PercentageNonNegative | src/components/PollutantChart.tsx:40-44 | a non-negative reading gives a non-negative bar |
| PollutantChart.AtLeastFullIffUnhealthy | src/components/PollutantChart.tsx:38-44 | a bar reaches 100% exactly when the reading reaches its reference level |
| PollutantChart.PercentageMonotone | src/components/PollutantChart.tsx:38-44 | for one pollutant, a higher reading never gives a shorter bar |
| PollutantChart.PercentageBelowCap | src/components/PollutantChart.tsx:40-44 | below the cap, the bar is value × 100 / reference |
| PollutantChart.GeneratedBarsInRange | src/components/PollutantChart.tsx:37-50 | every bar drawn from generated readings lies in [0, 150] |

## Left out

- Floating point is modelled by exact reals. Rounding, `NaN` and infinities are not modelled. So the `|| 0` and `|| 100` fallbacks only replace a missing table entry, never a `NaN`.
- The coordinate arithmetic `Math.floor((latitude + longitude) * 10)` is not modelled. The model starts from its integer result `n`.
- `toUpperCase` and `toLowerCase` are modelled for the characters that map into ASCII. Other characters, including multi-character expansions such as `ß`, are left as they are.
- Record lookups such as `normalizedValues[name]` and `referenceValues[name]` ignore inherited keys like `"constructor"`. Only the listed names are found.
- The time fields `toLocaleString()` and `toISOString()` are not modelled. A time is a day number and a time of day. `setDate` month rollover is day-number addition.
- AirQualityForecast: reads the clock once as `today`, while the source reads it again for each day's date.
- AirQualityForecast: computes the daily seed and drops it. The generator declares no seed parameter, so the seed affects nothing. The same holds for the seed in FetchAirQuality.
- Non-integer `days` values are not modelled.
- FetchAirQuality and GenerateAirQuality: the default arguments `"Unknown"`/`"Unknown"` (`src/utils/api.ts:14-15`) and `"Demo City"`/`"Demo Country"` (`src/utils/airQualityUtils.ts:125-126`) are not modelled; callers pass the place explicitly. The default `days = 5` is `DefaultAirQualityForecast`.
- The network request and JSON mapping of `fetchWeatherData` (`src/utils/api.ts:33-55`) are not modelled. Only its fallback on failure is: `FallbackWeather`.
- The simulated `setTimeout` delays, `async`/`await` and `console.error` are not modelled.
- The UI components, apart from the chart data computation, are not part of this model. The tooltip formatting with `toFixed(0)` is not part of it either.
- The `default:` branches of `getAqiDescription` and `getAqiColor` cannot be reached with a typed category. The model's category type has only six values, so those branches appear only as the constants `UnknownLevelDescription` and `UnknownLevelColor`.
- The rule the comment above the dominant-pollutant `reduce` describes (highest ratio of each reading's own value to its threshold) is not modelled. The model follows the code as written.
