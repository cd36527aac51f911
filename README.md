# Weather dashboard: mock report generator and adventure score

This project models, in Dafny, the two pieces of deterministic logic in a
Next.js weather dashboard:

- `getWeatherData` (src/lib/weather-data.ts) builds the mock weather report.
  It rejects the location "error", compared case-insensitively, by throwing.
  Otherwise it draws 17 values from `Math.random()` in a fixed order: the
  condition, the comfort label, the base temperature, humidity, wind,
  rainfall, and one per historical year. From them it builds the current
  readings, a 4-slot daily forecast that takes no draw, and an 11-year
  history ending at the current year. Module `MockWeather` models it as a
  pure function `GetWeatherData(location, currentYear, draws)`. Here
  `draws` is the sequence of `Math.random()` results, each in [0, 1), and
  the thrown error is `Err(FetchError)`.
- `getAdventureScore` and `getScoreMessage` (src/components/info-cards.tsx)
  turn a report into a score and a label. The score starts at 100. It loses
  20 for a temperature outside 0..35, 20 for wind over 30, 30 for rainfall
  over 50 and 40 for a storm, and is then clamped at 0. The label uses the
  strict thresholds 80, 60 and 40. Module `InfoCards` models the score
  twice. `GetAdventureScore` is a method that updates a local score step by
  step, as the source does. `AdventureScore` is the formula max(0, 100 -
  applicable penalties), and the method is proved equal to it.
  `GetScoreMessage` is a function.

Module `Types` holds the report records and the string unions of
src/lib/types.ts.

Facts about the code that the model keeps:

- "error", in any letter case, is the only rejected location. Every other
  string is accepted, the empty string included.
- The forecast takes no draws. Its temperatures are the rounded base
  temperature shifted by -5, +2, -2 and -8. A successful call takes 17
  draws.
- Each history entry is `round(baseTemp - 3 + r * 6)`, which lies within 3
  degrees of the current temperature.
- Condition and comfort come from two separate draws.
- Reports come from `Math.random()`, so they are not reproducible between calls.
- The report has no `location` field. src/lib/types.ts:13 declares
  `location: string`, but the object literal in src/lib/weather-data.ts:19-36
  never sets it, so the model's `WeatherData` has no such field. A visible
  effect: the eco-awareness request at src/components/info-cards.tsx:25-32
  checks `weatherData.location`, so it never runs for a generated report.

## Model

| member | source | states |
|---|---|---|
| `MockWeather.GetWeatherData` | src/lib/weather-data.ts:4-37 | The call fails, with the fixed message, exactly when the lower-cased location is "error". Every successful report meets `ValidReport`: temperature 5..30, humidity 30..99, wind 0..39, rainfall 40..99 when rainy or stormy and 0..39 otherwise, the forecast at fixed offsets from the temperature, and the 11-year history shape. |
| `MockWeather.SentinelIsCaseInsensitive` | src/lib/weather-data.ts:8-10 | A location is rejected if and only if it has five characters and each is the lower- or upper-case letter of "error" at that position. |
| `MockWeather.SentinelExamples` | src/lib/weather-data.ts:8 | "error", "Error" and "ERROR" are rejected. "", "errors", " error" and "err0r" are accepted. |
| `MockWeather.Floor` | src/lib/weather-data.ts:15-16 | `Math.floor(x)` is the integer n with n <= x < n + 1. |
| `MockWeather.Round` | src/lib/weather-data.ts:20 | `Math.round(x)` is the integer n with n - 1/2 <= x < n + 1/2, so halves round up. |
| `MockWeather.RoundShift` | src/lib/weather-data.ts:27-30 | Rounding commutes with an integer shift: round(x + k) = round(x) + k. |
| `MockWeather.PickCondition` | src/lib/weather-data.ts:12-15 | The condition is sunny, rainy, cloudy or stormy exactly when the draw falls in the first, second, third or fourth quarter of [0, 1). The index is always in range. |
| `MockWeather.PickComfort` | src/lib/weather-data.ts:13-16 | The comfort label is Very Hot, Pleasant, Cold, Very Wet or Windy exactly when the draw falls in the matching fifth of [0, 1). |
| `MockWeather.BaseTemp` | src/lib/weather-data.ts:17 | The base temperature lies in [5, 30). |
| `MockWeather.Humidity` | src/lib/weather-data.ts:21 | Humidity lies in 30..99. |
| `MockWeather.WindSpeed` | src/lib/weather-data.ts:22 | Wind speed lies in 0..39. |
| `MockWeather.RainfallChance` | src/lib/weather-data.ts:23 | Rainfall lies in 40..99 under a rainy or stormy condition and in 0..39 otherwise. |
| `MockWeather.DailyForecasts` | src/lib/weather-data.ts:26-31 | The forecast is exactly Morning/Sunrise, Afternoon/Sun, Evening/Sunset, Night/Moon, in that order. Its temps are the rounded temperature -5, +2, -2 and -8, and it takes no draw. |
| `MockWeather.AvgTemp` | src/lib/weather-data.ts:34 | A historical average lies within 3 degrees of the rounded base temperature. |
| `MockWeather.HistoricalData` | src/lib/weather-data.ts:32-35 | The history has exactly 11 entries. Entry i is for year currentYear - 10 + i, so the years run consecutively and end at the current year. Each average lies within 3 degrees of the temperature. |
| `MockWeather.DrawDependence` | src/lib/weather-data.ts:15-35 | Each field depends only on its own draws. The condition uses draw 0 and the comfort label draw 1. The temperature and forecast use draw 2, humidity draw 3 and wind draw 4. Rainfall uses draws 0 and 5. History entry i uses draws 2 and 6 + i. In particular, the two labels are chosen independently of each other and of the numeric fields. |
| `MockWeather.ConsumesOnlyDrawsNeeded` | src/lib/weather-data.ts:8-35 | The result is determined by the first 17 draws, or by no draw at all for the sentinel. |
| `MockWeather.EveryDrawMatters` | src/lib/weather-data.ts:15-34 | For each of the 17 draws, some change to that draw alone changes the report (shown from all-zero draws, setting draw k to 0.5). |
| `MockWeather.TemperatureRangeIsTight` | src/lib/weather-data.ts:17-20 | Every temperature in 5..30 is produced by some draw. |
| `MockWeather.HumidityRangeIsTight` | src/lib/weather-data.ts:21 | Every humidity in 30..99 is produced by some draw. |
| `MockWeather.WindSpeedRangeIsTight` | src/lib/weather-data.ts:22 | Every wind speed in 0..39 is produced by some draw. |
| `MockWeather.RainfallRangeIsTight` | src/lib/weather-data.ts:23 | Every rainfall in the range allowed for the condition is produced by some draw. |
| `InfoCards.TotalPenalty` | src/components/info-cards.tsx:37-40 | The four penalties together come to at most 110. |
| `InfoCards.AdventureScore` | src/components/info-cards.tsx:35-42 | The score, as the formula max(0, 100 - applicable penalties), always lies in 0..100. |
| `InfoCards.GetAdventureScore` | src/components/info-cards.tsx:35-42 | The step-by-step subtraction followed by `Math.max(0, score)` equals the formula. The result lies in 0..100 and is a multiple of 10. |
| `InfoCards.PerfectScoreIff` | src/components/info-cards.tsx:37-40 | The score is 100 if and only if 0 <= temperature <= 35, wind <= 30, rainfall <= 50 and the condition is not stormy. |
| `InfoCards.ScoreValues` | src/components/info-cards.tsx:36-41 | The score is a multiple of 10 and never 90. |
| `InfoCards.StormCapsScore` | src/components/info-cards.tsx:39-40 | A stormy condition caps the score at 60. A storm with rainfall over 50 caps it at 30. |
| `InfoCards.ClampIsNeeded` | src/components/info-cards.tsx:41 | When all four rules fire, the penalties total 110 and the clamp gives 0. |
| `InfoCards.ScoreIsMonotone` | src/components/info-cards.tsx:37-41 | Making any input no better never raises the score. That covers a temperature out of range, higher wind, higher rainfall, or a switch to stormy. |
| `InfoCards.GetScoreMessage` | src/components/info-cards.tsx:44-49 | The label is the entry of [Risky Venture!, Be Prepared!, Great Day for it!, Weather-Perfect!] indexed by how many of the thresholds 40, 60 and 80 the score strictly exceeds. |
| `InfoCards.ScoreMessageIsMonotone` | src/components/info-cards.tsx:44-49 | A higher score never gets a worse label: it passes at least as many thresholds, and its label's rank is at least as high. |
| `InfoCards.ScoreMessageBoundaries` | src/components/info-cards.tsx:45-47 | The thresholds are strict: 80 gives "Great Day for it!", 60 gives "Be Prepared!" and 40 gives "Risky Venture!". |
| `InfoCards.PerfectLabelIffNoPenalty` | src/components/info-cards.tsx:44-52 | "Weather-Perfect!" is shown exactly when no penalty applies. |
| `InfoCards.GeneratedReportScore` | src/components/info-cards.tsx:37-41 | On a generated report the temperature penalty never fires, the score is at least 10 so the clamp never applies, and under a sunny or cloudy sky the score is at least 80. |
| `InfoCards.GeneratedReportWindPenaltyCanFire` | src/components/info-cards.tsx:38 | A generated report can draw the wind penalty: a wind draw of 0.9 gives 36 km/h and a score of 80. |

## Left out

- The 1500 ms `setTimeout` delay and the `async`/`Promise` wrapper (src/lib/weather-data.ts:6) are simulated latency and are not modelled.
- `Math.random()` is not modelled. Its results are the `draws` parameter, each taken to be a real in [0, 1).
- IEEE-754 rounding is not modelled. Dafny reals are exact, and the stated ranges do not depend on it.
- `new Date().getFullYear()` (src/lib/weather-data.ts:33) is the `currentYear` parameter. A year rollover during the call is ignored.
- The `date` argument of `getWeatherData` is never read by the code, so the model has no such parameter.
- `toLowerCase` is modelled for ASCII letters only. For the comparison with "error" this gives the same answer as full Unicode lower-casing, because no other character lower-cases to e, r or o.
- The AI flows, the Genkit instance and the dev entry (src/ai/) are prompt templates and calls into a third-party SDK whose behaviour is not visible.
- React rendering and state are not modelled. That covers the info cards' eco-awareness state and effect, the form, geolocation, the weather display, the chart, the header, and `backgroundClass`/`handleSearch` in src/app/page.tsx.
- The numeric fields of a report and the score are JS numbers; the model uses integers. Every producer rounds or floors them (src/lib/weather-data.ts:20-23, 27-30, 34) and the only caller of the label passes the integer score (src/components/info-cards.tsx:52), so nothing reachable is lost, but non-integer inputs such as a temperature of 35.5 are not modelled.
