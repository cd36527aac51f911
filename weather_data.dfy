/** The mock report generator `getWeatherData` (src/lib/weather-data.ts).
    Every `Math.random()` call becomes one element of `draws`, consumed in
    program order; the current year is a parameter. */
module MockWeather {
  import opened Types

  datatype Result<T> = Ok(value: T) | Err(message: string)

  /** The message of the error thrown for the sentinel location. */
  const FetchError := "Could not fetch weather data for the specified location."

  const Conditions: seq<Condition> := [Sunny, Rainy, Cloudy, Stormy]
  const ComfortLevels: seq<ComfortIndex> := [VeryHot, Pleasant, Cold, VeryWet, Windy]

  /** Draws taken by a successful call: condition, comfort, base temperature,
      humidity, wind, rainfall, then one per historical year. */
  const DrawCount: nat := 17
  const HistoryYears: nat := 11
  /** Index of the first historical draw. */
  const HistoryStart: nat := 6

  // ---------------------------------------------------------------------------
  // String and number primitives

  /** `toLowerCase` on one character; only ASCII letters are folded. */
  function LowerChar(c: char): (l: char)
    ensures 'A' <= c <= 'Z' ==> 'a' <= l <= 'z'
    ensures !('A' <= c <= 'Z') ==> l == c
  {
    if 'A' <= c <= 'Z' then (c as int - 'A' as int + 'a' as int) as char else c
  }

  function ToLower(s: string): (r: string)
    ensures |r| == |s|
  {
    seq(|s|, i requires 0 <= i < |s| => LowerChar(s[i]))
  }

  /** The location rejected with an error: "error" in any letter case. */
  predicate IsSentinel(location: string) {
    ToLower(location) == "error"
  }

  /** A value of `Math.random()`. */
  predicate IsDraw(r: real) {
    0.0 <= r < 1.0
  }

  predicate AreDraws(draws: seq<real>) {
    forall i :: 0 <= i < |draws| ==> IsDraw(draws[i])
  }

  /** How many draws a call with this location consumes. */
  function DrawsNeeded(location: string): nat {
    if IsSentinel(location) then 0 else DrawCount
  }

  /** `Math.floor`. */
  function Floor(x: real): (n: int)
    ensures n as real <= x < n as real + 1.0
  {
    x.Floor
  }

  /** `Math.round`, which rounds halves upwards: the integer nearest to `x`. */
  function Round(x: real): (n: int)
    ensures n as real - 0.5 <= x < n as real + 0.5
  {
    Floor(x + 0.5)
  }

  /** Rounding commutes with an integer shift. */
  lemma RoundShift(x: real, k: int)
    ensures Round(x + k as real) == Round(x) + k
  {
  }

  // ---------------------------------------------------------------------------
  // The fields, each from its own draw(s)

  /** `conditions[Math.floor(Math.random() * conditions.length)]`. */
  function PickCondition(r: real): (c: Condition)
    requires IsDraw(r)
    ensures c == Sunny <==> r < 0.25
    ensures c == Rainy <==> 0.25 <= r < 0.5
    ensures c == Cloudy <==> 0.5 <= r < 0.75
    ensures c == Stormy <==> 0.75 <= r
  {
    Conditions[Floor(r * |Conditions| as real)]
  }

  /** `comfortLevels[Math.floor(Math.random() * comfortLevels.length)]`. */
  function PickComfort(r: real): (c: ComfortIndex)
    requires IsDraw(r)
    ensures c == VeryHot <==> r < 0.2
    ensures c == Pleasant <==> 0.2 <= r < 0.4
    ensures c == Cold <==> 0.4 <= r < 0.6
    ensures c == VeryWet <==> 0.6 <= r < 0.8
    ensures c == Windy <==> 0.8 <= r
  {
    ComfortLevels[Floor(r * |ComfortLevels| as real)]
  }

  /** `5 + Math.random() * 25`. */
  function BaseTemp(r: real): (b: real)
    requires IsDraw(r)
    ensures 5.0 <= b < 30.0
  {
    5.0 + r * 25.0
  }

  /** `Math.floor(Math.random() * 70) + 30`. */
  function Humidity(r: real): (h: int)
    requires IsDraw(r)
    ensures 30 <= h <= 99
  {
    Floor(r * 70.0) + 30
  }

  /** `Math.floor(Math.random() * 40)`. */
  function WindSpeed(r: real): (w: int)
    requires IsDraw(r)
    ensures 0 <= w <= 39
  {
    Floor(r * 40.0)
  }

  predicate IsWet(c: Condition) {
    c == Rainy || c == Stormy
  }

  /** Rainfall: 40..99 under a wet condition, 0..39 otherwise. */
  function RainfallChance(condition: Condition, r: real): (p: int)
    requires IsDraw(r)
    ensures IsWet(condition) ==> 40 <= p <= 99
    ensures !IsWet(condition) ==> 0 <= p <= 39
  {
    if IsWet(condition) then Floor(r * 60.0) + 40 else Floor(r * 40.0)
  }

  /** The four fixed forecast slots; they take no draw. */
  function DailyForecasts(baseTemp: real): (f: seq<DailyForecast>)
    ensures f == ForecastAround(Round(baseTemp))
  {
    RoundShift(baseTemp, -5);
    RoundShift(baseTemp, 2);
    RoundShift(baseTemp, -2);
    RoundShift(baseTemp, -8);
    [ DailyForecast("Morning", Round(baseTemp - 5.0), Sunrise),
      DailyForecast("Afternoon", Round(baseTemp + 2.0), Sun),
      DailyForecast("Evening", Round(baseTemp - 2.0), Sunset),
      DailyForecast("Night", Round(baseTemp - 8.0), Moon) ]
  }

  /** The forecast as offsets from the rounded current temperature. */
  function ForecastAround(temperature: int): seq<DailyForecast> {
    [ DailyForecast("Morning", temperature - 5, Sunrise),
      DailyForecast("Afternoon", temperature + 2, Sun),
      DailyForecast("Evening", temperature - 2, Sunset),
      DailyForecast("Night", temperature - 8, Moon) ]
  }

  /** One historical year: `Math.round(baseTemp - 3 + Math.random() * 6)`. */
  function AvgTemp(baseTemp: real, r: real): (t: int)
    requires IsDraw(r)
    ensures Round(baseTemp) - 3 <= t <= Round(baseTemp) + 3
  {
    Round(baseTemp - 3.0 + r * 6.0)
  }

  /** `Array.from({ length: 11 }, ...)`: entry i is for year currentYear - 10 + i
      and takes draw i. */
  function HistoricalData(currentYear: int, baseTemp: real, draws: seq<real>): (h: seq<HistoricalDataPoint>)
    requires |draws| == HistoryYears && AreDraws(draws)
    ensures HistoryShape(h, Round(baseTemp), currentYear)
  {
    seq(HistoryYears, i requires 0 <= i < HistoryYears =>
      HistoricalDataPoint(currentYear - 10 + i, AvgTemp(baseTemp, draws[i])))
  }

  // ---------------------------------------------------------------------------
  // The report and its invariants

  /** 11 consecutive ascending years ending at `currentYear`, each average
      within 3 degrees of `temperature`. */
  predicate HistoryShape(h: seq<HistoricalDataPoint>, temperature: int, currentYear: int) {
    && |h| == HistoryYears
    && (forall i :: 0 <= i < |h| ==> h[i].year == currentYear - 10 + i)
    && (forall i :: 0 <= i < |h| ==> temperature - 3 <= h[i].avgTemp <= temperature + 3)
  }

  /** Every invariant a generated report satisfies. */
  predicate ValidReport(w: WeatherData, currentYear: int) {
    && 5 <= w.temperature <= 30
    && 30 <= w.humidity <= 99
    && 0 <= w.windSpeed <= 39
    && (IsWet(w.condition) ==> 40 <= w.rainfallChance <= 99)
    && (!IsWet(w.condition) ==> 0 <= w.rainfallChance <= 39)
    && w.dailyForecast == ForecastAround(w.temperature)
    && HistoryShape(w.historicalData, w.temperature, currentYear)
  }

  /** `getWeatherData(location, date)` with its random draws and the current
      year made explicit. */
  function GetWeatherData(location: string, currentYear: int, draws: seq<real>): (r: Result<WeatherData>)
    requires |draws| >= DrawsNeeded(location) && AreDraws(draws)
    ensures r.Err? <==> IsSentinel(location)
    ensures r.Err? ==> r.message == FetchError
    ensures r.Ok? ==> ValidReport(r.value, currentYear)
  {
    if IsSentinel(location) then Err(FetchError)
    else
      var condition := PickCondition(draws[0]);
      var comfort := PickComfort(draws[1]);
      var baseTemp := BaseTemp(draws[2]);
      Ok(WeatherData(
        Round(baseTemp),
        Humidity(draws[3]),
        WindSpeed(draws[4]),
        RainfallChance(condition, draws[5]),
        comfort,
        DailyForecasts(baseTemp),
        HistoricalData(currentYear, baseTemp, draws[HistoryStart..DrawCount]),
        condition))
  }

  // ---------------------------------------------------------------------------
  // Properties

  /** The sentinel check is case-insensitive, and nothing else is rejected:
      exactly the five-letter spellings of "error" in any mix of cases fail. */
  lemma SentinelIsCaseInsensitive(location: string)
    ensures IsSentinel(location) <==>
      |location| == 5 &&
      forall i :: 0 <= i < 5 ==> location[i] == "error"[i] || location[i] == "ERROR"[i]
  {
  }

  /** "Error" and "ERROR" are rejected like "error"; the empty string and
      near misses are accepted. */
  lemma SentinelExamples()
    ensures IsSentinel("error") && IsSentinel("Error") && IsSentinel("ERROR")
    ensures !IsSentinel("") && !IsSentinel("errors") && !IsSentinel(" error") && !IsSentinel("err0r")
  {
    SentinelIsCaseInsensitive("error");
    SentinelIsCaseInsensitive("Error");
    SentinelIsCaseInsensitive("ERROR");
    SentinelIsCaseInsensitive("err0r");
    assert "err0r"[3] != "error"[3] && "err0r"[3] != "ERROR"[3];
  }

  /** Each field depends only on its own draw(s): the two labels on draws 0
      and 1, the temperature and the forecast on draw 2, humidity on draw 3,
      wind on draw 4, rainfall on draws 0 and 5, and historical year i on
      draws 2 and 6 + i. */
  lemma DrawDependence(location: string, currentYear: int, d: seq<real>, e: seq<real>)
    requires !IsSentinel(location)
    requires |d| >= DrawCount && AreDraws(d) && |e| >= DrawCount && AreDraws(e)
    ensures var a, b := GetWeatherData(location, currentYear, d).value, GetWeatherData(location, currentYear, e).value;
      && (d[0] == e[0] ==> a.condition == b.condition)
      && (d[1] == e[1] ==> a.comfortIndex == b.comfortIndex)
      && (d[2] == e[2] ==> a.temperature == b.temperature && a.dailyForecast == b.dailyForecast)
      && (d[3] == e[3] ==> a.humidity == b.humidity)
      && (d[4] == e[4] ==> a.windSpeed == b.windSpeed)
      && (d[0] == e[0] && d[5] == e[5] ==> a.rainfallChance == b.rainfallChance)
      && (forall i :: 0 <= i < HistoryYears && d[2] == e[2] && d[HistoryStart + i] == e[HistoryStart + i] ==>
            a.historicalData[i] == b.historicalData[i])
  {
  }

  /** A call reads exactly its first DrawsNeeded(location) draws: none for the
      sentinel, 17 otherwise; whatever follows is left unconsumed. */
  lemma ConsumesOnlyDrawsNeeded(location: string, currentYear: int, draws: seq<real>)
    requires |draws| >= DrawsNeeded(location) && AreDraws(draws)
    ensures GetWeatherData(location, currentYear, draws) ==
            GetWeatherData(location, currentYear, draws[..DrawsNeeded(location)])
  {
    if !IsSentinel(location) {
      var pre := draws[..DrawCount];
      assert pre[HistoryStart..DrawCount] == draws[HistoryStart..DrawCount];
    }
  }

  /** All-zero draws, the baseline for EveryDrawMatters. */
  function ZeroDraws(): (z: seq<real>)
    ensures |z| == DrawCount && AreDraws(z)
  {
    seq(DrawCount, _ => 0.0)
  }

  /** None of the 17 draws is wasted: for each draw k, some change to draw k
      alone changes the report (from all-zero draws, setting draw k to 0.5). */
  lemma EveryDrawMatters(location: string, currentYear: int, k: nat)
    requires !IsSentinel(location) && k < DrawCount
    ensures var z := ZeroDraws();
      GetWeatherData(location, currentYear, z) != GetWeatherData(location, currentYear, z[k := 0.5])
  {
    var z := ZeroDraws();
    var e := z[k := 0.5];
    assert AreDraws(e);
    var a, b := GetWeatherData(location, currentYear, z).value, GetWeatherData(location, currentYear, e).value;
    if k == 0 {
      assert a.condition == Sunny && b.condition == Cloudy;
    } else if k == 1 {
      assert a.comfortIndex == VeryHot && b.comfortIndex == Cold;
    } else if k == 2 {
      assert a.temperature == Round(5.0) == 5;
      assert b.temperature == Round(17.5) == 18;
    } else if k == 3 {
      assert a.humidity == 30 && b.humidity == 65;
    } else if k == 4 {
      assert a.windSpeed == 0 && b.windSpeed == 20;
    } else if k == 5 {
      assert a.rainfallChance == 0 && b.rainfallChance == 20;
    } else {
      var i := k - HistoryStart;
      assert z[HistoryStart..DrawCount][i] == 0.0;
      assert e[HistoryStart..DrawCount][i] == 0.5;
      assert a.historicalData[i].avgTemp == AvgTemp(5.0, 0.0) == Round(2.0) == 2;
      assert b.historicalData[i].avgTemp == AvgTemp(5.0, 0.5) == Round(5.0) == 5;
    }
  }

  /** The temperature range 5..30 is exact: every value in it occurs. */
  lemma TemperatureRangeIsTight(t: int)
    requires 5 <= t <= 30
    ensures exists r :: IsDraw(r) && Round(BaseTemp(r)) == t
  {
    var r := if t < 30 then (t - 5) as real / 25.0 else 0.99;
    assert IsDraw(r);
    if t < 30 {
      assert BaseTemp(r) == t as real;
    } else {
      assert BaseTemp(r) == 29.75;
    }
  }

  /** The humidity range 30..99 is exact. */
  lemma HumidityRangeIsTight(h: int)
    requires 30 <= h <= 99
    ensures exists r :: IsDraw(r) && Humidity(r) == h
  {
    var r := (h - 30) as real / 70.0;
    assert r * 70.0 == (h - 30) as real;
    assert IsDraw(r) && Humidity(r) == h;
  }

  /** The wind range 0..39 is exact. */
  lemma WindSpeedRangeIsTight(w: int)
    requires 0 <= w <= 39
    ensures exists r :: IsDraw(r) && WindSpeed(r) == w
  {
    var r := w as real / 40.0;
    assert r * 40.0 == w as real;
    assert IsDraw(r) && WindSpeed(r) == w;
  }

  /** Both rainfall ranges are exact: 40..99 under a wet condition, 0..39 otherwise. */
  lemma RainfallRangeIsTight(condition: Condition, p: int)
    requires if IsWet(condition) then 40 <= p <= 99 else 0 <= p <= 39
    ensures exists r :: IsDraw(r) && RainfallChance(condition, r) == p
  {
    if IsWet(condition) {
      var r := (p - 40) as real / 60.0;
      assert r * 60.0 == (p - 40) as real;
      assert IsDraw(r) && RainfallChance(condition, r) == p;
    } else {
      var r := p as real / 40.0;
      assert r * 40.0 == p as real;
      assert IsDraw(r) && RainfallChance(condition, r) == p;
    }
  }
}
