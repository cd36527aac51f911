/** The adventure score and its label, shown by the info cards
    (src/components/info-cards.tsx, `getAdventureScore` and `getScoreMessage`). */
module InfoCards {
  import opened Types
  import MockWeather

  // ---------------------------------------------------------------------------
  // The score

  /** A temperature outside 0..35 (both bounds included in the range). */
  predicate IsOutOfComfortRange(temperature: int) {
    temperature > 35 || temperature < 0
  }

  /** Each rule's penalty; every comparison is strict. */
  function TemperaturePenalty(temperature: int): nat {
    if IsOutOfComfortRange(temperature) then 20 else 0
  }

  function WindPenalty(windSpeed: int): nat {
    if windSpeed > 30 then 20 else 0
  }

  function RainPenalty(rainfallChance: int): nat {
    if rainfallChance > 50 then 30 else 0
  }

  function StormPenalty(condition: Condition): nat {
    if condition == Stormy then 40 else 0
  }

  /** The sum of the penalties that apply; at most 20 + 20 + 30 + 40 = 110. */
  function TotalPenalty(w: WeatherData): (p: nat)
    ensures p <= 110
  {
    TemperaturePenalty(w.temperature) + WindPenalty(w.windSpeed)
      + RainPenalty(w.rainfallChance) + StormPenalty(w.condition)
  }

  /** The score as a formula: 100 less the applicable penalties, never below 0. */
  function AdventureScore(w: WeatherData): (s: int)
    ensures 0 <= s <= 100
  {
    if TotalPenalty(w) > 100 then 0 else 100 - TotalPenalty(w)
  }

  /** `getAdventureScore`: start at 100, subtract each applicable penalty in
      turn, then `Math.max(0, score)`. */
  method GetAdventureScore(weatherData: WeatherData) returns (score: int)
    ensures score == AdventureScore(weatherData)
    ensures 0 <= score <= 100 && score % 10 == 0
  {
    score := 100;
    if weatherData.temperature > 35 || weatherData.temperature < 0 {
      score := score - 20;
    }
    if weatherData.windSpeed > 30 {
      score := score - 20;
    }
    if weatherData.rainfallChance > 50 {
      score := score - 30;
    }
    if weatherData.condition == Stormy {
      score := score - 40;
    }
    score := if 0 > score then 0 else score;
  }

  /** The score is 100 exactly when no rule fires: the bounds 0 and 35 on the
      temperature, 30 on the wind and 50 on the rainfall are all penalty-free. */
  lemma PerfectScoreIff(w: WeatherData)
    ensures AdventureScore(w) == 100 <==>
      0 <= w.temperature <= 35 && w.windSpeed <= 30 && w.rainfallChance <= 50 && w.condition != Stormy
  {
  }

  /** Only ten scores occur: the multiples of 10 up to 100, except 90, since
      no single penalty is 10. */
  lemma ScoreValues(w: WeatherData)
    ensures AdventureScore(w) % 10 == 0 && AdventureScore(w) != 90
  {
  }

  /** A storm caps the score at 60; a storm with heavy rain caps it at 30. */
  lemma StormCapsScore(w: WeatherData)
    ensures w.condition == Stormy ==> AdventureScore(w) <= 60
    ensures w.condition == Stormy && w.rainfallChance > 50 ==> AdventureScore(w) <= 30
  {
  }

  /** The clamp matters: with every rule firing, 100 - 110 would be -10. */
  lemma ClampIsNeeded()
    ensures var w := WeatherData(40, 50, 31, 51, VeryHot, [], [], Stormy);
      TotalPenalty(w) == 110 && AdventureScore(w) == 0
  {
  }

  /** `b` is no better than `a` on any scored input: its temperature is out of
      range whenever `a`'s is, its wind and rainfall are at least as high, and
      it is stormy whenever `a` is. */
  predicate NoBetter(a: WeatherData, b: WeatherData) {
    && (IsOutOfComfortRange(a.temperature) ==> IsOutOfComfortRange(b.temperature))
    && a.windSpeed <= b.windSpeed
    && a.rainfallChance <= b.rainfallChance
    && (a.condition == Stormy ==> b.condition == Stormy)
  }

  /** Making any input worse never raises the score. */
  lemma ScoreIsMonotone(a: WeatherData, b: WeatherData)
    requires NoBetter(a, b)
    ensures AdventureScore(b) <= AdventureScore(a)
  {
  }

  // ---------------------------------------------------------------------------
  // The label

  const RiskyVenture := "Risky Venture!"
  const BePrepared := "Be Prepared!"
  const GreatDay := "Great Day for it!"
  const WeatherPerfect := "Weather-Perfect!"

  /** The four labels from worst to best. */
  const Messages: seq<string> := [RiskyVenture, BePrepared, GreatDay, WeatherPerfect]

  /** How many of the thresholds 40, 60 and 80 the score strictly exceeds. */
  function ThresholdsPassed(score: int): (n: nat)
    ensures n < |Messages|
  {
    (if score > 40 then 1 else 0) + (if score > 60 then 1 else 0) + (if score > 80 then 1 else 0)
  }

  /** `getScoreMessage`: the first threshold, from the top, that the score
      strictly exceeds picks the label. */
  function GetScoreMessage(score: int): (m: string)
    ensures m == Messages[ThresholdsPassed(score)]
  {
    if score > 80 then WeatherPerfect
    else if score > 60 then GreatDay
    else if score > 40 then BePrepared
    else RiskyVenture
  }

  /** A higher score never gets a worse label: it passes at least as many
      thresholds, so its label sits no lower in Messages. */
  lemma ScoreMessageIsMonotone(s: int, t: int)
    requires s <= t
    ensures ThresholdsPassed(s) <= ThresholdsPassed(t)
    ensures exists i, j ::
              0 <= i <= j < |Messages| && GetScoreMessage(s) == Messages[i] && GetScoreMessage(t) == Messages[j]
  {
    var i, j := ThresholdsPassed(s), ThresholdsPassed(t);
    assert GetScoreMessage(s) == Messages[i] && GetScoreMessage(t) == Messages[j];
  }

  /** The thresholds are strict: 80, 60 and 40 fall to the lower label. */
  lemma ScoreMessageBoundaries()
    ensures GetScoreMessage(81) == WeatherPerfect && GetScoreMessage(80) == GreatDay
    ensures GetScoreMessage(61) == GreatDay && GetScoreMessage(60) == BePrepared
    ensures GetScoreMessage(41) == BePrepared && GetScoreMessage(40) == RiskyVenture
  {
  }

  /** Since the score is never 90, "Weather-Perfect!" is shown exactly when
      no penalty applies. */
  lemma PerfectLabelIffNoPenalty(w: WeatherData)
    ensures GetScoreMessage(AdventureScore(w)) == WeatherPerfect <==> TotalPenalty(w) == 0
  {
  }

  // ---------------------------------------------------------------------------
  // Scores of generated reports

  /** A generated report's temperature (5..30) never draws the temperature
      penalty, and its rainfall can exceed 50 only under a wet condition. So
      the score of a generated report is at least 10 (the clamp never
      applies), and at least 80 under a sunny or cloudy sky. */
  lemma GeneratedReportScore(location: string, currentYear: int, draws: seq<real>)
    requires !MockWeather.IsSentinel(location)
    requires |draws| >= MockWeather.DrawCount && MockWeather.AreDraws(draws)
    ensures var w := MockWeather.GetWeatherData(location, currentYear, draws).value;
      && TemperaturePenalty(w.temperature) == 0
      && TotalPenalty(w) <= 90
      && AdventureScore(w) >= 10
      && (!MockWeather.IsWet(w.condition) ==> RainPenalty(w.rainfallChance) == 0 && AdventureScore(w) >= 80)
  {
  }

  /** The wind penalty does fire on generated reports: a wind draw of 0.9
      gives 36 km/h. */
  lemma GeneratedReportWindPenaltyCanFire(location: string, currentYear: int)
    requires !MockWeather.IsSentinel(location)
    ensures var draws := MockWeather.ZeroDraws()[4 := 0.9];
      MockWeather.AreDraws(draws) &&
      var w := MockWeather.GetWeatherData(location, currentYear, draws).value;
      w.windSpeed == 36 && WindPenalty(w.windSpeed) == 20 && AdventureScore(w) == 80
  {
  }
}
