/** The records and string unions of the dashboard's weather report (src/lib/types.ts). */
module Types {

  /** The `condition` union: 'sunny' | 'rainy' | 'cloudy' | 'stormy'. */
  datatype Condition = Sunny | Rainy | Cloudy | Stormy

  /** The `comfortIndex` union: 'Very Hot' | 'Pleasant' | 'Cold' | 'Very Wet' | 'Windy'. */
  datatype ComfortIndex = VeryHot | Pleasant | Cold | VeryWet | Windy

  /** The forecast `icon` union: 'Sunrise' | 'Sun' | 'Sunset' | 'Moon'. */
  datatype Icon = Sunrise | Sun | Sunset | Moon

  /** One slot of the daily forecast. */
  datatype DailyForecast = DailyForecast(time: string, temp: int, icon: Icon)

  /** One year of the historical series. */
  datatype HistoricalDataPoint = HistoricalDataPoint(year: int, avgTemp: int)

  /** The report. The declared `location: string` member is absent on purpose:
      the only producer of reports never sets it. */
  datatype WeatherData = WeatherData(
    temperature: int,
    humidity: int,
    windSpeed: int,
    rainfallChance: int,
    comfortIndex: ComfortIndex,
    dailyForecast: seq<DailyForecast>,
    historicalData: seq<HistoricalDataPoint>,
    condition: Condition)
}
