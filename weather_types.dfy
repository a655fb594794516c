/** The data shapes of the weather provider's responses and of a recent-search entry
    (types/weather.tsx). Only the fields the dashboard's logic reads, and the
    non-numeric-measurement fields around them, are kept; temperatures, humidity and
    wind speed are floating-point values the logic never inspects. */
module WeatherTypes {

  datatype Option<+T> = None | Some(value: T)

  /** One element of the provider's `weather` array: condition id and its labels. */
  datatype Condition = Condition(id: int, main: string, description: string, icon: string)

  /** Current conditions for one city: `name` and `sys.country` are what the logic uses. */
  datatype WeatherData = WeatherData(name: string, country: string, weather: seq<Condition>)

  /** One forecast step: its timestamp and display text, in the provider's order. */
  datatype ForecastItem = ForecastItem(dt: int, weather: seq<Condition>, dtTxt: string)

  datatype ForecastCity = ForecastCity(name: string, country: string)

  datatype ForecastData = ForecastData(list: seq<ForecastItem>, city: ForecastCity)

  /** What the recent-search list remembers about a city. */
  datatype RecentCity = RecentCity(name: string, country: string)
}
