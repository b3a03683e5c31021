/** The dictionaries the tools return. Every tool answers with a record whose
    `status` is `"success"` or `"error"`; here that is the constructor of a
    `Result`, and each error message is a constructor carrying the values the
    message text interpolates. */
module Responses {

  datatype ErrorMessage =
      /** get_city_info: "City information for '<city>' not available. Try: <keys>." */
    | CityInfoNotAvailable(city: string, tryCities: seq<string>)
      /** get_weather: "Weather data for '<city>' not available. Try: <keys>." */
    | WeatherNotAvailable(city: string, tryCities: seq<string>)
      /** get_weather_forecast, unknown city. */
    | ForecastNotAvailable(city: string)
      /** get_weather_forecast: "Forecast days must be between 1 and 7". */
    | ForecastDaysOutOfRange
      /** search_cities_in_database: "No cities found in my database matching '<query>'." */
    | NoSearchMatches(query: string)
      /** compare_cities, weather: "Weather data missing for one or both cities." */
    | WeatherMissingForComparison
      /** compare_cities, weather: "Cannot compare - one or both cities have no weather data". */
    | CannotCompareWeather
      /** compare_cities, any other type, when a city is not in the catalog. */
    | CityInfoMissingForComparison(city1: string, city2: string)
      /** compare_cities, any other type, when both cities are in the catalog. */
    | InvalidComparisonType

  /** `{"status": "success", ...}` or `{"status": "error", "error_message": ...}`. */
  datatype Result<T> = Success(value: T) | Error(message: ErrorMessage)
}
