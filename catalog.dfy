/** The records and the two fixed tables the tools read: the city catalog
    (`CITY_DATABASE`) and the mock weather table (`WEATHER_DATA`). */
module Catalog {
  import opened Text
  import opened Tables

  /** `CityInfo`; the coordinate pair is split into latitude and longitude. */
  datatype CityInfo = CityInfo(
    name: string,
    country: string,
    timezone: string,
    population: nat,
    latitude: real,
    longitude: real,
    currency: string,
    language: string)

  /** One entry of a weather record's `alerts` list. */
  datatype Alert = Alert(kind: string, severity: string, description: string, expires: string)

  /** One value of `WEATHER_DATA`. */
  datatype Weather = Weather(
    condition: string,
    temperatureC: int,
    temperatureF: int,
    humidity: int,
    windSpeed: int,
    windDirection: string,
    pressure: real,
    visibility: int,
    uvIndex: int,
    airQuality: string,
    feelsLikeC: int,
    feelsLikeF: int,
    alerts: seq<Alert>)

  const CityDatabase: seq<(string, CityInfo)> := [
    ("new york", CityInfo("New York", "United States", "America/New_York", 8336817, 40.7128, -74.0060, "USD", "English")),
    ("london", CityInfo("London", "United Kingdom", "Europe/London", 9648110, 51.5074, -0.1278, "GBP", "English")),
    ("tokyo", CityInfo("Tokyo", "Japan", "Asia/Tokyo", 13960000, 35.6762, 139.6503, "JPY", "Japanese")),
    ("lagos", CityInfo("Lagos", "Nigeria", "Africa/Lagos", 15388000, 6.5244, 3.3792, "NGN", "English")),
    ("paris", CityInfo("Paris", "France", "Europe/Paris", 2165423, 48.8566, 2.3522, "EUR", "French")),
    ("dubai", CityInfo("Dubai", "UAE", "Asia/Dubai", 3331420, 25.2048, 55.2708, "AED", "Arabic")),
    ("sydney", CityInfo("Sydney", "Australia", "Australia/Sydney", 5312163, -33.8688, 151.2093, "AUD", "English")),
    ("mumbai", CityInfo("Mumbai", "India", "Asia/Kolkata", 20411274, 19.0760, 72.8777, "INR", "Hindi/English"))
  ]

  const WeatherData: seq<(string, Weather)> := [
    ("new york", Weather("sunny", 25, 77, 60, 15, "SW", 1013.2, 10, 6, "Good", 27, 81, [])),
    ("london", Weather("cloudy", 18, 64, 75, 10, "W", 1008.5, 8, 3, "Moderate", 16, 61, [])),
    ("tokyo", Weather("partly cloudy", 28, 82, 65, 8, "E", 1015.1, 12, 7, "Good", 31, 88, [])),
    ("lagos", Weather("thunderstorms", 26, 79, 94, 5, "W", 1009.8, 5, 4, "Moderate", 28, 83,
      [Alert("Thunderstorm", "moderate", "Scattered thunderstorms expected", "2025-06-03T20:00:00")])),
    ("paris", Weather("rainy", 16, 61, 80, 20, "NW", 1005.2, 6, 2, "Good", 14, 57, []))
  ]

  /** The keys of the city catalog, in insertion order. */
  lemma CityKeys()
    ensures Keys(CityDatabase) == ["new york", "london", "tokyo", "lagos", "paris", "dubai", "sydney", "mumbai"]
  {
  }

  /** The keys of the weather table, in insertion order. */
  lemma WeatherKeys()
    ensures Keys(WeatherData) == ["new york", "london", "tokyo", "lagos", "paris"]
  {
  }

  lemma KeyNamesNormal()
    ensures forall k :: k in ["new york", "london", "tokyo", "lagos", "paris", "dubai", "sydney", "mumbai"] ==> NormalForm(k)
  {
  }

  lemma CityKeysUnique()
    ensures KeysUnique(CityDatabase)
  {
  }

  /** The city catalog has unique, normalised keys. */
  lemma CityDatabaseWellFormed()
    ensures WellFormed(CityDatabase)
  {
    CityKeysUnique();
    CityKeys();
    KeyNamesNormal();
    assert forall i :: 0 <= i < |CityDatabase| ==> CityDatabase[i].0 in Keys(CityDatabase);
  }

  lemma WeatherKeysUnique()
    ensures KeysUnique(WeatherData)
  {
  }

  /** The weather table has unique, normalised keys. */
  lemma WeatherDataWellFormed()
    ensures WellFormed(WeatherData)
  {
    WeatherKeysUnique();
    WeatherKeys();
    KeyNamesNormal();
    assert forall i :: 0 <= i < |WeatherData| ==> WeatherData[i].0 in Keys(WeatherData);
  }
}
