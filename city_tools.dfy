/** The two lookup tools, `get_city_info` and `get_weather`. Both normalise
    their argument with `lower().strip()`, look the result up as an exact key
    and answer with a success record or an error record; neither raises. */
module CityTools {
  import opened Text
  import opened Tables
  import opened Catalog
  import opened Responses

  /** The lines of the `get_city_info` report, in order. */
  datatype CityLine =
    | Heading(name: string, country: string)
    | Population(count: nat)
    | Coordinates(latitude: real, longitude: real)
    | Currency(code: string)
    | Language(name: string)
    | Timezone(id: string)

  /** The success record of `get_city_info`: its `report` and its `city_data`. */
  datatype CityReport = CityReport(report: seq<CityLine>, cityData: CityInfo)

  function CityLines(c: CityInfo): seq<CityLine> {
    [Heading(c.name, c.country), Population(c.population), Coordinates(c.latitude, c.longitude),
     Currency(c.currency), Language(c.language), Timezone(c.timezone)]
  }

  /** `get_city_info(city)` over the catalog `db`. */
  function GetCityInfo(db: seq<(string, CityInfo)>, city: string): (r: Result<CityReport>)
    ensures r.Success? <==> Normalize(city) in Keys(db)
    ensures r.Success? ==>
      (exists i :: 0 <= i < |db| && db[i].0 == Normalize(city) && db[i].1 == r.value.cityData)
      && r.value.report == CityLines(r.value.cityData)
    ensures r.Error? ==> r.message == CityInfoNotAvailable(city, Keys(db))
  {
    match Lookup(db, Normalize(city))
    case None => Error(CityInfoNotAvailable(city, Keys(db)))
    case Some(info) => Success(CityReport(CityLines(info), info))
  }

  /** Every catalog key, however it is cased or padded, finds its own record. */
  lemma GetCityInfoOfEntry(db: seq<(string, CityInfo)>, i: int, city: string)
    requires WellFormed(db)
    requires 0 <= i < |db|
    requires Normalize(city) == db[i].0
    ensures GetCityInfo(db, city) == Success(CityReport(CityLines(db[i].1), db[i].1))
  {
    LookupEntry(db, i);
  }

  /** Inputs that normalise alike get the same success; an error echoes the raw input. */
  lemma GetCityInfoNormalizes(db: seq<(string, CityInfo)>, a: string, b: string)
    requires Normalize(a) == Normalize(b)
    ensures GetCityInfo(db, a).Success? == GetCityInfo(db, b).Success?
    ensures GetCityInfo(db, a).Success? ==> GetCityInfo(db, a) == GetCityInfo(db, b)
    ensures GetCityInfo(db, a).Error? ==> GetCityInfo(db, a).message.city == a
  {
    assert Lookup(db, Normalize(a)) == Lookup(db, Normalize(b));
  }

  lemma NormalizeLondon()
    ensures Normalize("london") == "london"
  {
    assert NormalForm("london");
    NormalFormFixed("london");
  }

  lemma NormalizePaddedLondon()
    ensures Normalize(" London ") == "london"
  {
    LowerAt(" London ");
    assert Lower(" London ") == " london ";
    assert " london "[1..] == "london ";
    assert TrimStart(" london ") == "london ";
    assert "london "[..6] == "london";
    assert TrimEnd("london ") == "london";
  }

  lemma NormalizeUpperLondon()
    ensures Normalize("LONDON") == "london"
  {
    LowerAt("LONDON");
    assert Lower("LONDON") == "london";
    NormalizeLondon();
  }

  /** `" London "`, `"LONDON"` and `"london"` all return the catalog's London record. */
  lemma LondonLookups()
    ensures GetCityInfo(CityDatabase, " London ") == GetCityInfo(CityDatabase, "london")
    ensures GetCityInfo(CityDatabase, "LONDON") == GetCityInfo(CityDatabase, "london")
    ensures GetCityInfo(CityDatabase, "london").Success?
    ensures GetCityInfo(CityDatabase, "london").value.cityData == CityDatabase[1].1
  {
    NormalizeLondon();
    NormalizePaddedLondon();
    NormalizeUpperLondon();
    CityDatabaseWellFormed();
    GetCityInfoOfEntry(CityDatabase, 1, "london");
  }

  /** The lines of the `get_weather` report, in order. */
  datatype WeatherLine =
    | Headline(city: string, condition: string)
    | Temperature(celsius: int, fahrenheit: int)
    | FeelsLike(celsius: int, fahrenheit: int)
    | Humidity(percent: int)
    | Wind(speedKmh: int, direction: string)
    | Pressure(hpa: real)
    | Visibility(km: int)
    | UvIndex(index: int)
    | AirQuality(quality: string)
    | AlertsHeading
    | AlertBullet(kind: string, severity: string, description: string)

  /** The success record of `get_weather`: its `report` and its `raw_data` (`None` is Python's None). */
  datatype WeatherReport = WeatherReport(report: seq<WeatherLine>, rawData: Option<Weather>)

  /** The five lines every weather report starts with; the headline echoes the caller's spelling. */
  function BasicLines(city: string, w: Weather): seq<WeatherLine> {
    [Headline(city, w.condition), Temperature(w.temperatureC, w.temperatureF),
     FeelsLike(w.feelsLikeC, w.feelsLikeF), Humidity(w.humidity), Wind(w.windSpeed, w.windDirection)]
  }

  /** The four lines a detailed report adds. */
  function DetailLines(w: Weather): seq<WeatherLine> {
    [Pressure(w.pressure), Visibility(w.visibility), UvIndex(w.uvIndex), AirQuality(w.airQuality)]
  }

  function Bullet(a: Alert): WeatherLine {
    AlertBullet(a.kind, a.severity, a.description)
  }

  /** `get_weather(city, detailed)` over the weather table `wdb`. */
  method GetWeather(wdb: seq<(string, Weather)>, city: string, detailed: bool) returns (r: Result<WeatherReport>)
    ensures r.Success? <==> Normalize(city) in Keys(wdb)
    ensures r.Error? ==> r.message == WeatherNotAvailable(city, Keys(wdb))
    ensures r.Success? ==>
      var w := Lookup(wdb, Normalize(city)).value;
      var rep := r.value.report;
      var head := if detailed then 9 else 5;
      && (r.value.rawData.Some? <==> detailed)
      && (r.value.rawData.Some? ==> r.value.rawData.value == w)
      && |rep| >= head
      && rep[..head] == BasicLines(city, w) + (if detailed then DetailLines(w) else [])
      && (w.alerts == [] ==> |rep| == head)
      && (w.alerts != [] ==>
            |rep| == head + 1 + |w.alerts| && rep[head] == AlertsHeading
            && forall k :: 0 <= k < |w.alerts| ==> rep[head + 1 + k] == Bullet(w.alerts[k]))
  {
    var found := Lookup(wdb, Normalize(city));
    if found.None? {
      r := Error(WeatherNotAvailable(city, Keys(wdb)));
      return;
    }
    var w := found.value;
    var report := BasicLines(city, w);
    if detailed {
      report := report + DetailLines(w);
    }
    ghost var head := report;
    if w.alerts != [] {
      report := report + [AlertsHeading];
      for i := 0 to |w.alerts|
        invariant |report| == |head| + 1 + i
        invariant report[..|head| + 1] == head + [AlertsHeading]
        invariant forall k :: 0 <= k < i ==> report[|head| + 1 + k] == Bullet(w.alerts[k])
      {
        assert (report + [Bullet(w.alerts[i])])[..|head| + 1] == report[..|head| + 1];
        report := report + [Bullet(w.alerts[i])];
      }
      assert report[..|head|] == (head + [AlertsHeading])[..|head|] == head;
    }
    r := Success(WeatherReport(report, if detailed then Some(w) else None));
  }
}
