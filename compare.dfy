/** `compare_cities`: the `"weather"` comparison and the fallback for every
    comparison type other than `"weather"` and `"time"`. The function as the
    source writes it is `CompareCitiesAsWritten`; `CompareCities` is the same
    function with its two defects corrected (see the findings in README.md). */
module Compare {
  import opened Text
  import opened Tables
  import opened Catalog
  import opened Responses
  import opened CityTools

  function Abs(x: int): nat {
    if x < 0 then -x else x
  }

  datatype Side = First | Second

  /** "warmer"/"higher" is `More`, "cooler"/"lower" is `Less`. */
  datatype Direction = More | Less

  /** The parenthesis after a difference: "(<direction> in <city>)". */
  datatype Claim = Claim(direction: Direction, side: Side)

  /** What a claim asserts about the two cities' values `v1` and `v2`: the named
      city's value is above (`More`) or below (`Less`) the other city's. */
  predicate ClaimHolds(c: Claim, v1: int, v2: int) {
    var mine := if c.side == First then v1 else v2;
    var other := if c.side == First then v2 else v1;
    if c.direction == More then mine > other else mine < other
  }

  /** The source's parenthesis: word and city are both chosen by `v1 - v2 > 0`. */
  function ClaimAsWritten(v1: int, v2: int): Claim {
    if v1 - v2 > 0 then Claim(More, First) else Claim(Less, Second)
  }

  /** The corrected parenthesis: the word is chosen by the sign, and it is said of city1. */
  function ClaimCorrected(v1: int, v2: int): Claim {
    if v1 - v2 > 0 then Claim(More, First) else Claim(Less, First)
  }

  /** The source's claim names city1 exactly when `v1 > v2`, and it is true exactly then. */
  lemma ClaimAsWrittenMeaning(v1: int, v2: int)
    ensures ClaimAsWritten(v1, v2).side == First <==> v1 > v2
    ensures ClaimHolds(ClaimAsWritten(v1, v2), v1, v2) <==> v1 > v2
  {
  }

  /** The corrected claim is true whenever the values differ. */
  lemma ClaimCorrectedMeaning(v1: int, v2: int)
    ensures ClaimHolds(ClaimCorrected(v1, v2), v1, v2) <==> v1 != v2
  {
  }

  /** The success report: each city's temperature and condition, then the two differences. */
  datatype Comparison = Comparison(
    city1: string, city2: string,
    celsius1: int, condition1: string,
    celsius2: int, condition2: string,
    temperatureDiff: nat, temperatureClaim: Claim,
    humidityDiff: nat, humidityClaim: Claim)

  function ComparisonOf(city1: string, city2: string, w1: Weather, w2: Weather, t: Claim, h: Claim): Comparison {
    Comparison(city1, city2, w1.temperatureC, w1.condition, w2.temperatureC, w2.condition,
      Abs(w1.temperatureC - w2.temperatureC), t, Abs(w1.humidity - w2.humidity), h)
  }

  /** A Python call that either returns or raises `KeyError(key)`. */
  datatype Outcome<T> = Returned(value: T) | RaisedKeyError(key: string)

  /** The final `else` branch: any type other than "weather" and "time" is reported as an error. */
  function OtherComparison(cdb: seq<(string, CityInfo)>, city1: string, city2: string): (r: Result<Comparison>)
    ensures r.Error?
    ensures r.message == InvalidComparisonType <==>
      Normalize(city1) in Keys(cdb) && Normalize(city2) in Keys(cdb)
    ensures r.message != InvalidComparisonType ==> r.message == CityInfoMissingForComparison(city1, city2)
  {
    if GetCityInfo(cdb, city1).Error? || GetCityInfo(cdb, city2).Error? then
      Error(CityInfoMissingForComparison(city1, city2))
    else
      Error(InvalidComparisonType)
  }

  /** `compare_cities(city1, city2, comparison_type)` as written: the status test
      uses the normalised names (through `get_weather`), but the table is then
      indexed with `city.lower()` only, and the parentheses use `ClaimAsWritten`. */
  function CompareCitiesAsWritten(wdb: seq<(string, Weather)>, cdb: seq<(string, CityInfo)>,
                                  city1: string, city2: string, comparisonType: string): (r: Outcome<Result<Comparison>>)
    requires comparisonType != "time"
    ensures comparisonType != "weather" ==> r.Returned? && r.value.Error?
    ensures comparisonType == "weather" && (Normalize(city1) !in Keys(wdb) || Normalize(city2) !in Keys(wdb)) ==>
      r == Returned(Error(WeatherMissingForComparison))
    ensures r.RaisedKeyError? <==>
      && comparisonType == "weather"
      && Normalize(city1) in Keys(wdb) && Normalize(city2) in Keys(wdb)
      && (Lower(city1) !in Keys(wdb) || Lower(city2) !in Keys(wdb))
    ensures r.RaisedKeyError? ==>
      r.key == if Lower(city1) !in Keys(wdb) then Lower(city1) else Lower(city2)
  {
    if comparisonType == "weather" then
      var ok1 := Normalize(city1) in Keys(wdb);  // get_weather(city1)["status"] == "success"
      var ok2 := Normalize(city2) in Keys(wdb);
      if !ok1 || !ok2 then
        // The inner test repeats the outer one, so its else branch is never taken.
        if Normalize(city1) !in Keys(wdb) || Normalize(city2) !in Keys(wdb) then
          Returned(Error(WeatherMissingForComparison))
        else
          Returned(Error(CannotCompareWeather))
      else
        match Lookup(wdb, Lower(city1))
        case None => RaisedKeyError(Lower(city1))
        case Some(w1) =>
          match Lookup(wdb, Lower(city2))
          case None => RaisedKeyError(Lower(city2))
          case Some(w2) =>
            Returned(Success(ComparisonOf(city1, city2, w1, w2,
              ClaimAsWritten(w1.temperatureC, w2.temperatureC), ClaimAsWritten(w1.humidity, w2.humidity))))
    else
      Returned(OtherComparison(cdb, city1, city2))
  }

  /** When both names pass the status test and `lower()` alone finds them, the
      source reports both cities with their temperatures and conditions, the
      absolute differences, and parentheses whose word and city are both chosen
      by the sign of the difference; such a parenthesis is true exactly when
      city1's value is the larger, so it is false whenever city2's is. */
  lemma AsWrittenWeatherReport(wdb: seq<(string, Weather)>, cdb: seq<(string, CityInfo)>, city1: string, city2: string)
    requires Normalize(city1) in Keys(wdb) && Normalize(city2) in Keys(wdb)
    requires Lower(city1) in Keys(wdb) && Lower(city2) in Keys(wdb)
    ensures CompareCitiesAsWritten(wdb, cdb, city1, city2, "weather").Returned?
    ensures CompareCitiesAsWritten(wdb, cdb, city1, city2, "weather").value.Success?
    ensures
      && var w1, w2 := Lookup(wdb, Lower(city1)).value, Lookup(wdb, Lower(city2)).value;
      && var c := CompareCitiesAsWritten(wdb, cdb, city1, city2, "weather").value.value;
      && c.city1 == city1 && c.city2 == city2
      && c.celsius1 == w1.temperatureC && c.condition1 == w1.condition
      && c.celsius2 == w2.temperatureC && c.condition2 == w2.condition
      && c.temperatureDiff == Abs(w1.temperatureC - w2.temperatureC)
      && c.humidityDiff == Abs(w1.humidity - w2.humidity)
      && c.temperatureClaim == ClaimAsWritten(w1.temperatureC, w2.temperatureC)
      && c.humidityClaim == ClaimAsWritten(w1.humidity, w2.humidity)
      && (c.temperatureClaim.side == First <==> w1.temperatureC > w2.temperatureC)
      && (c.humidityClaim.side == First <==> w1.humidity > w2.humidity)
      && (ClaimHolds(c.temperatureClaim, w1.temperatureC, w2.temperatureC) <==> w1.temperatureC > w2.temperatureC)
      && (ClaimHolds(c.humidityClaim, w1.humidity, w2.humidity) <==> w1.humidity > w2.humidity)
  {
    var w1, w2 := Lookup(wdb, Lower(city1)).value, Lookup(wdb, Lower(city2)).value;
    ClaimAsWrittenMeaning(w1.temperatureC, w2.temperatureC);
    ClaimAsWrittenMeaning(w1.humidity, w2.humidity);
  }

  /** `compare_cities` with the table indexed by the normalised names and the
      parentheses stated of city1. */
  function CompareCities(wdb: seq<(string, Weather)>, cdb: seq<(string, CityInfo)>,
                         city1: string, city2: string, comparisonType: string): (r: Result<Comparison>)
    requires comparisonType != "time"
    ensures r.Success? <==>
      comparisonType == "weather" && Normalize(city1) in Keys(wdb) && Normalize(city2) in Keys(wdb)
    ensures comparisonType == "weather" && r.Error? ==> r.message == WeatherMissingForComparison
    ensures comparisonType != "weather" ==> r.Error? && r.message != WeatherMissingForComparison
  {
    if comparisonType == "weather" then
      match (Lookup(wdb, Normalize(city1)), Lookup(wdb, Normalize(city2)))
      case (Some(w1), Some(w2)) =>
        Success(ComparisonOf(city1, city2, w1, w2,
          ClaimCorrected(w1.temperatureC, w2.temperatureC), ClaimCorrected(w1.humidity, w2.humidity)))
      case _ => Error(WeatherMissingForComparison)
    else
      OtherComparison(cdb, city1, city2)
  }

  /** The corrected comparison reports the absolute differences, and each
      parenthesis is true whenever the difference is not zero. */
  lemma CompareCitiesReport(wdb: seq<(string, Weather)>, cdb: seq<(string, CityInfo)>, city1: string, city2: string)
    requires Normalize(city1) in Keys(wdb) && Normalize(city2) in Keys(wdb)
    ensures CompareCities(wdb, cdb, city1, city2, "weather").Success?
    ensures
      && var w1, w2 := Lookup(wdb, Normalize(city1)).value, Lookup(wdb, Normalize(city2)).value;
      && var c := CompareCities(wdb, cdb, city1, city2, "weather").value;
      && c.celsius1 == w1.temperatureC && c.celsius2 == w2.temperatureC
      && c.temperatureDiff == Abs(w1.temperatureC - w2.temperatureC)
      && c.humidityDiff == Abs(w1.humidity - w2.humidity)
      && (c.temperatureDiff != 0 ==> ClaimHolds(c.temperatureClaim, w1.temperatureC, w2.temperatureC))
      && (c.humidityDiff != 0 ==> ClaimHolds(c.humidityClaim, w1.humidity, w2.humidity))
  {
    var w1, w2 := Lookup(wdb, Normalize(city1)).value, Lookup(wdb, Normalize(city2)).value;
    ClaimCorrectedMeaning(w1.temperatureC, w2.temperatureC);
    ClaimCorrectedMeaning(w1.humidity, w2.humidity);
  }

  /** On names that `lower()` already leaves trimmed, the two versions agree on
      everything but the parentheses. */
  lemma AsWrittenAgreesOnTrimmedNames(wdb: seq<(string, Weather)>, cdb: seq<(string, CityInfo)>,
                                      city1: string, city2: string, comparisonType: string)
    requires comparisonType != "time"
    requires Trimmed(Lower(city1)) && Trimmed(Lower(city2))
    ensures CompareCitiesAsWritten(wdb, cdb, city1, city2, comparisonType).Returned?
    ensures CompareCitiesAsWritten(wdb, cdb, city1, city2, comparisonType).value.Success?
        == CompareCities(wdb, cdb, city1, city2, comparisonType).Success?
    ensures CompareCities(wdb, cdb, city1, city2, comparisonType).Success? ==>
      var a, c := CompareCitiesAsWritten(wdb, cdb, city1, city2, comparisonType).value.value,
                  CompareCities(wdb, cdb, city1, city2, comparisonType).value;
      a.(temperatureClaim := c.temperatureClaim, humidityClaim := c.humidityClaim) == c
    ensures CompareCities(wdb, cdb, city1, city2, comparisonType).Error? ==>
      CompareCitiesAsWritten(wdb, cdb, city1, city2, comparisonType)
        == Returned(CompareCities(wdb, cdb, city1, city2, comparisonType))
  {
    StripOfTrimmed(Lower(city1));
    StripOfTrimmed(Lower(city2));
  }

  lemma NormalizeLeftPaddedLondon()
    ensures Lower(" London") == " london"
    ensures Normalize(" London") == "london"
  {
    LowerAt(" London");
    assert Lower(" London") == " london";
    assert " london"[1..] == "london";
    assert TrimStart(" london") == "london";
    assert TrimEnd("london") == "london";
  }

  lemma NormalizeParis()
    ensures Lower("Paris") == "paris"
    ensures Normalize("Paris") == "paris"
  {
    LowerAt("Paris");
    assert Lower("Paris") == "paris";
    assert NormalForm("paris");
    NormalFormFixed("paris");
  }

  /** Finding: `compare_cities(" London", "Paris")` passes the status test and then raises `KeyError(' london')`. */
  lemma PaddedNameRaisesKeyError()
    ensures CompareCitiesAsWritten(WeatherData, CityDatabase, " London", "Paris", "weather") == RaisedKeyError(" london")
    ensures CompareCities(WeatherData, CityDatabase, " London", "Paris", "weather").Success?
  {
    NormalizeLeftPaddedLondon();
    NormalizeParis();
    WeatherKeys();
  }

  lemma ParisLondonLookups()
    ensures Lower("paris") == "paris" && Normalize("paris") == "paris"
    ensures Lower("london") == "london" && Normalize("london") == "london"
    ensures Lookup(WeatherData, "paris") == Some(WeatherData[4].1)
    ensures Lookup(WeatherData, "london") == Some(WeatherData[1].1)
  {
    LowerAt("paris");
    LowerAt("london");
    assert Lower("paris") == "paris" && Lower("london") == "london";
    assert NormalForm("paris") && NormalForm("london");
    NormalFormFixed("paris");
    NormalFormFixed("london");
    WeatherDataWellFormed();
    LookupEntry(WeatherData, 4);
    LookupEntry(WeatherData, 1);
  }

  /** Finding: comparing Paris (16 C) with London (18 C) reports "cooler in London", which is false. */
  lemma ParisLondonClaimIsWrong()
    ensures CompareCitiesAsWritten(WeatherData, CityDatabase, "paris", "london", "weather").Returned?
    ensures CompareCitiesAsWritten(WeatherData, CityDatabase, "paris", "london", "weather").value.Success?
    ensures var c := CompareCitiesAsWritten(WeatherData, CityDatabase, "paris", "london", "weather").value.value;
      c.temperatureClaim == Claim(Less, Second) && !ClaimHolds(c.temperatureClaim, c.celsius1, c.celsius2)
  {
    ParisLondonLookups();
    var paris, london := WeatherData[4].1, WeatherData[1].1;
    assert paris.temperatureC == 16 && london.temperatureC == 18;
    assert "paris" in Keys(WeatherData) && "london" in Keys(WeatherData);
    AsWrittenWeatherReport(WeatherData, CityDatabase, "paris", "london");
  }

  /** For the same two cities the corrected claim, "cooler in Paris", is true. */
  lemma ParisLondonClaimCorrected()
    ensures CompareCities(WeatherData, CityDatabase, "paris", "london", "weather").Success?
    ensures var c := CompareCities(WeatherData, CityDatabase, "paris", "london", "weather").value;
      c.temperatureClaim == Claim(Less, First) && ClaimHolds(c.temperatureClaim, c.celsius1, c.celsius2)
  {
    ParisLondonLookups();
    var paris, london := WeatherData[4].1, WeatherData[1].1;
    assert paris.temperatureC == 16 && london.temperatureC == 18;
    assert "paris" in Keys(WeatherData) && "london" in Keys(WeatherData);
  }
}
