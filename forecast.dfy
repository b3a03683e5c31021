/** `get_weather_forecast`: a mock forecast derived from a city's current
    temperature by a fixed per-day schedule. */
module Forecast {
  import opened Text
  import opened Tables
  import opened Catalog
  import opened Responses

  /** `forecast_conditions`; day `i` uses entry `i % 5`. */
  const ForecastConditions: seq<string> := ["sunny", "partly cloudy", "cloudy", "rainy", "thunderstorms"]

  /** `temp_variation` of day index `i`: -2, -1, 0, then -2, -3, -4, -5. */
  function Variation(i: nat): int {
    if i < 3 then -2 + i else 1 - i
  }

  /** `int(temp_c * 9/5 + 32)`. The exact value is (9c + 160) / 5; Python's
      `int` truncates toward zero, which differs from Dafny's `/` below zero. */
  function Fahrenheit(c: int): (f: int)
    ensures 9 * c + 160 >= 0 ==> 5 * f <= 9 * c + 160 < 5 * f + 5
    ensures 9 * c + 160 < 0 ==> 5 * f - 5 < 9 * c + 160 <= 5 * f
  {
    var n := 9 * c + 160;
    if n >= 0 then n / 5 else -((-n) / 5)
  }

  /** Truncation, not rounding and not flooring: 26 C gives 78 F (78.8), and -18 C gives 0 F (-0.4). */
  lemma FahrenheitTruncates()
    ensures Fahrenheit(26) == 78 && Fahrenheit(-18) == 0 && Fahrenheit(-40) == -40
  {
  }

  /** One `📆 <date>: <condition>, <c>°C (<f>°F)` line; `date` is a day number. */
  datatype ForecastLine = ForecastLine(date: int, condition: string, celsius: int, fahrenheit: int)

  /** The success record: the report header's day count and city, the day lines, and `forecast_days`. */
  datatype ForecastReport = ForecastReport(headerDays: int, headerCity: string, lines: seq<ForecastLine>, forecastDays: int)

  /** The day schedule never rises above the base temperature; it reaches it on day index 2 only. */
  lemma {:induction false} VariationPeak(i: nat)
    ensures Variation(i) <= 0
    ensures Variation(i) == 0 <==> i == 2
    ensures i < 7 ==> Variation(i) >= -5
  {
  }

  /** `get_weather_forecast(city, days)` over the weather table `wdb`; `today`
      is the day number of `datetime.date.today()`. */
  method GetWeatherForecast(wdb: seq<(string, Weather)>, city: string, days: int, today: int)
    returns (r: Result<ForecastReport>)
    ensures Normalize(city) !in Keys(wdb) ==> r == Error(ForecastNotAvailable(city))
    ensures Normalize(city) in Keys(wdb) && (days < 1 || days > 7) ==> r == Error(ForecastDaysOutOfRange)
    ensures r.Success? <==> Normalize(city) in Keys(wdb) && 1 <= days <= 7
    ensures r.Success? ==>
      var base := Lookup(wdb, Normalize(city)).value.temperatureC;
      var f := r.value;
      && f.forecastDays == days && f.headerDays == days && f.headerCity == city
      && |f.lines| == days
      && (forall i :: 0 <= i < days ==>
            && f.lines[i].date == today + i + 1
            && f.lines[i].condition == ForecastConditions[i % 5]
            && f.lines[i].celsius == base + Variation(i)
            && f.lines[i].fahrenheit == Fahrenheit(f.lines[i].celsius))
      && (forall i :: 0 <= i < days ==> base - 5 <= f.lines[i].celsius <= base)
      && (forall i :: 0 <= i < days ==> (f.lines[i].celsius == base <==> i == 2))
      && (forall i :: 0 <= i && i + 5 < days ==> f.lines[i].condition == f.lines[i + 5].condition)
  {
    var found := Lookup(wdb, Normalize(city));
    if found.None? {
      return Error(ForecastNotAvailable(city));
    }
    if days < 1 || days > 7 {
      return Error(ForecastDaysOutOfRange);
    }
    var base := found.value.temperatureC;
    var lines: seq<ForecastLine> := [];
    for i := 0 to days
      invariant |lines| == i
      invariant forall k :: 0 <= k < i ==>
        && lines[k].date == today + k + 1
        && lines[k].condition == ForecastConditions[k % 5]
        && lines[k].celsius == base + Variation(k)
        && lines[k].fahrenheit == Fahrenheit(lines[k].celsius)
    {
      var celsius := base + Variation(i);
      lines := lines + [ForecastLine(today + i + 1, ForecastConditions[i % |ForecastConditions|], celsius, Fahrenheit(celsius))];
    }
    forall i | 0 <= i < days
      ensures base - 5 <= lines[i].celsius <= base
      ensures lines[i].celsius == base <==> i == 2
    {
      VariationPeak(i);
    }
    forall i | 0 <= i && i + 5 < days
      ensures lines[i].condition == lines[i + 5].condition
    {
      assert (i + 5) % 5 == i % 5;
    }
    r := Success(ForecastReport(days, city, lines, days));
  }
}
