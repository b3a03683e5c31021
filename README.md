# City agent tools: a verified model of the deterministic layer

The repository wires a conversational agent to a handful of Python tool
functions in `multi_tool_agent/agent.py`. Most of that file is agent glue.
This project models its deterministic part. That part works over two fixed
in-memory tables: the city catalog `CITY_DATABASE` and the mock weather table
`WEATHER_DATA`. The tools modelled are:

- `get_city_info` and `get_weather`: they normalise the name with
  `lower().strip()`, look it up as an exact key, and return a success record or
  an error record. They never raise.
- `search_cities_in_database`: a linear filter over the catalog. It keeps, in
  insertion order, every entry whose name, country or key contains the
  normalised query. An empty result is reported as an error.
- `get_weather_forecast`: checks the city, then checks that the day count is in
  1..7, then emits one line per day from a fixed temperature schedule and a
  condition that cycles with period 5.
- `compare_cities`: its `"weather"` branch, and the final branch taken by every
  comparison type other than `"weather"` and `"time"`.

Modules, one per component:

| file | module | models |
|---|---|---|
| text.dfy | `Text` | `str.lower()` on ASCII, `str.strip()`, `lstrip`, `rstrip`, the `in` substring test |
| tables.dfy | `Tables` | a dictionary as a sequence of (key, value) entries in insertion order, and its lookup |
| catalog.dfy | `Catalog` | `CityInfo`, a weather record, an alert, and the two tables as constants |
| responses.dfy | `Responses` | the success/error dictionaries as `Result`, and one constructor per error message |
| city_tools.dfy | `CityTools` | `get_city_info`, `get_weather` |
| forecast.dfy | `Forecast` | `get_weather_forecast` |
| search.dfy | `Search` | `search_cities_in_database` |
| compare.dfy | `Compare` | `compare_cities` (weather and fallback branches) |

Design choices:

- The Python functions read module-level tables. Here every operation takes its
  table as a parameter (`db`, `wdb`). `Catalog.CityDatabase` and
  `Catalog.WeatherData` hold the source's table contents. Lemmas about those
  two constants show what the tools do on the real data.
- A dictionary is a `seq<(string, V)>`, so insertion order is kept. The
  predicate `Tables.WellFormed` says the keys are unique and already
  normalised, which is true of both source tables.
- Report strings are modelled as sequences of line datatypes. The model keeps
  which lines appear, in which order, and which values each line shows. It does
  not model the characters of each line.
- Error dictionaries are `Responses.Error(message)`. Each message constructor
  carries the values the source text interpolates.
- `get_weather`, `search_cities_in_database` and `get_weather_forecast` build
  their results in loops, so they are methods with loop invariants.
  `get_city_info` and `compare_cities` are expression-only, so they are
  functions. Functions cannot call methods, so `compare_cities` tests
  `get_weather`'s status as `Normalize(city) in Keys(wdb)`. The postcondition
  of `CityTools.GetWeather` proves that this is exactly its success condition.
- `datetime.date.today()` becomes the parameter `today`, a day number. Day `i`
  of a forecast is dated `today + i + 1`.

When nothing matches, the search returns an error record, not an empty list
(agent.py:412-416). Great-circle distance and time-zone offsets are left out
(see below).

## Model

| member | source | states |
|---|---|---|
| `Text.LowerAt` | multi_tool_agent/agent.py:124 | `lower()` keeps the length and maps each character on its own: ASCII capitals to small letters, everything else unchanged |
| `Text.TrimStartShape` | multi_tool_agent/agent.py:124 | `lstrip()` yields the longest suffix not starting with whitespace; everything removed is whitespace |
| `Text.TrimEndShape` | multi_tool_agent/agent.py:124 | `rstrip()` yields the longest prefix not ending with whitespace; everything removed is whitespace |
| `Text.StripShape` | multi_tool_agent/agent.py:124 | `strip()` returns a slice of the input with no whitespace at either end, and only whitespace outside it |
| `Text.StripOfTrimmed` | multi_tool_agent/agent.py:124 | stripping a string with no whitespace at either end leaves it unchanged |
| `Text.NormalizeShape` | multi_tool_agent/agent.py:219 | `lower().strip()` produces text with no capital letter and no surrounding whitespace |
| `Text.NormalizeIdempotent` | multi_tool_agent/agent.py:219 | normalising twice gives the same result as normalising once |
| `Text.NormalFormFixed` | multi_tool_agent/agent.py:32-73 | a key in normal form (lower case, trimmed) normalises to itself |
| `Text.NormalFormIff` | multi_tool_agent/agent.py:32-73 | a string is in normal form exactly when `lower().strip()` leaves it unchanged (both directions) |
| `Text.ContainsIff` | multi_tool_agent/agent.py:392-394 | the recursive substring test agrees with "the needle occurs at some offset", in both directions |
| `Text.OccursShift` | multi_tool_agent/agent.py:392-394 | an occurrence in a string's tail at offset `i` is exactly an occurrence in the whole string at offset `i + 1` |
| `Text.ContainsEmpty` | multi_tool_agent/agent.py:392-394 | the empty string is contained in every string, as with Python's `in` |
| `Tables.Keys` | multi_tool_agent/agent.py:158 | the key list keeps the table's length and order, position by position |
| `Tables.Lookup` | multi_tool_agent/agent.py:126-127 | a lookup succeeds exactly when the key is in the table, and then returns a value stored under that key |
| `Tables.LookupEntry` | multi_tool_agent/agent.py:221-228 | when keys are unique, looking up an entry's key returns that entry's value |
| `Catalog.CityKeys` | multi_tool_agent/agent.py:32-73 | the catalog's keys, in insertion order |
| `Catalog.WeatherKeys` | multi_tool_agent/agent.py:76-112 | the weather table's keys, in insertion order |
| `Catalog.KeyNamesNormal` | multi_tool_agent/agent.py:32-73 | every literal key of the two tables is lower case and trimmed |
| `Catalog.CityKeysUnique` | multi_tool_agent/agent.py:32-73 | no catalog key appears twice |
| `Catalog.WeatherKeysUnique` | multi_tool_agent/agent.py:76-112 | no weather-table key appears twice |
| `Catalog.CityDatabaseWellFormed` | multi_tool_agent/agent.py:32-73 | the catalog's keys are unique and normalised |
| `Catalog.WeatherDataWellFormed` | multi_tool_agent/agent.py:76-112 | the weather table's keys are unique and normalised |
| `CityTools.GetCityInfo` | multi_tool_agent/agent.py:210-243 | success exactly when the normalised name is a key; then `city_data` is the record under that key and the report is built from it; otherwise an error echoing the raw name with the key list, never an exception |
| `CityTools.GetCityInfoOfEntry` | multi_tool_agent/agent.py:219-228 | in a well-formed catalog, every input that normalises to an entry's key returns that entry's record |
| `CityTools.GetCityInfoNormalizes` | multi_tool_agent/agent.py:219-226 | inputs that normalise to the same key succeed or fail together and give the same success; an error echoes the caller's own input |
| `CityTools.NormalizeLondon` | multi_tool_agent/agent.py:219 | `"london"` normalises to itself |
| `CityTools.NormalizePaddedLondon` | multi_tool_agent/agent.py:219 | `" London "` normalises to `"london"` |
| `CityTools.NormalizeUpperLondon` | multi_tool_agent/agent.py:219 | `"LONDON"` normalises to `"london"` |
| `CityTools.LondonLookups` | multi_tool_agent/agent.py:219-242 | on the real catalog, `" London "`, `"LONDON"` and `"london"` all return the same success, holding the London record |
| `CityTools.GetWeather` | multi_tool_agent/agent.py:114-162 | success exactly when the normalised name is a key. `raw_data` is present exactly when `detailed` is true, and is then the stored record. The report has the 5 basic lines, then the 4 detail lines only when detailed, then an alerts heading and one bullet per alert in list order only when the alert list is non-empty. Otherwise the error names the raw input |
| `Forecast.Fahrenheit` | multi_tool_agent/agent.py:368 | `int(c * 9/5 + 32)`, with the arithmetic taken as exact, is (9c + 160)/5 truncated toward zero: within one unit below the exact value when it is non-negative, and within one unit above it when it is negative |
| `Forecast.FahrenheitTruncates` | multi_tool_agent/agent.py:368 | 26 gives 78 (not 79), -18 gives 0 (not -1) and -40 gives -40 |
| `Forecast.VariationPeak` | multi_tool_agent/agent.py:366 | the daily variation is never positive; it is zero only on day index 2; and it is at least -5 for the first 7 days |
| `Forecast.GetWeatherForecast` | multi_tool_agent/agent.py:334-377 | an unknown city is an error, checked before the day range. A known city with `days` outside 1..7 is an error. On success `forecast_days == days` and there are exactly `days` lines. Day `i` is dated `today + i + 1`, has condition `i % 5` of the condition list, temperature `base + v(i)` and its truncated Fahrenheit value. Every temperature lies in [base - 5, base] and equals the base only on day index 2. The condition repeats every 5 days |
| `Search.MatchIndicesExact` | multi_tool_agent/agent.py:391-394 | the matching positions are strictly increasing and are exactly the positions whose entry's name, country or key contains the query |
| `Search.FilterFollowsIndices` | multi_tool_agent/agent.py:391-399 | the k-th match is the (name, country, population) of the k-th matching entry: contents and order |
| `Search.FilterSound` | multi_tool_agent/agent.py:391-399 | every reported match comes from an entry that matches the query |
| `Search.FilterComplete` | multi_tool_agent/agent.py:391-399 | every matching entry is reported |
| `Search.FilterCount` | multi_tool_agent/agent.py:409-410 | the number of matches equals the number of catalog entries that match |
| `Search.EmptyQueryMatchesAll` | multi_tool_agent/agent.py:388-394 | a query that normalises to the empty string matches every city, in catalog order |
| `Search.SearchByKeyFinds` | multi_tool_agent/agent.py:388-394 | any query that normalises to a catalog key finds that city |
| `Search.SearchCitiesInDatabase` | multi_tool_agent/agent.py:379-416 | success exactly when some entry matches. `matches` is the filtered sub-sequence, and `count` is its length, at least 1. The report is a header with the count and the raw query, then one bullet per match in order. With no match the result is an error, never an empty success |
| `Compare.ClaimAsWrittenMeaning` | multi_tool_agent/agent.py:280-283 | the source's parenthesis names city1 exactly when city1's value is the larger, and its claim is true exactly then |
| `Compare.ClaimCorrectedMeaning` | multi_tool_agent/agent.py:280-283 | the corrected parenthesis is true exactly when the two values differ |
| `Compare.OtherComparison` | multi_tool_agent/agent.py:321-332 | any comparison type other than weather and time ends in an error: "invalid type" exactly when both cities are in the catalog, and "city info missing" otherwise |
| `Compare.CompareCitiesAsWritten` | multi_tool_agent/agent.py:245-286 | other types always give an error. A weather comparison with a city missing gives the "weather data missing" error. It raises `KeyError` exactly when both names pass the normalised test but `lower()` alone does not find one of them. The key it carries is city1's lowered name when that one is missing, and city2's otherwise |
| `Compare.AsWrittenWeatherReport` | multi_tool_agent/agent.py:270-286 | when `lower()` finds both cities, the report gives both city names with their temperatures and conditions, and the absolute temperature and humidity differences. Each parenthesis picks both its word and its city by the sign of the difference: it names city1 exactly when city1's value is the larger, and it is true exactly then. So "cooler in city2" and "lower in city2" are false whenever city2's value is the larger |
| `Compare.CompareCities` | multi_tool_agent/agent.py:245-286 | corrected version: success exactly for a weather comparison of two cities whose normalised names are keys. A failed weather comparison is the "weather data missing" error. Other types are always errors |
| `Compare.CompareCitiesReport` | multi_tool_agent/agent.py:273-284 | corrected version: both temperatures and the absolute differences are reported, and each parenthesis is true whenever its difference is not zero |
| `Compare.AsWrittenAgreesOnTrimmedNames` | multi_tool_agent/agent.py:256-271 | for names that `lower()` leaves trimmed, the source never raises. It succeeds exactly when the corrected version does, and then reports the same values except for the parentheses. When the corrected version is an error, the source returns that same error |
| `Compare.NormalizeLeftPaddedLondon` | multi_tool_agent/agent.py:260-270 | `" London"` lower-cases to `" london"` and normalises to `"london"` |
| `Compare.NormalizeParis` | multi_tool_agent/agent.py:260-270 | `"Paris"` lower-cases and normalises to `"paris"` |
| `Compare.ParisLondonLookups` | multi_tool_agent/agent.py:76-112 | `"paris"` and `"london"` are normal and find their weather records |
| `Compare.PaddedNameRaisesKeyError` | multi_tool_agent/agent.py:256-271 | on the real tables, comparing `" London"` with `"Paris"` raises `KeyError(' london')`, while the corrected version succeeds |
| `Compare.ParisLondonClaimIsWrong` | multi_tool_agent/agent.py:276-281 | on the real tables, comparing Paris (16 °C) with London (18 °C) prints "cooler in London", which is false |
| `Compare.ParisLondonClaimCorrected` | multi_tool_agent/agent.py:276-281 | for the same cities the corrected parenthesis, "cooler in Paris", is true |

## Left out

- `get_current_time`, the `"time"` branch of `compare_cities`, and the time offset in `get_travel_info` (agent.py:164-208, 288-319, 452-458): they depend on the IANA time-zone database, `ZoneInfo`, the clock (`datetime.now`) and `strftime`.
- `Compare.CompareCities`: requires `comparisonType != "time"`, because the time branch is not part of this model.
- `Compare.CompareCitiesAsWritten`: requires `comparisonType != "time"`, for the same reason.
- `get_travel_info` (agent.py:418-474): its haversine distance is floating-point trigonometry. As written, its success path also raises `NameError` at line 461, where it uses the undefined name `dest`.
- The agents, the search tool, the runner, sessions, `call_agent` and the test script (agent.py:476-615): external runtime, network and model calls, and printing.
- The characters of the reports: emoji, `.title()` case conversion, the `:,` thousands separators, and the `.4f`/`.1f` number formats. A report line keeps the raw input string where the source prints `city.title()`.
- The date text of a forecast line: `today` is an opaque day number, and `strftime` is not modelled.
- `Text.LowerAt`: `str.lower()` is modelled on ASCII letters only. Python also lower-cases non-ASCII characters, and the caller's input goes through `lower()` as well as the table text. So an input holding such a character can get a different result from the model. For example, U+212A KELVIN SIGN lower-cases to ASCII `k` in Python, so `get_city_info("New Yor\u212A")` succeeds in the source but is an error in the model. A search for U+212A alone matches Tokyo in the source but nothing in the model. U+0130 lower-cases to two characters, which the model does not model either.
- `str.strip()` removes exactly the characters of Python's `str.isspace()`, written out by code point in `Text.IsSpace`.
- The `WeatherAlert` dataclass (agent.py:14-19) is never used: the alerts in `WEATHER_DATA` are dictionaries. `Catalog.Alert` models those dictionaries.
- `Forecast.Fahrenheit`: treats `temp_c * 9/5 + 32` as exact, but Python computes it in binary floating point before `int()` truncates. The rounding errors stay far below the 0.2 gap between a fifth and the nearest integer while the intermediate values stay below 2^46, so the two agree for every temperature of magnitude below 10^13; the table's temperatures are two-digit numbers. They can differ above that: for c = 10^16 + 1, Python gives 18000000000000034 and the model gives 18000000000000033.
- Coordinates, pressure and the other decimal fields are exact `real` values. They are only stored and shown, never computed with.
- The table's own `temperature_f` values are rounded, while the forecast truncates (Lagos: 26 °C is stored as 79 °F, but forecast day index 2 shows 78 °F). The model keeps both, as written.

## Findings

| source | as written | input that shows it | evidently intended | confidence | as-written member | corrected member |
|---|---|---|---|---|---|---|
| multi_tool_agent/agent.py:270-271 | After checking `city.lower().strip()` through `get_weather`, the code indexes `WEATHER_DATA[city.lower()]` without `strip()` | `compare_cities(" London", "Paris")` raises `KeyError(' london')` instead of returning a record | index the table with the normalised name, as every other tool does | not executed | `Compare.CompareCitiesAsWritten`, shown by `Compare.PaddedNameRaisesKeyError` | `Compare.CompareCities`, proved by `Compare.CompareCitiesReport` |
| multi_tool_agent/agent.py:280-283 | The word ("warmer"/"cooler", "higher"/"lower") and the city are both chosen by `diff > 0`, so a negative difference prints "cooler in city2" although city2 is the warmer city. Humidity has the same fault | `compare_cities("paris", "london")` prints "cooler in London" for 16 °C against 18 °C | say the chosen word of city1 ("cooler in Paris"); naming city2 with the opposite word would fix it equally | not executed | `Compare.CompareCitiesAsWritten`, shown for all inputs by `Compare.AsWrittenWeatherReport` and on the real tables by `Compare.ParisLondonClaimIsWrong` | `Compare.CompareCities`, proved by `Compare.CompareCitiesReport` and `Compare.ParisLondonClaimCorrected` |

Lines 265-268 of the same function are unreachable. The inner test repeats the
outer one, so the "Cannot compare" error never occurs. The model keeps the
branch as written.
