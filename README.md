# Weather-bot forecast interpreter in Dafny

This project models the forecast-interpretation core of a Telegram weather bot. The bot takes a
city name from a chat message and strips punctuation from both ends. It then fetches an
OpenWeatherMap five-day/three-hour forecast and turns the decoded JSON into a reply:

- current conditions: emoji, description, rounded temperature, compass wind direction, wind speed;
- today's minimum temperature and minimum feels-like temperature;
- a precipitation (umbrella) flag;
- an outfit chosen from the feels-like minimum.

Modules:

- `Wrappers`: `Option` and `Result`.
- `Rounding`: Python's `round()` on one number, i.e. round half to even (`RoundHalfEven`).
- `Compass`: `calc_wind_direction`, which indexes a counter-clockwise list of nine points.
- `Wardrobe`: `get_outfit`, a chain of 17 temperature bands, plus a table form of it (breakpoints and pairs).
- `Cleaning`: the `str.strip` with a fixed character set that cleans the message text.
- `Payload`: the decoded forecast. Every key the code reads may be absent from the JSON, so each is an `Option`.
- `Interpreter`: `parse_forecast`.
  - `Parse` is the functional specification; its loop is the recursive `ScanDay`.
  - `ParseForecast` is the imperative method with the code's loop. It is proved equal to `Parse`.
  - The result is an `Outcome`: a returned `Option<Summary>` (`None` for a `LookupError` caught by the `try`), or an exception that escapes.
- `InterpreterProperties`: what `parse_forecast` promises, proved about `Parse`.
- `ParisScenario`: a worked example with eight same-day windows.

The local day of an entry is `datetime.fromtimestamp(dt - utc_offset).day`. Its value depends on
the host's time zone. It is a parameter `dayOf: int -> int`, so every property holds for any
day function. Temperatures are `real`. The code's comparison is kept as written: the unrounded
reading is compared with the rounded running minimum, and the rounded reading is stored.
`StepIsMin` proves that this is the same as `min(m, round(f))`, because rounding is monotone.

Points of the code that are easy to misread, modelled as written:

- The 0..5 band gives `('leather jacket', 'chelsea')`, not "chelsea boots".
- Only the space is stripped as whitespace. Tabs and newlines are kept.
- The temperature minimum is seeded from entry 0's `temp_min`, but it is lowered by the entries' `temp`.
- A missing `city`, `timezone`, `list`, empty list or missing `list[0].dt` raises `LookupError`. These reads come before the `try`, so they do not give `None`.
- A bearing outside [0, 360] raises `AssertionError`, which the `try` does not catch.

## Model

| member | source | states |
|---|---|---|
| `Rounding.RoundHalfEven` | main.py:105-106 | `round(x)` is an integer within 1/2 of x, and on a tie it is the even one |
| `Rounding.RoundMonotone` | main.py:111-115 | rounding preserves order: the property of rounding that makes the running-minimum update equal to a minimum (used by `StepIsMin`) |
| `Compass.DirectionIndex` | main.py:155-158 | for an integral bearing in [0, 360], `deg / 45` is never halfway between two integers, and `round(deg / 45)` equals `(2*deg + 45) / 90` and lies in [0, 8] |
| `Compass.WindDirection` | main.py:151-158 | under the assertion `0 <= deg <= 360`, the result is one of the eight points: the list entry at the rounded index |
| `Compass.CounterClockwise` | main.py:157-158 | the list is the clockwise rose reversed: the point for deg is the standard compass's point for 360 - deg |
| `Compass.WindDirectionExamples` | main.py:157-158 | 0 and 360 give N; 45 gives NW, 90 W, 180 S, 270 E |
| `Wardrobe.GetOutfit` | main.py:161-198 | the chain of comparisons; specified by `OutfitMatchesTable`, `OutfitInBand` and `OutfitBoundaries` |
| `Wardrobe.Band` | main.py:165-198 | every integer lies in a band of the 17-band table: total |
| `Wardrobe.BandUnique` | main.py:165-198 | the bands are disjoint: a temperature lies in exactly one |
| `Wardrobe.OutfitInBand` | main.py:165-198 | a temperature in band k (upper bound included, lower bound excluded) gets band k's pair |
| `Wardrobe.OutfitMatchesTable` | main.py:161-198 | the chain of comparisons equals the lookup of the temperature's band in the table |
| `Wardrobe.OutfitBoundaries` | main.py:165-198 | 41 gives paranja/cap, 40 swimsuit/swimming mask, 5 leather jacket/chelsea, 0 cloak/gloves, 7 windbreaker/jeans, -35 thermal underwear/ski suit |
| `Cleaning.LeadingRun` | main.py:34 | the length of the longest prefix made of stripped characters |
| `Cleaning.TrailingRun` | main.py:34 | the length of the longest suffix made of stripped characters |
| `Cleaning.Strip` | main.py:34 | the result is a contiguous slice of the input; everything cut off is made of stripped characters; it neither starts nor ends with one |
| `Cleaning.StripIdempotent` | main.py:34 | stripping the stripped text changes nothing |
| `Cleaning.CleanCity` | main.py:34 | the cleaned city is no longer than the message, has no stripped character at either end, and is empty exactly when the message holds only stripped characters |
| `Interpreter.IsPrecipitation` | main.py:118-120 | `id // 100` in [2, 5] holds exactly for ids 200..599 |
| `Interpreter.TodayPrefix` | main.py:109-124 | the entries the loop treats as today's form the longest prefix whose local day equals entry 0's; the entry after it is not today's |
| `Interpreter.FirstEight` | main.py:109 | `list[:8]` is the prefix of length min(8, len) |
| `Interpreter.HeaderPresent` | main.py:80-81 | the lookups made before the `try`; `ParseOutcomes` states that `LookupError` escapes exactly when one fails |
| `Interpreter.Window` | main.py:80-83 | utc_offset is the city's timezone, and today is the day-of-month of entry 0's `dt - utc_offset`, so entry 0 always belongs to today |
| `Interpreter.DayWindow.Covers` | main.py:110 | the loop's test: the entry has a `dt` and `dayOf(dt - utc_offset)` equals today; specified through `TodayPrefix`, `ScanDayStopsAtNewDay` and `ParseIgnoresEntriesAfterNewDay` |
| `Interpreter.CurrentConditions` | main.py:94-101 | `AssertionError` exactly when name, country, temperature, speed and bearing are present and the bearing is outside [0, 360]. Success exactly when, in addition, weather[0] has a description and a category with an emoji. Then entry 0 supplies name, country, rounded temperature, compass point, speed, description and emoji |
| `Interpreter.Seed` | main.py:104-106 | the running state exists exactly when entry 0 has temp_min and feels_like; it starts at their roundings with no precipitation |
| `Interpreter.ReadingOf` | main.py:111-118 | an entry's feels_like, temp and weather[0].id, present exactly when all three are |
| `Interpreter.Step` | main.py:111-121 | one pass of the loop body; specified by `StepIsMin` |
| `Interpreter.ScanDay` | main.py:109-124 | the loop as a recursion; specified by `ScanDaySucceeds`, `ScanDayMinFeels`, `ScanDayMinTemp`, `ScanDayPrecipitation` and `ScanDayStopsAtNewDay` |
| `Interpreter.Parse` | main.py:76-148 | `parse_forecast` as a function; specified by `ParseOutcomes`, `ParseSummary`, `ParseIgnoresEntriesPastEight` and `ParseIgnoresEntriesAfterNewDay`, and equal to the method `ParseForecast` |
| `Interpreter.ParseForecast` | main.py:76-148 | the method, with its early returns, `break` and running variables, gives the same outcome as `Parse` |
| `InterpreterProperties.StepIsMin` | main.py:111-121 | one loop step lowers each minimum exactly to min(m, round(reading)) and ORs in the precipitation test |
| `InterpreterProperties.ScanDaySucceeds` | main.py:109-124 | the scan gives no `None` exactly when every today entry has feels_like, temp and weather[0].id, and the entry that ends the day has a dt |
| `InterpreterProperties.ScanDayMinFeels` | main.py:111-112 | the feels-like minimum never rises above its start. It is at most the rounded feels-like of every today entry, and equals the start or one of them |
| `InterpreterProperties.ScanDayMinTemp` | main.py:114-115 | the same for the temperature minimum and the entries' temp |
| `InterpreterProperties.ScanDayPrecipitation` | main.py:117-121 | the flag ends up set exactly when it started set or some today entry has a precipitation code |
| `InterpreterProperties.ScanDayStopsAtNewDay` | main.py:123-124 | after an entry of another day, appended entries do not change the scan |
| `InterpreterProperties.FirstEntryScanned` | main.py:81-83 | entry 0 is always treated as today's, and at most 8 entries are |
| `InterpreterProperties.ParseSummary` | main.py:94-145 | a returned summary's minima are at most their seeds (round of feels_like and of temp_min) and at most every today entry's rounded reading. Each minimum equals its seed or one of those readings. Precipitation holds iff a today entry has a precipitation code. The outfit is `get_outfit` of the feels-like minimum. The current conditions come from entry 0: name, country, rounded temperature, compass point of the bearing, wind speed, description and emoji |
| `InterpreterProperties.ParseOutcomes` | main.py:80-148 | `LookupError` escapes iff a lookup before the `try` fails. `AssertionError` escapes iff the bearing is out of range. A summary is returned iff every field read in the `try` is present and the category has an emoji; otherwise `None`, never a partial summary |
| `InterpreterProperties.UnknownCategoryIsNone` | main.py:84-101 | a category outside the seven emoji keys (e.g. Mist) gives `None` |
| `InterpreterProperties.ParseIgnoresEntriesPastEight` | main.py:109 | entries after the eighth never change the outcome |
| `InterpreterProperties.ParseIgnoresEntriesAfterNewDay` | main.py:109-124 | once one of the first eight entries lies on another day than entry 0, entries after it never change the outcome, even within the first eight |
| `InterpreterProperties.PrecipitationCodes` | main.py:118-120 | ids 500 and 200 set the flag, 800 does not |
| `ParisScenario.ParisSummary` | main.py:76-148 | Paris example with eight same-day windows and a rising feels-like: temperature 10, wind W, no precipitation, minima 8 and 7, windbreaker and jeans |

## Left out

- `request_forecast` (main.py:56-73): the aiohttp call to OpenWeatherMap, the `cod == '200'` test and the mapping of network or lookup errors to `None`. This is network I/O.
- The aiogram handlers, dispatcher and reply formatting (main.py:17-49, 201-204) and messages.py. These are chat transport and string templates. The line-34 strip is modelled on its own.
- The real calendar conversion of `datetime.fromtimestamp(...).day`, which depends on the host's time zone. It is the parameter `dayOf`, a total function. The model does not capture the OverflowError, OSError or ValueError that `fromtimestamp` raises for timestamps outside the platform's range (main.py:83 and main.py:110). The `try` does not catch these, so they would escape.
- `round(speed, ndigits=1)` (main.py:98): binary floating-point rounding to one decimal. The wind speed is passed through as read.
- Temperatures are exact reals, not IEEE doubles. JSON values of the wrong type (e.g. `null`, which would raise `TypeError`) are not modelled. Each field is either present with its type or absent.
- Logging calls (main.py:66, 70, 73, 122, 148).
