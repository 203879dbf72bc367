/** parse_forecast: the decoded forecast to the summary the bot replies with. */
module Interpreter {
  import opened Wrappers
  import opened Payload
  import opened Rounding
  import opened Compass
  import opened Wardrobe

  /** weather_emodji: weather category to the emoji shown beside the description. */
  const WeatherEmoji: map<string, string> := map[
    "Thunderstorm" := "\U{1F329}",
    "Drizzle" := "\U{1F326}",
    "Rain" := "\U{1F327}",
    "Snow" := "\U{1F328}",
    "Atmosphere" := "\U{2601}\U{FE0F}",
    "Clear" := "\U{2600}\U{FE0F}",
    "Clouds" := "\U{26C5}\U{FE0F}"
  ]

  /** The two exceptions that can leave parse_forecast: a LookupError raised before the try,
      and the AssertionError of calc_wind_direction, which the try does not catch. */
  datatype Exception = LookupError | AssertionError

  /** The first tuple of the result: the conditions of entry 0. The wind speed is kept as
      read (the one-decimal rounding is not modelled). */
  datatype Current = Current(city: string, country: string, emoji: string, description: string,
                             temp: int, windDirection: string, windSpeed: real)

  /** The third tuple of the result: today's minima and the outfit for the feels-like one. */
  datatype Advice = Advice(minTemp: int, minFeels: int, outfit: Outfit)

  datatype Summary = Summary(current: Current, precipitation: bool, advice: Advice)

  /** What a call of parse_forecast does: return a summary, return None, or raise. */
  datatype Outcome = Returned(summary: Option<Summary>) | Raises(error: Exception)

  /** The loop's running state: min_temperature, min_feels_temperature, precipitation. */
  datatype Scan = Scan(minTemp: int, minFeels: int, precipitation: bool)

  /** The three values the loop reads from an entry of today. */
  datatype Reading = Reading(feelsLike: real, temp: real, weatherId: int)

  /** The local day of the first entry, with the host's day-of-month function: an entry belongs
      to today when dayOf(dt - utcOffset) == today. */
  datatype DayWindow = DayWindow(utcOffset: int, today: int, dayOf: int -> int) {
    predicate Covers(e: Entry) {
      e.dt.Some? && dayOf(e.dt.value - utcOffset) == today
    }
  }

  /** weather['id'] // 100 in [2, 5]: thunderstorm, drizzle, rain or snow. The divisor is
      positive, so Dafny's division is Python's floor division here. */
  predicate IsPrecipitation(weatherId: int)
    ensures IsPrecipitation(weatherId) <==> 200 <= weatherId <= 599
  {
    2 <= weatherId / 100 <= 5
  }

  /** f['main']['feels_like'], f['main']['temp'] and f['weather'][0]['id'], or None if one is absent. */
  function ReadingOf(e: Entry): (r: Option<Reading>)
    ensures r.Some? <==> FeelsLike(e).Some? && Temp(e).Some? && FirstWeather(e).Some?
                         && FirstWeather(e).value.id.Some?
    ensures r.Some? ==> r.value.feelsLike == FeelsLike(e).value && r.value.temp == Temp(e).value
                        && r.value.weatherId == FirstWeather(e).value.id.value
  {
    var w := FirstWeather(e);
    if FeelsLike(e).Some? && Temp(e).Some? && w.Some? && w.value.id.Some?
    then Some(Reading(FeelsLike(e).value, Temp(e).value, w.value.id.value))
    else None
  }

  /** One pass of the loop body for an entry of today: each minimum is compared unrounded
      against the rounded running value and replaced by the rounded reading. */
  function Step(acc: Scan, r: Reading): Scan {
    Scan(if r.temp < acc.minTemp as real then RoundHalfEven(r.temp) else acc.minTemp,
         if r.feelsLike < acc.minFeels as real then RoundHalfEven(r.feelsLike) else acc.minFeels,
         acc.precipitation || IsPrecipitation(r.weatherId))
  }

  /** The loop over the entries s from the running state acc: None on a missing field, the
      state reached at the first entry of another day or at the end of s otherwise. */
  function ScanDay(s: seq<Entry>, w: DayWindow, acc: Scan): Option<Scan>
    decreases |s|
  {
    if s == [] then Some(acc)
    else if s[0].dt.None? then None
    else if !w.Covers(s[0]) then Some(acc)
    else match ReadingOf(s[0])
      case None => None
      case Some(r) => ScanDay(s[1..], w, Step(acc, r))
  }

  /** The number of leading entries of s that belong to today: the entries the loop examines
      as today's before it stops. */
  function TodayPrefix(s: seq<Entry>, w: DayWindow): (n: nat)
    ensures n <= |s|
    ensures forall i :: 0 <= i < n ==> w.Covers(s[i])
    ensures n < |s| ==> !w.Covers(s[n])
  {
    if s == [] || !w.Covers(s[0]) then 0 else 1 + TodayPrefix(s[1..], w)
  }

  /** The smaller of two integers: the length of a slice cut short, and a running minimum. */
  function Min(a: int, b: int): (m: int)
    ensures m <= a && m <= b
    ensures m == a || m == b
  {
    if a <= b then a else b
  }

  /** resp['list'][:8]. */
  function FirstEight(entries: seq<Entry>): (s: seq<Entry>)
    ensures |s| == Min(8, |entries|) && s == entries[..|s|]
  {
    if |entries| <= 8 then entries else entries[..8]
  }

  /** The lookups made before the try: resp['city']['timezone'] and resp['list'][0]['dt']. */
  predicate HeaderPresent(resp: Forecast) {
    && resp.city.Some? && resp.city.value.timezone.Some?
    && resp.list.Some? && |resp.list.value| > 0 && resp.list.value[0].dt.Some?
  }

  function Entries(resp: Forecast): seq<Entry>
    requires HeaderPresent(resp)
  {
    resp.list.value
  }

  /** today = day of resp['list'][0]['dt'] - utc_offset. */
  function Window(resp: Forecast, dayOf: int -> int): (w: DayWindow)
    requires HeaderPresent(resp)
    ensures w.utcOffset == resp.city.value.timezone.value && w.dayOf == dayOf
    ensures w.Covers(Entries(resp)[0])
  {
    var offset := resp.city.value.timezone.value;
    DayWindow(offset, dayOf(Entries(resp)[0].dt.value - offset), dayOf)
  }

  /** Lines 94-101, in the order the code reads them: name, country, temperature, wind speed,
      bearing, the bearing assertion, description, category and its emoji. Entry 0 supplies the
      current conditions: the city's name and country, the rounded temperature, the compass point
      of the bearing, the wind speed as read, the description and the category's emoji. */
  function CurrentConditions(city: City, e: Entry): (r: Result<Current, Exception>)
    ensures r == Failure(AssertionError) <==>
              && city.name.Some? && city.country.Some? && Temp(e).Some? && WindSpeed(e).Some?
              && WindDeg(e).Some? && !(0 <= WindDeg(e).value <= 360)
    ensures r.Success? <==>
              && city.name.Some? && city.country.Some? && Temp(e).Some? && WindSpeed(e).Some?
              && WindDeg(e).Some? && 0 <= WindDeg(e).value <= 360
              && FirstWeather(e).Some? && FirstWeather(e).value.description.Some?
              && FirstWeather(e).value.main.Some? && FirstWeather(e).value.main.value in WeatherEmoji
    ensures r.Success? ==>
              && r.value.city == city.name.value && r.value.country == city.country.value
              && r.value.temp == RoundHalfEven(Temp(e).value)
              && r.value.windDirection == WindDirection(WindDeg(e).value)
              && r.value.windSpeed == WindSpeed(e).value
              && r.value.description == FirstWeather(e).value.description.value
              && r.value.emoji == WeatherEmoji[FirstWeather(e).value.main.value]
  {
    if city.name.None? || city.country.None? || Temp(e).None? || WindSpeed(e).None?
       || WindDeg(e).None? then Failure(LookupError)
    else if !(0 <= WindDeg(e).value <= 360) then Failure(AssertionError)
    else match FirstWeather(e)
      case None => Failure(LookupError)
      case Some(w) =>
        if w.description.None? || w.main.None? || w.main.value !in WeatherEmoji then Failure(LookupError)
        else Success(Current(city.name.value, city.country.value, WeatherEmoji[w.main.value],
                             w.description.value, RoundHalfEven(Temp(e).value),
                             WindDirection(WindDeg(e).value), WindSpeed(e).value))
  }

  /** Lines 104-106: the running state seeded from entry 0's temp_min and feels_like. */
  function Seed(e: Entry): (seed: Option<Scan>)
    ensures seed.Some? <==> TempMin(e).Some? && FeelsLike(e).Some?
    ensures seed.Some? ==> && seed.value.minTemp == RoundHalfEven(TempMin(e).value)
                           && seed.value.minFeels == RoundHalfEven(FeelsLike(e).value)
                           && !seed.value.precipitation
  {
    if TempMin(e).Some? && FeelsLike(e).Some?
    then Some(Scan(RoundHalfEven(TempMin(e).value), RoundHalfEven(FeelsLike(e).value), false))
    else None
  }

  /** parse_forecast as a function of the response and of the host's day-of-month function. */
  function Parse(resp: Forecast, dayOf: int -> int): Outcome {
    if !HeaderPresent(resp) then Raises(LookupError)
    else
      var entries := Entries(resp);
      match CurrentConditions(resp.city.value, entries[0])
      case Failure(e) => if e == AssertionError then Raises(AssertionError) else Returned(None)
      case Success(current) =>
        match Seed(entries[0])
        case None => Returned(None)
        case Some(seed) =>
          match ScanDay(FirstEight(entries), Window(resp, dayOf), seed)
          case None => Returned(None)
          case Some(acc) =>
            Returned(Some(Summary(current, acc.precipitation,
                                  Advice(acc.minTemp, acc.minFeels, GetOutfit(acc.minFeels)))))
  }

  /** parse_forecast as the code runs it: straight-line reads, then the loop over the first
      eight entries that stops at the first entry of another day. */
  method ParseForecast(resp: Forecast, dayOf: int -> int) returns (out: Outcome)
    ensures out == Parse(resp, dayOf)
  {
    if !HeaderPresent(resp) {
      return Raises(LookupError);
    }
    var city, entries := resp.city.value, resp.list.value;
    var utcOffset := city.timezone.value;
    var today := dayOf(entries[0].dt.value - utcOffset);

    var current := CurrentConditions(city, entries[0]);
    if current.Failure? {
      if current.error == AssertionError {
        return Raises(AssertionError);
      }
      return Returned(None);
    }

    var tempMin, feelsLike := TempMin(entries[0]), FeelsLike(entries[0]);
    if tempMin.None? || feelsLike.None? {
      return Returned(None);
    }
    var precipitation := false;
    var minTemperature := RoundHalfEven(tempMin.value);
    var minFeelsTemperature := RoundHalfEven(feelsLike.value);

    ghost var window := DayWindow(utcOffset, today, dayOf);
    ghost var seed := Scan(minTemperature, minFeelsTemperature, precipitation);
    var slice := FirstEight(entries);
    var i := 0;
    while i < |slice|
      invariant 0 <= i <= |slice|
      invariant ScanDay(slice[i..], window, Scan(minTemperature, minFeelsTemperature, precipitation))
                == ScanDay(slice, window, seed)
    {
      var f := slice[i];
      if f.dt.None? {
        return Returned(None);
      }
      if dayOf(f.dt.value - utcOffset) != today {
        break;
      }
      var feels := FeelsLike(f);
      if feels.None? {
        return Returned(None);
      }
      if feels.value < minFeelsTemperature as real {
        minFeelsTemperature := RoundHalfEven(feels.value);
      }
      var temp := Temp(f);
      if temp.None? {
        return Returned(None);
      }
      if temp.value < minTemperature as real {
        minTemperature := RoundHalfEven(temp.value);
      }
      var weather := FirstWeather(f);
      if weather.None? || weather.value.id.None? {
        return Returned(None);
      }
      var weatherId := weather.value.id.value / 100;
      if 2 <= weatherId <= 5 {
        precipitation := true;
      }
      i := i + 1;
    }

    var outfit := GetOutfit(minFeelsTemperature);
    return Returned(Some(Summary(current.value, precipitation,
                                 Advice(minTemperature, minFeelsTemperature, outfit))));
  }
}
