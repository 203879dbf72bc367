/** What parse_forecast promises, proved about Interpreter.Parse. */
module InterpreterProperties {
  import opened Wrappers
  import opened Payload
  import opened Rounding
  import opened Compass
  import opened Wardrobe
  import opened Interpreter

  /** Comparing the unrounded reading against the rounded minimum and then storing the rounded
      reading is the same as taking the minimum of the rounded values. */
  lemma StepIsMin(acc: Scan, r: Reading)
    ensures Step(acc, r).minFeels == Min(acc.minFeels, RoundHalfEven(r.feelsLike))
    ensures Step(acc, r).minTemp == Min(acc.minTemp, RoundHalfEven(r.temp))
    ensures Step(acc, r).precipitation == (acc.precipitation || IsPrecipitation(r.weatherId))
  {
    RoundOfInteger(acc.minFeels);
    RoundOfInteger(acc.minTemp);
    if r.feelsLike < acc.minFeels as real {
      RoundMonotone(r.feelsLike, acc.minFeels as real);
    } else {
      RoundMonotone(acc.minFeels as real, r.feelsLike);
    }
    if r.temp < acc.minTemp as real {
      RoundMonotone(r.temp, acc.minTemp as real);
    } else {
      RoundMonotone(acc.minTemp as real, r.temp);
    }
  }

  /** The scan succeeds exactly when every entry of today has its three readings and the entry
      that ends the day, if any within s, has a timestamp. */
  lemma {:induction false} ScanDaySucceeds(s: seq<Entry>, w: DayWindow, acc: Scan)
    ensures ScanDay(s, w, acc).Some? <==>
              (forall j :: 0 <= j < TodayPrefix(s, w) ==> ReadingOf(s[j]).Some?)
              && (TodayPrefix(s, w) < |s| ==> s[TodayPrefix(s, w)].dt.Some?)
  {
    if s != [] && w.Covers(s[0]) && ReadingOf(s[0]).Some? {
      var tail := s[1..];
      ScanDaySucceeds(tail, w, Step(acc, ReadingOf(s[0]).value));
      assert forall j :: 1 <= j < |s| ==> s[j] == tail[j - 1];
    }
  }

  /** The feels-like minimum of a successful scan: never above where it started, never above
      the rounded reading of an entry of today, and equal to one of them. */
  lemma {:induction false} ScanDayMinFeels(s: seq<Entry>, w: DayWindow, acc: Scan)
    requires ScanDay(s, w, acc).Some?
    ensures ScanDay(s, w, acc).value.minFeels <= acc.minFeels
    ensures forall j :: 0 <= j < TodayPrefix(s, w) ==>
              ReadingOf(s[j]).Some?
              && ScanDay(s, w, acc).value.minFeels <= RoundHalfEven(ReadingOf(s[j]).value.feelsLike)
    ensures || ScanDay(s, w, acc).value.minFeels == acc.minFeels
            || exists j :: 0 <= j < TodayPrefix(s, w) && ReadingOf(s[j]).Some?
                 && ScanDay(s, w, acc).value.minFeels == RoundHalfEven(ReadingOf(s[j]).value.feelsLike)
  {
    if s != [] && w.Covers(s[0]) {
      var r := ReadingOf(s[0]).value;
      var tail, next := s[1..], Step(acc, r);
      ScanDayMinFeels(tail, w, next);
      StepIsMin(acc, r);
      assert forall j :: 1 <= j < |s| ==> s[j] == tail[j - 1];
      var m := ScanDay(s, w, acc).value.minFeels;
      if m != acc.minFeels && m != next.minFeels {
        var j :| 0 <= j < TodayPrefix(tail, w) && ReadingOf(tail[j]).Some?
                 && m == RoundHalfEven(ReadingOf(tail[j]).value.feelsLike);
        assert s[j + 1] == tail[j];
      }
    }
  }

  /** The temperature minimum of a successful scan, likewise. */
  lemma {:induction false} ScanDayMinTemp(s: seq<Entry>, w: DayWindow, acc: Scan)
    requires ScanDay(s, w, acc).Some?
    ensures ScanDay(s, w, acc).value.minTemp <= acc.minTemp
    ensures forall j :: 0 <= j < TodayPrefix(s, w) ==>
              ReadingOf(s[j]).Some?
              && ScanDay(s, w, acc).value.minTemp <= RoundHalfEven(ReadingOf(s[j]).value.temp)
    ensures || ScanDay(s, w, acc).value.minTemp == acc.minTemp
            || exists j :: 0 <= j < TodayPrefix(s, w) && ReadingOf(s[j]).Some?
                 && ScanDay(s, w, acc).value.minTemp == RoundHalfEven(ReadingOf(s[j]).value.temp)
  {
    if s != [] && w.Covers(s[0]) {
      var r := ReadingOf(s[0]).value;
      var tail, next := s[1..], Step(acc, r);
      ScanDayMinTemp(tail, w, next);
      StepIsMin(acc, r);
      assert forall j :: 1 <= j < |s| ==> s[j] == tail[j - 1];
      var m := ScanDay(s, w, acc).value.minTemp;
      if m != acc.minTemp && m != next.minTemp {
        var j :| 0 <= j < TodayPrefix(tail, w) && ReadingOf(tail[j]).Some?
                 && m == RoundHalfEven(ReadingOf(tail[j]).value.temp);
        assert s[j + 1] == tail[j];
      }
    }
  }

  /** The precipitation flag of a successful scan is set exactly when it was set already or an
      entry of today has a precipitation code. */
  lemma {:induction false} ScanDayPrecipitation(s: seq<Entry>, w: DayWindow, acc: Scan)
    requires ScanDay(s, w, acc).Some?
    ensures ScanDay(s, w, acc).value.precipitation <==>
              || acc.precipitation
              || exists j :: 0 <= j < TodayPrefix(s, w) && ReadingOf(s[j]).Some?
                   && IsPrecipitation(ReadingOf(s[j]).value.weatherId)
  {
    if s != [] && w.Covers(s[0]) {
      var r := ReadingOf(s[0]).value;
      var tail, next := s[1..], Step(acc, r);
      ScanDayPrecipitation(tail, w, next);
      assert forall j :: 1 <= j < |s| ==> s[j] == tail[j - 1];
      if ScanDay(s, w, acc).value.precipitation && !acc.precipitation && !IsPrecipitation(r.weatherId) {
        var j :| 0 <= j < TodayPrefix(tail, w) && ReadingOf(tail[j]).Some?
                 && IsPrecipitation(ReadingOf(tail[j]).value.weatherId);
        assert s[j + 1] == tail[j];
      }
    }
  }

  /** Nothing after an entry of another day is examined: appending entries behind it does not
      change the scan. */
  lemma {:induction false} ScanDayStopsAtNewDay(p: seq<Entry>, t: seq<Entry>, w: DayWindow,
                                                 acc: Scan, j: nat)
    requires j < |p| && p[j].dt.Some? && !w.Covers(p[j])
    ensures ScanDay(p + t, w, acc) == ScanDay(p, w, acc)
  {
    assert (p + t)[0] == p[0];
    if j > 0 && p[0].dt.Some? && w.Covers(p[0]) && ReadingOf(p[0]).Some? {
      assert (p + t)[1..] == p[1..] + t;
      ScanDayStopsAtNewDay(p[1..], t, w, Step(acc, ReadingOf(p[0]).value), j - 1);
    }
  }

  /** The number of entries parse_forecast treats as today's. */
  function ScannedCount(resp: Forecast, dayOf: int -> int): nat
    requires HeaderPresent(resp)
  {
    TodayPrefix(FirstEight(Entries(resp)), Window(resp, dayOf))
  }

  /** Entry 0 is always examined, and no entry past index 7 ever is. */
  lemma FirstEntryScanned(resp: Forecast, dayOf: int -> int)
    requires HeaderPresent(resp)
    ensures 1 <= ScannedCount(resp, dayOf) <= 8
    ensures forall j :: 0 <= j < ScannedCount(resp, dayOf) ==> Window(resp, dayOf).Covers(Entries(resp)[j])
  {
  }

  /** A returned summary: today's minima are bounded by their seeds and by every entry of today,
      and each is attained; the precipitation flag is set exactly when an entry of today has a
      precipitation code; the outfit is the one for the feels-like minimum. */
  lemma ParseSummary(resp: Forecast, dayOf: int -> int, sum: Summary)
    requires Parse(resp, dayOf) == Returned(Some(sum))
    ensures HeaderPresent(resp) && 1 <= ScannedCount(resp, dayOf) <= 8
    ensures FeelsLike(Entries(resp)[0]).Some? && TempMin(Entries(resp)[0]).Some?
    ensures sum.advice.minFeels <= RoundHalfEven(FeelsLike(Entries(resp)[0]).value)
    ensures sum.advice.minTemp <= RoundHalfEven(TempMin(Entries(resp)[0]).value)
    ensures forall j :: 0 <= j < ScannedCount(resp, dayOf) ==>
              && ReadingOf(Entries(resp)[j]).Some?
              && sum.advice.minFeels <= RoundHalfEven(ReadingOf(Entries(resp)[j]).value.feelsLike)
              && sum.advice.minTemp <= RoundHalfEven(ReadingOf(Entries(resp)[j]).value.temp)
    ensures || sum.advice.minFeels == RoundHalfEven(FeelsLike(Entries(resp)[0]).value)
            || exists j :: 0 <= j < ScannedCount(resp, dayOf) && ReadingOf(Entries(resp)[j]).Some?
                 && sum.advice.minFeels == RoundHalfEven(ReadingOf(Entries(resp)[j]).value.feelsLike)
    ensures || sum.advice.minTemp == RoundHalfEven(TempMin(Entries(resp)[0]).value)
            || exists j :: 0 <= j < ScannedCount(resp, dayOf) && ReadingOf(Entries(resp)[j]).Some?
                 && sum.advice.minTemp == RoundHalfEven(ReadingOf(Entries(resp)[j]).value.temp)
    ensures sum.precipitation <==>
              exists j :: 0 <= j < ScannedCount(resp, dayOf) && ReadingOf(Entries(resp)[j]).Some?
                && IsPrecipitation(ReadingOf(Entries(resp)[j]).value.weatherId)
    ensures sum.advice.outfit == GetOutfit(sum.advice.minFeels)
    ensures CurrentConditions(resp.city.value, Entries(resp)[0]).Success?
    ensures var city, e := resp.city.value, Entries(resp)[0];
            && sum.current.city == city.name.value && sum.current.country == city.country.value
            && sum.current.temp == RoundHalfEven(Temp(e).value)
            && sum.current.windDirection == WindDirection(WindDeg(e).value)
            && sum.current.windSpeed == WindSpeed(e).value
            && sum.current.description == FirstWeather(e).value.description.value
            && sum.current.emoji == WeatherEmoji[FirstWeather(e).value.main.value]
  {
    FirstEntryScanned(resp, dayOf);
    var s, w := FirstEight(Entries(resp)), Window(resp, dayOf);
    var seed := Seed(Entries(resp)[0]).value;
    ScanDayMinFeels(s, w, seed);
    ScanDayMinTemp(s, w, seed);
    ScanDayPrecipitation(s, w, seed);
    assert forall j :: 0 <= j < |s| ==> s[j] == Entries(resp)[j];
  }

  /** Name, country, temperature, wind speed and bearing of entry 0 are present: the reads
      made before the bearing assertion. */
  predicate ReadsBeforeAssertion(resp: Forecast)
    requires HeaderPresent(resp)
  {
    var e := Entries(resp)[0];
    && resp.city.value.name.Some? && resp.city.value.country.Some?
    && Temp(e).Some? && WindSpeed(e).Some? && WindDeg(e).Some?
  }

  /** calc_wind_direction's assertion fails. */
  predicate BearingOutOfRange(resp: Forecast)
    requires HeaderPresent(resp)
  {
    ReadsBeforeAssertion(resp) && !(0 <= WindDeg(Entries(resp)[0]).value <= 360)
  }

  /** Every field parse_forecast reads inside its try is present, the category has an emoji and
      the bearing is in range. */
  predicate AllFieldsPresent(resp: Forecast, dayOf: int -> int)
    requires HeaderPresent(resp)
  {
    var e := Entries(resp)[0];
    var s := FirstEight(Entries(resp));
    var k := ScannedCount(resp, dayOf);
    && ReadsBeforeAssertion(resp) && 0 <= WindDeg(e).value <= 360
    && FirstWeather(e).Some? && FirstWeather(e).value.description.Some?
    && FirstWeather(e).value.main.Some? && FirstWeather(e).value.main.value in WeatherEmoji
    && TempMin(e).Some? && FeelsLike(e).Some?
    && (forall j :: 0 <= j < k ==> ReadingOf(s[j]).Some?)
    && (k < |s| ==> s[k].dt.Some?)
  }

  /** The three ways parse_forecast ends: a LookupError before the try, the bearing assertion,
      or a return; and it returns a summary exactly when every field it reads is present
      (otherwise None, never a partial summary). */
  lemma ParseOutcomes(resp: Forecast, dayOf: int -> int)
    ensures Parse(resp, dayOf) == Raises(LookupError) <==> !HeaderPresent(resp)
    ensures Parse(resp, dayOf) == Raises(AssertionError) <==>
              HeaderPresent(resp) && BearingOutOfRange(resp)
    ensures Parse(resp, dayOf).Returned? && Parse(resp, dayOf).summary.Some? <==>
              HeaderPresent(resp) && AllFieldsPresent(resp, dayOf)
  {
    if HeaderPresent(resp) {
      var e := Entries(resp)[0];
      if CurrentConditions(resp.city.value, e).Success? && Seed(e).Some? {
        ScanDaySucceeds(FirstEight(Entries(resp)), Window(resp, dayOf), Seed(e).value);
      }
    }
  }

  /** A category outside the seven emoji keys (e.g. "Mist") makes the result None. */
  lemma UnknownCategoryIsNone(resp: Forecast, dayOf: int -> int)
    requires HeaderPresent(resp) && !BearingOutOfRange(resp)
    requires FirstWeather(Entries(resp)[0]).Some?
    requires FirstWeather(Entries(resp)[0]).value.main.Some?
    requires FirstWeather(Entries(resp)[0]).value.main.value !in WeatherEmoji
    ensures Parse(resp, dayOf) == Returned(None)
  {
  }

  /** Only resp['list'][:8] is looked at: entries appended after the eighth change nothing. */
  lemma ParseIgnoresEntriesPastEight(city: City, entries: seq<Entry>, t: seq<Entry>,
                                      dayOf: int -> int)
    requires |entries| >= 8
    ensures Parse(Forecast(Some(city), Some(entries + t)), dayOf)
            == Parse(Forecast(Some(city), Some(entries)), dayOf)
  {
    assert FirstEight(entries + t) == FirstEight(entries);
  }

  /** Once an entry among the first eight lies on another day than entry 0, nothing after it
      is examined, even when it lies within the first eight. */
  lemma ParseIgnoresEntriesAfterNewDay(city: City, entries: seq<Entry>, t: seq<Entry>,
                                        dayOf: int -> int, j: nat)
    requires city.timezone.Some? && j < |entries| && j < 8
    requires entries[0].dt.Some? && entries[j].dt.Some?
    requires dayOf(entries[j].dt.value - city.timezone.value)
             != dayOf(entries[0].dt.value - city.timezone.value)
    ensures Parse(Forecast(Some(city), Some(entries + t)), dayOf)
            == Parse(Forecast(Some(city), Some(entries)), dayOf)
  {
    var longer, shorter := Forecast(Some(city), Some(entries + t)), Forecast(Some(city), Some(entries));
    assert (entries + t)[0] == entries[0];
    var p := FirstEight(entries);
    var q := FirstEight(entries + t);
    assert q == p + q[|p|..];
    assert Window(longer, dayOf) == Window(shorter, dayOf);
    var e := entries[0];
    if CurrentConditions(city, e).Success? && Seed(e).Some? {
      ScanDayStopsAtNewDay(p, q[|p|..], Window(shorter, dayOf), Seed(e).value, j);
    }
  }

  /** Three sample condition codes: rain (500) and thunderstorm (200) set the flag, clear sky (800) does not. */
  lemma PrecipitationCodes()
    ensures IsPrecipitation(500) && IsPrecipitation(200) && !IsPrecipitation(800)
  {
  }
}
