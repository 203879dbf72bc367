/** A worked example: eight same-day clear-sky windows over Paris with a rising feels-like. */
module ParisScenario {
  import opened Wrappers
  import opened Payload
  import opened Rounding
  import opened Compass
  import opened Interpreter

  const ParisCity := City(Some("Paris"), Some("FR"), Some(3600))

  /** Window i: three hours after window i - 1, air 10 + i, feels-like 7 + i, clear sky. */
  function ParisEntry(i: nat): Entry {
    Entry(Some(1000000 + 10800 * i),
          Some(Conditions(Some(10.0 + i as real), Some(8.0), Some(7.0 + i as real))),
          Some(Wind(Some(3.2), Some(90))),
          Some([Weather(Some(800), Some("Clear"), Some("clear sky"))]))
  }

  function ParisEntries(): seq<Entry> {
    [ParisEntry(0), ParisEntry(1), ParisEntry(2), ParisEntry(3),
     ParisEntry(4), ParisEntry(5), ParisEntry(6), ParisEntry(7)]
  }

  lemma ParisCurrent()
    ensures CurrentConditions(ParisCity, ParisEntry(0))
            == Success(Current("Paris", "FR", "\U{2600}\U{FE0F}", "clear sky", 10, "W", 3.2))
  {
  }

  /** From window k on, every window is today's and leaves the running state (8, 7, no rain) as it is. */
  lemma {:induction false} ParisScanFrom(k: nat, w: DayWindow)
    requires k <= 8
    requires forall i :: k <= i < 8 ==> w.Covers(ParisEntries()[i])
    ensures ScanDay(ParisEntries()[k..], w, Scan(8, 7, false)) == Some(Scan(8, 7, false))
    decreases 8 - k
  {
    if k < 8 {
      var s := ParisEntries()[k..];
      assert s[0] == ParisEntry(k);
      RoundOfInteger(7 + k);
      RoundOfInteger(10 + k);
      assert ReadingOf(s[0]) == Some(Reading(7.0 + k as real, 10.0 + k as real, 800));
      assert s[1..] == ParisEntries()[k + 1..];
      ParisScanFrom(k + 1, w);
    }
  }

  /** With every window on the same local day: current temperature 10, wind W, no umbrella,
      minima 8 and 7, and so a windbreaker and jeans. */
  lemma ParisSummary(dayOf: int -> int)
    requires forall i :: 0 <= i < 8 ==> dayOf(ParisEntries()[i].dt.value - 3600) == dayOf(1000000 - 3600)
    ensures Parse(Forecast(Some(ParisCity), Some(ParisEntries())), dayOf)
            == Returned(Some(Summary(Current("Paris", "FR", "\U{2600}\U{FE0F}", "clear sky", 10, "W", 3.2),
                                     false, Advice(8, 7, ("windbreaker", "jeans")))))
  {
    var resp := Forecast(Some(ParisCity), Some(ParisEntries()));
    ParisCurrent();
    RoundOfInteger(8);
    RoundOfInteger(7);
    assert Seed(ParisEntry(0)) == Some(Scan(8, 7, false));
    assert FirstEight(ParisEntries()) == ParisEntries()[0..];
    ParisScanFrom(0, Window(resp, dayOf));
  }
}
