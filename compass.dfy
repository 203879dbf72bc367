/** calc_wind_direction: wind bearing in degrees to one of eight compass points. */
module Compass {
  import opened Rounding

  /** The lookup list exactly as the bot keeps it: counter-clockwise, N at both ends. */
  const Directions: seq<string> := ["N", "NW", "W", "SW", "S", "SE", "E", "NE", "N"]

  /** The usual clockwise compass rose, used only as a reference. */
  const ClockwiseRose: seq<string> := ["N", "NE", "E", "SE", "S", "SW", "W", "NW", "N"]

  /** round(deg / 45) for an integral bearing in [0, 360]: never a tie, always a valid index. */
  lemma DirectionIndex(deg: int)
    requires 0 <= deg <= 360
    ensures (deg as real / 45.0) - (deg as real / 45.0).Floor as real != 0.5
    ensures RoundHalfEven(deg as real / 45.0) == (2 * deg + 45) / 90
    ensures 0 <= (2 * deg + 45) / 90 <= 8
  {
  }

  /** directions[round(deg / 45)], guarded by the assertion 0 <= deg <= 360. */
  function WindDirection(deg: int): (d: string)
    requires 0 <= deg <= 360
    ensures d in {"N", "NW", "W", "SW", "S", "SE", "E", "NE"}
    ensures d == Directions[(2 * deg + 45) / 90]
  {
    DirectionIndex(deg);
    Directions[RoundHalfEven(deg as real / 45.0)]
  }

  /** The bot's rose is the clockwise rose read backwards: the point it reports
      for deg is the one a standard compass gives for 360 - deg. */
  lemma CounterClockwise(deg: int)
    requires 0 <= deg <= 360
    ensures WindDirection(deg) == ClockwiseRose[(2 * (360 - deg) + 45) / 90]
  {
  }

  /** Both ends of the range give N, and the points follow the list order. */
  lemma WindDirectionExamples()
    ensures WindDirection(0) == "N" && WindDirection(360) == "N"
    ensures WindDirection(45) == "NW" && WindDirection(90) == "W"
    ensures WindDirection(180) == "S" && WindDirection(270) == "E"
  {
  }
}
