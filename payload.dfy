/** The decoded OpenWeatherMap forecast as parse_forecast reads it. Every key the code looks up
    may be absent from the JSON object, so each one is an Option; a lookup of an absent key
    (or of index 0 of an empty list) is Python's LookupError. */
module Payload {
  import opened Wrappers

  /** resp['city']: name, country code and UTC offset in seconds. */
  datatype City = City(name: Option<string>, country: Option<string>, timezone: Option<int>)

  /** f['main']: air temperature, the window's minimum and the feels-like temperature. */
  datatype Conditions = Conditions(temp: Option<real>, tempMin: Option<real>, feelsLike: Option<real>)

  /** f['wind']: speed in m/s and bearing in degrees. */
  datatype Wind = Wind(speed: Option<real>, deg: Option<int>)

  /** An element of f['weather']: condition code, category and description. */
  datatype Weather = Weather(id: Option<int>, main: Option<string>, description: Option<string>)

  /** One three-hour forecast window; dt is in UTC epoch seconds. */
  datatype Entry = Entry(dt: Option<int>, main: Option<Conditions>, wind: Option<Wind>,
                         weather: Option<seq<Weather>>)

  /** The whole response. */
  datatype Forecast = Forecast(city: Option<City>, list: Option<seq<Entry>>)

  function Temp(e: Entry): Option<real> {
    if e.main.Some? then e.main.value.temp else None
  }

  function TempMin(e: Entry): Option<real> {
    if e.main.Some? then e.main.value.tempMin else None
  }

  function FeelsLike(e: Entry): Option<real> {
    if e.main.Some? then e.main.value.feelsLike else None
  }

  function WindSpeed(e: Entry): Option<real> {
    if e.wind.Some? then e.wind.value.speed else None
  }

  function WindDeg(e: Entry): Option<int> {
    if e.wind.Some? then e.wind.value.deg else None
  }

  /** f['weather'][0]. */
  function FirstWeather(e: Entry): Option<Weather> {
    if e.weather.Some? && |e.weather.value| > 0 then Some(e.weather.value[0]) else None
  }
}
