/**
 * The effect of one press of "Get Weather" on the three result labels of
 * the window. The labels are modelled as a display record; the request
 * itself is an input describing how it ended.
 */
module WeatherApp {
  import opened Wrappers
  import opened WeatherIcons
  import opened ErrorMessages

  /** What the emoji label shows: nothing, or the icon loaded from a path. */
  datatype Icon = NoIcon | Picture(path: string)

  /**
   * The temperature label (its font size in pixels and its text), the emoji
   * label, and the description label.
   */
  datatype Display = Display(
    temperatureFontPx: nat,
    temperature: string,
    icon: Icon,
    description: string)

  /**
   * The fields of a decoded response body that the window reads. `cod` is
   * compared with the integer 200, so a textual "200" does not count.
   * `temperatureText` stands for the formatted Celsius reading.
   */
  datatype Cod = CodNumber(n: int) | CodText(s: string)
  datatype Reading = Reading(temperatureText: string, conditionId: int, description: string)

  /** How the request ended. */
  datatype Attempt =
    | Received(cod: Cod, reading: Reading)
    | HttpErrorRaised(statusCode: int, httpErr: string)
    | RequestErrorRaised(error: RequestError)

  /** `display_error`: the message replaces the temperature, the other two labels are cleared. */
  function DisplayError(d: Display, message: string): (d': Display)
    ensures d'.temperatureFontPx == 30
    ensures d'.temperature == message
    ensures d'.icon == NoIcon && d'.description == ""
  {
    d.(temperatureFontPx := 30, temperature := message, icon := NoIcon, description := "")
  }

  /**
   * `set_weather_icon`: the emoji label shows the icon when the image at
   * `path` can be loaded (`loadable` is the set of such paths), and is
   * cleared otherwise.
   */
  function SetWeatherIcon(path: string, loadable: set<string>): (icon: Icon)
    ensures icon == NoIcon || icon == Picture(path)
    ensures icon == Picture(path) <==> path in loadable
  {
    if path in loadable then Picture(path) else NoIcon
  }

  /** `display_weather`: temperature, icon and description of a reading. */
  function DisplayWeather(d: Display, r: Reading, icons: map<string, string>, loadable: set<string>): (d': Display)
    requires HasEveryIcon(icons)
    ensures d'.temperatureFontPx == 75
    ensures d'.temperature == r.temperatureText && d'.description == r.description
    ensures d'.icon == SetWeatherIcon(IconPath(icons, r.conditionId), loadable)
  {
    d.(temperatureFontPx := 75,
       temperature := r.temperatureText,
       icon := SetWeatherIcon(IconPath(icons, r.conditionId), loadable),
       description := r.description)
  }

  /** The failure an exception reports, if the attempt raised one. */
  function FailureOf(a: Attempt): (f: Failure)
    requires !a.Received?
    ensures a.HttpErrorRaised? ==> f == StatusFailure(a.statusCode, a.httpErr)
    ensures a.RequestErrorRaised? ==> f == TransportFailure(a.error)
  {
    match a
    case HttpErrorRaised(status, httpErr) => StatusFailure(status, httpErr)
    case RequestErrorRaised(e) => TransportFailure(e)
  }

  /** The result labels after `get_weather` handled the attempt. */
  function GetWeather(d: Display, a: Attempt, icons: map<string, string>, loadable: set<string>): (d': Display)
    requires HasEveryIcon(icons)
    ensures a.Received? && a.cod != CodNumber(200) ==> d' == d
    ensures a.Received? && a.cod == CodNumber(200) ==> d' == DisplayWeather(d, a.reading, icons, loadable)
    ensures !a.Received? ==> d' == DisplayError(d, Message(FailureOf(a)))
  {
    match a
    case Received(cod, reading) =>
      if cod == CodNumber(200) then DisplayWeather(d, reading, icons, loadable) else d
    case HttpErrorRaised(_, _) => DisplayError(d, Message(FailureOf(a)))
    case RequestErrorRaised(_) => DisplayError(d, Message(FailureOf(a)))
  }

  /**
   * After a failure the temperature label names exactly that failure, and
   * the icon and description are gone: no error is shown beside a reading.
   */
  lemma ErrorDisplayIdentifiesFailure(d1: Display, d2: Display, a1: Attempt, a2: Attempt,
                                      icons: map<string, string>, loadable: set<string>)
    requires HasEveryIcon(icons)
    requires !a1.Received? && !a2.Received?
    requires GetWeather(d1, a1, icons, loadable) == GetWeather(d2, a2, icons, loadable)
    ensures FailureOf(a1) == FailureOf(a2)
  {
    MessageInjective(FailureOf(a1), FailureOf(a2));
  }

  /**
   * A reading whose condition id no range holds leaves the emoji label
   * empty, since the empty path loads no image.
   */
  lemma UnknownConditionShowsNoIcon(d: Display, r: Reading, icons: map<string, string>, loadable: set<string>)
    requires HasEveryIcon(icons)
    requires "" !in loadable
    requires Classify(r.conditionId) == None
    ensures DisplayWeather(d, r, icons, loadable).icon == NoIcon
  {
  }

  /** A weather display shows the icon of the reading's category when that icon loads. */
  lemma KnownConditionShowsItsIcon(d: Display, r: Reading, icons: map<string, string>, loadable: set<string>, c: Category)
    requires HasEveryIcon(icons)
    requires Classify(r.conditionId) == Some(c)
    requires icons[Key(c)] in loadable
    ensures DisplayWeather(d, r, icons, loadable).icon == Picture(icons[Key(c)])
  {
  }

  /**
   * A successful response for a city with light rain (condition 500) shows
   * the reading's temperature, the rain icon and the description.
   */
  lemma LightRainShowsRain(d: Display, temperatureText: string, icons: map<string, string>, loadable: set<string>)
    requires HasEveryIcon(icons)
    requires icons[Key(Rain)] in loadable
    ensures var r := Reading(temperatureText, 500, "light rain");
            GetWeather(d, Received(CodNumber(200), r), icons, loadable)
              == Display(75, temperatureText, Picture(icons[Key(Rain)]), "light rain")
  {
  }
}
