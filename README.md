# Weather App: verified model of the condition classifier and the error dispatch

The weather window (`main.py`) asks OpenWeatherMap for the current weather of a
city and shows three things: the temperature (or an error message), an icon for
the weather condition, and a description. Two pieces of decision logic sit
behind that, and this project models and proves both:

- **the condition classifier** (`get_weather_icon_path`). It maps an integer
  OpenWeatherMap condition id to one of ten icon categories by a chain of
  inclusive range tests, where the first test that holds wins. When no range
  holds, it returns the empty path.
- **the failure dispatcher** (the `except` chain of `get_weather`). An HTTP
  error status goes through a fixed `match` to one of eight messages, with a
  generic default. A transport failure goes to the first matching handler
  among `ConnectionError`, `Timeout`, `TooManyRedirects` and
  `RequestException`.

The effect of `get_weather`, `display_error`, `display_weather` and
`set_weather_icon` on the three result labels is modelled as a pure function
over a display record. No widgets are involved.

Modules:

- `Wrappers` (`wrappers.dfy`): `Option`.
- `WeatherIcons` (`weather_icons.dfy`): the ten categories and their dictionary
  keys, the classifier, its equivalent branch table, and the icon-path lookup.
- `ErrorMessages` (`error_messages.dfy`): failures, the status-code table, the
  transport dispatch, and the exact message texts.
- `WeatherApp` (`weather_app.dfy`): the display record and the effect of one
  button press.

Notes on how the code was followed:

- The categories keep the dictionary's names, including `volcano` and `wind`.
  A condition id that no range holds gives `None`, standing for the empty path
  the code returns. There is no "unknown" category.
- Messages are kept verbatim, typos included ("Bad Gatewayt", "HTTP error
  ocurred"). Each message is a title, `":\n"`, and a detail line. For the
  generic cases the detail is the exception's own text, which is an opaque
  string here.
- One `requests` exception can be an instance of several handled classes. For
  example, a connect timeout is both a `ConnectionError` and a `Timeout`. A
  transport failure is therefore described by three flags, and the handler
  order of the source decides the outcome.
- `data["cod"] == 200` is an equality with the integer 200. A textual `"200"`
  does not pass it, so the payload's `cod` is either a number or a text.

## Model

| member | source | states |
|---|---|---|
| WeatherIcons.KeysDistinct | main.py:28-39 | the ten dictionary keys are pairwise distinct, so every category has its own icon entry |
| WeatherIcons.Classify | main.py:196-228 | for each of the ten categories, the result is that category exactly when the id lies in its inclusive range (200-232, 300-321, 500-531, 600-622, 701-741, 762, 771, 781, 800, 801-804) |
| WeatherIcons.ClassifyBoundaries | main.py:197-228 | the neighbours 199, 233, 299, 322, 700, 742 and 805 give no category, and the range ends 200, 232, 741, 801 and 804 give theirs |
| WeatherIcons.FirstMatch | main.py:196-228 | first-match evaluation of a branch table: it gives nothing exactly when no branch holds the id; otherwise it gives the category of a branch that holds the id and has no earlier branch holding it |
| WeatherIcons.ChainDisjoint | main.py:197-225 | the ten ranges of the chain are pairwise disjoint |
| WeatherIcons.DisjointFirstMatch | main.py:197-225 | in a table of disjoint ranges, the branch holding the id is the one selected, wherever it stands |
| WeatherIcons.ReorderingPreservesFirstMatch | main.py:197-225 | any permutation of a table of disjoint ranges gives the same result for every id |
| WeatherIcons.ClassifyIsFirstMatch | main.py:196-228 | the if/elif chain equals first-match evaluation of its branch table in source order |
| WeatherIcons.ClassifyOrderIndependent | main.py:197-225 | reordering the ten branches of the chain does not change the result for any id |
| WeatherIcons.IconPath | main.py:196-228 | the path is the dictionary entry of the id's category, or empty when no range holds the id |
| WeatherIcons.EmptyPathOnlyForUnknown | main.py:27-39 | when no icon path is empty, the empty path is returned exactly for ids that no range holds |
| ErrorMessages.StatusFailure | main.py:134-152 | statuses 400, 401, 403, 404, 500, 502, 503 and 504 each give their table entry; every other status gives the generic HTTP failure carrying the error text |
| ErrorMessages.UnlistedStatusesAreGeneric | main.py:151-152 | 418, 501 and 200 fall to the generic HTTP failure |
| ErrorMessages.TransportFailure | main.py:154-164 | every transport failure gets exactly one of the four outcomes, in first-match order: ConnectionError, then Timeout, then TooManyRedirects, then the generic RequestException carrying its text |
| ErrorMessages.Message | main.py:135-164 | the generic messages are "HTTP error ocurred:\n" or "Request Error:\n" followed by the exception's text |
| ErrorMessages.MessageInjective | main.py:135-164 | two failures with the same message are the same failure |
| ErrorMessages.KnownStatusMessagesDistinct | main.py:135-150 | the eight listed status codes give pairwise distinct messages |
| WeatherApp.DisplayError | main.py:167-171 | after an error, the temperature label holds the message at 30 px, and the icon and description are cleared |
| WeatherApp.SetWeatherIcon | main.py:188-194 | the emoji label shows the picture at the path exactly when it loads, and is cleared otherwise |
| WeatherApp.DisplayWeather | main.py:173-186 | the temperature label shows the reading's temperature at 75 px, the description label its description, and the emoji label the icon of its condition id |
| WeatherApp.FailureOf | main.py:133-164 | an HTTP error is classified by its status code, and any other request exception by the transport handlers |
| WeatherApp.GetWeather | main.py:125-164 | a response whose cod is not the integer 200 changes nothing; one whose cod is 200 shows the weather; every raised error shows the message of its failure |
| WeatherApp.ErrorDisplayIdentifiesFailure | main.py:133-171 | two error displays are equal only when they report the same failure |
| WeatherApp.UnknownConditionShowsNoIcon | main.py:184-194 | a reading whose id no range holds leaves the emoji label empty when the empty path loads no image |
| WeatherApp.KnownConditionShowsItsIcon | main.py:184-194 | a reading of a known category shows that category's icon when it loads |
| WeatherApp.LightRainShowsRain | main.py:130-131 | a cod-200 response with id 500 and "light rain" shows its temperature, the rain icon and "light rain" |

## Left out

- The window construction, layout, style sheet, alignment and object names
  (main.py:11-110). These are user-interface wiring.
- The HTTP request, `raise_for_status` and JSON decoding (main.py:126-128).
  How the request ended is an input of `GetWeather` (`Attempt`). A status
  reaches `StatusFailure` only when `raise_for_status` raised for it, which
  happens for 400-599. The function is still total over all integers.
- A response body without `cod`, `main.temp` or `weather[0]`. The resulting
  `KeyError`/`IndexError` is not caught by the source and is not modelled.
  Neither are the partial label updates such an error would leave behind.
- A `cod` that is a float (`200.0 == 200` holds in Python). `cod` is an integer
  or a text here.
- Loading the API key and base URL from `.env` and the environment
  (main.py:113-116). This is process I/O.
- The Kelvin-to-Celsius subtraction and the `:.0f` formatting
  (main.py:175-181). This is floating-point arithmetic and formatting, so the
  formatted temperature is the opaque `Reading.temperatureText`.
- Image loading and scaling to 150 px (main.py:188-194). Whether a path loads
  is the input set `loadable`. The concrete Windows icon paths (main.py:27-38)
  are left out: the dictionary is any map that holds all ten keys.
- The text of `http_err` and `req_err` (main.py:152, 164). It comes from the
  library's string conversion and is an opaque string.
- The exception class hierarchy of `requests` is not modelled. A transport
  failure is reduced to whether it is a `ConnectionError`, a `Timeout` and/or
  a `TooManyRedirects`. Every such failure is a `RequestException`, so none
  goes unhandled.
