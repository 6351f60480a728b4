# Weather summary tools, modelled in Dafny

The travel-planner repository gives a language-model agent two tools,
`get_current_weather(city)` and `get_weather_forecast(city)`. They are built
as closures in `WeatherInfoTool._setup_tools` (`tools/whether_info_tool.py`).
Each tool asks the weather service for a JSON payload and turns it into one
piece of text:

- **Current weather**: the temperature and description read through
  `.get(..., 'N/A')` chains, as `Current weather in {city}: {temp}°C, {desc}`.
- **Forecast**: one `{date}: {temp}°C, {desc}` line per entry of the payload's
  `list`, joined under the header `Weather forecast for {city}:`.

A falsy payload, or a forecast payload without `list`, gives a
"Could not fetch ..." notice. Any exception is caught and becomes
`Error fetching current weather: ...` or `Error fetching forecast: ...`.
So the agent always gets text back.

The model has four modules:

- `PyStrings` (`py_strings.dfy`): Python's `str.split` with a one-character
  separator, `str.join` and the substring test, with the split/join
  round-trip lemmas.
- `PyValues` (`py_values.dfy`): the decoded JSON value (`Json`) and every
  Python operation the tools apply to it. These are truthiness,
  `dict.get(key, default)`, subscription `v[k]`, the `in` test, iteration
  in a `for` loop, `.split` and `str()`. Each one that can raise returns a
  `Result` whose failure names the exception Python raises (`KeyError`, `IndexError`,
  `AttributeError` or `TypeError`). Dicts keep their members in document
  order.
- `WeatherService` (`weather_service.dfy`): the shape of what the service
  returns. That is the provider's decoded reply, or the one-member dict
  `{"error": message}` when the request raised.
- `WeatherInfoTool` (`weather_info_tool.dfy`): the two tools.
  `get_current_weather` is a pure function: the body of its `try` block
  gives a `Result`, and the tool folds that into text.
  `get_weather_forecast` is the method `GetWeatherForecast`. Like the
  source, it appends one line per entry in a loop. It is proved equal to
  the specification function `ForecastText`, and the forecast properties
  are lemmas about `ForecastText`.

The payload is a parameter; no network call is modelled. Two kinds of text
are abstract, through a `Printer` value passed to both tools:

- how Python prints numbers, lists and dicts (`Printer.value`);
- the message of an exception (`Printer.exception`).

Strings, `None`, `True` and `False` print concretely. So the `'N/A'`
placeholder, a string description and the prefix of each error line are
exact.

Two behaviours of the code are worth knowing:

- When the request fails, the service's `{"error": message}` stand-in
  (utils/weather_info.py:20-21) is truthy. So it never reaches the
  could-not-fetch branch at tools/whether_info_tool.py:28. It is answered
  `Current weather in {city}: N/A°C, N/A` (`CurrentWeatherErrorPayload`).
- A forecast entry lacking one of the keys the loop reads raises. The
  answer is then the `Error fetching forecast: ...` line, with no partial
  summary (`ForecastBadEntry`).

## Model

| member | source | states |
|---|---|---|
| `PyStrings.Split` | tools/whether_info_tool.py:40 | `dt_txt.split(' ')` always has at least one piece, so the `[0]` that follows never raises |
| `PyStrings.SplitFirstPiece` | tools/whether_info_tool.py:40 | the first piece of a split is the text before the first separator: a prefix with no separator in it, ending where the string ends or at a separator |
| `PyStrings.SplitPiecesFree` | tools/whether_info_tool.py:40 | no piece of a split holds the separator |
| `PyStrings.JoinSplit` | tools/whether_info_tool.py:40 | joining the pieces of a split with the same separator gives back the original string |
| `PyStrings.SplitJoin` | tools/whether_info_tool.py:44 | `"\n".join` of separator-free lines splits back into exactly those lines |
| `PyValues.Lookup` | tools/whether_info_tool.py:25-26 | a dict lookup finds nothing exactly when no member has the key, and whatever it finds is a member stored under that key |
| `PyValues.Get` | tools/whether_info_tool.py:25-26 | `v.get(key, default)` succeeds exactly on a dict; it gives the stored value, or `default` when the key is absent; on anything else it raises AttributeError for `get` |
| `PyValues.Subscript` | tools/whether_info_tool.py:40-42 | `v['key']` succeeds exactly on a dict holding the key and gives its value; a dict without the key raises KeyError; `[0]` on a list gives its first element, or raises IndexError on an empty list |
| `PyValues.Contains` | tools/whether_info_tool.py:37 | `'list' in d` on a dict is the key test; it raises exactly on values that are not a dict, list or string, and what it raises is a TypeError |
| `PyValues.Iterate` | tools/whether_info_tool.py:39 | a `for` loop over a list visits its elements, over a dict its keys in order, over a string its one-character strings in order; it raises exactly on any other value, and what it raises is a TypeError |
| `PyValues.SplitMethod` | tools/whether_info_tool.py:40 | `.split(' ')` succeeds exactly on a string and gives at least one piece; the pieces hold no separator and join back into the string, which fixes them exactly; on anything else it raises AttributeError for `split` |
| `WeatherService.ErrorPayload` | utils/weather_info.py:20-21 | the stand-in `{"error": message}` is truthy, holds the message under "error" and has no other key |
| `WeatherInfoTool.CurrentWeatherReport` | tools/whether_info_tool.py:24-27 | a payload with `main.temp` and a non-empty `weather` list whose first element has `description` gives exactly `Current weather in {city}: {temp}°C, {desc}` |
| `WeatherInfoTool.CurrentWeatherGoa` | tools/whether_info_tool.py:24-27 | the Goa payload with 29.5 and "clear sky" gives `Current weather in Goa: 29.5°C, clear sky` |
| `WeatherInfoTool.CurrentWeatherMissingTemperature` | tools/whether_info_tool.py:25 | a missing `main`, or a `main` dict without `temp`, makes the temperature read N/A |
| `WeatherInfoTool.CurrentWeatherMissingDescription` | tools/whether_info_tool.py:26 | a missing `weather` (default `[{}]`), or a first element without `description`, makes the description read N/A |
| `WeatherInfoTool.CurrentWeatherCouldNotFetch` | tools/whether_info_tool.py:24-28 | the answer is `Could not fetch weather for {city}` if and only if the payload is falsy |
| `WeatherInfoTool.CurrentWeatherErrorPayload` | tools/whether_info_tool.py:24-27 | the payload of a failed request, the `{"error": message}` stand-in, is answered `Current weather in {city}: N/A°C, N/A`, not with the could-not-fetch notice |
| `WeatherInfoTool.CurrentWeatherEmptyWeatherList` | tools/whether_info_tool.py:26-30 | an empty `weather` list makes `[0]` raise IndexError, and the answer is the error line for it |
| `WeatherInfoTool.CurrentWeatherMainNotDict` | tools/whether_info_tool.py:25-30 | a `main` that is not a dict raises AttributeError for `get`, and the answer is the error line for it |
| `WeatherInfoTool.CurrentWeatherAlwaysAnswers` | tools/whether_info_tool.py:22-30 | every payload gets a summary, the notice or an error line, and the answer starts with `Error fetching current weather: ` exactly when the `try` block raised |
| `WeatherInfoTool.CollectLines` | tools/whether_info_tool.py:38-43 | the loop succeeds exactly when every entry renders; it then holds one line per entry, in input order, each the rendering of its entry |
| `WeatherInfoTool.FirstFailure` | tools/whether_info_tool.py:39-47 | the first entry that raises decides the outcome: the loop raises that entry's exception |
| `WeatherInfoTool.GetWeatherForecast` | tools/whether_info_tool.py:33-47 | the loop that appends line by line and stops at the first exception answers exactly `ForecastText` |
| `WeatherInfoTool.ForecastLineReport` | tools/whether_info_tool.py:40-43 | a well-formed entry's line is `{date}: {temp}°C, {desc}`, where `date` is the text of `dt_txt` before its first space, or all of it |
| `WeatherInfoTool.ForecastLineSucceeds` | tools/whether_info_tool.py:40-42 | an entry renders without raising exactly when `dt_txt` is a string, `main` is a dict with `temp`, and `weather` is a non-empty list whose first element is a dict with `description` |
| `WeatherInfoTool.ForecastLineMissingDate` | tools/whether_info_tool.py:40 | an entry without `dt_txt` raises KeyError for that key |
| `WeatherInfoTool.ForecastReport` | tools/whether_info_tool.py:37-44 | a `list` of well-formed entries is answered by the header followed by the entries' lines joined with newlines |
| `WeatherInfoTool.HeaderThenLines` | tools/whether_info_tool.py:44 | with no newline in the city or the lines, header plus joined lines splits back into the header line and the lines |
| `WeatherInfoTool.ForecastLineCount` | tools/whether_info_tool.py:37-44 | for N ≥ 1 well-formed entries without newlines, the answer is the header line followed by exactly N lines, in input order |
| `WeatherInfoTool.ForecastEmptyList` | tools/whether_info_tool.py:44 | an empty `list` gives the header alone, newline included |
| `WeatherInfoTool.ForecastCouldNotFetch` | tools/whether_info_tool.py:37-45 | the answer is `Could not fetch forecast for {city}` if and only if the payload is falsy or does not contain `list` |
| `WeatherInfoTool.ForecastErrorPayload` | tools/whether_info_tool.py:37-45 | the payload of a failed request, the `{"error": message}` stand-in, gets the could-not-fetch notice |
| `WeatherInfoTool.ForecastBadEntry` | tools/whether_info_tool.py:39-47 | when an entry is not well formed, the first such entry raises, its error line is the whole answer, and no partial summary is returned |
| `WeatherInfoTool.ForecastAlwaysAnswers` | tools/whether_info_tool.py:35-47 | every payload gets a summary, the notice or an error line, and the answer starts with `Error fetching forecast: ` exactly when the `try` block raised |

## Left out

- The network call (`utils/weather_info.py`: `requests.get`, `raise_for_status`, `response.json()`) is I/O. The payload it yields is a parameter of the tools, and only its two shapes are kept (`WeatherService.Payload`).
- `WeatherInfoTool.__init__` (`load_dotenv`, environment variables, the unused `backend_url`) is process configuration.
- The langchain `@tool` decorator and the returned tool list belong to a foreign framework.
- Python's text for a float, int, list or dict, and an exception's message (`str(e)`), are abstract (`Printer`). The error lines are exact up to that message, and the exception kind is modelled.
- A JSON float is kept as its decimal literal. Only its truthiness (non-zero) is used; float formatting is not modelled.
- `Truthy`: a float counts as truthy when its literal's mantissa is non-zero. Python decodes an underflowing literal such as `1e-400` to the falsy `0.0`. The decoder's `NaN`, `Infinity` and `-Infinity` have no `Json` constructor. Only a top-level payload that is such a number is affected.
- Python's `==` between an int and a float, or a bool and an int, is not modelled. It never arises here, because the only membership test looks for the string `'list'`.
- JSON documents with duplicate keys: Python's decoder keeps the last value, while `Lookup` takes the first member. The model assumes a dict's keys are distinct, as in any dict the decoder produces.
- `backend.py` (an echo endpoint) and `streamlit_app.py` (UI, session history, wall-clock timestamps) hold no logic of the tools.
