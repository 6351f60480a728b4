/** The two agent tools of `WeatherInfoTool`: `get_current_weather` and
    `get_weather_forecast`. Each takes a city name, receives the weather
    service's payload for it (here a parameter) and always answers with a
    line of text: a summary, a "could not fetch" notice, or the message of
    the exception its `try` block caught. */
module WeatherInfoTool {
  import opened PyStrings
  import opened PyValues
  import opened WeatherService

  /** The placeholder `'N/A'` that `.get` falls back to. */
  const NotAvailable: Json := JStr("N/A")

  const CurrentErrorPrefix := "Error fetching current weather: "
  const ForecastErrorPrefix := "Error fetching forecast: "

  /* ---------------- get_current_weather ---------------- */

  /** `weather_data.get('main', {}).get('temp', 'N/A')` */
  function CurrentTemperature(weatherData: Json): Result<Json>
  {
    var main :- Get(weatherData, "main", JObject([]));
    Get(main, "temp", NotAvailable)
  }

  /** `weather_data.get('weather', [{}])[0].get('description', 'N/A')` */
  function CurrentDescription(weatherData: Json): Result<Json>
  {
    var weather :- Get(weatherData, "weather", JList([JObject([])]));
    var first :- Subscript(weather, Index(0));
    Get(first, "description", NotAvailable)
  }

  /** The body of the `try` block: the answer, or the exception it raises. */
  function CurrentWeatherAnswer(city: string, weatherData: Json, pr: Printer): Result<string>
  {
    if Truthy(weatherData) then
      var temp :- CurrentTemperature(weatherData);
      var desc :- CurrentDescription(weatherData);
      Ok("Current weather in " + city + ": " + Str(temp, pr) + "°C, " + Str(desc, pr))
    else
      Ok("Could not fetch weather for " + city)
  }

  /** The tool: an exception turns into an error line instead of escaping. */
  function GetCurrentWeather(city: string, weatherData: Json, pr: Printer): string
  {
    match CurrentWeatherAnswer(city, weatherData, pr)
    case Ok(text) => text
    case Raise(e) => CurrentErrorPrefix + pr.exception(e)
  }

  /** A payload with a temperature under "main" and a description in the
      first element of "weather" is summarised with both. */
  lemma CurrentWeatherReport(city: string, weatherData: Json, pr: Printer,
                             main: Json, temp: Json, weather: seq<Json>, desc: Json)
    requires HasField(weatherData, "main", main) && HasField(main, "temp", temp)
    requires HasField(weatherData, "weather", JList(weather)) && |weather| > 0
    requires HasField(weather[0], "description", desc)
    ensures GetCurrentWeather(city, weatherData, pr)
         == "Current weather in " + city + ": " + Str(temp, pr) + "°C, " + Str(desc, pr)
  {
  }

  /** The payload `{"main": {"temp": 29.5}, "weather": [{"description":
      "clear sky"}]}` for Goa, where 29.5 prints as "29.5". */
  lemma CurrentWeatherGoa(pr: Printer)
    requires pr.value(JFloat(295, -1)) == "29.5"
    ensures GetCurrentWeather("Goa", JObject([("main", JObject([("temp", JFloat(295, -1))])),
                                              ("weather", JList([JObject([("description", JStr("clear sky"))])]))]), pr)
         == "Current weather in Goa: 29.5°C, clear sky"
  {
  }

  /** Without "main", or with a "main" that lacks "temp", the temperature
      reads N/A. */
  lemma CurrentWeatherMissingTemperature(city: string, weatherData: Json, pr: Printer,
                                         main: Json, desc: Json)
    requires Truthy(weatherData)
    requires MissingField(weatherData, "main")
          || (HasField(weatherData, "main", main) && MissingField(main, "temp"))
    requires CurrentDescription(weatherData) == Ok(desc)
    ensures GetCurrentWeather(city, weatherData, pr)
         == "Current weather in " + city + ": N/A°C, " + Str(desc, pr)
  {
  }

  /** Without "weather", or with a first "weather" element that lacks
      "description", the description reads N/A. */
  lemma CurrentWeatherMissingDescription(city: string, weatherData: Json, pr: Printer,
                                         temp: Json, weather: seq<Json>)
    requires Truthy(weatherData)
    requires CurrentTemperature(weatherData) == Ok(temp)
    requires MissingField(weatherData, "weather")
          || (HasField(weatherData, "weather", JList(weather)) && |weather| > 0
              && MissingField(weather[0], "description"))
    ensures GetCurrentWeather(city, weatherData, pr)
         == "Current weather in " + city + ": " + Str(temp, pr) + "°C, N/A"
  {
  }

  /** The "could not fetch" notice is given exactly for a falsy payload. */
  lemma CurrentWeatherCouldNotFetch(city: string, weatherData: Json, pr: Printer)
    ensures GetCurrentWeather(city, weatherData, pr) == "Could not fetch weather for " + city
        <==> !Truthy(weatherData)
  {
    var text := GetCurrentWeather(city, weatherData, pr);
    var notice := "Could not fetch weather for " + city;
    if Truthy(weatherData) {
      assert notice[1] == 'o';
      match CurrentWeatherAnswer(city, weatherData, pr)
      case Ok(t) =>
        assert t == "Current weather in " + city + ": " + Str(CurrentTemperature(weatherData).value, pr)
                    + "°C, " + Str(CurrentDescription(weatherData).value, pr);
        assert text[1] == 'u';
      case Raise(e) =>
        assert text[0] == 'E';
    }
  }

  /** When the request failed, the service's `{"error": message}` stand-in
      is truthy, so it is summarised as a reply with neither field rather
      than as a failure. */
  lemma CurrentWeatherErrorPayload(city: string, message: string, pr: Printer)
    ensures GetCurrentWeather(city, Payload(Failed(message)), pr)
         == "Current weather in " + city + ": N/A°C, N/A"
  {
    var p := Payload(Failed(message));
    assert MissingField(p, "main") && MissingField(p, "weather");
  }

  /** An empty "weather" list makes `[0]` raise IndexError. */
  lemma CurrentWeatherEmptyWeatherList(city: string, weatherData: Json, pr: Printer)
    requires CurrentTemperature(weatherData).Ok?
    requires HasField(weatherData, "weather", JList([]))
    ensures GetCurrentWeather(city, weatherData, pr)
         == CurrentErrorPrefix + pr.exception(IndexError(ListType))
  {
  }

  /** A "main" that is not a dict has no `get`: AttributeError. */
  lemma CurrentWeatherMainNotDict(city: string, weatherData: Json, pr: Printer, main: Json)
    requires HasField(weatherData, "main", main) && !main.JObject?
    ensures GetCurrentWeather(city, weatherData, pr)
         == CurrentErrorPrefix + pr.exception(AttributeError(TypeOf(main), "get"))
  {
  }

  /** Every payload gets an answer of one of the three kinds, and the
      error line is given exactly when the `try` block raises. */
  lemma CurrentWeatherAlwaysAnswers(city: string, weatherData: Json, pr: Printer)
    ensures var text := GetCurrentWeather(city, weatherData, pr);
            "Current weather in " + city + ": " <= text
            || text == "Could not fetch weather for " + city
            || CurrentErrorPrefix <= text
    ensures CurrentErrorPrefix <= GetCurrentWeather(city, weatherData, pr)
        <==> CurrentWeatherAnswer(city, weatherData, pr).Raise?
  {
    var text := GetCurrentWeather(city, weatherData, pr);
    if CurrentWeatherAnswer(city, weatherData, pr).Ok? {
      if Truthy(weatherData) {
        assert text[0] == 'C';
      } else {
        assert text[0] == 'C';
      }
      assert CurrentErrorPrefix[0] == 'E';
    }
  }

  /* ---------------- get_weather_forecast ---------------- */

  /** One iteration of the loop: `date`, `temp` and `desc` of an entry and
      the line built from them. */
  function ForecastLine(item: Json, pr: Printer): Result<string>
  {
    var dtTxt :- Subscript(item, Name("dt_txt"));
    var pieces :- SplitMethod(dtTxt, ' ');
    var date := pieces[0];
    var main :- Subscript(item, Name("main"));
    var temp :- Subscript(main, Name("temp"));
    var weather :- Subscript(item, Name("weather"));
    var first :- Subscript(weather, Index(0));
    var desc :- Subscript(first, Name("description"));
    Ok(date + ": " + Str(temp, pr) + "°C, " + Str(desc, pr))
  }

  /** The lines of `forecast_summary` once the loop has visited `items`,
      each rendered by `line`, or the exception of the first entry that
      raised. */
  function CollectLines(items: seq<Json>, line: Json -> Result<string>): (r: Result<seq<string>>)
    ensures r.Ok? <==> forall k | 0 <= k < |items| :: line(items[k]).Ok?
    ensures r.Ok? ==> |r.value| == |items|
    ensures r.Ok? ==> forall k | 0 <= k < |items| :: r.value[k] == line(items[k]).value
    decreases |items|
  {
    if |items| == 0 then Ok([])
    else
      var earlier :- CollectLines(items[..|items| - 1], line);
      var last :- line(items[|items| - 1]);
      Ok(earlier + [last])
  }

  /** The forecast lines of `items`. */
  function ForecastLines(items: seq<Json>, pr: Printer): Result<seq<string>>
  {
    CollectLines(items, item => ForecastLine(item, pr))
  }

  /** The body of the `try` block up to the final join: `None` where the
      tool gives its "could not fetch" notice, otherwise the lines. */
  function ForecastSummary(forecastData: Json, pr: Printer): Result<Option<seq<string>>>
  {
    if !Truthy(forecastData) then Ok(None)
    else
      var hasList :- Contains(forecastData, "list");
      if !hasList then Ok(None)
      else
        var list :- Subscript(forecastData, Name("list"));
        var items :- Iterate(list);
        var lines :- ForecastLines(items, pr);
        Ok(Some(lines))
  }

  /** The answer of `get_weather_forecast`, as a function of the payload. */
  function ForecastText(city: string, forecastData: Json, pr: Printer): string
  {
    match ForecastSummary(forecastData, pr)
    case Ok(None) => "Could not fetch forecast for " + city
    case Ok(Some(lines)) => "Weather forecast for " + city + ":\n" + Join("\n", lines)
    case Raise(e) => ForecastErrorPrefix + pr.exception(e)
  }

  /** The tool: builds the summary line by line, stopping at the first
      entry that raises. */
  method GetWeatherForecast(city: string, forecastData: Json, pr: Printer) returns (text: string)
    ensures text == ForecastText(city, forecastData, pr)
  {
    if !Truthy(forecastData) {
      return "Could not fetch forecast for " + city;
    }
    var hasList := Contains(forecastData, "list");
    if hasList.Raise? {
      return ForecastErrorPrefix + pr.exception(hasList.exception);
    }
    if !hasList.value {
      return "Could not fetch forecast for " + city;
    }
    var list := Subscript(forecastData, Name("list"));
    if list.Raise? {
      return ForecastErrorPrefix + pr.exception(list.exception);
    }
    var items := Iterate(list.value);
    if items.Raise? {
      return ForecastErrorPrefix + pr.exception(items.exception);
    }
    var entries := items.value;
    ghost var render := item => ForecastLine(item, pr);
    var forecastSummary: seq<string> := [];
    for i := 0 to |entries|
      invariant CollectLines(entries[..i], render) == Ok(forecastSummary)
    {
      var line := ForecastLine(entries[i], pr);
      if line.Raise? {
        assert forall j | 0 <= j < i :: entries[..i][j] == entries[j];
        FirstFailure(entries, i, render);
        return ForecastErrorPrefix + pr.exception(line.exception);
      }
      assert entries[..i + 1][..i] == entries[..i];
      forecastSummary := forecastSummary + [line.value];
    }
    assert entries[..|entries|] == entries;
    text := "Weather forecast for " + city + ":\n" + Join("\n", forecastSummary);
  }

  /** The first entry that raises decides the outcome of the whole loop. */
  lemma {:induction false} FirstFailure(items: seq<Json>, k: nat, line: Json -> Result<string>)
    requires k < |items|
    requires forall j | 0 <= j < k :: line(items[j]).Ok?
    requires line(items[k]).Raise?
    ensures CollectLines(items, line) == Raise(line(items[k]).exception)
    decreases |items|
  {
    var init := items[..|items| - 1];
    assert forall j | 0 <= j < |init| :: init[j] == items[j];
    if k < |items| - 1 {
      FirstFailure(init, k, line);
    }
  }

  /** The date of a well-formed entry is the text of "dt_txt" before its
      first space (all of it if there is none); the line joins it with the
      temperature and the description. */
  lemma ForecastLineReport(item: Json, pr: Printer, dtTxt: string, date: string,
                           main: Json, temp: Json, weather: seq<Json>, desc: Json)
    requires HasField(item, "dt_txt", JStr(dtTxt))
    requires date <= dtTxt && ' ' !in date && (|date| == |dtTxt| || dtTxt[|date|] == ' ')
    requires HasField(item, "main", main) && HasField(main, "temp", temp)
    requires HasField(item, "weather", JList(weather)) && |weather| > 0
    requires HasField(weather[0], "description", desc)
    ensures ForecastLine(item, pr) == Ok(date + ": " + Str(temp, pr) + "°C, " + Str(desc, pr))
  {
    var piece := Split(dtTxt, ' ')[0];
    SplitFirstPiece(dtTxt, ' ');
    assert |piece| == |date|;
    assert piece == dtTxt[..|piece|] == date;
  }

  /** The value under `key` when `v` is a dict holding it. */
  function FieldOf(v: Json, key: string): Option<Json>
  {
    if v.JObject? then Lookup(v.members, key) else None
  }

  /** An entry the loop renders without raising: a dict whose "dt_txt" is
      a string, whose "main" is a dict holding "temp", and whose "weather"
      is a non-empty list starting with a dict holding "description". */
  predicate WellFormedEntry(item: Json)
  {
    && FieldOf(item, "dt_txt").Some? && FieldOf(item, "dt_txt").value.JStr?
    && FieldOf(item, "main").Some? && FieldOf(FieldOf(item, "main").value, "temp").Some?
    && FieldOf(item, "weather").Some? && FieldOf(item, "weather").value.JList?
    && |FieldOf(item, "weather").value.items| > 0
    && FieldOf(FieldOf(item, "weather").value.items[0], "description").Some?
  }

  /** An entry is rendered exactly when it is well formed; any other entry
      raises (KeyError, TypeError, IndexError or AttributeError). */
  lemma ForecastLineSucceeds(item: Json, pr: Printer)
    ensures ForecastLine(item, pr).Ok? <==> WellFormedEntry(item)
  {
    var weather := Subscript(item, Name("weather"));
    if weather.Ok? && weather.value.JStr? && |weather.value.s| > 0 {
      assert Subscript(weather.value, Index(0)) == Ok(JStr([weather.value.s[0]]));
    }
  }

  /** An entry without "dt_txt" raises KeyError. */
  lemma ForecastLineMissingDate(item: Json, pr: Printer)
    requires MissingField(item, "dt_txt")
    ensures ForecastLine(item, pr) == Raise(KeyError(Name("dt_txt")))
  {
  }

  /** The lines of a forecast whose entries are all well formed. */
  function ReportedLines(items: seq<Json>, pr: Printer): (lines: seq<string>)
    requires forall k | 0 <= k < |items| :: ForecastLine(items[k], pr).Ok?
    ensures |lines| == |items|
  {
    seq(|items|, k requires 0 <= k < |items| => ForecastLine(items[k], pr).value)
  }

  /** A "list" of well-formed entries yields the header followed by one
      line per entry, in order. */
  lemma ForecastReport(city: string, forecastData: Json, items: seq<Json>, pr: Printer)
    requires HasField(forecastData, "list", JList(items))
    requires forall k | 0 <= k < |items| :: ForecastLine(items[k], pr).Ok?
    ensures ForecastText(city, forecastData, pr)
         == "Weather forecast for " + city + ":\n" + Join("\n", ReportedLines(items, pr))
  {
    assert ForecastLines(items, pr).value == ReportedLines(items, pr);
  }

  /** With no newline in the city or the lines, the header followed by
      the joined lines splits back into the header line and the lines. */
  lemma {:induction false} HeaderThenLines(city: string, lines: seq<string>)
    requires '\n' !in city && |lines| > 0
    requires forall k | 0 <= k < |lines| :: '\n' !in lines[k]
    ensures Split("Weather forecast for " + city + ":\n" + Join("\n", lines), '\n')
         == ["Weather forecast for " + city + ":"] + lines
  {
    var header := "Weather forecast for " + city + ":";
    assert '\n' !in header;
    SplitJoin(lines, '\n');
    SplitAfterSeparator(header, '\n', Join("\n", lines));
    assert header + ['\n'] + Join("\n", lines) == "Weather forecast for " + city + ":\n" + Join("\n", lines);
  }

  /** With no newline in the city or the lines, the answer splits into the
      header and exactly one line per entry, in input order. */
  lemma ForecastLineCount(city: string, forecastData: Json, items: seq<Json>, pr: Printer)
    requires HasField(forecastData, "list", JList(items)) && |items| > 0
    requires forall k | 0 <= k < |items| :: ForecastLine(items[k], pr).Ok?
    requires '\n' !in city
    requires forall k | 0 <= k < |items| :: '\n' !in ReportedLines(items, pr)[k]
    ensures Split(ForecastText(city, forecastData, pr), '\n')
         == ["Weather forecast for " + city + ":"] + ReportedLines(items, pr)
  {
    ForecastReport(city, forecastData, items, pr);
    HeaderThenLines(city, ReportedLines(items, pr));
  }

  /** An empty "list" yields the header alone, newline included. */
  lemma ForecastEmptyList(city: string, forecastData: Json, pr: Printer)
    requires HasField(forecastData, "list", JList([]))
    ensures ForecastText(city, forecastData, pr) == "Weather forecast for " + city + ":\n"
  {
  }

  /** The "could not fetch" notice is given exactly when the payload is
      falsy or does not contain "list". */
  lemma ForecastCouldNotFetch(city: string, forecastData: Json, pr: Printer)
    ensures ForecastText(city, forecastData, pr) == "Could not fetch forecast for " + city
        <==> !Truthy(forecastData) || Contains(forecastData, "list") == Ok(false)
  {
    var text := ForecastText(city, forecastData, pr);
    var notice := "Could not fetch forecast for " + city;
    assert notice[0] == 'C';
    match ForecastSummary(forecastData, pr)
    case Ok(None) =>
    case Ok(Some(lines)) =>
      assert text[0] == 'W';
    case Raise(e) =>
      assert text[0] == 'E';
  }

  /** A dict without "list", such as the service's `{"error": message}`
      stand-in, gets the "could not fetch" notice. */
  lemma ForecastErrorPayload(city: string, message: string, pr: Printer)
    ensures ForecastText(city, Payload(Failed(message)), pr) == "Could not fetch forecast for " + city
  {
    assert MissingField(Payload(Failed(message)), "list");
  }

  /** An entry that raises makes the whole answer the error line for its
      exception: no partial summary is returned. */
  lemma ForecastBadEntry(city: string, forecastData: Json, items: seq<Json>, k: nat, pr: Printer)
    requires HasField(forecastData, "list", JList(items)) && k < |items|
    requires forall j | 0 <= j < k :: WellFormedEntry(items[j])
    requires !WellFormedEntry(items[k])
    ensures ForecastLine(items[k], pr).Raise?
    ensures ForecastText(city, forecastData, pr)
         == ForecastErrorPrefix + pr.exception(ForecastLine(items[k], pr).exception)
    ensures !("Weather forecast for " <= ForecastText(city, forecastData, pr))
  {
    forall j | 0 <= j <= k {
      ForecastLineSucceeds(items[j], pr);
    }
    FirstFailure(items, k, item => ForecastLine(item, pr));
    assert ForecastText(city, forecastData, pr)[0] == 'E';
  }

  /** Every payload gets an answer of one of the three kinds, and the
      error line is given exactly when the `try` block raises. */
  lemma ForecastAlwaysAnswers(city: string, forecastData: Json, pr: Printer)
    ensures var text := ForecastText(city, forecastData, pr);
            "Weather forecast for " + city + ":\n" <= text
            || text == "Could not fetch forecast for " + city
            || ForecastErrorPrefix <= text
    ensures ForecastErrorPrefix <= ForecastText(city, forecastData, pr)
        <==> ForecastSummary(forecastData, pr).Raise?
  {
    var text := ForecastText(city, forecastData, pr);
    if ForecastSummary(forecastData, pr).Ok? {
      assert text[0] == 'W' || text[0] == 'C';
      assert ForecastErrorPrefix[0] == 'E';
    }
  }
}
