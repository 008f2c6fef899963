/**
 * The weather service: the API-key check of the constructor, the mapping from
 * an OpenWeatherMap current-weather payload to a flat weather record, the way
 * failures are re-raised, and the seven-line Markdown report.
 *
 * The HTTP request is the `fetch` field of the service and the `:.1f` float
 * rendering is the `render` parameter of the report: both are left opaque.
 */
module Weather {
  import opened Wrappers
  import opened Text

  // ---------------------------------------------------------------------------
  // The payload. Every key the mapping indexes may be absent.
  // ---------------------------------------------------------------------------

  datatype SysBlock = SysBlock(country: Option<string>)

  datatype MainBlock = MainBlock(temp: Option<real>, feelsLike: Option<real>, humidity: Option<int>, pressure: Option<int>)

  datatype ConditionBlock = ConditionBlock(description: Option<string>)

  datatype WindBlock = WindBlock(speed: Option<real>)

  datatype ApiResponse = ApiResponse(
    name: Option<string>,
    sys: Option<SysBlock>,
    main: Option<MainBlock>,
    weather: Option<seq<ConditionBlock>>,
    wind: Option<WindBlock>,
    visibility: Option<real>)

  /** What the mapping can raise: a missing key, or an empty "weather" list. */
  datatype PayloadError = KeyError(key: string) | IndexError

  /** The outcome of the HTTP call: a decoded payload, a `requests` failure, or any other exception. */
  datatype FetchResult = Fetched(data: ApiResponse) | RequestFailed(reason: string) | OtherFailure(message: string)

  datatype WeatherRecord = WeatherRecord(
    city: string,
    country: string,
    temperature: real,
    feelsLike: real,
    humidity: int,
    pressure: int,
    description: string,
    windSpeed: real,
    visibility: Option<real>,
    units: string)

  /** The service: its API key and the HTTP call `(city, key, units) -> payload`. */
  datatype WeatherService = WeatherService(apiKey: string, fetch: (string, string, string) -> FetchResult)

  const MissingKeyMessage := "OpenWeatherMap API key is required"

  /** `api_key or OPENWEATHERMAP_API_KEY`, rejected when both are empty. */
  function Create(apiKey: string, configuredKey: string, fetch: (string, string, string) -> FetchResult): (r: Result<WeatherService, string>)
    ensures r.Failure? <==> apiKey == "" && configuredKey == ""
    ensures r.Failure? ==> r.error == MissingKeyMessage
    ensures r.Success? ==> r.value.apiKey != "" && r.value.fetch == fetch
    ensures r.Success? ==> r.value.apiKey == if apiKey != "" then apiKey else configuredKey
  {
    var key := if apiKey != "" then apiKey else configuredKey;
    if key == "" then Failure(MissingKeyMessage) else Success(WeatherService(key, fetch))
  }

  // ---------------------------------------------------------------------------
  // Payload to record.
  // ---------------------------------------------------------------------------

  function Need<T>(o: Option<T>, key: string): (r: Result<T, PayloadError>)
    ensures r.Success? <==> o.Some?
    ensures r.Success? ==> r.value == o.value
    ensures r.Failure? ==> r.error == KeyError(key)
  {
    match o
    case None => Failure(KeyError(key))
    case Some(v) => Success(v)
  }

  /** Every key the mapping indexes is present and the "weather" list is not empty. */
  predicate Complete(data: ApiResponse) {
    && data.name.Some?
    && data.sys.Some? && data.sys.value.country.Some?
    && data.main.Some? && data.main.value.temp.Some? && data.main.value.feelsLike.Some?
    && data.main.value.humidity.Some? && data.main.value.pressure.Some?
    && data.weather.Some? && |data.weather.value| > 0
    && data.weather.value[0].description.Some?
  }

  /** `data.get("wind", {}).get("speed", 0)` */
  function WindSpeedOf(wind: Option<WindBlock>): real {
    if wind.Some? && wind.value.speed.Some? then wind.value.speed.value else 0.0
  }

  /** `data.get("visibility", 0) / 1000 if data.get("visibility") else None`: metres to kilometres. */
  function VisibilityKm(visibility: Option<real>): (r: Option<real>)
    ensures r.None? <==> visibility.None? || visibility.value == 0.0
    ensures r.Some? ==> r.value * 1000.0 == visibility.value
  {
    if visibility.Some? && visibility.value != 0.0 then Some(visibility.value / 1000.0) else None
  }

  /**
   * The dictionary literal of `get_weather`, evaluated key by key: the first
   * missing key raises `KeyError`, an empty "weather" list raises `IndexError`.
   */
  function ToRecord(data: ApiResponse, units: string): (r: Result<WeatherRecord, PayloadError>)
    ensures r.Success? <==> Complete(data)
    ensures data.name.None? ==> r == Failure(KeyError("name"))
    ensures r == Failure(IndexError) ==> data.weather == Some([])
    ensures r.Success? ==>
      && r.value.city == data.name.value
      && r.value.country == data.sys.value.country.value
      && r.value.temperature == data.main.value.temp.value
      && r.value.feelsLike == data.main.value.feelsLike.value
      && r.value.humidity == data.main.value.humidity.value
      && r.value.pressure == data.main.value.pressure.value
      && r.value.description == data.weather.value[0].description.value
      && r.value.units == units
    ensures r.Success? && (data.wind.None? || data.wind.value.speed.None?) ==> r.value.windSpeed == 0.0
    ensures r.Success? && data.wind.Some? && data.wind.value.speed.Some? ==> r.value.windSpeed == data.wind.value.speed.value
    ensures r.Success? ==> r.value.visibility == VisibilityKm(data.visibility)
  {
    var name :- Need(data.name, "name");
    var sys :- Need(data.sys, "sys");
    var country :- Need(sys.country, "country");
    var main :- Need(data.main, "main");
    var temp :- Need(main.temp, "temp");
    var feelsLike :- Need(main.feelsLike, "feels_like");
    var humidity :- Need(main.humidity, "humidity");
    var pressure :- Need(main.pressure, "pressure");
    var conditions :- Need(data.weather, "weather");
    if |conditions| == 0 then Failure(IndexError)
    else
      var description :- Need(conditions[0].description, "description");
      Success(WeatherRecord(name, country, temp, feelsLike, humidity, pressure, description,
        WindSpeedOf(data.wind), VisibilityKm(data.visibility), units))
  }

  const FetchFailedPrefix := "Failed to fetch weather data: "
  const BadFormatPrefix := "Unexpected API response format: "

  /** `str(KeyError(k))` is the quoted key. */
  function KeyErrorText(key: string): string {
    "'" + key + "'"
  }

  /** `str(IndexError)` of an index into an empty list. */
  const IndexErrorText := "list index out of range"

  /**
   * `get_weather(city, units)`: request failures and missing keys are re-raised
   * with their prefixes; any other exception, including the `IndexError`, passes
   * through unchanged.
   */
  function GetWeather(svc: WeatherService, city: string, units: string := "metric"): (r: Result<WeatherRecord, string>)
    ensures r.Success? <==> svc.fetch(city, svc.apiKey, units).Fetched? && Complete(svc.fetch(city, svc.apiKey, units).data)
    ensures r.Success? ==> Success(r.value) == ToRecord(svc.fetch(city, svc.apiKey, units).data, units)
    ensures svc.fetch(city, svc.apiKey, units).RequestFailed? ==>
      r == Failure(FetchFailedPrefix + svc.fetch(city, svc.apiKey, units).reason)
    ensures svc.fetch(city, svc.apiKey, units).OtherFailure? ==>
      r == Failure(svc.fetch(city, svc.apiKey, units).message)
    ensures svc.fetch(city, svc.apiKey, units).Fetched? && ToRecord(svc.fetch(city, svc.apiKey, units).data, units).Failure? ==>
      match ToRecord(svc.fetch(city, svc.apiKey, units).data, units).error
      case KeyError(k) => r == Failure(BadFormatPrefix + KeyErrorText(k))
      case IndexError => r == Failure(IndexErrorText)
  {
    match svc.fetch(city, svc.apiKey, units)
    case RequestFailed(reason) => Failure(FetchFailedPrefix + reason)
    case OtherFailure(message) => Failure(message)
    case Fetched(data) =>
      match ToRecord(data, units)
      case Success(record) => Success(record)
      case Failure(KeyError(k)) => Failure(BadFormatPrefix + KeyErrorText(k))
      case Failure(IndexError) => Failure(IndexErrorText)
  }

  // ---------------------------------------------------------------------------
  // The report.
  // ---------------------------------------------------------------------------

  const Celsius := "\U{B0}C"
  const Fahrenheit := "\U{B0}F"

  /** "°C" for metric units and "°F" for every other value, "kelvin" included. */
  function UnitSymbol(units: string): (sym: string)
    ensures sym == Celsius || sym == Fahrenheit
    ensures sym == Celsius <==> units == "metric"
  {
    if units == "metric" then Celsius else Fahrenheit
  }

  const NoVisibility := "\U{2014}"

  /** The visibility in kilometres, or the dash placeholder when there is none. */
  function VisibilityText(visibility: Option<real>, render: real -> string): (t: string)
    ensures t == NoVisibility <==> visibility.None?
    ensures visibility.Some? ==> t == render(visibility.value) + " km"
  {
    if visibility.Some? then render(visibility.value) + " km" else NoVisibility
  }

  /** m/s to km/h. */
  function KilometresPerHour(metresPerSecond: real): (kmh: real)
    ensures kmh * 10.0 == metresPerSecond * 36.0
  {
    metresPerSecond * 3.6
  }

  function HeaderLine(city: string, country: string): string {
    "**\U{1F326} Weather \U{B7} " + city + ", " + country + "**"
  }

  function TemperatureLine(rec: WeatherRecord, render: real -> string): string {
    var sym := UnitSymbol(rec.units);
    "- **Temperature:** " + (render(rec.temperature) + sym) + " (feels like " + render(rec.feelsLike) + sym + ")"
  }

  function ConditionsLine(rec: WeatherRecord): string {
    "- **Conditions:** " + Title(rec.description)
  }

  function HumidityLine(rec: WeatherRecord): string {
    "- **Humidity / Pressure:** " + (IntToString(rec.humidity) + "%") + " \U{B7} " + IntToString(rec.pressure) + " hPa"
  }

  function WindLine(rec: WeatherRecord, render: real -> string): string {
    "- **Wind:** " + render(rec.windSpeed) + " m/s (" + render(KilometresPerHour(rec.windSpeed)) + " km/h)"
  }

  function VisibilityLine(rec: WeatherRecord, render: real -> string): string {
    "- **Visibility:** " + VisibilityText(rec.visibility, render)
  }

  /** The seven lines of `format_weather_response`; the second one is blank. */
  function ReportLines(rec: WeatherRecord, render: real -> string): (lines: seq<string>)
    ensures |lines| == 7 && lines[1] == ""
    ensures Contains(lines[0], rec.city) && Contains(lines[0], rec.country)
  {
    HeaderFacts(rec.city, rec.country);
    [ HeaderLine(rec.city, rec.country),
      "",
      TemperatureLine(rec, render),
      ConditionsLine(rec),
      HumidityLine(rec),
      WindLine(rec, render),
      VisibilityLine(rec, render) ]
  }

  lemma HeaderFacts(city: string, country: string)
    ensures Contains(HeaderLine(city, country), city) && Contains(HeaderLine(city, country), country)
  {
    var pre := "**\U{1F326} Weather \U{B7} ";
    ContainsMiddle(pre, city, ", " + country + "**");
    assert pre + city + (", " + country + "**") == HeaderLine(city, country);
    ContainsMiddle(pre + city + ", ", country, "**");
    assert pre + city + ", " + country + "**" == HeaderLine(city, country);
  }

  /** `"\n".join(lines)` */
  function FormatReport(rec: WeatherRecord, render: real -> string): string {
    Join(ReportLines(rec, render), "\n")
  }

  /** No line break in a text field or in the rendering of a number the report shows. */
  predicate SingleLineFields(rec: WeatherRecord, render: real -> string) {
    && '\n' !in rec.city && '\n' !in rec.country && '\n' !in rec.description
    && '\n' !in render(rec.temperature) && '\n' !in render(rec.feelsLike)
    && '\n' !in render(rec.windSpeed) && '\n' !in render(KilometresPerHour(rec.windSpeed))
    && (rec.visibility.Some? ==> '\n' !in render(rec.visibility.value))
  }

  lemma TitleSingleLine(s: string)
    requires '\n' !in s
    ensures '\n' !in Title(s)
  {
    forall i | 0 <= i < |s|
      ensures Title(s)[i] != '\n'
    {
      if IsLetter(s[i]) {
        assert IsLetter(Title(s)[i]);
      } else {
        assert Title(s)[i] == s[i];
      }
    }
  }

  lemma IntSingleLine(i: int)
    ensures '\n' !in IntToString(i)
  {
    var r := IntToString(i);
    forall k | 0 <= k < |r|
      ensures r[k] != '\n'
    {
      assert IsDigit(r[k]) || r[k] == '-';
    }
  }

  lemma HeaderSingle(rec: WeatherRecord)
    requires '\n' !in rec.city && '\n' !in rec.country
    ensures '\n' !in HeaderLine(rec.city, rec.country)
  {
  }

  lemma TemperatureSingle(rec: WeatherRecord, render: real -> string)
    requires '\n' !in render(rec.temperature) && '\n' !in render(rec.feelsLike)
    ensures '\n' !in TemperatureLine(rec, render)
  {
  }

  lemma ConditionsSingle(rec: WeatherRecord)
    requires '\n' !in rec.description
    ensures '\n' !in ConditionsLine(rec)
  {
    TitleSingleLine(rec.description);
  }

  lemma HumiditySingle(rec: WeatherRecord)
    ensures '\n' !in HumidityLine(rec)
  {
    IntSingleLine(rec.humidity);
    IntSingleLine(rec.pressure);
  }

  lemma WindSingle(rec: WeatherRecord, render: real -> string)
    requires '\n' !in render(rec.windSpeed) && '\n' !in render(KilometresPerHour(rec.windSpeed))
    ensures '\n' !in WindLine(rec, render)
  {
  }

  lemma VisibilitySingle(rec: WeatherRecord, render: real -> string)
    requires rec.visibility.Some? ==> '\n' !in render(rec.visibility.value)
    ensures '\n' !in VisibilityLine(rec, render)
  {
  }

  lemma ReportLinesSingle(rec: WeatherRecord, render: real -> string)
    requires SingleLineFields(rec, render)
    ensures forall k :: 0 <= k < 7 ==> '\n' !in ReportLines(rec, render)[k]
  {
    HeaderSingle(rec);
    TemperatureSingle(rec, render);
    ConditionsSingle(rec);
    HumiditySingle(rec);
    WindSingle(rec, render);
    VisibilitySingle(rec, render);
  }

  /** With no line break inside a field, splitting the report on "\n" gives back the seven lines. */
  lemma FormatReportSplits(rec: WeatherRecord, render: real -> string)
    requires SingleLineFields(rec, render)
    ensures SplitOn(FormatReport(rec, render), '\n') == ReportLines(rec, render)
  {
    ReportLinesSingle(rec, render);
    SplitJoin(ReportLines(rec, render), '\n');
  }

  lemma ContainsInLine(lines: seq<string>, k: nat, p: string)
    requires k < |lines| && Contains(lines[k], p)
    ensures Contains(Join(lines, "\n"), p)
  {
    JoinContainsPart(lines, "\n", k);
    ContainsTransitive(Join(lines, "\n"), lines[k], p);
  }

  lemma TemperatureShown(rec: WeatherRecord, render: real -> string)
    ensures Contains(TemperatureLine(rec, render), render(rec.temperature) + UnitSymbol(rec.units))
  {
    var sym := UnitSymbol(rec.units);
    var shown := render(rec.temperature) + sym;
    var after := " (feels like " + render(rec.feelsLike) + sym + ")";
    ContainsMiddle("- **Temperature:** ", shown, after);
    assert "- **Temperature:** " + shown + after == TemperatureLine(rec, render);
  }

  lemma HumidityShown(rec: WeatherRecord)
    ensures Contains(HumidityLine(rec), IntToString(rec.humidity) + "%")
  {
    var shown := IntToString(rec.humidity) + "%";
    var after := " \U{B7} " + IntToString(rec.pressure) + " hPa";
    ContainsMiddle("- **Humidity / Pressure:** ", shown, after);
    assert "- **Humidity / Pressure:** " + shown + after == HumidityLine(rec);
  }

  lemma ConditionsShown(rec: WeatherRecord)
    ensures Contains(ConditionsLine(rec), Title(rec.description))
  {
    ContainsMiddle("- **Conditions:** ", Title(rec.description), "");
    assert "- **Conditions:** " + Title(rec.description) + "" == ConditionsLine(rec);
  }

  lemma WindMetresShown(rec: WeatherRecord, render: real -> string)
    ensures Contains(WindLine(rec, render), render(rec.windSpeed) + " m/s")
  {
    var ms := render(rec.windSpeed) + " m/s";
    var after := " (" + render(KilometresPerHour(rec.windSpeed)) + " km/h)";
    ContainsMiddle("- **Wind:** ", ms, after);
    assert "- **Wind:** " + ms + after == WindLine(rec, render);
  }

  lemma WindKilometresShown(rec: WeatherRecord, render: real -> string)
    ensures Contains(WindLine(rec, render), render(KilometresPerHour(rec.windSpeed)) + " km/h")
  {
    var before := "- **Wind:** " + render(rec.windSpeed) + " m/s (";
    var kmh := render(KilometresPerHour(rec.windSpeed)) + " km/h";
    ContainsMiddle(before, kmh, ")");
    assert before + kmh + ")" == WindLine(rec, render);
  }

  lemma VisibilityShown(rec: WeatherRecord, render: real -> string)
    ensures Contains(VisibilityLine(rec, render), VisibilityText(rec.visibility, render))
  {
    ContainsMiddle("- **Visibility:** ", VisibilityText(rec.visibility, render), "");
    assert "- **Visibility:** " + VisibilityText(rec.visibility, render) + "" == VisibilityLine(rec, render);
  }

  /**
   * The report names the city and the country, and shows the temperature with
   * its unit symbol, the title-cased description, the humidity with "%", the
   * wind in m/s and in km/h, and the visibility text ("—" when it is unknown).
   * `ReportLines` states every line in full.
   */
  lemma FormatReportMentions(rec: WeatherRecord, render: real -> string)
    ensures Contains(FormatReport(rec, render), rec.city)
    ensures Contains(FormatReport(rec, render), rec.country)
    ensures Contains(FormatReport(rec, render), render(rec.temperature) + UnitSymbol(rec.units))
    ensures Contains(FormatReport(rec, render), IntToString(rec.humidity) + "%")
    ensures Contains(FormatReport(rec, render), Title(rec.description))
    ensures Contains(FormatReport(rec, render), render(rec.windSpeed) + " m/s")
    ensures Contains(FormatReport(rec, render), render(KilometresPerHour(rec.windSpeed)) + " km/h")
    ensures Contains(FormatReport(rec, render), VisibilityText(rec.visibility, render))
  {
    var lines := ReportLines(rec, render);
    ContainsInLine(lines, 0, rec.city);
    ContainsInLine(lines, 0, rec.country);
    TemperatureShown(rec, render);
    ContainsInLine(lines, 2, render(rec.temperature) + UnitSymbol(rec.units));
    ConditionsShown(rec);
    ContainsInLine(lines, 3, Title(rec.description));
    HumidityShown(rec);
    ContainsInLine(lines, 4, IntToString(rec.humidity) + "%");
    WindMetresShown(rec, render);
    ContainsInLine(lines, 5, render(rec.windSpeed) + " m/s");
    WindKilometresShown(rec, render);
    ContainsInLine(lines, 5, render(KilometresPerHour(rec.windSpeed)) + " km/h");
    VisibilityShown(rec, render);
    ContainsInLine(lines, 6, VisibilityText(rec.visibility, render));
  }
}
