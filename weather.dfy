/**
  The weather side of bot.py: the report built from one weather-provider
  response, and the two lookups (by place name and by coordinates) that fall
  back to a fixed sentence when the provider does not answer with status 200.
 */
module Weather {
  import opened Strings

  /** The values the report template substitutes, each already rendered as
      the text that appears in the report: the numbers as Python prints them,
      the pressure after its conversion to mm Hg and two-decimal rendering,
      sunrise and sunset after their conversion to local `HH:MM`. */
  datatype Observation = Observation(
    description: string,
    temperature: string,
    feelsLike: string,
    pressure: string,
    humidity: string,
    visibility: string,
    windSpeed: string,
    windDirection: string,
    sunrise: string,
    sunset: string)

  /** What the provider answered: the HTTP status and, when it is 200, the
      decoded observation. */
  datatype WeatherResponse = WeatherResponse(status: int, observation: Observation)

  /** The reply when the provider has no weather for the given coordinates. */
  const UnknownLocation: string := "Я не знаю какая погода в этом месте."

  /** The start of the reply when the provider does not know the place. */
  const PlaceNotFound: string := "Я не нашел населенный пункт "

  /** The indentation of the lines of the source's triple-quoted f-string. */
  const Indent: string := "    "

  /** The six lines of measurements, as they read after the description. */
  function MeasurementLines(o: Observation): seq<string> {
    [ "Температура " + o.temperature + " ℃, ощущается как " + o.feelsLike + " ℃.",
      "Атмосферное давление " + o.pressure + " мм рт. ст.",
      "Влажность " + o.humidity + " %.",
      "Видимость " + o.visibility + " метров.",
      "Ветер " + o.windSpeed + " м/с " + o.windDirection + "°.",
      "Восход солнца " + o.sunrise + " МСК. Закат " + o.sunset + " МСК." ]
  }

  /** The lines of the f-string's body, without their indentation: the
      capitalised description with a full stop, then the measurements. */
  function BodyLines(o: Observation, cm: CaseMap): seq<string> {
    [Capitalize(o.description, cm) + "."] + MeasurementLines(o)
  }

  /** The lines of the f-string before normalisation: an empty first line
      (the literal opens with a newline), the indented body lines, and a last
      line of indentation only. */
  function TemplateLines(o: Observation, cm: CaseMap): seq<string> {
    Block(Indent, BodyLines(o, cm))
  }

  /** The report template: its lines joined by newlines. */
  function ReportTemplate(o: Observation, cm: CaseMap): string {
    Join(TemplateLines(o, cm))
  }

  /** `format_weather_data`: the template with the indentation stripped from
      every line. */
  function FormatWeatherData(o: Observation, cm: CaseMap): string {
    StripIndentation(ReportTemplate(o, cm))
  }

  /** `get_temperature`: with status 200 the formatted report of the
      provider's observation; otherwise the not-found sentence naming the
      place, whatever the observation. The caller can tell which it got: only
      a report starts with a newline. */
  function GetTemperature(place: string, response: WeatherResponse, cm: CaseMap): (report: string)
    ensures response.status != 200 ==> report == PlaceNotFound + place
    ensures response.status == 200 ==> report == FormatWeatherData(response.observation, cm)
    ensures (|report| > 0 && report[0] == '\n') <==> response.status == 200
  {
    if response.status != 200 then
      assert (PlaceNotFound + place)[0] == PlaceNotFound[0];
      PlaceNotFound + place
    else
      FormatWeatherDataStartsWithNewline(response.observation, cm);
      FormatWeatherData(response.observation, cm)
  }

  /** `get_temperature_by_coords`: with status 200 the formatted report of the
      provider's observation; otherwise one fixed sentence, the same for every
      position and every observation. Only a report starts with a newline. */
  function GetTemperatureByCoords(lat: real, lon: real, response: WeatherResponse, cm: CaseMap): (report: string)
    ensures response.status != 200 ==> report == UnknownLocation
    ensures response.status == 200 ==> report == FormatWeatherData(response.observation, cm)
    ensures (|report| > 0 && report[0] == '\n') <==> response.status == 200
  {
    if response.status != 200 then UnknownLocation
    else
      FormatWeatherDataStartsWithNewline(response.observation, cm);
      FormatWeatherData(response.observation, cm)
  }

  /** No rendered value can break a report line in two. */
  predicate SingleLineValues(o: Observation, cm: CaseMap) {
    '\n' !in Capitalize(o.description, cm)
    && '\n' !in o.temperature && '\n' !in o.feelsLike && '\n' !in o.pressure
    && '\n' !in o.humidity && '\n' !in o.visibility && '\n' !in o.windSpeed
    && '\n' !in o.windDirection && '\n' !in o.sunrise && '\n' !in o.sunset
  }

  /** The nine lines of the report, as the user sees them. */
  function ReportLines(o: Observation, cm: CaseMap): seq<string> {
    ["", LStrip(Capitalize(o.description, cm)) + "."] + MeasurementLines(o) + [""]
  }

  /** The report has exactly nine lines: the first is empty because the
      template opens with a newline, the second is the capitalised description
      followed by a full stop, then the six lines of measurements without
      their indentation, and an empty last line. */
  lemma FormatWeatherDataLines(o: Observation, cm: CaseMap)
    requires SingleLineValues(o, cm)
    ensures Split(FormatWeatherData(o, cm)) == ReportLines(o, cm)
    ensures Unindented(Capitalize(o.description, cm)) ==>
      Split(FormatWeatherData(o, cm))[1] == Capitalize(o.description, cm) + "."
  {
    var cap := Capitalize(o.description, cm);
    BodySingleLines(o, cm);
    IndentAllSpace();
    NormalisedBlock(Indent, BodyLines(o, cm));
    StripBody(o, cm);
    if Unindented(cap) {
      LStripUnindented(cap);
    }
  }

  /** Stripping the body lines strips the description and leaves the
      measurements alone. */
  lemma StripBody(o: Observation, cm: CaseMap)
    ensures LStripEach(BodyLines(o, cm)) == [LStrip(Capitalize(o.description, cm)) + "."] + MeasurementLines(o)
  {
    LStripEachAppend([Capitalize(o.description, cm) + "."], MeasurementLines(o));
    LStripAppend(Capitalize(o.description, cm), ".");
    MeasurementsStripped(o);
  }

  /** Stripping leaves the measurement lines alone. */
  lemma MeasurementsStripped(o: Observation)
    ensures LStripEach(MeasurementLines(o)) == MeasurementLines(o)
  {
    MeasurementsUnindented(o);
    LStripEachUnindented(MeasurementLines(o));
  }

  /** No body line breaks in two when no substituted value does. */
  lemma BodySingleLines(o: Observation, cm: CaseMap)
    requires SingleLineValues(o, cm)
    ensures forall k :: 0 <= k < |BodyLines(o, cm)| ==> '\n' !in BodyLines(o, cm)[k]
  {
  }

  /** The f-string's indentation is whitespace on one line. */
  lemma IndentAllSpace()
    ensures AllSpace(Indent) && '\n' !in Indent
  {
  }

  /** Every measurement line starts with a letter. */
  lemma MeasurementsUnindented(o: Observation)
    ensures forall k :: 0 <= k < |MeasurementLines(o)| ==> Unindented(MeasurementLines(o)[k])
  {
  }

  /** Whatever the observation, the report starts with a newline, so it can
      never be mistaken for one of the fallback sentences. */
  lemma FormatWeatherDataStartsWithNewline(o: Observation, cm: CaseMap)
    ensures |FormatWeatherData(o, cm)| > 0 && FormatWeatherData(o, cm)[0] == '\n'
  {
  }
}
