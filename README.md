# Telegram weather and echo bots, modelled in Dafny

This project models the decision logic of two serverless Telegram webhook
handlers.

- The **weather bot** (`bot.py`) answers a message in one of three ways. A
  text message is taken as a place name, a voice message is transcribed and
  its transcript taken as a place name, and a location is taken as
  coordinates. The bot looks up the weather and replies with a report, as
  text, or as synthesised speech for a voice message. `/start` and `/help`
  get a help text. Voice messages longer than 30 seconds and messages of any
  other kind get fixed sentences.
- The **echo bot** (`echo_bot.py`) replies to a text message with the text in
  upper case, and to any other message with a fixed sentence.

Both handlers always return the envelope `{statusCode: 200, body: ""}`.

## Layout

| file | module | models |
|---|---|---|
| `wrappers.dfy` | `Wrappers` | `Option`, for JSON keys that may be absent |
| `webhook.dfy` | `Webhook` | the response envelope both handlers return |
| `strings.dfy` | `Strings` | Python's `isspace`, `lstrip()`, `split('\n')`, `'\n'.join`, `capitalize()`, `upper()`, and the line normalisation `'\n'.join([line.lstrip() for line in s.split('\n')])` |
| `weather.dfy` | `Weather` | `format_weather_data`, `get_temperature`, `get_temperature_by_coords` |
| `weather_bot.dfy` | `WeatherBot` | the weather bot's `handler` and its help text |
| `echo_bot.dfy` | `EchoBot` | the echo bot's `handler` and the payload of its `send_message` |

How the model is built:

- **Calls as a trace.** The weather bot's `handler` is a method that records
  each external call as an `Action`, in the order the source makes them. The
  calls are sending a message, the two weather lookups, downloading a file,
  speech-to-text, text-to-speech and sending a voice message.
- **Services as functions.** The answers of the external services are total
  functions held in a `Services` value. These are the weather provider by
  name and by coordinates, the file download, speech-to-text and
  text-to-speech. The contract can therefore state where each value comes
  from: the transcript becomes the place, and the report becomes the speech.
- **Messages as records.** A message is a record with three *optional*
  content fields, not a union. The handler checks them in a fixed order: text,
  then voice, then location.
- **Echo bot as a function.** The echo bot's `handler` is a pure function.
  It returns at most one reply and the envelope.

Two details of the source that the model keeps:

- `str.capitalize` title-cases the first character and lower-cases all the
  others (bot.py:20). `Capitalize` does the same.
- `send_voice` receives `message_id` but never uses it (bot.py:66-70), so the
  voice reply is not threaded under the message. `SendVoice` therefore
  carries only the audio and the chat.

## Model

| member | source | states |
|---|---|---|
| `Strings.LStrip` | bot.py:43 | `line.lstrip()` returns a suffix of the line. Every character it removes is Python whitespace, and what remains does not start with whitespace. Together these determine the result. |
| `Strings.Join` | bot.py:43 | `'\n'.join(lines)`. It has no contract of its own; `Strings.JoinSplit` and `Strings.SplitJoin` carry its properties. |
| `Strings.LStripEach` | bot.py:43 | `[line.lstrip() for line in lines]`. It has no contract of its own; `Strings.StripIndentationLines` and `Strings.StripBlock` carry its properties. |
| `Strings.StripIndentation` | bot.py:43 | `'\n'.join([line.lstrip() for line in s.split('\n')])`, the normalisation both templates go through. It has no contract of its own; `Strings.StripIndentationLines`, `Strings.StripIndentationIdempotent`, `Strings.StripJoinedLines` and `Strings.NormalisedBlock` carry its properties. |
| `Strings.StripBlock` | bot.py:34-43 | Take a triple-quoted literal that opens with a newline, indents every line by whitespace and closes on an indentation-only line. Stripping each of its lines gives an empty first line, each body line with its leading whitespace removed, and an empty last line. |
| `Strings.NormalisedBlock` | bot.py:115-123 | the normalised text of such a literal of single lines splits into exactly an empty line, the stripped body lines and an empty line |
| `Strings.Capitalize` | bot.py:20 | `str.capitalize()`: the first character title-cased and the rest lower-cased, through the abstract case mappings. It has no contract; the case tables are not modelled. |
| `Strings.Upper` | echo_bot.py:37 | `str.upper()`, character by character through the abstract case mapping. It has no contract; the case tables are not modelled. |
| `Strings.Split` | bot.py:43 | `s.split('\n')` yields at least one piece, and no piece contains a newline |
| `Strings.JoinSplit` | bot.py:43 | `'\n'.join(s.split('\n')) == s` for every string |
| `Strings.SplitJoin` | bot.py:43 | splitting a `'\n'`-join of newline-free lines gives back exactly those lines, so split and join are inverses |
| `Strings.StripIndentationLines` | bot.py:43 | After normalisation the string has the same number of lines. Each output line is a suffix of its input line and differs from it only by removed leading whitespace. No output line starts with whitespace. |
| `Strings.StripIndentationIdempotent` | bot.py:123 | normalising twice gives the same result as normalising once |
| `Strings.StripJoinedLines` | bot.py:123 | normalising a `'\n'`-join of newline-free lines yields exactly those lines with their indentation stripped |
| `Weather.FormatWeatherData` | bot.py:19-44 | `format_weather_data`: the f-string template normalised. It has no contract of its own; `Weather.FormatWeatherDataLines` and `Weather.FormatWeatherDataStartsWithNewline` carry its properties. |
| `Weather.FormatWeatherDataLines` | bot.py:19-44 | If no substituted value contains a newline, the report has exactly nine lines. Line 1 is empty, because the template opens with a newline. Line 2 is the capitalised description with its leading whitespace removed, followed by `"."`; when the capitalised description has no leading whitespace, that is the capitalised description itself followed by `"."`. Lines 3-8 are the six measurement sentences with the values in template order and the indentation removed. Line 9 is empty. |
| `Weather.FormatWeatherDataStartsWithNewline` | bot.py:34-43 | for every observation, the report is non-empty and starts with a newline |
| `Weather.GetTemperature` | bot.py:47-55 | A status other than 200 gives exactly `"Я не нашел населенный пункт " + place`, and the observation plays no part. Status 200 gives the formatted report of the observation. The result starts with a newline if and only if the status is 200. |
| `Weather.GetTemperatureByCoords` | bot.py:8-16 | A status other than 200 gives one fixed sentence, whatever the coordinates and the observation. Status 200 gives the formatted report. The result starts with a newline if and only if the status is 200. |
| `WeatherBot.HelpText` | bot.py:115-123 | the help text: the triple-quoted literal normalised. It is a constant; `WeatherBot.HelpTextLines` carries its properties. |
| `WeatherBot.HelpTextLines` | bot.py:115-123 | The help text sent for `/start` and `/help` is the triple-quoted literal with its indentation stripped. Its lines are: an empty line, the greeting, an empty line, the "I can answer" line, the three supported inputs, and an empty last line. |
| `WeatherBot.Handler` | bot.py:102-163 | Text is handled first, whatever else the message holds. `/start` or `/help` give exactly one `SendMessage` of the help text. Any other text gives `GetTemperature(text)` followed by `SendMessage` of its result. Without text, a voice message with `duration > 30` (strictly) gives exactly one `SendMessage` of the fixed refusal, with no download, speech-to-text or text-to-speech. A voice message with `duration <= 30` gives, in order: `Download(file_id)`, `Stt(audio)`, `GetTemperature(transcript)`, `Tts(report)`, `SendVoice(speech, chat)`. Without text or voice, a location gives `GetTemperatureByCoords(latitude, longitude)` with exactly those values, followed by a text reply. A message with none of the three gives exactly one fixed unsupported-type `SendMessage`. Every path makes exactly one reply, as its last call, to the message's chat, and returns `{statusCode: 200, body: ""}`. |
| `EchoBot.Handler` | echo_bot.py:13-41 | Every reply is the `send_message` payload built by `EchoBot.ReplyTo`. A missing token means no reply, whatever the update (the body is never looked at). An update without a message gets no reply. A message without text gets exactly the fixed text-only sentence. A text message gets exactly `text.upper()`. There is a reply exactly when a token is set and there is a message, and it is addressed to that message's chat and message. Every path returns `{statusCode: 200, body: ""}`. |
| `EchoBot.HandlerIgnoresToken` | echo_bot.py:24-25 | only whether a token is configured matters, never its value |

## Left out

- HTTP traffic through `requests` is not modelled: URL construction, request
  parameters (API keys, `lang=ru`, `units=metric`, voice and emotion), the
  multipart upload, the two-step file download and the response bodies of
  `send_message`, `send_voice`, `download_file`, `stt` and `tts`. Each call is
  an `Action` in the trace, and its result is a total function in `Services`.
  Delivery failures are not modelled, because the source never inspects them.
- Parsing the event body with `json.loads`, and reading the bot tokens from
  the environment and the access token from the invocation context, are not
  modelled. The weather handler takes the parsed message. The echo handler
  takes the parsed update and the optional token, which the source reads
  once when the module loads.
- Number rendering is not modelled: Python's `str()` of the measurements, the
  pressure conversion `* 0.750062` with `:.2f` (floating point), and
  `datetime.fromtimestamp(...).strftime('%H:%M')` (it depends on the host's
  time zone). `Observation` holds these values already rendered as text.
- Unicode case tables are not modelled. `CaseMap` keeps Python's per-character
  `upper`, `lower` and title-case mappings abstract, each from a character to
  a string. The context-dependent lower-casing of a final Greek sigma is
  therefore not captured.
- Failures on missing keys are not modelled, because the source defines no
  behaviour for them and raises errors instead. Examples are an update
  without `message` in the weather bot, a weather response missing fields,
  and a speech-to-text response without `result`. The model assumes the
  parsed message and weather observation are well formed, and each service
  function always returns an answer.
- Coordinates are modelled as `real` rather than Python floats. The handler
  only passes them on unchanged.
- Weather.FormatWeatherDataLines: requires that no substituted value
  contains a newline. A description containing a newline would add lines to
  the report, and that case is not described.
- The source files use CRLF line endings, and Python reads the templates'
  line breaks as `'\n'`. The model's templates use `'\n'`.
