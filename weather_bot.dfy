/**
  The weather bot's webhook handler (bot.py). The handler looks at an
  already parsed message, chooses a branch by the keys present in it (text
  first, then voice, then location), and makes a short sequence of external
  calls, each fed by the one before. Every call is recorded as an `Action` in
  the order it is made. What the external services answer is given by
  `Services`, a set of total functions, so the flow of data from one call to
  the next can be stated exactly.
 */
module WeatherBot {
  import opened Wrappers
  import opened Webhook
  import opened Strings
  import Weather

  type Byte = x: int | 0 <= x < 256

  /** The bytes of a voice recording. */
  type Audio = seq<Byte>

  /** The `voice` object of a message. */
  datatype Voice = Voice(fileId: string, duration: int)

  /** The `location` object of a message. */
  datatype Location = Location(latitude: real, longitude: real)

  /** The `message` object of an update. The three content keys are
      independent: the chat platform may send any combination, and the
      handler decides by which one it looks at first. */
  datatype Message = Message(
    messageId: int,
    chatId: int,
    text: Option<string>,
    voice: Option<Voice>,
    location: Option<Location>)

  /** One external call the handler makes. */
  datatype Action =
    | SendMessage(text: string, chatId: int, messageId: int)
    | GetTemperature(place: string)
    | GetTemperatureByCoords(lat: real, lon: real)
    | Download(fileId: string)
    | Stt(audio: Audio)
    | Tts(text: string)
    | SendVoice(audio: Audio, chatId: int)
  {
    /** Whether the call replies to the user. */
    predicate IsReply() {
      SendMessage? || SendVoice?
    }

    /** The chat a reply goes to. */
    function Recipient(): int
      requires IsReply()
    {
      chatId
    }
  }

  /** What the external services answer: the weather provider for a place
      name and for a position, the chat platform's file download, speech
      recognition and speech synthesis, and Python's case mapping. */
  datatype Services = Services(
    weatherByName: string -> Weather.WeatherResponse,
    weatherByCoords: (real, real) -> Weather.WeatherResponse,
    download: string -> Audio,
    stt: Audio -> string,
    tts: string -> Audio,
    caseMap: CaseMap)

  /** The longest voice message, in seconds, the bot transcribes. */
  const MaxVoiceDuration: int := 30

  /** The reply to a voice message that is too long. */
  const VoiceTooLong: string := "Голосовое сообщение должно быть короче 30 секунд"

  /** The reply to a message with neither text, voice nor location. */
  const UnsupportedMessage: string := "Могу ответить только на текстовое или голосовое сообщение"

  /** The indentation of the help text's triple-quoted literal. */
  const HelpIndent: string := "            "

  /** The lines of the help text, without their indentation. (The longer
      lines are written as two literals: the verifier reasons about the
      characters of short literals only.) */
  const Greeting: string := "Я расскажу о текущей погоде " + "для населенного пункта."
  const AnswersTo: string := "Я могу ответить на:"
  const TextItem: string := "- Текстовое сообщение " + "с названием населенного пункта."
  const VoiceItem: string := "- Голосовое сообщение " + "с названием населенного пункта."
  const LocationItem: string := "- Сообщение с геопозицией."

  /** The help text's lines in order; the second is empty. */
  const HelpLines: seq<string> := [Greeting, "", AnswersTo, TextItem, VoiceItem, LocationItem]

  /** The lines of the help text's literal before normalisation: an empty
      first line (the literal opens with a newline), the indented lines of
      text, and a last line of indentation only. */
  const HelpTemplateLines: seq<string> := Block(HelpIndent, HelpLines)

  /** The help text sent for `/start` and `/help`: the literal with the
      indentation of every line stripped. */
  const HelpText: string := StripIndentation(Join(HelpTemplateLines))

  /** The help text as the user reads it, line by line: an empty first line,
      the greeting, an empty line, the list of what the bot answers, and an
      empty last line. */
  lemma HelpTextLines()
    ensures Split(HelpText) == [""] + HelpLines + [""]
    ensures HelpText == Join(Split(HelpText))
  {
    HelpLinesSingle();
    HelpIndentAllSpace();
    NormalisedBlock(HelpIndent, HelpLines);
    HelpLinesUnindented();
    LStripEachUnindented(HelpLines);
    JoinSplit(HelpText);
  }

  /** No line of the help text holds a newline. */
  lemma HelpLinesSingle()
    ensures forall k :: 0 <= k < |HelpLines| ==> '\n' !in HelpLines[k]
  {
    GreetingLine();
    AnswersToLine();
    TextItemLine();
    VoiceItemLine();
    LocationItemLine();
  }

  /** No line of the help text starts with whitespace. */
  lemma HelpLinesUnindented()
    ensures forall k :: 0 <= k < |HelpLines| ==> Unindented(HelpLines[k])
  {
    GreetingLine();
    AnswersToLine();
    TextItemLine();
    VoiceItemLine();
    LocationItemLine();
  }

  /** Each line of the help text is a single line that starts with a letter
      or a dash. */
  lemma GreetingLine()
    ensures '\n' !in Greeting && Unindented(Greeting)
  {
    SingleLineConcat("Я расскажу о текущей погоде ", "для населенного пункта.");
  }

  lemma AnswersToLine()
    ensures '\n' !in AnswersTo && Unindented(AnswersTo)
  {
  }

  lemma TextItemLine()
    ensures '\n' !in TextItem && Unindented(TextItem)
  {
    SingleLineConcat("- Текстовое сообщение ", "с названием населенного пункта.");
  }

  lemma VoiceItemLine()
    ensures '\n' !in VoiceItem && Unindented(VoiceItem)
  {
    SingleLineConcat("- Голосовое сообщение ", "с названием населенного пункта.");
  }

  lemma LocationItemLine()
    ensures '\n' !in LocationItem && Unindented(LocationItem)
  {
  }

  /** The help literal's indentation is whitespace on one line. */
  lemma HelpIndentAllSpace()
    ensures AllSpace(HelpIndent) && '\n' !in HelpIndent
  {
  }

  /** `handler`: answers one message and returns the calls it made, in
      order, with the envelope for the platform.
      - Text is looked at first, whatever else the message holds: `/start`
        and `/help` get the help text and nothing else; any other text is a
        place name, looked up and answered with the report as text.
      - Otherwise a voice message longer than 30 seconds (strictly) gets a
        fixed refusal and is never downloaded. A shorter one is downloaded,
        transcribed, the transcript looked up as a place, the report
        synthesised, and the speech sent back.
      - Otherwise a location is looked up by its exact coordinates and
        answered as text.
      - Anything else gets the fixed unsupported-message reply.
      Every path replies exactly once, as its last call, to the message's
      chat, and returns the same envelope. */
  method Handler(m: Message, svc: Services) returns (trace: seq<Action>, response: Envelope)
    ensures response == FuncResponse
    ensures m.text == Some("/start") || m.text == Some("/help") ==>
      trace == [SendMessage(HelpText, m.chatId, m.messageId)]
    ensures m.text.Some? && m.text.value != "/start" && m.text.value != "/help" ==>
      var place := m.text.value;
      trace == [ GetTemperature(place),
                 SendMessage(Weather.GetTemperature(place, svc.weatherByName(place), svc.caseMap),
                             m.chatId, m.messageId) ]
    ensures m.text.None? && m.voice.Some? && m.voice.value.duration > MaxVoiceDuration ==>
      trace == [SendMessage(VoiceTooLong, m.chatId, m.messageId)]
    ensures m.text.None? && m.voice.Some? && m.voice.value.duration <= MaxVoiceDuration ==>
      var content := svc.download(m.voice.value.fileId);
      var place := svc.stt(content);
      var report := Weather.GetTemperature(place, svc.weatherByName(place), svc.caseMap);
      trace == [ Download(m.voice.value.fileId), Stt(content), GetTemperature(place),
                 Tts(report), SendVoice(svc.tts(report), m.chatId) ]
    ensures m.text.None? && m.voice.None? && m.location.Some? ==>
      var lat, lon := m.location.value.latitude, m.location.value.longitude;
      trace == [ GetTemperatureByCoords(lat, lon),
                 SendMessage(Weather.GetTemperatureByCoords(lat, lon, svc.weatherByCoords(lat, lon), svc.caseMap),
                             m.chatId, m.messageId) ]
    ensures m.text.None? && m.voice.None? && m.location.None? ==>
      trace == [SendMessage(UnsupportedMessage, m.chatId, m.messageId)]
    ensures |trace| >= 1 && trace[|trace| - 1].IsReply() && trace[|trace| - 1].Recipient() == m.chatId
    ensures forall i :: 0 <= i < |trace| - 1 ==> !trace[i].IsReply()
  {
    response := FuncResponse;
    trace := [];

    if m.text.Some? {
      var place := m.text.value;
      if place == "/start" || place == "/help" {
        trace := trace + [SendMessage(HelpText, m.chatId, m.messageId)];
      } else {
        trace := trace + [GetTemperature(place)];
        var report := Weather.GetTemperature(place, svc.weatherByName(place), svc.caseMap);
        trace := trace + [SendMessage(report, m.chatId, m.messageId)];
      }
      return;
    }

    if m.voice.Some? {
      var voice := m.voice.value;
      if voice.duration > MaxVoiceDuration {
        trace := trace + [SendMessage(VoiceTooLong, m.chatId, m.messageId)];
        return;
      }
      trace := trace + [Download(voice.fileId)];
      var content := svc.download(voice.fileId);
      trace := trace + [Stt(content)];
      var place := svc.stt(content);
      trace := trace + [GetTemperature(place)];
      var report := Weather.GetTemperature(place, svc.weatherByName(place), svc.caseMap);
      trace := trace + [Tts(report)];
      var speech := svc.tts(report);
      trace := trace + [SendVoice(speech, m.chatId)];
      return;
    }

    if m.location.Some? {
      var lat, lon := m.location.value.latitude, m.location.value.longitude;
      trace := trace + [GetTemperatureByCoords(lat, lon)];
      var report := Weather.GetTemperatureByCoords(lat, lon, svc.weatherByCoords(lat, lon), svc.caseMap);
      trace := trace + [SendMessage(report, m.chatId, m.messageId)];
      return;
    }

    trace := trace + [SendMessage(UnsupportedMessage, m.chatId, m.messageId)];
  }
}
