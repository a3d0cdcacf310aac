/**
 * The deterministic parts of services/llm.py around its two provider calls:
 * the prompt `call_gemini_llm` sends (the system prompt, a blank line, the
 * last ten turns and a closing cue) with its key check, and the message
 * `get_real_weather` returns for every outcome of the OpenWeatherMap request.
 * The providers are oracles.
 */
module LlmService {
  import opened Wrappers
  import opened Text
  import opened ChatHistory

  /** How many of the newest history entries the prompt includes. */
  const GeminiWindow: nat := 10

  /** `history[-10:]`. */
  function RecentTurns(h: seq<Message>): (r: seq<Message>)
    ensures |r| == if |h| <= GeminiWindow then |h| else GeminiWindow
    ensures r == h[|h| - |r|..]
  {
    if |h| > GeminiWindow then h[|h| - GeminiWindow..] else h
  }

  /** The `messages` list of `_sync_gemini_call`. */
  function GeminiPromptLines(h: seq<Message>, systemPrompt: string): seq<string> {
    [systemPrompt, ""] + TurnLines(RecentTurns(h)) + ["Assistant:"]
  }

  /** `"\n".join(messages)`. */
  function GeminiPrompt(h: seq<Message>, systemPrompt: string): string {
    Join(GeminiPromptLines(h, systemPrompt), "\n")
  }

  /** The prompt lines are the system prompt, a blank line, one labelled line
    * for each of the newest (at most ten) entries in history order, and the
    * closing cue. */
  lemma GeminiPromptShape(h: seq<Message>, systemPrompt: string)
    ensures var lines := GeminiPromptLines(h, systemPrompt);
      var n := |RecentTurns(h)|;
      && n <= GeminiWindow && (|h| <= GeminiWindow ==> n == |h|)
      && |lines| == n + 3
      && lines[0] == systemPrompt && lines[1] == ""
      && (forall i :: 2 <= i < n + 2 ==> lines[i] == TurnLine(h[|h| - n + i - 2]))
      && lines[|lines| - 1] == "Assistant:"
  {
    var recent := RecentTurns(h);
    var lines := GeminiPromptLines(h, systemPrompt);
    forall i | 2 <= i < |recent| + 2 ensures lines[i] == TurnLine(h[|h| - |recent| + i - 2]) {
      assert lines[i] == TurnLines(recent)[i - 2];
      assert recent[i - 2] == h[|h| - |recent| + i - 2];
    }
  }

  /** Entries older than the newest ten make no difference to the prompt. */
  lemma OlderTurnsIgnored(older: seq<Message>, h: seq<Message>, systemPrompt: string)
    requires |h| >= GeminiWindow
    ensures GeminiPrompt(older + h, systemPrompt) == GeminiPrompt(h, systemPrompt)
  {
    var all := older + h;
    var r1 := RecentTurns(all);
    var r2 := RecentTurns(h);
    forall i | 0 <= i < GeminiWindow ensures r1[i] == r2[i] {
      assert r1[i] == all[|all| - GeminiWindow + i] == h[|h| - GeminiWindow + i];
    }
    assert r1 == r2;
  }

  /** When neither the system prompt nor a recent message holds a newline,
    * the prompt splits back into exactly its lines. */
  lemma GeminiPromptSplits(h: seq<Message>, systemPrompt: string)
    requires '\n' !in systemPrompt
    requires forall i :: 0 <= i < |h| ==> '\n' !in h[i].content
    ensures Split(GeminiPrompt(h, systemPrompt), '\n') == GeminiPromptLines(h, systemPrompt)
  {
    var recent := RecentTurns(h);
    var turns := TurnLines(recent);
    forall k | 0 <= k < |turns| ensures '\n' !in turns[k] {
      assert recent[k] == h[|h| - |recent| + k];
      TurnLineHasNoNewline(recent[k]);
    }
    var lines := GeminiPromptLines(h, systemPrompt);
    forall k | 0 <= k < |lines| ensures '\n' !in lines[k] {
      if k < 2 {
        assert lines[k] == [systemPrompt, ""][k];
      } else if k < 2 + |turns| {
        assert lines[k] == turns[k - 2];
      } else {
        assert lines[k] == "Assistant:";
      }
    }
    SplitJoin(lines, '\n');
  }

  const MissingGeminiKey: string := "GEMINI_API_KEY missing"

  /** `call_gemini_llm`: a missing key raises before any prompt is built;
    * otherwise the prompt goes to `generate` (the Gemini SDK, which may raise)
    * and the reply text comes back stripped ("" when the reply has no text). */
  function CallGeminiLlm(h: seq<Message>, systemPrompt: string, apiKey: string,
                         generate: string -> Result<string, string>): (r: Result<string, string>)
    ensures apiKey == "" ==> r == Failure(MissingGeminiKey)
    ensures apiKey != "" && generate(GeminiPrompt(h, systemPrompt)).Success? ==>
      r == Success(Strip(generate(GeminiPrompt(h, systemPrompt)).value))
    ensures apiKey != "" && generate(GeminiPrompt(h, systemPrompt)).Failure? ==>
      r == generate(GeminiPrompt(h, systemPrompt))
    ensures r.Success? ==> IsStripped(r.value)
  {
    if apiKey == "" then Failure(MissingGeminiKey)
    else match generate(GeminiPrompt(h, systemPrompt))
      case Success(text) => Success(Strip(text))
      case Failure(e) => Failure(e)
  }

  /** With a key, the result is exactly what the SDK makes of this prompt:
    * its text, stripped, or its error. With no key, the SDK is not
    * consulted: any two SDKs give the same result. */
  lemma GeminiUsesOnlyThePrompt(h: seq<Message>, systemPrompt: string, apiKey: string,
                                generate: string -> Result<string, string>,
                                other: string -> Result<string, string>)
    ensures apiKey == "" ==>
      CallGeminiLlm(h, systemPrompt, apiKey, generate) == CallGeminiLlm(h, systemPrompt, apiKey, other)
    ensures apiKey != "" && other(GeminiPrompt(h, systemPrompt)) == generate(GeminiPrompt(h, systemPrompt)) ==>
      CallGeminiLlm(h, systemPrompt, apiKey, generate) == CallGeminiLlm(h, systemPrompt, apiKey, other)
    ensures apiKey != "" ==>
      (CallGeminiLlm(h, systemPrompt, apiKey, generate).Success? <==> generate(GeminiPrompt(h, systemPrompt)).Success?)
  {
  }

  // ---- get_real_weather ----

  /** A key of a JSON object: absent, present with `null`, or present with a
    * value. `dict.get` gives its default only in the first case. */
  datatype JsonField<+T> = Missing | Null | Present(value: T)

  /** One entry of the `weather` list: `null`, or an object whose
    * `description` the function reads. */
  datatype WeatherEntry = NullEntry | Entry(description: JsonField<string>)

  /** The text the f-string makes of `main.temp`, `main.feels_like` and
    * `main.humidity` ("None" for a missing or `null` value). */
  datatype MainData = MainData(temp: string, feelsLike: string, humidity: string)

  /** The parts of the OpenWeatherMap JSON body the function reads: `cod`
    * (`None` when it is missing, `null` or not an integer), the `weather`
    * list and the `main` object. */
  datatype WeatherData = WeatherData(
    cod: Option<int>,
    weather: JsonField<seq<WeatherEntry>>,
    main: JsonField<MainData>)

  /** The outcome of the request: an exception from `httpx`, or a status with
    * the body (`None` when it is not JSON). */
  datatype WeatherReply =
    | WeatherRequestFailed
    | WeatherResponse(status: nat, body: Option<WeatherData>)

  /** The kinds of answer the function gives. */
  datatype WeatherAnswer =
    | KeyNotConfigured
    | InvalidKey
    | StatusFailure(status: nat)
    | CityNotFound
    | Report(description: string, temp: string, feelsLike: string, humidity: string)
    | NetworkIssue

  const DefaultDescription: string := "No description"

  /** What `main.get(...)` reads when `main` is missing: every value is `None`. */
  const AbsentMain: MainData := MainData("None", "None", "None")

  /** `data.get('weather', [{}])[0].get('description', 'No description')`
    * followed by `.capitalize()`: `None` where one of these steps raises (a
    * `null` or empty list, a `null` entry, a `null` description). */
  function ReadDescription(weather: JsonField<seq<WeatherEntry>>): (d: Option<string>)
    ensures weather.Missing? ==> d == Some(DefaultDescription)
    ensures weather.Null? ==> d.None?
    ensures weather.Present? && weather.value == [] ==> d.None?
  {
    match weather
    case Missing => Some(DefaultDescription)
    case Null => None
    case Present(entries) =>
      if entries == [] then None
      else match entries[0]
        case NullEntry => None
        case Entry(desc) =>
          match desc
          case Missing => Some(DefaultDescription)
          case Null => None
          case Present(text) => Some(text)
  }

  /** `data.get('main', {})` followed by the three `main.get(...)` calls:
    * `None` when `main` is `null`, which makes `.get` raise. */
  function ReadMain(main: JsonField<MainData>): (m: Option<MainData>)
    ensures main.Null? <==> m.None?
    ensures main.Missing? ==> m == Some(AbsentMain)
    ensures main.Present? ==> m == Some(main.value)
  {
    match main
    case Missing => Some(AbsentMain)
    case Null => None
    case Present(values) => Some(values)
  }

  /** How the function classifies the outcome; a step that raises while the
    * body is read is turned into the network message by the `except`, like
    * any other exception. */
  function ClassifyWeather(apiKey: string, reply: WeatherReply): (a: WeatherAnswer)
    ensures a.KeyNotConfigured? <==> apiKey == ""
    ensures a.InvalidKey? <==> apiKey != "" && reply.WeatherResponse? && reply.status == 401
    ensures a.StatusFailure? <==>
      apiKey != "" && reply.WeatherResponse? && reply.status != 401 && reply.status != 200
    ensures a.StatusFailure? ==> a.status == reply.status
    ensures a.CityNotFound? <==>
      apiKey != "" && reply.WeatherResponse? && reply.status == 200 && reply.body.Some?
      && reply.body.value.cod != Some(200)
    ensures a.Report? ==>
      reply.WeatherResponse? && reply.status == 200 && reply.body.Some? && reply.body.value.cod == Some(200)
      && ReadDescription(reply.body.value.weather) == Some(a.description)
      && ReadMain(reply.body.value.main) == Some(MainData(a.temp, a.feelsLike, a.humidity))
  {
    if apiKey == "" then KeyNotConfigured
    else match reply
      case WeatherRequestFailed => NetworkIssue
      case WeatherResponse(status, body) =>
        if status == 401 then InvalidKey
        else if status != 200 then StatusFailure(status)
        else if body.None? then NetworkIssue
        else if body.value.cod != Some(200) then CityNotFound
        else
          var desc := ReadDescription(body.value.weather);
          var main := ReadMain(body.value.main);
          if desc.None? || main.None? then NetworkIssue
          else Report(desc.value, main.value.temp, main.value.feelsLike, main.value.humidity)
  }

  /** The network message is given exactly when the request raised, the body
    * was not JSON, or reading a found city's body raised: a `null` or empty
    * `weather` list, a `null` first entry or description, or a `null` `main`.
    * A report's description is the first entry's, or "No description" when
    * the list or the key is missing; its values read "None" when `main` is
    * missing. */
  lemma NetworkIssueCases(apiKey: string, reply: WeatherReply)
    requires apiKey != ""
    ensures ClassifyWeather(apiKey, reply).NetworkIssue? <==>
      reply.WeatherRequestFailed?
      || (reply.status == 200 && reply.body.None?)
      || (reply.status == 200 && reply.body.Some? && reply.body.value.cod == Some(200)
          && var d := reply.body.value;
          (d.weather.Null? || d.main.Null? || (d.weather.Present? &&
            (d.weather.value == [] || d.weather.value[0].NullEntry? || d.weather.value[0].description.Null?))))
    ensures var a := ClassifyWeather(apiKey, reply);
      a.Report? ==>
        (reply.body.value.weather.Missing? ==> a.description == DefaultDescription)
        && (reply.body.value.weather.Present? && reply.body.value.weather.value[0].description.Missing? ==>
              a.description == DefaultDescription)
        && (reply.body.value.weather.Present? && reply.body.value.weather.value[0].description.Present? ==>
              a.description == reply.body.value.weather.value[0].description.value)
        && (reply.body.value.main.Missing? ==> a.temp == "None" && a.feelsLike == "None" && a.humidity == "None")
  {
  }

  const WeatherIcon: string := "\U{1F324}\U{FE0F} "

  /** The f-strings of `get_real_weather`. */
  function RenderWeather(city: string, a: WeatherAnswer): string {
    match a
    case KeyNotConfigured =>
      WeatherIcon + "Weather API key not configured. Please add your OpenWeatherMap API key in the "
      + "\U{2699}\U{FE0F} Config dialog to get real weather for " + city + "."
    case InvalidKey =>
      WeatherIcon + "Invalid weather API key. Please check your OpenWeatherMap API key in the config."
    case StatusFailure(status) =>
      WeatherIcon + "Could not get weather for " + city + ". Error: " + NatToString(status)
    case CityNotFound =>
      WeatherIcon + "Weather data not found for " + city + ". Please check the city name."
    case Report(d, temp, feels, humidity) =>
      WeatherIcon + "Current weather in " + city + ReportDetails(d, temp, feels, humidity)
    case NetworkIssue =>
      WeatherIcon + "Error getting weather for " + city + ": Network issue, please try again."
  }

  /** The part of the success message after the city. */
  function ReportDetails(d: string, temp: string, feels: string, humidity: string): string {
    ": " + Capitalize(d) + ", Temperature: " + temp + "\U{B0}C (feels like " + feels
    + "\U{B0}C), Humidity: " + humidity + "%"
  }

  /** `get_real_weather`: it never raises; every outcome becomes a message. */
  function GetRealWeather(city: string, apiKey: string, reply: WeatherReply): string {
    RenderWeather(city, ClassifyWeather(apiKey, reply))
  }

  /** Every message names the city except the invalid-key one, and a status
    * failure names the status code. */
  lemma WeatherMessageMentions(city: string, apiKey: string, reply: WeatherReply)
    ensures var a := ClassifyWeather(apiKey, reply);
      !a.InvalidKey? ==> Contains(GetRealWeather(city, apiKey, reply), city)
    ensures var a := ClassifyWeather(apiKey, reply);
      a.StatusFailure? ==> Contains(GetRealWeather(city, apiKey, reply), NatToString(reply.status))
  {
    var a := ClassifyWeather(apiKey, reply);
    match a
    case KeyNotConfigured => KeyMessageNamesCity(city);
    case InvalidKey =>
    case StatusFailure(status) => StatusMessageNamesCityAndCode(city, status);
    case CityNotFound => NotFoundMessageNamesCity(city);
    case Report(d, temp, feels, humidity) => ReportNamesCity(city, d, temp, feels, humidity);
    case NetworkIssue => NetworkMessageNamesCity(city);
  }

  lemma KeyMessageNamesCity(city: string)
    ensures Contains(RenderWeather(city, KeyNotConfigured), city)
  {
    var pre := WeatherIcon + "Weather API key not configured. Please add your OpenWeatherMap API key in the "
      + "\U{2699}\U{FE0F} Config dialog to get real weather for ";
    assert RenderWeather(city, KeyNotConfigured) == pre + city + ".";
    ContainsInfix(pre, city, ".");
  }

  lemma StatusMessageNamesCityAndCode(city: string, status: nat)
    ensures Contains(RenderWeather(city, StatusFailure(status)), city)
    ensures Contains(RenderWeather(city, StatusFailure(status)), NatToString(status))
  {
    var pre := WeatherIcon + "Could not get weather for ";
    var code := NatToString(status);
    var msg := RenderWeather(city, StatusFailure(status));
    assert msg == pre + city + (". Error: " + code);
    ContainsInfix(pre, city, ". Error: " + code);
    assert msg == (pre + city + ". Error: ") + code + "";
    ContainsInfix(pre + city + ". Error: ", code, "");
  }

  lemma NotFoundMessageNamesCity(city: string)
    ensures Contains(RenderWeather(city, CityNotFound), city)
  {
    var pre := WeatherIcon + "Weather data not found for ";
    var post := ". Please check the city name.";
    assert RenderWeather(city, CityNotFound) == pre + city + post;
    ContainsInfix(pre, city, post);
  }

  lemma ReportNamesCity(city: string, d: string, temp: string, feels: string, humidity: string)
    ensures Contains(RenderWeather(city, Report(d, temp, feels, humidity)), city)
  {
    ContainsInfix(WeatherIcon + "Current weather in ", city, ReportDetails(d, temp, feels, humidity));
  }

  lemma NetworkMessageNamesCity(city: string)
    ensures Contains(RenderWeather(city, NetworkIssue), city)
  {
    var pre := WeatherIcon + "Error getting weather for ";
    var post := ": Network issue, please try again.";
    assert RenderWeather(city, NetworkIssue) == pre + city + post;
    ContainsInfix(pre, city, post);
  }
}
