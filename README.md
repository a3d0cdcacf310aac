# Voice agent core, modelled in Dafny

The system is a voice chat agent. The browser records the user's speech and
uploads it to `/agent/chat/{session_id}`. The server turns the speech into a
transcript with AssemblyAI. It stores the turn in an in-memory history, asks
Gemini for a reply to the conversation so far, stores that reply as well,
synthesises it with Murf in chunks of at most 3000 characters, and returns the
audio URLs. Once the reply has played, the browser starts recording again.
The `services` package adds a calculator and weather "skill" detector, a
Gemini prompt builder with a key check, an OpenWeatherMap report, and a
Tavily web-search summary.

The model has one module per concern:

- `Wrappers` holds `Option` and `Result`.
- `Text` holds Python's `strip`, `split`, `join`, `in`, `lower` and `title`, and the text of integers.
- `ChatHistory` holds the `CHAT_STORE` dictionary as a class, the history trimming, and `build_prompt_from_history`.
- `TtsChunker` holds `murf_generate` with its poll loop, and `murf_generate_chunked` with its chunking loop.
- `Pipeline` holds the `agent_chat` handler, stage by stage, with `require_env`, `debug_fail` and the error replies.
- `Skills` holds `detect_and_process_skills`.
- `LlmService` holds the prompt and key check of `call_gemini_llm`, and `get_real_weather`.
- `WebSearch` holds `tavily_web_search`.
- `Client` holds the `appState` machine of `static/script.js`, `apiCall` and `ensureSessionId`.

Every provider is an oracle parameter: AssemblyAI, Gemini, Murf, OpenWeatherMap, Tavily, Python's `eval`, the microphone, `fetch` and audio playback.
The model says what the code does with each possible answer.
Five loops of the source become methods with loop invariants: the chunking loop and the synthesis loop of `murf_generate_chunked`, the Murf poll, the transcript poll of `agent_chat`, and the loop that formats search results.
Each of these methods is proved equal to a specification function, and lemmas state the properties of that function.
The two prompt loops (`build_prompt_from_history` and the one in `call_gemini_llm`) only map each turn to one line; they become the recursive function `ChatHistory.TurnLines`, which both prompt builders use.

## Model

| member | source | states |
|---|---|---|
| ChatHistory.KeepNewest | main.py:91-92 | the trimmed history is the newest `min(n, 40)` entries of the untrimmed one, in order |
| ChatHistory.AppendThenTrim | main.py:88-92 | after an append to a history within the limit, the history stays within 40 entries and ends with the new message; it is the old history plus the message below the limit, and drops exactly the oldest entry at the limit |
| ChatHistory.PromptLinesShape | main.py:94-107 | the prompt has the three header lines, then one "User: …" or "Assistant: …" line per history entry in order, then "Assistant:" |
| ChatHistory.PromptSplitsIntoLines | main.py:94-107 | when no message contains a newline, splitting the prompt on newlines gives back exactly its lines, so one line per turn |
| ChatHistory.ChatStore.constructor | main.py:82 | the store starts with no sessions |
| ChatHistory.ChatStore.GetHistory | main.py:85-86 | returns the session's history; an unknown session is created with an empty history and no other session changes |
| ChatHistory.ChatStore.AddMsg | main.py:88-92 | only this session changes; its history becomes the newest 40 of the old history plus the message |
| TtsChunker.ChunkText | main.py:169-178 | the loop's chunks are those of the specification on the stripped text, and there are none exactly when the text is all whitespace |
| TtsChunker.ChunksBounded | main.py:171-178 | every chunk is non-empty, at most `chunk_limit` long, and has no leading or trailing whitespace |
| TtsChunker.ChunksCoverText | main.py:171-178 | the stripped text is the chunks in order, with only whitespace between them, so no character other than whitespace is lost or reordered |
| TtsChunker.ZeroLimitStalls | main.py:175-178 | with a limit of 0 one step cuts nothing and leaves the text as it was, so the loop would not terminate |
| TtsChunker.MurfPollFacts | main.py:157-166 | the poll loop stops at the first non-empty URL or the first poll that raises, and returns `None` only after 30 empty polls |
| TtsChunker.MurfOutcomeFacts | main.py:134-166 | at most 30 polls are made, and only after a 200 reply with no URL and a job id; a missing job id gives `None` without polling; a returned URL is never empty |
| TtsChunker.MurfGenerate | main.py:134-166 | the imperative poll loop gives the result of the specification |
| TtsChunker.SynthesisSucceeds | main.py:180-186 | synthesis succeeds exactly when every chunk yields a URL; it then returns one non-empty URL per chunk, in chunk order |
| TtsChunker.SynthesisFailsAtFirst | main.py:180-186 | a failure comes from the first chunk that yields no URL, with that chunk's error |
| TtsChunker.SynthesizeChunks | main.py:180-186 | the loop over the chunks gives the result of the synthesis specification |
| TtsChunker.MurfGenerateChunked | main.py:168-186 | chunks the stripped text as specified, then synthesises those chunks as specified |
| Pipeline.CallFailure | main.py:582-591 | an HTTP error becomes 502 "Upstream error: " plus the first 500 characters of the body; any other exception becomes 500 with its message |
| Pipeline.RequireEnv | main.py:45-49 | succeeds exactly when the variable is set and non-empty, with its value; otherwise a 500 `config` error naming the variable |
| Pipeline.DebugFail | main.py:51-54 | fails exactly when the header equals the tag, with a 503 forced failure from that provider |
| Pipeline.FirstSettled | main.py:539-551 | the index of the first poll that is not pending, or 60 when all 60 are pending |
| Pipeline.SttPollLoop | main.py:538-557 | the poll loop makes between 1 and 60 polls, all pending but the last; it gives the first settled poll's result, or "" after 60 pending polls |
| Pipeline.PollTranscript | main.py:538-551 | the imperative poll loop gives the transcript of the specification |
| Pipeline.Transcribe | main.py:517-557 | the speech-to-text stage gives the result of its specification |
| Pipeline.AgentChat | main.py:503-591 | the handler's reply and the store after it are those of the specification; no other session changes |
| Pipeline.UserTurn | main.py:560 | the user turn is appended and trimmed in this session only |
| Pipeline.ChatTurn | main.py:559-591 | from the transcript on, the reply and the stored history are those of the specification |
| Pipeline.AnswerTurn | main.py:564-591 | from the LLM's answer on, the reply and the stored history are those of the specification |
| Pipeline.ReplyTurn | main.py:567-580 | from a non-empty LLM text on, the assistant turn is stored and the reply or the speech-synthesis error follows the specification |
| Pipeline.DebugTagComesFirst | main.py:506-508 | a debug tag yields its 503 before the environment, the file or any provider is looked at, and nothing is stored |
| Pipeline.MissingKeyIsConfigError | main.py:511-513 | the first of ASSEMBLY_API_KEY, GEMINI_API_KEY and MURF_API_KEY that is unset or empty yields a 500 naming it, and nothing is stored |
| Pipeline.HistoryOnlyAfterTranscript | main.py:503-560 | the history is written exactly when preflight passes, the file is non-empty, upload and job creation succeed, and the poll gives a non-empty transcript |
| Pipeline.TranscribeOutcomes | main.py:517-557 | speech-to-text yields a stripped, non-empty transcript, or a 400, 500, 502 or 504 |
| Pipeline.TranscribeRefusals | main.py:517-557 | an empty file gives 400 "Empty file"; 60 pending polls give 504 "Transcription timed out or empty" |
| Pipeline.UserTurnPrecedesLlm | main.py:560-564 | the prompt is built from a history that ends with the user turn; an LLM failure or empty reply leaves that turn stored with no reply after it and gives 500 or 502 |
| Pipeline.SuccessfulTurn | main.py:559-580 | a reply is sent exactly when the LLM text has non-whitespace and every chunk yields audio; it carries the LLM's text, each chunk's URL in chunk order with the first as `audioUrl`, the stored history and its length |
| Pipeline.StoredTurnEnds | main.py:560-567 | the stored history stays within 40 entries and ends with the user turn, then the assistant turn |
| Pipeline.TtsFailureIsServerError | main.py:567-591 | a whitespace-only LLM text (no chunks, `urls[0]` raises) and a chunk without audio both give 500 with both turns already stored |
| Skills.FindAllRunsFacts | services/llm.py:80 | every run is a non-empty stretch of characters of the expression class, and there is no run exactly when no character of the text is in the class |
| Skills.Render | services/llm.py:87-107 | the returned string is empty exactly when no skill applies; calculations and weather requests carry their prefixes |
| Skills.Calculate | services/llm.py:82-89 | a run is answered exactly when its stripped form passes the safety check; the answer is that expression's value or the apology |
| Skills.WeatherOrNothing | services/llm.py:92-108 | a weather request is made exactly when "weather" occurs in the lowered text, otherwise nothing |
| Skills.SkillReplyKinds | services/llm.py:73-108 | nothing is answered exactly when there is no "weather" and the calculator did not answer; weather only with "weather", calculations only with a cue |
| Skills.NoCueSkipsCalculator | services/llm.py:78 | without a calculator cue the answer is decided by the weather check alone |
| Skills.SafeFirstRunIsEvaluated | services/llm.py:80-89 | with a cue, a safe first run is evaluated and its value or the apology returned, whatever else the text holds |
| Skills.UnsafeFirstRunFallsThrough | services/llm.py:84-92 | an unsafe first run falls through to the weather check |
| Skills.BlankRunGetsApology | services/llm.py:82-89 | a blank run strips to the empty expression, which `eval` rejects, so the answer is the apology |
| Skills.WhatIsQuestionGetsApology | services/llm.py:78-89 | every text starting "what is " is answered with the apology, whatever follows |
| Skills.WeatherWithoutCue | services/llm.py:92-106 | a weather question without a cue becomes a weather request for its city |
| Skills.InWinsOverFor | services/llm.py:96-103 | when " in " and " for " both occur, the city follows " in " |
| Skills.CityFollowsOnlyIn | services/llm.py:96-99 | with a single " in ", the city is the title-cased stripped text after it |
| Skills.CorrectedAgreesOnNonBlankFirstRun | services/llm.py:80-82 | the corrected calculator answers as the original whenever the first run is not blank |
| Skills.WhatIsExpressionIsCalculated | services/llm.py:78-87 | with the correction, "what is " followed by a safe expression is evaluated |
| LlmService.RecentTurns | services/llm.py:15 | the prompt's turns are the newest `min(n, 10)` history entries, in order |
| LlmService.GeminiPromptShape | services/llm.py:14-20 | the prompt is the system prompt, a blank line, one line per recent turn in order, then "Assistant:" |
| LlmService.OlderTurnsIgnored | services/llm.py:15 | turns older than the newest ten do not change the prompt |
| LlmService.GeminiPromptSplits | services/llm.py:14-20 | with no newline in the system prompt or any message, splitting the prompt on newlines gives back its lines |
| LlmService.CallGeminiLlm | services/llm.py:7-30 | an empty key raises "GEMINI_API_KEY missing"; with a key, the result is the SDK's text for this prompt, stripped, or the SDK's error |
| LlmService.GeminiUsesOnlyThePrompt | services/llm.py:9-27 | with no key the SDK is not consulted; with a key the result depends only on the SDK's answer to this prompt, and succeeds exactly when that answer does |
| LlmService.ReadDescription | services/llm.py:60-66 | a missing `weather` list gives "No description"; a `null` or empty list raises |
| LlmService.ReadMain | services/llm.py:59-64 | a missing `main` reads "None" for every value; a `null` `main` raises; otherwise its values are read |
| LlmService.ClassifyWeather | services/llm.py:32-71 | each message is given exactly in its case: no key, a 401, any other non-200, a `cod` other than 200; a report carries the description and the temperature, feels-like and humidity read from the body |
| LlmService.NetworkIssueCases | services/llm.py:37-71 | the network message is given exactly when the request raised, the body was not JSON, or reading a found city's body raised (a `null` or empty `weather` list, a `null` first entry or description, a `null` `main`); the description is the first entry's or "No description", and a missing `main` reads "None" |
| LlmService.WeatherMessageMentions | services/llm.py:32-71 | every message except the invalid-key one names the city, and a status failure names the status code |
| WebSearch.FirstResults | services/search.py:35 | the first `min(n, 3)` results, in order |
| WebSearch.ResultLinesAppend | services/search.py:35-39 | the lines of two result lists are the lines of each, in order |
| WebSearch.ResultLinesFacts | services/search.py:35-39 | there are at most as many lines as results; none exactly when no result has both a title and content; each line comes from a result that has both |
| WebSearch.ResultLineShape | services/search.py:37-39 | a result line is the icon, the title, ": ", a prefix of at most 200 characters of the content, and "..." |
| WebSearch.SearchLinesFacts | services/search.py:31-39 | at most four lines; the quick answer comes first exactly when the answer is non-empty; none exactly when there is no answer and none of the first three results is listed |
| WebSearch.LaterResultsIgnored | services/search.py:35 | results after the third do not change the summary |
| WebSearch.FormatSearchContext | services/search.py:31-39 | the imperative loop builds the lines of the specification, or raises exactly when one of the first three results is `null` or has a `null` content |
| WebSearch.TavilyWebSearch | services/search.py:5-44 | the function's answer is that of the specification |
| WebSearch.MissingKeyIgnoresReply | services/search.py:7-8 | without a key the answer does not depend on the provider and names the query |
| WebSearch.NoResultsCase | services/search.py:27-41 | with a 200 JSON body, the no-results message is given exactly when the first three results read cleanly, there is no answer, and none of them has both a title and content |
| WebSearch.SearchNetworkIssueCases | services/search.py:10-44 | with a key, the network message is given exactly when the request raised, or a 200 body is not JSON, has a `null` result list, or has an unreadable result among the first three |
| WebSearch.ContextSplitsIntoLines | services/search.py:41 | when no field contains a newline, splitting the joined summary gives back its lines |
| Client.StartStep | static/script.js:77-104 | only IDLE starts a recording; it enters RECORDING exactly when the microphone works and otherwise shows the error; consistency is kept |
| Client.StopStep | static/script.js:106-113 | only a running recorder is stopped, which enters PROCESSING; consistency is kept |
| Client.ClickStep | static/script.js:167-172 | clicks during PROCESSING and PLAYING are ignored; from RECORDING they lead to PROCESSING; consistency is kept |
| Client.ApiCall | static/script.js:16-32 | succeeds exactly on an ok response; otherwise fails with the body's error, or "Request failed: " with the status when there is none |
| Client.ReplyStep | static/script.js:116-164 | PLAYING exactly when the call succeeded, an audio URL came back and playback started; otherwise IDLE with the error, "No audio returned" or "Ready" |
| Client.EndedStep | static/script.js:146-150 | the end of playback restarts recording when the microphone works, otherwise IDLE with the error |
| Client.ConversationLoop | static/script.js:77-172 | click, click, a reply that plays and its end lead through RECORDING, PROCESSING and PLAYING back to RECORDING |
| Client.VoiceClient.constructor | static/script.js:72-74 | the page starts IDLE with no recorder and no chunks |
| Client.VoiceClient.StartRecording | static/script.js:77-104 | the page state follows `StartStep`; a new recording drops the old chunks |
| Client.VoiceClient.StopRecording | static/script.js:106-113 | the page state follows `StopStep`; the chunks are kept |
| Client.VoiceClient.OnDataAvailable | static/script.js:89-91 | a non-empty blob is appended and an empty one is dropped |
| Client.VoiceClient.Click | static/script.js:167-172 | the page state follows `ClickStep` |
| Client.VoiceClient.SendToAgent | static/script.js:116-164 | the upload is the recorded chunks joined in order; the page state follows `ReplyStep` |
| Client.VoiceClient.OnEnded | static/script.js:146-150 | the page state follows `EndedStep` |
| Client.ConcatAppend | static/script.js:89-119 | appending a blob appends its bytes to the upload |
| Client.EnsureSessionId | static/script.js:2-11 | a present, non-empty `sessionId` is kept; otherwise the generated id is used and written into the query; other parameters are unchanged |
| Client.SessionIdIsStable | static/script.js:2-11 | a second call returns the same id and leaves the query alone |

## Left out

- Python's `str.isspace`, `lower`, `title` and `capitalize`, and the `\d` and `\s` classes of the calculator's regular expression, are modelled for ASCII only. Non-ASCII digits, whitespace and case mappings are not modelled: for a text such as "٣ + 4 calc" the model finds a different first run than Python does.
- `str.split(" in ")[-1]` is modelled as a left-to-right split into non-overlapping parts, which is what CPython does.
- Python's `eval` is an oracle that returns a value's text or fails. The empty expression always fails.
- The network, the provider SDKs, `time.sleep`, timeouts, the `AbortController` timer, file I/O and the FastAPI routing are left out. Their outcomes are parameters.
- The `fallback_text` and `ok` fields of error replies and the JSON encoding of replies are not modelled. The catch-all handler's fixed 500 body is not modelled either.
- Pipeline.AnswerTurn: an LLM reply without text raises `Empty LLM response: {data}`. The model keeps only the prefix "Empty LLM response", because the response dictionary is not modelled.
- Pipeline.AgentChat: the LLM is `call_gemini_text` as an oracle on the prompt. Its own key check is subsumed by the earlier `require_env`.
- TtsChunker.MurfGenerateChunked: requires a positive chunk limit. With 0 the loop never ends (see TtsChunker.ZeroLimitStalls), and negative limits are not modelled. The handler always passes 3000.
- JSON bodies are modelled by the fields the code reads. Where a missing and a `null` field behave alike (both falsy), both are the empty string. Where a `null` makes the code raise, the model has a separate case that leads to the network message: the search `results`, a result or its `content`, and the weather `weather` list, its first entry, its `description`, and `main`.
- Fields of an unexpected JSON type (a string `results`, a numeric `description`) are not modelled, nor is a `null` `error` in a failed AssemblyAI poll. A dictionary-valued `audioFile` is its `url`. Weather numbers are the text the f-string makes of them.
- The browser query string is a map, so duplicate keys and parameter order are left out. `crypto.randomUUID` and `Date.now` become the `generated` parameter.
- Client.VoiceClient.StartRecording: the handler awaits `getUserMedia` after setting RECORDING. The model takes that step atomically, so a click during the wait is not modelled.
- DOM rendering (`renderHistory`, the LLM text panel, button labels) and the configuration dialog are not modelled.
- The other routes of main.py and the modules `tts.py`, `stt.py`, `models.py` and `utils/logging_config.py` are not part of this model.

## Findings

| source | as written | input that shows it | evidently intended | confidence | as-written member | corrected member |
|---|---|---|---|---|---|---|
| services/llm.py:80-82 | the calculator evaluates the first run of `[\d+\-*/().\s]+`, and the blank between two words is such a run | "what is 25 * 16" yields the apology, because its first run is the blank between "what" and "is" | evaluate the expression, skipping runs that are only whitespace | not executed | Skills.WhatIsQuestionGetsApology | Skills.WhatIsExpressionIsCalculated |
