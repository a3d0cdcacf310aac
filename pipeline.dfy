/**
 * The `/agent/chat/{session_id}` handler of main.py: forced failures, the
 * environment check, speech-to-text with a bounded poll, the history turns
 * around the LLM call, and chunked text-to-speech. Every provider is an
 * oracle; the result is the JSON reply or the error the handler produces.
 */
module Pipeline {
  import opened Wrappers
  import opened Text
  import opened ChatHistory
  import opened TtsChunker

  /** What the handler produces: a raised `UpstreamError`, an error
    * `JSONResponse` (each carries the same fallback text, not modelled), or
    * the reply dictionary. */
  datatype Response =
    | UpstreamError(provider: string, detail: string, status: int)
    | ErrorReply(status: int, error: string)
    | ChatReply(sessionId: string, text: string, llmText: string, audioUrl: string,
                audioUrls: seq<string>, turns: nat, history: seq<Message>)

  /** The HTTP status a response is sent with. */
  function Status(r: Response): int {
    match r
    case UpstreamError(_, _, status) => status
    case ErrorReply(status, _) => status
    case ChatReply(_, _, _, _, _, _, _) => 200
  }

  /** The outcome of one `requests` call: its value, an `HTTPError` raised by
    * `raise_for_status` with the response body, or any other exception. */
  datatype Call<T> = Ok(value: T) | HttpError(body: string) | Crash(detail: string)

  /** The two `except` clauses of the handler. */
  function CallFailure<T>(c: Call<T>): (r: Response)
    requires !c.Ok?
    ensures c.HttpError? ==> r == ErrorReply(502, "Upstream error: " + Take(c.body, 500))
    ensures c.Crash? ==> r == ErrorReply(500, c.detail)
  {
    if c.HttpError? then ErrorReply(502, "Upstream error: " + Take(c.body, 500)) else ErrorReply(500, c.detail)
  }

  const DebugTags: set<string> := {"agent", "stt", "llm", "tts"}
  const ForcedFailure: string := "Forced failure for testing"
  const RequiredKeys: seq<string> := ["ASSEMBLY_API_KEY", "GEMINI_API_KEY", "MURF_API_KEY"]

  /** `require_env`: an unset or empty variable raises a configuration error. */
  function RequireEnv(env: map<string, string>, k: string): (r: Result<string, Response>)
    ensures r.Success? <==> k in env && env[k] != ""
    ensures r.Success? ==> r.value == env[k]
    ensures r.Failure? ==> r.error == UpstreamError("config", "Missing env var: " + k, 500)
  {
    if k in env && env[k] != "" then Success(env[k])
    else Failure(UpstreamError("config", "Missing env var: " + k, 500))
  }

  /** `debug_fail`: raises exactly when the `x-debug-fail` header names the tag. */
  function DebugFail(header: Option<string>, tag: string): (r: Option<Response>)
    ensures r.Some? <==> header == Some(tag)
    ensures r.Some? ==> r.value == UpstreamError(tag, ForcedFailure, 503) && Status(r.value) == 503
  {
    if header == Some(tag) then Some(UpstreamError(tag, ForcedFailure, 503)) else None
  }

  /** The checks made before any provider is called: the debug tag first,
    * then the three keys in order. */
  function Preflight(header: Option<string>, env: map<string, string>): Option<Response> {
    if header.Some? && header.value in DebugTags then Some(UpstreamError(header.value, ForcedFailure, 503))
    else if RequireEnv(env, RequiredKeys[0]).Failure? then Some(RequireEnv(env, RequiredKeys[0]).error)
    else if RequireEnv(env, RequiredKeys[1]).Failure? then Some(RequireEnv(env, RequiredKeys[1]).error)
    else if RequireEnv(env, RequiredKeys[2]).Failure? then Some(RequireEnv(env, RequiredKeys[2]).error)
    else None
  }

  /** One transcript poll: `status` "completed" with the text ("" when it is
    * missing), "error" with the error text (the caller supplies
    * "Transcription error" when it is missing), any other status, or an
    * exception while polling. */
  datatype SttPoll =
    | SttCompleted(text: string)
    | SttErrored(error: string)
    | SttPending
    | SttPollCrash(detail: string)

  const SttPollAttempts: nat := 60

  /** The poll loop: the stripped transcript (possibly empty) or the response
    * that ends the request, and how many polls were made. */
  datatype SttRun = SttRun(transcript: Result<string, Response>, polls: nat)

  /** What a poll that is not pending ends the loop with. */
  function PollResult(p: SttPoll): Result<string, Response>
    requires !p.SttPending?
  {
    match p
    case SttCompleted(t) => Success(Strip(t))
    case SttErrored(e) => Failure(ErrorReply(502, e))
    case SttPollCrash(d) => Failure(ErrorReply(500, d))
  }

  /** The attempt the poll loop stops at, looking from attempt `i` on: the
    * first poll that is not pending, or `SttPollAttempts` when all are. */
  function FirstSettled(stt: nat -> SttPoll, i: nat): (k: nat)
    requires i <= SttPollAttempts
    ensures i <= k <= SttPollAttempts
    ensures forall j :: i <= j < k ==> stt(j) == SttPending
    ensures k < SttPollAttempts ==> !stt(k).SttPending?
    decreases SttPollAttempts - i
  {
    if i == SttPollAttempts then SttPollAttempts
    else if !stt(i).SttPending? then i
    else FirstSettled(stt, i + 1)
  }

  /** The poll loop: at most 60 polls, every one but the last pending; a
    * last poll that is not pending decides the outcome, and 60 pending polls
    * leave the transcript empty. */
  function SttPollLoop(stt: nat -> SttPoll): (run: SttRun)
    ensures 1 <= run.polls <= SttPollAttempts
    ensures forall j :: 0 <= j < run.polls - 1 ==> stt(j) == SttPending
    ensures stt(run.polls - 1).SttPending? ==> run.polls == SttPollAttempts && run.transcript == Success("")
    ensures !stt(run.polls - 1).SttPending? ==> run.transcript == PollResult(stt(run.polls - 1))
  {
    var k := FirstSettled(stt, 0);
    if k == SttPollAttempts then SttRun(Success(""), SttPollAttempts)
    else SttRun(PollResult(stt(k)), k + 1)
  }

  /** The poll loop of `agent_chat`. */
  method PollTranscript(stt: nat -> SttPoll) returns (transcript: Result<string, Response>)
    ensures transcript == SttPollLoop(stt).transcript
  {
    var attempt := 0;
    while attempt < SttPollAttempts
      invariant attempt <= SttPollAttempts
      invariant FirstSettled(stt, attempt) == FirstSettled(stt, 0)
    {
      var answer := stt(attempt);
      if answer.SttCompleted? {
        return Success(Strip(answer.text));
      }
      if answer.SttErrored? {
        return Failure(ErrorReply(502, answer.error));
      }
      if answer.SttPollCrash? {
        return Failure(ErrorReply(500, answer.detail));
      }
      attempt := attempt + 1;
    }
    transcript := Success("");
  }

  /** `str(e)` of the errors the handler turns into a 500 itself: the
    * `RuntimeError` of an empty LLM reply (whose dump of the response body is
    * not modelled) and the `IndexError` of `urls[0]` on an empty list. */
  const EmptyLlmResponse: string := "Empty LLM response"
  const IndexErrorMessage: string := "list index out of range"
  const TtsChunkLimit: nat := 3000

  /** What a request did: the response, and the session's history afterwards
    * (`None` when the store was not touched). */
  datatype AgentRun = AgentRun(resp: Response, history: Option<seq<Message>>)

  /** The handler once a non-empty transcript is in hand: the user turn is
    * stored, the prompt is built from the stored history, and the assistant
    * turn is stored only after the LLM answers. `llm` maps the prompt to the
    * outcome of `call_gemini_text`; `gen` and `poll` are the Murf replies per
    * chunk. */
  function AfterTranscript(sid: string, before: seq<Message>, transcript: string,
                           llm: string -> Call<string>, gen: nat -> GenerateReply,
                           poll: nat -> nat -> MurfPoll): AgentRun
  {
    var h1 := KeepNewest(before + [Message("user", transcript)]);
    AfterLlm(sid, h1, transcript, llm(BuildPromptFromHistory(h1)), gen, poll)
  }

  /** The handler once the LLM call with the history `h1` has settled. */
  function AfterLlm(sid: string, h1: seq<Message>, transcript: string, reply: Call<string>,
                    gen: nat -> GenerateReply, poll: nat -> nat -> MurfPoll): AgentRun
  {
    if !reply.Ok? then AgentRun(CallFailure(reply), Some(h1))
    else if reply.value == "" then AgentRun(ErrorReply(500, EmptyLlmResponse), Some(h1))
    else AfterReply(sid, h1, transcript, reply.value, gen, poll)
  }

  /** The handler once the LLM has answered with a non-empty `text`: the
    * assistant turn is stored, then the text is spoken chunk by chunk. */
  function AfterReply(sid: string, h1: seq<Message>, transcript: string, text: string,
                      gen: nat -> GenerateReply, poll: nat -> nat -> MurfPoll): AgentRun
  {
    var h2 := KeepNewest(h1 + [Message("assistant", text)]);
    var chunks := Chunks(Strip(text), TtsChunkLimit);
    match SynthesisFrom(|chunks|, gen, poll, 0)
    case Failure(e) => AgentRun(ErrorReply(500, e), Some(h2))
    case Success(urls) =>
      if urls == [] then AgentRun(ErrorReply(500, IndexErrorMessage), Some(h2))
      else AgentRun(ChatReply(sid, transcript, text, urls[0], urls, |h2|, h2), Some(h2))
  }

  /** The speech-to-text stage: the non-empty transcript, or the response
    * that ends the request (400 for an empty file, 504 for a transcript that
    * is still empty). */
  function TranscribeSpec(audio: seq<bv8>, upload: Call<string>, create: Call<string>,
                          stt: nat -> SttPoll): Result<string, Response>
  {
    if audio == [] then Failure(ErrorReply(400, "Empty file"))
    else if !upload.Ok? then Failure(CallFailure(upload))
    else if !create.Ok? then Failure(CallFailure(create))
    else
      var run := SttPollLoop(stt);
      if run.transcript.Failure? then run.transcript
      else if run.transcript.value == "" then Failure(ErrorReply(504, "Transcription timed out or empty"))
      else run.transcript
  }

  /** `agent_chat` as a function of the session's history `before` and every
    * outcome it depends on. */
  function AgentChatSpec(sid: string, before: seq<Message>, header: Option<string>,
                         env: map<string, string>, audio: seq<bv8>,
                         upload: Call<string>, create: Call<string>, stt: nat -> SttPoll,
                         llm: string -> Call<string>, gen: nat -> GenerateReply,
                         poll: nat -> nat -> MurfPoll): AgentRun
  {
    if Preflight(header, env).Some? then AgentRun(Preflight(header, env).value, None)
    else
      var transcript := TranscribeSpec(audio, upload, create, stt);
      if transcript.Failure? then AgentRun(transcript.error, None)
      else AfterTranscript(sid, before, transcript.value, llm, gen, poll)
  }

  /** `agent_chat`, changing the chat store as the handler does. */
  method AgentChat(store: ChatStore, sid: string, header: Option<string>, env: map<string, string>,
                   audio: seq<bv8>, upload: Call<string>, create: Call<string>, stt: nat -> SttPoll,
                   llm: string -> Call<string>, gen: nat -> GenerateReply, poll: nat -> nat -> MurfPoll)
    returns (resp: Response)
    requires store.Valid()
    modifies store
    ensures store.Valid()
    ensures var run := AgentChatSpec(sid, old(store.History(sid)), header, env, audio, upload, create, stt, llm, gen, poll);
      && resp == run.resp
      && (run.history.None? ==> store.sessions == old(store.sessions))
      && (run.history.Some? ==> store.sessions == old(store.sessions)[sid := run.history.value])
  {
    var refusal := Preflight(header, env);
    if refusal.Some? {
      return refusal.value;
    }
    var transcript := Transcribe(audio, upload, create, stt);
    if transcript.Failure? {
      return transcript.error;
    }
    resp := ChatTurn(store, sid, transcript.value, llm, gen, poll);
  }

  /** The speech-to-text part of `agent_chat`. */
  method Transcribe(audio: seq<bv8>, upload: Call<string>, create: Call<string>, stt: nat -> SttPoll)
    returns (transcript: Result<string, Response>)
    ensures transcript == TranscribeSpec(audio, upload, create, stt)
  {
    if audio == [] {
      return Failure(ErrorReply(400, "Empty file"));
    }
    if !upload.Ok? {
      return Failure(CallFailure(upload));
    }
    if !create.Ok? {
      return Failure(CallFailure(create));
    }
    transcript := PollTranscript(stt);
    if transcript.Success? && transcript.value == "" {
      transcript := Failure(ErrorReply(504, "Transcription timed out or empty"));
    }
  }

  /** The user turn of `agent_chat`: the transcript is stored and the
    * history read back. */
  method UserTurn(store: ChatStore, sid: string, transcript: string) returns (h: seq<Message>)
    requires store.Valid()
    modifies store
    ensures store.Valid()
    ensures h == KeepNewest(old(store.History(sid)) + [Message("user", transcript)])
    ensures store.sessions == old(store.sessions)[sid := h]
  {
    store.AddMsg(sid, "user", transcript);
    h := store.GetHistory(sid);
  }

  /** The part of `agent_chat` after a non-empty transcript: the user turn
    * and the LLM call. */
  method ChatTurn(store: ChatStore, sid: string, transcript: string, llm: string -> Call<string>,
                  gen: nat -> GenerateReply, poll: nat -> nat -> MurfPoll)
    returns (resp: Response)
    requires store.Valid()
    modifies store
    ensures store.Valid()
    ensures var run := AfterTranscript(sid, old(store.History(sid)), transcript, llm, gen, poll);
      resp == run.resp && run.history.Some? && store.sessions == old(store.sessions)[sid := run.history.value]
  {
    ghost var s0 := store.sessions;
    ghost var run := AfterTranscript(sid, store.History(sid), transcript, llm, gen, poll);
    var h := UserTurn(store, sid, transcript);
    var reply := llm(BuildPromptFromHistory(h));
    assert run == AfterLlm(sid, h, transcript, reply, gen, poll);
    assert store.History(sid) == h;
    resp := AnswerTurn(store, sid, transcript, reply, gen, poll);
    OverwriteTwice(s0, sid, h, run.history.value);
  }

  /** Storing twice under one key keeps only the second value (a map fact
    * stated apart so that `ChatTurn` proves it in a small context). */
  lemma OverwriteTwice(m: map<string, seq<Message>>, k: string, a: seq<Message>, b: seq<Message>)
    ensures m[k := a][k := b] == m[k := b]
  {
  }

  /** The part of `agent_chat` once the LLM call has settled: an error
    * answer, or the assistant turn and text-to-speech. */
  method AnswerTurn(store: ChatStore, sid: string, transcript: string, reply: Call<string>,
                    gen: nat -> GenerateReply, poll: nat -> nat -> MurfPoll)
    returns (resp: Response)
    requires store.Valid() && sid in store.sessions
    modifies store
    ensures store.Valid()
    ensures var run := AfterLlm(sid, old(store.History(sid)), transcript, reply, gen, poll);
      resp == run.resp && run.history.Some? && store.sessions == old(store.sessions)[sid := run.history.value]
  {
    if !reply.Ok? {
      return CallFailure(reply);
    }
    if reply.value == "" {
      return ErrorReply(500, EmptyLlmResponse);
    }
    resp := ReplyTurn(store, sid, transcript, reply.value, gen, poll);
  }

  /** The part of `agent_chat` after the LLM answered: the assistant turn and
    * text-to-speech. */
  method ReplyTurn(store: ChatStore, sid: string, transcript: string, text: string,
                   gen: nat -> GenerateReply, poll: nat -> nat -> MurfPoll)
    returns (resp: Response)
    requires store.Valid()
    modifies store
    ensures store.Valid()
    ensures var run := AfterReply(sid, old(store.History(sid)), transcript, text, gen, poll);
      resp == run.resp && run.history.Some? && store.sessions == old(store.sessions)[sid := run.history.value]
  {
    ghost var h2 := KeepNewest(store.History(sid) + [Message("assistant", text)]);
    store.AddMsg(sid, "assistant", text);
    var chunks, urls := MurfGenerateChunked(text, TtsChunkLimit, gen, poll);
    if urls.Failure? {
      return ErrorReply(500, urls.error);
    }
    if urls.value == [] {
      return ErrorReply(500, IndexErrorMessage);
    }
    var hist := store.GetHistory(sid);
    assert hist == h2;
    resp := ChatReply(sid, transcript, text, urls.value[0], urls.value, |hist|, hist);
  }

  /** A debug tag in {agent, stt, llm, tts} fails the request with 503 before
    * any key is checked or any provider called, and leaves the history alone. */
  lemma DebugTagComesFirst(sid: string, before: seq<Message>, tag: string, env: map<string, string>,
                           audio: seq<bv8>, upload: Call<string>, create: Call<string>,
                           stt: nat -> SttPoll, llm: string -> Call<string>,
                           gen: nat -> GenerateReply, poll: nat -> nat -> MurfPoll)
    requires tag in DebugTags
    ensures AgentChatSpec(sid, before, Some(tag), env, audio, upload, create, stt, llm, gen, poll)
      == AgentRun(UpstreamError(tag, ForcedFailure, 503), None)
  {
  }

  /** Without a debug tag, the first missing key fails the request with a
    * configuration error 500, before any provider is called. */
  lemma MissingKeyIsConfigError(sid: string, before: seq<Message>, header: Option<string>,
                                env: map<string, string>, audio: seq<bv8>,
                                upload: Call<string>, create: Call<string>, stt: nat -> SttPoll,
                                llm: string -> Call<string>, gen: nat -> GenerateReply,
                                poll: nat -> nat -> MurfPoll, i: nat)
    requires header.None? || header.value !in DebugTags
    requires i < |RequiredKeys| && RequireEnv(env, RequiredKeys[i]).Failure?
    requires forall j :: 0 <= j < i ==> RequireEnv(env, RequiredKeys[j]).Success?
    ensures var run := AgentChatSpec(sid, before, header, env, audio, upload, create, stt, llm, gen, poll);
      run == AgentRun(UpstreamError("config", "Missing env var: " + RequiredKeys[i], 500), None)
  {
  }

  /** The store is touched only once a non-empty transcript exists: an empty
    * file (400), an upload or transcript error (502 or 500), a transcription
    * error (502) and a timed-out or empty transcript (504) all leave the
    * history as it was. */
  lemma HistoryOnlyAfterTranscript(sid: string, before: seq<Message>, header: Option<string>,
                                   env: map<string, string>, audio: seq<bv8>,
                                   upload: Call<string>, create: Call<string>, stt: nat -> SttPoll,
                                   llm: string -> Call<string>, gen: nat -> GenerateReply,
                                   poll: nat -> nat -> MurfPoll)
    ensures var run := AgentChatSpec(sid, before, header, env, audio, upload, create, stt, llm, gen, poll);
      run.history.Some? <==>
        Preflight(header, env).None? && audio != [] && upload.Ok? && create.Ok?
        && SttPollLoop(stt).transcript.Success? && SttPollLoop(stt).transcript.value != ""
  {
    if Preflight(header, env).None? {
      var t := TranscribeSpec(audio, upload, create, stt);
      if t.Success? {
        AfterTranscriptStores(sid, before, t.value, llm, gen, poll);
      }
    }
  }

  /** Once a transcript is in hand, the history is always written. */
  lemma AfterTranscriptStores(sid: string, before: seq<Message>, transcript: string,
                              llm: string -> Call<string>, gen: nat -> GenerateReply,
                              poll: nat -> nat -> MurfPoll)
    ensures AfterTranscript(sid, before, transcript, llm, gen, poll).history.Some?
  {
    var h1 := KeepNewest(before + [Message("user", transcript)]);
    var reply := llm(BuildPromptFromHistory(h1));
    if reply.Ok? && reply.value != "" {
      assert AfterReply(sid, h1, transcript, reply.value, gen, poll).history.Some?;
    }
  }

  /** The speech-to-text stage yields a stripped, non-empty transcript or
    * one of the statuses 400, 500, 502 and 504. */
  lemma TranscribeOutcomes(audio: seq<bv8>, upload: Call<string>, create: Call<string>, stt: nat -> SttPoll)
    ensures var r := TranscribeSpec(audio, upload, create, stt);
      && (r.Success? ==> r.value != "" && IsStripped(r.value))
      && (r.Failure? ==> Status(r.error) in {400, 500, 502, 504})
  {
    var r := TranscribeSpec(audio, upload, create, stt);
    if audio == [] {
    } else if !upload.Ok? {
      assert r == Failure(CallFailure(upload));
    } else if !create.Ok? {
      assert r == Failure(CallFailure(create));
    } else {
      var run := SttPollLoop(stt);
      var p := stt(run.polls - 1);
      if !p.SttPending? {
        assert run.transcript == PollResult(p);
      } else {
        assert run.transcript == Success("");
      }
    }
  }

  /** An empty file is refused before any request, and 60 pending polls end
    * in a 504. */
  lemma TranscribeRefusals(audio: seq<bv8>, upload: Call<string>, create: Call<string>, stt: nat -> SttPoll)
    ensures audio == [] ==> TranscribeSpec(audio, upload, create, stt) == Failure(ErrorReply(400, "Empty file"))
    ensures audio != [] && upload.Ok? && create.Ok? && (forall k :: 0 <= k < SttPollAttempts ==> stt(k) == SttPending) ==>
      TranscribeSpec(audio, upload, create, stt) == Failure(ErrorReply(504, "Transcription timed out or empty"))
  {
    var run := SttPollLoop(stt);
    if forall k :: 0 <= k < SttPollAttempts ==> stt(k) == SttPending {
      assert stt(run.polls - 1).SttPending?;
    }
  }

  /** The user turn is stored before the LLM is asked: the prompt is built
    * from a history that ends with it, and an LLM failure leaves it there
    * with no assistant turn after it. */
  lemma UserTurnPrecedesLlm(sid: string, before: seq<Message>, transcript: string,
                            llm: string -> Call<string>, gen: nat -> GenerateReply,
                            poll: nat -> nat -> MurfPoll)
    requires |before| <= HistoryLimit
    ensures var h1 := KeepNewest(before + [Message("user", transcript)]);
      && |h1| <= HistoryLimit && h1[|h1| - 1] == Message("user", transcript)
      && var run := AfterTranscript(sid, before, transcript, llm, gen, poll);
      && (!llm(BuildPromptFromHistory(h1)).Ok? || llm(BuildPromptFromHistory(h1)).value == "" ==>
            run.history == Some(h1) && Status(run.resp) in {500, 502})
  {
    AppendThenTrim(before, Message("user", transcript));
  }

  /** A successful turn stores the user and then the assistant turn and
    * replies with the first chunk's URL, every chunk's URL in chunk order,
    * and the length of the stored history. It happens exactly when the LLM
    * returns a text with something besides whitespace and every chunk of it
    * yields audio. */
  lemma SuccessfulTurn(sid: string, before: seq<Message>, transcript: string,
                       llm: string -> Call<string>, gen: nat -> GenerateReply,
                       poll: nat -> nat -> MurfPoll)
    requires |before| <= HistoryLimit
    ensures var h1 := KeepNewest(before + [Message("user", transcript)]);
      var reply := llm(BuildPromptFromHistory(h1));
      var run := AfterTranscript(sid, before, transcript, llm, gen, poll);
      run.resp.ChatReply? <==>
        reply.Ok? && !AllSpace(reply.value)
        && forall k :: 0 <= k < |Chunks(Strip(reply.value), TtsChunkLimit)| ==> ChunkReady(gen, poll, k)
    ensures var h1 := KeepNewest(before + [Message("user", transcript)]);
      var reply := llm(BuildPromptFromHistory(h1));
      var run := AfterTranscript(sid, before, transcript, llm, gen, poll);
      run.resp.ChatReply? ==>
        && reply.Ok? && run.resp.llmText == reply.value
        && run.history == Some(run.resp.history)
        && run.resp.history == StoredTurn(before, transcript, run.resp.llmText)
        && run.resp.audioUrl == run.resp.audioUrls[0]
        && run.resp.turns == |run.resp.history|
        && |run.resp.audioUrls| == |Chunks(Strip(run.resp.llmText), TtsChunkLimit)|
        && forall k :: 0 <= k < |run.resp.audioUrls| ==> ChunkUrl(gen, poll, k) == Success(Some(run.resp.audioUrls[k]))
  {
    var h1 := KeepNewest(before + [Message("user", transcript)]);
    var reply := llm(BuildPromptFromHistory(h1));
    if reply.Ok? && reply.value != "" {
      var chunks := Chunks(Strip(reply.value), TtsChunkLimit);
      SynthesisSucceeds(|chunks|, gen, poll, 0);
      ChunksOfNonBlank(reply.value);
    }
  }

  /** The history after a user turn and an assistant turn. */
  function StoredTurn(before: seq<Message>, transcript: string, text: string): seq<Message> {
    KeepNewest(KeepNewest(before + [Message("user", transcript)]) + [Message("assistant", text)])
  }

  /** The stored history ends with the user turn and then the assistant turn,
    * and stays within the limit. */
  lemma StoredTurnEnds(before: seq<Message>, transcript: string, text: string)
    requires |before| <= HistoryLimit
    ensures var h := StoredTurn(before, transcript, text);
      && 2 <= |h| <= HistoryLimit
      && h[|h| - 2] == Message("user", transcript)
      && h[|h| - 1] == Message("assistant", text)
  {
    var x1 := before + [Message("user", transcript)];
    var h1 := KeepNewest(x1);
    assert h1[|h1| - 1] == x1[|x1| - 1];
    var x2 := h1 + [Message("assistant", text)];
    var h2 := KeepNewest(x2);
    assert h2 == StoredTurn(before, transcript, text);
    assert h2[|h2| - 2] == x2[|x2| - 2] == h1[|h1| - 1];
    assert h2[|h2| - 1] == x2[|x2| - 1];
  }

  /** A text with something besides whitespace has at least one chunk. */
  lemma ChunksOfNonBlank(text: string)
    ensures Chunks(Strip(text), TtsChunkLimit) == [] <==> AllSpace(text)
  {
  }

  /** Text-to-speech failures are server errors, not degraded successes: a
    * chunk without audio, and a reply that is only whitespace (no chunks, so
    * `urls[0]` raises), both give 500 after both turns were stored. */
  lemma TtsFailureIsServerError(sid: string, before: seq<Message>, transcript: string,
                                llm: string -> Call<string>, gen: nat -> GenerateReply,
                                poll: nat -> nat -> MurfPoll)
    requires |before| <= HistoryLimit
    ensures var h1 := KeepNewest(before + [Message("user", transcript)]);
      var reply := llm(BuildPromptFromHistory(h1));
      reply.Ok? && reply.value != "" ==>
        var h2 := KeepNewest(h1 + [Message("assistant", reply.value)]);
        var chunks := Chunks(Strip(reply.value), TtsChunkLimit);
        var run := AfterTranscript(sid, before, transcript, llm, gen, poll);
        && (AllSpace(reply.value) ==> run == AgentRun(ErrorReply(500, IndexErrorMessage), Some(h2)))
        && (!(forall k :: 0 <= k < |chunks| ==> ChunkReady(gen, poll, k)) ==>
              Status(run.resp) == 500 && run.history == Some(h2))
  {
    var h1 := KeepNewest(before + [Message("user", transcript)]);
    var reply := llm(BuildPromptFromHistory(h1));
    if reply.Ok? && reply.value != "" {
      var chunks := Chunks(Strip(reply.value), TtsChunkLimit);
      SynthesisSucceeds(|chunks|, gen, poll, 0);
      if AllSpace(reply.value) {
        assert Strip(reply.value) == [];
        assert chunks == [];
      }
    }
  }
}
