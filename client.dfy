/**
 * static/script.js: the browser side of the voice agent. A single `appState`
 * moves idle -> recording -> processing -> playing -> idle through guarded
 * event handlers. The microphone, the media recorder, `fetch` and audio
 * playback are abstracted to their outcomes, which the handlers receive as
 * parameters.
 */
module Client {
  import opened Wrappers
  import opened Text

  datatype AppState = Idle | Recording | Processing | Playing

  /** `mediaRecorder`: null, or a recorder whose `state` is "inactive" or not. */
  datatype Recorder = NoRecorder | Inactive | Live

  /** The status line: its text and whether it is shown as an error. */
  datatype StatusLine = StatusLine(text: string, isError: bool)

  /** The part of the page state the handlers decide. */
  datatype Ui = Ui(app: AppState, recorder: Recorder, status: StatusLine)

  /** A recorder is running exactly while the state is RECORDING. */
  predicate Consistent(u: Ui) {
    u.app == Recording <==> u.recorder == Live
  }

  const Listening: string := "Listening…"
  const ProcessingText: string := "Processing…"
  const Speaking: string := "Speaking…"
  const Ready: string := "Ready"
  const MicDenied: string := "Microphone access denied"
  const NoAudio: string := "No audio returned"

  /** `startRecording`, with `micOk` the outcome of `getUserMedia` and of
    * starting the recorder. */
  function StartStep(u: Ui, micOk: bool): (r: Ui)
    ensures u.app != Idle ==> r == u
    ensures u.app == Idle ==> (r.app == Recording <==> micOk) && (r.app == Idle <==> !micOk)
    ensures u.app == Idle && !micOk ==> r.status == StatusLine(MicDenied, true) && r.recorder == u.recorder
    ensures Consistent(u) ==> Consistent(r)
  {
    if u.app != Idle then u
    else if micOk then Ui(Recording, Live, StatusLine(Listening, false))
    else Ui(Idle, u.recorder, StatusLine(MicDenied, true))
  }

  /** `stopRecording`: only a running recorder is stopped. */
  function StopStep(u: Ui): (r: Ui)
    ensures r.app == Processing <==> u.recorder == Live || (u.app == Processing && r == u)
    ensures u.recorder != Live ==> r == u
    ensures Consistent(u) ==> Consistent(r) && (u.app == Recording ==> r.app == Processing)
  {
    if u.recorder == Live then Ui(Processing, Inactive, StatusLine(ProcessingText, false)) else u
  }

  /** The record button's click handler. */
  function ClickStep(u: Ui, micOk: bool): (r: Ui)
    ensures u.app == Processing || u.app == Playing ==> r == u
    ensures Consistent(u) && u.app == Recording ==> r.app == Processing
    ensures u.app == Idle ==> r == StartStep(u, micOk)
    ensures Consistent(u) ==> Consistent(r)
  {
    if u.app == Idle then StartStep(u, micOk)
    else if u.app == Recording then StopStep(u)
    else u
  }

  /** What `fetch` gave: an exception (abort, network), or a response with
    * its `ok` flag, status, the body's `error` field ("" when absent) and its
    * `audio_url` ("" when absent). */
  datatype FetchOutcome =
    | FetchFailed(message: string)
    | Responded(ok: bool, status: nat, error: string, audioUrl: string)

  /** `apiCall`: a response that is not ok throws with the body's error, or
    * with "Request failed: <status>" when the body has none. */
  function ApiCall(o: FetchOutcome): (r: Result<string, string>)
    ensures r.Success? <==> o.Responded? && o.ok
    ensures r.Success? ==> r.value == o.audioUrl
    ensures o.Responded? && !o.ok && o.error != "" ==> r == Failure(o.error)
    ensures o.Responded? && !o.ok && o.error == "" ==> r == Failure("Request failed: " + NatToString(o.status))
  {
    match o
    case FetchFailed(m) => Failure(m)
    case Responded(ok, status, error, url) =>
      if !ok then Failure(if error != "" then error else "Request failed: " + NatToString(status))
      else Success(url)
  }

  /** The rest of `sendToAgent` once the request has settled; `playOk` is
    * whether `play()` resolved. */
  function ReplyStep(u: Ui, o: FetchOutcome, playOk: bool): (r: Ui)
    ensures r.app == Playing <==> ApiCall(o).Success? && o.audioUrl != "" && playOk
    ensures r.app != Playing ==> r.app == Idle
    ensures r.recorder == u.recorder
    ensures ApiCall(o).Failure? ==> r.status == StatusLine(ApiCall(o).error, true)
    ensures ApiCall(o).Success? && o.audioUrl == "" ==> r.status == StatusLine(NoAudio, true)
    ensures u.recorder != Live ==> Consistent(r)
  {
    match ApiCall(o)
    case Failure(m) => Ui(Idle, u.recorder, StatusLine(m, true))
    case Success(url) =>
      if url == "" then Ui(Idle, u.recorder, StatusLine(NoAudio, true))
      else if playOk then Ui(Playing, u.recorder, StatusLine(Speaking, false))
      else Ui(Idle, u.recorder, StatusLine(Ready, false))
  }

  /** The `onended` handler: back to IDLE, then straight into a new recording. */
  function EndedStep(u: Ui, micOk: bool): (r: Ui)
    ensures r.app == (if micOk then Recording else Idle)
    ensures !micOk ==> r.status == StatusLine(MicDenied, true)
    ensures u.recorder != Live ==> Consistent(r)
  {
    StartStep(Ui(Idle, u.recorder, StatusLine(Ready, false)), micOk)
  }

  /** One full turn from a consistent idle page with a working microphone and
    * a spoken reply that plays: click, click, the reply, the end of playback
    * lands in RECORDING again, ready for the next turn. */
  lemma ConversationLoop(u: Ui, url: string)
    requires Consistent(u) && u.app == Idle && url != ""
    ensures var r1 := ClickStep(u, true);
      var r2 := ClickStep(r1, true);
      var r3 := ReplyStep(r2, Responded(true, 200, "", url), true);
      var r4 := EndedStep(r3, true);
      r1.app == Recording && r2.app == Processing && r3.app == Playing && r4.app == Recording
      && Consistent(r4)
  {
    var r1 := ClickStep(u, true);
    assert r1.recorder == Live;
    var r2 := ClickStep(r1, true);
    assert r2.recorder == Inactive;
  }

  /** The module-level state of script.js. `audioChunks` holds only non-empty
    * blobs. */
  class VoiceClient {
    var app: AppState
    var recorder: Recorder
    var status: StatusLine
    var audioChunks: seq<seq<bv8>>

    function View(): Ui
      reads this
    {
      Ui(app, recorder, status)
    }

    ghost predicate Valid()
      reads this
    {
      Consistent(View()) && forall i :: 0 <= i < |audioChunks| ==> audioChunks[i] != []
    }

    constructor()
      ensures Valid()
      ensures app == Idle && recorder == NoRecorder && audioChunks == []
    {
      app := Idle;
      recorder := NoRecorder;
      status := StatusLine("", false);
      audioChunks := [];
    }

    /** `startRecording`: a fresh recording drops the chunks of the last one. */
    method StartRecording(micOk: bool)
      requires Valid()
      modifies this
      ensures Valid()
      ensures View() == StartStep(old(View()), micOk)
      ensures audioChunks == if old(app) == Idle && micOk then [] else old(audioChunks)
    {
      if app != Idle {
        return;
      }
      status := StatusLine(Listening, false);
      app := Recording;
      if micOk {
        audioChunks := [];
        recorder := Live;
      } else {
        app := Idle;
        status := StatusLine(MicDenied, true);
      }
    }

    /** `stopRecording`. */
    method StopRecording()
      requires Valid()
      modifies this
      ensures Valid()
      ensures View() == StopStep(old(View()))
      ensures audioChunks == old(audioChunks)
    {
      if recorder == Live {
        status := StatusLine(ProcessingText, false);
        app := Processing;
        recorder := Inactive;
      }
    }

    /** `ondataavailable`: empty blobs are dropped. */
    method OnDataAvailable(data: seq<bv8>)
      requires Valid()
      modifies this
      ensures Valid()
      ensures View() == old(View())
      ensures audioChunks == old(audioChunks) + (if data != [] then [data] else [])
    {
      if |data| > 0 {
        audioChunks := audioChunks + [data];
      }
    }

    /** The click handler on the record button. */
    method Click(micOk: bool)
      requires Valid()
      modifies this
      ensures Valid()
      ensures View() == ClickStep(old(View()), micOk)
    {
      if app == Idle {
        StartRecording(micOk);
      } else if app == Recording {
        StopRecording();
      }
    }

    /** `sendToAgent`, run by the recorder's `onstop` once it has stopped: it
      * uploads the recorded chunks as one blob and reacts to the reply. */
    method SendToAgent(o: FetchOutcome, playOk: bool) returns (upload: seq<bv8>)
      requires Valid() && app == Processing
      modifies this
      ensures Valid()
      ensures upload == Concat(old(audioChunks))
      ensures View() == ReplyStep(old(View()), o, playOk)
      ensures audioChunks == old(audioChunks)
    {
      upload := Concat(audioChunks);
      var reply := ApiCall(o);
      if reply.Failure? {
        app := Idle;
        status := StatusLine(reply.error, true);
        return;
      }
      if reply.value != "" {
        app := Playing;
        status := StatusLine(Speaking, false);
        if !playOk {
          app := Idle;
          status := StatusLine(Ready, false);
        }
      } else {
        app := Idle;
        status := StatusLine(NoAudio, true);
      }
    }

    /** The player's `onended` handler, installed once playback started. */
    method OnEnded(micOk: bool)
      requires Valid() && app == Playing
      modifies this
      ensures Valid()
      ensures View() == EndedStep(old(View()), micOk)
      ensures audioChunks == if micOk then [] else old(audioChunks)
    {
      app := Idle;
      status := StatusLine(Ready, false);
      StartRecording(micOk);
    }
  }

  /** The blob built from the chunks, in recording order. */
  function Concat(chunks: seq<seq<bv8>>): (r: seq<bv8>)
    ensures chunks == [] ==> r == []
  {
    if chunks == [] then [] else chunks[0] + Concat(chunks[1..])
  }

  /** Appending a blob to the recording appends its bytes to the upload (so
    * an empty blob, which the handler drops, would not change it). */
  lemma {:induction false} ConcatAppend(chunks: seq<seq<bv8>>, data: seq<bv8>)
    ensures Concat(chunks + [data]) == Concat(chunks) + data
    decreases |chunks|
  {
    if chunks == [] {
      assert [] + [data] == [data];
      assert Concat([data]) == data + Concat([]);
    } else {
      assert (chunks + [data])[1..] == chunks[1..] + [data];
      ConcatAppend(chunks[1..], data);
    }
  }

  /** `ensureSessionId`: the `sessionId` query parameter when it is present
    * and non-empty; otherwise `generated` (the random UUID, or the clock
    * reading when there is none), which is written back into the query. */
  function EnsureSessionId(query: map<string, string>, generated: string): (r: (string, map<string, string>))
    ensures "sessionId" in query && query["sessionId"] != "" ==> r == (query["sessionId"], query)
    ensures !("sessionId" in query && query["sessionId"] != "") ==>
      r.0 == generated && r.1 == query["sessionId" := generated]
    ensures "sessionId" in r.1 && r.1["sessionId"] == r.0
    ensures forall k :: k in query && k != "sessionId" ==> k in r.1 && r.1[k] == query[k]
  {
    if "sessionId" in query && query["sessionId"] != "" then (query["sessionId"], query)
    else (generated, query["sessionId" := generated])
  }

  /** Reloading the page keeps the session: a second call returns the same id
    * and leaves the query alone, whatever it would have generated. */
  lemma SessionIdIsStable(query: map<string, string>, generated: string, later: string)
    requires generated != ""
    ensures var (sid, q) := EnsureSessionId(query, generated);
      EnsureSessionId(q, later) == (sid, q)
  {
  }
}
