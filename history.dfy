/**
 * The in-memory chat store of main.py: one message list per session id,
 * trimmed to the newest 2 * MAX_TURNS entries, and the single-string
 * prompt that is built from such a list.
 */
module ChatHistory {
  import opened Text

  const MaxTurns: nat := 20
  /** The longest history any session keeps. */
  const HistoryLimit: nat := 2 * MaxTurns

  datatype Message = Message(role: string, content: string)

  /** `hist[-2 * MAX_TURNS:]` when the list grew past the limit, else the list itself. */
  function KeepNewest(h: seq<Message>): (r: seq<Message>)
    ensures |r| == if |h| <= HistoryLimit then |h| else HistoryLimit
    ensures r == h[|h| - |r|..]
  {
    if |h| > HistoryLimit then h[|h| - HistoryLimit..] else h
  }

  /** Appending one message to a history within the limit and trimming keeps
    * the new message last, drops at most the single oldest entry, and keeps
    * every other entry in its original order. */
  lemma AppendThenTrim(h: seq<Message>, m: Message)
    requires |h| <= HistoryLimit
    ensures var r := KeepNewest(h + [m]);
      && |r| <= HistoryLimit
      && r[|r| - 1] == m
      && (|h| < HistoryLimit ==> r == h + [m])
      && (|h| == HistoryLimit ==> r == h[1..] + [m])
  {
    var r := KeepNewest(h + [m]);
    if |h| == HistoryLimit {
      assert r == (h + [m])[1..];
      assert (h + [m])[1..] == h[1..] + [m];
    }
  }

  /** The label the prompt gives a message: "User" exactly for role "user". */
  function RoleLabel(role: string): (name: string)
    ensures name == "User" <==> role == "user"
    ensures name == "User" || name == "Assistant"
  {
    if role == "user" then "User" else "Assistant"
  }

  /** One prompt line per message: `f"{role}: {content}"`. */
  function TurnLine(m: Message): string
  {
    RoleLabel(m.role) + ": " + m.content
  }

  function TurnLines(h: seq<Message>): (lines: seq<string>)
    ensures |lines| == |h|
    ensures forall i :: 0 <= i < |h| ==> lines[i] == TurnLine(h[i])
  {
    if h == [] then [] else [TurnLine(h[0])] + TurnLines(h[1..])
  }

  /** The first header line, written in two literals so that short proofs can inspect it. */
  const Persona: string := "You are a helpful, concise voice " + "assistant. Reply naturally and briefly."

  const PromptHeader: seq<string> := [
    Persona,
    "",
    "Conversation so far:"
  ]

  /** The lines of `build_prompt_from_history`, before they are joined. */
  function PromptLines(h: seq<Message>): (lines: seq<string>)
  {
    PromptHeader + TurnLines(h) + ["Assistant:"]
  }

  /** The prompt is exactly three header lines, one line per message in
    * history order, and a closing "Assistant:" cue. */
  lemma PromptLinesShape(h: seq<Message>)
    ensures var lines := PromptLines(h);
      && |lines| == |h| + 4
      && lines[..3] == PromptHeader
      && (forall i :: 0 <= i < |h| ==> lines[3 + i] == TurnLine(h[i]))
      && lines[|lines| - 1] == "Assistant:"
  {
    var lines := PromptLines(h);
    assert lines[..3] == PromptHeader;
    assert forall i :: 0 <= i < |h| ==> lines[3 + i] == TurnLines(h)[i];
  }

  /** `build_prompt_from_history`: the lines joined by newlines. */
  function BuildPromptFromHistory(h: seq<Message>): string
  {
    Join(PromptLines(h), "\n")
  }

  /** When no message holds a newline, the prompt splits back into its lines,
    * so the lines above are exactly what the model is sent. */
  lemma PromptSplitsIntoLines(h: seq<Message>)
    requires forall i :: 0 <= i < |h| ==> '\n' !in h[i].content
    ensures Split(BuildPromptFromHistory(h), '\n') == PromptLines(h)
  {
    var turns := TurnLines(h);
    forall k | 0 <= k < |turns| ensures '\n' !in turns[k] {
      TurnLineHasNoNewline(h[k]);
    }
    HeaderHasNoNewline();
    var lines := PromptLines(h);
    forall k | 0 <= k < |lines| ensures '\n' !in lines[k] {
      if k < 3 {
        assert lines[k] == PromptHeader[k];
      } else if k < 3 + |turns| {
        assert lines[k] == turns[k - 3];
      } else {
        assert lines[k] == "Assistant:";
      }
    }
    SplitJoin(lines, '\n');
  }

  lemma TurnLineHasNoNewline(m: Message)
    requires '\n' !in m.content
    ensures '\n' !in TurnLine(m)
  {
    assert '\n' !in RoleLabel(m.role);
  }

  /** None of the prompt's fixed header lines holds a newline. */
  lemma HeaderHasNoNewline()
    ensures forall k :: 0 <= k < 3 ==> '\n' !in PromptHeader[k]
  {
    assert '\n' !in "You are a helpful, concise voice ";
    assert '\n' !in "assistant. Reply naturally and briefly.";
    assert '\n' !in "Conversation so far:";
  }

  /** The in-memory `CHAT_STORE` dictionary of main.py. */
  class ChatStore {
    var sessions: map<string, seq<Message>>

    /** Every stored history is within the limit. */
    ghost predicate Valid()
      reads this
    {
      forall sid :: sid in sessions ==> |sessions[sid]| <= HistoryLimit
    }

    /** The session's history as `get_history` would see it, without installing it. */
    function History(sid: string): seq<Message>
      reads this
    {
      if sid in sessions then sessions[sid] else []
    }

    constructor ()
      ensures sessions == map[] && Valid()
    {
      sessions := map[];
    }

    /** `get_history`: `CHAT_STORE.setdefault(session_id, [])`. */
    method GetHistory(sid: string) returns (h: seq<Message>)
      requires Valid()
      modifies this
      ensures Valid()
      ensures h == old(History(sid))
      ensures sid in old(sessions) ==> sessions == old(sessions)
      ensures sid !in old(sessions) ==> sessions == old(sessions)[sid := []]
    {
      if sid !in sessions {
        sessions := sessions[sid := []];
      }
      h := sessions[sid];
    }

    /** `add_msg`: append, then keep only the newest `2 * MAX_TURNS` entries.
      * Other sessions are untouched. */
    method AddMsg(sid: string, role: string, content: string)
      requires Valid()
      modifies this
      ensures Valid()
      ensures sessions == old(sessions)[sid := KeepNewest(old(History(sid)) + [Message(role, content)])]
    {
      var hist := GetHistory(sid);
      hist := hist + [Message(role, content)];
      sessions := sessions[sid := hist];
      if |hist| > 2 * MaxTurns {
        sessions := sessions[sid := hist[|hist| - 2 * MaxTurns..]];
      }
    }
  }
}
