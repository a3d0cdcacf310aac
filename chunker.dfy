/**
 * Speech synthesis in main.py: `murf_generate` (one generate request, then a
 * bounded poll for the audio file) and `murf_generate_chunked` (cut the reply
 * into pieces of at most `chunk_limit` characters at spaces, then synthesize
 * each piece in order). The Murf service is an oracle: the reply to the
 * generate request for the i-th chunk, and the reply to its j-th poll.
 */
module TtsChunker {
  import opened Wrappers
  import opened Text

  /** The chunk size main.py passes from `agent_chat`. */
  const DefaultChunkLimit: nat := 3000

  /** `s.rfind(" ", 0, end)`, with `None` for -1. */
  function RFindSpace(s: string, end: nat): (r: Option<nat>)
    requires end <= |s|
    ensures r.Some? ==> r.value < end && s[r.value] == ' '
    ensures r.Some? ==> forall k :: r.value < k < end ==> s[k] != ' '
    ensures r.None? ==> forall k :: 0 <= k < end ==> s[k] != ' '
  {
    if end == 0 then None
    else if s[end - 1] == ' ' then Some(end - 1)
    else RFindSpace(s, end - 1)
  }

  /** Where the chunker cuts a text longer than the limit: at the last space
    * before `limit`, or exactly at `limit` (a hard cut) only when the first
    * `limit` characters hold no space. */
  function CutPoint(s: string, limit: nat): (cut: nat)
    requires limit < |s|
    ensures cut <= limit
    ensures cut < limit ==> s[cut] == ' ' && forall k :: cut < k < limit ==> s[k] != ' '
    ensures cut == limit <==> forall k :: 0 <= k < limit ==> s[k] != ' '
  {
    match RFindSpace(s, limit)
    case Some(i) => i
    case None => limit
  }

  /** The chunks the loop of `murf_generate_chunked` produces from an already
    * stripped text. */
  function Chunks(s: string, limit: nat): seq<string>
    requires limit > 0 && IsStripped(s)
    decreases |s|
  {
    if s == [] then []
    else if |s| <= limit then [s]
    else
      var cut := CutPoint(s, limit);
      [Strip(s[..cut])] + Chunks(Strip(s[cut..]), limit)
  }

  lemma ChunksUnfold(s: string, limit: nat)
    requires limit > 0 && IsStripped(s) && |s| > limit
    ensures Chunks(s, limit) == [Strip(s[..CutPoint(s, limit)])] + Chunks(Strip(s[CutPoint(s, limit)..]), limit)
  {
  }

  /** With a limit of 0 one turn of the loop emits an empty chunk and leaves
    * the text as it was, so the loop of the source never ends. */
  lemma ZeroLimitStalls(s: string)
    requires s != [] && IsStripped(s)
    ensures CutPoint(s, 0) == 0
    ensures Strip(s[..CutPoint(s, 0)]) == [] && Strip(s[CutPoint(s, 0)..]) == s
  {
    assert s[0..] == s;
    StripOfStripped(s);
  }

  /** Every chunk is non-empty, at most `limit` long and stripped. */
  lemma {:induction false} ChunksBounded(s: string, limit: nat)
    requires limit > 0 && IsStripped(s)
    ensures forall i :: 0 <= i < |Chunks(s, limit)| ==>
      0 < |Chunks(s, limit)[i]| <= limit && IsStripped(Chunks(s, limit)[i])
  {
    if s != [] && |s| > limit {
      var cut := CutPoint(s, limit);
      var head := Strip(s[..cut]);
      assert s[..cut][0] == s[0];
      assert !AllSpace(s[..cut]);
      assert 0 < |head| <= limit;
      ChunksBounded(Strip(s[cut..]), limit);
    }
  }

  /** `s` is the chunks in order with only whitespace between and after them. */
  predicate SeparatedByWhitespace(s: string, chunks: seq<string>)
    decreases |chunks|
  {
    if chunks == [] then AllSpace(s)
    else
      |chunks[0]| <= |s| && s[..|chunks[0]|] == chunks[0]
      && SeparatedByWhitespace(LStrip(s[|chunks[0]|..]), chunks[1..])
  }

  /** Leading whitespace makes no difference to `lstrip`. */
  lemma LStripSkipsSpace(a: string, b: string)
    requires AllSpace(a)
    ensures LStrip(a + b) == LStrip(b)
  {
    var r := LStrip(b);
    var k0 := |b| - |r|;
    var ab := a + b;
    var k := |a| + k0;
    assert AllSpace(ab[..k]) by {
      forall i | 0 <= i < k ensures IsSpace(ab[..k][i]) {
        if i < |a| {
          assert ab[..k][i] == a[i];
        } else {
          assert ab[..k][i] == b[..k0][i - |a|];
        }
      }
    }
    if k0 < |b| {
      assert r[0] == b[k0] == ab[k];
    }
    LStripDrops(ab, k);
    assert ab[k..] == b[k0..];
  }

  lemma LStripOfTrimmedTail(x: string)
    requires x != [] && !IsSpace(x[|x| - 1])
    ensures Strip(x) == LStrip(x)
  {
    var l := LStrip(x);
    assert l != [];
    assert l[|l| - 1] == x[|x| - 1];
  }

  /** The chunks are the stripped text in order, with nothing but whitespace
    * dropped between them: no character of the text is lost or reordered. */
  lemma {:induction false} ChunksCoverText(s: string, limit: nat)
    requires limit > 0 && IsStripped(s)
    ensures SeparatedByWhitespace(s, Chunks(s, limit))
    decreases |s|
  {
    if s == [] {
    } else if |s| <= limit {
      SeparatedSingle(s);
    } else {
      var cut := CutPoint(s, limit);
      ChunksUnfold(s, limit);
      var front := s[..cut];
      var restRaw := s[cut..];
      var rest := Strip(restRaw);
      var head := HeadChunkIsPrefix(s, cut);
      assert head == Strip(front);
      assert restRaw[|restRaw| - 1] == s[|s| - 1];
      LStripOfTrimmedTail(restRaw);
      ChunksCoverText(rest, limit);
      SeparatedCons(s, head, Chunks(rest, limit), cut);
    }
  }

  lemma SeparatedSingle(s: string)
    ensures SeparatedByWhitespace(s, [s])
  {
    assert s[..|s|] == s;
    assert s[|s|..] == [];
    assert [s][1..] == [];
  }

  /** The first chunk is a prefix of the text, and only whitespace lies
    * between it and the cut. */
  lemma HeadChunkIsPrefix(s: string, cut: nat) returns (head: string)
    requires 0 < cut < |s| && !IsSpace(s[0])
    ensures head == Strip(s[..cut])
    ensures |head| <= cut && s[..|head|] == head
    ensures AllSpace(s[|head|..cut])
  {
    var front := s[..cut];
    assert front[0] == s[0];
    StripKeepsFront(front);
    head := RStrip(front);
    assert front[|head|..] == s[|head|..cut];
  }

  lemma SeparatedCons(s: string, head: string, tail: seq<string>, cut: nat)
    requires |head| <= cut <= |s| && s[..|head|] == head
    requires AllSpace(s[|head|..cut])
    requires SeparatedByWhitespace(LStrip(s[cut..]), tail)
    ensures SeparatedByWhitespace(s, [head] + tail)
  {
    var chunks := [head] + tail;
    assert chunks[0] == head && chunks[1..] == tail;
    GapIsSkipped(s, |head|, cut);
  }

  lemma GapIsSkipped(s: string, a: nat, b: nat)
    requires a <= b <= |s| && AllSpace(s[a..b])
    ensures LStrip(s[a..]) == LStrip(s[b..])
  {
    assert s[a..] == s[a..b] + s[b..];
    LStripSkipsSpace(s[a..b], s[b..]);
  }

  // Sequence facts stated apart so that the loop below proves them in a
  // small context of their own.
  lemma AppendAssoc(a: seq<string>, b: seq<string>, c: seq<string>)
    ensures (a + b) + c == a + (b + c)
  {
  }

  lemma AppendEmpty(a: seq<string>)
    ensures [] + a == a
  {
  }

  /** The loop of `murf_generate_chunked` that cuts the stripped text. */
  method ChunkText(text: string, limit: nat) returns (chunks: seq<string>)
    requires limit > 0
    ensures chunks == Chunks(Strip(text), limit)
    ensures chunks == [] <==> AllSpace(text)
  {
    chunks := [];
    var s := Strip(text);
    AppendEmpty(Chunks(s, limit));
    while s != []
      invariant IsStripped(s)
      invariant chunks + Chunks(s, limit) == Chunks(Strip(text), limit)
      decreases |s|
    {
      if |s| <= limit {
        chunks := chunks + [s];
        break;
      }
      var found := RFindSpace(s, limit);
      var cut := if found.Some? then found.value else limit;
      assert cut == CutPoint(s, limit);
      ChunksUnfold(s, limit);
      var piece := Strip(s[..cut]);
      var rest := Strip(s[cut..]);
      assert Chunks(s, limit) == [piece] + Chunks(rest, limit);
      AppendAssoc(chunks, [piece], Chunks(rest, limit));
      chunks := chunks + [piece];
      s := rest;
    }
  }

  /** Murf's answer to `POST /v1/speech/generate`: a raised request error, or
    * the status, the body text, the audio URL ("" when `audioFile` is missing
    * or empty) and the job id ("" when missing). */
  datatype GenerateReply =
    | GenerateCrash(detail: string)
    | GenerateReply(status: int, body: string, audioUrl: string, jobId: string)

  /** Murf's answer to one `GET /v1/speech/{job_id}` poll. */
  datatype MurfPoll = MurfPollCrash(detail: string) | MurfPollReply(audioUrl: string)

  const MurfPollAttempts: nat := 30

  /** What `murf_generate` did: raised (`Failure`), returned a URL or `None`,
    * and how many polls it made. */
  datatype MurfRun = MurfRun(url: Result<Option<string>, string>, polls: nat)

  /** The poll loop of `murf_generate` from attempt `i` on. */
  function MurfPollFrom(poll: nat -> MurfPoll, i: nat): (run: MurfRun)
    requires i <= MurfPollAttempts
    ensures i <= run.polls <= MurfPollAttempts
    decreases MurfPollAttempts - i
  {
    if i == MurfPollAttempts then MurfRun(Success(None), i)
    else match poll(i)
      case MurfPollCrash(d) => MurfRun(Failure(d), i + 1)
      case MurfPollReply(u) =>
        if u != "" then MurfRun(Success(Some(u)), i + 1) else MurfPollFrom(poll, i + 1)
  }

  /** The poll loop returns the first non-empty URL among the 30 polls, gives
    * up with `None` only after 30 empty answers, and stops at the first poll
    * that raises; every poll before the last one it made was empty. */
  lemma {:induction false} MurfPollFacts(poll: nat -> MurfPoll, i: nat)
    requires i <= MurfPollAttempts
    ensures var run := MurfPollFrom(poll, i);
      && (forall k :: i <= k && k + 1 < run.polls ==> poll(k) == MurfPollReply(""))
      && (run.url.Success? && run.url.value.Some? ==>
            run.url.value.value != "" && i < run.polls && poll(run.polls - 1) == MurfPollReply(run.url.value.value))
      && (run.url.Success? && run.url.value.None? ==>
            run.polls == MurfPollAttempts && forall k :: i <= k < MurfPollAttempts ==> poll(k) == MurfPollReply(""))
      && (run.url.Failure? ==> i < run.polls && poll(run.polls - 1) == MurfPollCrash(run.url.error))
    decreases MurfPollAttempts - i
  {
    if i < MurfPollAttempts && poll(i) == MurfPollReply("") {
      MurfPollFacts(poll, i + 1);
    }
  }

  /** `murf_generate`: a non-200 generate status raises, a URL in the reply is
    * returned at once, no job id gives `None` without polling, otherwise at
    * most 30 polls. */
  function MurfOutcome(reply: GenerateReply, poll: nat -> MurfPoll): (run: MurfRun)
  {
    match reply
    case GenerateCrash(d) => MurfRun(Failure(d), 0)
    case GenerateReply(status, body, url, job) =>
      if status != 200 then MurfRun(Failure("Murf generate failed: " + Take(body, 300)), 0)
      else if url != "" then MurfRun(Success(Some(url)), 0)
      else if job == "" then MurfRun(Success(None), 0)
      else MurfPollFrom(poll, 0)
  }

  /** `murf_generate` makes at most 30 polls, polls only when the generate
    * reply was a 200 with neither URL nor missing job id, returns `None`
    * without polling when the job id is missing, and never returns an empty URL. */
  lemma MurfOutcomeFacts(reply: GenerateReply, poll: nat -> MurfPoll)
    ensures var run := MurfOutcome(reply, poll);
      && run.polls <= MurfPollAttempts
      && (run.url.Success? && run.url.value.Some? ==> run.url.value.value != "")
      && (run.polls > 0 <==> reply.GenerateReply? && reply.status == 200 && reply.audioUrl == "" && reply.jobId != "")
      && (reply.GenerateReply? && reply.status == 200 && reply.audioUrl == "" && reply.jobId == "" ==>
            run == MurfRun(Success(None), 0))
  {
    if reply.GenerateReply? && reply.status == 200 && reply.audioUrl == "" && reply.jobId != "" {
      MurfPollFacts(poll, 0);
    }
  }

  /** `murf_generate` with its poll loop. */
  method MurfGenerate(reply: GenerateReply, poll: nat -> MurfPoll) returns (run: MurfRun)
    ensures run == MurfOutcome(reply, poll)
  {
    if reply.GenerateCrash? {
      return MurfRun(Failure(reply.detail), 0);
    }
    if reply.status != 200 {
      return MurfRun(Failure("Murf generate failed: " + Take(reply.body, 300)), 0);
    }
    if reply.audioUrl != "" {
      return MurfRun(Success(Some(reply.audioUrl)), 0);
    }
    if reply.jobId == "" {
      return MurfRun(Success(None), 0);
    }
    var attempt := 0;
    while attempt < MurfPollAttempts
      invariant attempt <= MurfPollAttempts
      invariant MurfPollFrom(poll, attempt) == MurfPollFrom(poll, 0)
    {
      var answer := poll(attempt);
      if answer.MurfPollCrash? {
        return MurfRun(Failure(answer.detail), attempt + 1);
      }
      if answer.audioUrl != "" {
        return MurfRun(Success(Some(answer.audioUrl)), attempt + 1);
      }
      attempt := attempt + 1;
    }
    run := MurfRun(Success(None), MurfPollAttempts);
  }

  /** What `murf_generate` yields for the i-th chunk. */
  function ChunkUrl(gen: nat -> GenerateReply, poll: nat -> nat -> MurfPoll, i: nat): Result<Option<string>, string> {
    MurfOutcome(gen(i), poll(i)).url
  }

  /** `murf_generate` yields a URL for the i-th chunk. */
  predicate ChunkReady(gen: nat -> GenerateReply, poll: nat -> nat -> MurfPoll, i: nat) {
    ChunkUrl(gen, poll, i).Success? && ChunkUrl(gen, poll, i).value.Some?
  }

  /** The error `murf_generate_chunked` raises for a chunk that is not ready. */
  function ChunkError(url: Result<Option<string>, string>): string {
    if url.Failure? then url.error else "Murf audio not ready"
  }

  /** `r` with `urls` put in front of its URLs; an error stays as it is. */
  function PrependUrls(urls: seq<string>, r: Result<seq<string>, string>): Result<seq<string>, string> {
    if r.Success? then Success(urls + r.value) else r
  }

  /** The second loop of `murf_generate_chunked` from chunk `i` of `n`: the URLs
    * of the remaining chunks, or the error of the first one that yields none. */
  function SynthesisFrom(n: nat, gen: nat -> GenerateReply, poll: nat -> nat -> MurfPoll, i: nat): Result<seq<string>, string>
    requires i <= n
    decreases n - i
  {
    if i == n then Success([])
    else if !ChunkReady(gen, poll, i) then Failure(ChunkError(ChunkUrl(gen, poll, i)))
    else PrependUrls([ChunkUrl(gen, poll, i).value.value], SynthesisFrom(n, gen, poll, i + 1))
  }

  /** One URL per chunk, in chunk order, each the non-empty URL
    * `murf_generate` returned for that chunk, exactly when every chunk yields one. */
  lemma {:induction false} SynthesisSucceeds(n: nat, gen: nat -> GenerateReply, poll: nat -> nat -> MurfPoll, i: nat)
    requires i <= n
    ensures var r := SynthesisFrom(n, gen, poll, i);
      && (r.Success? <==> forall k :: i <= k < n ==> ChunkReady(gen, poll, k))
      && (r.Success? ==> |r.value| == n - i && forall k :: 0 <= k < |r.value| ==>
            ChunkUrl(gen, poll, i + k) == Success(Some(r.value[k])) && r.value[k] != "")
    decreases n - i
  {
    if i < n && ChunkReady(gen, poll, i) {
      SynthesisSucceeds(n, gen, poll, i + 1);
      MurfOutcomeFacts(gen(i), poll(i));
      var rest := SynthesisFrom(n, gen, poll, i + 1);
      var r := SynthesisFrom(n, gen, poll, i);
      if rest.Success? {
        forall k | 0 <= k < |r.value|
          ensures ChunkUrl(gen, poll, i + k) == Success(Some(r.value[k])) && r.value[k] != ""
        {
          if k > 0 {
            assert r.value[k] == rest.value[k - 1];
          }
        }
      }
    }
  }

  /** A failure is the error of the first chunk that yields no URL; no partial
    * list is returned. */
  lemma {:induction false} SynthesisFailsAtFirst(n: nat, gen: nat -> GenerateReply, poll: nat -> nat -> MurfPoll, i: nat)
    requires i <= n
    ensures var r := SynthesisFrom(n, gen, poll, i);
      r.Failure? ==> exists k :: (i <= k < n
        && !ChunkReady(gen, poll, k)
        && (forall j :: i <= j < k ==> ChunkReady(gen, poll, j))
        && r.error == ChunkError(ChunkUrl(gen, poll, k)))
    decreases n - i
  {
    if i < n && ChunkReady(gen, poll, i) {
      SynthesisFailsAtFirst(n, gen, poll, i + 1);
      var rest := SynthesisFrom(n, gen, poll, i + 1);
      if rest.Failure? {
        var k :| i + 1 <= k < n && !ChunkReady(gen, poll, k)
          && (forall j :: i + 1 <= j < k ==> ChunkReady(gen, poll, j))
          && rest.error == ChunkError(ChunkUrl(gen, poll, k));
        assert forall j :: i <= j < k ==> ChunkReady(gen, poll, j);
      }
    }
  }

  /** The second loop of `murf_generate_chunked`: one URL per chunk in chunk
    * order, or the error of the first chunk that yields none (and no partial
    * list). The reply to the generate request for `chunks[i]` is `gen(i)`. */
  method SynthesizeChunks(chunks: seq<string>, gen: nat -> GenerateReply, poll: nat -> nat -> MurfPoll)
    returns (r: Result<seq<string>, string>)
    ensures r == SynthesisFrom(|chunks|, gen, poll, 0)
  {
    var urls: seq<string> := [];
    var all := SynthesisFrom(|chunks|, gen, poll, 0);
    if all.Success? {
      assert [] + all.value == all.value;
    }
    for i := 0 to |chunks|
      invariant PrependUrls(urls, SynthesisFrom(|chunks|, gen, poll, i)) == SynthesisFrom(|chunks|, gen, poll, 0)
    {
      var run := MurfGenerate(gen(i), poll(i));
      if !(run.url.Success? && run.url.value.Some?) {
        return Failure(ChunkError(run.url));
      }
      var rest := SynthesisFrom(|chunks|, gen, poll, i + 1);
      if rest.Success? {
        assert urls + ([run.url.value.value] + rest.value) == (urls + [run.url.value.value]) + rest.value;
      }
      urls := urls + [run.url.value.value];
    }
    assert urls + [] == urls;
    r := Success(urls);
  }

  /** `murf_generate_chunked`: cut the stripped text, then synthesize every
    * chunk in order. */
  method MurfGenerateChunked(text: string, limit: nat, gen: nat -> GenerateReply, poll: nat -> nat -> MurfPoll)
    returns (chunks: seq<string>, r: Result<seq<string>, string>)
    requires limit > 0
    ensures chunks == Chunks(Strip(text), limit)
    ensures r == SynthesisFrom(|chunks|, gen, poll, 0)
  {
    chunks := ChunkText(text, limit);
    r := SynthesizeChunks(chunks, gen, poll);
  }
}
