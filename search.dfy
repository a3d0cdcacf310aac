/**
 * services/search.py: `tavily_web_search` turns the outcome of one Tavily
 * request into a single text for the language model. The request itself is
 * an oracle; what is modelled is how every outcome becomes text.
 */
module WebSearch {
  import opened Wrappers
  import opened Text

  /** One entry of the `results` list. A `title` that is missing or `null` is
    * "" (both are falsy), a missing `content` is "". An entry that is `null`,
    * or whose `content` is `null`, is `Unreadable`: `.get` or `[:200]` raises
    * on it. */
  datatype SearchResult = SearchResult(title: string, content: string) | Unreadable

  /** The JSON body: `answer` ("" when missing or `null`) and `results` ([]
    * when missing). */
  datatype SearchData = SearchData(answer: string, results: seq<SearchResult>)

  /** The body of a reply: not JSON (`response.json()` raises), a `null`
    * `results` (`results[:3]` raises), or the fields the function reads. */
  datatype SearchBody = NotJson | NullResults | Json(data: SearchData)

  /** An exception from `httpx`, or a status with its body. */
  datatype SearchReply =
    | SearchRequestFailed
    | SearchResponse(status: nat, body: SearchBody)

  /** At most this many results are looked at. */
  const MaxResults: nat := 3

  /** Snippets are cut to this many characters. */
  const SnippetLimit: nat := 200

  const SearchIcon: string := "\U{1F50D} "
  const ResultIcon: string := "\U{1F4C4} "
  const QuickAnswerLead: string := SearchIcon + "Quick Answer: "

  /** A result is listed only when both its title and its (cut) snippet are
    * non-empty; the snippet is empty exactly when the content is. */
  predicate Listed(r: SearchResult) {
    r.SearchResult? && r.title != "" && r.content != ""
  }

  /** The line for one listed result. */
  function ResultLine(r: SearchResult): string
    requires r.SearchResult?
  {
    ResultIcon + r.title + ": " + Take(r.content, SnippetLimit) + "..."
  }

  /** The lines the loop appends for `results`, in order. */
  function ResultLines(results: seq<SearchResult>): seq<string>
    decreases |results|
  {
    if results == [] then []
    else (if Listed(results[0]) then [ResultLine(results[0])] else []) + ResultLines(results[1..])
  }

  /** `results[:3]`. */
  function FirstResults(results: seq<SearchResult>): (r: seq<SearchResult>)
    ensures |r| == if |results| <= MaxResults then |results| else MaxResults
    ensures r == results[..|r|]
  {
    if |results| <= MaxResults then results else results[..MaxResults]
  }

  /** None of the first three results makes the loop raise. */
  predicate ReadsCleanly(d: SearchData) {
    forall i :: 0 <= i < |d.results| && i < MaxResults ==> d.results[i].SearchResult?
  }

  /** The `search_context` list built from a body that reads cleanly. */
  function SearchLines(d: SearchData): seq<string> {
    (if d.answer != "" then [QuickAnswerLead + d.answer] else []) + ResultLines(FirstResults(d.results))
  }

  /** Walking the results one at a time appends the lines of each in turn. */
  lemma {:induction false} ResultLinesAppend(a: seq<SearchResult>, b: seq<SearchResult>)
    ensures ResultLines(a + b) == ResultLines(a) + ResultLines(b)
    decreases |a|
  {
    if a == [] {
      assert a + b == b;
    } else {
      assert (a + b)[1..] == a[1..] + b;
      ResultLinesAppend(a[1..], b);
    }
  }

  /** There is one line per listed result: none exactly when no result is
    * listed, never more than there are results, and each one a result line. */
  lemma {:induction false} ResultLinesFacts(results: seq<SearchResult>)
    ensures |ResultLines(results)| <= |results|
    ensures ResultLines(results) == [] <==> forall i :: 0 <= i < |results| ==> !Listed(results[i])
    ensures forall k :: 0 <= k < |ResultLines(results)| ==>
      exists i :: 0 <= i < |results| && Listed(results[i]) && ResultLines(results)[k] == ResultLine(results[i])
    decreases |results|
  {
    ResultLinesOrigins(results);
    if results != [] {
      var rest := results[1..];
      ResultLinesFacts(rest);
      if !Listed(results[0]) && forall j :: 0 <= j < |rest| ==> !Listed(rest[j]) {
        forall i | 0 <= i < |results| ensures !Listed(results[i]) {
          if i > 0 { assert results[i] == rest[i - 1]; }
        }
      }
    }
  }

  /** Each line is the line of a listed result. */
  lemma {:induction false} ResultLinesOrigins(results: seq<SearchResult>)
    ensures forall k :: 0 <= k < |ResultLines(results)| ==>
      exists i :: 0 <= i < |results| && Listed(results[i]) && ResultLines(results)[k] == ResultLine(results[i])
    decreases |results|
  {
    if results != [] {
      var rest := results[1..];
      ResultLinesOrigins(rest);
      var lines := ResultLines(results);
      var off := if Listed(results[0]) then 1 else 0;
      assert lines == (if Listed(results[0]) then [ResultLine(results[0])] else []) + ResultLines(rest);
      forall k | 0 <= k < |ResultLines(results)|
        ensures exists i :: 0 <= i < |results| && Listed(results[i]) && ResultLines(results)[k] == ResultLine(results[i])
      {
        if k < off {
          assert Listed(results[0]) && lines[0] == ResultLine(results[0]);
        } else {
          assert lines[k] == ResultLines(rest)[k - off];
          var j :| 0 <= j < |rest| && Listed(rest[j]) && ResultLines(rest)[k - off] == ResultLine(rest[j]);
          assert results[j + 1] == rest[j];
          assert Listed(results[j + 1]) && lines[k] == ResultLine(results[j + 1]);
        }
      }
      assert forall k :: 0 <= k < |ResultLines(results)| ==>
        exists i :: 0 <= i < |results| && Listed(results[i]) && ResultLines(results)[k] == ResultLine(results[i]);
    } else {
      assert ResultLines(results) == [];
    }
  }

  /** A result line shows the title and at most 200 leading characters of the
    * content, between the document icon and a closing ellipsis. */
  lemma ResultLineShape(r: SearchResult)
    requires r.SearchResult?
    ensures exists snippet: string ::
      && |snippet| <= SnippetLimit && |snippet| <= |r.content|
      && snippet == r.content[..|snippet|]
      && (|r.content| > SnippetLimit ==> |snippet| == SnippetLimit)
      && ResultLine(r) == ResultIcon + r.title + ": " + snippet + "..."
  {
    var snippet := Take(r.content, SnippetLimit);
    assert ResultLine(r) == ResultIcon + r.title + ": " + snippet + "...";
  }

  /** The context has at most four lines; the quick answer comes first exactly
    * when there is a non-empty answer; the rest are the lines of the listed
    * results among the first three. */
  lemma SearchLinesFacts(d: SearchData)
    ensures |SearchLines(d)| <= 1 + MaxResults
    ensures d.answer != "" ==> SearchLines(d)[0] == QuickAnswerLead + d.answer
    ensures d.answer == "" ==> SearchLines(d) == ResultLines(FirstResults(d.results))
    ensures SearchLines(d) == [] <==>
      d.answer == "" && forall i :: 0 <= i < |d.results| && i < MaxResults ==> !Listed(d.results[i])
  {
    var first := FirstResults(d.results);
    ResultLinesFacts(first);
    if forall i :: 0 <= i < |first| ==> !Listed(first[i]) {
      forall i | 0 <= i < |d.results| && i < MaxResults ensures !Listed(d.results[i]) {
        assert d.results[i] == first[i];
      }
    }
    if forall i :: 0 <= i < |d.results| && i < MaxResults ==> !Listed(d.results[i]) {
      forall i | 0 <= i < |first| ensures !Listed(first[i]) {
        assert first[i] == d.results[i];
      }
    }
  }

  /** Results after the third never reach the context. */
  lemma LaterResultsIgnored(d: SearchData, extra: seq<SearchResult>)
    requires |d.results| >= MaxResults
    ensures SearchLines(SearchData(d.answer, d.results + extra)) == SearchLines(d)
  {
    assert (d.results + extra)[..MaxResults] == d.results[..MaxResults];
  }

  /** The loop of `tavily_web_search` that fills `search_context`; `None` when
    * an unreadable result makes it raise. */
  method FormatSearchContext(d: SearchData) returns (context: Option<seq<string>>)
    ensures context == if ReadsCleanly(d) then Some(SearchLines(d)) else None
  {
    var lines := [];
    if d.answer != "" {
      lines := lines + [QuickAnswerLead + d.answer];
    }
    var first := FirstResults(d.results);
    assert first[0..] == first;
    var i := 0;
    while i < |first|
      invariant 0 <= i <= |first|
      invariant lines + ResultLines(first[i..]) == SearchLines(d)
      invariant forall k :: 0 <= k < i ==> first[k].SearchResult?
      decreases |first| - i
    {
      var r := first[i];
      if r.Unreadable? {
        assert d.results[i] == r;
        return None;
      }
      var snippet := Take(r.content, SnippetLimit);
      NextResult(first, i);
      ghost var rest := ResultLines(first[i + 1..]);
      if r.title != "" && snippet != "" {
        ghost var before := lines;
        lines := lines + [ResultIcon + r.title + ": " + snippet + "..."];
        assert lines + rest == before + ([ResultLine(r)] + rest);
      } else {
        assert ResultLines(first[i..]) == rest;
      }
      i := i + 1;
    }
    assert first[i..] == [];
    assert lines + [] == lines;
    assert forall k :: 0 <= k < |d.results| && k < MaxResults ==> d.results[k] == first[k];
    context := Some(lines);
  }

  /** One step of the loop: the lines still to come start with those of the
    * next result, which is listed exactly when its cut snippet is non-empty. */
  lemma NextResult(rs: seq<SearchResult>, i: nat)
    requires i < |rs|
    ensures ResultLines(rs[i..]) ==
      (if Listed(rs[i]) then [ResultLine(rs[i])] else []) + ResultLines(rs[i + 1..])
    ensures rs[i].SearchResult? ==>
      (Listed(rs[i]) <==> rs[i].title != "" && Take(rs[i].content, SnippetLimit) != "")
  {
    assert rs[i..][0] == rs[i];
    assert rs[i..][1..] == rs[i + 1..];
    if rs[i].SearchResult? && rs[i].content != "" {
      assert |Take(rs[i].content, SnippetLimit)| > 0;
    }
  }

  function MissingKeyMessage(query: string): string {
    SearchIcon + "Web search API key not configured. Add your Tavily API key to search for: " + query
  }

  function FailedMessage(query: string): string {
    SearchIcon + "Web search failed for: " + query
  }

  function NoResultsMessage(query: string): string {
    SearchIcon + "No search results found for: " + query
  }

  function NetworkMessage(query: string): string {
    SearchIcon + "Web search error for '" + query + "': Network issue, please try again."
  }

  /** `tavily_web_search` as a function of the key and the request's outcome. */
  function TavilyWebSearchSpec(query: string, apiKey: string, reply: SearchReply): string {
    if apiKey == "" then MissingKeyMessage(query)
    else match reply
      case SearchRequestFailed => NetworkMessage(query)
      case SearchResponse(status, body) =>
        if status != 200 then FailedMessage(query)
        else if !body.Json? || !ReadsCleanly(body.data) then NetworkMessage(query)
        else
          var lines := SearchLines(body.data);
          if lines == [] then NoResultsMessage(query) else Join(lines, "\n")
  }

  /** `tavily_web_search`: the request is the oracle `reply`. */
  method TavilyWebSearch(query: string, apiKey: string, reply: SearchReply) returns (text: string)
    ensures text == TavilyWebSearchSpec(query, apiKey, reply)
  {
    if apiKey == "" {
      return MissingKeyMessage(query);
    }
    if reply.SearchRequestFailed? {
      return NetworkMessage(query);
    }
    if reply.status != 200 {
      return FailedMessage(query);
    }
    if !reply.body.Json? {
      return NetworkMessage(query);
    }
    var context := FormatSearchContext(reply.body.data);
    if context.None? {
      return NetworkMessage(query);
    }
    var lines := context.value;
    if lines == [] {
      text := NoResultsMessage(query);
    } else {
      text := Join(lines, "\n");
    }
  }

  /** Without a key nothing is asked of the service: the answer is the same
    * for every outcome and names the query. */
  lemma MissingKeyIgnoresReply(query: string, reply: SearchReply, other: SearchReply)
    ensures TavilyWebSearchSpec(query, "", reply) == TavilyWebSearchSpec(query, "", other)
    ensures Contains(TavilyWebSearchSpec(query, "", reply), query)
  {
    ContainsInfix(SearchIcon + "Web search API key not configured. Add your Tavily API key to search for: ", query, "");
    assert MissingKeyMessage(query) + "" == MissingKeyMessage(query);
  }

  /** The "no results" message is given exactly for a successful JSON reply
    * with no answer and no listed result among the first three. */
  lemma NoResultsCase(query: string, apiKey: string, reply: SearchReply)
    requires apiKey != ""
    requires reply.SearchResponse? && reply.status == 200 && reply.body.Json?
    ensures TavilyWebSearchSpec(query, apiKey, reply) == NoResultsMessage(query) <==>
      ReadsCleanly(reply.body.data) && reply.body.data.answer == ""
      && forall i :: 0 <= i < |reply.body.data.results| && i < MaxResults ==> !Listed(reply.body.data.results[i])
  {
    var d := reply.body.data;
    if !ReadsCleanly(d) {
      NetworkIsNotNoResults(query);
    }
    SearchLinesFacts(d);
    var lines := SearchLines(d);
    if lines != [] {
      if d.answer != "" {
        assert Join(lines, "\n")[..|QuickAnswerLead|] == QuickAnswerLead by {
          JoinStartsWithFirst(lines, "\n");
        }
        assert NoResultsMessage(query)[..|QuickAnswerLead|] != QuickAnswerLead by {
          assert NoResultsMessage(query)[|SearchIcon|] == 'N';
          assert QuickAnswerLead[|SearchIcon|] == 'Q';
        }
      } else {
        var first := FirstResults(d.results);
        ResultLinesFacts(first);
        var j :| 0 <= j < |first| && Listed(first[j]) && lines[0] == ResultLine(first[j]);
        JoinStartsWithFirst(lines, "\n");
        assert Join(lines, "\n")[0] == ResultIcon[0];
        assert NoResultsMessage(query)[0] == SearchIcon[0];
      }
    }
  }

  /** The network message is given exactly when the request raised, or a
    * 200 reply's body could not be read: not JSON, a `null` result list, or
    * an unreadable result among the first three. */
  lemma SearchNetworkIssueCases(query: string, apiKey: string, reply: SearchReply)
    requires apiKey != ""
    ensures TavilyWebSearchSpec(query, apiKey, reply) == NetworkMessage(query) <==>
      reply.SearchRequestFailed?
      || (reply.status == 200 && (!reply.body.Json? || !ReadsCleanly(reply.body.data)))
  {
    if reply.SearchResponse? && reply.status == 200 && reply.body.Json? && ReadsCleanly(reply.body.data) {
      if SearchLines(reply.body.data) == [] {
        NetworkIsNotNoResults(query);
      } else {
        ContextIsNotNetwork(query, reply.body.data);
      }
    } else if reply.SearchResponse? && reply.status != 200 {
      FailedIsNotNetwork(query);
    }
  }

  lemma FailedIsNotNetwork(query: string)
    ensures FailedMessage(query) != NetworkMessage(query)
  {
    var k := |SearchIcon| + 11;
    assert FailedMessage(query)[k] == 'f';
    assert NetworkMessage(query)[k] == 'e';
  }

  /** A joined context starts with the quick-answer lead or the result icon,
    * never with the network message's text. */
  lemma ContextIsNotNetwork(query: string, d: SearchData)
    requires SearchLines(d) != []
    ensures Join(SearchLines(d), "\n") != NetworkMessage(query)
  {
    var lines := SearchLines(d);
    JoinStartsWithFirst(lines, "\n");
    SearchLinesFacts(d);
    assert NetworkMessage(query)[0] == SearchIcon[0];
    assert NetworkMessage(query)[|SearchIcon|] == 'W';
    if d.answer != "" {
      assert Join(lines, "\n")[|SearchIcon|] == lines[0][|SearchIcon|] == 'Q';
    } else {
      var first := FirstResults(d.results);
      ResultLinesFacts(first);
      var j :| 0 <= j < |first| && Listed(first[j]) && lines[0] == ResultLine(first[j]);
      assert Join(lines, "\n")[0] == ResultIcon[0];
    }
  }

  lemma NetworkIsNotNoResults(query: string)
    ensures NetworkMessage(query) != NoResultsMessage(query)
  {
    assert NetworkMessage(query)[|SearchIcon|] == 'W';
    assert NoResultsMessage(query)[|SearchIcon|] == 'N';
  }

  /** The joined text starts with its first line. */
  lemma JoinStartsWithFirst(lines: seq<string>, sep: string)
    requires lines != []
    ensures |Join(lines, sep)| >= |lines[0]|
    ensures Join(lines, sep)[..|lines[0]|] == lines[0]
  {
    if |lines| > 1 {
      assert Join(lines, sep) == lines[0] + (sep + Join(lines[1..], sep));
    }
  }

  /** When no answer, title or content holds a newline, the text splits back
    * into the context lines. */
  lemma ContextSplitsIntoLines(d: SearchData)
    requires SearchLines(d) != []
    requires '\n' !in d.answer
    requires forall i :: 0 <= i < |d.results| && d.results[i].SearchResult? ==>
      '\n' !in d.results[i].title && '\n' !in d.results[i].content
    ensures Split(Join(SearchLines(d), "\n"), '\n') == SearchLines(d)
  {
    var first := FirstResults(d.results);
    var lines := SearchLines(d);
    ResultLinesFacts(first);
    forall k | 0 <= k < |lines| ensures '\n' !in lines[k] {
      if d.answer != "" && k == 0 {
        assert lines[0] == QuickAnswerLead + d.answer;
      } else {
        var off := if d.answer != "" then 1 else 0;
        assert lines[k] == ResultLines(first)[k - off];
        var j :| 0 <= j < |first| && Listed(first[j]) && ResultLines(first)[k - off] == ResultLine(first[j]);
        assert first[j] == d.results[j];
        NoNewlineInResultLine(first[j]);
      }
    }
    SplitJoin(lines, '\n');
  }

  lemma NoNewlineInResultLine(r: SearchResult)
    requires r.SearchResult?
    requires '\n' !in r.title && '\n' !in r.content
    ensures '\n' !in ResultLine(r)
  {
    var snippet := Take(r.content, SnippetLimit);
    assert forall c :: c in snippet ==> c in r.content;
  }
}
