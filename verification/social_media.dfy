/**
 * The social-media analyst: the Brave web search whose decoded answer is
 * turned into "- title: description" lines before the language model is
 * asked, the query built from the ticker, and the node's choice of report
 * (the model's text only when it asked for no tool).
 */
module SocialMedia {
  import opened Wrappers
  import opened Text
  import opened PyValues
  import Report

  const MissingKeyMessage: string := "Brave Search API Key missing."
  const NoResultsMessage: string := "No social media discussions found."
  const ErrorPrefix: string := "Brave Search API error: "
  const QuerySuffix: string := " stock social media sentiment Reddit Twitter opinion"

  /** The defaults passed to `.get` for a missing `web` or `results` field. */
  const EmptyDict: PyValue := PyDict(map[], "{}")
  const EmptyList: PyValue := PyList([], "[]")

  // ---------------------------------------------------------------------------
  // Formatting the search answer
  // ---------------------------------------------------------------------------

  /** `str(m.get(key, ""))`. */
  function FieldOr(m: map<string, PyValue>, key: string): string {
    if key in m then Str(m[key]) else ""
  }

  /** The line for one result object. */
  function ResultLine(m: map<string, PyValue>): (line: string)
    ensures IsPrefix("- ", line)
  {
    "- " + FieldOr(m, "title") + ": " + FieldOr(m, "description")
  }

  /**
   * The loop over the result list: every element must be a dict (its `.get`
   * is called); the first one that is not raises AttributeError.
   */
  function ResultLines(items: seq<PyValue>): (r: Result<seq<string>, PyException>)
    ensures r.Success? <==> forall i :: 0 <= i < |items| ==> items[i].PyDict?
    ensures r.Success? ==>
      && |r.value| == |items|
      && forall i :: 0 <= i < |items| ==> r.value[i] == ResultLine(items[i].entries)
    ensures r.Failure? ==>
      exists i :: 0 <= i < |items| && !items[i].PyDict? && (forall j :: 0 <= j < i ==> items[j].PyDict?)
                  && r.error == NoGet(items[i])
    decreases |items|
  {
    if |items| == 0 then Success([])
    else if !items[0].PyDict? then Failure(NoGet(items[0]))
    else
      match ResultLines(items[1..])
      case Failure(e) =>
        assert forall j :: 1 <= j < |items| ==> items[j] == items[1..][j - 1];
        Failure(e)
      case Success(rest) =>
        assert forall j :: 1 <= j < |items| ==> items[j] == items[1..][j - 1];
        Success([ResultLine(items[0].entries)] + rest)
  }

  /**
   * Iterating whatever `results` holds: a list yields its items; a dict
   * yields its keys and a str its characters, both strings, so a non-empty
   * one fails at the first `.get` (the message names only the type); an
   * empty one yields nothing; any other JSON value is not iterable.
   */
  function FormatResults(results: PyValue): (r: Result<seq<string>, PyException>)
    ensures results.PyList? ==> r == ResultLines(results.items)
    ensures results.PyScalar? ==>
      r == Failure(PyException("TypeError", "'" + results.typeName + "' object is not iterable"))
    ensures (results.PyDict? || results.PyStr?) ==> (r.Success? <==> !Truthy(results))
    ensures (results.PyDict? || results.PyStr?) && Truthy(results) ==> r == Failure(NoGet(PyStr("")))
    ensures r.Success? && results.PyList? ==> |r.value| == |results.items|
    ensures r.Success? && !results.PyList? ==> r.value == []
  {
    match results
    case PyList(items, _) => ResultLines(items)
    case PyDict(m, _) => if |m| == 0 then Success([]) else Failure(NoGet(PyStr("")))
    case PyStr(s) => if |s| == 0 then Success([]) else Failure(NoGet(PyStr([s[0]])))
    case PyScalar(t, _, _) => Failure(PyException("TypeError", "'" + t + "' object is not iterable"))
  }

  /** `data.get("web", {}).get("results", [])`, then the loop. */
  function SearchLines(data: PyValue): (r: Result<seq<string>, PyException>)
    ensures !data.PyDict? ==> r == Failure(NoGet(data))
    ensures data.PyDict? && "web" !in data.entries ==> r == Success([])
    ensures (data.PyDict? && "web" in data.entries && data.entries["web"].PyDict?
             && "results" !in data.entries["web"].entries) ==> r == Success([])
    ensures forall items: seq<PyValue> :: ListedResults(data, items) ==> r == ResultLines(items)
  {
    var web :- DictGet(data, "web", EmptyDict);
    var results :- DictGet(web, "results", EmptyList);
    FormatResults(results)
  }

  /** The decoded answer has the documented shape, with `items` as its result list. */
  predicate ListedResults(data: PyValue, items: seq<PyValue>) {
    && data.PyDict? && "web" in data.entries
    && data.entries["web"].PyDict? && "results" in data.entries["web"].entries
    && data.entries["web"].entries["results"].PyList?
    && data.entries["web"].entries["results"].items == items
  }

  /** `os.environ.get("BRAVE_API_KEY")` is set and non-empty. */
  predicate KeyPresent(apiKey: Option<string>) {
    apiKey.Some? && apiKey.value != ""
  }

  /**
   * `perform_brave_search`: `response` is what the HTTP request, the status
   * check and the JSON decoding produced, the decoded value or the exception
   * one of them raised. Every exception inside the `try` becomes an error
   * line.
   */
  function PerformBraveSearch(apiKey: Option<string>, response: Result<PyValue, PyException>): (out: string)
    ensures !KeyPresent(apiKey) ==> out == MissingKeyMessage
    ensures KeyPresent(apiKey) && response.Failure? ==> out == ErrorPrefix + response.error.message
    ensures KeyPresent(apiKey) && response.Success? && SearchLines(response.value).Failure? ==>
      out == ErrorPrefix + SearchLines(response.value).error.message
    ensures KeyPresent(apiKey) && response.Success? ==>
      forall items: seq<PyValue> ::
        (ListedResults(response.value, items) && |items| > 0 && AllDicts(items)) ==>
          out == Join(DictLines(items), '\n')
  {
    if !KeyPresent(apiKey) then MissingKeyMessage
    else
      match response
      case Failure(e) => ErrorPrefix + e.message
      case Success(data) =>
        match SearchLines(data)
        case Failure(e) => ErrorPrefix + e.message
        case Success(lines) =>
          ListedLinesAll(data);
          if |lines| == 0 then NoResultsMessage else Join(lines, '\n')
  }

  /** Every result is a dict. */
  predicate AllDicts(items: seq<PyValue>) {
    forall i :: 0 <= i < |items| ==> items[i].PyDict?
  }

  /** One `- title: description` line per result, in result order. */
  function DictLines(items: seq<PyValue>): seq<string>
    requires AllDicts(items)
  {
    seq(|items|, i requires 0 <= i < |items| => ResultLine(items[i].entries))
  }

  /** A listed result list of dicts is formatted into exactly its lines. */
  lemma ListedLines(data: PyValue, items: seq<PyValue>)
    requires ListedResults(data, items) && AllDicts(items)
    ensures SearchLines(data) == Success(DictLines(items))
  {
    assert ResultLines(items).value == DictLines(items);
  }

  lemma ListedLinesAll(data: PyValue)
    ensures forall items: seq<PyValue> :: ListedResults(data, items) && AllDicts(items) ==>
      SearchLines(data) == Success(DictLines(items))
  {
    forall items: seq<PyValue> | ListedResults(data, items) && AllDicts(items)
      ensures SearchLines(data) == Success(DictLines(items))
    {
      ListedLines(data, items);
    }
  }

  lemma JoinFirst(parts: seq<string>, sep: char)
    requires |parts| > 0 && |parts[0]| > 0
    ensures |Join(parts, sep)| > 0 && Join(parts, sep)[0] == parts[0][0]
  {
  }

  /**
   * The fallback line appears exactly when a key is set, the request
   * succeeded and the answer lists no result: no error line and no result
   * line can read like it.
   */
  lemma NoResultsIff(apiKey: Option<string>, response: Result<PyValue, PyException>)
    ensures PerformBraveSearch(apiKey, response) == NoResultsMessage
        <==> KeyPresent(apiKey) && response.Success? && SearchLines(response.value) == Success([])
  {
    var out := PerformBraveSearch(apiKey, response);
    if !KeyPresent(apiKey) {
      assert MissingKeyMessage[16] != NoResultsMessage[16];
    } else if response.Failure? || SearchLines(response.value).Failure? {
      assert out[0] == ErrorPrefix[0];
    } else {
      var lines := SearchLines(response.value).value;
      if |lines| > 0 {
        assert IsPrefix("- ", lines[0]) by {
          var data := response.value;
          var web := DictGet(data, "web", EmptyDict).value;
          var results := DictGet(web, "results", EmptyList).value;
          assert lines == FormatResults(results).value;
        }
        JoinFirst(lines, '\n');
        assert out[0] == '-';
      }
    }
  }

  /**
   * Round trip: when the answer lists results and no title or description
   * holds a line break, splitting the output at line breaks gives back one
   * line per result, in result order.
   */
  lemma SearchOutputLines(apiKey: Option<string>, data: PyValue, items: seq<PyValue>)
    requires KeyPresent(apiKey) && ListedResults(data, items) && |items| > 0
    requires forall i :: 0 <= i < |items| ==> items[i].PyDict?
    requires forall i :: 0 <= i < |items| ==>
      '\n' !in FieldOr(items[i].entries, "title") && '\n' !in FieldOr(items[i].entries, "description")
    ensures |Split(PerformBraveSearch(apiKey, Success(data)), '\n')| == |items|
    ensures forall i :: 0 <= i < |items| ==>
      Split(PerformBraveSearch(apiKey, Success(data)), '\n')[i] == ResultLine(items[i].entries)
  {
    var lines := SearchLines(data).value;
    assert lines == ResultLines(items).value;
    forall i | 0 <= i < |lines|
      ensures '\n' !in lines[i]
    {
      ResultLineNoBreak(items[i].entries);
    }
    assert PerformBraveSearch(apiKey, Success(data)) == Join(lines, '\n');
    SplitJoin(lines, '\n');
  }

  lemma ResultLineNoBreak(m: map<string, PyValue>)
    requires '\n' !in FieldOr(m, "title") && '\n' !in FieldOr(m, "description")
    ensures '\n' !in ResultLine(m)
  {
    var t := FieldOr(m, "title");
    var d := FieldOr(m, "description");
    var line := ResultLine(m);
    forall k | 0 <= k < |line|
      ensures line[k] != '\n'
    {
      if 2 <= k < 2 + |t| {
        assert line[k] == t[k - 2];
      } else if 4 + |t| <= k {
        assert line[k] == d[k - 4 - |t|];
      }
    }
  }

  // ---------------------------------------------------------------------------
  // The analyst node
  // ---------------------------------------------------------------------------

  /** The query sent to the search: the ticker, then a fixed suffix. */
  function SearchQuery(ticker: string): (q: string)
    ensures IsPrefix(ticker, q) && IsSuffix(QuerySuffix, q)
    ensures |q| == |ticker| + |QuerySuffix|
  {
    ticker + QuerySuffix
  }

  /** Different tickers never share a query. */
  lemma SearchQueryInjective(t1: string, t2: string)
    requires SearchQuery(t1) == SearchQuery(t2)
    ensures t1 == t2
  {
    assert t1 == SearchQuery(t1)[..|t1|];
    assert t2 == SearchQuery(t2)[..|t2|];
  }

  datatype ToolCall = ToolCall(name: string, args: map<string, string>)

  /** A chat message: its text and the tool calls the model asked for. */
  datatype ChatMessage = ChatMessage(content: string, toolCalls: seq<ToolCall>)

  /** The fields of the graph state the node reads. */
  datatype AgentState = AgentState(tradeDate: string, company: string, messages: seq<ChatMessage>)

  /** The values filled into the prompt template (its prose is not modelled). */
  datatype Prompt = Prompt(toolNames: string, searchResults: string, currentDate: string, ticker: string)

  /** The partial state the node returns. */
  datatype NodeUpdate = NodeUpdate(messages: seq<ChatMessage>, sentimentReport: string)

  /** The model bound to the tools, asked with the filled prompt and the conversation so far. */
  type Llm = (Prompt, seq<ChatMessage>) -> ChatMessage

  /** The search request for a query: the decoded answer, or what the request raised. */
  type Fetch = string -> Result<PyValue, PyException>

  /** The only tool the node binds. */
  const ToolNames: string := "get_news"

  /**
   * `social_media_analyst_node`: the search runs before the model is asked,
   * and its output is in the prompt; the model's reply is the one new
   * message; it becomes the sentiment report only when it calls no tool.
   */
  function AnalystNode(state: AgentState, apiKey: Option<string>, fetch: Fetch, llm: Llm): (u: NodeUpdate)
    ensures |u.messages| == 1
    ensures u.messages[0] ==
      llm(Prompt(ToolNames, PerformBraveSearch(apiKey, fetch(SearchQuery(state.company))), state.tradeDate, state.company),
          state.messages)
    ensures |u.messages[0].toolCalls| == 0 ==> u.sentimentReport == u.messages[0].content
    ensures |u.messages[0].toolCalls| > 0 ==> u.sentimentReport == ""
  {
    var results := PerformBraveSearch(apiKey, fetch(SearchQuery(state.company)));
    var reply := llm(Prompt(ToolNames, results, state.tradeDate, state.company), state.messages);
    var report := if |reply.toolCalls| == 0 then reply.content else "";
    NodeUpdate([reply], report)
  }

  /**
   * Once the node's report is stored in the analysis state, the report file
   * shows a sentiment section exactly when the model answered without a tool
   * call and with non-empty text.
   */
  lemma SentimentSectionShown(d: map<string, PyValue>, state: AgentState, apiKey: Option<string>, fetch: Fetch, llm: Llm)
    ensures
      var u := AnalystNode(state, apiKey, fetch, llm);
      (Report.Shown(d[Report.SectionKey(Report.Sentiment) := PyStr(u.sentimentReport)], Report.Sentiment)
       <==> |u.messages[0].toolCalls| == 0 && u.messages[0].content != "")
  {
  }
}
