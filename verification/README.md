# TradingAgents batch runner: a Dafny model

This project models the batch script of the TradingAgents fork. The script analyses a fixed list of stocks with a multi-agent LLM trading engine and saves one text report per stock. It also models the social-media analyst node that feeds the engine Brave web-search results.

Modelled parts:

- **Start-up** (module `Startup`). Reads the OpenAI and Brave keys and the comma-separated data-provider key list `AV_KEYS`, where a missing variable reads as `""`. Parses the key list: split on commas, `strip()` each piece, drop empty pieces. Stops the batch with exit status 1 and the fixed fatal message when any credential is empty. Masks a key for display as its first four characters plus `****`.
- **Client rewrite** (module `ClientPatch`). The keyword-argument rewrite done by the patched OpenAI client constructors: `base_url` is forced to the fixed endpoint, `api_key` is forced to the OpenAI key, `http_client` is dropped, and every other argument is untouched.
- **Dispatch and jobs** (module `Batch`):
  - Stock `i` gets data key `i mod len(keys)`, one job per stock in list order.
  - Each job installs its key in the environment it builds the engine from and prints the start banner.
  - If the analysis call raises, the job returns a failure line and writes no file.
  - Otherwise the job writes the report to `os.path.join("reports", stock + "_analysis.txt")` and returns a success line, or a failure line if rendering raised half-way.
  - The reports directory after the batch does not depend on the order in which jobs finish.
- **Report text** (module `Report`). The writer is modelled as the source performs it, write by write. A Python exception stops it and leaves the text written so far. A reference description gives the report as a list of blocks: header, the four analyst sections in fixed order, the investment debate, the risk debate, and the final decision. For a state of the expected shape, the writer produces exactly the concatenation of those blocks.
- **Social-media analyst** (module `SocialMedia`):
  - The decoded Brave answer becomes `- title: description` lines joined by newlines, with the fixed fallback and error texts. The Python exceptions a malformed answer raises inside the `try` are included.
  - The search query is built from the ticker.
  - The node keeps the model's reply as its one new message. The reply becomes `sentiment_report` only when it makes no tool call.
- **Support modules.** `Text` holds Python's `strip`/`split`/`join` on code points. `PyValues` holds the few Python values and built-ins the report writer and the search formatter apply: `in`, `[]`, `.get`, truthiness, `str()`, and the exception each raises. `Wrappers` holds `Option` and `Result`.

Some inputs come from outside the script and are parameters of the model:
- the process environment;
- the date each job reads from the clock when it starts;
- what the analysis engine returns or raises (`Engine`);
- the decoded HTTP answer or the exception of the request (`Fetch`);
- the LLM's reply (`Llm`);
- the textual rendering `str()` gives a dict, list or scalar, which is a field of the value.

Three behaviours of the job function that are easy to misread:
- The report file is opened only after `propagate` returns (run_automation.py:91, 97), so a job whose analysis call raises leaves no file.
- An exception while the file is being written is caught outside the `with` block (run_automation.py:97-158), so the partial file stays.
- The report holds the fields extracted from the returned state (run_automation.py:108-153), not captured console output.

## Model

| member | source | states |
|---|---|---|
| Text.Strip | run_automation.py:18 | `strip()` returns a string that does not start or end with whitespace and that sits inside the input with only whitespace around it |
| Text.Split | run_automation.py:18 | `split(",")` gives one more piece than there are commas, no piece holds a comma, and joining the pieces with commas gives the input back |
| Startup.ParseKeys | run_automation.py:17-18 | every parsed key is non-empty, has no surrounding whitespace and holds no comma; there are at most (number of commas + 1) keys |
| Startup.ParseJoinedKeys | run_automation.py:17-18 | parsing clean keys joined by commas returns exactly those keys in the same order |
| Startup.ParseKeysPiece | run_automation.py:18 | a value without a comma gives its `strip()` as the one key, or no key when that is empty; with `ParseKeysAround` this fixes every key of the list |
| Startup.ParseKeysSpaced | run_automation.py:18 | `k1, k2` (a space after the comma) parses to exactly the two keys `k1` and `k2` |
| Startup.ParseKeysAround | run_automation.py:17-18 | the keys of `a + "," + b` are the keys of `a` followed by the keys of `b`, so list order is kept |
| Startup.ParseKeysEmptyIff | run_automation.py:18 | the key list is empty exactly when the raw value holds only whitespace and commas |
| Startup.LoadSettings | run_automation.py:10-23 | start-up fails, with exit status 1 and the fatal message, exactly when the OpenAI key, the Brave key or the parsed key list is empty. On success the settings hold the two keys as read and the parsed key list, all non-empty. The two service keys are written back to the environment, and other variables are unchanged |
| Startup.Mask | run_automation.py:83 | the displayed key is the first min(4, length) characters of the key followed by `****` |
| ClientPatch.RewriteKwargs | run_automation.py:31-46 | after the rewrite `base_url` is the fixed endpoint, `api_key` is the OpenAI key and `http_client` is absent. The key set is exactly the old one plus those two minus `http_client`, and every other argument keeps its value |
| ClientPatch.RewriteIgnoresForcedKeys | run_automation.py:32-35 | what the caller passed for `base_url`, `api_key` or `http_client` has no effect on the rewritten arguments |
| ClientPatch.RewriteIdempotent | run_automation.py:31-36 | rewriting already-rewritten arguments changes nothing |
| Batch.SubmitAll | run_automation.py:169-171 | exactly one job per stock, in list order, and stock `i` gets `keys[i mod len(keys)]` |
| Batch.Dispatch | run_automation.py:169-171 | no job list at all (exit status 1, fatal message) exactly when a credential is missing; otherwise the round-robin job list over the keys parsed from `AV_KEYS` |
| Batch.SlotCountFormula | run_automation.py:170 | key slot `p` serves `n div k` jobs, plus one if `p < n mod k` |
| Batch.RoundRobinBalanced | run_automation.py:170 | any two key slots (positions in the key list, which may repeat a key) serve numbers of jobs that differ by at most one |
| Batch.ReportPath | run_automation.py:96 | the report path is `reports/<stock>_analysis.txt`, or `<stock>_analysis.txt` for a stock name starting with `/` (posix `os.path.join`) |
| Batch.ReportPathInjective | run_automation.py:96 | different stocks never share a report path |
| Batch.JobEnv | run_automation.py:81 | the engine's environment holds the job's key under `ALPHA_VANTAGE_API_KEY` and is otherwise the process environment |
| Batch.BannerHidesKey | run_automation.py:83 | two keys with the same first four characters print the same start banner |
| Batch.ProcessStock | run_automation.py:75-158 | The banner shows the masked key. There is no file exactly when the analysis call raised, and then the status is the failure line with the exception text. Otherwise the file at the stock's path holds the rendered report, which starts with the header. The status is the success line, with the footer at the end of the file, when rendering finished, and the failure line with the rendering exception otherwise |
| Batch.ApplyWritesSpec | run_automation.py:97 | after writes to distinct paths, every path holds its written text and every other file is unchanged |
| Batch.ApplyWritesOrderFree | run_automation.py:173 | writes to distinct paths give the same files in any completion order |
| Batch.BatchReports | run_automation.py:167-174 | For distinct stocks and any completion order, each stock whose analysis call returned has its own rendered report at its own path, built with its round-robin key and its own date. Each stock whose call raised leaves its path as it was before the batch |
| Batch.StockListDistinct | run_automation.py:67 | the script's stock list names no stock twice, so the batch result above holds for it |
| Report.StateData | run_automation.py:108 | the data read is the value under the date key when there is one, the state itself otherwise |
| Report.Then | run_automation.py:97-153 | after an exception nothing more is written; otherwise the next writes' text is appended |
| Report.Render | run_automation.py:97-153 | The file always starts with the stock/date header. When no exception stopped the writes it ends with the decision footer. A state that is not a dict never raises |
| Report.SectionsMatch | run_automation.py:111-120 | on a dict, the section loop writes exactly the sections whose key is present with a truthy value, titled, in the loop's order, and never raises |
| Report.TurnsMatch | run_automation.py:123-144 | on a dict, a debate block writes exactly the speakers whose key is present, each labelled, in the fixed speaker order |
| Report.RenderMatchesOutline | run_automation.py:97-153 | for a state of the expected shape, the file text is the concatenation of the reference blocks (header, shown sections, present debates, raw dump, decision) and no exception occurs |
| Report.OutlineOrdered | run_automation.py:98-153 | The report opens with the header and closes with the decision. In between, blocks follow market, fundamentals, news, sentiment, investment debate, risk debate, each at most once. Each debate's speakers follow their fixed order |
| Report.OutlineSectionIff | run_automation.py:117-120 | an analyst section is in the report exactly when the state is a dict whose data holds a truthy value under its key, and then it carries that value |
| Report.OutlineDebateIff | run_automation.py:123-144 | A debate block is in the report exactly when its key is present, even with no sub-fields. Within it, a speaker appears exactly when the speaker's key is present |
| Report.OutlineRawIff | run_automation.py:145-147 | the raw dump appears, replacing all sections and debates, exactly when the state is not a dict |
| Report.ScalarDataStopsAfterHeader | run_automation.py:118 | when the unwrapped data is `None` or a number, the first `in` test raises TypeError and the file keeps only the header |
| SocialMedia.ResultLines | tradingagents/agents/analysts/social_media_analyst.py:31-34 | The loop succeeds exactly when every result is a dict, giving one `- title: description` line per result in order, with a missing field read as `""`. Otherwise the first non-dict raises AttributeError |
| SocialMedia.FormatResults | tradingagents/agents/analysts/social_media_analyst.py:31 | A list is formatted item by item. A non-empty dict or string fails at the first `.get` and an empty one gives no line. Any other JSON value raises TypeError |
| SocialMedia.SearchLines | tradingagents/agents/analysts/social_media_analyst.py:31 | a non-dict answer raises AttributeError; a missing `web` or `results` field gives no line; a result list is formatted by the loop |
| SocialMedia.PerformBraveSearch | tradingagents/agents/analysts/social_media_analyst.py:12-38 | a missing or empty key gives exactly the missing-key text; any exception of the request or of the loop gives the error prefix followed by the exception text; a listed, non-empty list of result dicts gives their `- title: description` lines joined by line breaks |
| SocialMedia.NoResultsIff | tradingagents/agents/analysts/social_media_analyst.py:36 | the no-results text comes out exactly when a key is set, the request succeeded and the answer lists no result; no error or result line can equal it |
| SocialMedia.SearchOutputLines | tradingagents/agents/analysts/social_media_analyst.py:30-36 | when there are results and no title or description holds a line break, splitting the output at line breaks gives exactly one line per result, in order |
| SocialMedia.SearchQuery | tradingagents/agents/analysts/social_media_analyst.py:55 | the query is the ticker followed by the fixed suffix |
| SocialMedia.SearchQueryInjective | tradingagents/agents/analysts/social_media_analyst.py:55 | different tickers give different queries |
| SocialMedia.AnalystNode | tradingagents/agents/analysts/social_media_analyst.py:44-107 | The node returns exactly one new message: the model's reply to a prompt that carries the search output for the ticker's query. The sentiment report is the reply's text when it makes no tool call and `""` otherwise |
| SocialMedia.SentimentSectionShown | tradingagents/agents/analysts/social_media_analyst.py:99-107 | once stored in the analysis state, the node's report gives the report file a sentiment section exactly when the reply has no tool call and non-empty text |

## Left out

- Threads, the worker pool, the initialisation lock and `as_completed`. Jobs are modelled one at a time. Completion order appears only as an arbitrary permutation of the files written.
- The engine reading its data key lazily during the analysis call, after another job has replaced it. The engine is opaque, so the model gives each job's engine the environment it was built from.
- A stock listed twice. `Batch.BatchReports` requires distinct stocks; with duplicates the last job to finish decides the file's content.
- Replacing `__init__` on the OpenAI classes and calling the original constructors. These are foreign-library mechanics; only the argument rewrite is modelled.
- Reading and writing `os.environ` and `datetime.today()`. The environment is a parameter, and so is the date each job reads.
- `os.makedirs`, and a file that cannot be opened. The reports directory is assumed to exist and be writable.
- Console output other than the start banner and the status line: the separator lines, "analysis finished", the start-of-batch lines and the final summary.
- The exception `TradingAgentsGraph(...)` itself might raise. It is outside the `try` and would surface in the main thread; the engine is only modelled through its analysis call.
- The HTTP request, `raise_for_status` and JSON decoding. Their outcome is the `Fetch` parameter.
- The prompt template's prose, `bind_tools` and the LLM call. The prompt is modelled by the values filled into it, and the reply is the `Llm` parameter.
- The text `str()` gives a dict, a list or a scalar, and `str()` of an exception. Each is carried as a field of the value. The exception texts follow CPython 3.11 and later.
- Batch.Dispatch: the `AV_KEYS` check runs on the parsed list, so `ParseKeysEmptyIff` is what turns the source's "list is empty" into the whitespace-and-commas condition stated there.
- Startup.Mask: a key of four characters or fewer is shown in full before `****`, as the source does; the contract says only what is shown, not that it hides anything for such keys.
