# Deep research pipeline — a Dafny model

This project models the orchestration core of the deep-research service. A
research topic is turned into a plan of subtasks by a language model. Each
subtask's query is sent to a web search. The outcomes are summarised and a
report is generated from the summary. The server streams every step to the
client as a Server-Sent-Events frame (`data: <payload>\n\n`). The Streamlit
client dispatches each payload by its prefix into the plan, search-results
and report areas.

Four programs share this core and each has its own module:

- `Server` covers `main.py`, the streaming server. Its fallback plan has two
  subtasks. It records every search, failed ones with no results. Its summary
  lists URLs. A failed report stream gets one terminal frame.
- `Scratch` covers `deep-research-from-scratch/main.py`. It has a streaming
  copy of the pipeline, a planner wrapped in a tenacity retry (3 attempts,
  20 s apart, only on `ResourceExhausted`) and a printing test runner.
- `TestScript` covers `deep-research/test.py`, a printing run whose planner
  re-raises Google API errors.
- `Frontend` covers `frontend.py`. It validates the form and runs the
  dispatch loop over the event stream, including the final flush of the
  report buffer and the connection-error handling.

Shared pieces live in two more modules:

- `Python` holds the exception classes with their `isinstance` hierarchy,
  plus the `str` operations the programs use: `strip`, `startswith`,
  `endswith`, `replace(pat, "")`, `join` and line counting.
- `Research` holds the entities: plan, subtask, search result and summary
  entry. It also holds the event framing, the search-line format, the
  loop that keeps only successful searches, and the plain summary.

The language model, the search engine and `json.dumps` are calls this model
cannot see. They are parameters:

- A `PlanAttempt` is either the parsed plan or the exception the call raised.
- There is one `SearchOutcome` per subtask.
- A `ReportStream` is the chunks the model yields, plus the exception that
  ended the stream, if any.
- `Dumps` holds the two `json.dumps` renderings as functions.
- The client's JSON parser and pretty-printer are function parameters of
  the frontend.

Each streaming or printing routine is a method with a loop. Its `ensures`
ties its output to a specification function. Lemmas then state the layout
of that output:

- the planning payload first;
- one search line per subtask, in order;
- the report chunks unchanged;
- at most one terminal line.

Points where the code behaves differently from what one might expect of
such a pipeline, which the model follows as written:

- No copy validates the plan's shape. The only fallback is for a failed call.
- The fallback plan of `main.py` has two subtasks (the topic and the topic
  + " overview"). The other two copies use a single subtask.
- `main.py` appends every search to `search_results`, failed ones with no
  results. The other two drop failed searches.
- In `main.py`, an entry without results becomes only "No results found.",
  with no subtask header. This is because the conditional expression binds
  looser than `+`.
- The client strips every payload before buffering it. Its
  `endswith("\n")` render test can therefore never hold, so the report is
  re-rendered only once more than five chunks are buffered, and at the end.
- The client's `replace("Planning:", "")` removes every occurrence of the
  marker, not only the leading one.

## Model

| member | source | states |
|---|---|---|
| Python.StripLeftDrops | frontend.py:78 | `lstrip` removes exactly the longest all-whitespace prefix: the result is a suffix, it does not start with whitespace, and every removed character is whitespace |
| Python.StripRightDrops | frontend.py:78 | `rstrip` removes exactly the longest all-whitespace suffix |
| Python.StripEnds | frontend.py:78 | a stripped payload has no whitespace at either end and is empty exactly when the payload was all whitespace |
| Python.StrippedNotNewlineTerminated | frontend.py:95 | after `strip`, the client's `endswith("\n")` test is always false |
| Python.StripIdempotent | frontend.py:78 | stripping twice is stripping once |
| Python.StripKeepsPrefix | frontend.py:78-91 | stripping keeps a prefix that starts and ends with non-whitespace, so the dispatch prefixes survive the strip |
| Python.RemoveAll | frontend.py:81 | `replace(pat, "")` never lengthens the text |
| Python.RemoveAllAbsent | frontend.py:81 | without an occurrence of the marker nothing is removed |
| Python.RemoveAllPresent | frontend.py:81 | an occurrence anywhere removes at least one whole copy of the marker |
| Python.JoinAppend | main.py:99 | joining two non-empty lists puts exactly one separator between them |
| Python.CountAppend | main.py:93-99 | newlines of a concatenation add up |
| Python.JoinLines | main.py:99 | `"\n".join(xs)` has as many lines as its parts together |
| Research.FrameRoundTrip | main.py:68 | every payload framed as `data: …\n\n` is a well-formed frame whose payload reads back unchanged |
| Research.FramedAt | main.py:66-128 | the i-th frame of a stream is the frame of the i-th payload |
| Research.FramedAppend | main.py:81-84 | yielding one more payload appends exactly its frame |
| Research.FramedConcat | main.py:66-128 | framing distributes over concatenation of payload lists |
| Research.FramedThree | main.py:66-128 | the stream frames are the planning frame, then the search frames, then the report frames |
| Research.SearchLineKind | main.py:75-89 | a search line starts with "Search Results for '<query>': " exactly when the search succeeded, and with "Error searching '<query>': " exactly when it failed |
| Research.SearchLines | deep-research/test.py:57-69 | one search line per subtask |
| Research.SearchLinesAt | deep-research/test.py:57-69 | the i-th search line is about the i-th subtask and its outcome |
| Research.KeptEntries | deep-research/test.py:57-69 | `search_results` has exactly one entry per successful search |
| Research.KeptEntriesAppend | deep-research/test.py:57-69 | the kept entries of two runs of subtasks concatenate, preserving subtask order |
| Research.KeptEntriesAllFound | deep-research/test.py:58-67 | when every search succeeds, the i-th entry is the i-th subtask with its results |
| Research.KeptEntriesAllFailed | deep-research/test.py:68-69 | when every search fails, `search_results` is empty |
| Research.SearchKeepingSuccesses | deep-research/test.py:57-69 | the loop prints one line per subtask and appends an entry only for successful searches |
| Research.PlainSummaryAppend | deep-research/test.py:72-76 | the summary of two runs of entries is the two summaries separated by one newline |
| Research.HeaderLines | deep-research/test.py:73 | an entry header spans exactly three lines when its fields are single-line |
| Research.LineTotalSingle | deep-research/test.py:72-76 | single-line texts contribute one line each |
| Research.JoinSingleLines | deep-research/test.py:72-76 | joining single-line texts with "\n" produces one newline fewer than texts |
| Research.PlainResultLineSingle | deep-research/test.py:74 | a result line with single-line title and content is a single line |
| Research.PlainEntryLineCount | deep-research/test.py:73-74 | a summary entry has three header lines plus one line per result |
| Research.PlainSummaryLineCount | deep-research/test.py:72-76 | the summary has exactly the lines of its entries |
| Research.LineTotalOfTexts | deep-research/test.py:72-76 | the entry texts together have the entries' line counts |
| Research.PrintReport | deep-research/test.py:89-93 | the report chunks are printed in order; a ResourceExhausted failure adds one quota line and is swallowed; any other failure escapes with no line printed |
| Research.PrintedAfterPlanLayout | deep-research/test.py:53-93 | printed output after the start line: the plan line, one search line per subtask in order, the report chunks unchanged, and a quota line only for ResourceExhausted |
| Server.GeneratePlan | main.py:29-58 | a parsed plan is used as it is; any exception gives the default plan with two subtasks searching the topic and the topic + " overview" |
| Server.FallbackQueries | main.py:47-58 | the second fallback query is never empty; the first is empty exactly when the topic is |
| Server.ResultsOf | main.py:82-89 | a failed search records no results |
| Server.AllEntries | main.py:71-90 | `search_results` has one entry per subtask, in order, failed searches with empty results |
| Server.SearchRecordingAll | main.py:71-90 | the search loop yields one frame per subtask in order and records every subtask |
| Server.UrlSummaryAppend | main.py:93-99 | the summary of two runs of entries is the two summaries separated by one newline |
| Server.AllFailedSummary | main.py:93-99 | when every search fails, the summary is "No results found." once per subtask, with no subtask named |
| Server.UrlResultLineSingle | main.py:96 | a result line with single-line fields, URL or "Not Available", is a single line |
| Server.UrlEntryLineCount | main.py:94-98 | an entry has one line without results, otherwise three header lines plus one per result |
| Server.UrlLineTotal | main.py:93-99 | the entry texts together have the entries' line counts |
| Server.UrlSummaryLineCount | main.py:93-99 | the summary has exactly the lines of its entries |
| Server.RelayReport | main.py:117-128 | the report chunks are relayed as frames in order, followed by exactly one terminal frame when the stream failed |
| Server.StreamResearch | main.py:29-128 | the generator's frames are the framed payloads; `search_results` and the summary are those of all subtasks |
| Server.PayloadLayout | main.py:66-128 | payloads: the plan, one search line per subtask in order, the chunks unchanged, and one terminal line only on failure |
| Server.StreamLayout | main.py:66-128 | the same layout, read frame by frame as the client receives it |
| Server.StreamFramesWellFormed | main.py:66-128 | every frame of the stream is a well-formed event frame |
| Server.TerminalFrameKind | main.py:125-128 | the terminal frame starts with "data: Quota exceeded: " exactly for ResourceExhausted, and with "data: Error generating report: " exactly otherwise |
| Server.FramePrefixes | main.py:125-128 | a frame carries its payload's prefix and no prefix that differs from it in the first character |
| Scratch.PlanOrFallback | deep-research-from-scratch/main.py:50-59 | planning fails exactly when the call raised something that is not a ValueError, and then with that exception; a parsed plan is used as it is |
| Scratch.StreamReport | deep-research-from-scratch/main.py:94-95 | the chunks are framed in order and a report failure escapes unchanged |
| Scratch.StreamResearch | deep-research-from-scratch/main.py:50-95 | the frames are the framed payloads; the escaping exception, `search_results` (successful searches only) and the summary are as specified |
| Scratch.ParseErrorFallback | deep-research-from-scratch/main.py:54-59 | a JSON or value error streams the default one-subtask plan, then a search for the topic itself |
| Scratch.OtherPlanningErrorEscapes | deep-research-from-scratch/main.py:50-59 | any other planning error streams nothing and escapes |
| Scratch.StreamLayout | deep-research-from-scratch/main.py:50-95 | payloads: the plan, one search line per subtask in order, then the chunks unchanged; the report failure escapes |
| Scratch.RetryFrom | deep-research-from-scratch/main.py:127-131 | retrying makes at least one call and never asks for more attempts than supplied |
| Scratch.RetryFromBounds | deep-research-from-scratch/main.py:127-131 | at most three calls; 20 s waited between consecutive calls; every call but the last raised ResourceExhausted; the result is the parsed plan, the non-retried exception, or a RetryError carrying the last message after the third attempt |
| Scratch.CallWithRetry | deep-research-from-scratch/main.py:127-151 | the retry loop computes exactly the retry run |
| Scratch.ExhaustedTwiceThenPlan | deep-research-from-scratch/main.py:127-131 | two quota errors then a plan: the plan after three calls and 40 s of waiting |
| Scratch.ExhaustedThrice | deep-research-from-scratch/main.py:127-131 | three quota errors: a RetryError carrying the last message |
| Scratch.JsonErrorNotRetried | deep-research-from-scratch/main.py:127-131 | a JSON error is not retried: it escapes after one call with no waiting |
| Scratch.TestStreamResearch | deep-research-from-scratch/main.py:153-204 | prints the start line, the parse-error note when the fallback is used, the plan, the search lines and the report; the escaping exception, `search_results` and the summary are as specified |
| Scratch.TestGiveUpEscapes | deep-research-from-scratch/main.py:157-164 | when retrying gives up, the RetryError escapes the test runner with no fallback |
| Scratch.TestFallbackOnlyOnParseErrors | deep-research-from-scratch/main.py:157-164 | the fallback note is printed only when the last call raised a ValueError after quota errors only, and the plan is then the default one |
| TestScript.GeneratePlan | deep-research/test.py:15-47 | a parsed plan is used as it is; a Google API error is re-raised unchanged |
| TestScript.FallbackExactlyOnParseErrors | deep-research/test.py:39-47 | the fallback is used exactly for JSON and value errors, and then its one subtask searches the topic |
| TestScript.PlanningNotesMatchOutcome | deep-research/test.py:33-47 | one diagnostic line is printed exactly when a handler saw the call's outcome; a re-raised API error is announced as "API error: …" and the fallback is preceded by "JSON parsing error: …" |
| TestScript.SameAsStreamingPlanning | deep-research/test.py:15-47 | planning agrees with the streaming copy on every input, explicit re-raise or not |
| TestScript.TestStreamResearch | deep-research/test.py:15-93 | the printed lines (the start line, the planning diagnostics, the plan, the search lines and the report), the escaping exception, `search_results` and the summary, on both the failed-plan and the planned path |
| TestScript.AllSearchesFailed | deep-research/test.py:57-76 | when every search fails, `search_results` is empty and so is the summary |
| Frontend.Submit | frontend.py:41-62 | a request is sent exactly when both keys and the topic are present; missing keys are reported before a missing topic; the request carries the topic |
| Frontend.ConsumeEvents | frontend.py:75-113 | the dispatch loop and its final flush compute exactly the session's view |
| Frontend.StopIgnoresRest | frontend.py:88-90 | after a quota or API error event, later events change nothing |
| Frontend.StoppedEarly | frontend.py:88-90 | breaking out of the loop leaves the same view as reading the whole stream |
| Frontend.StepStops | frontend.py:76-101 | one event stops the loop exactly when it is a stop event or the loop had already stopped |
| Frontend.StopEventStops | frontend.py:88-90 | a stream with a stop event stops the loop |
| Frontend.NoStopEventNoStop | frontend.py:76-101 | a stream with no stop event never stops the loop |
| Frontend.ResultsTextGrows | frontend.py:85-87 | the search-results text only grows |
| Frontend.DataOfKindMembers | frontend.py:76-97 | a text is among the data collected for one kind exactly when some event of that kind strips to it |
| Frontend.BuffersCollectByKind | frontend.py:76-97 | before a stop, the report buffer is exactly the report-kind payloads in order and the results text is the search payloads as paragraphs |
| Frontend.RendersOnlyPastFive | frontend.py:91-97 | one event re-renders the report exactly when it is a report event and five or more chunks were already buffered, and the render is the buffer joined by newlines |
| Frontend.MalformedPlanSkipped | frontend.py:80-84 | an unparsable plan adds one warning of at most 78 characters and changes nothing else |
| Frontend.WhitespaceEventBuffered | frontend.py:76-97 | a non-empty all-whitespace event is buffered as an empty report line |
| Frontend.PlanPayloadRemovesEveryMarker | frontend.py:81 | the leading marker is dropped, the payload is the stripped rest when no other marker occurs, and a later marker is removed too |
| Frontend.PlanEventShowsPlan | frontend.py:80-84 | a parsable plan payload replaces the shown plan by its pretty-printed JSON and changes nothing else |
| Frontend.FinalReport | frontend.py:103-106 | with no connection failure, or after a stop, a non-empty buffer is rendered once more as the final report with no new error |
| Frontend.FailureSkipsFinalRender | frontend.py:108-113 | a connection failure before a stop adds exactly its error message and skips the final render |
| Frontend.PlanningPayloadKind | main.py:68 | the server's planning payload is dispatched as a plan event |
| Frontend.SearchPayloadKind | main.py:75-89 | a successful search payload is dispatched as search results; a failed one falls through to the report buffer |
| Frontend.SearchPrefixIsSearch | frontend.py:85 | a payload with the search prefix is dispatched as search results |
| Frontend.TerminalPayloadKind | main.py:125-128 | a quota terminal payload stops the client; any other report error is buffered as report text |
| Frontend.QuotaPrefixStops | frontend.py:88 | a payload starting with "Quota exceeded" stops the client |
| Frontend.ErrorPrefixIsReport | frontend.py:91-93 | a payload starting with "Error" goes to the report buffer |

## Left out

- The language-model, search and report calls are oracle parameters. Prompts, model names, the Tavily client and API-key handling are not modelled.
- `json.dumps` and `json.loads` are uninterpreted function parameters. Plans are typed values, so the `KeyError` a malformed plan shape would raise is not modelled.
- TestScript.TestStreamResearch: its printed lines omit the `Raw LLM response` line of `generate_plan`, because the raw response text is not part of the planner's modelled outcome; the parsed-plan, API-error and parsing-error lines are modelled.
- `asyncio.sleep`, logging, the FastAPI app, `StreamingResponse` transport, and client construction are I/O and are not modelled.
- The `research_endpoint` handler of `main.py` is not modelled. It reads the undefined name `query`, so the `NameError` is caught and turned into an HTTP 500 error before any streaming starts.
- The `async for` over the report response in `deep-research-from-scratch/main.py` is modelled as plain iteration over the chunks.
- The client's SSE parsing is not modelled: the frontend model takes each `event.data` string as given. In the real exchange only the first line of a multi-line payload reaches it, because only that line starts with `data:` and the SSE client ignores the other lines as unknown fields. A plan rendered with `indent=2` therefore arrives as `Planning: {`, its parse fails and the malformed-data warning is shown; a search payload arrives cut after its first line.
- Streamlit widgets, session state and layout are not modelled. The view is a value holding the texts shown, the renders, warnings and errors.
- `deep-research/frontend.py` is not part of this model.
- Scratch.RetryFrom: the caller supplies the attempts, at least as many as the retry limit, instead of the model calling the planner.
