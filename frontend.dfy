/**
 * `frontend.py`: the Streamlit client of the streaming endpoint. It checks
 * the API keys and the topic, posts the request, and then dispatches every
 * server-sent event by its prefix into the plan view, the running search
 * results, an error that stops the stream, or the markdown report buffer.
 * The JSON parser and printer are parameters; the widgets are modelled by
 * what they are given to display.
 */
module Frontend {
  import opened Python
  import Research
  import Server

  // ---------- submitting the form ----------

  const KeysMissing := "Please provide both Gemini and Tavily API keys."
  const TopicMissing := "Please enter a research topic."

  /** The JSON body posted to the backend. */
  datatype Request = Request(query: string, provider: string, thinkingModel: string, taskModel: string, searchProvider: string)

  /** Pressing "Start Research": both saved keys are checked before the
      topic, and a request is built only when all three are non-empty. */
  function Submit(geminiKey: string, tavilyKey: string, topic: string): (r: Result<Request, string>)
    ensures r.Ok? <==> geminiKey != "" && tavilyKey != "" && topic != ""
    ensures (geminiKey == "" || tavilyKey == "") ==> r == Err(KeysMissing)
    ensures geminiKey != "" && tavilyKey != "" && topic == "" ==> r == Err(TopicMissing)
    ensures r.Ok? ==> r.value.query == topic
  {
    if geminiKey == "" || tavilyKey == "" then Err(KeysMissing)
    else if topic == "" then Err(TopicMissing)
    else Ok(Request(topic, "google", "gemini-1.5-flash", "gemini-1.5-flash", "tavily"))
  }

  // ---------- dispatching one event ----------

  /** Where an event's stripped data goes, decided by its prefix. */
  datatype EventKind = PlanEvent | SearchEvent | StopEvent | ReportEvent

  function Classify(data: string): EventKind
  {
    if StartsWith(data, "Planning:") then PlanEvent
    else if StartsWith(data, "Search Results for") then SearchEvent
    else if StartsWith(data, "Quota exceeded") || StartsWith(data, "API error") then StopEvent
    else ReportEvent
  }

  /** The text handed to `json.loads`: every occurrence of the marker is
      removed, then the rest is stripped. */
  function PlanPayload(data: string): string
  {
    Strip(RemoveAll(data, "Planning:"))
  }

  function Min(a: int, b: int): int
  {
    if a < b then a else b
  }

  /** The warning shown for a plan that does not parse: its first 50 characters. */
  function MalformedWarning(data: string): string
  {
    "Skipping malformed data: " + data[..Min(50, |data|)] + "..."
  }

  /** What the page holds while the stream is read: the dispatch loop's
      variables (`plan_text`, `results_text`, `report_buffer`,
      `report_text`), the plan shown by the JSON placeholder, every markdown
      render of the report in order, the warnings and errors shown, and
      whether the loop has stopped. */
  datatype View<J> = View(
    planText: string,
    planShown: Option<J>,
    resultsText: string,
    reportBuffer: seq<string>,
    reportText: string,
    renders: seq<string>,
    warnings: seq<string>,
    errors: seq<string>,
    stopped: bool)

  function Initial<J>(): View<J>
  {
    View("", None, "", [], "", [], [], [], false)
  }

  /** One iteration of the loop over `client.events()`: events with empty
      data are skipped, the others are stripped and dispatched. */
  function Step<J>(v: View<J>, d: string, parse: string -> Option<J>, dump: J -> string): View<J>
  {
    if d == "" then v else Dispatch(v, Strip(d), parse, dump)
  }

  /** The `if`/`elif` chain on stripped data; `parse` is `json.loads` (None
      for a JSONDecodeError), `dump` is `json.dumps(indent=2)`. */
  function Dispatch<J>(v: View<J>, data: string, parse: string -> Option<J>, dump: J -> string): View<J>
  {
    match Classify(data)
    case PlanEvent =>
      (match parse(PlanPayload(data))
       case None => v.(warnings := v.warnings + [MalformedWarning(data)])
       case Some(j) => v.(planText := dump(j), planShown := Some(j)))
    case SearchEvent => v.(resultsText := v.resultsText + data + "\n\n")
    case StopEvent => v.(errors := v.errors + [data], stopped := true)
    case ReportEvent => AddReport(v, data)
  }

  /** Buffer a markdown chunk and re-render when a section looks complete. */
  function AddReport<J>(v: View<J>, data: string): View<J>
  {
    var buffer := v.reportBuffer + [data];
    if EndsWith(data, "\n") || |buffer| > 5 then
      v.(reportBuffer := buffer, reportText := Join(buffer, "\n"), renders := v.renders + [Join(buffer, "\n")])
    else
      v.(reportBuffer := buffer)
  }

  /** The loop over a sequence of event data; once it has stopped, the
      remaining events are never read. */
  function Run<J>(events: seq<string>, parse: string -> Option<J>, dump: J -> string): View<J>
  {
    if |events| == 0 then Initial()
    else
      var v := Run(events[..|events| - 1], parse, dump);
      if v.stopped then v else Step(v, events[|events| - 1], parse, dump)
  }

  // ---------- the whole exchange ----------

  /** An exception raised by the request or while reading the stream. */
  datatype Failure = RequestFailure(msg: string) | UnexpectedFailure(msg: string)

  /** What the backend delivers: the data of its events, then possibly an
      exception when the stream is read past them. */
  datatype Feed = Feed(events: seq<string>, failure: Option<Failure>)

  function FailureMessage(f: Failure): string
  {
    match f
    case RequestFailure(m) => "Error connecting to backend: " + m
    case UnexpectedFailure(m) => "Unexpected error: " + m
  }

  /** After the loop: an exception it ran into is shown and nothing else
      happens; otherwise, including after a stop, a non-empty buffer is
      rendered one last time. */
  function Finish<J>(v: View<J>, failure: Option<Failure>): View<J>
  {
    if failure.Some? && !v.stopped then v.(errors := v.errors + [FailureMessage(failure.value)])
    else if |v.reportBuffer| > 0 then
      v.(reportText := Join(v.reportBuffer, "\n"), renders := v.renders + [Join(v.reportBuffer, "\n")])
    else v
  }

  function Session<J>(feed: Feed, parse: string -> Option<J>, dump: J -> string): View<J>
  {
    Finish(Run(feed.events, parse, dump), feed.failure)
  }

  /** The `try` block after the request was sent: the dispatch loop with
      its `break` and `continue`, then the final render. */
  method ConsumeEvents<J>(feed: Feed, parse: string -> Option<J>, dump: J -> string) returns (v: View<J>)
    ensures v == Session(feed, parse, dump)
  {
    var planText, planShown, resultsText := "", None, "";
    var reportBuffer, reportText := [], "";
    var renders, warnings, errors := [], [], [];
    var stopped := false;
    var i := 0;
    while i < |feed.events|
      invariant 0 <= i <= |feed.events|
      invariant !stopped
      invariant View(planText, planShown, resultsText, reportBuffer, reportText, renders, warnings, errors, stopped)
        == Run(feed.events[..i], parse, dump)
    {
      var d := feed.events[i];
      ghost var next := Step(Run(feed.events[..i], parse, dump), d, parse, dump);
      assert feed.events[..i + 1][..i] == feed.events[..i];
      assert Run(feed.events[..i + 1], parse, dump) == next;
      i := i + 1;
      if d != "" {
        var data := Strip(d);
        if StartsWith(data, "Planning:") {
          match parse(PlanPayload(data)) {
            case None =>
              warnings := warnings + [MalformedWarning(data)];
              continue;
            case Some(j) =>
              planText := dump(j);
              planShown := Some(j);
          }
        } else if StartsWith(data, "Search Results for") {
          resultsText := resultsText + data + "\n\n";
        } else if StartsWith(data, "Quota exceeded") || StartsWith(data, "API error") {
          errors := errors + [data];
          stopped := true;
          assert View(planText, planShown, resultsText, reportBuffer, reportText, renders, warnings, errors, stopped) == next;
          break;
        } else {
          reportBuffer := reportBuffer + [data];
          if EndsWith(data, "\n") || |reportBuffer| > 5 {
            reportText := Join(reportBuffer, "\n");
            renders := renders + [reportText];
          }
        }
      }
    }
    v := View(planText, planShown, resultsText, reportBuffer, reportText, renders, warnings, errors, stopped);
    assert v == Run(feed.events[..i], parse, dump);
    StoppedEarly(feed.events, i, parse, dump);
    if feed.failure.Some? && !stopped {
      v := v.(errors := errors + [FailureMessage(feed.failure.value)]);
    } else if |reportBuffer| > 0 {
      reportText := Join(reportBuffer, "\n");
      renders := renders + [reportText];
      v := v.(reportText := reportText, renders := renders);
    }
  }

  // ---------- properties of the dispatch ----------

  /** Once a stop event was handled, later events change nothing. */
  lemma {:induction false} StopIgnoresRest<J>(a: seq<string>, b: seq<string>, parse: string -> Option<J>, dump: J -> string)
    requires Run(a, parse, dump).stopped
    ensures Run(a + b, parse, dump) == Run(a, parse, dump)
    decreases |b|
  {
    if |b| > 0 {
      var b' := b[..|b| - 1];
      assert (a + b)[..|a + b| - 1] == a + b';
      StopIgnoresRest(a, b', parse, dump);
    } else {
      assert a + b == a;
    }
  }

  /** The view after a prefix that ran out or stopped is the view of all events. */
  lemma StoppedEarly<J>(events: seq<string>, i: int, parse: string -> Option<J>, dump: J -> string)
    requires 0 <= i <= |events|
    requires i == |events| || Run(events[..i], parse, dump).stopped
    ensures Run(events, parse, dump) == Run(events[..i], parse, dump)
  {
    if i < |events| {
      StopIgnoresRest(events[..i], events[i..], parse, dump);
      assert events[..i] + events[i..] == events;
    } else {
      assert events[..i] == events;
    }
  }

  /** A non-empty event whose stripped data has the given kind. */
  predicate IsKind(d: string, k: EventKind)
  {
    d != "" && Classify(Strip(d)) == k
  }

  /** Handling one event stops the loop exactly on a quota or API error. */
  lemma StepStops<J>(v: View<J>, d: string, parse: string -> Option<J>, dump: J -> string)
    ensures Step(v, d, parse, dump).stopped <==> v.stopped || IsKind(d, StopEvent)
  {
  }

  /** A quota or API error anywhere in the events stops the loop ... */
  lemma {:induction false} StopEventStops<J>(events: seq<string>, i: int, parse: string -> Option<J>, dump: J -> string)
    requires 0 <= i < |events| && IsKind(events[i], StopEvent)
    ensures Run(events, parse, dump).stopped
    decreases |events|
  {
    var init, last := events[..|events| - 1], events[|events| - 1];
    var v := Run(init, parse, dump);
    assert Run(events, parse, dump) == if v.stopped then v else Step(v, last, parse, dump);
    if i < |init| {
      assert init[i] == events[i];
      StopEventStops(init, i, parse, dump);
    } else {
      assert last == events[i];
      StepStops(v, last, parse, dump);
    }
  }

  /** ... and without one it never stops. */
  lemma {:induction false} NoStopEventNoStop<J>(events: seq<string>, parse: string -> Option<J>, dump: J -> string)
    requires forall i :: 0 <= i < |events| ==> !IsKind(events[i], StopEvent)
    ensures !Run(events, parse, dump).stopped
    decreases |events|
  {
    if |events| > 0 {
      var init := events[..|events| - 1];
      assert forall i :: 0 <= i < |init| ==> init[i] == events[i];
      NoStopEventNoStop(init, parse, dump);
      StepStops(Run(init, parse, dump), events[|events| - 1], parse, dump);
    }
  }

  /** `results_text` only grows: every later view extends an earlier one. */
  lemma {:induction false} ResultsTextGrows<J>(a: seq<string>, b: seq<string>, parse: string -> Option<J>, dump: J -> string)
    ensures StartsWith(Run(a + b, parse, dump).resultsText, Run(a, parse, dump).resultsText)
    decreases |b|
  {
    if |b| == 0 {
      assert a + b == a;
    } else {
      var b' := b[..|b| - 1];
      assert (a + b)[..|a + b| - 1] == a + b';
      ResultsTextGrows(a, b', parse, dump);
    }
  }

  /** The stripped data of the events of one kind, in arrival order. */
  function DataOfKind(events: seq<string>, k: EventKind): seq<string>
  {
    if |events| == 0 then []
    else
      var last := events[|events| - 1];
      DataOfKind(events[..|events| - 1], k) + (if IsKind(last, k) then [Strip(last)] else [])
  }

  /** The filter keeps exactly the stripped data of the events of that kind. */
  lemma {:induction false} DataOfKindMembers(events: seq<string>, k: EventKind, x: string)
    ensures x in DataOfKind(events, k) <==>
      exists i :: 0 <= i < |events| && IsKind(events[i], k) && x == Strip(events[i])
    decreases |events|
  {
    if |events| > 0 {
      var init := events[..|events| - 1];
      var last := events[|events| - 1];
      DataOfKindMembers(init, k, x);
      if x in DataOfKind(init, k) {
        var i :| 0 <= i < |init| && IsKind(init[i], k) && x == Strip(init[i]);
        assert events[i] == init[i];
      }
      if exists i :: 0 <= i < |events| && IsKind(events[i], k) && x == Strip(events[i]) {
        var i :| 0 <= i < |events| && IsKind(events[i], k) && x == Strip(events[i]);
        if i < |init| {
          assert init[i] == events[i];
        }
      }
    }
  }

  /** Each search-results event's data followed by a blank line. */
  function Paragraphs(xs: seq<string>): string
  {
    if |xs| == 0 then "" else Paragraphs(xs[..|xs| - 1]) + xs[|xs| - 1] + "\n\n"
  }

  /** Until a stop, `report_buffer` is every other non-empty event (search
      errors and report errors included) in arrival order, and
      `results_text` is every search-results event followed by a blank line. */
  lemma {:induction false} BuffersCollectByKind<J>(events: seq<string>, parse: string -> Option<J>, dump: J -> string)
    requires !Run(events, parse, dump).stopped
    ensures Run(events, parse, dump).reportBuffer == DataOfKind(events, ReportEvent)
    ensures Run(events, parse, dump).resultsText == Paragraphs(DataOfKind(events, SearchEvent))
    decreases |events|
  {
    if |events| > 0 {
      var init := events[..|events| - 1];
      BuffersCollectByKind(init, parse, dump);
      var xs := DataOfKind(init, SearchEvent);
      var last := events[|events| - 1];
      if IsKind(last, SearchEvent) {
        assert (xs + [Strip(last)])[..|xs|] == xs;
      } else {
        assert xs + [] == xs;
      }
    }
  }

  /** Stripped data never ends with a newline, so an event renders the
      report exactly when it is report data and the buffer grows past five;
      a render always shows the whole buffer joined by newlines. */
  lemma RendersOnlyPastFive<J>(v: View<J>, d: string, parse: string -> Option<J>, dump: J -> string)
    ensures var w := Step(v, d, parse, dump);
      && (w.renders != v.renders <==> IsKind(d, ReportEvent) && |v.reportBuffer| >= 5)
      && (w.renders != v.renders ==> w.renders == v.renders + [Join(w.reportBuffer, "\n")])
  {
    if d != "" {
      var data := Strip(d);
      StrippedNotNewlineTerminated(d);
      if Classify(data) == ReportEvent {
        var w := AddReport(v, data);
        assert |w.renders| == |v.renders| + (if |v.reportBuffer| >= 5 then 1 else 0);
      }
    }
  }

  /** A "Planning:" event whose payload does not parse only adds a warning. */
  lemma MalformedPlanSkipped<J>(v: View<J>, d: string, parse: string -> Option<J>, dump: J -> string)
    requires IsKind(d, PlanEvent) && parse(PlanPayload(Strip(d))) == None
    ensures var w := Step(v, d, parse, dump);
      && w.warnings == v.warnings + [MalformedWarning(Strip(d))]
      && w.(warnings := v.warnings) == v
      && |MalformedWarning(Strip(d))| <= 78
  {
  }

  /** An event of only whitespace is not skipped: it puts an empty line in the buffer. */
  lemma WhitespaceEventBuffered<J>(v: View<J>, d: string, parse: string -> Option<J>, dump: J -> string)
    requires d != "" && forall i :: 0 <= i < |d| ==> IsSpace(d[i])
    ensures Step(v, d, parse, dump).reportBuffer == v.reportBuffer + [""]
  {
    StripEnds(d);
  }

  /** The marker is removed everywhere: after the leading one, the payload
      is the rest with its own occurrences removed, unchanged only when the
      rest has none, and a copy anywhere in the rest shortens it. */
  lemma {:induction false} PlanPayloadRemovesEveryMarker(data: string, i: int)
    requires StartsWith(data, "Planning:")
    ensures RemoveAll(data, "Planning:") == RemoveAll(data[9..], "Planning:")
    ensures !Occurs(data[9..], "Planning:") ==> PlanPayload(data) == Strip(data[9..])
    ensures OccursAt(data[9..], "Planning:", i) ==> |RemoveAll(data, "Planning:")| <= |data| - 18
  {
    if !Occurs(data[9..], "Planning:") {
      RemoveAllAbsent(data[9..], "Planning:");
    }
    if OccursAt(data[9..], "Planning:", i) {
      RemoveAllPresent(data[9..], "Planning:", i);
    }
  }

  /** A parsed plan replaces the plan view and touches nothing else. */
  lemma PlanEventShowsPlan<J>(v: View<J>, d: string, parse: string -> Option<J>, dump: J -> string)
    requires IsKind(d, PlanEvent) && parse(PlanPayload(Strip(d))).Some?
    ensures var j := parse(PlanPayload(Strip(d))).value;
      Step(v, d, parse, dump) == v.(planText := dump(j), planShown := Some(j))
  {
  }

  /** The final report is the whole buffer joined by newlines, and it is
      the last thing rendered, unless an exception ended the stream first. */
  lemma FinalReport<J>(feed: Feed, parse: string -> Option<J>, dump: J -> string)
    requires feed.failure.None? || Run(feed.events, parse, dump).stopped
    requires |Run(feed.events, parse, dump).reportBuffer| > 0
    ensures var s := Session(feed, parse, dump);
      && s.reportText == Join(Run(feed.events, parse, dump).reportBuffer, "\n")
      && s.renders[|s.renders| - 1] == s.reportText
      && s.errors == Run(feed.events, parse, dump).errors
  {
  }

  /** An exception while reading, before any stop, is shown as the last
      error and leaves the report unrendered. */
  lemma FailureSkipsFinalRender<J>(feed: Feed, parse: string -> Option<J>, dump: J -> string)
    requires feed.failure.Some? && !Run(feed.events, parse, dump).stopped
    ensures var s := Session(feed, parse, dump);
      && s.errors == Run(feed.events, parse, dump).errors + [FailureMessage(feed.failure.value)]
      && s.renders == Run(feed.events, parse, dump).renders
  {
  }

  // ---------- the payloads of `main.py`'s stream ----------

  /** The plan frame is dispatched to the plan view. */
  lemma PlanningPayloadKind(p: Research.Plan, dumps: Research.Dumps)
    ensures IsKind(Research.PlanningLine(p, dumps), PlanEvent)
  {
    StripKeepsPrefix(Research.PlanningLine(p, dumps), "Planning:");
  }

  /** A successful search reaches the results text; a failed search is not
      recognised and lands in the report buffer. */
  lemma SearchPayloadKind(s: Research.Subtask, o: Research.SearchOutcome, dumps: Research.Dumps)
    ensures IsKind(Research.SearchLine(s, o, dumps), if o.Found? then SearchEvent else ReportEvent)
  {
    var line := Research.SearchLine(s, o, dumps);
    if o.Found? {
      assert line[..18] == ("Search Results for '" + s.searchQuery + "': ")[..18];
      SearchPrefixIsSearch(line);
    } else {
      assert line[..5] == ("Error searching '" + s.searchQuery + "': ")[..5];
      ErrorPrefixIsReport(line);
    }
  }

  lemma SearchPrefixIsSearch(line: string)
    requires StartsWith(line, "Search Results for")
    ensures IsKind(line, SearchEvent)
  {
    StripKeepsPrefix(line, "Search Results for");
    var t := Strip(line);
    assert t[0] == 'S';
  }

  /** A quota error from report generation stops the client; any other
      report error is shown as report text and the loop goes on. */
  lemma TerminalPayloadKind(e: Exn)
    ensures IsKind(Server.TerminalLine(e), if IsInstance(e.kind, ResourceExhaustedClass) then StopEvent else ReportEvent)
  {
    var line := Server.TerminalLine(e);
    if IsInstance(e.kind, ResourceExhaustedClass) {
      assert line[..14] == "Quota exceeded";
      QuotaPrefixStops(line);
    } else {
      assert line[..5] == "Error";
      ErrorPrefixIsReport(line);
    }
  }

  lemma QuotaPrefixStops(line: string)
    requires StartsWith(line, "Quota exceeded")
    ensures IsKind(line, StopEvent)
  {
    StripKeepsPrefix(line, "Quota exceeded");
    var t := Strip(line);
    assert t[0] == 'Q';
  }

  lemma ErrorPrefixIsReport(line: string)
    requires StartsWith(line, "Error")
    ensures IsKind(line, ReportEvent)
  {
    StripKeepsPrefix(line, "Error");
    var t := Strip(line);
    assert t[0] == 'E';
  }
}
