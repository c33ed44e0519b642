/**
 * The streaming research pipeline of `main.py`: plan (falling back to a
 * two-subtask plan on any exception), one search per subtask recording an
 * empty result list on failure, a summary that lists URLs, then the report
 * relayed chunk by chunk and closed by one terminal frame if it fails.
 * Every piece of output is a server-sent-events frame "data: <payload>\n\n".
 */
module Server {
  import opened Python
  import opened Research

  // ---------- planning ----------

  /** The fallback of `main.py`: two subtasks, the topic and "<topic> overview". */
  function PairFallback(query: string): Plan
  {
    Plan("Default plan for " + query,
         [Subtask("Default subtask 1", query), Subtask("Default subtask 2", query + " overview")])
  }

  /** `generate_plan`: the parsed plan, or the fallback whatever was raised. */
  function GeneratePlan(query: string, attempt: PlanAttempt): (p: Plan)
    ensures attempt.Parsed? ==> p == attempt.plan
    ensures attempt.Raised? ==>
      && p.plan == "Default plan for " + query
      && |p.subtasks| == 2
      && p.subtasks[0].searchQuery == query
      && p.subtasks[1].searchQuery == query + " overview"
  {
    match attempt
    case Parsed(plan) => plan
    case Raised(_) => PairFallback(query)
  }

  /** The fallback's searches are never both empty: the second one always
      has text, the first one exactly when the topic has. */
  lemma FallbackQueries(query: string, e: Exn)
    ensures var p := GeneratePlan(query, Raised(e));
      && p.subtasks[1].searchQuery != ""
      && (p.subtasks[0].searchQuery != "" <==> query != "")
  {
    var p := GeneratePlan(query, Raised(e));
    assert |p.subtasks[1].searchQuery| == |query| + 9;
  }

  // ---------- searching ----------

  /** The results recorded for one search: an empty list on failure. */
  function ResultsOf(o: SearchOutcome): (rs: seq<SearchResult>)
    ensures o.SearchFailed? ==> rs == []
  {
    match o
    case Found(rs) => rs
    case SearchFailed(_) => []
  }

  /** `search_results` of `main.py`: one entry per subtask, in plan order. */
  function AllEntries(sts: seq<Subtask>, os: seq<SearchOutcome>): (r: seq<Entry>)
    requires |sts| == |os|
    ensures |r| == |sts|
    ensures forall i :: 0 <= i < |r| ==> r[i] == EntryFor(sts[i], ResultsOf(os[i]))
  {
    if |sts| == 0 then []
    else AllEntries(sts[..|sts| - 1], os[..|os| - 1]) + [EntryFor(sts[|sts| - 1], ResultsOf(os[|os| - 1]))]
  }

  /** The search loop of `main.py`: one frame and one entry per subtask; a
      failed search is reported and recorded with no results, and the loop
      goes on. */
  method SearchRecordingAll(subtasks: seq<Subtask>, outcomes: seq<SearchOutcome>, dumps: Dumps)
    returns (frames: seq<string>, entries: seq<Entry>)
    requires |subtasks| == |outcomes|
    ensures frames == Framed(SearchLines(subtasks, outcomes, dumps))
    ensures entries == AllEntries(subtasks, outcomes)
  {
    frames, entries := [], [];
    ghost var lines: seq<string> := [];
    var i := 0;
    while i < |subtasks|
      invariant 0 <= i <= |subtasks|
      invariant lines == SearchLines(subtasks[..i], outcomes[..i], dumps)
      invariant frames == Framed(lines)
      invariant entries == AllEntries(subtasks[..i], outcomes[..i])
    {
      assert subtasks[..i + 1][..i] == subtasks[..i];
      assert outcomes[..i + 1][..i] == outcomes[..i];
      var subtask := subtasks[i];
      var line := SearchLine(subtask, outcomes[i], dumps);
      FramedAppend(lines, line);
      lines := lines + [line];
      match outcomes[i] {
        case Found(rs) =>
          entries := entries + [EntryFor(subtask, rs)];
          frames := frames + [Frame(line)];
        case SearchFailed(reason) =>
          frames := frames + [Frame(line)];
          entries := entries + [EntryFor(subtask, [])];
      }
      i := i + 1;
    }
    assert subtasks[..i] == subtasks && outcomes[..i] == outcomes;
  }

  // ---------- summary ----------

  /** `- title: content [URL: url]`, with "Not Available" for a missing URL. */
  function UrlResultLine(r: SearchResult): string
  {
    var url := match r.url
      case Some(u) => u
      case None => "Not Available";
    "- " + r.title + ": " + r.content + " [URL: " + url + "]"
  }

  function UrlResultLines(rs: seq<SearchResult>): seq<string>
  {
    seq(|rs|, i requires 0 <= i < |rs| => UrlResultLine(rs[i]))
  }

  /** A summary entry of `main.py`. The conditional expression binds looser
      than `+`, so an entry without results is only "No results found.":
      its header is lost along with the results. */
  function UrlEntryText(e: Entry): string
  {
    if |e.results| > 0 then Header(e) + Join(UrlResultLines(e.results), "\n")
    else "No results found."
  }

  function UrlEntryTexts(es: seq<Entry>): seq<string>
  {
    seq(|es|, i requires 0 <= i < |es| => UrlEntryText(es[i]))
  }

  /** `summary`: the entries joined with "\n". */
  function UrlSummary(es: seq<Entry>): string
  {
    Join(UrlEntryTexts(es), "\n")
  }

  lemma UrlSummaryAppend(a: seq<Entry>, b: seq<Entry>)
    requires |a| > 0 && |b| > 0
    ensures UrlSummary(a + b) == UrlSummary(a) + "\n" + UrlSummary(b)
  {
    assert UrlEntryTexts(a + b) == UrlEntryTexts(a) + UrlEntryTexts(b);
    JoinAppend(UrlEntryTexts(a), UrlEntryTexts(b), "\n");
  }

  /** When every search fails, the summary names no subtask and no query:
      it is "No results found." once per subtask. */
  lemma AllFailedSummary(sts: seq<Subtask>, os: seq<SearchOutcome>)
    requires |sts| == |os|
    requires forall i :: 0 <= i < |os| ==> os[i].SearchFailed?
    ensures UrlSummary(AllEntries(sts, os)) == Join(seq(|sts|, _ => "No results found."), "\n")
  {
    var es := AllEntries(sts, os);
    assert UrlEntryTexts(es) == seq(|sts|, _ => "No results found.");
  }

  lemma UrlResultLineSingle(r: SearchResult)
    requires SingleLine(r.title) && SingleLine(r.content) && (r.url.Some? ==> SingleLine(r.url.value))
    ensures SingleLine(UrlResultLine(r))
  {
    var url := match r.url
      case Some(u) => u
      case None => "Not Available";
    CountAbsent("- ", '\n');
    CountAbsent(": ", '\n');
    CountAbsent(" [URL: ", '\n');
    CountAbsent("]", '\n');
    CountAbsent("Not Available", '\n');
    CountAppend("- ", r.title, '\n');
    CountAppend("- " + r.title, ": ", '\n');
    CountAppend("- " + r.title + ": ", r.content, '\n');
    CountAppend("- " + r.title + ": " + r.content, " [URL: ", '\n');
    CountAppend("- " + r.title + ": " + r.content + " [URL: ", url, '\n');
    CountAppend("- " + r.title + ": " + r.content + " [URL: " + url, "]", '\n');
  }

  /** Lines of one `main.py` summary entry: one line for no results, else
      three header lines and one line per result. */
  function UrlEntryLines(e: Entry): nat
  {
    if |e.results| == 0 then 1 else 3 + |e.results|
  }

  lemma UrlEntryLineCount(e: Entry)
    requires SingleLineFields(e)
    ensures LineCount(UrlEntryText(e)) == UrlEntryLines(e)
  {
    if |e.results| == 0 {
      CountAbsent("No results found.", '\n');
    } else {
      var lines := UrlResultLines(e.results);
      forall i | 0 <= i < |lines| ensures SingleLine(lines[i]) {
        assert e.results[i] in e.results;
        UrlResultLineSingle(e.results[i]);
      }
      HeaderLines(e);
      JoinSingleLines(lines);
      CountAppend(Header(e), Join(lines, "\n"), '\n');
    }
  }

  lemma {:induction false} UrlLineTotal(es: seq<Entry>)
    requires forall i :: 0 <= i < |es| ==> SingleLineFields(es[i])
    ensures LineTotal(UrlEntryTexts(es)) == SumLines(es, UrlEntryLines)
    decreases |es|
  {
    if |es| > 0 {
      var init := es[..|es| - 1];
      assert UrlEntryTexts(es)[..|es| - 1] == UrlEntryTexts(init);
      UrlLineTotal(init);
      UrlEntryLineCount(es[|es| - 1]);
    }
  }

  /** The summary of `main.py` has exactly the lines of its entries: a
      failed search contributes the single line "No results found.". */
  lemma UrlSummaryLineCount(es: seq<Entry>)
    requires |es| > 0
    requires forall i :: 0 <= i < |es| ==> SingleLineFields(es[i])
    ensures LineCount(UrlSummary(es)) == SumLines(es, UrlEntryLines)
  {
    JoinLines(UrlEntryTexts(es));
    UrlLineTotal(es);
  }

  // ---------- report ----------

  /** The frame payload closing a failed report stream. */
  const QuotaPrefix := "Quota exceeded: "
  const ReportErrorPrefix := "Error generating report: "

  function TerminalLine(e: Exn): string
  {
    if IsInstance(e.kind, ResourceExhaustedClass) then QuotaPrefix + e.msg
    else ReportErrorPrefix + e.msg
  }

  /** The report payloads: each chunk as it came, then at most one terminal line. */
  function ReportLines(report: ReportStream): seq<string>
  {
    report.chunks + match report.failure
      case None => []
      case Some(e) => [TerminalLine(e)]
  }

  /** The report relay of `main.py`: one frame per chunk in generation order;
      whatever ends the stream early is caught and reported in one last frame. */
  method RelayReport(report: ReportStream) returns (frames: seq<string>)
    ensures frames == Framed(ReportLines(report))
  {
    frames := [];
    for i := 0 to |report.chunks|
      invariant frames == Framed(report.chunks[..i])
    {
      assert report.chunks[..i + 1] == report.chunks[..i] + [report.chunks[i]];
      FramedAppend(report.chunks[..i], report.chunks[i]);
      frames := frames + [Frame(report.chunks[i])];
    }
    assert report.chunks[..|report.chunks|] == report.chunks;
    match report.failure {
      case None =>
        assert ReportLines(report) == report.chunks;
      case Some(e) =>
        FramedAppend(report.chunks, TerminalLine(e));
        frames := frames + [Frame(TerminalLine(e))];
    }
  }

  // ---------- the whole stream ----------

  /** Every payload `stream_research` emits, in order. */
  function Payloads(query: string, planner: PlanAttempt, searches: seq<SearchOutcome>, report: ReportStream, dumps: Dumps): seq<string>
    requires |searches| == |GeneratePlan(query, planner).subtasks|
  {
    var plan := GeneratePlan(query, planner);
    [PlanningLine(plan, dumps)] + SearchLines(plan.subtasks, searches, dumps) + ReportLines(report)
  }

  /** `stream_research`: the frames it yields, the `search_results` it
      accumulates and the summary it puts into the report prompt. */
  method StreamResearch(query: string, planner: PlanAttempt, searches: seq<SearchOutcome>, report: ReportStream, dumps: Dumps)
    returns (frames: seq<string>, searchResults: seq<Entry>, summary: string)
    requires |searches| == |GeneratePlan(query, planner).subtasks|
    ensures frames == Framed(Payloads(query, planner, searches, report, dumps))
    ensures searchResults == AllEntries(GeneratePlan(query, planner).subtasks, searches)
    ensures summary == UrlSummary(searchResults)
  {
    var plan := GeneratePlan(query, planner);
    frames := [Frame(PlanningLine(plan, dumps))];
    var searchFrames;
    searchFrames, searchResults := SearchRecordingAll(plan.subtasks, searches, dumps);
    frames := frames + searchFrames;
    summary := UrlSummary(searchResults);
    var reportFrames := RelayReport(report);
    frames := frames + reportFrames;
    FramedThree(PlanningLine(plan, dumps), SearchLines(plan.subtasks, searches, dumps), ReportLines(report));
  }

  /** The payloads in order: plan, one per subtask, one per chunk, terminal. */
  lemma PayloadLayout(query: string, planner: PlanAttempt, searches: seq<SearchOutcome>, report: ReportStream, dumps: Dumps)
    requires |searches| == |GeneratePlan(query, planner).subtasks|
    ensures var plan := GeneratePlan(query, planner);
      var ps := Payloads(query, planner, searches, report, dumps);
      var n, c := |plan.subtasks|, |report.chunks|;
      && |ps| == 1 + n + c + (if report.failure.Some? then 1 else 0)
      && ps[0] == PlanningLine(plan, dumps)
      && (forall i :: 0 <= i < n ==> ps[1 + i] == SearchLine(plan.subtasks[i], searches[i], dumps))
      && (forall j :: 0 <= j < c ==> ps[1 + n + j] == report.chunks[j])
      && (report.failure.Some? ==> ps[1 + n + c] == TerminalLine(report.failure.value))
  {
    var plan := GeneratePlan(query, planner);
    var search := SearchLines(plan.subtasks, searches, dumps);
    SearchLinesAt(plan.subtasks, searches, dumps);
    var rest := ReportLines(report);
    var ps := Payloads(query, planner, searches, report, dumps);
    var n, c := |plan.subtasks|, |report.chunks|;
    assert ps == [PlanningLine(plan, dumps)] + search + rest;
    assert ps[1..1 + n] == search;
    assert ps[1 + n..] == rest;
    assert rest[..c] == report.chunks;
  }

  /** The layout of the stream: the plan frame first, then exactly one frame
      per subtask in plan order, then one frame per chunk in generation order,
      and at most one terminal frame, which is last. */
  lemma StreamLayout(query: string, planner: PlanAttempt, searches: seq<SearchOutcome>, report: ReportStream, dumps: Dumps)
    requires |searches| == |GeneratePlan(query, planner).subtasks|
    ensures var plan := GeneratePlan(query, planner);
      var fs := Framed(Payloads(query, planner, searches, report, dumps));
      var n, c := |plan.subtasks|, |report.chunks|;
      && |fs| == 1 + n + c + (if report.failure.Some? then 1 else 0)
      && fs[0] == Frame("Planning: " + dumps.plan(plan))
      && (forall i :: 0 <= i < n ==> fs[1 + i] == Frame(SearchLine(plan.subtasks[i], searches[i], dumps)))
      && (forall j :: 0 <= j < c ==> fs[1 + n + j] == "data: " + report.chunks[j] + "\n\n")
      && (report.failure.Some? ==> fs[1 + n + c] == Frame(TerminalLine(report.failure.value)))
  {
    PayloadLayout(query, planner, searches, report, dumps);
    var ps := Payloads(query, planner, searches, report, dumps);
    forall k | 0 <= k < |ps| ensures Framed(ps)[k] == Frame(ps[k]) {
      FramedAt(ps, k);
    }
  }

  /** Every frame of the stream is a well-formed event: "data: " ... "\n\n". */
  lemma StreamFramesWellFormed(query: string, planner: PlanAttempt, searches: seq<SearchOutcome>, report: ReportStream, dumps: Dumps)
    requires |searches| == |GeneratePlan(query, planner).subtasks|
    ensures var fs := Framed(Payloads(query, planner, searches, report, dumps));
      forall i :: 0 <= i < |fs| ==> IsFrame(fs[i])
  {
    var ps := Payloads(query, planner, searches, report, dumps);
    forall i | 0 <= i < |ps| ensures IsFrame(Framed(ps)[i]) {
      FramedAt(ps, i);
      FrameRoundTrip(ps[i]);
    }
  }

  /** A report-stage ResourceExhausted ends the stream with one quota frame;
      any other failure with one "Error generating report" frame. */
  lemma TerminalFrameKind(e: Exn)
    ensures StartsWith(Frame(TerminalLine(e)), "data: " + QuotaPrefix) <==> e.kind == ResourceExhausted
    ensures StartsWith(Frame(TerminalLine(e)), "data: " + ReportErrorPrefix) <==> e.kind != ResourceExhausted
  {
    if e.kind == ResourceExhausted {
      FramePrefixes(e.msg, QuotaPrefix, ReportErrorPrefix);
    } else {
      FramePrefixes(e.msg, ReportErrorPrefix, QuotaPrefix);
    }
  }

  /** A frame of `p + m` carries the prefix `p` and not a prefix `q` that
      differs from `p` in its first character. */
  lemma FramePrefixes(m: string, p: string, q: string)
    requires |p| > 0 && |q| > 0 && p[0] != q[0]
    ensures StartsWith(Frame(p + m), "data: " + p)
    ensures !StartsWith(Frame(p + m), "data: " + q)
  {
    var f := Frame(p + m);
    assert f == ("data: " + p) + (m + "\n\n");
    assert f[6] == p[0];
    assert ("data: " + q)[6] == q[0];
  }
}
