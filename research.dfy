/**
 * What the three copies of the research pipeline share: the plan and search
 * records, the outcomes of the external calls (the planning model, the web
 * search, the streamed report), the text of a search progress line, and the
 * pieces that `deep-research-from-scratch/main.py` and `deep-research/test.py`
 * have word for word in common: the single-subtask fallback plan, the search
 * loop that keeps only successful searches, the header-always summary and the
 * printed report loop.
 */
module Research {
  import opened Python

  // ---------- records ----------

  /** One element of `plan["subtasks"]`. */
  datatype Subtask = Subtask(subtask: string, searchQuery: string)

  /** The parsed plan object: `{"plan": ..., "subtasks": [...]}`. */
  datatype Plan = Plan(plan: string, subtasks: seq<Subtask>)

  /** One element of a search response's `results` list; `url` may be absent. */
  datatype SearchResult = SearchResult(title: string, content: string, url: Option<string>)

  /** One element of `search_results`. */
  datatype Entry = Entry(searchQuery: string, subtask: string, results: seq<SearchResult>)

  // ---------- outcomes of the external calls ----------

  /** One call of the planning model followed by `json.loads`. */
  datatype PlanAttempt = Parsed(plan: Plan) | Raised(error: Exn)

  /** One `tavily.search` call: the `results` list, or `str(e)` of what it raised. */
  datatype SearchOutcome = Found(results: seq<SearchResult>) | SearchFailed(reason: string)

  /** The streamed report: the chunk texts in generation order, then
      possibly the exception that ended the stream. */
  datatype ReportStream = ReportStream(chunks: seq<string>, failure: Option<Exn>)

  /** `json.dumps(..., indent=2)`, left uninterpreted. */
  datatype Dumps = Dumps(plan: Plan -> string, results: seq<SearchResult> -> string)

  // ---------- plan ----------

  /** The fallback plan of the later copies: one subtask searching the topic itself. */
  function SingleFallback(query: string): Plan
  {
    Plan("Default plan for " + query, [Subtask("Default subtask", query)])
  }

  /** The progress line announcing the plan (before any framing or printing). */
  function PlanningLine(p: Plan, dumps: Dumps): string
  {
    "Planning: " + dumps.plan(p)
  }

  // ---------- server-sent-events framing ----------

  /** One server-sent-events frame. */
  function Frame(payload: string): string
  {
    "data: " + payload + "\n\n"
  }

  predicate IsFrame(f: string)
  {
    StartsWith(f, "data: ") && EndsWith(f, "\n\n") && |f| >= 8
  }

  /** The payload of a frame: what a client reads as the event's data. */
  function Unframe(f: string): string
    requires IsFrame(f)
  {
    f[6..|f| - 2]
  }

  /** Framing is undone by reading the payload back. */
  lemma FrameRoundTrip(payload: string)
    ensures IsFrame(Frame(payload)) && Unframe(Frame(payload)) == payload
  {
    var f := Frame(payload);
    assert f[..6] == "data: ";
    assert f[|f| - 2..] == "\n\n";
    assert f[6..|f| - 2] == payload;
  }

  function Framed(payloads: seq<string>): (r: seq<string>)
    ensures |r| == |payloads|
  {
    if |payloads| == 0 then [] else Framed(payloads[..|payloads| - 1]) + [Frame(payloads[|payloads| - 1])]
  }

  /** The i-th frame frames the i-th payload. */
  lemma {:induction false} FramedAt(payloads: seq<string>, i: int)
    requires 0 <= i < |payloads|
    ensures Framed(payloads)[i] == Frame(payloads[i])
    decreases |payloads|
  {
    if i < |payloads| - 1 {
      FramedAt(payloads[..|payloads| - 1], i);
    }
  }

  /** Framing one more payload appends its frame. */
  lemma FramedAppend(payloads: seq<string>, p: string)
    ensures Framed(payloads + [p]) == Framed(payloads) + [Frame(p)]
  {
    assert (payloads + [p])[..|payloads|] == payloads;
  }

  /** Framing a leading payload, a block and a tail frames each in turn. */
  lemma FramedThree(first: string, middle: seq<string>, last: seq<string>)
    ensures Framed([first] + middle + last) == [Frame(first)] + Framed(middle) + Framed(last)
  {
    FramedConcat([first], middle);
    FramedConcat([first] + middle, last);
    assert Framed([first]) == [Frame(first)] by {
      assert [first] == [] + [first];
      FramedAppend([], first);
    }
  }

  /** Framing distributes over concatenation. */
  lemma {:induction false} FramedConcat(a: seq<string>, b: seq<string>)
    ensures Framed(a + b) == Framed(a) + Framed(b)
    decreases |b|
  {
    if |b| == 0 {
      assert a + b == a;
    } else {
      var b' := b[..|b| - 1];
      assert a + b == (a + b') + [b[|b| - 1]];
      FramedAppend(a + b', b[|b| - 1]);
      FramedConcat(a, b');
      FramedAppend(b', b[|b| - 1]);
      assert b' + [b[|b| - 1]] == b;
    }
  }

  // ---------- search ----------

  /** The progress line for one subtask's search. Success and failure lines
      are told apart by their prefix, which is what a client classifies on. */
  function SearchLine(s: Subtask, o: SearchOutcome, dumps: Dumps): string
  {
    match o
    case Found(rs) => "Search Results for '" + s.searchQuery + "': " + dumps.results(rs)
    case SearchFailed(reason) => "Error searching '" + s.searchQuery + "': " + reason
  }

  /** A search line names its query and says by its prefix, and by nothing
      else, whether the search succeeded. */
  lemma SearchLineKind(s: Subtask, o: SearchOutcome, dumps: Dumps)
    ensures var r := SearchLine(s, o, dumps);
      && (StartsWith(r, "Search Results for '" + s.searchQuery + "': ") <==> o.Found?)
      && (StartsWith(r, "Error searching '" + s.searchQuery + "': ") <==> o.SearchFailed?)
  {
    var r := SearchLine(s, o, dumps);
    if o.Found? {
      assert r[0] != ("Error searching '" + s.searchQuery + "': ")[0];
    } else {
      assert r[0] != ("Search Results for '" + s.searchQuery + "': ")[0];
    }
  }

  /** The progress lines of the search loop: one per subtask, in plan order. */
  function SearchLines(sts: seq<Subtask>, os: seq<SearchOutcome>, dumps: Dumps): (r: seq<string>)
    requires |sts| == |os|
    ensures |r| == |sts|
  {
    if |sts| == 0 then []
    else SearchLines(sts[..|sts| - 1], os[..|os| - 1], dumps) + [SearchLine(sts[|sts| - 1], os[|os| - 1], dumps)]
  }

  /** The i-th progress line is about the i-th subtask and its outcome. */
  lemma {:induction false} SearchLinesAt(sts: seq<Subtask>, os: seq<SearchOutcome>, dumps: Dumps)
    requires |sts| == |os|
    ensures forall i :: 0 <= i < |sts| ==> SearchLines(sts, os, dumps)[i] == SearchLine(sts[i], os[i], dumps)
    decreases |sts|
  {
    if |sts| > 0 {
      SearchLinesAt(sts[..|sts| - 1], os[..|os| - 1], dumps);
    }
  }

  /** The `search_results` element recorded for a subtask. */
  function EntryFor(s: Subtask, results: seq<SearchResult>): Entry
  {
    Entry(s.searchQuery, s.subtask, results)
  }

  /** How many searches succeeded. */
  function NumFound(os: seq<SearchOutcome>): nat
  {
    if |os| == 0 then 0 else NumFound(os[..|os| - 1]) + (if os[|os| - 1].Found? then 1 else 0)
  }

  /** `search_results` when a failed search appends nothing. */
  function KeptEntries(sts: seq<Subtask>, os: seq<SearchOutcome>): (r: seq<Entry>)
    requires |sts| == |os|
    ensures |r| == NumFound(os)
  {
    if |sts| == 0 then []
    else
      var last := match os[|os| - 1]
        case Found(rs) => [EntryFor(sts[|sts| - 1], rs)]
        case SearchFailed(_) => [];
      KeptEntries(sts[..|sts| - 1], os[..|os| - 1]) + last
  }

  /** Keeping successes distributes over a split of the plan: the kept
      entries of the first part come first, in their own order. */
  lemma {:induction false} KeptEntriesAppend(s1: seq<Subtask>, o1: seq<SearchOutcome>, s2: seq<Subtask>, o2: seq<SearchOutcome>)
    requires |s1| == |o1| && |s2| == |o2|
    ensures KeptEntries(s1 + s2, o1 + o2) == KeptEntries(s1, o1) + KeptEntries(s2, o2)
    decreases |s2|
  {
    if |s2| == 0 {
      assert s1 + s2 == s1 && o1 + o2 == o1;
    } else {
      var n := |s2| - 1;
      assert (s1 + s2)[..|s1 + s2| - 1] == s1 + s2[..n];
      assert (o1 + o2)[..|o1 + o2| - 1] == o1 + o2[..n];
      KeptEntriesAppend(s1, o1, s2[..n], o2[..n]);
    }
  }

  /** When every search succeeds, entry i is subtask i with its results. */
  lemma {:induction false} KeptEntriesAllFound(sts: seq<Subtask>, os: seq<SearchOutcome>)
    requires |sts| == |os|
    requires forall i :: 0 <= i < |os| ==> os[i].Found?
    ensures |KeptEntries(sts, os)| == |sts|
    ensures forall i :: 0 <= i < |sts| ==> KeptEntries(sts, os)[i] == EntryFor(sts[i], os[i].results)
    decreases |sts|
  {
    if |sts| > 0 {
      KeptEntriesAllFound(sts[..|sts| - 1], os[..|os| - 1]);
    }
  }

  /** When every search fails, `search_results` stays empty. */
  lemma {:induction false} KeptEntriesAllFailed(sts: seq<Subtask>, os: seq<SearchOutcome>)
    requires |sts| == |os|
    requires forall i :: 0 <= i < |os| ==> os[i].SearchFailed?
    ensures KeptEntries(sts, os) == []
    decreases |sts|
  {
    if |sts| > 0 {
      KeptEntriesAllFailed(sts[..|sts| - 1], os[..|os| - 1]);
    }
  }

  /** The search loop of the later copies: one line per subtask, an entry
      only for a search that succeeded; a failure never stops the loop. */
  method SearchKeepingSuccesses(subtasks: seq<Subtask>, outcomes: seq<SearchOutcome>, dumps: Dumps)
    returns (lines: seq<string>, entries: seq<Entry>)
    requires |subtasks| == |outcomes|
    ensures lines == SearchLines(subtasks, outcomes, dumps)
    ensures entries == KeptEntries(subtasks, outcomes)
  {
    lines, entries := [], [];
    var i := 0;
    while i < |subtasks|
      invariant 0 <= i <= |subtasks|
      invariant lines == SearchLines(subtasks[..i], outcomes[..i], dumps)
      invariant entries == KeptEntries(subtasks[..i], outcomes[..i])
    {
      assert subtasks[..i + 1][..i] == subtasks[..i];
      assert outcomes[..i + 1][..i] == outcomes[..i];
      var subtask := subtasks[i];
      match outcomes[i] {
        case Found(rs) =>
          entries := entries + [EntryFor(subtask, rs)];
          lines := lines + [SearchLine(subtask, outcomes[i], dumps)];
        case SearchFailed(reason) =>
          lines := lines + [SearchLine(subtask, outcomes[i], dumps)];
      }
      i := i + 1;
    }
    assert subtasks[..i] == subtasks && outcomes[..i] == outcomes;
  }

  // ---------- summary of the later copies ----------

  /** The three header lines of a summary entry. */
  function Header(e: Entry): string
  {
    "Subtask: " + e.subtask + "\n" + "Search Query: " + e.searchQuery + "\n" + "Results:" + "\n"
  }

  /** `- title: content` */
  function PlainResultLine(r: SearchResult): string
  {
    "- " + r.title + ": " + r.content
  }

  function PlainResultLines(rs: seq<SearchResult>): seq<string>
  {
    seq(|rs|, i requires 0 <= i < |rs| => PlainResultLine(rs[i]))
  }

  /** A summary entry: always the header, then the result lines. */
  function PlainEntryText(e: Entry): string
  {
    Header(e) + Join(PlainResultLines(e.results), "\n")
  }

  function PlainEntryTexts(es: seq<Entry>): seq<string>
  {
    seq(|es|, i requires 0 <= i < |es| => PlainEntryText(es[i]))
  }

  /** `search_summary`: the entries joined with "\n". */
  function PlainSummary(es: seq<Entry>): string
  {
    Join(PlainEntryTexts(es), "\n")
  }

  /** Summaries of consecutive entry lists are joined by one newline. */
  lemma PlainSummaryAppend(a: seq<Entry>, b: seq<Entry>)
    requires |a| > 0 && |b| > 0
    ensures PlainSummary(a + b) == PlainSummary(a) + "\n" + PlainSummary(b)
  {
    assert PlainEntryTexts(a + b) == PlainEntryTexts(a) + PlainEntryTexts(b);
    JoinAppend(PlainEntryTexts(a), PlainEntryTexts(b), "\n");
  }

  // ---------- line counts of the summaries ----------

  predicate SingleLine(s: string)
  {
    Count(s, '\n') == 0
  }

  /** Every text field of the entry is free of newlines. */
  predicate SingleLineFields(e: Entry)
  {
    && SingleLine(e.subtask) && SingleLine(e.searchQuery)
    && forall r :: r in e.results ==>
         SingleLine(r.title) && SingleLine(r.content) && (r.url.Some? ==> SingleLine(r.url.value))
  }

  lemma HeaderLines(e: Entry)
    requires SingleLine(e.subtask) && SingleLine(e.searchQuery)
    ensures Count(Header(e), '\n') == 3
  {
    CountAbsent("Subtask: ", '\n');
    CountAbsent("Search Query: ", '\n');
    CountAbsent("Results:", '\n');
    var p1 := "Subtask: " + e.subtask;
    var p2 := p1 + "\n";
    var p3 := p2 + "Search Query: ";
    var p4 := p3 + e.searchQuery;
    var p5 := p4 + "\n";
    var p6 := p5 + "Results:";
    CountAppend("Subtask: ", e.subtask, '\n');
    CountAppend(p1, "\n", '\n');
    CountAppend(p2, "Search Query: ", '\n');
    CountAppend(p3, e.searchQuery, '\n');
    CountAppend(p4, "\n", '\n');
    CountAppend(p5, "Results:", '\n');
    CountAppend(p6, "\n", '\n');
  }

  /** A list of one-line texts has one line per text. */
  lemma {:induction false} LineTotalSingle(xs: seq<string>)
    requires forall i :: 0 <= i < |xs| ==> SingleLine(xs[i])
    ensures LineTotal(xs) == |xs|
    decreases |xs|
  {
    if |xs| > 0 {
      LineTotalSingle(xs[..|xs| - 1]);
    }
  }

  /** `"\n".join` of k one-line texts has k - 1 newlines (none when k is 0). */
  lemma JoinSingleLines(xs: seq<string>)
    requires forall i :: 0 <= i < |xs| ==> SingleLine(xs[i])
    ensures Count(Join(xs, "\n"), '\n') == if |xs| == 0 then 0 else |xs| - 1
  {
    if |xs| > 0 {
      JoinLines(xs);
      LineTotalSingle(xs);
    }
  }

  lemma PlainResultLineSingle(r: SearchResult)
    requires SingleLine(r.title) && SingleLine(r.content)
    ensures SingleLine(PlainResultLine(r))
  {
    CountAbsent("- ", '\n');
    CountAbsent(": ", '\n');
    CountAppend("- ", r.title, '\n');
    CountAppend("- " + r.title, ": ", '\n');
    CountAppend("- " + r.title + ": ", r.content, '\n');
  }

  /** Lines of one entry: the three header lines plus one per result, and
      an empty fourth line when there is no result. */
  function PlainEntryLines(e: Entry): nat
  {
    3 + (if |e.results| == 0 then 1 else |e.results|)
  }

  function SumLines(es: seq<Entry>, f: Entry -> nat): nat
  {
    if |es| == 0 then 0 else SumLines(es[..|es| - 1], f) + f(es[|es| - 1])
  }

  lemma PlainEntryLineCount(e: Entry)
    requires SingleLineFields(e)
    ensures LineCount(PlainEntryText(e)) == PlainEntryLines(e)
  {
    var lines := PlainResultLines(e.results);
    forall i | 0 <= i < |lines| ensures SingleLine(lines[i]) {
      assert e.results[i] in e.results;
      PlainResultLineSingle(e.results[i]);
    }
    HeaderLines(e);
    JoinSingleLines(lines);
    CountAppend(Header(e), Join(lines, "\n"), '\n');
  }

  /** The summary of the later copies has exactly the lines of its entries:
      every entry, even one whose search returned nothing, keeps its header. */
  lemma {:induction false} PlainSummaryLineCount(es: seq<Entry>)
    requires |es| > 0
    requires forall i :: 0 <= i < |es| ==> SingleLineFields(es[i])
    ensures LineCount(PlainSummary(es)) == SumLines(es, PlainEntryLines)
    decreases |es|
  {
    var texts := PlainEntryTexts(es);
    JoinLines(texts);
    LineTotalOfTexts(es);
  }

  lemma {:induction false} LineTotalOfTexts(es: seq<Entry>)
    requires forall i :: 0 <= i < |es| ==> SingleLineFields(es[i])
    ensures LineTotal(PlainEntryTexts(es)) == SumLines(es, PlainEntryLines)
    decreases |es|
  {
    if |es| > 0 {
      var init := es[..|es| - 1];
      assert PlainEntryTexts(es)[..|es| - 1] == PlainEntryTexts(init);
      LineTotalOfTexts(init);
      PlainEntryLineCount(es[|es| - 1]);
    }
  }

  // ---------- printed report of the later copies ----------

  /** What the printing copies print after a report stream ends with `e`:
      a quota message for ResourceExhausted, nothing (the exception escapes)
      otherwise. */
  function QuotaLine(e: Exn): string
  {
    "Quota exceeded during report generation: " + e.msg
  }

  /** The lines the report loop prints and what escapes it. */
  function PrintedReport(report: ReportStream): (seq<string>, Option<Exn>)
  {
    match report.failure
    case None => (report.chunks, None)
    case Some(e) =>
      if IsInstance(e.kind, ResourceExhaustedClass) then (report.chunks + [QuotaLine(e)], None)
      else (report.chunks, Some(e))
  }

  /** The printing report loop: each chunk printed as it arrives; a
      ResourceExhausted ends it with one quota line, any other failure
      escapes; printed chunks stay printed. */
  method PrintReport(report: ReportStream) returns (lines: seq<string>, raised: Option<Exn>)
    ensures (lines, raised) == PrintedReport(report)
    ensures lines[..|report.chunks|] == report.chunks
    ensures |lines| == |report.chunks| + (if report.failure.Some? && raised.None? then 1 else 0)
    ensures raised.Some? <==> report.failure.Some? && !IsInstance(report.failure.value.kind, ResourceExhaustedClass)
  {
    lines := [];
    for i := 0 to |report.chunks|
      invariant lines == report.chunks[..i]
    {
      lines := lines + [report.chunks[i]];
    }
    assert report.chunks[..|report.chunks|] == report.chunks;
    raised := None;
    match report.failure
    case None =>
    case Some(e) =>
      if IsInstance(e.kind, ResourceExhaustedClass) {
        lines := lines + [QuotaLine(e)];
      } else {
        raised := Some(e);
      }
  }

  // ---------- what the printing copies print ----------

  /** `print("Starting research for:", query)` */
  function StartLine(query: string): string
  {
    "Starting research for: " + query
  }

  /** What a printing copy prints once its plan is settled: the plan, one
      line per subtask in plan order, then the report lines. */
  function PrintedAfterPlan(plan: Plan, searches: seq<SearchOutcome>, report: ReportStream, dumps: Dumps): seq<string>
    requires |searches| == |plan.subtasks|
  {
    [PlanningLine(plan, dumps)] + SearchLines(plan.subtasks, searches, dumps) + PrintedReport(report).0
  }

  /** The printed layout after the plan: the plan line, exactly one line per
      subtask in plan order, every chunk in order, and the quota line last
      when a ResourceExhausted cut the report short. */
  lemma PrintedAfterPlanLayout(plan: Plan, searches: seq<SearchOutcome>, report: ReportStream, dumps: Dumps)
    requires |searches| == |plan.subtasks|
    ensures var ls := PrintedAfterPlan(plan, searches, report, dumps);
      var n, c := |plan.subtasks|, |report.chunks|;
      var quota := report.failure.Some? && report.failure.value.kind == ResourceExhausted;
      && |ls| == 1 + n + c + (if quota then 1 else 0)
      && ls[0] == PlanningLine(plan, dumps)
      && (forall i :: 0 <= i < n ==> ls[1 + i] == SearchLine(plan.subtasks[i], searches[i], dumps))
      && (forall j :: 0 <= j < c ==> ls[1 + n + j] == report.chunks[j])
      && (quota ==> ls[1 + n + c] == QuotaLine(report.failure.value))
  {
    var search := SearchLines(plan.subtasks, searches, dumps);
    SearchLinesAt(plan.subtasks, searches, dumps);
    var rest := PrintedReport(report).0;
    var ls := PrintedAfterPlan(plan, searches, report, dumps);
    var n, c := |plan.subtasks|, |report.chunks|;
    assert ls[1..1 + n] == search;
    assert ls[1 + n..] == rest;
    assert rest[..c] == report.chunks;
  }
}
