/**
 * `deep-research/test.py`: a printing run of the pipeline. Planning
 * re-raises Google API errors and falls back to the single-subtask plan on
 * a JSON or value error; failed searches are printed and dropped; a
 * ResourceExhausted during the report is printed once, anything else escapes.
 */
module TestScript {
  import opened Python
  import opened Research
  import Scratch

  /** `generate_plan`: an API error is re-raised as it is, a JSON or value
      error gives the fallback plan, anything else is not caught. */
  function GeneratePlan(query: string, attempt: PlanAttempt): (r: Result<Plan, Exn>)
    ensures attempt.Parsed? ==> r == Ok(attempt.plan)
    ensures attempt.Raised? && IsInstance(attempt.error.kind, GoogleApiErrorClass) ==> r == Err(attempt.error)
  {
    match attempt
    case Parsed(plan) => Ok(plan)
    case Raised(e) =>
      if IsInstance(e.kind, GoogleApiErrorClass) then Err(e)
      else if IsInstance(e.kind, ValueErrorClass) then Ok(SingleFallback(query))
      else Err(e)
  }

  /** The fallback is used exactly for JSON and value errors, and then its
      one subtask searches the topic itself. */
  lemma FallbackExactlyOnParseErrors(query: string, e: Exn)
    ensures GeneratePlan(query, Raised(e)).Ok? <==> IsInstance(e.kind, ValueErrorClass)
    ensures GeneratePlan(query, Raised(e)).Ok? ==>
      var p := GeneratePlan(query, Raised(e)).value;
      |p.subtasks| == 1 && p.subtasks[0].searchQuery == query && p.plan == "Default plan for " + query
  {
  }

  /** The diagnostic lines `generate_plan` prints after the call: the parsed
      plan, the API error, or the parsing error; nothing for an exception it
      does not catch. */
  function PlanningNotes(attempt: PlanAttempt, dumps: Dumps): seq<string>
  {
    match attempt
    case Parsed(plan) => ["Parsed plan: " + dumps.plan(plan)]
    case Raised(e) =>
      if IsInstance(e.kind, GoogleApiErrorClass) then ["API error: " + e.msg]
      else if IsInstance(e.kind, ValueErrorClass) then ["JSON parsing error: " + e.msg]
      else []
  }

  /** One note is printed exactly when the handler saw the outcome; a
      re-raised API error is announced before it escapes, and the fallback
      plan is preceded by its parsing error. */
  lemma PlanningNotesMatchOutcome(query: string, attempt: PlanAttempt, dumps: Dumps)
    ensures |PlanningNotes(attempt, dumps)| ==
      (if attempt.Raised? && !IsInstance(attempt.error.kind, GoogleApiErrorClass)
          && !IsInstance(attempt.error.kind, ValueErrorClass) then 0 else 1)
    ensures GeneratePlan(query, attempt).Err? && PlanningNotes(attempt, dumps) != [] ==>
      PlanningNotes(attempt, dumps) == ["API error: " + GeneratePlan(query, attempt).error.msg]
    ensures attempt.Raised? && GeneratePlan(query, attempt).Ok? ==>
      PlanningNotes(attempt, dumps) == ["JSON parsing error: " + attempt.error.msg]
  {
  }

  /** Re-raising API errors explicitly changes nothing: planning behaves
      exactly as the streaming copy's narrower handler. */
  lemma SameAsStreamingPlanning(query: string, attempt: PlanAttempt)
    ensures GeneratePlan(query, attempt) == Scratch.PlanOrFallback(query, attempt)
  {
  }

  /** `test_stream_research`: the lines it prints (the planning notes
      included), `search_results`, the
      summary (absent when planning raised) and the exception that escapes. */
  method TestStreamResearch(query: string, planner: PlanAttempt, searches: seq<SearchOutcome>, report: ReportStream, dumps: Dumps)
    returns (lines: seq<string>, searchResults: seq<Entry>, summary: Option<string>, raised: Option<Exn>)
    requires GeneratePlan(query, planner).Ok? ==> |searches| == |GeneratePlan(query, planner).value.subtasks|
    ensures GeneratePlan(query, planner).Err? ==>
      && lines == [StartLine(query)] + PlanningNotes(planner, dumps)
      && raised == Some(GeneratePlan(query, planner).error)
      && searchResults == [] && summary == None
    ensures GeneratePlan(query, planner).Ok? ==>
      var plan := GeneratePlan(query, planner).value;
      && lines == [StartLine(query)] + PlanningNotes(planner, dumps) + PrintedAfterPlan(plan, searches, report, dumps)
      && raised == PrintedReport(report).1
      && searchResults == KeptEntries(plan.subtasks, searches)
      && summary == Some(PlainSummary(searchResults))
  {
    var planned := GeneratePlan(query, planner);
    var notes := PlanningNotes(planner, dumps);
    if planned.Err? {
      lines, searchResults, summary, raised := [StartLine(query)] + notes, [], None, Some(planned.error);
    } else {
      var plan := planned.value;
      var searchLines, reportLines;
      searchLines, searchResults := SearchKeepingSuccesses(plan.subtasks, searches, dumps);
      summary := Some(PlainSummary(searchResults));
      reportLines, raised := PrintReport(report);
      lines := [StartLine(query)] + notes + ([PlanningLine(plan, dumps)] + searchLines + reportLines);
    }
  }

  /** With every search failing, nothing reaches the summary. */
  lemma AllSearchesFailed(query: string, planner: PlanAttempt, searches: seq<SearchOutcome>)
    requires GeneratePlan(query, planner).Ok?
    requires |searches| == |GeneratePlan(query, planner).value.subtasks|
    requires forall i :: 0 <= i < |searches| ==> searches[i].SearchFailed?
    ensures KeptEntries(GeneratePlan(query, planner).value.subtasks, searches) == []
    ensures PlainSummary(KeptEntries(GeneratePlan(query, planner).value.subtasks, searches)) == ""
  {
    KeptEntriesAllFailed(GeneratePlan(query, planner).value.subtasks, searches);
  }
}
