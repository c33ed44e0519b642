/**
 * `deep-research-from-scratch/main.py`, which holds two programs one after
 * the other. The first is a streaming pipeline: it falls back to a
 * single-subtask plan on a JSON or value error only, drops failed searches
 * from `search_results`, and has no error handling in the report stage.
 * The second is a printing test runner whose planning call is wrapped by a
 * tenacity retry on ResourceExhausted (three attempts, 20 units apart).
 */
module Scratch {
  import opened Python
  import opened Research

  // ---------- the streaming pipeline ----------

  /** The planning step of the streaming copy: a JSON or value error gives
      the single-subtask fallback; anything else escapes. */
  function PlanOrFallback(query: string, attempt: PlanAttempt): (r: Result<Plan, Exn>)
    ensures r.Err? <==> attempt.Raised? && !IsInstance(attempt.error.kind, ValueErrorClass)
    ensures r.Err? ==> r.error == attempt.error
    ensures attempt.Parsed? ==> r == Ok(attempt.plan)
  {
    match attempt
    case Parsed(plan) => Ok(plan)
    case Raised(e) =>
      if IsInstance(e.kind, ValueErrorClass) then Ok(SingleFallback(query)) else Err(e)
  }

  /** Every payload the streaming copy yields: nothing when planning raised;
      otherwise the plan, one line per subtask, then one per chunk. */
  function StreamPayloads(query: string, planner: PlanAttempt, searches: seq<SearchOutcome>, report: ReportStream, dumps: Dumps): seq<string>
    requires PlanOrFallback(query, planner).Ok? ==> |searches| == |PlanOrFallback(query, planner).value.subtasks|
  {
    match PlanOrFallback(query, planner)
    case Err(_) => []
    case Ok(plan) => [PlanningLine(plan, dumps)] + SearchLines(plan.subtasks, searches, dumps) + report.chunks
  }

  /** The exception that escapes the streaming copy, if any: the planning
      error it does not catch, else whatever ended the report stream. */
  function StreamRaised(query: string, planner: PlanAttempt, report: ReportStream): Option<Exn>
  {
    match PlanOrFallback(query, planner)
    case Err(e) => Some(e)
    case Ok(_) => report.failure
  }

  /** The report loop of the streaming copy: one frame per chunk, and no
      handler, so a failure escapes after the chunks already yielded. */
  method StreamReport(report: ReportStream) returns (frames: seq<string>, raised: Option<Exn>)
    ensures frames == Framed(report.chunks)
    ensures raised == report.failure
  {
    frames := [];
    for i := 0 to |report.chunks|
      invariant frames == Framed(report.chunks[..i])
    {
      assert report.chunks[..i + 1] == report.chunks[..i] + [report.chunks[i]];
      FramedAppend(report.chunks[..i], report.chunks[i]);
      frames := frames + [Frame(report.chunks[i])];
    }
    assert report.chunks[..|report.chunks|] == report.chunks;
    raised := report.failure;
  }

  /** The first `stream_research`: the frames it yields before it returns or
      raises, `search_results`, the summary (absent when planning raised)
      and the exception that escapes it. */
  method StreamResearch(query: string, planner: PlanAttempt, searches: seq<SearchOutcome>, report: ReportStream, dumps: Dumps)
    returns (frames: seq<string>, searchResults: seq<Entry>, summary: Option<string>, raised: Option<Exn>)
    requires PlanOrFallback(query, planner).Ok? ==> |searches| == |PlanOrFallback(query, planner).value.subtasks|
    ensures frames == Framed(StreamPayloads(query, planner, searches, report, dumps))
    ensures raised == StreamRaised(query, planner, report)
    ensures PlanOrFallback(query, planner).Err? ==> searchResults == [] && summary == None
    ensures PlanOrFallback(query, planner).Ok? ==>
      && searchResults == KeptEntries(PlanOrFallback(query, planner).value.subtasks, searches)
      && summary == Some(PlainSummary(searchResults))
  {
    var planned := PlanOrFallback(query, planner);
    if planned.Err? {
      frames, searchResults, summary, raised := [], [], None, Some(planned.error);
    } else {
      var plan := planned.value;
      var lines, reportFrames;
      lines, searchResults := SearchKeepingSuccesses(plan.subtasks, searches, dumps);
      summary := Some(PlainSummary(searchResults));
      reportFrames, raised := StreamReport(report);
      frames := [Frame(PlanningLine(plan, dumps))] + Framed(lines) + reportFrames;
      FramedThree(PlanningLine(plan, dumps), lines, report.chunks);
    }
  }

  /** A JSON or value error while planning still yields a Planning frame,
      for the single-subtask plan that searches the topic itself. */
  lemma ParseErrorFallback(query: string, e: Exn, searches: seq<SearchOutcome>, report: ReportStream, dumps: Dumps)
    requires IsInstance(e.kind, ValueErrorClass) && |searches| == 1
    ensures var ps := StreamPayloads(query, Raised(e), searches, report, dumps);
      && |ps| == 2 + |report.chunks|
      && ps[0] == "Planning: " + dumps.plan(Plan("Default plan for " + query, [Subtask("Default subtask", query)]))
      && ps[1] == SearchLine(Subtask("Default subtask", query), searches[0], dumps)
  {
  }

  /** Any other planning error (ResourceExhausted among them) escapes before
      anything is yielded. */
  lemma OtherPlanningErrorEscapes(query: string, e: Exn, searches: seq<SearchOutcome>, report: ReportStream, dumps: Dumps)
    requires !IsInstance(e.kind, ValueErrorClass)
    ensures StreamPayloads(query, Raised(e), searches, report, dumps) == []
    ensures StreamRaised(query, Raised(e), report) == Some(e)
  {
  }

  /** Once planned, the stream is the plan frame, exactly one frame per
      subtask in plan order and one per chunk; a report failure escapes
      after the chunk frames already yielded. */
  lemma StreamLayout(query: string, planner: PlanAttempt, searches: seq<SearchOutcome>, report: ReportStream, dumps: Dumps)
    requires PlanOrFallback(query, planner).Ok?
    requires |searches| == |PlanOrFallback(query, planner).value.subtasks|
    ensures var plan := PlanOrFallback(query, planner).value;
      var ps := StreamPayloads(query, planner, searches, report, dumps);
      var n, c := |plan.subtasks|, |report.chunks|;
      && |ps| == 1 + n + c
      && ps[0] == PlanningLine(plan, dumps)
      && (forall i :: 0 <= i < n ==> ps[1 + i] == SearchLine(plan.subtasks[i], searches[i], dumps))
      && (forall j :: 0 <= j < c ==> ps[1 + n + j] == report.chunks[j])
      && StreamRaised(query, planner, report) == report.failure
  {
    var plan := PlanOrFallback(query, planner).value;
    var ps := StreamPayloads(query, planner, searches, report, dumps);
    var n := |plan.subtasks|;
    SearchLinesAt(plan.subtasks, searches, dumps);
    assert ps[1..1 + n] == SearchLines(plan.subtasks, searches, dumps);
    assert ps[1 + n..] == report.chunks;
  }

  // ---------- the tenacity retry around planning ----------

  /** `@retry(stop=stop_after_attempt(maxAttempts), wait=wait_fixed(wait),
      retry=retry_if_exception_type(retryOn))`. */
  datatype RetryPolicy = RetryPolicy(maxAttempts: nat, wait: nat, retryOn: ExnClass)

  /** The policy on `generate_plan`. */
  const PlanRetry := RetryPolicy(3, 20, ResourceExhaustedClass)

  /** What retrying ends with, how many calls it made, and how long it slept. */
  datatype RetryRun = RetryRun(result: Result<Plan, Exn>, calls: nat, waited: nat)

  /** The retry run from attempt k (counted from 1) on, the attempts before
      it having all failed with a retryable error. A result or a
      non-retryable error ends it at once; a retryable error on the last
      allowed attempt gives up with RetryError, which here carries the last
      attempt's message. */
  function RetryFrom(p: RetryPolicy, attempts: seq<PlanAttempt>, k: nat): (r: RetryRun)
    requires 1 <= k <= |attempts| && p.maxAttempts <= |attempts|
    ensures k <= r.calls <= |attempts|
    decreases |attempts| - k
  {
    match attempts[k - 1]
    case Parsed(plan) => RetryRun(Ok(plan), k, (k - 1) * p.wait)
    case Raised(e) =>
      if !IsInstance(e.kind, p.retryOn) then RetryRun(Err(e), k, (k - 1) * p.wait)
      else if k >= p.maxAttempts then RetryRun(Err(Exn(RetryError, e.msg)), k, (k - 1) * p.wait)
      else RetryFrom(p, attempts, k + 1)
  }

  /** The most calls a policy allows (tenacity always makes the first). */
  function CallLimit(p: RetryPolicy): nat
  {
    if p.maxAttempts == 0 then 1 else p.maxAttempts
  }

  /** A retrying call: at most `CallLimit` calls, one fixed wait between
      consecutive calls, every call but the last failed with a retryable
      error, and the last call decides: its plan, its non-retryable error,
      or, for a retryable error, giving up at the limit with RetryError. */
  lemma {:induction false} RetryFromBounds(p: RetryPolicy, attempts: seq<PlanAttempt>, k: nat)
    requires 1 <= k <= |attempts| && p.maxAttempts <= |attempts|
    requires k <= CallLimit(p)
    ensures var r := RetryFrom(p, attempts, k);
      && k <= r.calls <= CallLimit(p)
      && r.waited == (r.calls - 1) * p.wait
      && (forall i :: k - 1 <= i < r.calls - 1 ==>
            attempts[i].Raised? && IsInstance(attempts[i].error.kind, p.retryOn))
      && match attempts[r.calls - 1]
         case Parsed(plan) => r.result == Ok(plan)
         case Raised(e) =>
           if IsInstance(e.kind, p.retryOn) then r.result == Err(Exn(RetryError, e.msg)) && r.calls == CallLimit(p)
           else r.result == Err(e)
    decreases |attempts| - k
  {
    match attempts[k - 1]
    case Parsed(_) =>
    case Raised(e) =>
      if IsInstance(e.kind, p.retryOn) && k < p.maxAttempts {
        RetryFromBounds(p, attempts, k + 1);
      }
  }

  /** The retrying call as tenacity runs it: call, then on a retryable error
      either give up (attempt limit reached) or sleep and call again. */
  method CallWithRetry(p: RetryPolicy, attempts: seq<PlanAttempt>) returns (run: RetryRun)
    requires 1 <= |attempts| && p.maxAttempts <= |attempts|
    ensures run == RetryFrom(p, attempts, 1)
  {
    var k := 1;
    var waited := 0;
    while true
      invariant 1 <= k <= |attempts|
      invariant k <= CallLimit(p)
      invariant RetryFrom(p, attempts, k) == RetryFrom(p, attempts, 1)
      invariant waited == (k - 1) * p.wait
      decreases |attempts| - k
    {
      match attempts[k - 1] {
        case Parsed(plan) =>
          return RetryRun(Ok(plan), k, waited);
        case Raised(e) =>
          if !IsInstance(e.kind, p.retryOn) {
            return RetryRun(Err(e), k, waited);
          }
          if k >= p.maxAttempts {
            return RetryRun(Err(Exn(RetryError, e.msg)), k, waited);
          }
          waited := waited + p.wait;
          k := k + 1;
      }
    }
  }

  /** ResourceExhausted twice, then a plan: three calls, 40 units of waiting. */
  lemma ExhaustedTwiceThenPlan(m1: string, m2: string, plan: Plan)
    ensures var attempts := [Raised(Exn(ResourceExhausted, m1)), Raised(Exn(ResourceExhausted, m2)), Parsed(plan)];
      RetryFrom(PlanRetry, attempts, 1) == RetryRun(Ok(plan), 3, 40)
  {
    var attempts := [Raised(Exn(ResourceExhausted, m1)), Raised(Exn(ResourceExhausted, m2)), Parsed(plan)];
    assert RetryFrom(PlanRetry, attempts, 3) == RetryRun(Ok(plan), 3, 40);
    assert RetryFrom(PlanRetry, attempts, 2) == RetryFrom(PlanRetry, attempts, 3);
  }

  /** ResourceExhausted three times: gives up with RetryError after three
      calls and 40 units of waiting. */
  lemma ExhaustedThrice(m1: string, m2: string, m3: string)
    ensures var attempts := [Raised(Exn(ResourceExhausted, m1)), Raised(Exn(ResourceExhausted, m2)), Raised(Exn(ResourceExhausted, m3))];
      RetryFrom(PlanRetry, attempts, 1) == RetryRun(Err(Exn(RetryError, m3)), 3, 40)
  {
    var attempts := [Raised(Exn(ResourceExhausted, m1)), Raised(Exn(ResourceExhausted, m2)), Raised(Exn(ResourceExhausted, m3))];
    assert RetryFrom(PlanRetry, attempts, 3) == RetryRun(Err(Exn(RetryError, m3)), 3, 40);
    assert RetryFrom(PlanRetry, attempts, 2) == RetryFrom(PlanRetry, attempts, 3);
  }

  /** A JSON error is not retried: one call, no waiting, the error itself. */
  lemma JsonErrorNotRetried(msg: string, later: seq<PlanAttempt>)
    requires |later| >= 2
    ensures RetryFrom(PlanRetry, [Raised(Exn(JsonDecodeError, msg))] + later, 1)
         == RetryRun(Err(Exn(JsonDecodeError, msg)), 1, 0)
  {
  }

  // ---------- the printing test runner ----------

  /** The plan `test_stream_research` settles on: the retried result, or the
      single-subtask fallback when a JSON or value error escaped the retry;
      any other error (a RetryError after giving up among them) escapes. */
  function TestPlan(query: string, attempts: seq<PlanAttempt>): (r: Result<Plan, Exn>)
    requires |attempts| >= PlanRetry.maxAttempts
  {
    match RetryFrom(PlanRetry, attempts, 1).result
    case Ok(plan) => Ok(plan)
    case Err(e) => if IsInstance(e.kind, ValueErrorClass) then Ok(SingleFallback(query)) else Err(e)
  }

  /** The line printed when the fallback is taken. */
  function ParseErrorLines(attempts: seq<PlanAttempt>): seq<string>
    requires |attempts| >= PlanRetry.maxAttempts
  {
    match RetryFrom(PlanRetry, attempts, 1).result
    case Err(e) => if IsInstance(e.kind, ValueErrorClass) then ["JSON parsing error: " + e.msg] else []
    case Ok(_) => []
  }

  /** `test_stream_research`: the lines it prints, `search_results`, the
      summary (absent when planning raised) and the exception that escapes. */
  method TestStreamResearch(query: string, attempts: seq<PlanAttempt>, searches: seq<SearchOutcome>, report: ReportStream, dumps: Dumps)
    returns (lines: seq<string>, searchResults: seq<Entry>, summary: Option<string>, raised: Option<Exn>)
    requires |attempts| >= PlanRetry.maxAttempts
    requires TestPlan(query, attempts).Ok? ==> |searches| == |TestPlan(query, attempts).value.subtasks|
    ensures TestPlan(query, attempts).Err? ==>
      && lines == [StartLine(query)]
      && raised == Some(TestPlan(query, attempts).error)
      && searchResults == [] && summary == None
    ensures TestPlan(query, attempts).Ok? ==>
      var plan := TestPlan(query, attempts).value;
      && lines == [StartLine(query)] + ParseErrorLines(attempts) + PrintedAfterPlan(plan, searches, report, dumps)
      && raised == PrintedReport(report).1
      && searchResults == KeptEntries(plan.subtasks, searches)
      && summary == Some(PlainSummary(searchResults))
  {
    lines := [StartLine(query)];
    var run := CallWithRetry(PlanRetry, attempts);
    var plan: Plan;
    match run.result {
      case Ok(p) =>
        plan := p;
      case Err(e) =>
        if !IsInstance(e.kind, ValueErrorClass) {
          searchResults, summary, raised := [], None, Some(e);
          return;
        }
        lines := lines + ["JSON parsing error: " + e.msg];
        plan := SingleFallback(query);
    }
    lines := lines + [PlanningLine(plan, dumps)];
    var searchLines;
    searchLines, searchResults := SearchKeepingSuccesses(plan.subtasks, searches, dumps);
    lines := lines + searchLines;
    summary := Some(PlainSummary(searchResults));
    var reportLines;
    reportLines, raised := PrintReport(report);
    lines := lines + reportLines;
  }

  /** Giving up on planning escapes the runner uncaught: only the start line
      is printed, nothing is searched. */
  lemma TestGiveUpEscapes(query: string, m1: string, m2: string, m3: string)
    ensures var attempts := [Raised(Exn(ResourceExhausted, m1)), Raised(Exn(ResourceExhausted, m2)), Raised(Exn(ResourceExhausted, m3))];
      TestPlan(query, attempts) == Err(Exn(RetryError, m3)) && ParseErrorLines(attempts) == []
  {
    ExhaustedThrice(m1, m2, m3);
  }

  /** The fallback is taken only when the call that ended the retrying
      raised a JSON or value error, every call before it having hit
      ResourceExhausted; the parse error is then printed before the plan. */
  lemma TestFallbackOnlyOnParseErrors(query: string, attempts: seq<PlanAttempt>)
    requires |attempts| >= PlanRetry.maxAttempts
    ensures var r := RetryFrom(PlanRetry, attempts, 1);
      |ParseErrorLines(attempts)| == 1 ==>
        && TestPlan(query, attempts) == Ok(SingleFallback(query))
        && attempts[r.calls - 1].Raised?
        && IsInstance(attempts[r.calls - 1].error.kind, ValueErrorClass)
        && (forall i :: 0 <= i < r.calls - 1 ==> attempts[i].Raised? && attempts[i].error.kind == ResourceExhausted)
  {
    RetryFromBounds(PlanRetry, attempts, 1);
  }
}
