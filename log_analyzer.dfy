/**
 * `MCPLogAnalyzer` of core/mcp_log_analyzer.py: the aggregations it computes
 * over the log events of one log file — per-session summaries, per-tool
 * performance figures and the error analysis.
 *
 * Events are given already decoded: a line `json.loads` rejects is given as
 * `None`. Timestamps are integers (the instants `datetime.fromisoformat`
 * yields, compared as it compares them) and durations integer milliseconds.
 */
module LogAnalysis {
  import opened Text
  import opened Counters

  const TOOL_CALL_START := "tool_call_start"
  const TOOL_CALL_SUCCESS := "tool_call_success"
  const TOOL_CALL_FAILED := "tool_call_failed"

  /** The `data` object of an event; a missing key is `None`. */
  datatype EventData = EventData(
    toolName: Option<string>,
    durationMs: Option<int>,
    error: Option<string>,
    errorType: Option<string>)

  /** One log line; a missing `session_id` or `event_type` is `None`. */
  datatype LogEvent = LogEvent(
    sessionId: Option<string>,
    eventType: Option<string>,
    timestamp: int,
    data: EventData)

  /** `log.get('event_type', '')`; the error analysis's `log.get('event_type')`
      compares the same way. */
  function EventType(e: LogEvent): string {
    e.eventType.GetOr("")
  }

  /** `log['data'].get('duration_ms', 0)` */
  function DurationMs(e: LogEvent): int {
    e.data.durationMs.GetOr(0)
  }

  predicate IsStart(e: LogEvent) {
    EventType(e) == TOOL_CALL_START
  }

  predicate IsSuccess(e: LogEvent) {
    EventType(e) == TOOL_CALL_SUCCESS
  }

  predicate IsFailure(e: LogEvent) {
    EventType(e) == TOOL_CALL_FAILED
  }

  /** The events the performance statistics count: finished calls. */
  predicate IsToolCall(e: LogEvent) {
    IsSuccess(e) || IsFailure(e)
  }

  /** `log['data'].get('tool_name', 'unknown')` */
  function CallTool(e: LogEvent): string {
    e.data.toolName.GetOr("unknown")
  }

  /** How many of `events` satisfy `p`. */
  function CountOf(events: seq<LogEvent>, p: LogEvent -> bool): nat {
    if events == [] then 0
    else CountOf(events[..|events| - 1], p) + (if p(events[|events| - 1]) then 1 else 0)
  }

  /** `sum(...)` */
  function Sum(ds: seq<int>): int {
    if ds == [] then 0 else Sum(ds[..|ds| - 1]) + ds[|ds| - 1]
  }

  /** A sum lies between its length times any lower and any upper bound. */
  lemma {:induction false} SumBounds(ds: seq<int>, lo: int, hi: int)
    requires forall k :: 0 <= k < |ds| ==> lo <= ds[k] <= hi
    ensures |ds| * lo <= Sum(ds) <= |ds| * hi
  {
    if ds != [] {
      var n := |ds| - 1;
      SumBounds(ds[..n], lo, hi);
      assert |ds| * lo == n * lo + lo && |ds| * hi == n * hi + hi;
    }
  }

  // ---------------------------------------------------------------------
  // Sorting, for the median

  predicate Ascending(s: seq<int>) {
    forall i, j :: 0 <= i < j < |s| ==> s[i] <= s[j]
  }

  function InsertInt(x: int, s: seq<int>): (r: seq<int>)
    ensures |r| == |s| + 1
    ensures multiset(r) == multiset(s) + multiset{x}
  {
    if s == [] || x <= s[0] then [x] + s
    else
      assert s == [s[0]] + s[1..];
      [s[0]] + InsertInt(x, s[1..])
  }

  /** `sorted(ds)` */
  function SortInts(s: seq<int>): (r: seq<int>)
    ensures |r| == |s|
    ensures multiset(r) == multiset(s)
  {
    if s == [] then []
    else
      assert s == [s[0]] + s[1..];
      InsertInt(s[0], SortInts(s[1..]))
  }

  lemma {:induction false} InsertIntAscending(x: int, s: seq<int>)
    requires Ascending(s)
    ensures Ascending(InsertInt(x, s))
    ensures InsertInt(x, s)[0] == x || InsertInt(x, s)[0] == s[0]
  {
    if s != [] && x > s[0] {
      var tail := InsertInt(x, s[1..]);
      InsertIntAscending(x, s[1..]);
      assert s[0] <= tail[0];
      assert InsertInt(x, s) == [s[0]] + tail;
    }
  }

  /** `sorted` returns its input in ascending order. */
  lemma {:induction false} SortIntsAscending(s: seq<int>)
    ensures Ascending(SortInts(s))
  {
    if s != [] {
      SortIntsAscending(s[1..]);
      InsertIntAscending(s[0], SortInts(s[1..]));
    }
  }

  // ---------------------------------------------------------------------
  // Tool performance statistics

  /** The per-tool record `get_tool_performance_stats` fills while it scans
      the log; `None` stands for the initial `float('inf')` minimum. */
  datatype ToolTally = ToolTally(
    totalCalls: nat,
    successfulCalls: nat,
    failedCalls: nat,
    totalDurationMs: int,
    minDurationMs: Option<int>,
    maxDurationMs: int,
    durations: seq<int>)

  const EMPTY_TALLY := ToolTally(0, 0, 0, 0, None, 0, [])

  /** What one finished call adds to its tool's record. */
  function Record(t: ToolTally, e: LogEvent): ToolTally {
    var d := DurationMs(e);
    ToolTally(
      t.totalCalls + 1,
      t.successfulCalls + (if IsSuccess(e) then 1 else 0),
      t.failedCalls + (if IsSuccess(e) then 0 else 1),
      t.totalDurationMs + d,
      if t.minDurationMs.None? || d < t.minDurationMs.value then Some(d) else t.minDurationMs,
      if d > t.maxDurationMs then d else t.maxDurationMs,
      t.durations + [d])
  }

  /** The body of the scan for a finished call, updating its tool's record
      field by field. */
  method RecordCall(t: ToolTally, e: LogEvent) returns (r: ToolTally)
    ensures r == Record(t, e)
  {
    var d := DurationMs(e);
    r := t.(totalCalls := t.totalCalls + 1);
    r := r.(totalDurationMs := r.totalDurationMs + d);
    r := r.(durations := r.durations + [d]);
    if r.minDurationMs.None? || d < r.minDurationMs.value {
      r := r.(minDurationMs := Some(d));
    }
    if d > r.maxDurationMs {
      r := r.(maxDurationMs := d);
    }
    if EventType(e) == TOOL_CALL_SUCCESS {
      r := r.(successfulCalls := r.successfulCalls + 1);
    } else {
      r := r.(failedCalls := r.failedCalls + 1);
    }
  }

  /** The record of a tool after its calls, in log order. */
  function TallyOfCalls(calls: seq<LogEvent>): ToolTally {
    if calls == [] then EMPTY_TALLY else Record(TallyOfCalls(calls[..|calls| - 1]), calls[|calls| - 1])
  }

  /** The finished calls of one tool, in log order. */
  function CallsOf(logs: seq<LogEvent>, tool: string): seq<LogEvent> {
    if logs == [] then []
    else
      var e := logs[|logs| - 1];
      CallsOf(logs[..|logs| - 1], tool) + (if IsToolCall(e) && CallTool(e) == tool then [e] else [])
  }

  /** The tools with at least one finished call. */
  function ToolsCalled(logs: seq<LogEvent>): set<string> {
    if logs == [] then {}
    else
      var e := logs[|logs| - 1];
      ToolsCalled(logs[..|logs| - 1]) + (if IsToolCall(e) then {CallTool(e)} else {})
  }

  /** The calls of a tool are the finished calls that name it. */
  lemma {:induction false} CallsOfMeaning(logs: seq<LogEvent>, tool: string)
    ensures forall e :: e in CallsOf(logs, tool) <==> e in logs && IsToolCall(e) && CallTool(e) == tool
  {
    if logs != [] {
      var init := logs[..|logs| - 1];
      CallsOfMeaning(init, tool);
      assert logs == init + [logs[|logs| - 1]];
    }
  }

  /** A tool is among the tools called exactly when it has calls. */
  lemma {:induction false} ToolsCalledMeaning(logs: seq<LogEvent>, tool: string)
    ensures tool in ToolsCalled(logs) <==> CallsOf(logs, tool) != []
  {
    if logs != [] {
      ToolsCalledMeaning(logs[..|logs| - 1], tool);
    }
  }

  function Durations(calls: seq<LogEvent>): (r: seq<int>)
    ensures |r| == |calls|
  {
    seq(|calls|, k requires 0 <= k < |calls| => DurationMs(calls[k]))
  }

  /** Counts and totals of a tool's record: every call is counted once, as
      a success or a failure, and its duration is listed and summed. */
  lemma {:induction false} RecordCounts(calls: seq<LogEvent>)
    ensures TallyOfCalls(calls).totalCalls == |calls|
    ensures TallyOfCalls(calls).successfulCalls + TallyOfCalls(calls).failedCalls == |calls|
    ensures TallyOfCalls(calls).successfulCalls == CountOf(calls, IsSuccess)
    ensures TallyOfCalls(calls).durations == Durations(calls)
    ensures TallyOfCalls(calls).totalDurationMs == Sum(Durations(calls))
  {
    if calls != [] {
      var init := calls[..|calls| - 1];
      RecordCounts(init);
      assert Durations(calls)[..|init|] == Durations(init);
    }
  }

  /** The minimum is set as soon as there is a call and is the least
      duration; the maximum, which starts at 0, bounds every duration and
      is either 0 or one of them. */
  lemma {:induction false} RecordBounds(calls: seq<LogEvent>)
    ensures TallyOfCalls(calls).minDurationMs.Some? <==> calls != []
    ensures TallyOfCalls(calls).minDurationMs.Some? ==>
              var m := TallyOfCalls(calls).minDurationMs.value;
              m in Durations(calls) && forall k :: 0 <= k < |calls| ==> m <= Durations(calls)[k]
    ensures 0 <= TallyOfCalls(calls).maxDurationMs
    ensures forall k :: 0 <= k < |calls| ==> Durations(calls)[k] <= TallyOfCalls(calls).maxDurationMs
    ensures TallyOfCalls(calls).maxDurationMs == 0 || TallyOfCalls(calls).maxDurationMs in Durations(calls)
  {
    if calls != [] {
      var init := calls[..|calls| - 1];
      RecordBounds(init);
      assert Durations(calls) == Durations(init) + [DurationMs(calls[|calls| - 1])];
    }
  }

  /** A tool's entry of the result, after the second pass. */
  datatype ToolPerformance = ToolPerformance(
    totalCalls: nat,
    successfulCalls: nat,
    failedCalls: nat,
    totalDurationMs: int,
    minDurationMs: int,
    maxDurationMs: int,
    durations: seq<int>,
    avgDurationMs: Option<real>,
    successRate: Option<real>,
    medianDurationMs: Option<int>)

  /** The second pass: average, success rate and median where there are
      calls, and an unset minimum replaced by 0. */
  function Finish(t: ToolTally): ToolPerformance {
    ToolPerformance(
      t.totalCalls, t.successfulCalls, t.failedCalls, t.totalDurationMs,
      t.minDurationMs.GetOr(0), t.maxDurationMs, t.durations,
      if t.totalCalls > 0 then Some(t.totalDurationMs as real / t.totalCalls as real) else None,
      if t.totalCalls > 0 then Some(t.successfulCalls as real / t.totalCalls as real) else None,
      if t.totalCalls > 0 && t.durations != [] then Some(SortInts(t.durations)[|t.durations| / 2]) else None)
  }

  /** The dictionary `get_tool_performance_stats` returns. */
  function ToolStats(logs: seq<LogEvent>): map<string, ToolPerformance> {
    map tool | tool in ToolsCalled(logs) :: Finish(TallyOfCalls(CallsOf(logs, tool)))
  }

  /** The result has an entry for exactly the tools named by a finished
      call (a success or a failure) of the log. */
  lemma ToolStatsKeys(logs: seq<LogEvent>, tool: string)
    ensures tool in ToolStats(logs) <==> exists e :: e in logs && IsToolCall(e) && CallTool(e) == tool
  {
    ToolsCalledMeaning(logs, tool);
    CallsOfMeaning(logs, tool);
    if CallsOf(logs, tool) != [] {
      assert CallsOf(logs, tool)[0] in CallsOf(logs, tool);
    }
  }

  /** One more event extends the calls of its own tool ... */
  lemma CallsGrow(logs: seq<LogEvent>, i: nat)
    requires i < |logs| && IsToolCall(logs[i])
    ensures CallsOf(logs[..i + 1], CallTool(logs[i])) == CallsOf(logs[..i], CallTool(logs[i])) + [logs[i]]
  {
    assert logs[..i + 1][..i] == logs[..i];
  }

  /** ... so its record is the one before, with the call recorded. */
  lemma TallyGrows(logs: seq<LogEvent>, i: nat)
    requires i < |logs| && IsToolCall(logs[i])
    ensures var tool := CallTool(logs[i]);
      TallyOfCalls(CallsOf(logs[..i + 1], tool)) == Record(TallyOfCalls(CallsOf(logs[..i], tool)), logs[i])
  {
    CallsGrow(logs, i);
    var calls := CallsOf(logs[..i + 1], CallTool(logs[i]));
    assert calls[..|calls| - 1] == CallsOf(logs[..i], CallTool(logs[i]));
  }

  /** ... and of no other. */
  lemma CallsKeep(logs: seq<LogEvent>, i: nat, tool: string)
    requires i < |logs| && !(IsToolCall(logs[i]) && CallTool(logs[i]) == tool)
    ensures CallsOf(logs[..i + 1], tool) == CallsOf(logs[..i], tool)
  {
    assert logs[..i + 1][..i] == logs[..i];
  }

  lemma ToolsCalledStep(logs: seq<LogEvent>, i: nat)
    requires i < |logs|
    ensures ToolsCalled(logs[..i + 1]) ==
              ToolsCalled(logs[..i]) + (if IsToolCall(logs[i]) then {CallTool(logs[i])} else {})
  {
    assert logs[..i + 1][..i] == logs[..i];
  }

  /** `tallies` holds the record of every tool called in `prefix`, and of
      no other. */
  ghost predicate Tallied(tallies: map<string, ToolTally>, prefix: seq<LogEvent>) {
    && tallies.Keys == ToolsCalled(prefix)
    && forall tool :: tool in tallies ==> tallies[tool] == TallyOfCalls(CallsOf(prefix, tool))
  }

  /** An event that is not a finished call changes no record. */
  lemma TalliedSkip(logs: seq<LogEvent>, i: nat, tallies: map<string, ToolTally>)
    requires i < |logs| && Tallied(tallies, logs[..i]) && !IsToolCall(logs[i])
    ensures Tallied(tallies, logs[..i + 1])
  {
    ToolsCalledStep(logs, i);
    forall tool | tool in tallies ensures tallies[tool] == TallyOfCalls(CallsOf(logs[..i + 1], tool)) {
      CallsKeep(logs, i, tool);
    }
  }

  /** The record of a tool before a call: the one kept, or an empty one for
      a tool not called yet. */
  lemma TalliedBefore(tallies: map<string, ToolTally>, prefix: seq<LogEvent>, tool: string)
    requires Tallied(tallies, prefix)
    ensures TallyOfCalls(CallsOf(prefix, tool)) == if tool in tallies then tallies[tool] else EMPTY_TALLY
  {
    ToolsCalledMeaning(prefix, tool);
  }

  /** Recording a finished call under its tool keeps the records complete. */
  lemma TalliedStep(logs: seq<LogEvent>, i: nat, tallies: map<string, ToolTally>, recorded: ToolTally)
    requires i < |logs| && Tallied(tallies, logs[..i]) && IsToolCall(logs[i])
    requires var tool := CallTool(logs[i]);
      recorded == Record(if tool in tallies then tallies[tool] else EMPTY_TALLY, logs[i])
    ensures Tallied(tallies[CallTool(logs[i]) := recorded], logs[..i + 1])
  {
    var tool := CallTool(logs[i]);
    var updated := tallies[tool := recorded];
    ToolsCalledStep(logs, i);
    TalliedBefore(tallies, logs[..i], tool);
    TallyGrows(logs, i);
    assert updated[tool] == TallyOfCalls(CallsOf(logs[..i + 1], tool));
    forall other | other in updated ensures updated[other] == TallyOfCalls(CallsOf(logs[..i + 1], other)) {
      if other != tool {
        CallsKeep(logs, i, other);
      }
    }
    assert updated.Keys == ToolsCalled(logs[..i + 1]);
  }

  /** The second pass over complete records gives the result. */
  lemma TalliedStats(logs: seq<LogEvent>, tallies: map<string, ToolTally>)
    requires Tallied(tallies, logs)
    ensures (map tool | tool in tallies :: Finish(tallies[tool])) == ToolStats(logs)
  {
  }

  /** The entry of a tool, and which tools have one. */
  lemma ToolEntry(logs: seq<LogEvent>, tool: string)
    requires tool in ToolStats(logs)
    ensures CallsOf(logs, tool) != []
    ensures ToolStats(logs)[tool] == Finish(TallyOfCalls(CallsOf(logs, tool)))
  {
    ToolsCalledMeaning(logs, tool);
  }

  /** The figures of a tool from its calls (`ToolEntry` gives every entry
      of the result this way): calls split into successes and
      failures, the durations listed once per call and summed, minimum and
      maximum bound every duration, and the median is one of the durations. */
  lemma CallFigures(calls: seq<LogEvent>)
    requires calls != []
    ensures var p := Finish(TallyOfCalls(calls));
      && p.totalCalls == p.successfulCalls + p.failedCalls == |calls| == |p.durations|
      && p.successfulCalls == CountOf(calls, IsSuccess)
      && p.durations == Durations(calls)
      && p.totalDurationMs == Sum(p.durations)
      && p.minDurationMs in p.durations
      && (forall k :: 0 <= k < |p.durations| ==> p.minDurationMs <= p.durations[k] <= p.maxDurationMs)
      && p.medianDurationMs.Some? && p.medianDurationMs.value in p.durations
  {
    RecordCounts(calls);
    RecordBounds(calls);
    var ds := Durations(calls);
    assert SortInts(ds)[|ds| / 2] in multiset(SortInts(ds));
  }

  /** The median is the middle element of the sorted durations (the upper
      middle one for an even count), so it lies between minimum and maximum. */
  lemma ToolMedian(calls: seq<LogEvent>)
    requires calls != []
    ensures var p := Finish(TallyOfCalls(calls));
      && p.medianDurationMs == Some(SortInts(p.durations)[|p.durations| / 2])
      && Ascending(SortInts(p.durations))
      && p.minDurationMs <= p.medianDurationMs.value <= p.maxDurationMs
  {
    CallFigures(calls);
    SortIntsAscending(Finish(TallyOfCalls(calls)).durations);
  }

  /** The average lies between minimum and maximum, and the success rate
      between 0 and 1. */
  lemma ToolAverages(calls: seq<LogEvent>)
    requires calls != []
    ensures var p := Finish(TallyOfCalls(calls));
      && p.avgDurationMs.Some? && p.successRate.Some?
      && p.minDurationMs as real <= p.avgDurationMs.value <= p.maxDurationMs as real
      && 0.0 <= p.successRate.value <= 1.0
  {
    CallFigures(calls);
    var p := Finish(TallyOfCalls(calls));
    SumBounds(p.durations, p.minDurationMs, p.maxDurationMs);
    MeanBetween(p.totalDurationMs, |p.durations|, p.minDurationMs, p.maxDurationMs);
    MeanBetween(p.successfulCalls, p.totalCalls, 0, 1);
  }

  /** A total of `n` values between `lo` and `hi`, divided by `n`. */
  lemma MeanBetween(total: int, n: nat, lo: int, hi: int)
    requires 0 < n && n * lo <= total <= n * hi
    ensures lo as real <= total as real / n as real <= hi as real
  {
    var mean := total as real / n as real;
    assert mean * n as real == total as real;
    assert (n * lo) as real == n as real * lo as real;
    assert (n * hi) as real == n as real * hi as real;
  }

  // ---------------------------------------------------------------------
  // Error analysis

  /** The `error_info` record built for a failed call. */
  datatype ErrorInfo = ErrorInfo(
    timestamp: int,
    toolName: string,
    error: string,
    errorType: string,
    durationMs: int)

  function ErrorInfoOf(e: LogEvent): ErrorInfo {
    ErrorInfo(e.timestamp, CallTool(e), e.data.error.GetOr(""), e.data.errorType.GetOr("unknown"), DurationMs(e))
  }

  /** The `errors` list of the scan. */
  function Errors(logs: seq<LogEvent>): seq<ErrorInfo> {
    if logs == [] then []
    else
      var e := logs[|logs| - 1];
      Errors(logs[..|logs| - 1]) + (if IsFailure(e) then [ErrorInfoOf(e)] else [])
  }

  function ErrorTypeNames(errors: seq<ErrorInfo>): (r: seq<string>)
    ensures |r| == |errors|
  {
    seq(|errors|, k requires 0 <= k < |errors| => errors[k].errorType)
  }

  /** The errors of one tool, in log order. */
  function ErrorsOfTool(errors: seq<ErrorInfo>, tool: string): seq<ErrorInfo> {
    if errors == [] then []
    else
      var x := errors[|errors| - 1];
      ErrorsOfTool(errors[..|errors| - 1], tool) + (if x.toolName == tool then [x] else [])
  }

  /** The tools with at least one error. */
  function ErrorTools(errors: seq<ErrorInfo>): set<string> {
    if errors == [] then {} else ErrorTools(errors[..|errors| - 1]) + {errors[|errors| - 1].toolName}
  }

  /** The errors of a tool are those that name it. */
  lemma {:induction false} ErrorsOfToolMeaning(errors: seq<ErrorInfo>, tool: string)
    ensures forall x :: x in ErrorsOfTool(errors, tool) <==> x in errors && x.toolName == tool
  {
    if errors != [] {
      var init := errors[..|errors| - 1];
      ErrorsOfToolMeaning(init, tool);
      assert errors == init + [errors[|errors| - 1]];
    }
  }

  /** A tool is among the tools of the errors exactly when it has errors. */
  lemma {:induction false} ErrorToolsMeaning(errors: seq<ErrorInfo>, tool: string)
    ensures tool in ErrorTools(errors) <==> ErrorsOfTool(errors, tool) != []
  {
    if errors != [] {
      ErrorToolsMeaning(errors[..|errors| - 1], tool);
    }
  }

  /** How many of the latest errors the analysis repeats. */
  const RECENT_ERRORS := 10

  /** `errors[-10:] if errors else []` */
  function RecentErrors(errors: seq<ErrorInfo>): seq<ErrorInfo> {
    if |errors| <= RECENT_ERRORS then errors else errors[|errors| - RECENT_ERRORS..]
  }

  /** The dictionary `get_error_analysis` returns; `error_types` is a
      `Counter`, kept in first-seen order. */
  datatype ErrorAnalysis = ErrorAnalysis(
    totalErrors: nat,
    errorTypes: Counts<string>,
    errorByTool: map<string, seq<ErrorInfo>>,
    recentErrors: seq<ErrorInfo>)

  function ErrorAnalysisOf(logs: seq<LogEvent>): ErrorAnalysis {
    var errors := Errors(logs);
    ErrorAnalysis(
      |errors|,
      Tally(ErrorTypeNames(errors)),
      map tool | tool in ErrorTools(errors) :: ErrorsOfTool(errors, tool),
      RecentErrors(errors))
  }

  /** The errors are the failed calls, one record each, in log order. */
  lemma {:induction false} ErrorsAreFailures(logs: seq<LogEvent>)
    ensures |Errors(logs)| == |Filter(logs, IsFailure)|
    ensures forall k :: 0 <= k < |Errors(logs)| ==> Errors(logs)[k] == ErrorInfoOf(Filter(logs, IsFailure)[k])
  {
    if logs != [] {
      ErrorsAreFailures(logs[..|logs| - 1]);
    }
  }

  /** The error types count every error once: their counts add up to the
      number of errors, and each type is counted as often as it occurs. */
  lemma ErrorTypesAddUp(logs: seq<LogEvent>)
    ensures var a := ErrorAnalysisOf(logs);
      && Total(a.errorTypes) == a.totalErrors
      && NoDuplicates(Keys(a.errorTypes))
      && forall ty :: Get(a.errorTypes, ty) == multiset(ErrorTypeNames(Errors(logs)))[ty]
  {
    var names := ErrorTypeNames(Errors(logs));
    TallyTotal(names);
    TallyKeys(names);
    forall ty ensures Get(Tally(names), ty) == multiset(names)[ty] {
      TallyCounts(names, ty);
    }
  }

  /** `error_by_tool` partitions the errors: an error is listed under a tool
      exactly when it is an error of that tool, and no list is empty. */
  lemma ErrorsByTool(logs: seq<LogEvent>)
    ensures var a := ErrorAnalysisOf(logs);
      && (forall tool, x :: tool in a.errorByTool && x in a.errorByTool[tool] <==> x in Errors(logs) && x.toolName == tool)
      && (forall tool :: tool in a.errorByTool ==> a.errorByTool[tool] != [])
  {
    var errors := Errors(logs);
    forall tool ensures tool in ErrorTools(errors) <==> ErrorsOfTool(errors, tool) != [] {
      ErrorToolsMeaning(errors, tool);
    }
    forall tool ensures forall x :: x in ErrorsOfTool(errors, tool) <==> x in errors && x.toolName == tool {
      ErrorsOfToolMeaning(errors, tool);
    }
  }

  /** The recent errors are the last ten errors, or all of them when there
      are fewer, in log order. */
  lemma ErrorsRecent(logs: seq<LogEvent>)
    ensures var a := ErrorAnalysisOf(logs);
      && |a.recentErrors| == (if a.totalErrors < RECENT_ERRORS then a.totalErrors else RECENT_ERRORS)
      && a.recentErrors == Errors(logs)[a.totalErrors - |a.recentErrors|..]
  {
  }

  lemma ErrorsStep(logs: seq<LogEvent>, i: nat)
    requires i < |logs|
    ensures Errors(logs[..i + 1]) == Errors(logs[..i]) + (if IsFailure(logs[i]) then [ErrorInfoOf(logs[i])] else [])
  {
    assert logs[..i + 1][..i] == logs[..i];
  }

  /** One more error adds one to the count of its type. */
  lemma TypesStep(errors: seq<ErrorInfo>, x: ErrorInfo)
    ensures Tally(ErrorTypeNames(errors + [x])) == Bump(Tally(ErrorTypeNames(errors)), x.errorType)
  {
    var names := ErrorTypeNames(errors + [x]);
    assert names[..|names| - 1] == ErrorTypeNames(errors);
  }

  /** `errorByTool` lists the errors of `errors` by tool. */
  ghost predicate Grouped(errorByTool: map<string, seq<ErrorInfo>>, errors: seq<ErrorInfo>) {
    && errorByTool.Keys == ErrorTools(errors)
    && forall tool :: tool in errorByTool ==> errorByTool[tool] == ErrorsOfTool(errors, tool)
  }

  /** Appending an error to its tool's list keeps the grouping. */
  lemma GroupedStep(errorByTool: map<string, seq<ErrorInfo>>, errors: seq<ErrorInfo>, x: ErrorInfo)
    requires Grouped(errorByTool, errors)
    ensures Grouped(errorByTool[x.toolName := (if x.toolName in errorByTool then errorByTool[x.toolName] else []) + [x]],
                    errors + [x])
  {
    assert (errors + [x])[..|errors|] == errors;
    ErrorToolsMeaning(errors, x.toolName);
  }

  // ---------------------------------------------------------------------
  // Session summary

  /** The per-session record of `get_session_summary`; `None` stands for
      the initial unset start and end. */
  datatype SessionSummary = SessionSummary(
    startTime: Option<int>,
    endTime: Option<int>,
    toolCalls: nat,
    successfulCalls: nat,
    failedCalls: nat,
    toolsUsed: set<string>,
    totalDuration: real)

  const NEW_SESSION := SessionSummary(None, None, 0, 0, 0, {}, 0.0)

  /** `log.get('session_id', 'unknown')` */
  function SessionId(e: LogEvent): string {
    e.sessionId.GetOr("unknown")
  }

  /** `log['data'].get('tool_name', '')`: the start event's default differs
      from the other aggregations' `'unknown'`. */
  function StartTool(e: LogEvent): string {
    e.data.toolName.GetOr("")
  }

  /** The start and end of a session after an event at `t`. */
  function Timed(s: SessionSummary, t: int): SessionSummary {
    s.(startTime := if s.startTime.None? || t < s.startTime.value then Some(t) else s.startTime,
       endTime := if s.endTime.None? || t > s.endTime.value then Some(t) else s.endTime)
  }

  /** What one event does to its session's record. */
  function Observe(s: SessionSummary, e: LogEvent): SessionSummary {
    var timed := Timed(s, e.timestamp);
    if IsStart(e) then
      timed.(toolCalls := timed.toolCalls + 1, toolsUsed := timed.toolsUsed + {StartTool(e)})
    else if IsSuccess(e) then
      timed.(successfulCalls := timed.successfulCalls + 1, totalDuration := timed.totalDuration + DurationMs(e) as real / 1000.0)
    else if IsFailure(e) then
      timed.(failedCalls := timed.failedCalls + 1, totalDuration := timed.totalDuration + DurationMs(e) as real / 1000.0)
    else timed
  }

  /** The body of the scan for one event, updating its session's record
      field by field. */
  method ObserveEvent(s: SessionSummary, e: LogEvent) returns (r: SessionSummary)
    ensures r == Observe(s, e)
  {
    r := s;
    if r.startTime.None? || e.timestamp < r.startTime.value {
      r := r.(startTime := Some(e.timestamp));
    }
    if r.endTime.None? || e.timestamp > r.endTime.value {
      r := r.(endTime := Some(e.timestamp));
    }
    assert r == Timed(s, e.timestamp);
    if EventType(e) == TOOL_CALL_START {
      r := r.(toolCalls := r.toolCalls + 1, toolsUsed := r.toolsUsed + {StartTool(e)});
    } else if EventType(e) == TOOL_CALL_SUCCESS {
      r := r.(successfulCalls := r.successfulCalls + 1,
              totalDuration := r.totalDuration + DurationMs(e) as real / 1000.0);
    } else if EventType(e) == TOOL_CALL_FAILED {
      r := r.(failedCalls := r.failedCalls + 1,
              totalDuration := r.totalDuration + DurationMs(e) as real / 1000.0);
    }
  }

  /** The record of a session after its events, in log order. */
  function SummaryOfEvents(events: seq<LogEvent>): SessionSummary {
    if events == [] then NEW_SESSION else Observe(SummaryOfEvents(events[..|events| - 1]), events[|events| - 1])
  }

  /** The events of one session, in log order. */
  function EventsOf(logs: seq<LogEvent>, sid: string): seq<LogEvent> {
    if logs == [] then []
    else
      var e := logs[|logs| - 1];
      EventsOf(logs[..|logs| - 1], sid) + (if SessionId(e) == sid then [e] else [])
  }

  /** The sessions named in the log. */
  function SessionIds(logs: seq<LogEvent>): set<string> {
    if logs == [] then {} else SessionIds(logs[..|logs| - 1]) + {SessionId(logs[|logs| - 1])}
  }

  /** The events of a session are those that name it. */
  lemma {:induction false} EventsOfMeaning(logs: seq<LogEvent>, sid: string)
    ensures forall e :: e in EventsOf(logs, sid) <==> e in logs && SessionId(e) == sid
  {
    if logs != [] {
      var init := logs[..|logs| - 1];
      EventsOfMeaning(init, sid);
      assert logs == init + [logs[|logs| - 1]];
    }
  }

  /** A session is named in the log exactly when it has events. */
  lemma {:induction false} SessionIdsMeaning(logs: seq<LogEvent>, sid: string)
    ensures sid in SessionIds(logs) <==> EventsOf(logs, sid) != []
  {
    if logs != [] {
      SessionIdsMeaning(logs[..|logs| - 1], sid);
    }
  }

  /** The dictionary `get_session_summary` returns (with the tool sets and
      instants before their conversion to lists and ISO text). */
  function SessionSummaries(logs: seq<LogEvent>): map<string, SessionSummary> {
    if logs == [] then map[]
    else map sid | sid in SessionIds(logs) :: SummaryOfEvents(EventsOf(logs, sid))
  }

  function Timestamps(events: seq<LogEvent>): (r: seq<int>)
    ensures |r| == |events|
  {
    seq(|events|, k requires 0 <= k < |events| => events[k].timestamp)
  }

  /** A session's start and end are its earliest and latest event times. */
  lemma {:induction false} SessionTimes(events: seq<LogEvent>)
    requires events != []
    ensures var s := SummaryOfEvents(events);
      && s.startTime.Some? && s.endTime.Some?
      && s.startTime.value in Timestamps(events) && s.endTime.value in Timestamps(events)
      && forall k :: 0 <= k < |events| ==> s.startTime.value <= events[k].timestamp <= s.endTime.value
  {
    var init := events[..|events| - 1];
    assert Timestamps(events) == Timestamps(init) + [events[|events| - 1].timestamp];
    if init != [] {
      SessionTimes(init);
    }
  }

  /** A session's counts: its start events, its successes and its failures. */
  lemma {:induction false} SessionCounts(events: seq<LogEvent>)
    ensures var s := SummaryOfEvents(events);
      && s.toolCalls == CountOf(events, IsStart)
      && s.successfulCalls == CountOf(events, IsSuccess)
      && s.failedCalls == CountOf(events, IsFailure)
  {
    if events != [] {
      SessionCounts(events[..|events| - 1]);
    }
  }

  /** The tools a session used are those its start events name. */
  lemma {:induction false} SessionTools(events: seq<LogEvent>)
    ensures SummaryOfEvents(events).toolsUsed == set e | e in events && IsStart(e) :: StartTool(e)
  {
    if events != [] {
      var init := events[..|events| - 1];
      SessionTools(init);
      assert events == init + [events[|events| - 1]];
    }
  }

  /** A session's total duration is the sum of its finished calls'
      durations, in seconds. */
  lemma {:induction false} SessionDuration(events: seq<LogEvent>)
    ensures SummaryOfEvents(events).totalDuration == Sum(Durations(Filter(events, IsToolCall))) as real / 1000.0
  {
    if events != [] {
      var init := events[..|events| - 1];
      var e := events[|events| - 1];
      SessionDuration(init);
      var calls := Filter(init, IsToolCall);
      assert events[..|events| - 1] == init;
      if IsToolCall(e) {
        assert Filter(events, IsToolCall) == calls + [e];
        assert Durations(calls + [e])[..|calls|] == Durations(calls);
        assert Sum(Durations(calls + [e])) == Sum(Durations(calls)) + DurationMs(e);
      } else {
        assert Filter(events, IsToolCall) == calls;
      }
    }
  }

  /** Every session of the summary has events, and its record is theirs. */
  lemma SessionEntry(logs: seq<LogEvent>, sid: string)
    requires sid in SessionSummaries(logs)
    ensures EventsOf(logs, sid) != []
    ensures SessionSummaries(logs)[sid] == SummaryOfEvents(EventsOf(logs, sid))
  {
    SessionIdsMeaning(logs, sid);
  }

  /** A summary exists for exactly the sessions named in the log. */
  lemma SessionKeys(logs: seq<LogEvent>, sid: string)
    ensures sid in SessionSummaries(logs) <==> exists e :: e in logs && SessionId(e) == sid
  {
    SessionIdsMeaning(logs, sid);
    EventsOfMeaning(logs, sid);
    if EventsOf(logs, sid) != [] {
      assert EventsOf(logs, sid)[0] in EventsOf(logs, sid);
    }
  }

  /** `sessions` holds the record of every session named in `prefix`, and of
      no other. */
  ghost predicate Summarised(sessions: map<string, SessionSummary>, prefix: seq<LogEvent>) {
    && sessions.Keys == SessionIds(prefix)
    && forall sid :: sid in sessions ==> sessions[sid] == SummaryOfEvents(EventsOf(prefix, sid))
  }

  lemma SessionIdsStep(logs: seq<LogEvent>, i: nat)
    requires i < |logs|
    ensures SessionIds(logs[..i + 1]) == SessionIds(logs[..i]) + {SessionId(logs[i])}
  {
    assert logs[..i + 1][..i] == logs[..i];
  }

  /** One more event extends the record of its own session ... */
  lemma SessionGrows(logs: seq<LogEvent>, i: nat)
    requires i < |logs|
    ensures var sid := SessionId(logs[i]);
      SummaryOfEvents(EventsOf(logs[..i + 1], sid)) == Observe(SummaryOfEvents(EventsOf(logs[..i], sid)), logs[i])
  {
    assert logs[..i + 1][..i] == logs[..i];
    var events := EventsOf(logs[..i + 1], SessionId(logs[i]));
    assert events == EventsOf(logs[..i], SessionId(logs[i])) + [logs[i]];
    assert events[..|events| - 1] == EventsOf(logs[..i], SessionId(logs[i]));
  }

  /** ... and of no other. */
  lemma SessionKept(logs: seq<LogEvent>, i: nat, sid: string)
    requires i < |logs| && SessionId(logs[i]) != sid
    ensures EventsOf(logs[..i + 1], sid) == EventsOf(logs[..i], sid)
  {
    assert logs[..i + 1][..i] == logs[..i];
    assert EventsOf(logs[..i], sid) + [] == EventsOf(logs[..i], sid);
  }

  /** The record of a session before an event: the one kept, or a new one
      for a session not seen yet. */
  lemma SummarisedBefore(sessions: map<string, SessionSummary>, prefix: seq<LogEvent>, sid: string)
    requires Summarised(sessions, prefix)
    ensures SummaryOfEvents(EventsOf(prefix, sid)) == if sid in sessions then sessions[sid] else NEW_SESSION
  {
    SessionIdsMeaning(prefix, sid);
  }

  /** Observing an event in its session keeps the records complete. */
  lemma SummarisedStep(logs: seq<LogEvent>, i: nat, sessions: map<string, SessionSummary>, observed: SessionSummary)
    requires i < |logs| && Summarised(sessions, logs[..i])
    requires var sid := SessionId(logs[i]);
      observed == Observe(if sid in sessions then sessions[sid] else NEW_SESSION, logs[i])
    ensures Summarised(sessions[SessionId(logs[i]) := observed], logs[..i + 1])
  {
    var sid := SessionId(logs[i]);
    var updated := sessions[sid := observed];
    SessionIdsStep(logs, i);
    SummarisedBefore(sessions, logs[..i], sid);
    SessionGrows(logs, i);
    assert updated[sid] == SummaryOfEvents(EventsOf(logs[..i + 1], sid));
    forall other | other in updated ensures updated[other] == SummaryOfEvents(EventsOf(logs[..i + 1], other)) {
      if other != sid {
        SessionKept(logs, i, other);
      }
    }
    assert updated.Keys == SessionIds(logs[..i + 1]);
  }

  lemma SummarisedAll(logs: seq<LogEvent>, sessions: map<string, SessionSummary>)
    requires logs != [] && Summarised(sessions, logs)
    ensures sessions == SessionSummaries(logs)
  {
  }

  // ---------------------------------------------------------------------
  // The analyzer

  /** The events of the decodable lines, in file order. */
  function Decoded(lines: seq<Option<LogEvent>>): (r: seq<LogEvent>)
    ensures |r| <= |lines|
    ensures forall e :: e in r <==> Some(e) in lines
  {
    if lines == [] then []
    else
      var last := lines[|lines| - 1];
      assert lines == lines[..|lines| - 1] + [last];
      Decoded(lines[..|lines| - 1]) + (if last.Some? then [last.value] else [])
  }

  class LogAnalyzer {
    var logs: seq<LogEvent>

    /** `__init__` with `load_logs`: the events of the log file's decodable
        lines, none when the file does not exist. */
    constructor (fileExists: bool, lines: seq<Option<LogEvent>>)
      ensures logs == if fileExists then Decoded(lines) else []
    {
      var loaded := [];
      if fileExists {
        var i := 0;
        while i < |lines|
          invariant i <= |lines|
          invariant loaded == Decoded(lines[..i])
        {
          assert lines[..i + 1][..i] == lines[..i];
          if lines[i].Some? {
            loaded := loaded + [lines[i].value];
          }
          i := i + 1;
        }
        assert lines[..i] == lines;
      }
      logs := loaded;
    }

    method GetSessionSummary() returns (summary: map<string, SessionSummary>)
      ensures summary == SessionSummaries(logs)
      ensures logs == [] ==> summary == map[]
    {
      if logs == [] {
        return map[];
      }
      var sessions: map<string, SessionSummary> := map[];
      var i := 0;
      while i < |logs|
        invariant i <= |logs|
        invariant Summarised(sessions, logs[..i])
      {
        var e := logs[i];
        var sid := SessionId(e);
        var s := ObserveEvent(if sid in sessions then sessions[sid] else NEW_SESSION, e);
        SummarisedStep(logs, i, sessions, s);
        sessions := sessions[sid := s];
        assert Summarised(sessions, logs[..i + 1]);
        i := i + 1;
      }
      assert logs[..i] == logs;
      SummarisedAll(logs, sessions);
      summary := sessions;
    }

    method GetToolPerformanceStats() returns (stats: map<string, ToolPerformance>)
      ensures stats == ToolStats(logs)
    {
      var tallies: map<string, ToolTally> := map[];
      var i := 0;
      while i < |logs|
        invariant i <= |logs|
        invariant Tallied(tallies, logs[..i])
      {
        var e := logs[i];
        if EventType(e) == TOOL_CALL_SUCCESS || EventType(e) == TOOL_CALL_FAILED {
          var tool := CallTool(e);
          var t := RecordCall(if tool in tallies then tallies[tool] else EMPTY_TALLY, e);
          TalliedStep(logs, i, tallies, t);
          tallies := tallies[tool := t];
          assert Tallied(tallies, logs[..i + 1]);
        } else {
          TalliedSkip(logs, i, tallies);
        }
        i := i + 1;
      }
      assert logs[..i] == logs;
      TalliedStats(logs, tallies);
      stats := map tool | tool in tallies :: Finish(tallies[tool]);
    }

    method GetErrorAnalysis() returns (analysis: ErrorAnalysis)
      ensures analysis == ErrorAnalysisOf(logs)
    {
      var errors: seq<ErrorInfo> := [];
      var errorTypes: Counts<string> := [];
      var errorByTool: map<string, seq<ErrorInfo>> := map[];
      var i := 0;
      while i < |logs|
        invariant i <= |logs|
        invariant errors == Errors(logs[..i])
        invariant errorTypes == Tally(ErrorTypeNames(errors))
        invariant Grouped(errorByTool, errors)
      {
        var e := logs[i];
        ErrorsStep(logs, i);
        if EventType(e) == TOOL_CALL_FAILED {
          var info := ErrorInfoOf(e);
          TypesStep(errors, info);
          GroupedStep(errorByTool, errors, info);
          var listed := if info.toolName in errorByTool then errorByTool[info.toolName] else [];
          errors := errors + [info];
          errorTypes := Bump(errorTypes, info.errorType);
          errorByTool := errorByTool[info.toolName := listed + [info]];
        }
        i := i + 1;
      }
      assert logs[..i] == logs;
      var recent := if errors != [] then RecentErrors(errors) else [];
      analysis := ErrorAnalysis(|errors|, errorTypes, errorByTool, recent);
    }
  }
}
