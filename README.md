# frontend-test core, modelled in Dafny

This project models the core of `frontend-test`, a tool that runs front-end test cases through an agent driving Playwright. The model covers what happens around the agent; the agent itself is outside it. Concretely, it covers:

- **Results and the result builder** (`core/report_generator.py`). The `TestStep` and `TestResult` records, and the `TestResultBuilder` that collects steps, tags and an error while a test runs. It also covers the aggregations of the report generator: status counts, the summary report and the Allure records.
- **The transcript parser** (`core/strands_test_executor.py`, `core/mock_strands_executor.py`). It turns the agent's free-text transcript into `add_step` calls. Both copies of the parser are modelled as two dialects of one grammar: `Agent` and `Mock`.
- **The executors' pure parts.** These are tag seeding, the formatting of expected results and steps, the mock transcript generator and the three-shape history reader.
- **The test-case store** (`core/test_case_manager.py`). The `TestCase` record with its dictionary form, and `TestCaseManager` with its keyed table of cases.
- **The log analyser** (`core/mcp_log_analyzer.py`). Per-session summaries, per-tool performance figures and the error analysis over a list of log events.

The state the source mutates is kept in classes, and loops stay loops:

- `TestResultBuilder`, `TestCaseManager` and `LogAnalyzer` are classes.
- The parser's block loop, the step formatter, the mock generator's `+=` loop, the Allure loop, the history reader and the log analyser's `defaultdict` scans are methods with loop invariants.
- Each such method is proved equal to a pure specification function, and the properties are proved about that function.

Every regular-expression search of the parser is modelled by what Python's backtracking search amounts to for that pattern: the capture at the first index where the whole pattern matches. `\s*` may run across line breaks and `.+` stops at a line break.

Clock readings, `uuid4` values, the contents of files and directory listings, and the outcome of writes are parameters.

Four behaviours of the code are easy to miss. The model follows the code in each:

- **No step region.** Without a step region the parser adds a single `passed` fallback step; it does not scan the transcript for failure words there (`core/strands_test_executor.py:281-286`). Only the `except` branch scans for failure words, and only in the agent executor.
- **Status label.** The status pattern is case-sensitive: it accepts only upper-case `PASSED`/`FAILED`/`SKIPPED`, which are then lower-cased (`core/strands_test_executor.py:312-315`). A lower-case label leaves the default `passed`.
- **Partly read reports.** When a record of a list report raises part-way through, the records already appended from that file stay in the history; only the rest of that file is skipped (`core/strands_test_executor.py:420-423`, `438-440`).
- **Report pattern.** The agent executor's history reads `test_report_*.json`; the mock executor uses the broader pattern `*test_report_*.json` (`core/mock_strands_executor.py:295`), so it also reads `mock_test_report_*.json`.

## Model

| member | source | states |
|---|---|---|
| ReportModel.StepsStatusIsOverall | core/report_generator.py:394-397 | after any sequence of `add_step` calls the status is failed if a step failed, else skipped if a step was skipped, else passed |
| ReportModel.OverallStatusSnoc | core/report_generator.py:394-397 | one more step moves the declarative status exactly as the `add_step` update does |
| ReportModel.FailedIsSticky | core/report_generator.py:394-397 | once the status is failed, no later step changes it |
| ReportModel.PassedStepsKeepStatus | core/report_generator.py:394-397 | passed steps never change the status, so they cannot downgrade failed or skipped |
| ResultBuilder.TestResultBuilder.constructor | core/report_generator.py:369-377 | a new builder is passed, with no steps, no tags and no error, and keeps id, name, description (default empty) and start time |
| ResultBuilder.TestResultBuilder.AddStep | core/report_generator.py:379-399 | appends exactly the given step at the end (duration 0, status passed, no screenshot and no error by default), applies the status update and keeps the builder invariant (status is failed when an error is set, otherwise the steps' derived status) |
| ResultBuilder.TestResultBuilder.AddTag | core/report_generator.py:401-405 | adds the tag only when absent, so tags never repeat and keep first-insertion order; nothing else changes |
| ResultBuilder.TestResultBuilder.SetError | core/report_generator.py:407-411 | stores the latest message and forces failed; steps and tags are unchanged |
| ResultBuilder.TestResultBuilder.Build | core/report_generator.py:413-429 | the result carries id, name, description, status, error, steps and tags; duration is end minus start; status is failed when an error is set, otherwise the declarative status of the steps; tags are distinct |
| Reports.CountStatus | core/report_generator.py:207-209 | a status count never exceeds the number of results |
| Reports.CountsWithinTotal | core/report_generator.py:206-210 | passed + failed + skipped never exceeds the number of results |
| Reports.CountStatusAppend | core/report_generator.py:337-340 | counting over two runs of results adds up |
| Reports.CountStatusIsMultiplicity | core/report_generator.py:337-340 | each count is the multiplicity of that status among the results |
| Reports.Percent | core/report_generator.py:348 | the rate times the total is the part times 100, and lies in [0, 100] when part ≤ total |
| Reports.Average | core/report_generator.py:350 | the average times the count is the total |
| Reports.HtmlReportStats | core/report_generator.py:206-210 | total is the number of results; passed, failed and skipped are the per-status counts (`CountStatus`, each the multiplicity of that status), together at most the total; success rate is passed/total×100, and 0 for no results |
| Reports.JsonReportInfo | core/report_generator.py:233-240 | `generated_at` is the clock text, total is the number of results, and passed, failed and skipped are the per-status counts, together at most the total |
| Reports.SummaryReport | core/report_generator.py:324-352 | no results give all zeros and no `generated_at`; otherwise total, the per-status counts, the total duration as the sum of the results' durations, success rate passed/total×100 and average = total duration / total |
| Reports.ReportsAgree | core/report_generator.py:206-240 | for any list of results, empty or not, the HTML report, the JSON report and the summary give the same total, passed, failed and skipped counts, and the same success rate before rounding |
| Reports.AllureStatus | core/report_generator.py:257-268 | passed, failed and skipped map to themselves, every other status to `unknown` |
| Reports.Labels | core/report_generator.py:271-275 | there are three fixed labels plus one per tag |
| Reports.LabelsCarryTags | core/report_generator.py:271-275 | the labels start with suite, testClass and testMethod, and the `tag` labels give back exactly the tags in tag order |
| Reports.TagsOfTagLabels | core/report_generator.py:275 | reading the `tag` labels back gives the tags |
| Reports.AllureStepOf | core/report_generator.py:280-296 | a step record has the step's name, mapped status and start; it has one screenshot attachment exactly when the step has a non-empty screenshot |
| Reports.StepWindow | core/report_generator.py:284-285 | a step window starts at the step's timestamp and stops its duration later, cut to whole milliseconds, so start ≤ stop |
| Reports.AllureHeader | core/report_generator.py:263-311 | uuid, name, description, start and stop come from the result and the drawn id; status and labels come from the result, `fullName` is `name#id`, and `statusDetails` (message and trace) appear exactly when the error message is non-empty |
| Reports.AllureSteps | core/report_generator.py:280-304 | one Allure step per step, in step order |
| Reports.GenerateAllureReport | core/report_generator.py:251-313 | one record per result, in order: the result's header record (uuid, names, description, status, start, stop, labels, statusDetails) with its step records in step order |
| Transcript.SplitDashes | core/strands_test_executor.py:292 | `re.split` on runs of three or more dashes: at least one piece, and no piece holds three dashes |
| Transcript.SplitWithoutDashes | core/strands_test_executor.py:292 | text without three dashes in a row is not split |
| Transcript.SplitAtSeparator | core/strands_test_executor.py:292 | a separator of exactly three dashes with no dash around it cuts the text there |
| Transcript.SplitDashesAt | core/strands_test_executor.py:292 | the split is the piece before the first separator, then the split of the text after the whole dash run |
| Transcript.RegionBetween | core/strands_test_executor.py:278 | the region is the text between the steps marker and the first following verification marker |
| Transcript.ValueAt | core/strands_test_executor.py:307-309 | a captured value is stripped: it is empty or neither starts nor ends with whitespace |
| Transcript.MatchAt | core/strands_test_executor.py:307-340 | a pattern can only match where its label occurs, and a time capture consists of digits and dots |
| Transcript.FindSpec | core/strands_test_executor.py:307-340 | a search returns the capture at the first index where the pattern matches, and nothing when it matches nowhere |
| Transcript.FindsFirst | core/strands_test_executor.py:307-340 | a match preceded by no match is what the search returns |
| Transcript.FoundStatusIsWord | core/strands_test_executor.py:312 | a status capture is one of PASSED, FAILED, SKIPPED |
| Transcript.FoundTimeIsNumber | core/strands_test_executor.py:318 | a time capture consists of digits and dots |
| Transcript.ParseFloat | core/strands_test_executor.py:319-323 | `float` of digits and dots succeeds exactly when there is a digit and at most one dot, and is never negative |
| Transcript.MalformedNumberIsRejected | core/strands_test_executor.py:319-323 | `1.2.3` does not parse |
| Transcript.BlockStatus | core/strands_test_executor.py:312-315 | a block's status is passed, failed or skipped; failed or skipped exactly when the upper-case word says so, passed otherwise |
| Transcript.BlockDuration | core/strands_test_executor.py:318-323 | a duration is never negative and is 0.0 without a time label |
| Transcript.BlockError | core/strands_test_executor.py:336-340 | an error is stored exactly when the captured text is neither empty nor `无` |
| Transcript.BlockDescription | core/strands_test_executor.py:326-333 | the description is the captured text, or empty; the agent dialect appends ` (使用工具: X)` when a tool label is present |
| Transcript.MapPiecesInOrder | core/strands_test_executor.py:294-297 | one result per cleaned non-empty piece, in piece order |
| Transcript.BlockStepsInOrder | core/strands_test_executor.py:294-349 | the steps are exactly the non-blank stripped blocks, parsed one by one, in block order |
| Transcript.NoStepsIffAllBlank | core/strands_test_executor.py:294-297 | no step comes from the pieces exactly when every piece is blank after stripping |
| Transcript.BlankRegionAddsNoSteps | core/strands_test_executor.py:289-297 | a region of whitespace alone adds no step |
| Transcript.OneBlockRegion | core/strands_test_executor.py:278-297 | a stripped region without a separator gives exactly one step, parsed from the region |
| Transcript.StepDetailsOfRegion | core/strands_test_executor.py:289-294 | with a region, the steps are those of its pieces |
| Transcript.LoneCharMakesAStep | core/strands_test_executor.py:292-309 | one or two dashes are text, not a separator: a region of one non-space character makes one unnamed step |
| Transcript.LoneCharIsUnnamed | core/strands_test_executor.py:307-309 | a one-character block keeps the default name `未知步骤` |
| Transcript.SingleBlock | core/strands_test_executor.py:294-297 | a single stripped non-empty piece makes exactly one step |
| TranscriptParser.ParseOneBlock | core/strands_test_executor.py:300-340 | each field starts at its default and is overwritten by its pattern's capture, giving exactly the grammar's parse of the block |
| TranscriptParser.ParsePiece | core/strands_test_executor.py:294-349 | a blank piece adds nothing, any other adds the step parsed from it, stamped with the clock reading for that step |
| TranscriptParser.ParseBlocks | core/strands_test_executor.py:294-349 | the block loop appends the steps of the non-blank blocks in order, each stamped with its own clock reading, and leaves tags and error alone |
| TranscriptParser.ParseStepDetails | core/strands_test_executor.py:275-349 | without a region one default step `测试执行` is added (agent: passed, 0.0, `使用 MCP Playwright 执行自动化测试`; mock: passed, 1.0, `执行自动化测试`); with one, the steps of its blocks are added in order |
| TranscriptParser.ParseExecutionResult | core/strands_test_executor.py:251-262 | the error is set exactly when the text has a FAILED or ERROR marker and no PASSED marker; then the step details are added; a fresh builder ends with the transcript's status |
| TranscriptParser.TranscriptFailsIff | core/strands_test_executor.py:251-262 | a fresh run ends failed exactly when the failure marker applies or some parsed step failed |
| TranscriptParser.RecoverFromParseError | core/strands_test_executor.py:264-273 | the `except` branch adds exactly one fallback step (agent: failed iff a failure word occurs in the lower-cased text, duration 0; mock: passed, duration 1.0) |
| TranscriptParser.AsStepsAppend | core/report_generator.py:26-28 | recording two runs of parsed steps one after the other records their concatenation, with the clock readings continuing in step order |
| TranscriptParser.StatusesOfAsSteps | core/strands_test_executor.py:343-349 | recorded steps keep the parsed statuses in order |
| Executors.AddTagsSpec | core/strands_test_executor.py:59-62 | adding tags keeps the earlier ones in place, adds exactly the new ones and never repeats a tag |
| Executors.AddTagsOfFresh | core/strands_test_executor.py:60-62 | distinct new tags are added as they are, in order |
| Executors.RunnerTags | core/strands_test_executor.py:59 | the four runner tags are distinct (the mock's fourth is `mock`, as at core/mock_strands_executor.py:31) |
| Executors.StartResult | core/strands_test_executor.py:52-62 | a fresh passed builder for the case, tagged with the runner's tags and then the case's own |
| Executors.SeededTags | core/mock_strands_executor.py:31-34 | the four runner tags come first, each once, then the case's new tags; distinct fresh case tags are kept in order |
| Executors.FormatExpectedResults | core/strands_test_executor.py:218-229 | an empty value gives `无特定预期结果`, a one-element list its element, any other non-list value its text |
| Executors.ExpectedResultLines | core/strands_test_executor.py:226-227 | two or more single-line results come out as one `- r` line per result, in order |
| Executors.FormatTestSteps | core/strands_test_executor.py:231-249 | no steps give `无具体步骤`; otherwise the numbered step lines joined by newlines |
| Executors.StepLinesRoundTrip | core/strands_test_executor.py:236-249 | the formatted steps split back into one line per step; line k reads `k+1`, then `. `, then the step's text (`action: data`, `action`, or the step) |
| History.AgentReportsAreMockReports | core/mock_strands_executor.py:295 | every file the agent executor's pattern reads is read by the mock executor's too |
| History.MockReadsMoreReports | core/mock_strands_executor.py:295 | the mock pattern also reads `mock_test_report_*.json`, which the agent pattern does not |
| History.SortByNameDescending | core/strands_test_executor.py:412 | sorting keeps exactly the files |
| History.SortedByName | core/strands_test_executor.py:412 | the files are read largest name first |
| History.InsertKeepsOrder | core/strands_test_executor.py:412 | inserting a file keeps the list in descending name order |
| History.Unraised | core/strands_test_executor.py:420-423 | the loop gets through exactly the results before the first one whose `.get` raises |
| History.AppendListRecords | core/strands_test_executor.py:420-423 | the list loop appends the wanted results before the first that raises, in order |
| History.AppendReport | core/strands_test_executor.py:418-436 | the three shapes are tried in order: `test_results` (list or single), a bare list, an object with `test_id` |
| History.GetTestHistory | core/strands_test_executor.py:403-442 | no directory gives []; otherwise the records of the matching readable files, largest name first, then in file order |
| History.FilteredRecordsBelong | core/strands_test_executor.py:422-435 | with a test id, every record kept is an object whose `test_id` is that id |
| History.ReportRecordsUnfiltered | core/strands_test_executor.py:418-436 | without a test id, a list gives all its results and a single result is kept as it is |
| History.FilteredReport | core/strands_test_executor.py:418-436 | for a report whose results are all objects, filtering by id keeps exactly that test's records, in order |
| History.FilteredHistory | core/strands_test_executor.py:409-440 | over well-formed reports the filtered history is the unfiltered history restricted to the requested test |
| MockTranscript.GenerateMockResult | core/mock_strands_executor.py:93-138 | the generated text is the fixed head, one block per step, and the closing verification text |
| MockTranscript.AppendStepBlocks | core/mock_strands_executor.py:104-122 | the loop appends the blocks of the steps, numbered from 1, in order |
| MockTranscript.StepBlocks | core/mock_strands_executor.py:104-122 | there is one block per step |
| MockRoundTrip.MockRegion | core/mock_strands_executor.py:97-129 | the step region of the mock text is exactly its blocks and the blank lines after them |
| MockRoundTrip.MockCarriesPassMarker | core/mock_strands_executor.py:97-98 | the mock text carries the PASSED marker, so no error is set |
| MockRoundTrip.PassMarkerWins | core/mock_strands_executor.py:144-148 | a text with the PASSED marker is never marked failed, whatever else it says |
| MockRoundTrip.RegionReadBack | core/mock_strands_executor.py:163-232 | a region of blocks for readable names reads back as one passed, error-free step per name, named by it |
| MockRoundTrip.MockRoundTrip | core/mock_strands_executor.py:93-232 | parsing the mock transcript gives one step per test-case step, in order, named by the step's stripped text, passed and error-free; zero steps give none |
| MockRoundTrip.AllPassedIsPassed | core/report_generator.py:394-397 | steps that all passed leave the status passed |
| MockRoundTrip.MockPasses | core/mock_strands_executor.py:140-151 | the mock transcript leaves a fresh run passed |
| TestCases.NewTestCase | core/test_case_manager.py:17-30 | a new case takes the fresh id, the given fields with the source's defaults (empty description, priority `medium`, type `functional`), empty lists for missing ones, the first clock reading as created_at and the second as updated_at, and status `draft` |
| TestCases.FromDict | core/test_case_manager.py:48-64 | every key present is taken over; an absent name or description becomes empty, absent steps, expected results or tags the empty list, and absent id, timestamps, priority, type and status the fresh id, the constructor's clock readings, `medium`, `functional` and `draft` |
| TestCases.ToDict | core/test_case_manager.py:32-46 | the dictionary holds all eleven keys, and `from_dict` reads it back to the same case |
| TestCases.CompleteDictRoundTrip | core/test_case_manager.py:32-64 | a dictionary holding every key comes back unchanged from `to_dict(from_dict(d))` |
| TestCases.UnknownKeysIgnored | core/test_case_manager.py:198-200 | keys that name no attribute change nothing |
| TestCases.UpdateKeepsIdentity | core/test_case_manager.py:192-203 | id, name, description and created_at that no change names keep their values; updated_at becomes the clock reading |
| TestCases.UpdateKeepsContent | core/test_case_manager.py:198-200 | steps, expected results and tags that no change names keep their values |
| TestCases.UpdateKeepsLabels | core/test_case_manager.py:198-200 | priority, type and status that no change names keep their values |
| TestCases.StatisticsAddUp | core/test_case_manager.py:232-260 | each breakdown sums to the total and counts each value as often as it occurs; an empty store gives total 0 and empty breakdowns |
| TestCases.StoredIsListed | core/test_case_manager.py:172-174 | every stored case is among the listed values |
| TestCases.DictPrefix | core/test_case_manager.py:284-286 | the import gets through exactly the records before the first non-dictionary |
| TestCases.TestCaseManager.constructor | core/test_case_manager.py:69-73 | `load_all_test_cases` runs on the new store: it holds exactly what putting the `from_dict` case of every readable file, in listing order, into an empty table gives |
| TestCases.EveryReadableLoaded | core/test_case_manager.py:151-163 | the case of every readable file is among the loaded cases |
| TestCases.OnlyReadableLoaded | core/test_case_manager.py:151-163 | every loaded case is the `from_dict` case of some readable file |
| TestCases.LoadedIds | core/test_case_manager.py:151-163 | after loading, every readable file's id is stored, and each stored case is some readable file's case, under its own id |
| TestCases.PutAllKeys | core/test_case_manager.py:162 | storing a run of cases keeps every id put, and each key holds either its old case or one of the cases put under that id |
| TestCases.TestCaseManager.Put | core/test_case_manager.py:125 | the case is stored under its id; a new id joins the key order at the end |
| TestCases.TestCaseManager.CreateTestCaseSync | core/test_case_manager.py:93-109 | the new case is stored under its own id, and `get_test_case(id)` then returns it |
| TestCases.TestCaseManager.CreateTestCase | core/test_case_manager.py:111-127 | as the synchronous create, and the dictionary form is returned |
| TestCases.TestCaseManager.GetTestCase | core/test_case_manager.py:168-170 | a case is found exactly when its id is stored, and it is a listed value |
| TestCases.TestCaseManager.CasesByTag | core/test_case_manager.py:180-182 | exactly the stored cases carrying the tag |
| TestCases.TestCaseManager.CasesByType | core/test_case_manager.py:184-186 | exactly the stored cases of the type |
| TestCases.TestCaseManager.CasesByPriority | core/test_case_manager.py:188-190 | exactly the stored cases of the priority |
| TestCases.TestCaseManager.UpdateTestCase | core/test_case_manager.py:192-203 | an unknown id changes nothing and answers false; otherwise the named attributes are set, updated_at is refreshed, and the answer is whether the save succeeded |
| TestCases.TestCaseManager.DeleteTestCase | core/test_case_manager.py:205-217 | the id is gone afterwards whether or not it was present; the answer is false only when removing the file fails |
| TestCases.TestCaseManager.SearchTestCases | core/test_case_manager.py:219-230 | exactly the stored cases whose lower-cased name, description or a tag contains the lower-cased query, in store order |
| TestCases.TestCaseManager.GetStatistics | core/test_case_manager.py:232-260 | the loop computes the statistics of the stored cases |
| TestCases.TestCaseManager.ImportTestCases | core/test_case_manager.py:273-293 | undecodable data stores nothing and gives 0; otherwise the records before the first non-dictionary are stored in order, and the count is the number saved, or 0 when a non-dictionary stopped the import |
| LogAnalysis.LogAnalyzer.constructor | core/mcp_log_analyzer.py:24-42 | the events are those of the decodable lines, in file order, or none when the file is missing |
| LogAnalysis.Decoded | core/mcp_log_analyzer.py:30-36 | an event is kept exactly when its line decodes |
| LogAnalysis.RecordCall | core/mcp_log_analyzer.py:109-122 | the per-call update of a tool's record, field by field |
| LogAnalysis.CallsOfMeaning | core/mcp_log_analyzer.py:103-109 | a tool's calls are exactly the finished calls (success or failure) that name it |
| LogAnalysis.ToolStatsKeys | core/mcp_log_analyzer.py:103-109 | there is an entry for exactly the tools named by a finished call |
| LogAnalysis.RecordCounts | core/mcp_log_analyzer.py:110-122 | total_calls = successful + failed = number of calls; the durations are listed once per call and summed |
| LogAnalysis.RecordBounds | core/mcp_log_analyzer.py:114-117 | the minimum is the least duration once there is a call; the maximum, starting at 0, bounds every duration and is 0 or one of them |
| LogAnalysis.TalliedStep | core/mcp_log_analyzer.py:109-122 | recording a finished call under its tool keeps every tool's record equal to the record of its calls so far |
| LogAnalysis.TalliedStats | core/mcp_log_analyzer.py:125-138 | the second pass over complete records gives the result |
| LogAnalysis.ToolEntry | core/mcp_log_analyzer.py:125-138 | each entry is the finished record of that tool's calls, and it has at least one call |
| LogAnalysis.CallFigures | core/mcp_log_analyzer.py:110-132 | for a tool with calls: calls split into successes and failures, durations listed and summed, min ≤ every duration ≤ max, and the median is one of the durations |
| LogAnalysis.ToolMedian | core/mcp_log_analyzer.py:131-132 | the median is the element at index len/2 of the ascending sorted durations, between min and max |
| LogAnalysis.SortIntsAscending | core/mcp_log_analyzer.py:132 | `sorted` gives ascending order (and the same multiset) |
| LogAnalysis.ToolAverages | core/mcp_log_analyzer.py:126-128 | the average lies between min and max, and the success rate between 0 and 1 |
| LogAnalysis.ErrorsAreFailures | core/mcp_log_analyzer.py:146-155 | the errors are the failed calls, one record each, in log order |
| LogAnalysis.ErrorTypesAddUp | core/mcp_log_analyzer.py:156-161 | error_types counts sum to total_errors, have distinct keys, and count each type as often as it occurs |
| LogAnalysis.ErrorsByTool | core/mcp_log_analyzer.py:157-162 | error_by_tool partitions the errors by tool, and no list is empty |
| LogAnalysis.ErrorsRecent | core/mcp_log_analyzer.py:163 | recent_errors is the last min(10, total) errors, in log order |
| LogAnalysis.EventsOfMeaning | core/mcp_log_analyzer.py:59-64 | a session's events are exactly those that name it |
| LogAnalysis.SessionKeys | core/mcp_log_analyzer.py:59-64 | there is a summary for exactly the sessions named in the log |
| LogAnalysis.SessionEntry | core/mcp_log_analyzer.py:59-89 | each summary is the record of that session's events |
| LogAnalysis.SessionTimes | core/mcp_log_analyzer.py:66-69 | start and end are the earliest and latest event times, so start ≤ end |
| LogAnalysis.SessionCounts | core/mcp_log_analyzer.py:71-79 | tool_calls counts start events, successful and failed calls count successes and failures |
| LogAnalysis.SessionTools | core/mcp_log_analyzer.py:73 | tools_used is the set of tools the start events name |
| LogAnalysis.SessionDuration | core/mcp_log_analyzer.py:76-79 | total_duration is the sum of finished calls' durations, in seconds |
| LogAnalysis.SummarisedStep | core/mcp_log_analyzer.py:59-79 | observing an event in its session keeps every session's record equal to the record of its events so far |
| LogAnalysis.ObserveEvent | core/mcp_log_analyzer.py:66-79 | the per-event update of a session's record, field by field |
| LogAnalysis.LogAnalyzer.GetSessionSummary | core/mcp_log_analyzer.py:44-89 | the scan computes the per-session summaries; no logs give an empty result |
| LogAnalysis.LogAnalyzer.GetToolPerformanceStats | core/mcp_log_analyzer.py:91-138 | the two passes compute the per-tool figures |
| LogAnalysis.LogAnalyzer.GetErrorAnalysis | core/mcp_log_analyzer.py:140-164 | the scan computes the error analysis |

## Left out

- Agents, Bedrock, MCP clients and `asyncio.sleep` in `execute_test_case` are left out. Only its tag seeding and the parsing of the transcript it obtains are modelled, because the rest is calls into external services.
- `execute_test_suite`, `_generate_reports`, instruction building and the execution summaries are left out. They are orchestration around the modelled operations, and they depend on the agent.
- File I/O is not modelled. This covers Jinja rendering, JSON and YAML dumping, report, screenshot and test-case files, `mkdir`, `exists`, `unlink` and `glob`. File contents, directory listings and write outcomes are parameters.
- `datetime.now()` and `uuid4` are parameters. Every reading is its own parameter: the parser's `clock(j)` is the reading taken for the builder's step j, and a `Stamp` carries the fresh id and the two readings a new test case takes. ISO-8601 timestamps are integers compared as instants.
- Floating point is not modelled. Rates and durations are exact reals, and `round(x, 1)` / `round(x, 2)` are not applied. `Reports.HtmlReportStats` and `Reports.SummaryReport` therefore state the unrounded figures.
- `Reports.ReportsAgree` states that the unrounded success rates agree. The source shows them at different precisions: the HTML report rounds to 1 decimal (`core/report_generator.py:209`) and the summary to 2 (`core/report_generator.py:348`), so 1 passed out of 3 shows as 33.3 and 33.33.
- `Reports.StepWindow` measures step timestamps in milliseconds. The source converts ISO text to float seconds before it multiplies by 1000.
- The `mock_strands_executor.py` time text `round(0.5 + i*0.3, 2)` is modelled on exact decimals. Durations are not part of the round trip.
- `MockRoundTrip.MockRoundTrip` needs each step text to be readable:
  - one line, not blank;
  - free of `---`, of the region's end marker, and of the `状态:` and `错误信息:` labels.

  Otherwise the first-match searches can latch onto the name. Descriptions and durations read back are not stated.
- `Transcript.BlankRegionAddsNoSteps` covers whitespace-only regions only.
  - A region mixing whitespace and separators is covered only through `Transcript.NoStepsIffAllBlank` on its split pieces.
  - One or two dashes are not a separator, so a region of dashes alone can make a step (`Transcript.LoneCharMakesAStep`).
- `TranscriptParser.RecoverFromParseError` models the `except` branch, but nothing calls it. No modelled operation raises on a string transcript.
- The regular expressions' `\d` and `str.lower()` are ASCII-only here. Python's Unicode digits and case folding are not modelled.
- Python's `str.strip()` whitespace set is modelled. Unicode separators outside it are not.
- History records are JSON values. A `test_id` filter compares JSON strings, as Python compares the decoded values.
- `fnmatch`'s treatment of hidden files and of directories that match the pattern is not modelled.
- Dictionaries are Dafny `map`s, except that `TestCaseManager` keeps the insertion order of its keys. The Counters keep first-seen order. Session `tools_used` is a set, not a list in set order.
- `export_test_cases`, `load_test_case`, `get_all_test_cases` and `create_sample_test_cases` are left out. They are file I/O or fixed sample data. `get_all_test_cases` is `TestCaseManager.Values`, the listing the queries use.
- The log analyser assumes every log event has `timestamp` and `data`; the source raises `KeyError` when they are missing. Non-object log lines are treated as undecodable.
- The pandas frame and `generate_performance_report` are left out. They are presentation and plotting.
- `core/enhanced_strands_executor.py`, `core/enhanced_mcp_client.py` and the `app/` user interface are not part of this model. They are agent plumbing and UI.
- `TestCases.TestCaseManager.ImportTestCases` keeps the behaviour as written: when a later record is not a dictionary, the cases stored before it remain stored and the count is 0.
- `ResultBuilder.TestResultBuilder.Build` returns a result holding copies of the steps and tags. In the source the result shares the builder's own lists, so a later `add_step` or `add_tag` also changes a result already built. No modelled caller builds twice or adds after building.
- `TestCases.TestCaseManager.UpdateTestCase` does not model keys that name a method of the case, such as `to_dict`. `hasattr` accepts them and `setattr` shadows the method; the save then raises inside its `try`, and the call answers false. `Change` holds only data attributes and unknown keys.
- `TestCases.TestCaseManager.constructor` takes the files already decoded. A file that cannot be opened or decoded, or that is not a dictionary, is `None` and skipped, as the source's `except` does.
