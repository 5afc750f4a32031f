/**
 * The aggregations of `ReportGenerator` in core/report_generator.py: the
 * status counts of the HTML and JSON reports, the summary report, and the
 * Allure records (status map, labels, step time windows, attachments and
 * status details). Rendering, file writing, `uuid4` and the clock are not
 * modelled: generated ids and the current time are parameters.
 *
 * Values stay exact: the source's `round(..., 1)` and `round(..., 2)` are
 * not applied to the rates and durations here.
 */
module Reports {
  import opened Text
  import opened ReportModel

  /** `sum(1 for t in results if t.status == status)` */
  function CountStatus(results: seq<TestResult>, status: string): (n: nat)
    ensures n <= |results|
  {
    if results == [] then 0
    else CountStatus(results[..|results| - 1], status) + (if results[|results| - 1].status == status then 1 else 0)
  }

  /** The counts of the three statuses never exceed the number of results,
      since no result has two statuses. */
  lemma {:induction false} CountsWithinTotal(results: seq<TestResult>)
    ensures CountStatus(results, PASSED) + CountStatus(results, FAILED) + CountStatus(results, SKIPPED) <= |results|
  {
    if results != [] {
      CountsWithinTotal(results[..|results| - 1]);
    }
  }

  /** Counting one status over two runs of results adds up. */
  lemma {:induction false} CountStatusAppend(a: seq<TestResult>, b: seq<TestResult>, status: string)
    ensures CountStatus(a + b, status) == CountStatus(a, status) + CountStatus(b, status)
    decreases |b|
  {
    if b == [] {
      assert a + b == a;
    } else {
      CountStatusAppend(a, b[..|b| - 1], status);
      assert (a + b)[..|a + b| - 1] == a + b[..|b| - 1];
    }
  }

  /** The statuses of the results, in order. */
  function ResultStatuses(results: seq<TestResult>): (r: seq<string>)
    ensures |r| == |results|
  {
    if results == [] then [] else ResultStatuses(results[..|results| - 1]) + [results[|results| - 1].status]
  }

  /** A count is the multiplicity of that status among the results' statuses. */
  lemma {:induction false} CountStatusIsMultiplicity(results: seq<TestResult>, status: string)
    ensures CountStatus(results, status) == multiset(ResultStatuses(results))[status]
  {
    if results != [] {
      var init := results[..|results| - 1];
      CountStatusIsMultiplicity(init, status);
      assert multiset(ResultStatuses(results)) == multiset(ResultStatuses(init)) + multiset{results[|results| - 1].status};
    }
  }

  /** `sum(t.duration for t in results)` */
  function TotalDuration(results: seq<TestResult>): real {
    if results == [] then 0.0
    else TotalDuration(results[..|results| - 1]) + results[|results| - 1].duration
  }

  /** `part / whole * 100` */
  function Percent(part: nat, whole: nat): (r: real)
    requires whole > 0
    ensures r * whole as real == part as real * 100.0
    ensures part <= whole ==> 0.0 <= r <= 100.0
  {
    part as real / whole as real * 100.0
  }

  /** `total / count` */
  function Average(total: real, count: nat): (r: real)
    requires count > 0
    ensures r * count as real == total
  {
    total / count as real
  }

  /** The statistics block of the HTML report. */
  datatype HtmlStats = HtmlStats(totalTests: nat, passedTests: nat, failedTests: nat, skippedTests: nat,
                                 successRate: real)

  function HtmlReportStats(results: seq<TestResult>): (r: HtmlStats)
    ensures r.totalTests == |results|
    ensures r.passedTests == CountStatus(results, PASSED) && r.failedTests == CountStatus(results, FAILED)
    ensures r.skippedTests == CountStatus(results, SKIPPED)
    ensures r.passedTests + r.failedTests + r.skippedTests <= r.totalTests
    ensures 0.0 <= r.successRate <= 100.0
    ensures r.totalTests == 0 ==> r.successRate == 0.0
    ensures r.totalTests > 0 ==> r.successRate == Percent(r.passedTests, r.totalTests)
  {
    var total := |results|;
    var passed := CountStatus(results, PASSED);
    CountsWithinTotal(results);
    HtmlStats(total, passed, CountStatus(results, FAILED), CountStatus(results, SKIPPED),
              if total > 0 then Percent(passed, total) else 0.0)
  }

  /** The `report_info` block of the JSON report. */
  datatype ReportInfo = ReportInfo(generatedAt: string, totalTests: nat, passed: nat, failed: nat, skipped: nat)

  function JsonReportInfo(results: seq<TestResult>, now: string): (r: ReportInfo)
    ensures r.generatedAt == now && r.totalTests == |results|
    ensures r.passed == CountStatus(results, PASSED) && r.failed == CountStatus(results, FAILED)
    ensures r.skipped == CountStatus(results, SKIPPED)
    ensures r.passed + r.failed + r.skipped <= r.totalTests
  {
    CountsWithinTotal(results);
    ReportInfo(now, |results|, CountStatus(results, PASSED), CountStatus(results, FAILED), CountStatus(results, SKIPPED))
  }

  /** `generate_summary_report`; `generatedAt` is absent in the empty case,
      as in the source. */
  datatype Summary = Summary(totalTests: nat, passed: nat, failed: nat, skipped: nat, successRate: real,
                             totalDuration: real, averageDuration: real, generatedAt: Option<string>)

  function SummaryReport(results: seq<TestResult>, now: string): (r: Summary)
    ensures results == [] ==> r == Summary(0, 0, 0, 0, 0.0, 0.0, 0.0, None)
    ensures results != [] ==> r.generatedAt == Some(now) && r.totalTests == |results|
    ensures r.passed == CountStatus(results, PASSED) && r.failed == CountStatus(results, FAILED)
    ensures r.skipped == CountStatus(results, SKIPPED)
    ensures r.totalDuration == TotalDuration(results)
    ensures r.passed + r.failed + r.skipped <= r.totalTests
    ensures r.totalTests > 0 ==> r.successRate == Percent(r.passed, r.totalTests)
    ensures r.totalTests > 0 ==> r.averageDuration == Average(r.totalDuration, r.totalTests)
  {
    if results == [] then Summary(0, 0, 0, 0, 0.0, 0.0, 0.0, None)
    else
      var total := |results|;
      var passed := CountStatus(results, PASSED);
      var totalDuration := TotalDuration(results);
      CountsWithinTotal(results);
      Summary(total, passed, CountStatus(results, FAILED), CountStatus(results, SKIPPED),
              Percent(passed, total), totalDuration, Average(totalDuration, total), Some(now))
  }

  /** The HTML report, the JSON report and the summary count alike, and
      their unrounded success rates agree. */
  lemma ReportsAgree(results: seq<TestResult>, now: string)
    ensures var h, j, s := HtmlReportStats(results), JsonReportInfo(results, now), SummaryReport(results, now);
            && h.totalTests == j.totalTests == s.totalTests
            && h.passedTests == j.passed == s.passed
            && h.failedTests == j.failed == s.failed
            && h.skippedTests == j.skipped == s.skipped
            && h.successRate == s.successRate
  {
  }

  // ---------------------------------------------------------------------
  // Allure

  const UNKNOWN := "unknown"

  /** `status_map.get(status, 'unknown')` */
  function AllureStatus(status: string): (r: string)
    ensures r in {PASSED, FAILED, SKIPPED, UNKNOWN}
    ensures status in {PASSED, FAILED, SKIPPED} ==> r == status
    ensures status !in {PASSED, FAILED, SKIPPED} ==> r == UNKNOWN
  {
    if status == PASSED || status == FAILED || status == SKIPPED then status else UNKNOWN
  }

  datatype Label = Label(name: string, value: string)

  const TAG_LABEL := "tag"

  /** The three fixed labels, then one `tag` label per tag, in tag order. */
  function Labels(test: TestResult): (r: seq<Label>)
    ensures |r| == 3 + |test.tags|
  {
    [Label("suite", "Frontend Tests"), Label("testClass", "AutomationTest"), Label("testMethod", test.testName)]
    + TagLabels(test.tags)
  }

  function TagLabels(tags: seq<string>): (r: seq<Label>)
    ensures |r| == |tags|
  {
    if tags == [] then [] else TagLabels(tags[..|tags| - 1]) + [Label(TAG_LABEL, tags[|tags| - 1])]
  }

  /** The values of the `tag` labels, in order: how a reader of the record
      gets the tags back. */
  function TagsOf(labels: seq<Label>): seq<string> {
    if labels == [] then []
    else TagsOf(labels[..|labels| - 1])
         + (if labels[|labels| - 1].name == TAG_LABEL then [labels[|labels| - 1].value] else [])
  }

  lemma {:induction false} TagsOfAppend(a: seq<Label>, b: seq<Label>)
    ensures TagsOf(a + b) == TagsOf(a) + TagsOf(b)
    decreases |b|
  {
    if b == [] {
      assert a + b == a;
    } else {
      TagsOfAppend(a, b[..|b| - 1]);
      assert (a + b)[..|a + b| - 1] == a + b[..|b| - 1];
    }
  }

  lemma {:induction false} TagsOfTagLabels(tags: seq<string>)
    ensures TagsOf(TagLabels(tags)) == tags
  {
    if tags != [] {
      TagsOfTagLabels(tags[..|tags| - 1]);
      TagsOfAppend(TagLabels(tags[..|tags| - 1]), [Label(TAG_LABEL, tags[|tags| - 1])]);
    }
  }

  lemma {:induction false} TagsOfUntagged(labels: seq<Label>)
    requires forall k :: 0 <= k < |labels| ==> labels[k].name != TAG_LABEL
    ensures TagsOf(labels) == []
  {
    if labels != [] {
      TagsOfUntagged(labels[..|labels| - 1]);
    }
  }

  /** The labels give back exactly the tags, in tag order, and begin with the
      three fixed labels. */
  lemma LabelsCarryTags(test: TestResult)
    ensures TagsOf(Labels(test)) == test.tags
    ensures Labels(test)[..3] == [Label("suite", "Frontend Tests"), Label("testClass", "AutomationTest"),
                                  Label("testMethod", test.testName)]
  {
    var fixed := [Label("suite", "Frontend Tests"), Label("testClass", "AutomationTest"), Label("testMethod", test.testName)];
    TagsOfAppend(fixed, TagLabels(test.tags));
    TagsOfUntagged(fixed);
    TagsOfTagLabels(test.tags);
  }

  /** Python's `int(x)`: truncation toward zero. */
  function Trunc(x: real): int {
    if x >= 0.0 then x.Floor else -((-x).Floor)
  }

  datatype Attachment = Attachment(name: string, source: string, mimeType: string)

  datatype AllureStep = AllureStep(name: string, status: string, start: int, stop: int, attachments: seq<Attachment>)

  /** One Allure step. Timestamps are milliseconds, durations seconds; a
      non-empty screenshot becomes one attachment named after `attachmentId`. */
  function AllureStepOf(step: TestStep, attachmentId: string): (r: AllureStep)
    ensures r.name == step.name && r.status == AllureStatus(step.status) && r.start == step.timestamp
    ensures |r.attachments| <= 1
    ensures |r.attachments| == 1 <==> step.screenshot.Some? && step.screenshot.value != []
  {
    var attachments :=
      if step.screenshot.Some? && step.screenshot.value != [] then
        [Attachment("Screenshot", attachmentId + "-attachment.png", "image/png")]
      else [];
    AllureStep(step.name, AllureStatus(step.status), step.timestamp,
               Trunc(step.timestamp as real + step.duration * 1000.0), attachments)
  }

  /** A step window starts at the step's timestamp and lasts its duration,
      cut to whole milliseconds. */
  lemma StepWindow(step: TestStep, attachmentId: string)
    requires step.timestamp >= 0 && step.duration >= 0.0
    ensures AllureStepOf(step, attachmentId).stop == step.timestamp + (step.duration * 1000.0).Floor
    ensures AllureStepOf(step, attachmentId).start <= AllureStepOf(step, attachmentId).stop
  {
    var x := step.duration * 1000.0;
    assert (step.timestamp as real + x).Floor == step.timestamp + x.Floor;
  }

  datatype StatusDetails = StatusDetails(message: string, trace: string)

  datatype AllureResult = AllureResult(
    uuid: string,
    name: string,
    fullName: string,
    description: string,
    status: string,
    start: int,
    stop: int,
    labels: seq<Label>,
    steps: seq<AllureStep>,
    statusDetails: Option<StatusDetails>)

  /** The Allure record of one result before its steps are added. */
  function AllureHeader(test: TestResult, uuid: string): (r: AllureResult)
    ensures r.uuid == uuid && r.steps == []
    ensures r.name == test.testName && r.description == test.testDescription
    ensures r.start == test.startTime && r.stop == test.endTime
    ensures r.statusDetails.Some? <==> test.errorMessage.Some? && test.errorMessage.value != []
    ensures r.statusDetails.Some? ==> r.statusDetails.value == StatusDetails(test.errorMessage.value, test.errorMessage.value)
    ensures r.status == AllureStatus(test.status) && r.labels == Labels(test)
    ensures r.fullName == test.testName + "#" + test.testId
  {
    AllureResult(uuid, test.testName, test.testName + "#" + test.testId, test.testDescription,
                 AllureStatus(test.status), test.startTime, test.endTime, Labels(test), [],
                 if test.errorMessage.Some? && test.errorMessage.value != [] then
                   Some(StatusDetails(test.errorMessage.value, test.errorMessage.value))
                 else None)
  }

  /** The inner loop of `generate_allure_report`: one Allure step per step, in
      order; `attachmentIds[k]` is the id drawn for step k. */
  method AllureSteps(steps: seq<TestStep>, attachmentIds: seq<string>) returns (out: seq<AllureStep>)
    requires |attachmentIds| == |steps|
    ensures |out| == |steps|
    ensures forall k :: 0 <= k < |steps| ==> out[k] == AllureStepOf(steps[k], attachmentIds[k])
  {
    out := [];
    for k := 0 to |steps|
      invariant |out| == k
      invariant forall j :: 0 <= j < k ==> out[j] == AllureStepOf(steps[j], attachmentIds[j])
    {
      out := out + [AllureStepOf(steps[k], attachmentIds[k])];
    }
  }

  /** `generate_allure_report` without the file writing: one record per
      result, in order. `uuids[i]` is the id drawn for result i and
      `attachmentIds[i][k]` the one for step k of result i. */
  method GenerateAllureReport(results: seq<TestResult>, uuids: seq<string>, attachmentIds: seq<seq<string>>)
    returns (out: seq<AllureResult>)
    requires |uuids| == |results| && |attachmentIds| == |results|
    requires forall i :: 0 <= i < |results| ==> |attachmentIds[i]| == |results[i].steps|
    ensures |out| == |results|
    ensures forall i :: 0 <= i < |results| ==>
              && out[i] == AllureHeader(results[i], uuids[i]).(steps := out[i].steps)
              && |out[i].steps| == |results[i].steps|
              && (forall k :: 0 <= k < |results[i].steps| ==>
                    out[i].steps[k] == AllureStepOf(results[i].steps[k], attachmentIds[i][k]))
  {
    out := [];
    for i := 0 to |results|
      invariant |out| == i
      invariant forall j :: 0 <= j < i ==>
                  && out[j] == AllureHeader(results[j], uuids[j]).(steps := out[j].steps)
                  && |out[j].steps| == |results[j].steps|
                  && (forall k :: 0 <= k < |results[j].steps| ==>
                        out[j].steps[k] == AllureStepOf(results[j].steps[k], attachmentIds[j][k]))
    {
      var header := AllureHeader(results[i], uuids[i]);
      var steps := AllureSteps(results[i].steps, attachmentIds[i]);
      out := out + [header.(steps := steps)];
    }
  }
}
