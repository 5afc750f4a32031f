/**
 * `TestResultBuilder` of core/report_generator.py: the mutable accumulator
 * an executor fills while a test runs and finally turns into a
 * `TestResult`. The clock reads of the source (`datetime.now()` at
 * construction, per step and in `build`) are parameters.
 */
module ResultBuilder {
  import opened Text
  import opened ReportModel

  class TestResultBuilder {
    const testId: string
    const testName: string
    const testDescription: string
    const startTime: int
    var steps: seq<TestStep>
    var tags: seq<string>
    var errorMessage: Option<string>
    var status: string

    /** The status is always the one the derivation rule gives: failed once
        an error was set, otherwise decided by the steps; tags never repeat. */
    ghost predicate Valid()
      reads this
    {
      && status == (if errorMessage.Some? then FAILED else StepsStatus(steps))
      && NoDuplicates(tags)
    }

    constructor (testId: string, testName: string, startTime: int, testDescription: string := "")
      ensures Valid()
      ensures this.testId == testId && this.testName == testName
      ensures this.testDescription == testDescription && this.startTime == startTime
      ensures status == PASSED && steps == [] && tags == [] && errorMessage == None
    {
      this.testId := testId;
      this.testName := testName;
      this.testDescription := testDescription;
      this.startTime := startTime;
      steps := [];
      tags := [];
      errorMessage := None;
      status := PASSED;
    }

    method AddStep(name: string, description: string, timestamp: int, duration: real := 0.0,
                   stepStatus: string := PASSED, screenshot: Option<string> := None,
                   stepError: Option<string> := None)
      requires Valid()
      modifies this
      ensures Valid()
      ensures steps == old(steps) + [TestStep(name, description, stepStatus, duration, screenshot, stepError, timestamp)]
      ensures status == NextStatus(old(status), stepStatus)
      ensures tags == old(tags) && errorMessage == old(errorMessage)
    {
      var step := TestStep(name, description, stepStatus, duration, screenshot, stepError, timestamp);
      assert (steps + [step])[..|steps|] == steps;
      steps := steps + [step];
      if stepStatus == FAILED {
        status := FAILED;
      } else if stepStatus == SKIPPED && status != FAILED {
        status := SKIPPED;
      }
    }

    method AddTag(tag: string)
      requires Valid()
      modifies this
      ensures Valid()
      ensures tags == if tag in old(tags) then old(tags) else old(tags) + [tag]
      ensures steps == old(steps) && status == old(status) && errorMessage == old(errorMessage)
    {
      if tag !in tags {
        tags := tags + [tag];
      }
    }

    method SetError(message: string)
      requires Valid()
      modifies this
      ensures Valid()
      ensures errorMessage == Some(message) && status == FAILED
      ensures steps == old(steps) && tags == old(tags)
    {
      errorMessage := Some(message);
      status := FAILED;
    }

    /** `build()`; `endTime` is the clock read at the call. */
    method Build(endTime: int) returns (r: TestResult)
      requires Valid()
      ensures r.testId == testId && r.testName == testName && r.testDescription == testDescription
      ensures r.status == status && r.errorMessage == errorMessage
      ensures r.steps == steps && r.tags == tags
      ensures r.startTime == startTime && r.endTime == endTime
      ensures r.duration == (endTime - startTime) as real / 1000.0
      ensures r.status == (if r.errorMessage.Some? then FAILED else OverallStatus(StatusesOf(r.steps)))
      ensures NoDuplicates(r.tags)
    {
      StepsStatusIsOverall(steps);
      r := TestResult(testId, testName, testDescription, status, startTime, endTime,
                      (endTime - startTime) as real / 1000.0, steps, errorMessage, tags);
    }
  }
}
