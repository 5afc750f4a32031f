/**
 * The result model of core/report_generator.py: one executed step
 * (`TestStep`), one whole run (`TestResult`) and the rule by which the
 * statuses of the steps decide the status of the run.
 *
 * Statuses are the strings the source uses ("passed", "failed", "skipped");
 * `add_step` accepts any string, so any other string is a legal status too.
 * Timestamps are milliseconds on an abstract clock; step durations are
 * seconds.
 */
module ReportModel {
  import opened Text

  const PASSED := "passed"
  const FAILED := "failed"
  const SKIPPED := "skipped"

  datatype TestStep = TestStep(
    name: string,
    description: string,
    status: string,
    duration: real,
    screenshot: Option<string>,
    errorMessage: Option<string>,
    timestamp: int)

  datatype TestResult = TestResult(
    testId: string,
    testName: string,
    testDescription: string,
    status: string,
    startTime: int,
    endTime: int,
    duration: real,
    steps: seq<TestStep>,
    errorMessage: Option<string>,
    tags: seq<string>)

  /** The statuses of the steps, in step order. */
  function StatusesOf(steps: seq<TestStep>): (r: seq<string>)
    ensures |r| == |steps|
  {
    if steps == [] then [] else StatusesOf(steps[..|steps| - 1]) + [steps[|steps| - 1].status]
  }

  /** The update `add_step` applies to the overall status: a failed step
      fails the run, a skipped step marks it skipped unless it has already
      failed, any other step leaves it as it was. */
  function NextStatus(current: string, stepStatus: string): string {
    if stepStatus == FAILED then FAILED
    else if stepStatus == SKIPPED && current != FAILED then SKIPPED
    else current
  }

  /** The overall status after `add_step` was called for each step in
      turn, starting from "passed". */
  function StepsStatus(steps: seq<TestStep>): string {
    if steps == [] then PASSED
    else NextStatus(StepsStatus(steps[..|steps| - 1]), steps[|steps| - 1].status)
  }

  /** The declarative reading of the derivation rule: failed if any step
      failed, otherwise skipped if any step was skipped, otherwise passed. */
  function OverallStatus(statuses: seq<string>): string {
    if FAILED in statuses then FAILED
    else if SKIPPED in statuses then SKIPPED
    else PASSED
  }

  /** Adding one step moves the declarative status exactly as `add_step` does. */
  lemma OverallStatusSnoc(statuses: seq<string>, s: string)
    ensures OverallStatus(statuses + [s]) == NextStatus(OverallStatus(statuses), s)
  {
    assert forall x :: x in statuses + [s] <==> x in statuses || x == s;
  }

  /** The step-by-step rule of `add_step` computes the declarative status:
      failed if any step failed, else skipped if any was skipped, else passed. */
  lemma {:induction false} StepsStatusIsOverall(steps: seq<TestStep>)
    ensures StepsStatus(steps) == OverallStatus(StatusesOf(steps))
  {
    if steps != [] {
      var init, last := steps[..|steps| - 1], steps[|steps| - 1];
      StepsStatusIsOverall(init);
      OverallStatusSnoc(StatusesOf(init), last.status);
    }
  }

  /** Once a run has failed, no later step changes its status. */
  lemma {:induction false} FailedIsSticky(steps: seq<TestStep>, later: seq<TestStep>)
    requires StepsStatus(steps) == FAILED
    ensures StepsStatus(steps + later) == FAILED
    decreases |later|
  {
    if later == [] {
      assert steps + later == steps;
    } else {
      var init := later[..|later| - 1];
      FailedIsSticky(steps, init);
      assert (steps + later)[..|steps + later| - 1] == steps + init;
    }
  }

  /** Passed steps never change the status of a run. */
  lemma {:induction false} PassedStepsKeepStatus(steps: seq<TestStep>, later: seq<TestStep>)
    requires forall k :: 0 <= k < |later| ==> later[k].status == PASSED
    ensures StepsStatus(steps + later) == StepsStatus(steps)
    decreases |later|
  {
    if later == [] {
      assert steps + later == steps;
    } else {
      var init := later[..|later| - 1];
      PassedStepsKeepStatus(steps, init);
      assert (steps + later)[..|steps + later| - 1] == steps + init;
    }
  }
}
