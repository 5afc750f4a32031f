/**
 * The parts of the two executors of core/strands_test_executor.py and
 * core/mock_strands_executor.py that do not talk to an agent: seeding the
 * result builder with tags, and rendering a test case's expected results
 * and steps as the text of the instruction sent to the agent.
 */
module Executors {
  import opened Text
  import opened ReportModel
  import opened ResultBuilder
  import opened Transcript
  import opened TestCases

  // ---------------------------------------------------------------------
  // Tags

  /** `add_tag` applied to every tag of `added` in turn. */
  function AddTags(tags: seq<string>, added: seq<string>): seq<string> {
    if added == [] then tags
    else
      var before := AddTags(tags, added[..|added| - 1]);
      var tag := added[|added| - 1];
      if tag in before then before else before + [tag]
  }

  /** Adding tags keeps the earlier ones in place, adds exactly the new ones
      and never repeats a tag. */
  lemma {:induction false} AddTagsSpec(tags: seq<string>, added: seq<string>)
    requires NoDuplicates(tags)
    ensures NoDuplicates(AddTags(tags, added))
    ensures |tags| <= |AddTags(tags, added)| && AddTags(tags, added)[..|tags|] == tags
    ensures forall t :: t in AddTags(tags, added) <==> t in tags || t in added
  {
    if added != [] {
      var init := added[..|added| - 1];
      AddTagsSpec(tags, init);
      assert added == init + [added[|added| - 1]];
    }
  }

  /** Tags that are distinct and new are added as they are, in order. */
  lemma {:induction false} AddTagsOfFresh(tags: seq<string>, added: seq<string>)
    requires NoDuplicates(tags + added)
    ensures AddTags(tags, added) == tags + added
  {
    if added != [] {
      var init := added[..|added| - 1];
      var last := added[|added| - 1];
      assert tags + added == (tags + init) + [last];
      assert NoDuplicates(tags + init) by {
        forall i, j | 0 <= i < j < |tags + init|
          ensures (tags + init)[i] != (tags + init)[j]
        {
          assert (tags + init)[i] == (tags + added)[i];
          assert (tags + init)[j] == (tags + added)[j];
        }
      }
      AddTagsOfFresh(tags, init);
      assert last !in tags + init by {
        forall i | 0 <= i < |tags + init| ensures (tags + init)[i] != last {
          assert (tags + init)[i] == (tags + added)[i];
          assert last == (tags + added)[|tags + added| - 1];
        }
      }
    }
  }

  /** The tags every result of a runner starts with. */
  function RunnerTags(d: Dialect): (r: seq<string>)
    ensures NoDuplicates(r)
  {
    ["automated", "frontend", "strands", if d.Agent? then "playwright" else "mock"]
  }

  /** The start of `execute_test_case`: a builder for the case, tagged with
      the runner's tags and then the case's own (`None` when the case has no
      `tags` key). `startTime` is the clock reading of the builder. */
  method StartResult(id: string, name: string, description: Option<string>, caseTags: Option<seq<string>>,
                     d: Dialect, startTime: int)
    returns (b: TestResultBuilder)
    ensures fresh(b) && b.Valid()
    ensures b.testId == id && b.testName == name && b.testDescription == description.GetOr("")
    ensures b.steps == [] && b.errorMessage == None && b.status == PASSED
    ensures b.tags == AddTags(RunnerTags(d), caseTags.GetOr([]))
  {
    b := new TestResultBuilder(id, name, startTime, description.GetOr(""));
    var seeds := RunnerTags(d);
    b.AddTag(seeds[0]);
    b.AddTag(seeds[1]);
    b.AddTag(seeds[2]);
    b.AddTag(seeds[3]);
    assert b.tags == seeds;
    if caseTags.Some? {
      var extra := caseTags.value;
      var i := 0;
      while i < |extra|
        invariant 0 <= i <= |extra|
        invariant b.Valid() && b.steps == [] && b.errorMessage == None && b.status == PASSED
        invariant b.tags == AddTags(seeds, extra[..i])
        invariant b.testId == id && b.testName == name && b.testDescription == description.GetOr("")
      {
        assert extra[..i + 1][..i] == extra[..i];
        b.AddTag(extra[i]);
        i := i + 1;
      }
      assert extra[..i] == extra;
    }
  }

  /** The runner's tags come first, each once, followed by those of the
      case's tags that are new; a case whose tags are distinct and differ
      from the runner's keeps them all, in order. */
  lemma SeededTags(d: Dialect, caseTags: seq<string>)
    ensures NoDuplicates(AddTags(RunnerTags(d), caseTags))
    ensures 4 <= |AddTags(RunnerTags(d), caseTags)| && AddTags(RunnerTags(d), caseTags)[..4] == RunnerTags(d)
    ensures forall t :: t in AddTags(RunnerTags(d), caseTags) <==> t in RunnerTags(d) || t in caseTags
    ensures NoDuplicates(RunnerTags(d) + caseTags) ==>
              AddTags(RunnerTags(d), caseTags) == RunnerTags(d) + caseTags
  {
    AddTagsSpec(RunnerTags(d), caseTags);
    if NoDuplicates(RunnerTags(d) + caseTags) {
      AddTagsOfFresh(RunnerTags(d), caseTags);
    }
  }

  // ---------------------------------------------------------------------
  // Expected results

  /** The `expected_results` entry of a case: a list, or any other value,
      given by its text (`str(value)`; the empty text stands for a falsy one). */
  datatype ExpectedResults = Listed(items: seq<string>) | Scalar(text: string)

  const NO_EXPECTED := "无特定预期结果"

  function Bullets(items: seq<string>): (r: seq<string>)
    ensures |r| == |items|
    ensures forall k :: 0 <= k < |items| ==> r[k] == "- " + items[k]
  {
    seq(|items|, k requires 0 <= k < |items| => "- " + items[k])
  }

  /** `_format_expected_results` */
  function FormatExpectedResults(e: ExpectedResults): (r: string)
    ensures e == Listed([]) || e == Scalar([]) ==> r == NO_EXPECTED
    ensures e.Listed? && |e.items| == 1 ==> r == e.items[0]
    ensures e.Scalar? && e.text != [] ==> r == e.text
  {
    match e
    case Listed(items) =>
      if items == [] then NO_EXPECTED
      else if |items| == 1 then items[0]
      else Join(Bullets(items), "\n")
    case Scalar(text) => if text == [] then NO_EXPECTED else text
  }

  /** A list of two or more single-line results comes out as one `- item`
      line per result, in order. */
  lemma ExpectedResultLines(items: seq<string>)
    requires |items| >= 2
    requires forall k :: 0 <= k < |items| ==> NoNewline(items[k])
    ensures SplitLines(FormatExpectedResults(Listed(items))) == Bullets(items)
  {
    var lines := Bullets(items);
    forall k | 0 <= k < |lines| ensures NoNewline(lines[k]) {
      assert lines[k] == "- " + items[k];
      assert forall i :: 0 <= i < |items[k]| ==> lines[k][i + 2] == items[k][i];
    }
    SplitJoinedLines(lines);
  }

  // ---------------------------------------------------------------------
  // Steps

  const NO_STEPS := "无具体步骤"

  /** Line `i` (counting from 1) of the formatted steps. */
  function StepLine(i: nat, step: CaseStep): string {
    NatToString(i) + ". " + StepText(step)
  }

  function StepLines(steps: seq<CaseStep>): (r: seq<string>)
    ensures |r| == |steps|
  {
    seq(|steps|, k requires 0 <= k < |steps| => StepLine(k + 1, steps[k]))
  }

  /** `_format_test_steps` */
  method FormatTestSteps(steps: seq<CaseStep>) returns (r: string)
    ensures steps == [] ==> r == NO_STEPS
    ensures steps != [] ==> r == Join(StepLines(steps), "\n")
  {
    if steps == [] {
      return NO_STEPS;
    }
    var formatted: seq<string> := [];
    var i := 0;
    while i < |steps|
      invariant 0 <= i <= |steps|
      invariant formatted == StepLines(steps[..i])
    {
      var line: string;
      match steps[i] {
        case Action(action, data) =>
          if data != [] {
            line := NatToString(i + 1) + ". " + action.GetOr(UNKNOWN_ACTION) + ": " + data;
          } else {
            line := NatToString(i + 1) + ". " + action.GetOr(UNKNOWN_ACTION);
          }
        case Plain(text) =>
          line := NatToString(i + 1) + ". " + text;
      }
      assert line == StepLine(i + 1, steps[i]);
      assert StepLines(steps[..i + 1]) == StepLines(steps[..i]) + [line];
      formatted := formatted + [line];
      i := i + 1;
    }
    assert steps[..i] == steps;
    r := Join(formatted, "\n");
  }

  /** When no step's text holds a line break, the formatted steps split
      back into one line per step, and line `k` starts with the number
      `k + 1`, a dot and a space, followed by the step's text. */
  lemma StepLinesRoundTrip(steps: seq<CaseStep>)
    requires steps != []
    requires forall k :: 0 <= k < |steps| ==> NoNewline(StepText(steps[k]))
    ensures |SplitLines(Join(StepLines(steps), "\n"))| == |steps|
    ensures forall k :: 0 <= k < |steps| ==>
      var line := SplitLines(Join(StepLines(steps), "\n"))[k];
      var n := NatToString(k + 1);
      && |n| + 2 <= |line| && line[|n|..|n| + 2] == ". "
      && AllDigits(line[..|n|]) && DigitsValue(line[..|n|]) == k + 1
      && line[|n| + 2..] == StepText(steps[k])
  {
    var lines := StepLines(steps);
    forall k | 0 <= k < |lines| ensures NoNewline(lines[k]) {
      var n := NatToString(k + 1);
      assert lines[k] == n + ". " + StepText(steps[k]);
      forall i | 0 <= i < |lines[k]| ensures lines[k][i] != '\n' {
        if i < |n| {
          assert lines[k][i] == n[i];
        } else if i >= |n| + 2 {
          assert lines[k][i] == StepText(steps[k])[i - |n| - 2];
        }
      }
    }
    SplitJoinedLines(lines);
    forall k | 0 <= k < |steps|
      ensures var line := lines[k];
        var n := NatToString(k + 1);
        && |n| + 2 <= |line| && line[|n|..|n| + 2] == ". "
        && AllDigits(line[..|n|]) && DigitsValue(line[..|n|]) == k + 1
        && line[|n| + 2..] == StepText(steps[k])
    {
      var n := NatToString(k + 1);
      assert lines[k] == n + ". " + StepText(steps[k]);
      assert lines[k][..|n|] == n;
      NatToStringRoundTrip(k + 1);
    }
  }
}
