/**
 * `_parse_execution_result` and `_parse_step_details` of
 * core/strands_test_executor.py (dialect `Agent`) and
 * core/mock_strands_executor.py (dialect `Mock`): they read the transcript
 * and feed a `TestResultBuilder`, one `add_step` per non-blank block.
 * Both are proved against the pure grammar of module Transcript.
 *
 * Each new step reads the clock once; `clock(j)` is the reading taken for
 * the step that becomes the builder's step number j (counting from 0).
 */
module TranscriptParser {
  import opened Text
  import opened ReportModel
  import opened ResultBuilder
  import opened Transcript

  /** The step `add_step` records for a parsed block: no screenshot, stamped
      with the clock reading `time`. */
  function AsStep(p: ParsedStep, time: int): TestStep {
    TestStep(p.name, p.description, p.status, p.duration, None, p.errorMessage, time)
  }

  /** The steps recorded for `parsed` when the builder already holds `from`
      steps: step k reads the clock as step number `from + k`. */
  function AsSteps(parsed: seq<ParsedStep>, clock: int -> int, from: nat): (r: seq<TestStep>)
    ensures |r| == |parsed|
  {
    seq(|parsed|, k requires 0 <= k < |parsed| => AsStep(parsed[k], clock(from + k)))
  }

  lemma AsStepsAppend(a: seq<ParsedStep>, b: seq<ParsedStep>, clock: int -> int, from: nat)
    ensures AsSteps(a + b, clock, from) == AsSteps(a, clock, from) + AsSteps(b, clock, from + |a|)
  {
    var whole, left, right := AsSteps(a + b, clock, from), AsSteps(a, clock, from), AsSteps(b, clock, from + |a|);
    assert forall k :: 0 <= k < |whole| ==> whole[k] == (left + right)[k];
  }

  function ParsedStatuses(parsed: seq<ParsedStep>): (r: seq<string>)
    ensures |r| == |parsed|
  {
    if parsed == [] then [] else ParsedStatuses(parsed[..|parsed| - 1]) + [parsed[|parsed| - 1].status]
  }

  lemma {:induction false} StatusesOfAsSteps(parsed: seq<ParsedStep>, clock: int -> int, from: nat)
    ensures StatusesOf(AsSteps(parsed, clock, from)) == ParsedStatuses(parsed)
  {
    if parsed != [] {
      StatusesOfAsSteps(parsed[..|parsed| - 1], clock, from);
      var r := AsSteps(parsed, clock, from);
      assert r[..|r| - 1] == AsSteps(parsed[..|parsed| - 1], clock, from);
    }
  }

  lemma FreshStatus(before: seq<TestStep>, after: seq<TestStep>, parsed: seq<ParsedStep>, clock: int -> int)
    requires after == before + AsSteps(parsed, clock, |before|)
    ensures before == [] ==> StepsStatus(after) == OverallStatus(ParsedStatuses(parsed))
  {
    if before == [] {
      assert after == AsSteps(parsed, clock, 0);
      StatusesOfAsSteps(parsed, clock, 0);
      StepsStatusIsOverall(after);
    }
  }

  /** Records one parsed step. */
  method AddParsed(b: TestResultBuilder, p: ParsedStep, clock: int -> int)
    requires b.Valid()
    modifies b
    ensures b.Valid()
    ensures b.steps == old(b.steps) + AsSteps([p], clock, |old(b.steps)|)
    ensures b.tags == old(b.tags) && b.errorMessage == old(b.errorMessage)
  {
    b.AddStep(p.name, p.description, clock(|b.steps|), p.duration, p.status, None, p.errorMessage);
  }

  /** The body of the block loop: each field starts at its default and is
      overwritten by its pattern's capture. */
  method ParseOneBlock(block: string, d: Dialect) returns (parsed: ParsedStep)
    ensures parsed == ParseBlock(block, d)
  {
    var stepName := UNKNOWN_STEP;
    var stepStatus := PASSED;
    var stepDuration := 0.0;
    var stepDescription := "";
    var errorMessage: Option<string> := None;

    var nameMatch := Find(StepName, block);
    if nameMatch.Some? {
      stepName := nameMatch.value;
    }
    assert stepName == ParseBlock(block, d).name;
    var statusMatch := Find(StepStatus, block);
    if statusMatch.Some? {
      var statusText := ToLower(statusMatch.value);
      stepStatus := if statusText in [PASSED, FAILED, SKIPPED] then statusText else PASSED;
    }
    assert stepStatus == BlockStatus(block);
    var timeMatch := Find(StepTime, block);
    if timeMatch.Some? {
      FoundTimeIsNumber(block);
      var value := ParseFloat(timeMatch.value);
      stepDuration := if value.Some? then value.value else 0.0;
    }
    assert stepDuration == BlockDuration(block);
    var descMatch := Find(Description, block);
    var toolMatch := if d == Agent then Find(Tool, block) else None;
    if descMatch.Some? {
      stepDescription := descMatch.value;
    }
    if toolMatch.Some? {
      stepDescription := stepDescription + " (使用工具: " + toolMatch.value + ")";
    }
    assert stepDescription == BlockDescription(block, d);
    var errorMatch := Find(ErrorInfo, block);
    if errorMatch.Some? {
      var errorText := errorMatch.value;
      if errorText != [] && errorText != NO_ERROR {
        errorMessage := Some(errorText);
      }
    }
    parsed := ParsedStep(stepName, stepStatus, stepDuration, stepDescription, errorMessage);
  }

  /** `_parse_step_details`: one default step when there is no step region,
      otherwise one step per non-blank block, in block order. */
  method ParseStepDetails(raw: string, b: TestResultBuilder, d: Dialect, clock: int -> int)
    requires b.Valid()
    modifies b
    ensures b.Valid()
    ensures b.steps == old(b.steps) + AsSteps(StepDetails(raw, d), clock, |old(b.steps)|)
    ensures b.tags == old(b.tags) && b.errorMessage == old(b.errorMessage)
  {
    var stepsMatch := StepsRegion(raw);
    if stepsMatch.None? {
      AddParsed(b, NoRegionStep(d), clock);
      return;
    }
    var stepBlocks := SplitDashes(stepsMatch.value);
    ParseBlocks(stepBlocks, b, d, clock);
  }

  /** One turn of the block loop: a piece that is blank after stripping is
      skipped, any other adds the step parsed from it. */
  method ParsePiece(piece: string, b: TestResultBuilder, d: Dialect, clock: int -> int)
    requires b.Valid()
    modifies b
    ensures b.Valid()
    ensures b.steps == old(b.steps) + AsSteps(PieceSteps(piece, d), clock, |old(b.steps)|)
    ensures b.tags == old(b.tags) && b.errorMessage == old(b.errorMessage)
  {
    var block := Trim(piece);
    if block != [] {
      var parsed := ParseOneBlock(block, d);
      AddParsed(b, parsed, clock);
    } else {
      assert b.steps + AsSteps([], clock, |b.steps|) == b.steps;
    }
  }

  lemma BlockStepsPrefix(pieces: seq<string>, i: nat, d: Dialect)
    requires i < |pieces|
    ensures BlockSteps(pieces[..i + 1], d) == BlockSteps(pieces[..i], d) + PieceSteps(pieces[i], d)
  {
    assert pieces[..i + 1][..i] == pieces[..i];
  }

  /** Recording `init` and then `more` records `init + more`, each step with
      its own clock reading. */
  lemma StampedSnoc(start: seq<TestStep>, before: seq<TestStep>, after: seq<TestStep>,
                    init: seq<ParsedStep>, more: seq<ParsedStep>, clock: int -> int)
    requires before == start + AsSteps(init, clock, |start|)
    requires after == before + AsSteps(more, clock, |before|)
    ensures after == start + AsSteps(init + more, clock, |start|)
  {
    AsStepsAppend(init, more, clock, |start|);
    ConcatAssoc(start, AsSteps(init, clock, |start|), AsSteps(more, clock, |before|));
  }

  /** One turn of the block loop keeps the loop invariant. */
  lemma LoopStep(start: seq<TestStep>, before: seq<TestStep>, after: seq<TestStep>,
                 pieces: seq<string>, i: nat, d: Dialect, clock: int -> int)
    requires i < |pieces|
    requires before == start + AsSteps(BlockSteps(pieces[..i], d), clock, |start|)
    requires after == before + AsSteps(PieceSteps(pieces[i], d), clock, |before|)
    ensures after == start + AsSteps(BlockSteps(pieces[..i + 1], d), clock, |start|)
  {
    BlockStepsPrefix(pieces, i, d);
    StampedSnoc(start, before, after, BlockSteps(pieces[..i], d), PieceSteps(pieces[i], d), clock);
  }

  lemma BlockStepsWhole(pieces: seq<string>, d: Dialect)
    ensures BlockSteps(pieces[..|pieces|], d) == BlockSteps(pieces, d)
  {
    assert pieces[..|pieces|] == pieces;
  }

  /** The loop of `_parse_step_details` over the split region. */
  method ParseBlocks(stepBlocks: seq<string>, b: TestResultBuilder, d: Dialect, clock: int -> int)
    requires b.Valid()
    modifies b
    ensures b.Valid()
    ensures b.steps == old(b.steps) + AsSteps(BlockSteps(stepBlocks, d), clock, |old(b.steps)|)
    ensures b.tags == old(b.tags) && b.errorMessage == old(b.errorMessage)
  {
    if stepBlocks == [] {
      assert b.steps == old(b.steps) + [];
      return;
    }
    var i := 0;
    while i < |stepBlocks|
      invariant 0 <= i <= |stepBlocks|
      invariant b.Valid()
      invariant b.steps == old(b.steps) + AsSteps(BlockSteps(stepBlocks[..i], d), clock, |old(b.steps)|)
      invariant i == |stepBlocks| ==> b.steps == old(b.steps) + AsSteps(BlockSteps(stepBlocks, d), clock, |old(b.steps)|)
      invariant b.tags == old(b.tags) && b.errorMessage == old(b.errorMessage)
    {
      ghost var before := b.steps;
      ParsePiece(stepBlocks[i], b, d, clock);
      LoopStep(old(b.steps), before, b.steps, stepBlocks, i, d, clock);
      if i + 1 == |stepBlocks| {
        BlockStepsWhole(stepBlocks, d);
      }
      i := i + 1;
    }
  }

  /** The status a fresh builder ends with after a transcript was parsed: a
      FAILED or ERROR marker without the PASSED marker fails the run,
      otherwise the steps decide. */
  function TranscriptStatus(raw: string, d: Dialect): string {
    if MarksFailure(raw) then FAILED else OverallStatus(ParsedStatuses(StepDetails(raw, d)))
  }

  lemma {:induction false} ParsedStatusesAt(parsed: seq<ParsedStep>)
    ensures forall k :: 0 <= k < |parsed| ==> ParsedStatuses(parsed)[k] == parsed[k].status
  {
    if parsed != [] {
      ParsedStatusesAt(parsed[..|parsed| - 1]);
    }
  }

  /** A parsed transcript leaves a fresh run failed exactly when its status
      line reports failure without the PASSED marker, or one of its steps
      failed. */
  lemma TranscriptFailsIff(raw: string, d: Dialect)
    ensures TranscriptStatus(raw, d) == FAILED <==>
              MarksFailure(raw) || exists k :: 0 <= k < |StepDetails(raw, d)| && StepDetails(raw, d)[k].status == FAILED
  {
    var parsed := StepDetails(raw, d);
    ParsedStatusesAt(parsed);
    if FAILED in ParsedStatuses(parsed) {
      var k :| 0 <= k < |parsed| && ParsedStatuses(parsed)[k] == FAILED;
    }
  }

  /** `_parse_execution_result` (its `try` branch): the overall-status marker
      check, then the step details. */
  method ParseExecutionResult(raw: string, b: TestResultBuilder, d: Dialect, clock: int -> int)
    requires b.Valid()
    modifies b
    ensures b.Valid()
    ensures b.errorMessage == if MarksFailure(raw) then Some(PARSE_FAILURE_MESSAGE) else old(b.errorMessage)
    ensures b.steps == old(b.steps) + AsSteps(StepDetails(raw, d), clock, |old(b.steps)|)
    ensures b.tags == old(b.tags)
    ensures old(b.steps) == [] && old(b.errorMessage) == None ==> b.status == TranscriptStatus(raw, d)
  {
    if Contains(raw, PASS_MARKER) {
      // the run stays as it is
    } else if Contains(raw, FAIL_MARKER) || Contains(raw, ERROR_MARKER) {
      b.SetError(PARSE_FAILURE_MESSAGE);
    }
    ghost var oldSteps := b.steps;
    ParseStepDetails(raw, b, d, clock);
    FreshStatus(oldSteps, b.steps, StepDetails(raw, d), clock);
  }

  /** The `except` branch of `_parse_execution_result`: a single generic step.
      No operation of this model raises, so nothing calls it. */
  method RecoverFromParseError(raw: string, b: TestResultBuilder, d: Dialect, clock: int -> int)
    requires b.Valid()
    modifies b
    ensures b.Valid()
    ensures b.steps == old(b.steps) + AsSteps([ParseErrorStep(raw, d)], clock, |old(b.steps)|)
    ensures b.tags == old(b.tags) && b.errorMessage == old(b.errorMessage)
  {
    var status := PASSED;
    var description := "自动化测试执行";
    var duration := 1.0;
    if d == Agent {
      status := if exists w :: w in FAILURE_WORDS && Contains(ToLower(raw), w) then FAILED else PASSED;
      description := "使用 MCP Playwright 执行自动化测试";
      duration := 0.0;
    }
    AddParsed(b, ParsedStep(FALLBACK_NAME, status, duration, description, None), clock);
  }
}
