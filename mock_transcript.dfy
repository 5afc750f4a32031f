/**
 * `_generate_mock_result` of core/mock_strands_executor.py: the transcript
 * the mock executor makes up for a test case instead of asking an agent,
 * and the proof that its own parser reads it back as one passed step per
 * test-case step.
 */
module MockTranscript {
  import opened Text
  import opened ReportModel
  import opened Transcript
  import opened TranscriptParser
  import opened TestCases
  import opened Executors

  /** The lines before the step region; the second is the status line the
      parser looks for (`PASS_MARKER`). */
  const REPORT_TITLE := "=== 测试执行报告 ===\n"
  const REPORT_SUMMARY := "\n总执行时间: 2.35秒\n执行摘要: 成功执行了所有测试步骤，达到了预期结果\n\n"
  const REPORT_HEAD := REPORT_TITLE + PASS_MARKER + REPORT_SUMMARY
  const STATUS_LINE := "状态: PASSED"
  const ERROR_LINE := "错误信息: 无"
  const ACHIEVED := "达到预期结果"

  /** `round(0.5 + i * 0.3, 2)` as Python prints it: the value has one
      decimal, so it is printed with exactly one. */
  function TimeText(i: nat): string {
    NatToString((5 + 3 * i) / 10) + "." + [DigitChar((5 + 3 * i) % 10)]
  }

  /** The start of the first line of block `i`. */
  function Head(i: nat): string {
    "步骤" + NatToString(i) + ": "
  }

  const TIME_PREFIX := "\n执行时间: "
  const TIME_SUFFIX := "秒\n描述: 使用自动化工具成功执行了该步骤\n结果: 操作成功完成，页面响应正常\n"

  /** The lines of block `i` between the status line and the error line. */
  function After(i: nat): string {
    TIME_PREFIX + TimeText(i) + TIME_SUFFIX
  }

  function StatusPart(i: nat): string {
    STATUS_LINE + After(i) + ERROR_LINE
  }

  /** Block `i` for a step shown as `name`, without the blank around it. */
  function Core(i: nat, name: string): string {
    Head(i) + name + ("\n" + StatusPart(i))
  }

  /** What the loop appends for step `i`. */
  function StepBlock(i: nat, name: string): string {
    "\n" + Core(i, name) + "\n" + DASHES
  }

  /** The blocks of the steps shown as `names`, numbered from `first`. */
  function StepBlocks(names: seq<string>, first: nat): (r: seq<string>)
    ensures |r| == |names|
  {
    seq(|names|, k requires 0 <= k < |names| => StepBlock(first + k, names[k]))
  }

  /** `expected_results` is truthy. */
  predicate HasExpected(e: ExpectedResults) {
    match e
    case Listed(items) => items != []
    case Scalar(text) => text != []
  }

  /** Everything after the end marker of the step region. */
  function Closing(e: ExpectedResults): string {
    "\n预期结果验证: PASSED\n验证详情: " + (if HasExpected(e) then ACHIEVED else NO_EXPECTED)
    + "，所有测试步骤都成功执行\n\n=== 执行总结 ===\n本次测试执行非常成功。所有步骤都按预期完成，没有遇到任何错误。\n页面响应良好，用户交互流畅。测试结果表明功能运行正常。\n"
  }

  function Names(steps: seq<CaseStep>): (r: seq<string>)
    ensures |r| == |steps|
  {
    seq(|steps|, k requires 0 <= k < |steps| => StepText(steps[k]))
  }

  /** The whole mock transcript of a test case with `steps` and `expected`. */
  function MockText(steps: seq<CaseStep>, e: ExpectedResults): string {
    REPORT_HEAD + STEPS_MARKER + Concat(StepBlocks(Names(steps), 1)) + ("\n\n" + VERIFY_MARKER + Closing(e))
  }

  /** `_generate_mock_result` */
  method GenerateMockResult(steps: seq<CaseStep>, expected: ExpectedResults) returns (result: string)
    ensures result == MockText(steps, expected)
  {
    result := AppendStepBlocks(REPORT_HEAD + STEPS_MARKER, steps);
    result := result + ("\n\n" + VERIFY_MARKER + Closing(expected));
  }

  /** The loop of `_generate_mock_result` that appends one block per step. */
  method AppendStepBlocks(head: string, steps: seq<CaseStep>) returns (result: string)
    ensures result == head + Concat(StepBlocks(Names(steps), 1))
  {
    result := head;
    ghost var blocks := StepBlocks(Names(steps), 1);
    var i := 1;
    while i <= |steps|
      invariant 1 <= i <= |steps| + 1
      invariant result == head + Concat(blocks[..i - 1])
    {
      var stepName := StepText(steps[i - 1]);
      assert blocks[i - 1] == StepBlock(i, stepName);
      ConcatPrefix(blocks, i);
      ConcatAssoc(head, Concat(blocks[..i - 1]), blocks[i - 1]);
      result := result + StepBlock(i, stepName);
      i := i + 1;
    }
    assert blocks[..i - 1] == blocks;
  }
}
