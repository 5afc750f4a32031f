/**
 * The transcript grammar that `_parse_step_details` of
 * core/strands_test_executor.py and core/mock_strands_executor.py imposes
 * on the agent's free text, as pure functions:
 *
 *  - the step region is what `re.search` with
 *    `=== 步骤执行详情 ===(.*?)=== 最终验证 ===` (DOTALL) captures;
 *  - the region is cut with `re.split(r'---+', ...)`;
 *  - each stripped, non-empty block yields one step whose fields come from
 *    six label patterns, each with its default.
 *
 * Every regular expression is modelled by what its backtracking search
 * amounts to: the capture at the first index where the whole pattern
 * matches. `\s*` may run across line breaks, `.+` stops at a line break.
 */
module Transcript {
  import opened Text
  import opened ReportModel

  const STEPS_MARKER := "=== 步骤执行详情 ==="
  const VERIFY_MARKER := "=== 最终验证 ==="
  const DASHES := "---"

  /** The two dialects of the parser: the agent executor appends the tool
      label to the description, the mock executor never reads it; they also
      differ in their fallback steps. */
  datatype Dialect = Agent | Mock

  /** What one block contributes: the arguments of one `add_step` call. */
  datatype ParsedStep = ParsedStep(
    name: string,
    status: string,
    duration: real,
    description: string,
    errorMessage: Option<string>)

  // ---------------------------------------------------------------------
  // The step region

  /** The group captured by the region search, if the search matches:
      `Between` with the two markers. */
  function StepsRegion(raw: string): Option<string> {
    Between(raw, STEPS_MARKER, VERIFY_MARKER)
  }

  // ---------------------------------------------------------------------
  // Splitting on runs of dashes

  /** End of the run of dashes that starts at `i`. */
  function DashRunEnd(s: string, i: nat): (e: nat)
    requires i <= |s|
    ensures i <= e <= |s|
    ensures forall k :: i <= k < e ==> s[k] == '-'
    ensures e == |s| || s[e] != '-'
    decreases |s| - i
  {
    if i < |s| && s[i] == '-' then DashRunEnd(s, i + 1) else i
  }

  /** `re.split(r'---+', s)`: the separators are the maximal runs of three or
      more dashes; the pieces between them (possibly empty) are kept in
      order, and none of them holds three dashes in a row. */
  function SplitDashes(s: string): (r: seq<string>)
    ensures |r| >= 1
    ensures forall k, i :: 0 <= k < |r| ==> !OccursAt(r[k], DASHES, i)
    decreases |s|
  {
    match IndexFrom(s, DASHES, 0)
    case None => [s]
    case Some(j) =>
      var e := DashRunEnd(s, j);
      assert e >= j + 3 by {
        DashesAt(s, j);
      }
      var rest := SplitDashes(s[e..]);
      assert forall i :: !OccursAt(s[..j], DASHES, i) by {
        forall i: nat | OccursAt(s[..j], DASHES, i) ensures false {
          assert s[..j][i..i + 3] == s[i..i + 3];
          assert OccursAt(s, DASHES, i);
        }
      }
      [s[..j]] + rest
  }

  /** An occurrence of the separator is three dashes. */
  lemma DashesAt(s: string, j: nat)
    requires OccursAt(s, DASHES, j)
    ensures j + 3 <= |s| && s[j] == '-' && s[j + 1] == '-' && s[j + 2] == '-'
  {
    var w := s[j..j + 3];
    assert w == DASHES;
    assert w[0] == s[j] && w[1] == s[j + 1] && w[2] == s[j + 2];
  }

  // ---------------------------------------------------------------------
  // Label patterns

  /** The six field patterns of a block. */
  datatype Label = StepName | StepStatus | StepTime | Description | Tool | ErrorInfo

  /** The literal text each pattern starts with (for `StepName` the digits
      and the colon follow). */
  function LabelText(l: Label): string {
    match l
    case StepName => "步骤"
    case StepStatus => "状态:"
    case StepTime => "执行时间:"
    case Description => "描述:"
    case Tool => "使用工具:"
    case ErrorInfo => "错误信息:"
  }

  /** End of the whitespace run at `i` (`\s*`, greedy). */
  function SkipSpace(s: string, i: nat): (e: nat)
    requires i <= |s|
    ensures i <= e <= |s| && AllSpace(s[i..e])
    ensures e == |s| || !IsSpace(s[e])
    decreases |s| - i
  {
    if i < |s| && IsSpace(s[i]) then SkipSpace(s, i + 1) else i
  }

  /** End of the line that contains index `i` (where `.+` stops). */
  function LineEnd(s: string, i: nat): (e: nat)
    requires i <= |s|
    ensures i <= e <= |s| && NoNewline(s[i..e])
    ensures e == |s| || s[e] == '\n'
    decreases |s| - i
  {
    if i < |s| && s[i] != '\n' then LineEnd(s, i + 1) else i
  }

  /** Some character from `i` on is not a line feed (so `.+` can match). */
  function HasNonNewline(s: string, i: nat): (b: bool)
    requires i <= |s|
    ensures b <==> exists k :: i <= k < |s| && s[k] != '\n'
    decreases |s| - i
  {
    i < |s| && (s[i] != '\n' || HasNonNewline(s, i + 1))
  }

  /** End of the run of digits and dots at `i` (`[\d.]+`, greedy). */
  function NumberRunEnd(s: string, i: nat): (e: nat)
    requires i <= |s|
    ensures i <= e <= |s|
    ensures forall k :: i <= k < e ==> IsDigit(s[k]) || s[k] == '.'
    ensures e == |s| || !(IsDigit(s[e]) || s[e] == '.')
    decreases |s| - i
  {
    if i < |s| && (IsDigit(s[i]) || s[i] == '.') then NumberRunEnd(s, i + 1) else i
  }

  /** End of the run of digits at `i` (`\d+`, greedy). */
  function DigitRunEnd(s: string, i: nat): (e: nat)
    requires i <= |s|
    ensures i <= e <= |s| && AllDigits(s[i..e])
    ensures e == |s| || !IsDigit(s[e])
    decreases |s| - i
  {
    if i < |s| && IsDigit(s[i]) then DigitRunEnd(s, i + 1) else i
  }

  /** `\s*(.+)` tried at index `i`, the group then stripped. When the spaces
      run to the end of the text, `\s*` gives back characters until `.+`
      can take one that is not a line feed; what it takes is whitespace, so
      the stripped group is empty. */
  function ValueAt(s: string, i: nat): (r: Option<string>)
    requires i <= |s|
    ensures r.Some? ==> r.value == [] || (!IsSpace(r.value[0]) && !IsSpace(r.value[|r.value| - 1]))
  {
    var w := SkipSpace(s, i);
    if w < |s| then Some(Trim(s[w..LineEnd(s, w)]))
    else if HasNonNewline(s, i) then Some([])
    else None
  }

  /** `(PASSED|FAILED|SKIPPED)` tried at index `w`. */
  function StatusWordAt(s: string, w: nat): (r: Option<string>)
    ensures r.Some? ==> r.value in {"PASSED", "FAILED", "SKIPPED"}
  {
    if OccursAt(s, "PASSED", w) then Some("PASSED")
    else if OccursAt(s, "FAILED", w) then Some("FAILED")
    else if OccursAt(s, "SKIPPED", w) then Some("SKIPPED")
    else None
  }

  /** The capture of label `l`'s pattern when the search tries index `p`:
       - StepName:   `步骤\d+:\s*(.+)`
       - StepStatus: `状态:\s*(PASSED|FAILED|SKIPPED)`
       - StepTime:   `执行时间:\s*([\d.]+)秒`
       - Description, Tool, ErrorInfo: `<label>:\s*(.+)`
      The captures of `.+` are returned stripped, as every caller strips them. */
  function MatchAt(l: Label, s: string, p: nat): (r: Option<string>)
    requires p <= |s|
    ensures r.Some? ==> OccursAt(s, LabelText(l), p)
    ensures l == StepTime && r.Some? ==> IsNumberText(r.value)
  {
    var lit := LabelText(l);
    if !OccursAt(s, lit, p) then None
    else
      var a := p + |lit|;
      match l
      case StepName =>
        var d := DigitRunEnd(s, a);
        if a < d < |s| && s[d] == ':' then ValueAt(s, d + 1) else None
      case StepStatus =>
        StatusWordAt(s, SkipSpace(s, a))
      case StepTime =>
        var w := SkipSpace(s, a);
        var e := NumberRunEnd(s, w);
        if w < e < |s| && s[e] == '秒' then Some(s[w..e]) else None
      case Description => ValueAt(s, a)
      case Tool => ValueAt(s, a)
      case ErrorInfo => ValueAt(s, a)
  }

  /** Text that `[\d.]+` matches. */
  predicate IsNumberText(t: string) {
    forall i :: 0 <= i < |t| ==> IsDigit(t[i]) || t[i] == '.'
  }

  /** The first present entry at or after `from`. */
  function FirstSome<T>(ms: seq<Option<T>>, from: nat): Option<T>
    requires from <= |ms|
    decreases |ms| - from
  {
    if from == |ms| then None
    else if ms[from].Some? then ms[from]
    else FirstSome(ms, from + 1)
  }

  lemma {:induction false} FirstSomeSpec<T>(ms: seq<Option<T>>, from: nat)
    requires from <= |ms|
    ensures FirstSome(ms, from).Some? ==>
              exists p :: from <= p < |ms| && ms[p] == FirstSome(ms, from)
                          && forall j :: from <= j < p ==> ms[j].None?
    ensures FirstSome(ms, from).None? ==> forall j :: from <= j < |ms| ==> ms[j].None?
    decreases |ms| - from
  {
    if from < |ms| && ms[from].None? {
      FirstSomeSpec(ms, from + 1);
    }
  }

  /** The outcome of trying the pattern at every index of `s`, the end included. */
  function Attempts(l: Label, s: string): (ms: seq<Option<string>>)
    ensures |ms| == |s| + 1
    ensures forall p :: 0 <= p <= |s| ==> ms[p] == MatchAt(l, s, p)
  {
    seq(|s| + 1, p requires 0 <= p <= |s| => MatchAt(l, s, p))
  }

  /** `re.search`: the capture at the first index where the pattern matches. */
  function Find(l: Label, s: string): Option<string> {
    FirstSome(Attempts(l, s), 0)
  }

  /** A search yields the capture at the first index where the pattern
      matches, and fails only when it matches nowhere. */
  lemma FindSpec(l: Label, s: string)
    ensures Find(l, s).Some? ==>
              exists p :: 0 <= p <= |s| && MatchAt(l, s, p) == Find(l, s)
                          && forall j :: 0 <= j < p ==> MatchAt(l, s, j).None?
    ensures Find(l, s).None? ==> forall j :: 0 <= j <= |s| ==> MatchAt(l, s, j).None?
  {
    FirstSomeSpec(Attempts(l, s), 0);
  }

  /** A time capture consists of digits and dots only. */
  lemma FoundTimeIsNumber(s: string)
    requires Find(StepTime, s).Some?
    ensures IsNumberText(Find(StepTime, s).value)
  {
    FindSpec(StepTime, s);
    var p :| 0 <= p <= |s| && MatchAt(StepTime, s, p) == Find(StepTime, s);
  }

  /** A status capture is one of the three status words. */
  lemma FoundStatusIsWord(s: string)
    requires Find(StepStatus, s).Some?
    ensures Find(StepStatus, s).value in {"PASSED", "FAILED", "SKIPPED"}
  {
    FindSpec(StepStatus, s);
    var p :| 0 <= p <= |s| && MatchAt(StepStatus, s, p) == Find(StepStatus, s);
  }

  lemma LowerStatusWords()
    ensures ToLower("PASSED") == PASSED && ToLower("FAILED") == FAILED && ToLower("SKIPPED") == SKIPPED
  {
  }

  /** The search returns the capture at the first matching index. */
  lemma {:induction false} FirstSomeAt<T>(ms: seq<Option<T>>, from: nat, p: nat)
    requires from <= p < |ms|
    requires ms[p].Some?
    requires forall j :: from <= j < p ==> ms[j].None?
    ensures FirstSome(ms, from) == ms[p]
    decreases p - from
  {
    if from < p {
      FirstSomeAt(ms, from + 1, p);
    }
  }

  lemma FindsFirst(l: Label, s: string, p: nat)
    requires p <= |s|
    requires MatchAt(l, s, p).Some?
    requires forall j :: 0 <= j < p ==> MatchAt(l, s, j).None?
    ensures Find(l, s) == MatchAt(l, s, p)
  {
    FirstSomeAt(Attempts(l, s), 0, p);
  }

  // ---------------------------------------------------------------------
  // Numbers

  function Pow10(n: nat): (r: nat)
    ensures r >= 1
  {
    if n == 0 then 1 else 10 * Pow10(n - 1)
  }

  function DotIndex(t: string, from: nat): (r: Option<nat>)
    ensures r.Some? ==> from <= r.value < |t| && t[r.value] == '.'
    ensures r.Some? ==> forall i :: from <= i < r.value ==> t[i] != '.'
    ensures r.None? ==> forall i :: from <= i < |t| ==> t[i] != '.'
    decreases |t| - from
  {
    if from >= |t| then None
    else if t[from] == '.' then Some(from)
    else DotIndex(t, from + 1)
  }

  /** Python's `float(t)` on a string of digits and dots: it succeeds when
      there is at most one dot and at least one digit, and gives the decimal
      value. The value is kept exact. */
  function ParseFloat(t: string): (r: Option<real>)
    requires IsNumberText(t)
    ensures r.Some? ==> r.value >= 0.0
    ensures r.Some? <==> (exists i :: 0 <= i < |t| && IsDigit(t[i]))
                         && forall i, j :: 0 <= i < j < |t| && t[i] == '.' ==> t[j] != '.'
  {
    match DotIndex(t, 0)
    case None =>
      if t == [] then None else Some(DigitsValue(t) as real)
    case Some(k) =>
      var whole, frac := t[..k], t[k + 1..];
      if DotIndex(frac, 0).Some? || (whole == [] && frac == []) then None
      else Some(DigitsValue(whole) as real + DigitsValue(frac) as real / Pow10(|frac|) as real)
  }

  lemma MalformedNumberIsRejected()
    ensures ParseFloat("1.2.3") == None
  {
  }

  // ---------------------------------------------------------------------
  // One block

  const UNKNOWN_STEP := "未知步骤"
  const NO_ERROR := "无"

  /** The status a block reports: the lower-cased status word, "passed"
      when there is none. */
  function BlockStatus(block: string): (r: string)
    ensures r in {PASSED, FAILED, SKIPPED}
    ensures r == FAILED <==> Find(StepStatus, block) == Some("FAILED")
    ensures r == SKIPPED <==> Find(StepStatus, block) == Some("SKIPPED")
  {
    var w := Find(StepStatus, block);
    if w.None? then PASSED
    else
      FoundStatusIsWord(block);
      LowerStatusWords();
      ToLower(w.value)
  }

  /** The duration a block reports: the value of the time text, 0.0 when
      there is none or when `float` raises on it. */
  function BlockDuration(block: string): (r: real)
    ensures r >= 0.0
    ensures Find(StepTime, block).None? ==> r == 0.0
  {
    var t := Find(StepTime, block);
    if t.None? then 0.0
    else
      FoundTimeIsNumber(block);
      ParseFloat(t.value).GetOr(0.0)
  }

  /** The error a block reports: none when the error text is absent, empty
      or "无". */
  function BlockError(block: string): (r: Option<string>)
    ensures r != Some([]) && r != Some(NO_ERROR)
    ensures r.Some? <==> Find(ErrorInfo, block).Some? && Find(ErrorInfo, block).value !in {[], NO_ERROR}
    ensures r.Some? ==> r == Find(ErrorInfo, block)
  {
    var e := Find(ErrorInfo, block);
    if e.Some? && e.value != [] && e.value != NO_ERROR then e else None
  }

  /** The description of a block; the agent dialect appends the tool label. */
  function BlockDescription(block: string, d: Dialect): (r: string)
    ensures d == Mock || Find(Tool, block).None? ==> r == Find(Description, block).GetOr([])
    ensures d == Agent && Find(Tool, block).Some? ==>
              r == Find(Description, block).GetOr([]) + " (使用工具: " + Find(Tool, block).value + ")"
  {
    var description := Find(Description, block).GetOr([]);
    var tool := if d == Agent then Find(Tool, block) else None;
    if tool.Some? then description + " (使用工具: " + tool.value + ")" else description
  }

  /** The fields of one stripped, non-empty block, each by its own pattern
      with its own default: name "未知步骤", status "passed", duration 0.0,
      empty description, no error. */
  function ParseBlock(block: string, d: Dialect): ParsedStep {
    ParsedStep(Find(StepName, block).GetOr(UNKNOWN_STEP), BlockStatus(block), BlockDuration(block),
               BlockDescription(block, d), BlockError(block))
  }

  // ---------------------------------------------------------------------
  // All blocks

  /** What one piece of a split contributes: nothing when `clean` leaves it
      empty, otherwise `parse` of the cleaned text. */
  function Contribution<T>(piece: string, clean: string -> string, parse: string -> T): seq<T> {
    var block := clean(piece);
    if block == [] then [] else [parse(block)]
  }

  /** The contributions of all pieces, in order. */
  function MapPieces<T>(pieces: seq<string>, clean: string -> string, parse: string -> T): seq<T> {
    if pieces == [] then []
    else MapPieces(pieces[..|pieces| - 1], clean, parse) + Contribution(pieces[|pieces| - 1], clean, parse)
  }

  /** The cleaned pieces that are not empty, in order. */
  function Kept(pieces: seq<string>, clean: string -> string): (r: seq<string>)
    ensures forall k :: 0 <= k < |r| ==> r[k] != []
  {
    if pieces == [] then []
    else Kept(pieces[..|pieces| - 1], clean)
         + (if clean(pieces[|pieces| - 1]) == [] then [] else [clean(pieces[|pieces| - 1])])
  }

  lemma {:induction false} MapPiecesInOrder<T>(pieces: seq<string>, clean: string -> string, parse: string -> T)
    ensures |MapPieces(pieces, clean, parse)| == |Kept(pieces, clean)|
    ensures forall k :: 0 <= k < |Kept(pieces, clean)| ==>
              MapPieces(pieces, clean, parse)[k] == parse(Kept(pieces, clean)[k])
  {
    if pieces != [] {
      MapPiecesInOrder(pieces[..|pieces| - 1], clean, parse);
    }
  }

  function BlockParser(d: Dialect): string -> ParsedStep {
    block => ParseBlock(block, d)
  }

  /** What one piece of the split region contributes: nothing when it is
      blank after stripping, otherwise the step parsed from the stripped text. */
  function PieceSteps(piece: string, d: Dialect): seq<ParsedStep> {
    Contribution(piece, Trim, BlockParser(d))
  }

  /** The steps of the pieces, in the order the loop visits them. */
  function BlockSteps(pieces: seq<string>, d: Dialect): seq<ParsedStep> {
    MapPieces(pieces, Trim, BlockParser(d))
  }

  /** The stripped pieces that are not empty, in order. */
  function NonBlankBlocks(pieces: seq<string>): (r: seq<string>)
    ensures forall k :: 0 <= k < |r| ==> r[k] != []
  {
    Kept(pieces, Trim)
  }

  /** The steps are exactly the non-blank blocks, parsed one by one, in block
      order: one step per block that is non-empty after stripping. */
  lemma BlockStepsInOrder(pieces: seq<string>, d: Dialect)
    ensures |BlockSteps(pieces, d)| == |NonBlankBlocks(pieces)|
    ensures forall k :: 0 <= k < |NonBlankBlocks(pieces)| ==>
              BlockSteps(pieces, d)[k] == ParseBlock(NonBlankBlocks(pieces)[k], d)
  {
    MapPiecesInOrder(pieces, Trim, BlockParser(d));
  }

  // ---------------------------------------------------------------------
  // Fallbacks and the whole transcript

  const FALLBACK_NAME := "测试执行"

  /** The single step added when the transcript has no step region. */
  function NoRegionStep(d: Dialect): ParsedStep {
    match d
    case Agent => ParsedStep(FALLBACK_NAME, PASSED, 0.0, "使用 MCP Playwright 执行自动化测试", None)
    case Mock => ParsedStep(FALLBACK_NAME, PASSED, 1.0, "执行自动化测试", None)
  }

  /** Failure vocabulary the agent executor looks for in the lower-cased
      transcript when parsing raised. */
  const FAILURE_WORDS: seq<string> := ["失败", "错误", "failed", "error"]

  predicate MentionsFailure(raw: string) {
    exists w :: w in FAILURE_WORDS && Contains(ToLower(raw), w)
  }

  /** The single step the `except` branch adds. */
  function ParseErrorStep(raw: string, d: Dialect): ParsedStep {
    match d
    case Agent =>
      ParsedStep(FALLBACK_NAME, if MentionsFailure(raw) then FAILED else PASSED, 0.0,
                 "使用 MCP Playwright 执行自动化测试", None)
    case Mock => ParsedStep(FALLBACK_NAME, PASSED, 1.0, "自动化测试执行", None)
  }

  /** The steps `_parse_step_details` adds for a transcript. */
  function StepDetails(raw: string, d: Dialect): seq<ParsedStep> {
    match StepsRegion(raw)
    case None => [NoRegionStep(d)]
    case Some(region) => BlockSteps(SplitDashes(region), d)
  }

  const PASS_MARKER := "测试状态: PASSED"
  const FAIL_MARKER := "测试状态: FAILED"
  const ERROR_MARKER := "测试状态: ERROR"
  const PARSE_FAILURE_MESSAGE := "测试执行失败"

  /** The overall-status check: a FAILED or ERROR marker sets the error, but
      only when the PASSED marker is absent. */
  predicate MarksFailure(raw: string) {
    !Contains(raw, PASS_MARKER) && (Contains(raw, FAIL_MARKER) || Contains(raw, ERROR_MARKER))
  }

  // ---------------------------------------------------------------------
  // Properties of the grammar

  /** The region is the text between the markers when the start marker does
      not occur before them and the end marker does not occur inside. */
  lemma RegionBetween(pre: string, mid: string, post: string)
    requires Free(pre, STEPS_MARKER) && (pre == [] || pre[|pre| - 1] !in STEPS_MARKER)
    requires Free(mid, VERIFY_MARKER) && (mid == [] || mid[|mid| - 1] !in VERIFY_MARKER)
    ensures StepsRegion(pre + STEPS_MARKER + mid + VERIFY_MARKER + post) == Some(mid)
  {
    BetweenOf(pre, STEPS_MARKER, mid, VERIFY_MARKER, post);
  }

  /** A text without three dashes in a row is not split. */
  lemma SplitWithoutDashes(s: string)
    requires Free(s, DASHES)
    ensures SplitDashes(s) == [s]
  {
    assert IndexFrom(s, DASHES, 0).None?;
  }

  /** A separator of exactly three dashes, with no dash on either side, cuts
      off the text before it. */
  lemma SplitAtSeparator(a: string, b: string)
    requires Free(a, DASHES) && (a == [] || a[|a| - 1] != '-')
    requires b == [] || b[0] != '-'
    ensures SplitDashes(a + DASHES + b) == [a] + SplitDashes(b)
  {
    var s := a + DASHES + b;
    var n := |a|;
    FirstSeparator(a, b);
    SeparatorRun(a, b);
    assert s[..n] == a && s[n + 3..] == b;
    SplitDashesAt(s, n, n + 3);
  }

  lemma FirstSeparator(a: string, b: string)
    requires Free(a, DASHES) && (a == [] || a[|a| - 1] != '-')
    ensures IndexFrom(a + DASHES + b, DASHES, 0) == Some(|a|)
  {
    FindsAfter([], a, DASHES, b);
    assert [] + a + (DASHES + b) == a + DASHES + b;
  }

  lemma SeparatorRun(a: string, b: string)
    requires b == [] || b[0] != '-'
    ensures DashRunEnd(a + DASHES + b, |a|) == |a| + 3
  {
    var s := a + DASHES + b;
    var n := |a|;
    assert OccursAt(s, DASHES, n) by {
      assert s[n..n + 3] == DASHES;
    }
    DashesAt(s, n);
    if b != [] {
      assert s[n + 3] == b[0];
    }
  }

  /** One step of the split: the piece before the first separator, then the
      split of what follows the run of dashes. */
  lemma SplitDashesAt(s: string, j: nat, e: nat)
    requires IndexFrom(s, DASHES, 0) == Some(j) && DashRunEnd(s, j) == e
    ensures SplitDashes(s) == [s[..j]] + SplitDashes(s[e..])
  {
  }

  /** No step comes from a list of pieces exactly when every piece is blank
      after stripping. */
  lemma NoStepsIffAllBlank(pieces: seq<string>, d: Dialect)
    ensures BlockSteps(pieces, d) == [] <==> forall k :: 0 <= k < |pieces| ==> Trim(pieces[k]) == []
  {
    NothingKeptIffAllEmpty(pieces, Trim, BlockParser(d));
  }

  lemma {:induction false} NothingKeptIffAllEmpty<T>(pieces: seq<string>, clean: string -> string, parse: string -> T)
    ensures MapPieces(pieces, clean, parse) == [] <==> forall k :: 0 <= k < |pieces| ==> clean(pieces[k]) == []
  {
    if pieces != [] {
      var init := pieces[..|pieces| - 1];
      NothingKeptIffAllEmpty(init, clean, parse);
      assert forall k :: 0 <= k < |init| ==> init[k] == pieces[k];
    }
  }

  /** A region of whitespace alone adds no step. */
  lemma BlankRegionAddsNoSteps(raw: string, d: Dialect)
    requires StepsRegion(raw).Some? && AllSpace(StepsRegion(raw).value)
    ensures StepDetails(raw, d) == []
  {
    var region := StepsRegion(raw).value;
    FreeOfMissingChar(region, DASHES, 0);
    SplitWithoutDashes(region);
    TrimOfAllSpace(region);
    NoStepsIffAllBlank([region], d);
  }

  /** A region that holds no run of three dashes and is already stripped
      yields exactly one step, parsed from the whole region. */
  lemma OneBlockRegion(pre: string, mid: string, post: string, d: Dialect)
    requires Free(pre, STEPS_MARKER) && (pre == [] || pre[|pre| - 1] !in STEPS_MARKER)
    requires mid != [] && Trim(mid) == mid && Free(mid, DASHES)
    requires Free(mid, VERIFY_MARKER) && mid[|mid| - 1] !in VERIFY_MARKER
    ensures StepDetails(pre + STEPS_MARKER + mid + VERIFY_MARKER + post, d) == [ParseBlock(mid, d)]
  {
    RegionBetween(pre, mid, post);
    StepDetailsOfRegion(pre + STEPS_MARKER + mid + VERIFY_MARKER + post, mid, d);
    SplitWithoutDashes(mid);
    SingleBlock(mid, d);
  }

  /** With a step region, the steps are those of its pieces. */
  lemma StepDetailsOfRegion(raw: string, region: string, d: Dialect)
    requires StepsRegion(raw) == Some(region)
    ensures StepDetails(raw, d) == BlockSteps(SplitDashes(region), d)
  {
  }

  /** Dashes fewer than three are text, not separators: a region holding a
      single character that is not blank (a lone `-`, say) yields one step,
      and that step has the default name. */
  lemma LoneCharMakesAStep(pre: string, c: string, post: string, d: Dialect)
    requires Free(pre, STEPS_MARKER) && (pre == [] || pre[|pre| - 1] !in STEPS_MARKER)
    requires |c| == 1 && !IsSpace(c[0]) && c[0] !in VERIFY_MARKER
    ensures StepDetails(pre + STEPS_MARKER + c + VERIFY_MARKER + post, d) == [ParseBlock(c, d)]
    ensures ParseBlock(c, d).name == UNKNOWN_STEP
  {
    assert Free(c, DASHES);
    assert Trim(c) == c by {
      assert TrimStart(c) == c;
    }
    FreeOfMissingChar(c, VERIFY_MARKER, 0);
    OneBlockRegion(pre, c, post, d);
    LoneCharIsUnnamed(c, d);
  }

  /** A one-character block cannot hold the step-name label. */
  lemma LoneCharIsUnnamed(c: string, d: Dialect)
    requires |c| == 1
    ensures ParseBlock(c, d).name == UNKNOWN_STEP
  {
    forall p: nat | p <= 1 ensures MatchAt(StepName, c, p).None? {
      assert !OccursAt(c, LabelText(StepName), p);
    }
    FindSpec(StepName, c);
  }

  /** A lone piece that is already stripped and not empty makes one step. */
  lemma SingleBlock(piece: string, d: Dialect)
    requires piece != [] && Trim(piece) == piece
    ensures BlockSteps([piece], d) == [ParseBlock(piece, d)]
  {
    SinglePiece(piece, Trim, BlockParser(d));
  }

  lemma SinglePiece<T>(piece: string, clean: string -> string, parse: string -> T)
    ensures MapPieces([piece], clean, parse) == Contribution(piece, clean, parse)
  {
    assert [piece][..0] == [];
  }
}
