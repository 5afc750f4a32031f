/**
 * The mock executor reads its own transcript back: `_parse_step_details`
 * of core/mock_strands_executor.py, applied to the text that
 * `_generate_mock_result` makes up, yields one passed step per test-case
 * step, named by that step, without error, and the overall status stays
 * passed.
 */
module MockRoundTrip {
  import opened Text
  import opened ReportModel
  import opened Transcript
  import opened TranscriptParser
  import opened TestCases
  import opened Executors
  import opened MockTranscript

  // ---------------------------------------------------------------------
  // Where the greedy scans stop

  lemma {:induction false} SkipSpaceTo(s: string, i: nat, e: nat)
    requires i <= e < |s| && !IsSpace(s[e])
    requires forall j :: i <= j < e ==> IsSpace(s[j])
    ensures SkipSpace(s, i) == e
    decreases e - i
  {
    if i < e {
      SkipSpaceTo(s, i + 1, e);
    }
  }

  lemma {:induction false} LineEndAt(s: string, i: nat, e: nat)
    requires i <= e <= |s| && (e == |s| || s[e] == '\n')
    requires forall j :: i <= j < e ==> s[j] != '\n'
    ensures LineEnd(s, i) == e
    decreases e - i
  {
    if i < e {
      LineEndAt(s, i + 1, e);
    }
  }

  lemma {:induction false} DigitRunTo(s: string, i: nat, e: nat)
    requires i <= e <= |s| && (e == |s| || !IsDigit(s[e]))
    requires forall j :: i <= j < e ==> IsDigit(s[j])
    ensures DigitRunEnd(s, i) == e
    decreases e - i
  {
    if i < e {
      DigitRunTo(s, i + 1, e);
    }
  }

  // ---------------------------------------------------------------------
  // Reading one line of a block

  /** `\s*(.+)` after `x`: the spaces `u`, then the line `t`. */
  lemma ValueAtLine(x: string, u: string, t: string, rest: string)
    requires AllSpace(u) && t != [] && !IsSpace(t[0]) && NoNewline(t)
    requires rest == [] || rest[0] == '\n'
    ensures ValueAt(x + u + t + rest, |x|) == Some(Trim(t))
  {
    var s := x + u + t + rest;
    var w, e := |x| + |u|, |x| + |u| + |t|;
    forall j | |x| <= j < w ensures IsSpace(s[j]) {
      assert s[j] == u[j - |x|];
    }
    assert s[w] == t[0];
    SkipSpaceTo(s, |x|, w);
    forall j | w <= j < e ensures s[j] != '\n' {
      assert s[j] == t[j - w];
    }
    if rest != [] {
      assert s[e] == rest[0];
    }
    LineEndAt(s, w, e);
    assert s[w..e] == t;
  }

  lemma AllSpaceConcat(a: string, b: string)
    requires AllSpace(a) && AllSpace(b)
    ensures AllSpace(a + b)
  {
  }

  /** The whitespace `lstrip` removes, and the rest of the line it leaves. */
  lemma LeadingSpace(v: string) returns (k: nat, t: string)
    requires Trim(v) != [] && NoNewline(v)
    ensures k < |v| && t == v[k..] && AllSpace(v[..k])
    ensures !IsSpace(t[0]) && NoNewline(t) && Trim(t) == Trim(v)
  {
    t := TrimStart(v);
    k := |v| - |t|;
    TrimStartCutsSpace(v);
    assert |Trim(v)| <= |t|;
    TrimStartStops(t);
    NoNewlineSuffix(v, k);
  }

  lemma TrimStartStops(t: string)
    requires t != [] && !IsSpace(t[0])
    ensures TrimStart(t) == t
  {
  }

  lemma NoNewlineSuffix(v: string, k: nat)
    requires k <= |v| && NoNewline(v)
    ensures NoNewline(v[k..])
  {
    forall j | 0 <= j < |v| - k ensures v[k..][j] != '\n' {
      assert v[k..][j] == v[k + j];
    }
  }

  lemma Regroup4(y: string, c: char, v: string, rest: string, k: nat)
    requires k <= |v|
    ensures y + [c] + v + rest == y + ([c] + v[..k]) + v[k..] + rest
  {
    assert v == v[..k] + v[k..];
  }

  /** `\s*(.+)` tried at the last character of `x`, a space: it takes the
      line `v` that follows and strips it. */
  lemma ValueReadsLine(x: string, v: string, rest: string)
    requires x != [] && IsSpace(x[|x| - 1])
    requires NoNewline(v) && Trim(v) != []
    requires rest == [] || rest[0] == '\n'
    ensures ValueAt(x + v + rest, |x| - 1) == Some(Trim(v))
  {
    var y, c := x[..|x| - 1], x[|x| - 1];
    assert x == y + [c];
    var k, t := LeadingSpace(v);
    AllSpaceConcat([c], v[..k]);
    Regroup4(y, c, v, rest, k);
    ValueAtLine(y, [c] + v[..k], t, rest);
  }

  /** `步骤\d+:` at the start of a block; the value follows the colon. */
  lemma NameMatch(s: string, d: nat)
    requires 2 < d < |s| && s[..2] == LabelText(StepName) && s[d] == ':'
    requires forall j :: 2 <= j < d ==> IsDigit(s[j])
    ensures MatchAt(StepName, s, 0) == ValueAt(s, d + 1)
  {
    DigitRunTo(s, 2, d);
  }

  /** The shape of the first line's head: label, digits, colon, space. */
  lemma HeadShape(n: string)
    requires n != [] && AllDigits(n)
    ensures var h := "步骤" + n + ": ";
      && |h| == |n| + 4 && h[..2] == LabelText(StepName) && h[|n| + 2] == ':' && h[|n| + 3] == ' '
      && forall j :: 2 <= j < |n| + 2 ==> IsDigit(h[j])
  {
    var h := "步骤" + n + ": ";
    forall j | 2 <= j < |n| + 2 ensures IsDigit(h[j]) {
      assert h[j] == n[j - 2];
    }
  }

  /** The step-name pattern reads the name `v` after such a head. */
  lemma NameAfterHead(h: string, v: string, rest: string)
    requires |h| >= 5 && h[..2] == LabelText(StepName) && h[|h| - 2] == ':' && h[|h| - 1] == ' '
    requires forall j :: 2 <= j < |h| - 2 ==> IsDigit(h[j])
    requires NoNewline(v) && Trim(v) != []
    requires rest == [] || rest[0] == '\n'
    ensures Find(StepName, h + v + rest) == Some(Trim(v))
  {
    var s := h + v + rest;
    forall j | 2 <= j < |h| - 2 ensures IsDigit(s[j]) {
      assert s[j] == h[j];
    }
    assert s[..2] == h[..2];
    assert s[|h| - 2] == h[|h| - 2];
    NameMatch(s, |h| - 2);
    ValueReadsLine(h, v, rest);
    FindsFirst(StepName, s, 0);
  }

  /** The step-name pattern reads the name off the first line of a block. */
  lemma NameFound(n: string, v: string, rest: string)
    requires n != [] && AllDigits(n)
    requires NoNewline(v) && Trim(v) != []
    requires rest == [] || rest[0] == '\n'
    ensures Find(StepName, "步骤" + n + ": " + v + rest) == Some(Trim(v))
  {
    HeadShape(n);
    NameAfterHead("步骤" + n + ": ", v, rest);
  }

  lemma StatusAt(s: string, p: nat)
    requires OccursAt(s, STATUS_LINE, p)
    ensures MatchAt(StepStatus, s, p) == Some("PASSED")
  {
    var w := s[p..p + |STATUS_LINE|];
    assert w == STATUS_LINE;
    assert s[p..p + 3] == w[..3] == LabelText(StepStatus);
    assert s[p + 3] == w[3] == ' ' && s[p + 4] == w[4] == 'P';
    SkipSpaceTo(s, p + 3, p + 4);
    assert s[p + 4..p + 10] == w[4..] == "PASSED";
  }

  /** The status search stops at the first status line. */
  lemma StatusFoundAt(s: string, p: nat)
    requires OccursAt(s, STATUS_LINE, p)
    requires forall j: nat :: j < p ==> !OccursAt(s, LabelText(StepStatus), j)
    ensures Find(StepStatus, s) == Some("PASSED")
  {
    StatusAt(s, p);
    FindsFirst(StepStatus, s, p);
  }

  lemma PassedWord(s: string)
    requires Find(StepStatus, s) == Some("PASSED")
    ensures BlockStatus(s) == PASSED
  {
    assert ToLower("PASSED") == PASSED;
  }

  /** The first status label is followed by PASSED, so the block passed. */
  lemma StatusFound(x: string, rest: string)
    requires Free(x, LabelText(StepStatus))
    requires x == [] || x[|x| - 1] !in LabelText(StepStatus)
    ensures BlockStatus(x + STATUS_LINE + rest) == PASSED
  {
    var s := x + STATUS_LINE + rest;
    assert s == x + (STATUS_LINE + rest);
    NoneStartsIn(x, STATUS_LINE + rest, LabelText(StepStatus));
    assert s[|x|..|x| + |STATUS_LINE|] == STATUS_LINE;
    StatusFoundAt(s, |x|);
    PassedWord(s);
  }

  lemma ErrorLineParts()
    ensures ERROR_LINE == LabelText(ErrorInfo) + " " + NO_ERROR
    ensures NoNewline(NO_ERROR) && Trim(NO_ERROR) == NO_ERROR
  {
  }

  lemma Regroup3(x: string, l: string, sp: string, v: string)
    ensures x + (l + sp + v) == x + l + sp + v + []
    ensures x + (l + sp + v) == x + (l + (sp + v))
  {
  }

  /** The value after a label and one space is the rest of the line. */
  lemma ValueAfterSpace(x: string, l: string, v: string)
    requires v != [] && NoNewline(v) && Trim(v) == v
    ensures ValueAt(x + l + " " + v + [], |x| + |l|) == Some(v)
  {
    ValueReadsLine(x + l + " ", v, []);
  }

  lemma ValueAfterLabel(x: string, l: string, v: string)
    requires v != [] && NoNewline(v) && Trim(v) == v
    ensures ValueAt(x + (l + " " + v), |x| + |l|) == Some(v)
  {
    var s := x + l + " " + v + [];
    assert s == x + (l + " " + v);
    ValueAfterSpace(x, l, v);
  }

  lemma ErrorValue(x: string)
    ensures ValueAt(x + ERROR_LINE, |x| + |LabelText(ErrorInfo)|) == Some(NO_ERROR)
  {
    ErrorLineParts();
    ValueAfterLabel(x, LabelText(ErrorInfo), NO_ERROR);
  }

  lemma ErrorLabelAt(x: string)
    ensures OccursAt(x + ERROR_LINE, LabelText(ErrorInfo), |x|)
  {
    var l := LabelText(ErrorInfo);
    ErrorLineParts();
    Regroup3(x, l, " ", NO_ERROR);
    OccursShift(x, l + (" " + NO_ERROR), l, 0);
    assert (l + (" " + NO_ERROR))[..|l|] == l;
  }

  /** The error label closing the text is followed by "无". */
  lemma NoErrorAfter(x: string)
    ensures MatchAt(ErrorInfo, x + ERROR_LINE, |x|) == Some(NO_ERROR)
  {
    ErrorLabelAt(x);
    ErrorValue(x);
  }

  /** The error search stops at the first error label. */
  lemma ErrorFoundAt(s: string, p: nat)
    requires p <= |s| && MatchAt(ErrorInfo, s, p) == Some(NO_ERROR)
    requires forall j: nat :: j < p ==> !OccursAt(s, LabelText(ErrorInfo), j)
    ensures Find(ErrorInfo, s) == Some(NO_ERROR)
  {
    FindsFirst(ErrorInfo, s, p);
  }

  lemma ErrorSearchStops(x: string)
    requires Free(x, LabelText(ErrorInfo))
    requires x == [] || x[|x| - 1] !in LabelText(ErrorInfo)
    ensures Find(ErrorInfo, x + ERROR_LINE) == Some(NO_ERROR)
  {
    NoneStartsIn(x, ERROR_LINE, LabelText(ErrorInfo));
    NoErrorAfter(x);
    ErrorFoundAt(x + ERROR_LINE, |x|);
  }

  lemma NoErrorWord(s: string)
    requires Find(ErrorInfo, s) == Some(NO_ERROR)
    ensures BlockError(s) == None
  {
  }

  /** The first error label is followed by "无", so the block has no error. */
  lemma NoErrorFound(x: string)
    requires Free(x, LabelText(ErrorInfo))
    requires x == [] || x[|x| - 1] !in LabelText(ErrorInfo)
    ensures BlockError(x + ERROR_LINE) == None
  {
    ErrorSearchStops(x);
    NoErrorWord(x + ERROR_LINE);
  }

  // ---------------------------------------------------------------------
  // One block

  /** What the parser needs of a step's text to read the block back: one
      line, not blank, and none of the texts the parser searches for
      (the block separator, the end marker of the region, the status and
      error labels). */
  ghost predicate Readable(name: string) {
    && NoNewline(name) && Trim(name) != []
    && Free(name, DASHES) && Free(name, VERIFY_MARKER)
    && Free(name, LabelText(StepStatus)) && Free(name, LabelText(ErrorInfo))
  }

  lemma HeadLacks(i: nat, c: char)
    requires !IsDigit(c) && c !in "步骤: "
    ensures c !in Head(i)
  {
    var n := NatToString(i);
    assert c !in n by {
      forall j | 0 <= j < |n| ensures n[j] != c {
        assert IsDigit(n[j]);
      }
    }
  }

  lemma AfterLacks(i: nat, c: char)
    requires !IsDigit(c) && c != '.' && c !in TIME_PREFIX && c !in TIME_SUFFIX
    ensures c !in After(i)
  {
    var n := NatToString((5 + 3 * i) / 10);
    assert c !in n by {
      forall j | 0 <= j < |n| ensures n[j] != c {
        assert IsDigit(n[j]);
      }
    }
    assert c !in TimeText(i);
  }

  /** The step text is the only place a status label could come from
      before the status line. */
  lemma BeforeStatusIsFree(i: nat, name: string)
    requires Free(name, LabelText(StepStatus))
    ensures Free(Head(i) + name + "\n", LabelText(StepStatus))
  {
    assert '状' !in "步骤: ";
    HeadLacks(i, '状');
    FreeSandwich(Head(i), name, "\n", LabelText(StepStatus));
  }

  /** The characters that start the error label, the end marker and the
      separator appear in no fixed text of a block. */
  lemma HeadTextLacks()
    ensures '错' !in "步骤: " && '=' !in "步骤: " && '-' !in "步骤: "
  {
  }

  lemma StatusLineLacks()
    ensures '错' !in STATUS_LINE && '=' !in STATUS_LINE && '-' !in STATUS_LINE
  {
  }

  lemma TimePrefixLacks()
    ensures '错' !in TIME_PREFIX && '=' !in TIME_PREFIX && '-' !in TIME_PREFIX
  {
  }

  lemma TimeSuffixLacksError()
    ensures '错' !in TIME_SUFFIX
  {
  }

  lemma TimeSuffixLacksEquals()
    ensures '=' !in TIME_SUFFIX
  {
  }

  lemma TimeSuffixLacksDash()
    ensures '-' !in TIME_SUFFIX
  {
  }

  lemma ErrorLineLacks()
    ensures '=' !in ERROR_LINE && '-' !in ERROR_LINE
  {
  }

  lemma ErrorLabelAbsent(i: nat)
    ensures '错' !in Head(i) && '错' !in "\n" + STATUS_LINE + After(i)
  {
    HeadTextLacks();
    HeadLacks(i, '错');
    TimePrefixLacks();
    TimeSuffixLacksError();
    AfterLacks(i, '错');
    StatusLineLacks();
  }

  lemma BeforeErrorIsFree(i: nat, name: string)
    requires Free(name, LabelText(ErrorInfo))
    ensures Free(Head(i) + name + ("\n" + STATUS_LINE + After(i)), LabelText(ErrorInfo))
  {
    ErrorLabelAbsent(i);
    FreeSandwich(Head(i), name, "\n" + STATUS_LINE + After(i), LabelText(ErrorInfo));
  }

  lemma CoreRegroup(h: string, m: string, nl: string, st: string, af: string, er: string)
    ensures h + m + (nl + (st + af + er)) == (h + m + nl) + st + (af + er)
    ensures h + m + (nl + (st + af + er)) == h + m + (nl + st + af) + er
  {
  }

  lemma AfterEndsLine(i: nat)
    ensures After(i) != [] && After(i)[|After(i)| - 1] == '\n'
  {
    assert After(i)[|After(i)| - 1] == TIME_SUFFIX[|TIME_SUFFIX| - 1];
  }

  lemma CoreName(i: nat, name: string)
    requires NoNewline(name) && Trim(name) != []
    ensures Find(StepName, Core(i, name)) == Some(Trim(name))
  {
    NameFound(NatToString(i), name, "\n" + StatusPart(i));
  }

  lemma CoreStatus(i: nat, name: string)
    requires Free(name, LabelText(StepStatus))
    ensures BlockStatus(Core(i, name)) == PASSED
  {
    CoreRegroup(Head(i), name, "\n", STATUS_LINE, After(i), ERROR_LINE);
    BeforeStatusIsFree(i, name);
    StatusFound(Head(i) + name + "\n", After(i) + ERROR_LINE);
  }

  lemma CoreError(i: nat, name: string)
    requires Free(name, LabelText(ErrorInfo))
    ensures BlockError(Core(i, name)) == None
  {
    CoreRegroup(Head(i), name, "\n", STATUS_LINE, After(i), ERROR_LINE);
    var x := Head(i) + name + ("\n" + STATUS_LINE + After(i));
    BeforeErrorIsFree(i, name);
    AfterEndsLine(i);
    assert x[|x| - 1] == '\n';
    NoErrorFound(x);
  }

  /** The block of step `i` reads back as a passed step named by the
      stripped step text, without error. */
  lemma CoreParsed(i: nat, name: string)
    requires Readable(name)
    ensures ParseBlock(Core(i, name), Mock).name == Trim(name)
    ensures ParseBlock(Core(i, name), Mock).status == PASSED
    ensures ParseBlock(Core(i, name), Mock).errorMessage == None
  {
    CoreName(i, name);
    CoreStatus(i, name);
    CoreError(i, name);
  }

  // ---------------------------------------------------------------------
  // The blocks between the separators

  /** What the split leaves of the block of step `i`: its text between the
      line feeds. */
  function Piece(i: nat, name: string): string {
    "\n" + Core(i, name) + "\n"
  }

  function Pieces(names: seq<string>, first: nat): (r: seq<string>)
    ensures |r| == |names|
  {
    seq(|names|, k requires 0 <= k < |names| => Piece(first + k, names[k]))
  }

  lemma FixedLacksDash(i: nat)
    ensures '-' !in "\n" + Head(i) && '-' !in "\n" + StatusPart(i) + "\n"
  {
    HeadTextLacks();
    HeadLacks(i, '-');
    StatusLineLacks();
    TimePrefixLacks();
    TimeSuffixLacksDash();
    AfterLacks(i, '-');
    ErrorLineLacks();
  }

  lemma FixedLacksEquals(i: nat)
    ensures '=' !in "\n" + Head(i) && '=' !in "\n" + StatusPart(i) + "\n"
  {
    HeadTextLacks();
    HeadLacks(i, '=');
    StatusLineLacks();
    TimePrefixLacks();
    TimeSuffixLacksEquals();
    AfterLacks(i, '=');
    ErrorLineLacks();
  }

  lemma PieceRegroup(nl: string, h: string, m: string, sp: string)
    ensures nl + (h + m + (nl + sp)) + nl == (nl + h) + m + (nl + sp + nl)
  {
  }

  /** A block contains a pattern starting with a dash or an equals sign only
      where its step text does. */
  lemma PieceFree(i: nat, name: string, pat: string)
    requires pat != [] && (pat[0] == '-' || pat[0] == '=') && '\n' !in pat
    requires Free(name, pat)
    ensures Free(Piece(i, name), pat)
  {
    if pat[0] == '-' {
      FixedLacksDash(i);
    } else {
      FixedLacksEquals(i);
    }
    PieceRegroup("\n", Head(i), name, StatusPart(i));
    FreeSandwich("\n" + Head(i), name, "\n" + StatusPart(i) + "\n", pat);
  }

  lemma BlocksHead(names: seq<string>, first: nat)
    requires names != []
    ensures StepBlocks(names, first)[0] == Piece(first, names[0]) + DASHES
  {
  }

  lemma BlocksTail(names: seq<string>, first: nat)
    requires names != []
    ensures StepBlocks(names, first)[1..] == StepBlocks(names[1..], first + 1)
  {
    var a, c := StepBlocks(names, first), StepBlocks(names[1..], first + 1);
    forall k | 0 <= k < |c| ensures a[k + 1] == c[k] {
      assert names[1..][k] == names[k + 1] && first + (k + 1) == first + 1 + k;
    }
  }

  lemma PiecesTail(names: seq<string>, first: nat)
    requires names != []
    ensures Pieces(names, first) + ["\n\n"] == [Piece(first, names[0])] + (Pieces(names[1..], first + 1) + ["\n\n"])
  {
    var p, q := Pieces(names, first), Pieces(names[1..], first + 1);
    forall k | 1 <= k < |p| ensures p[k] == q[k - 1] {
      assert names[1..][k - 1] == names[k];
    }
    assert p == [p[0]] + q;
  }

  /** The blocks followed by the blank lines before the end marker. */
  function Region(names: seq<string>, first: nat): string {
    Concat(StepBlocks(names, first)) + "\n\n"
  }

  lemma RegionUnfold(names: seq<string>, first: nat)
    requires names != []
    ensures Region(names, first) == Piece(first, names[0]) + DASHES + Region(names[1..], first + 1)
  {
    BlocksHead(names, first);
    BlocksTail(names, first);
    var b := StepBlocks(names, first);
    assert Concat(b) == b[0] + Concat(b[1..]);
  }

  lemma RegionStartsLine(names: seq<string>, first: nat)
    ensures Region(names, first)[0] == '\n'
  {
    if names != [] {
      RegionUnfold(names, first);
    }
  }

  /** Splitting at the separators gives back the blocks, and the blank lines
      after the last separator. */
  lemma {:induction false} SplitRegion(names: seq<string>, first: nat)
    requires forall k :: 0 <= k < |names| ==> Free(names[k], DASHES)
    ensures SplitDashes(Region(names, first)) == Pieces(names, first) + ["\n\n"]
    decreases |names|
  {
    if names == [] {
      assert Region(names, first) == "\n\n";
      FreeOfMissingChar("\n\n", DASHES, 0);
      SplitWithoutDashes("\n\n");
    } else {
      var a, b := Piece(first, names[0]), Region(names[1..], first + 1);
      RegionUnfold(names, first);
      PieceFree(first, names[0], DASHES);
      RegionStartsLine(names[1..], first + 1);
      SplitAtSeparator(a, b);
      SplitRegion(names[1..], first + 1);
      PiecesTail(names, first);
    }
  }

  // ---------------------------------------------------------------------
  // From the pieces to the steps

  lemma {:induction false} KeptEvery(pieces: seq<string>, clean: string -> string)
    requires forall k :: 0 <= k < |pieces| ==> clean(pieces[k]) != []
    ensures |Kept(pieces, clean)| == |pieces|
    ensures forall k :: 0 <= k < |pieces| ==> Kept(pieces, clean)[k] == clean(pieces[k])
  {
    if pieces != [] {
      KeptEvery(pieces[..|pieces| - 1], clean);
    }
  }

  lemma CoreEnds(i: nat, name: string)
    ensures Core(i, name) != [] && Core(i, name)[0] == '步'
    ensures Core(i, name)[|Core(i, name)| - 1] == '无'
  {
    var c := Core(i, name);
    assert c[0] == Head(i)[0];
    assert c[|c| - 1] == ERROR_LINE[|ERROR_LINE| - 1];
  }

  lemma TrimPiece(i: nat, name: string)
    ensures Trim(Piece(i, name)) == Core(i, name)
  {
    CoreEnds(i, name);
    TrimAround("\n", Core(i, name), "\n");
  }

  /** The blank lines after the last separator add no step. */
  lemma BlankTailAddsNothing(pieces: seq<string>, d: Dialect)
    ensures BlockSteps(pieces + ["\n\n"], d) == BlockSteps(pieces, d)
  {
    var all := pieces + ["\n\n"];
    assert all[..|all| - 1] == pieces;
    TrimOfAllSpace("\n\n");
  }

  lemma PieceTrimmed(p: string, i: nat, name: string)
    requires p == Piece(i, name)
    ensures Trim(p) == Core(i, name) != []
  {
    TrimPiece(i, name);
    CoreEnds(i, name);
  }

  lemma PiecesTrimmed(names: seq<string>, first: nat)
    ensures forall k :: 0 <= k < |names| ==> Trim(Pieces(names, first)[k]) == Core(first + k, names[k]) != []
  {
    forall k | 0 <= k < |names| ensures Trim(Pieces(names, first)[k]) == Core(first + k, names[k]) != [] {
      PieceTrimmed(Pieces(names, first)[k], first + k, names[k]);
    }
  }

  lemma PiecesKept(names: seq<string>, first: nat)
    ensures |NonBlankBlocks(Pieces(names, first))| == |names|
    ensures forall k :: 0 <= k < |names| ==> NonBlankBlocks(Pieces(names, first))[k] == Core(first + k, names[k])
  {
    PiecesTrimmed(names, first);
    KeptEvery(Pieces(names, first), Trim);
  }

  /** Each block between the separators makes one step, in order. */
  lemma PiecesSteps(names: seq<string>, first: nat)
    ensures |BlockSteps(Pieces(names, first), Mock)| == |names|
    ensures forall k :: 0 <= k < |names| ==>
              BlockSteps(Pieces(names, first), Mock)[k] == ParseBlock(Core(first + k, names[k]), Mock)
  {
    PiecesKept(names, first);
    BlockStepsInOrder(Pieces(names, first), Mock);
  }

  // ---------------------------------------------------------------------
  // The region of the whole transcript

  lemma MarkerCharsAbsent()
    ensures '\n' !in VERIFY_MARKER && '-' !in VERIFY_MARKER && '=' !in DASHES && '\n' !in STEPS_MARKER
  {
  }

  lemma {:induction false} RegionFree(names: seq<string>, first: nat)
    requires forall k :: 0 <= k < |names| ==> Free(names[k], VERIFY_MARKER)
    ensures Free(Region(names, first), VERIFY_MARKER)
    decreases |names|
  {
    MarkerCharsAbsent();
    if names == [] {
      assert Region(names, first) == "\n\n";
      FreeOfMissingChar("\n\n", VERIFY_MARKER, 0);
    } else {
      var a := Piece(first, names[0]);
      RegionUnfold(names, first);
      PieceFree(first, names[0], VERIFY_MARKER);
      FreeOfMissingChar(DASHES, VERIFY_MARKER, 0);
      FreeConcat(a, DASHES, VERIFY_MARKER);
      RegionFree(names[1..], first + 1);
      FreeConcat(a + DASHES, Region(names[1..], first + 1), VERIFY_MARKER);
    }
  }

  lemma TitleLacksDetail()
    ensures '详' !in REPORT_TITLE
  {
  }

  lemma PassMarkerLacksDetail()
    ensures '详' !in PASS_MARKER
  {
  }

  lemma SummaryLacksDetail()
    ensures '详' !in REPORT_SUMMARY
  {
  }

  lemma HeadLacksStepsMarker()
    ensures Free(REPORT_HEAD, STEPS_MARKER)
  {
    TitleLacksDetail();
    PassMarkerLacksDetail();
    SummaryLacksDetail();
    assert STEPS_MARKER[8] == '详' && '详' !in REPORT_HEAD;
    FreeOfMissingChar(REPORT_HEAD, STEPS_MARKER, 8);
  }

  lemma TextRegroup(head: string, sm: string, c: string, nl: string, vm: string, cl: string)
    ensures head + sm + c + (nl + vm + cl) == head + sm + (c + nl) + vm + cl
  {
  }

  /** The step region of a mock transcript is exactly its blocks and the
      blank lines after them. */
  lemma MockRegion(steps: seq<CaseStep>, e: ExpectedResults)
    requires forall k :: 0 <= k < |steps| ==> Free(StepText(steps[k]), VERIFY_MARKER)
    ensures StepsRegion(MockText(steps, e)) == Some(Region(Names(steps), 1))
  {
    var names := Names(steps);
    var mid := Region(names, 1);
    RegionFree(names, 1);
    HeadLacksStepsMarker();
    MarkerCharsAbsent();
    assert REPORT_HEAD[|REPORT_HEAD| - 1] == '\n';
    assert mid[|mid| - 1] == '\n';
    TextRegroup(REPORT_HEAD, STEPS_MARKER, Concat(StepBlocks(names, 1)), "\n\n", VERIFY_MARKER, Closing(e));
    RegionBetween(REPORT_HEAD, mid, Closing(e));
  }

  // ---------------------------------------------------------------------
  // The round trip

  /** A transcript whose region is the blocks of `names` reads as those
      blocks, parsed one by one, in order. */
  lemma StepsOfRegion(raw: string, names: seq<string>)
    requires StepsRegion(raw) == Some(Region(names, 1))
    requires forall k :: 0 <= k < |names| ==> Free(names[k], DASHES)
    ensures |StepDetails(raw, Mock)| == |names|
    ensures forall k :: 0 <= k < |names| ==> StepDetails(raw, Mock)[k] == ParseBlock(Core(k + 1, names[k]), Mock)
  {
    StepDetailsOfRegion(raw, Region(names, 1), Mock);
    SplitRegion(names, 1);
    BlankTailAddsNothing(Pieces(names, 1), Mock);
    PiecesSteps(names, 1);
  }

  /** Steps parsed from the blocks of readable names are passed, without
      error, and named by the stripped names. */
  lemma BlocksReadBack(parsed: seq<ParsedStep>, names: seq<string>)
    requires |parsed| == |names|
    requires forall k :: 0 <= k < |names| ==> Readable(names[k])
    requires forall k :: 0 <= k < |names| ==> parsed[k] == ParseBlock(Core(k + 1, names[k]), Mock)
    ensures forall k :: 0 <= k < |names| ==>
              parsed[k].name == Trim(names[k]) && parsed[k].status == PASSED && parsed[k].errorMessage == None
  {
    forall k | 0 <= k < |names|
      ensures parsed[k].name == Trim(names[k]) && parsed[k].status == PASSED && parsed[k].errorMessage == None
    {
      CoreParsed(k + 1, names[k]);
    }
  }

  /** A transcript whose region is the blocks of readable names reads back
      as one passed step per name, named by it, without error. */
  lemma RegionReadBack(raw: string, names: seq<string>)
    requires StepsRegion(raw) == Some(Region(names, 1))
    requires forall k :: 0 <= k < |names| ==> Readable(names[k])
    ensures |StepDetails(raw, Mock)| == |names|
    ensures forall k :: 0 <= k < |names| ==>
              && StepDetails(raw, Mock)[k].name == Trim(names[k])
              && StepDetails(raw, Mock)[k].status == PASSED
              && StepDetails(raw, Mock)[k].errorMessage == None
  {
    StepsOfRegion(raw, names);
    BlocksReadBack(StepDetails(raw, Mock), names);
  }

  /** `_parse_step_details` reads back what `_generate_mock_result` wrote:
      one step per test-case step, in order, named by the step's text
      (stripped), passed and without error. With no steps the region is
      blank and no step is read. */
  lemma MockRoundTrip(steps: seq<CaseStep>, e: ExpectedResults)
    requires forall k :: 0 <= k < |steps| ==> Readable(StepText(steps[k]))
    ensures |StepDetails(MockText(steps, e), Mock)| == |steps|
    ensures forall k :: 0 <= k < |steps| ==>
              && StepDetails(MockText(steps, e), Mock)[k].name == Trim(StepText(steps[k]))
              && StepDetails(MockText(steps, e), Mock)[k].status == PASSED
              && StepDetails(MockText(steps, e), Mock)[k].errorMessage == None
  {
    var names := Names(steps);
    forall k | 0 <= k < |steps| ensures Free(StepText(steps[k]), VERIFY_MARKER) && Readable(names[k]) {
    }
    MockRegion(steps, e);
    RegionReadBack(MockText(steps, e), names);
  }

  lemma Regroup6(a: string, b: string, c: string, d: string, f: string, g: string)
    ensures a + b + c + d + f + g == a + b + (c + d + f + g)
  {
  }

  /** A text with the PASSED marker is never marked failed. */
  lemma PassMarkerWins(pre: string, rest: string)
    ensures !MarksFailure(pre + PASS_MARKER + rest)
  {
    var raw := pre + PASS_MARKER + rest;
    assert raw[|pre|..|pre| + |PASS_MARKER|] == PASS_MARKER;
    assert OccursAt(raw, PASS_MARKER, |pre|);
    ContainsIff(raw, PASS_MARKER);
  }

  lemma MockCarriesPassMarker(steps: seq<CaseStep>, e: ExpectedResults)
    ensures !MarksFailure(MockText(steps, e))
  {
    var c, tail := Concat(StepBlocks(Names(steps), 1)), "\n\n" + VERIFY_MARKER + Closing(e);
    Regroup6(REPORT_TITLE, PASS_MARKER, REPORT_SUMMARY, STEPS_MARKER, c, tail);
    PassMarkerWins(REPORT_TITLE, REPORT_SUMMARY + STEPS_MARKER + c + tail);
  }

  /** Steps that all passed leave the overall status passed. */
  lemma AllPassedIsPassed(parsed: seq<ParsedStep>)
    requires forall k :: 0 <= k < |parsed| ==> parsed[k].status == PASSED
    ensures OverallStatus(ParsedStatuses(parsed)) == PASSED
  {
    ParsedStatusesAt(parsed);
    assert FAILED !in ParsedStatuses(parsed) && SKIPPED !in ParsedStatuses(parsed);
  }

  /** The mock transcript leaves the run passed: it carries the PASSED
      marker, and every step it reports passed. */
  lemma MockPasses(steps: seq<CaseStep>, e: ExpectedResults)
    requires forall k :: 0 <= k < |steps| ==> Readable(StepText(steps[k]))
    ensures TranscriptStatus(MockText(steps, e), Mock) == PASSED
  {
    MockCarriesPassMarker(steps, e);
    MockRoundTrip(steps, e);
    AllPassedIsPassed(StepDetails(MockText(steps, e), Mock));
  }
}
