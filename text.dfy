/**
 * Character and string primitives that the Python source gets from its
 * runtime: `str.strip`, `str.lower`, the `in` substring test, `str(int)`,
 * `"sep".join(...)` and the whitespace class shared by `str.strip` and the
 * regular-expression escape `\s`.
 */
module Text {

  datatype Option<+T> = None | Some(value: T) {
    function GetOr(default: T): T {
      match this
      case Some(v) => v
      case None => default
    }
  }

  /** The characters for which Python's `str.isspace()` holds; `str.strip()`
      with no argument and the regex class `\s` both use this set. */
  predicate IsSpace(c: char) {
    c == ' ' || ('\t' <= c <= '\r') || ('\U{1C}' <= c <= '\U{1F}')
    || c == '\U{85}' || c == '\U{A0}' || c == '\U{1680}'
    || ('\U{2000}' <= c <= '\U{200A}') || c == '\U{2028}' || c == '\U{2029}'
    || c == '\U{202F}' || c == '\U{205F}' || c == '\U{3000}'
  }

  predicate AllSpace(s: string) {
    forall i :: 0 <= i < |s| ==> IsSpace(s[i])
  }

  /** `str.lstrip()` */
  function TrimStart(s: string): (r: string)
    ensures |r| <= |s| && r == s[|s| - |r|..]
    ensures r == [] || !IsSpace(r[0])
  {
    if s != [] && IsSpace(s[0]) then TrimStart(s[1..]) else s
  }

  /** `str.rstrip()` */
  function TrimEnd(s: string): (r: string)
    ensures |r| <= |s| && r == s[..|r|]
    ensures r == [] || !IsSpace(r[|r| - 1])
  {
    if s != [] && IsSpace(s[|s| - 1]) then TrimEnd(s[..|s| - 1]) else s
  }

  /** `str.strip()`: the string with the whitespace at both ends removed;
      `TrimEnds` and `TrimIsInfix` state what it keeps and what it removes. */
  function Trim(s: string): string {
    TrimEnd(TrimStart(s))
  }

  /** A stripped string neither starts nor ends with whitespace. */
  lemma TrimEnds(s: string)
    ensures |Trim(s)| <= |s|
    ensures Trim(s) == [] || (!IsSpace(Trim(s)[0]) && !IsSpace(Trim(s)[|Trim(s)| - 1]))
  {
    var a := TrimStart(s);
    if TrimEnd(a) != [] {
      assert TrimEnd(a)[0] == a[0];
    }
  }

  /** `lstrip` removes whitespace only. */
  lemma {:induction false} TrimStartCutsSpace(s: string)
    ensures AllSpace(s[..|s| - |TrimStart(s)|])
  {
    if s != [] && IsSpace(s[0]) {
      TrimStartCutsSpace(s[1..]);
      assert s[..|s| - |TrimStart(s)|] == [s[0]] + s[1..][..|s[1..]| - |TrimStart(s[1..])|];
    }
  }

  /** `rstrip` removes whitespace only. */
  lemma {:induction false} TrimEndCutsSpace(s: string)
    ensures AllSpace(s[|TrimEnd(s)|..])
  {
    if s != [] && IsSpace(s[|s| - 1]) {
      TrimEndCutsSpace(s[..|s| - 1]);
      assert s[|TrimEnd(s)|..] == s[..|s| - 1][|TrimEnd(s[..|s| - 1])|..] + [s[|s| - 1]];
    }
  }

  /** The stripped string is an infix with only whitespace on either side. */
  lemma TrimIsInfix(s: string)
    ensures exists i :: 0 <= i <= i + |Trim(s)| <= |s| && Trim(s) == s[i..i + |Trim(s)|]
                        && AllSpace(s[..i]) && AllSpace(s[i + |Trim(s)|..])
  {
    var a := TrimStart(s);
    var r := TrimEnd(a);
    var i := |s| - |a|;
    TrimStartCutsSpace(s);
    TrimEndCutsSpace(a);
    assert r == s[i..i + |r|];
    assert s[i + |r|..] == a[|r|..];
  }

  lemma {:induction false} TrimOfAllSpace(s: string)
    requires AllSpace(s)
    ensures Trim(s) == []
  {
    if s != [] {
      assert IsSpace(s[0]);
      TrimOfAllSpace(s[1..]);
    }
  }

  /** Stripping is the identity on a string whose ends are not whitespace. */
  lemma TrimOfTrimmed(s: string)
    requires s == [] || (!IsSpace(s[0]) && !IsSpace(s[|s| - 1]))
    ensures Trim(s) == s
  {
  }

  /** Stripping removes exactly the whitespace around a core that has
      non-space ends. */
  lemma {:induction false} TrimAround(pre: string, core: string, post: string)
    requires AllSpace(pre) && AllSpace(post)
    requires core != [] && !IsSpace(core[0]) && !IsSpace(core[|core| - 1])
    ensures Trim(pre + core + post) == core
  {
    var s := pre + core + post;
    TrimStartAround(pre, core + post);
    assert pre + (core + post) == s;
    TrimEndAround(core, post);
  }

  lemma {:induction false} TrimStartAround(pre: string, rest: string)
    requires AllSpace(pre)
    requires rest != [] && !IsSpace(rest[0])
    ensures TrimStart(pre + rest) == rest
  {
    if pre != [] {
      assert (pre + rest)[1..] == pre[1..] + rest;
      TrimStartAround(pre[1..], rest);
    }
  }

  lemma {:induction false} TrimEndAround(core: string, post: string)
    requires AllSpace(post)
    requires core != [] && !IsSpace(core[|core| - 1])
    ensures TrimEnd(core + post) == core
  {
    if post != [] {
      assert (core + post)[..|core + post| - 1] == core + post[..|post| - 1];
      TrimEndAround(core, post[..|post| - 1]);
    } else {
      assert core + post == core;
    }
  }

  /** `pat` occurs in `s` starting at index `i`. */
  predicate OccursAt(s: string, pat: string, i: nat) {
    i + |pat| <= |s| && s[i..i + |pat|] == pat
  }

  /** `s.find(pat, from)`: the first index at or after `from` where `pat` occurs. */
  function IndexFrom(s: string, pat: string, from: nat): (r: Option<nat>)
    decreases |s| - from
    ensures r.Some? ==> from <= r.value && OccursAt(s, pat, r.value)
    ensures r.Some? ==> forall j :: from <= j < r.value ==> !OccursAt(s, pat, j)
    ensures r.None? ==> forall j :: from <= j ==> !OccursAt(s, pat, j)
  {
    if from + |pat| > |s| then None
    else if s[from..from + |pat|] == pat then Some(from)
    else IndexFrom(s, pat, from + 1)
  }

  /** `pat` occurs nowhere in `s`. */
  ghost predicate Free(s: string, pat: string) {
    forall j: nat :: !OccursAt(s, pat, j)
  }

  /** A text that lacks one of the characters of `pat` cannot contain it. */
  lemma FreeOfMissingChar(s: string, pat: string, k: nat)
    requires k < |pat| && pat[k] !in s
    ensures Free(s, pat)
  {
  }

  /** An occurrence found `|a|` characters into `a + b` is one in `b`. */
  lemma OccursShift(a: string, b: string, pat: string, j: nat)
    ensures OccursAt(a + b, pat, |a| + j) <==> OccursAt(b, pat, j)
  {
    if |a| + j + |pat| <= |a + b| {
      assert (a + b)[|a| + j..|a| + j + |pat|] == b[j..j + |pat|];
    }
  }

  /** When `a` does not contain `pat` and no occurrence can run across the
      seam (the last character of `a` or the first of `b` is not in `pat`,
      or `pat` cannot start inside `a`), no occurrence in `a + b` starts
      inside `a`. */
  lemma NoneStartsIn(a: string, b: string, pat: string)
    requires Free(a, pat)
    requires a == [] || b == [] || a[|a| - 1] !in pat || b[0] !in pat || pat[0] !in a
    ensures forall j: nat :: j < |a| ==> !OccursAt(a + b, pat, j)
  {
    forall j: nat | j < |a| ensures !OccursAt(a + b, pat, j) {
      if j + |pat| <= |a| {
        assert !OccursAt(a, pat, j);
        assert (a + b)[j..j + |pat|] == a[j..j + |pat|];
      } else if j + |pat| <= |a + b| {
        var w := (a + b)[j..j + |pat|];
        assert w[|a| - 1 - j] == a[|a| - 1];
        assert w[|a| - j] == b[0];
        assert w[0] == a[j];
      }
    }
  }

  lemma FreeConcat(a: string, b: string, pat: string)
    requires Free(a, pat) && Free(b, pat)
    requires a == [] || b == [] || a[|a| - 1] !in pat || b[0] !in pat || pat[0] !in a
    ensures Free(a + b, pat)
  {
    NoneStartsIn(a, b, pat);
    forall j: nat | |a| <= j ensures !OccursAt(a + b, pat, j) {
      OccursShift(a, b, pat, j - |a|);
    }
  }

  /** A pattern-free text between two texts that lack the pattern's first
      character, and that it cannot run into, keeps the whole free of it. */
  lemma FreeSandwich(x: string, m: string, y: string, pat: string)
    requires pat != [] && pat[0] !in x && pat[0] !in y
    requires Free(m, pat) && (y == [] || y[0] !in pat)
    ensures Free(x + m + y, pat)
  {
    FreeOfMissingChar(x, pat, 0);
    FreeConcat(x, m, pat);
    FreeOfMissingChar(y, pat, 0);
    FreeConcat(x + m, y, pat);
  }

  /** `"".join(parts)` */
  function Concat(parts: seq<string>): string {
    if parts == [] then [] else parts[0] + Concat(parts[1..])
  }

  lemma {:induction false} ConcatSnoc(parts: seq<string>, last: string)
    ensures Concat(parts + [last]) == Concat(parts) + last
  {
    if parts == [] {
      assert Concat([last]) == last + Concat([]);
    } else {
      assert (parts + [last])[1..] == parts[1..] + [last];
      ConcatSnoc(parts[1..], last);
      ConcatAssoc(parts[0], Concat(parts[1..]), last);
    }
  }

  /** Joining one more part of `parts` appends it. */
  lemma ConcatPrefix(parts: seq<string>, n: nat)
    requires 0 < n <= |parts|
    ensures Concat(parts[..n]) == Concat(parts[..n - 1]) + parts[n - 1]
  {
    assert parts[..n] == parts[..n - 1] + [parts[n - 1]];
    ConcatSnoc(parts[..n - 1], parts[n - 1]);
  }

  /** No element occurs twice. */
  predicate NoDuplicates<T(==)>(s: seq<T>) {
    forall i, j :: 0 <= i < j < |s| ==> s[i] != s[j]
  }

  /** `[x for x in s if p(x)]`: the elements of `s` that satisfy `p`, in order. */
  function Filter<T(!new)>(s: seq<T>, p: T -> bool): (r: seq<T>)
    ensures |r| <= |s|
    ensures forall x :: x in r <==> x in s && p(x)
  {
    if s == [] then []
    else Filter(s[..|s| - 1], p) + (if p(s[|s| - 1]) then [s[|s| - 1]] else [])
  }

  /** Filtering one element more. */
  lemma FilterStep<T(!new)>(s: seq<T>, i: nat, p: T -> bool)
    requires i < |s|
    ensures Filter(s[..i + 1], p) == Filter(s[..i], p) + (if p(s[i]) then [s[i]] else [])
  {
    assert s[..i + 1][..i] == s[..i];
  }

  /** Filtering keeps a sequence free of duplicates. */
  lemma {:induction false} FilterKeepsDistinct<T(!new)>(s: seq<T>, p: T -> bool)
    requires NoDuplicates(s)
    ensures NoDuplicates(Filter(s, p))
  {
    if s != [] {
      FilterKeepsDistinct(s[..|s| - 1], p);
      assert s[|s| - 1] !in s[..|s| - 1];
    }
  }

  lemma ConcatAssoc<T>(a: seq<T>, b: seq<T>, c: seq<T>)
    ensures a + b + c == a + (b + c)
  {
  }

  /** The search from `from` finds the occurrence at `p` when none starts
      between `from` and `p`. */
  lemma {:induction false} FirstOccurrence(s: string, pat: string, from: nat, p: nat)
    requires from <= p && OccursAt(s, pat, p)
    requires forall j: nat :: from <= j < p ==> !OccursAt(s, pat, j)
    ensures IndexFrom(s, pat, from) == Some(p)
    decreases p - from
  {
    if from < p {
      assert !OccursAt(s, pat, from);
      FirstOccurrence(s, pat, from + 1, p);
    }
  }

  /** No occurrence of `pat` in `x + a + b` starts inside `a` when `a`
      holds none and none can run across the seam after it. */
  lemma NoneStartsWithin(x: string, a: string, b: string, pat: string)
    requires Free(a, pat)
    requires a == [] || b == [] || a[|a| - 1] !in pat || b[0] !in pat || pat[0] !in a
    ensures forall j: nat :: |x| <= j < |x| + |a| ==> !OccursAt(x + a + b, pat, j)
  {
    var s := x + a + b;
    forall j: nat | |x| <= j < |x| + |a| ensures !OccursAt(s, pat, j) {
      var i := j - |x|;
      if j + |pat| <= |x| + |a| {
        assert !OccursAt(a, pat, i);
        assert s[j..j + |pat|] == a[i..i + |pat|];
      } else if j + |pat| <= |s| {
        var w := s[j..j + |pat|];
        assert w[|a| - 1 - i] == a[|a| - 1];
        assert w[|a| - i] == b[0];
        assert w[0] == a[i];
      }
    }
  }

  /** A search from the end of `x` finds the `pat` that follows `pre` when
      `pre` holds none, not even across the seam. */
  lemma FindsAfter(x: string, pre: string, pat: string, post: string)
    requires Free(pre, pat) && (pre == [] || pre[|pre| - 1] !in pat)
    ensures IndexFrom(x + pre + (pat + post), pat, |x|) == Some(|x| + |pre|)
  {
    var s, p := x + pre + (pat + post), |x| + |pre|;
    assert OccursAt(s, pat, p) by {
      assert OccursAt(pat + post, pat, 0) by { assert (pat + post)[0..|pat|] == pat; }
      OccursShift(x + pre, pat + post, pat, 0);
    }
    assert forall j: nat :: |x| <= j < p ==> !OccursAt(s, pat, j) by {
      NoneStartsWithin(x, pre, pat + post, pat);
    }
    FirstOccurrence(s, pat, |x|, p);
  }

  lemma Regroup<T>(pre: seq<T>, open: seq<T>, mid: seq<T>, close: seq<T>, post: seq<T>)
    ensures [] + pre + (open + (mid + close + post)) == pre + open + mid + close + post
    ensures pre + open + mid + (close + post) == pre + open + mid + close + post
  {
  }

  /** In `pre + open + mid + close + post`, the first `open` is the one after
      `pre` and the first `close` after it is the one after `mid`, when
      neither occurs earlier, not even across a seam. */
  lemma FindsBetween(pre: string, open: string, mid: string, close: string, post: string)
    requires Free(pre, open) && (pre == [] || pre[|pre| - 1] !in open)
    requires Free(mid, close) && (mid == [] || mid[|mid| - 1] !in close)
    ensures IndexFrom(pre + open + mid + close + post, open, 0) == Some(|pre|)
    ensures IndexFrom(pre + open + mid + close + post, close, |pre| + |open|) == Some(|pre| + |open| + |mid|)
  {
    Regroup(pre, open, mid, close, post);
    FindsAfter([], pre, open, mid + close + post);
    FindsAfter(pre + open, mid, close, post);
  }

  lemma MiddleOf(pre: string, open: string, mid: string, close: string, post: string)
    ensures (pre + open + mid + close + post)[|pre| + |open|..|pre| + |open| + |mid|] == mid
  {
  }

  /** What `re.search(open + "(.*?)" + close, s, re.DOTALL)` captures: the
      text between the first `open` and the first `close` that starts after
      it (`BetweenSpec`). */
  function Between(s: string, open: string, close: string): Option<string> {
    match IndexFrom(s, open, 0)
    case None => None
    case Some(p) =>
      match IndexFrom(s, close, p + |open|)
      case None => None
      case Some(q) => Some(s[p + |open|..q])
  }

  /** The search succeeds exactly when some `close` starts after the end of
      some `open`; the lazy group makes the first `close` after the first
      `open` end the capture, and a later `open` cannot succeed where the
      first one failed. */
  lemma BetweenSpec(s: string, open: string, close: string)
    ensures Between(s, open, close).Some? <==>
              exists p: nat, q: nat :: OccursAt(s, open, p) && p + |open| <= q && OccursAt(s, close, q)
    ensures Between(s, open, close).Some? ==> exists p: nat, q: nat ::
              && OccursAt(s, open, p)
              && (forall j: nat :: j < p ==> !OccursAt(s, open, j))
              && p + |open| <= q && OccursAt(s, close, q)
              && (forall j: nat :: p + |open| <= j < q ==> !OccursAt(s, close, j))
              && Between(s, open, close).value == s[p + |open|..q]
  {
    var start := IndexFrom(s, open, 0);
    if start.Some? {
      var p := start.value;
      var stop := IndexFrom(s, close, p + |open|);
      if stop.None? {
        forall p': nat, q: nat | OccursAt(s, open, p') && p' + |open| <= q
          ensures !OccursAt(s, close, q)
        {
          assert p <= p';
        }
      }
    }
  }

  /** The capture between two markers when the opening one does not occur
      before them and the closing one does not occur inside. */
  lemma BetweenOf(pre: string, open: string, mid: string, close: string, post: string)
    requires Free(pre, open) && (pre == [] || pre[|pre| - 1] !in open)
    requires Free(mid, close) && (mid == [] || mid[|mid| - 1] !in close)
    ensures Between(pre + open + mid + close + post, open, close) == Some(mid)
  {
    var s, p, q := pre + open + mid + close + post, |pre|, |pre| + |open| + |mid|;
    assert IndexFrom(s, open, 0) == Some(p) && IndexFrom(s, close, p + |open|) == Some(q) by {
      FindsBetween(pre, open, mid, close, post);
    }
    assert s[p + |open|..q] == mid by {
      MiddleOf(pre, open, mid, close, post);
    }
    BetweenFound(s, open, close, p, q);
  }

  lemma BetweenFound(s: string, open: string, close: string, p: nat, q: nat)
    requires IndexFrom(s, open, 0) == Some(p)
    requires IndexFrom(s, close, p + |open|) == Some(q)
    ensures Between(s, open, close) == Some(s[p + |open|..q])
  {
  }

  /** Python's `pat in s`. */
  predicate Contains(s: string, pat: string) {
    IndexFrom(s, pat, 0).Some?
  }

  lemma ContainsIff(s: string, pat: string)
    ensures Contains(s, pat) <==> exists i :: OccursAt(s, pat, i)
  {
    if !Contains(s, pat) {
      assert forall j :: 0 <= j ==> !OccursAt(s, pat, j);
    }
  }

  function LowerChar(c: char): char {
    if 'A' <= c <= 'Z' then (c as int + 32) as char else c
  }

  /** `str.lower()` on the ASCII letters; every other character is kept. */
  function ToLower(s: string): (r: string)
    ensures |r| == |s|
    ensures forall i :: 0 <= i < |s| ==> r[i] == LowerChar(s[i])
  {
    seq(|s|, i requires 0 <= i < |s| => LowerChar(s[i]))
  }

  predicate IsDigit(c: char) {
    '0' <= c <= '9'
  }

  predicate AllDigits(s: string) {
    forall i :: 0 <= i < |s| ==> IsDigit(s[i])
  }

  function DigitChar(d: nat): (c: char)
    requires d < 10
    ensures IsDigit(c)
  {
    (d + '0' as int) as char
  }

  /** `str(n)` for a non-negative integer. */
  function NatToString(n: nat): (r: string)
    ensures r != [] && AllDigits(r)
  {
    if n < 10 then [DigitChar(n)] else NatToString(n / 10) + [DigitChar(n % 10)]
  }

  /** The value of a string of decimal digits (`int(s)` for such a string). */
  function DigitsValue(s: string): nat
    requires AllDigits(s)
  {
    if s == [] then 0 else DigitsValue(s[..|s| - 1]) * 10 + (s[|s| - 1] as int - '0' as int)
  }

  lemma {:induction false} NatToStringRoundTrip(n: nat)
    ensures DigitsValue(NatToString(n)) == n
  {
    if n >= 10 {
      var s := NatToString(n);
      assert s[..|s| - 1] == NatToString(n / 10);
      NatToStringRoundTrip(n / 10);
    }
  }

  /** `sep.join(parts)` */
  function Join(parts: seq<string>, sep: string): (r: string)
    ensures parts == [] ==> r == []
    ensures |parts| == 1 ==> r == parts[0]
  {
    if parts == [] then []
    else if |parts| == 1 then parts[0]
    else parts[0] + sep + Join(parts[1..], sep)
  }

  predicate NoNewline(s: string) {
    forall i :: 0 <= i < |s| ==> s[i] != '\n'
  }

  /** `s.split("\n")`: the lines of `s`, at least one. */
  function SplitLines(s: string): (r: seq<string>)
    ensures |r| >= 1
    decreases |s|
  {
    match IndexFrom(s, "\n", 0)
    case None => [s]
    case Some(j) => [s[..j]] + SplitLines(s[j + 1..])
  }

  /** Splitting lines undoes joining them, when no line holds a line feed. */
  lemma {:induction false} SplitJoinedLines(lines: seq<string>)
    requires |lines| >= 1
    requires forall k :: 0 <= k < |lines| ==> NoNewline(lines[k])
    ensures SplitLines(Join(lines, "\n")) == lines
  {
    var s := Join(lines, "\n");
    var first := lines[0];
    if |lines| == 1 {
      forall j: nat ensures !OccursAt(s, "\n", j) {
        if j < |s| {
          assert s[j..j + 1][0] == s[j];
        }
      }
    } else {
      assert s == first + "\n" + Join(lines[1..], "\n");
      assert OccursAt(s, "\n", |first|) by {
        assert s[|first|..|first| + 1] == "\n";
      }
      forall j: nat | j < |first| ensures !OccursAt(s, "\n", j) {
        assert s[j..j + 1][0] == s[j] == first[j];
      }
      assert IndexFrom(s, "\n", 0) == Some(|first|);
      assert s[..|first|] == first;
      assert s[|first| + 1..] == Join(lines[1..], "\n");
      SplitJoinedLines(lines[1..]);
      assert lines == [first] + lines[1..];
    }
  }
}
