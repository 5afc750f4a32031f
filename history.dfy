/**
 * `get_test_history` of core/strands_test_executor.py and
 * core/mock_strands_executor.py: the JSON reports of the report directory
 * are read newest name first, each report is recognised by its shape, and
 * the test records it holds are kept when they belong to the requested test.
 *
 * The directory listing and the parsed file contents are inputs: a file
 * whose opening or `json.load` raises is given as `None`.
 */
module History {
  import opened Text
  import opened Transcript

  /** A value `json.load` returns. */
  datatype Json =
    | JNull
    | JBool(b: bool)
    | JNumber(n: real)
    | JString(s: string)
    | JArray(items: seq<Json>)
    | JObject(fields: map<string, Json>)

  /** One directory entry: its file name and its parsed contents. */
  datatype ReportFile = ReportFile(name: string, content: Option<Json>)

  // ---------------------------------------------------------------------
  // Which files are read, and in which order

  const REPORT_PREFIX := "test_report_"
  const REPORT_SUFFIX := ".json"

  /** `fnmatch` of the agent executor's pattern `test_report_*.json`. */
  predicate AgentGlob(name: string) {
    |REPORT_PREFIX| + |REPORT_SUFFIX| <= |name|
    && OccursAt(name, REPORT_PREFIX, 0)
    && OccursAt(name, REPORT_SUFFIX, |name| - |REPORT_SUFFIX|)
  }

  /** `fnmatch` of the mock executor's pattern `*test_report_*.json`. */
  predicate MockGlob(name: string) {
    && |REPORT_PREFIX| + |REPORT_SUFFIX| <= |name|
    && (exists i: nat | i <= |name| - |REPORT_PREFIX| - |REPORT_SUFFIX| :: OccursAt(name, REPORT_PREFIX, i))
    && OccursAt(name, REPORT_SUFFIX, |name| - |REPORT_SUFFIX|)
  }

  predicate Globbed(d: Dialect, name: string) {
    if d.Agent? then AgentGlob(name) else MockGlob(name)
  }

  /** Every report the agent executor reads is read by the mock executor too. */
  lemma AgentReportsAreMockReports(name: string)
    ensures AgentGlob(name) ==> MockGlob(name)
  {
    if AgentGlob(name) {
      var zero: nat := 0;
      assert OccursAt(name, REPORT_PREFIX, zero);
    }
  }

  /** The mock executor also reads its own `mock_test_report_*.json` files,
      which the agent executor does not. */
  lemma MockReadsMoreReports()
    ensures MockGlob("mock_test_report_1.json") && !AgentGlob("mock_test_report_1.json")
  {
    var name := "mock_test_report_1.json";
    var five: nat := 5;
    assert name[5..17] == REPORT_PREFIX;
    assert OccursAt(name, REPORT_PREFIX, five);
    assert name[0] != REPORT_PREFIX[0];
  }

  /** Python's `<` on strings: code point by code point, a proper prefix first. */
  predicate StrLess(a: string, b: string) {
    if a == [] then b != []
    else if b == [] then false
    else a[0] < b[0] || (a[0] == b[0] && StrLess(a[1..], b[1..]))
  }

  lemma {:induction false} StrLessAsymmetric(a: string, b: string)
    requires StrLess(a, b)
    ensures !StrLess(b, a)
  {
    if a != [] && b != [] && a[0] == b[0] {
      StrLessAsymmetric(a[1..], b[1..]);
    }
  }

  lemma {:induction false} StrLessTransitive(a: string, b: string, c: string)
    requires StrLess(a, b) && StrLess(b, c)
    ensures StrLess(a, c)
  {
    if a != [] && a[0] == b[0] && b[0] == c[0] {
      StrLessTransitive(a[1..], b[1..], c[1..]);
    }
  }

  lemma {:induction false} StrLessTotal(a: string, b: string)
    requires a != b
    ensures StrLess(a, b) || StrLess(b, a)
  {
    if a != [] && b != [] && a[0] == b[0] {
      assert a == [a[0]] + a[1..] && b == [b[0]] + b[1..];
      StrLessTotal(a[1..], b[1..]);
    }
  }

  /** "Not smaller" is transitive as well. */
  lemma NotLessTransitive(a: string, b: string, c: string)
    requires !StrLess(a, b) && !StrLess(b, c)
    ensures !StrLess(a, c)
  {
    if StrLess(a, c) {
      if a == b {
        assert false;
      } else {
        StrLessTotal(a, b);
        StrLessTransitive(b, a, c);
      }
    }
  }

  /** The files ordered by `sorted(..., reverse=True)`: largest name first. */
  predicate NamesDescending(files: seq<ReportFile>) {
    forall i, j :: 0 <= i < j < |files| ==> !StrLess(files[i].name, files[j].name)
  }

  function Insert(f: ReportFile, sorted: seq<ReportFile>): (r: seq<ReportFile>)
    ensures multiset(r) == multiset(sorted) + multiset{f}
  {
    if sorted == [] || !StrLess(f.name, sorted[0].name) then [f] + sorted
    else
      assert sorted == [sorted[0]] + sorted[1..];
      [sorted[0]] + Insert(f, sorted[1..])
  }

  function SortByNameDescending(files: seq<ReportFile>): (r: seq<ReportFile>)
    ensures multiset(r) == multiset(files)
  {
    if files == [] then []
    else
      assert files == [files[0]] + files[1..];
      Insert(files[0], SortByNameDescending(files[1..]))
  }

  lemma {:induction false} InsertKeepsOrder(f: ReportFile, sorted: seq<ReportFile>)
    requires NamesDescending(sorted)
    ensures NamesDescending(Insert(f, sorted))
  {
    var r := Insert(f, sorted);
    if sorted == [] || !StrLess(f.name, sorted[0].name) {
      forall j | 0 < j < |r| ensures !StrLess(f.name, r[j].name) {
        if j > 1 {
          NotLessTransitive(f.name, sorted[0].name, sorted[j - 1].name);
        }
      }
    } else {
      var tail := Insert(f, sorted[1..]);
      InsertKeepsOrder(f, sorted[1..]);
      StrLessAsymmetric(f.name, sorted[0].name);
      forall j | 0 <= j < |tail| ensures !StrLess(sorted[0].name, tail[j].name) {
        assert tail[j] in multiset(tail);
        if tail[j] != f {
          assert tail[j] in sorted[1..];
        }
      }
    }
  }

  /** The reading order is the globbed files, largest name first; with the
      timestamped report names this is newest first. */
  lemma {:induction false} SortedByName(files: seq<ReportFile>)
    ensures NamesDescending(SortByNameDescending(files))
  {
    if files != [] {
      SortedByName(files[1..]);
      InsertKeepsOrder(files[0], SortByNameDescending(files[1..]));
    }
  }

  /** The files the reader opens, in the order it opens them. */
  function ReadingOrder(files: seq<ReportFile>, d: Dialect): seq<ReportFile> {
    SortByNameDescending(Filter(files, (f: ReportFile) => Globbed(d, f.name)))
  }

  // ---------------------------------------------------------------------
  // What one report contributes

  /** `test_result.get('test_id')` raises for a value that is not a `dict`;
      with no filter it is never evaluated. */
  predicate Raises(r: Json, testId: Option<string>) {
    testId.Some? && !r.JObject?
  }

  /** `test_id is None or test_result.get('test_id') == test_id` */
  predicate Wanted(r: Json, testId: Option<string>) {
    testId.None? || (r.JObject? && "test_id" in r.fields && r.fields["test_id"] == JString(testId.value))
  }

  /** `Wanted` as the test `Filter` applies. */
  function WantedBy(testId: Option<string>): Json -> bool {
    (r: Json) => Wanted(r, testId)
  }

  /** How many items the loop over a list of records gets through before a
      record raises. */
  function Unraised(items: seq<Json>, testId: Option<string>): (n: nat)
    ensures n <= |items|
    ensures forall j :: 0 <= j < n ==> !Raises(items[j], testId)
    ensures n < |items| ==> Raises(items[n], testId)
  {
    if items == [] || Raises(items[0], testId) then 0 else 1 + Unraised(items[1..], testId)
  }

  /** An item that does not raise, reached before `Unraised`, is not the
      one `Unraised` stops at. */
  lemma UnraisedPast(items: seq<Json>, testId: Option<string>, i: nat)
    requires i < |items| && !Raises(items[i], testId) && i <= Unraised(items, testId)
    ensures i < Unraised(items, testId)
  {
  }

  /** The records a list adds: the wanted ones before the first that raises
      (the records already appended stay in the history when it raises). */
  function ListRecords(items: seq<Json>, testId: Option<string>): seq<Json> {
    Filter(items[..Unraised(items, testId)], WantedBy(testId))
  }

  /** The record a single result adds: itself when wanted; when it raises it
      is not wanted either. */
  function SingleRecord(r: Json, testId: Option<string>): seq<Json> {
    if Wanted(r, testId) then [r] else []
  }

  /** The three report shapes, tried in order: an object with `test_results`
      (a list of results or a single one), a bare list of results, and a
      single result object with `test_id`; anything else adds nothing. */
  function ReportRecords(data: Json, testId: Option<string>): seq<Json> {
    if data.JObject? && "test_results" in data.fields then
      var results := data.fields["test_results"];
      if results.JArray? then ListRecords(results.items, testId) else SingleRecord(results, testId)
    else if data.JArray? then ListRecords(data.items, testId)
    else if data.JObject? && "test_id" in data.fields then SingleRecord(data, testId)
    else []
  }

  /** What a file adds: an unreadable one is skipped. */
  function FileRecords(f: ReportFile, testId: Option<string>): seq<Json> {
    if f.content.Some? then ReportRecords(f.content.value, testId) else []
  }

  /** The records of the files, read in the order given. */
  function Records(files: seq<ReportFile>, testId: Option<string>): seq<Json> {
    if files == [] then []
    else Records(files[..|files| - 1], testId) + FileRecords(files[|files| - 1], testId)
  }

  lemma RecordsStep(files: seq<ReportFile>, i: nat, testId: Option<string>)
    requires i < |files|
    ensures Records(files[..i + 1], testId) == Records(files[..i], testId) + FileRecords(files[i], testId)
  {
    assert files[..i + 1][..i] == files[..i];
  }

  /** The history `get_test_history` returns. */
  function TestHistory(dirExists: bool, files: seq<ReportFile>, d: Dialect, testId: Option<string>): seq<Json> {
    if dirExists then Records(ReadingOrder(files, d), testId) else []
  }

  // ---------------------------------------------------------------------
  // The reader

  /** The loop over a list of results: appends the wanted ones and stops at
      the first one that raises. */
  method AppendListRecords(history: seq<Json>, items: seq<Json>, testId: Option<string>) returns (h: seq<Json>)
    ensures h == history + ListRecords(items, testId)
  {
    h := history;
    var i := 0;
    while i < |items| && !Raises(items[i], testId)
      invariant i <= Unraised(items, testId)
      invariant h == history + Filter(items[..i], WantedBy(testId))
    {
      UnraisedPast(items, testId, i);
      FilterStep(items, i, WantedBy(testId));
      if Wanted(items[i], testId) {
        h := h + [items[i]];
      }
      i := i + 1;
    }
    assert i == Unraised(items, testId);
  }

  /** One report file, recognised by its shape. */
  method AppendReport(history: seq<Json>, data: Json, testId: Option<string>) returns (h: seq<Json>)
    ensures h == history + ReportRecords(data, testId)
  {
    h := history;
    if data.JObject? && "test_results" in data.fields {
      var results := data.fields["test_results"];
      if results.JArray? {
        h := AppendListRecords(h, results.items, testId);
      } else if Wanted(results, testId) {
        h := h + [results];
      }
    } else if data.JArray? {
      h := AppendListRecords(h, data.items, testId);
    } else if data.JObject? && "test_id" in data.fields {
      if Wanted(data, testId) {
        h := h + [data];
      }
    }
  }

  /** `get_test_history`: no directory gives no history; otherwise the
      records of the matching files, newest name first. */
  method GetTestHistory(dirExists: bool, files: seq<ReportFile>, d: Dialect, testId: Option<string>)
    returns (history: seq<Json>)
    ensures history == TestHistory(dirExists, files, d, testId)
    ensures !dirExists ==> history == []
  {
    if !dirExists {
      return [];
    }
    var order := ReadingOrder(files, d);
    history := [];
    var i := 0;
    while i < |order|
      invariant i <= |order|
      invariant history == Records(order[..i], testId)
    {
      RecordsStep(order, i, testId);
      if order[i].content.Some? {
        history := AppendReport(history, order[i].content.value, testId);
      }
      assert history == Records(order[..i + 1], testId);
      i := i + 1;
    }
    assert order[..i] == order;
  }

  // ---------------------------------------------------------------------
  // What the history holds

  /** With a test id, every record kept is a result object of that test. */
  lemma {:induction false} FilteredRecordsBelong(files: seq<ReportFile>, t: string)
    ensures forall r :: r in Records(files, Some(t)) ==>
              r.JObject? && "test_id" in r.fields && r.fields["test_id"] == JString(t)
  {
    if files != [] {
      FilteredRecordsBelong(files[..|files| - 1], t);
    }
  }

  /** Filtering a concatenation filters each part. */
  lemma {:induction false} FilterAppend<T(!new)>(a: seq<T>, b: seq<T>, p: T -> bool)
    ensures Filter(a + b, p) == Filter(a, p) + Filter(b, p)
  {
    if b == [] {
      assert a + b == a;
    } else {
      var init := b[..|b| - 1];
      assert (a + b)[..|a + b| - 1] == a + init;
      assert (a + b)[|a + b| - 1] == b[|b| - 1];
      FilterAppend(a, init, p);
    }
  }

  lemma {:induction false} FilterAll<T(!new)>(s: seq<T>, p: T -> bool)
    requires forall x :: x in s ==> p(x)
    ensures Filter(s, p) == s
  {
    if s != [] {
      FilterAll(s[..|s| - 1], p);
      assert s == s[..|s| - 1] + [s[|s| - 1]];
    }
  }

  /** Without a test id nothing is dropped: a list gives all its results and
      a single result is kept as it is. */
  lemma ReportRecordsUnfiltered(data: Json)
    ensures ReportRecords(data, None) ==
              if data.JObject? && "test_results" in data.fields then
                (if data.fields["test_results"].JArray? then data.fields["test_results"].items
                 else [data.fields["test_results"]])
              else if data.JArray? then data.items
              else if data.JObject? && "test_id" in data.fields then [data]
              else []
  {
    var all := WantedBy(None);
    if data.JObject? && "test_results" in data.fields && data.fields["test_results"].JArray? {
      var items := data.fields["test_results"].items;
      assert items[..Unraised(items, None)] == items;
      FilterAll(items, all);
    } else if data.JArray? {
      assert data.items[..Unraised(data.items, None)] == data.items;
      FilterAll(data.items, all);
    }
  }

  /** A report is well formed when every result it lists is an object; then
      no lookup raises. */
  predicate WellFormedReport(data: Json) {
    (data.JObject? && "test_results" in data.fields && data.fields["test_results"].JArray? ==>
       forall r :: r in data.fields["test_results"].items ==> r.JObject?)
    && (data.JArray? ==> forall r :: r in data.items ==> r.JObject?)
  }

  /** For a well-formed report, filtering by a test id keeps exactly the
      records of that test, in order. */
  lemma FilteredReport(data: Json, t: string)
    requires WellFormedReport(data)
    ensures ReportRecords(data, Some(t)) == Filter(ReportRecords(data, None), WantedBy(Some(t)))
  {
    var wanted := WantedBy(Some(t));
    ReportRecordsUnfiltered(data);
    if data.JObject? && "test_results" in data.fields {
      var results := data.fields["test_results"];
      if results.JArray? {
        assert results.items[..Unraised(results.items, Some(t))] == results.items;
      } else {
        assert [results][..0] == [];
      }
    } else if data.JArray? {
      assert data.items[..Unraised(data.items, Some(t))] == data.items;
    } else if data.JObject? && "test_id" in data.fields {
      assert [data][..0] == [];
    }
  }

  /** Over well-formed reports the filtered history is the unfiltered history
      restricted to the requested test. */
  lemma {:induction false} FilteredHistory(files: seq<ReportFile>, t: string)
    requires forall f :: f in files && f.content.Some? ==> WellFormedReport(f.content.value)
    ensures Records(files, Some(t)) == Filter(Records(files, None), WantedBy(Some(t)))
  {
    if files != [] {
      var init := files[..|files| - 1];
      var last := files[|files| - 1];
      FilteredHistory(init, t);
      if last.content.Some? {
        FilteredReport(last.content.value, t);
      }
      FilterAppend(Records(init, None), FileRecords(last, None), WantedBy(Some(t)));
    }
  }
}
