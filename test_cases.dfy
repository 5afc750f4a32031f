/**
 * Test cases and their store: the `TestCase` record with its dictionary
 * form, and `TestCaseManager`, which keeps the cases in a dictionary keyed
 * by id and answers queries over it. Ids, clock readings and the outcome of
 * writing a case to disk are parameters; the files themselves are not
 * modelled.
 */
module TestCases {
  import opened Text
  import opened Counters

  /** One step of a test case: a dictionary with an optional `action` and a
      `data` entry (absent reads as the empty string), or any other value,
      which is shown by its text. */
  datatype CaseStep = Action(action: Option<string>, data: string) | Plain(text: string)

  const UNKNOWN_ACTION := "未知操作"

  /** The text a step is shown by: `action: data`, or `action` alone when
      `data` is empty. */
  function StepText(step: CaseStep): string {
    match step
    case Action(action, data) =>
      action.GetOr(UNKNOWN_ACTION) + (if data != [] then ": " + data else [])
    case Plain(text) => text
  }

  const DEFAULT_PRIORITY := "medium"
  const DEFAULT_TYPE := "functional"
  const DEFAULT_STATUS := "draft"

  datatype TestCase = TestCase(
    id: string,
    name: string,
    description: string,
    steps: seq<CaseStep>,
    expectedResults: seq<string>,
    tags: seq<string>,
    priority: string,
    testType: string,
    createdAt: string,
    updatedAt: string,
    status: string)

  /** What constructing a test case draws from outside: a fresh `uuid4`
      identifier and the two separate clock readings taken for `created_at`
      and `updated_at`. */
  datatype Stamp = Stamp(id: string, createdAt: string, updatedAt: string)

  /** `TestCase(name, ...)` with the same defaults; a missing or empty list
      becomes the empty list. */
  function NewTestCase(stamp: Stamp, name: string, description: string := "",
                       steps: Option<seq<CaseStep>> := None, expectedResults: Option<seq<string>> := None,
                       tags: Option<seq<string>> := None, priority: string := DEFAULT_PRIORITY,
                       testType: string := DEFAULT_TYPE): (tc: TestCase)
    ensures tc.id == stamp.id && tc.name == name && tc.description == description
    ensures tc.steps == (if steps.Some? then steps.value else [])
    ensures tc.expectedResults == (if expectedResults.Some? then expectedResults.value else [])
    ensures tc.tags == (if tags.Some? then tags.value else [])
    ensures tc.priority == priority && tc.testType == testType
    ensures tc.createdAt == stamp.createdAt && tc.updatedAt == stamp.updatedAt
    ensures tc.status == DEFAULT_STATUS
  {
    TestCase(stamp.id, name, description, steps.GetOr([]), expectedResults.GetOr([]), tags.GetOr([]),
             priority, testType, stamp.createdAt, stamp.updatedAt, DEFAULT_STATUS)
  }

  /** The dictionary form of a test case: one entry per attribute, `None`
      where the key is absent. */
  datatype CaseDict = CaseDict(
    id: Option<string>,
    name: Option<string>,
    description: Option<string>,
    steps: Option<seq<CaseStep>>,
    expectedResults: Option<seq<string>>,
    tags: Option<seq<string>>,
    priority: Option<string>,
    testType: Option<string>,
    createdAt: Option<string>,
    updatedAt: Option<string>,
    status: Option<string>)
  {
    predicate Complete() {
      id.Some? && name.Some? && description.Some? && steps.Some? && expectedResults.Some?
      && tags.Some? && priority.Some? && testType.Some? && createdAt.Some? && updatedAt.Some?
      && status.Some?
    }
  }

  /** `TestCase.from_dict`: every key present is taken over, every key absent
      gets the default a new test case has (`stamp` stands for what the
      constructor would draw). */
  function FromDict(d: CaseDict, stamp: Stamp): (tc: TestCase)
    ensures tc.id == d.id.GetOr(stamp.id)
    ensures tc.name == d.name.GetOr("") && tc.description == d.description.GetOr("")
    ensures tc.steps == d.steps.GetOr([]) && tc.expectedResults == d.expectedResults.GetOr([])
    ensures tc.tags == d.tags.GetOr([])
    ensures tc.createdAt == d.createdAt.GetOr(stamp.createdAt) && tc.updatedAt == d.updatedAt.GetOr(stamp.updatedAt)
    ensures tc.priority == d.priority.GetOr(DEFAULT_PRIORITY) && tc.testType == d.testType.GetOr(DEFAULT_TYPE)
    ensures tc.status == d.status.GetOr(DEFAULT_STATUS)
  {
    var tc := NewTestCase(stamp, d.name.GetOr(""), d.description.GetOr(""),
                          Some(d.steps.GetOr([])), Some(d.expectedResults.GetOr([])),
                          Some(d.tags.GetOr([])), d.priority.GetOr(DEFAULT_PRIORITY),
                          d.testType.GetOr(DEFAULT_TYPE));
    tc.(id := d.id.GetOr(tc.id), createdAt := d.createdAt.GetOr(tc.createdAt),
        updatedAt := d.updatedAt.GetOr(tc.updatedAt), status := d.status.GetOr(DEFAULT_STATUS))
  }

  /** `TestCase.to_dict`: reading the dictionary back gives the same test
      case, whatever identifier and clock readings `from_dict` would use. */
  function ToDict(tc: TestCase): (d: CaseDict)
    ensures d.Complete()
    ensures forall stamp :: FromDict(d, stamp) == tc
  {
    CaseDict(Some(tc.id), Some(tc.name), Some(tc.description), Some(tc.steps),
             Some(tc.expectedResults), Some(tc.tags), Some(tc.priority), Some(tc.testType),
             Some(tc.createdAt), Some(tc.updatedAt), Some(tc.status))
  }

  /** A dictionary holding every key is reproduced by `to_dict(from_dict(d))`. */
  lemma CompleteDictRoundTrip(d: CaseDict, stamp: Stamp)
    requires d.Complete()
    ensures ToDict(FromDict(d, stamp)) == d
  {
  }

  /** One keyword argument of `update_test_case`: an attribute a test case
      has, with its new value, or a key it has not, which is ignored. */
  datatype Change =
    | SetId(id: string)
    | SetName(name: string)
    | SetDescription(description: string)
    | SetSteps(steps: seq<CaseStep>)
    | SetExpectedResults(expectedResults: seq<string>)
    | SetTags(tags: seq<string>)
    | SetPriority(priority: string)
    | SetTestType(testType: string)
    | SetCreatedAt(createdAt: string)
    | SetUpdatedAt(updatedAt: string)
    | SetStatus(status: string)
    | Unknown(key: string)

  /** `if hasattr(tc, key): setattr(tc, key, value)` */
  function Apply(tc: TestCase, c: Change): TestCase {
    match c
    case SetId(v) => tc.(id := v)
    case SetName(v) => tc.(name := v)
    case SetDescription(v) => tc.(description := v)
    case SetSteps(v) => tc.(steps := v)
    case SetExpectedResults(v) => tc.(expectedResults := v)
    case SetTags(v) => tc.(tags := v)
    case SetPriority(v) => tc.(priority := v)
    case SetTestType(v) => tc.(testType := v)
    case SetCreatedAt(v) => tc.(createdAt := v)
    case SetUpdatedAt(v) => tc.(updatedAt := v)
    case SetStatus(v) => tc.(status := v)
    case Unknown(_) => tc
  }

  function ApplyAll(tc: TestCase, cs: seq<Change>): TestCase {
    if cs == [] then tc else Apply(ApplyAll(tc, cs[..|cs| - 1]), cs[|cs| - 1])
  }

  /** The case after `update_test_case`: the changes, then the new `updated_at`. */
  function Updated(tc: TestCase, cs: seq<Change>, now: string): TestCase {
    ApplyAll(tc, cs).(updatedAt := now)
  }

  /** Keys that name no attribute change nothing. */
  lemma {:induction false} UnknownKeysIgnored(tc: TestCase, cs: seq<Change>)
    requires forall k :: 0 <= k < |cs| ==> cs[k].Unknown?
    ensures ApplyAll(tc, cs) == tc
  {
    if cs != [] {
      UnknownKeysIgnored(tc, cs[..|cs| - 1]);
    }
  }

  /** The identifying attributes that no change names keep their values,
      and `updated_at` always becomes the clock reading. */
  lemma {:induction false} UpdateKeepsIdentity(tc: TestCase, cs: seq<Change>, now: string)
    ensures (forall k :: 0 <= k < |cs| ==> !cs[k].SetId?) ==> Updated(tc, cs, now).id == tc.id
    ensures (forall k :: 0 <= k < |cs| ==> !cs[k].SetName?) ==> Updated(tc, cs, now).name == tc.name
    ensures (forall k :: 0 <= k < |cs| ==> !cs[k].SetDescription?) ==>
              Updated(tc, cs, now).description == tc.description
    ensures (forall k :: 0 <= k < |cs| ==> !cs[k].SetCreatedAt?) ==>
              Updated(tc, cs, now).createdAt == tc.createdAt
    ensures Updated(tc, cs, now).updatedAt == now
  {
    if cs != [] {
      UpdateKeepsIdentity(tc, cs[..|cs| - 1], now);
    }
  }

  /** The steps, expected results and tags that no change names keep their
      values. */
  lemma {:induction false} UpdateKeepsContent(tc: TestCase, cs: seq<Change>, now: string)
    ensures (forall k :: 0 <= k < |cs| ==> !cs[k].SetSteps?) ==> Updated(tc, cs, now).steps == tc.steps
    ensures (forall k :: 0 <= k < |cs| ==> !cs[k].SetExpectedResults?) ==>
              Updated(tc, cs, now).expectedResults == tc.expectedResults
    ensures (forall k :: 0 <= k < |cs| ==> !cs[k].SetTags?) ==> Updated(tc, cs, now).tags == tc.tags
  {
    if cs != [] {
      UpdateKeepsContent(tc, cs[..|cs| - 1], now);
    }
  }

  /** The priority, type and status that no change names keep their values. */
  lemma {:induction false} UpdateKeepsLabels(tc: TestCase, cs: seq<Change>, now: string)
    ensures (forall k :: 0 <= k < |cs| ==> !cs[k].SetPriority?) ==>
              Updated(tc, cs, now).priority == tc.priority
    ensures (forall k :: 0 <= k < |cs| ==> !cs[k].SetTestType?) ==>
              Updated(tc, cs, now).testType == tc.testType
    ensures (forall k :: 0 <= k < |cs| ==> !cs[k].SetStatus?) ==> Updated(tc, cs, now).status == tc.status
  {
    if cs != [] {
      UpdateKeepsLabels(tc, cs[..|cs| - 1], now);
    }
  }

  /** A case matches a search for the lower-cased query `q` when `q` occurs
      in its lower-cased name, description or one of its lower-cased tags. */
  predicate Matches(tc: TestCase, q: string) {
    Contains(ToLower(tc.name), q) || Contains(ToLower(tc.description), q)
    || exists t :: t in tc.tags && Contains(ToLower(t), q)
  }

  function TypesOf(cases: seq<TestCase>): seq<string> {
    seq(|cases|, i requires 0 <= i < |cases| => cases[i].testType)
  }

  function PrioritiesOf(cases: seq<TestCase>): seq<string> {
    seq(|cases|, i requires 0 <= i < |cases| => cases[i].priority)
  }

  function StatusesOf(cases: seq<TestCase>): seq<string> {
    seq(|cases|, i requires 0 <= i < |cases| => cases[i].status)
  }

  /** The result of `get_statistics`; each map keeps its keys in first-seen order. */
  datatype Statistics = Statistics(
    total: nat, byType: Counts<string>, byPriority: Counts<string>, byStatus: Counts<string>)

  function StatisticsOf(cases: seq<TestCase>): Statistics {
    Statistics(|cases|, Tally(TypesOf(cases)), Tally(PrioritiesOf(cases)), Tally(StatusesOf(cases)))
  }

  /** Every breakdown of the statistics adds up to the total, counts each
      value as often as the store holds it, and is empty for an empty store. */
  lemma StatisticsAddUp(cases: seq<TestCase>)
    ensures var s := StatisticsOf(cases);
      && Total(s.byType) == s.total && Total(s.byPriority) == s.total
      && Total(s.byStatus) == s.total
    ensures forall t :: Get(StatisticsOf(cases).byType, t) == multiset(TypesOf(cases))[t]
    ensures forall p :: Get(StatisticsOf(cases).byPriority, p) == multiset(PrioritiesOf(cases))[p]
    ensures forall st :: Get(StatisticsOf(cases).byStatus, st) == multiset(StatusesOf(cases))[st]
    ensures cases == [] ==> StatisticsOf(cases) == Statistics(0, [], [], [])
  {
    TallyTotal(TypesOf(cases));
    TallyTotal(PrioritiesOf(cases));
    TallyTotal(StatusesOf(cases));
    forall t {
      TallyCounts(TypesOf(cases), t);
    }
    forall p {
      TallyCounts(PrioritiesOf(cases), p);
    }
    forall st {
      TallyCounts(StatusesOf(cases), st);
    }
  }

  /** The cases of the store in dictionary order. */
  function ValuesOf(order: seq<string>, cases: map<string, TestCase>): seq<TestCase>
    requires forall id :: id in order ==> id in cases
  {
    seq(|order|, i requires 0 <= i < |order| => cases[order[i]])
  }

  lemma StoredIsListed(order: seq<string>, cases: map<string, TestCase>, id: string)
    requires forall k :: k in order ==> k in cases
    requires id in order
    ensures cases[id] in ValuesOf(order, cases)
  {
    var i :| 0 <= i < |order| && order[i] == id;
    assert ValuesOf(order, cases)[i] == cases[id];
  }

  /** The first-seen order of keys after `d[id] = ...` */
  function OrderAfterPut(order: seq<string>, id: string): seq<string> {
    if id in order then order else order + [id]
  }

  /** The number of records before the first one that is not a dictionary. */
  function DictPrefix(records: seq<Option<CaseDict>>): (n: nat)
    ensures n <= |records|
    ensures forall k :: 0 <= k < n ==> records[k].Some?
    ensures n < |records| ==> records[n].None?
  {
    if records == [] || records[0].None? then 0 else 1 + DictPrefix(records[1..])
  }

  /** The first `n` records read back with `from_dict`. */
  function ReadRecords(records: seq<Option<CaseDict>>, stamps: seq<Stamp>, n: nat)
    : seq<TestCase>
    requires n <= |records| && n <= |stamps|
    requires forall k :: 0 <= k < n ==> records[k].Some?
  {
    seq(n, k requires 0 <= k < n => FromDict(records[k].value, stamps[k]))
  }

  /** The cases an import stores: every record up to the first one that is
      not a dictionary. */
  function Importable(records: seq<Option<CaseDict>>, stamps: seq<Stamp>): seq<TestCase>
    requires |stamps| == |records|
  {
    ReadRecords(records, stamps, DictPrefix(records))
  }

  function PutAll(cases: map<string, TestCase>, tcs: seq<TestCase>): map<string, TestCase> {
    if tcs == [] then cases else PutAll(cases, tcs[..|tcs| - 1])[tcs[|tcs| - 1].id := tcs[|tcs| - 1]]
  }

  function OrderAfterPutAll(order: seq<string>, tcs: seq<TestCase>): seq<string> {
    if tcs == [] then order else OrderAfterPut(OrderAfterPutAll(order, tcs[..|tcs| - 1]), tcs[|tcs| - 1].id)
  }

  /** The cases `load_all_test_cases` reads: one per readable file, in
      file order. */
  function Loadable(files: seq<Option<CaseDict>>, stamps: seq<Stamp>): (r: seq<TestCase>)
    requires |stamps| == |files|
    ensures |r| <= |files|
  {
    if files == [] then []
    else
      Loadable(files[..|files| - 1], stamps[..|stamps| - 1])
      + (if files[|files| - 1].Some? then [FromDict(files[|files| - 1].value, stamps[|stamps| - 1])] else [])
  }

  /** Case `tc` is what `from_dict` makes of file `i`. */
  predicate ReadAt(files: seq<Option<CaseDict>>, stamps: seq<Stamp>, i: int, tc: TestCase) {
    0 <= i < |files| && |stamps| == |files| && files[i].Some? && tc == FromDict(files[i].value, stamps[i])
  }

  /** Every readable file's case is among the loaded ones. */
  lemma {:induction false} EveryReadableLoaded(files: seq<Option<CaseDict>>, stamps: seq<Stamp>)
    requires |stamps| == |files|
    ensures forall i :: 0 <= i < |files| && files[i].Some? ==> FromDict(files[i].value, stamps[i]) in Loadable(files, stamps)
  {
    if files != [] {
      var n := |files| - 1;
      EveryReadableLoaded(files[..n], stamps[..n]);
      forall i | 0 <= i < n && files[i].Some?
        ensures FromDict(files[i].value, stamps[i]) in Loadable(files, stamps)
      {
        assert files[..n][i] == files[i] && stamps[..n][i] == stamps[i];
      }
    }
  }

  /** Only readable files' cases are loaded. */
  lemma {:induction false} OnlyReadableLoaded(files: seq<Option<CaseDict>>, stamps: seq<Stamp>)
    requires |stamps| == |files|
    ensures forall tc :: tc in Loadable(files, stamps) ==> exists i :: ReadAt(files, stamps, i, tc)
  {
    if files != [] {
      var n := |files| - 1;
      OnlyReadableLoaded(files[..n], stamps[..n]);
      forall tc | tc in Loadable(files[..n], stamps[..n])
        ensures exists i :: ReadAt(files, stamps, i, tc)
      {
        var i :| ReadAt(files[..n], stamps[..n], i, tc);
        assert files[..n][i] == files[i] && stamps[..n][i] == stamps[i];
        assert ReadAt(files, stamps, i, tc);
      }
      if files[n].Some? {
        assert ReadAt(files, stamps, n, FromDict(files[n].value, stamps[n]));
      }
    }
  }

  /** Putting cases stores the id of every case put, keeps no key that is
      neither old nor put, and a key holds its old case or one put under it. */
  lemma {:induction false} PutAllKeys(cases: map<string, TestCase>, tcs: seq<TestCase>)
    ensures forall j :: 0 <= j < |tcs| ==> tcs[j].id in PutAll(cases, tcs)
    ensures forall id :: id in PutAll(cases, tcs) ==>
              || (id in cases && PutAll(cases, tcs)[id] == cases[id])
              || (PutAll(cases, tcs)[id] in tcs && PutAll(cases, tcs)[id].id == id)
  {
    if tcs != [] {
      var n := |tcs| - 1;
      PutAllKeys(cases, tcs[..n]);
      forall j | 0 <= j < n
        ensures tcs[j].id in PutAll(cases, tcs)
      {
        assert tcs[..n][j] == tcs[j];
      }
      forall id | id in PutAll(cases, tcs[..n]) && PutAll(cases, tcs[..n])[id] in tcs[..n]
        ensures PutAll(cases, tcs[..n])[id] in tcs
      {
        var j :| 0 <= j < n && tcs[..n][j] == PutAll(cases, tcs[..n])[id];
        assert tcs[j] == tcs[..n][j];
      }
    }
  }

  /** After loading, every readable file's id is stored, and each stored
      case is the case of some readable file, under its own id. */
  lemma LoadedIds(files: seq<Option<CaseDict>>, stamps: seq<Stamp>)
    requires |stamps| == |files|
    ensures forall i :: 0 <= i < |files| && files[i].Some? ==>
              FromDict(files[i].value, stamps[i]).id in PutAll(map[], Loadable(files, stamps))
    ensures forall id :: id in PutAll(map[], Loadable(files, stamps)) ==>
              && PutAll(map[], Loadable(files, stamps))[id].id == id
              && exists i :: ReadAt(files, stamps, i, PutAll(map[], Loadable(files, stamps))[id])
  {
    var tcs := Loadable(files, stamps);
    PutAllKeys(map[], tcs);
    EveryReadableLoaded(files, stamps);
    OnlyReadableLoaded(files, stamps);
    forall i | 0 <= i < |files| && files[i].Some?
      ensures FromDict(files[i].value, stamps[i]).id in PutAll(map[], tcs)
    {
      var j :| 0 <= j < |tcs| && tcs[j] == FromDict(files[i].value, stamps[i]);
    }
  }

  /** Loading one more file puts its case, if it is readable. */
  lemma LoadOneMore(files: seq<Option<CaseDict>>, stamps: seq<Stamp>, n: nat)
    requires |stamps| == |files| && n < |files|
    ensures files[n].None? ==> Loadable(files[..n + 1], stamps[..n + 1]) == Loadable(files[..n], stamps[..n])
    ensures files[n].Some? ==>
      var before := Loadable(files[..n], stamps[..n]);
      var tc := FromDict(files[n].value, stamps[n]);
      && PutAll(map[], Loadable(files[..n + 1], stamps[..n + 1])) == PutAll(map[], before)[tc.id := tc]
      && OrderAfterPutAll([], Loadable(files[..n + 1], stamps[..n + 1]))
         == OrderAfterPut(OrderAfterPutAll([], before), tc.id)
  {
    assert files[..n + 1][..n] == files[..n] && stamps[..n + 1][..n] == stamps[..n];
    var before := Loadable(files[..n], stamps[..n]);
    if files[n].Some? {
      var tc := FromDict(files[n].value, stamps[n]);
      assert (before + [tc])[..|before|] == before;
    } else {
      assert before + [] == before;
    }
  }

  function CountTrue(bs: seq<bool>): (n: nat)
    ensures n <= |bs|
  {
    if bs == [] then 0 else CountTrue(bs[..|bs| - 1]) + (if bs[|bs| - 1] then 1 else 0)
  }

  class TestCaseManager {
    /** `self.test_cases`, and the order in which its keys were first added. */
    var cases: map<string, TestCase>
    var order: seq<string>

    ghost predicate Valid()
      reads this
    {
      NoDuplicates(order) && forall id :: id in cases <==> id in order
    }

    /** `list(self.test_cases.values())`, i.e. `get_all_test_cases`. */
    function Values(): seq<TestCase>
      reads this
      requires Valid()
    {
      ValuesOf(order, cases)
    }

    /** `TestCaseManager(dir)`: an empty store, then `load_all_test_cases`.
        `files` holds the decoded `*.json` files of the directory in the
        order the glob lists them, `None` for one that cannot be read or
        decoded or is not a dictionary (the load skips it); `stamps[i]` is
        what `from_dict` draws for file i. */
    constructor (files: seq<Option<CaseDict>>, stamps: seq<Stamp>)
      requires |stamps| == |files|
      ensures Valid()
      ensures cases == PutAll(map[], Loadable(files, stamps))
      ensures order == OrderAfterPutAll([], Loadable(files, stamps))
    {
      cases := map[];
      order := [];
      new;
      for i := 0 to |files|
        invariant Valid()
        invariant cases == PutAll(map[], Loadable(files[..i], stamps[..i]))
        invariant order == OrderAfterPutAll([], Loadable(files[..i], stamps[..i]))
      {
        LoadOneMore(files, stamps, i);
        if files[i].Some? {
          Put(FromDict(files[i].value, stamps[i]));
        }
      }
      assert files[..|files|] == files && stamps[..|stamps|] == stamps;
    }

    /** `self.test_cases[tc.id] = tc` */
    method Put(tc: TestCase)
      requires Valid()
      modifies this
      ensures Valid()
      ensures cases == old(cases)[tc.id := tc]
      ensures order == OrderAfterPut(old(order), tc.id)
    {
      if tc.id !in cases {
        order := order + [tc.id];
      }
      cases := cases[tc.id := tc];
    }

    /** `_create_test_case_sync`: the new case is stored under its own id. */
    method CreateTestCaseSync(stamp: Stamp, name: string, description: string := "",
                              steps: Option<seq<CaseStep>> := None, expectedResults: Option<seq<string>> := None,
                              tags: Option<seq<string>> := None, priority: string := DEFAULT_PRIORITY,
                              testType: string := DEFAULT_TYPE)
      returns (tc: TestCase)
      requires Valid()
      modifies this
      ensures Valid()
      ensures tc == NewTestCase(stamp, name, description, steps, expectedResults, tags, priority, testType)
      ensures cases == old(cases)[stamp.id := tc]
      ensures order == OrderAfterPut(old(order), stamp.id)
      ensures GetTestCase(stamp.id) == Some(tc)
    {
      tc := NewTestCase(stamp, name, description, steps, expectedResults, tags, priority, testType);
      Put(tc);
    }

    /** `create_test_case` (the asynchronous definition, which replaces the
        synchronous one of the same name): as `_create_test_case_sync`, but
        the dictionary form is returned. */
    method CreateTestCase(stamp: Stamp, name: string, description: string := "",
                          steps: Option<seq<CaseStep>> := None, expectedResults: Option<seq<string>> := None,
                          tags: Option<seq<string>> := None, priority: string := DEFAULT_PRIORITY,
                          testType: string := DEFAULT_TYPE)
      returns (d: CaseDict)
      requires Valid()
      modifies this
      ensures Valid()
      ensures cases == old(cases)[stamp.id := FromDict(d, stamp)]
      ensures order == OrderAfterPut(old(order), stamp.id)
      ensures d == ToDict(NewTestCase(stamp, name, description, steps, expectedResults, tags, priority, testType))
    {
      var tc := CreateTestCaseSync(stamp, name, description, steps, expectedResults, tags, priority, testType);
      d := ToDict(tc);
    }

    /** `get_test_case`: `self.test_cases.get(id)`. */
    function GetTestCase(id: string): (r: Option<TestCase>)
      reads this
      requires Valid()
      ensures r.Some? <==> id in cases
      ensures r.Some? ==> r.value in Values()
    {
      if id in cases then
        StoredIsListed(order, cases, id);
        Some(cases[id])
      else None
    }

    /** `get_test_cases_by_tag` */
    function CasesByTag(tag: string): (r: seq<TestCase>)
      reads this
      requires Valid()
      ensures forall tc :: tc in r <==> tc in Values() && tag in tc.tags
    {
      Filter(Values(), (tc: TestCase) => tag in tc.tags)
    }

    /** `get_test_cases_by_type` */
    function CasesByType(testType: string): (r: seq<TestCase>)
      reads this
      requires Valid()
      ensures forall tc :: tc in r <==> tc in Values() && tc.testType == testType
    {
      Filter(Values(), (tc: TestCase) => tc.testType == testType)
    }

    /** `get_test_cases_by_priority` */
    function CasesByPriority(priority: string): (r: seq<TestCase>)
      reads this
      requires Valid()
      ensures forall tc :: tc in r <==> tc in Values() && tc.priority == priority
    {
      Filter(Values(), (tc: TestCase) => tc.priority == priority)
    }

    /** `update_test_case`: an unknown id changes nothing and answers false;
        otherwise the named attributes are set, `updated_at` becomes `now`,
        and the answer is whether the case could be written (`saved`). */
    method UpdateTestCase(id: string, changes: seq<Change>, now: string, saved: bool)
      returns (ok: bool)
      requires Valid()
      modifies this
      ensures Valid()
      ensures ok == (id in old(cases) && saved)
      ensures order == old(order)
      ensures id !in old(cases) ==> cases == old(cases)
      ensures id in old(cases) ==> cases == old(cases)[id := Updated(old(cases)[id], changes, now)]
    {
      if id !in cases {
        return false;
      }
      var tc := cases[id];
      var i := 0;
      while i < |changes|
        invariant 0 <= i <= |changes|
        invariant tc == ApplyAll(cases[id], changes[..i])
      {
        assert changes[..i + 1][..i] == changes[..i];
        tc := Apply(tc, changes[i]);
        i := i + 1;
      }
      assert changes[..i] == changes;
      cases := cases[id := tc.(updatedAt := now)];
      ok := saved;
    }

    /** `delete_test_case`: the id is gone afterwards, present or not; the
        answer is false only when removing the file fails. */
    method DeleteTestCase(id: string, fileError: bool) returns (ok: bool)
      requires Valid()
      modifies this
      ensures Valid()
      ensures cases == old(cases) - {id}
      ensures order == Filter(old(order), k => k != id)
      ensures ok == !fileError
    {
      if id in cases {
        cases := cases - {id};
      }
      FilterKeepsDistinct(order, k => k != id);
      order := Filter(order, k => k != id);
      ok := !fileError;
    }

    /** `search_test_cases`: the cases matching the lower-cased query, in
        store order. */
    method SearchTestCases(query: string) returns (results: seq<TestCase>)
      requires Valid()
      ensures results == Filter(Values(), (tc: TestCase) => Matches(tc, ToLower(query)))
      ensures forall tc :: tc in results <==> tc in Values() && Matches(tc, ToLower(query))
    {
      var q := ToLower(query);
      var values := Values();
      results := [];
      var i := 0;
      while i < |values|
        invariant 0 <= i <= |values|
        invariant results == Filter(values[..i], (tc: TestCase) => Matches(tc, q))
      {
        assert values[..i + 1][..i] == values[..i];
        if Matches(values[i], q) {
          results := results + [values[i]];
        }
        i := i + 1;
      }
      assert values[..i] == values;
    }

    /** `get_statistics` */
    method GetStatistics() returns (s: Statistics)
      requires Valid()
      ensures s == StatisticsOf(Values())
    {
      var values := Values();
      if |values| == 0 {
        return Statistics(0, [], [], []);
      }
      var byType: Counts<string> := [];
      var byPriority: Counts<string> := [];
      var byStatus: Counts<string> := [];
      var i := 0;
      while i < |values|
        invariant 0 <= i <= |values|
        invariant byType == Tally(TypesOf(values[..i]))
        invariant byPriority == Tally(PrioritiesOf(values[..i]))
        invariant byStatus == Tally(StatusesOf(values[..i]))
      {
        assert TypesOf(values[..i + 1])[..i] == TypesOf(values[..i]);
        assert PrioritiesOf(values[..i + 1])[..i] == PrioritiesOf(values[..i]);
        assert StatusesOf(values[..i + 1])[..i] == StatusesOf(values[..i]);
        byType := Bump(byType, values[i].testType);
        byPriority := Bump(byPriority, values[i].priority);
        byStatus := Bump(byStatus, values[i].status);
        i := i + 1;
      }
      assert values[..i] == values;
      s := Statistics(|values|, byType, byPriority, byStatus);
    }

    /** `import_test_cases` on the already decoded data: `None` stands for a
        text that does not decode or a format other than json and yaml, a
        `None` record for one that is not a dictionary, where `from_dict`
        raises. Records before such a one stay stored, yet the answer is
        then 0; otherwise it is the number of cases written (`saved`). */
    method ImportTestCases(data: Option<seq<Option<CaseDict>>>, stamps: seq<Stamp>,
                           saved: seq<bool>)
      returns (count: nat)
      requires data.Some? ==> |stamps| == |data.value| && |saved| == |data.value|
      requires Valid()
      modifies this
      ensures Valid()
      ensures data.None? ==> count == 0 && cases == old(cases) && order == old(order)
      ensures data.Some? ==>
        var tcs := Importable(data.value, stamps);
        && cases == PutAll(old(cases), tcs)
        && order == OrderAfterPutAll(old(order), tcs)
        && count == (if |tcs| == |data.value| then CountTrue(saved) else 0)
    {
      if data.None? {
        return 0;
      }
      var records := data.value;
      ghost var cases0, order0 := cases, order;
      count := 0;
      var i := 0;
      while i < |records|
        invariant 0 <= i <= |records|
        invariant Valid()
        invariant forall k :: 0 <= k < i ==> records[k].Some?
        invariant cases == PutAll(cases0, ReadRecords(records, stamps, i))
        invariant order == OrderAfterPutAll(order0, ReadRecords(records, stamps, i))
        invariant count == CountTrue(saved[..i])
      {
        if records[i].None? {
          DictPrefixAt(records, i);
          return 0;
        }
        var tc := FromDict(records[i].value, stamps[i]);
        ImportOneMore(cases0, order0, records, stamps, i);
        Put(tc);
        CountOneMore(saved, i);
        if saved[i] {
          count := count + 1;
        }
        i := i + 1;
      }
      DictPrefixAt(records, i);
      assert saved[..i] == saved;
    }
  }

  /** Reading one more record appends its test case. */
  lemma ReadOneMore(records: seq<Option<CaseDict>>, stamps: seq<Stamp>, n: nat)
    requires n < |records| && n < |stamps|
    requires forall k :: 0 <= k <= n ==> records[k].Some?
    ensures ReadRecords(records, stamps, n + 1)[..n] == ReadRecords(records, stamps, n)
    ensures ReadRecords(records, stamps, n + 1)[n] == FromDict(records[n].value, stamps[n])
  {
  }

  /** The records before `n` are dictionaries and the one at `n` (if any) is not. */
  lemma DictPrefixAt(records: seq<Option<CaseDict>>, n: nat)
    requires n <= |records| && (n == |records| || records[n].None?)
    requires forall k :: 0 <= k < n ==> records[k].Some?
    ensures DictPrefix(records) == n
  {
  }

  lemma CountOneMore(bs: seq<bool>, n: nat)
    requires n < |bs|
    ensures CountTrue(bs[..n + 1]) == CountTrue(bs[..n]) + (if bs[n] then 1 else 0)
  {
    assert bs[..n + 1][..n] == bs[..n];
  }

  /** Storing the case of one more record is one more `Put`. */
  lemma ImportOneMore(cases0: map<string, TestCase>, order0: seq<string>,
                      records: seq<Option<CaseDict>>, stamps: seq<Stamp>, n: nat)
    requires n < |records| && n < |stamps|
    requires forall k :: 0 <= k <= n ==> records[k].Some?
    ensures var tc := FromDict(records[n].value, stamps[n]);
      && PutAll(cases0, ReadRecords(records, stamps, n + 1))
         == PutAll(cases0, ReadRecords(records, stamps, n))[tc.id := tc]
      && OrderAfterPutAll(order0, ReadRecords(records, stamps, n + 1))
         == OrderAfterPut(OrderAfterPutAll(order0, ReadRecords(records, stamps, n)), tc.id)
  {
    ReadOneMore(records, stamps, n);
  }
}
