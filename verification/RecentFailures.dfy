/** The merge and the sort of getRecentFailures (internal/mcpserver/tools.go):
    failed tests of many submissions, newest first, become one row per test. */
module RecentFailures {
  import opened Basics
  import opened FanOut

  datatype FailedTest = FailedTest(
    id: string, name: string, suite: string, class_: string, file: string, durationUS: int,
    message: Option<string>, body: Option<string>, ranAt: string)

  datatype Submission = Submission(id: string, buildURL: string)

  datatype Row = Row(
    id: string, name: string, suite: string, class_: string, file: string, failureCount: nat,
    ranAt: string, buildURL: string, message: Option<string>, body: Option<string>, durationUS: int)

  type Results = seq<Slot<seq<FailedTest>>>

  // ----- What the rows should say

  /** Where id first stands among the first m tests. */
  function IndexIn(tests: seq<FailedTest>, m: nat, id: string): (k: Option<nat>)
    requires m <= |tests|
    ensures k.Some? ==> k.value < m && tests[k.value].id == id
    ensures forall j | 0 <= j < m && tests[j].id == id :: k.Some? && k.value <= j
  {
    if m == 0 then None
    else if IndexIn(tests, m - 1, id).Some? then IndexIn(tests, m - 1, id)
    else if tests[m - 1].id == id then Some(m - 1)
    else None
  }

  /** id failed in this submission; a failed fetch says nothing, and tests
      without an id are ignored. */
  predicate Fails(r: Slot<seq<FailedTest>>, id: string) {
    r.Filled? && id != "" && exists j | 0 <= j < |r.tests| :: r.tests[j].id == id
  }

  /** In how many of the first n submissions id failed. */
  function FailureCount(results: Results, n: nat, id: string): nat
    requires n <= |results|
  {
    if n == 0 then 0 else FailureCount(results, n - 1, id) + if Fails(results[n - 1], id) then 1 else 0
  }

  /** The row shows this test as it ran in this submission. */
  predicate Shows(row: Row, s: Submission, t: FailedTest) {
    && row.id == t.id && row.name == t.name && row.suite == t.suite && row.class_ == t.class_ && row.file == t.file
    && row.ranAt == t.ranAt && row.buildURL == s.buildURL && row.message == t.message && row.body == t.body
    && row.durationUS == t.durationUS
  }

  /** The j-th test is the first with that id. */
  predicate FirstAt(tests: seq<FailedTest>, j: nat, id: string) {
    j < |tests| && tests[j].id == id && forall k | 0 <= k < j :: tests[k].id != id
  }

  /** Submission i is the first, that is the newest, in which id failed. */
  predicate Newest(results: Results, i: nat, id: string) {
    i < |results| && Fails(results[i], id) && forall k | 0 <= k < i :: !Fails(results[k], id)
  }

  /** The submissions, among the first n, in which id failed. */
  function FailedIn(results: Results, n: nat, id: string): set<nat>
    requires n <= |results|
  {
    set i | 0 <= i < n && Fails(results[i], id)
  }

  /** The row shows the first occurrence of its test in the newest submission in
      which it failed, and the number of submissions in which it did. */
  ghost predicate TellsTruth(row: Row, subs: seq<Submission>, results: Results)
    requires |subs| == |results|
  {
    && row.failureCount == |FailedIn(results, |results|, row.id)|
    && exists i: nat, j: nat ::
         Newest(results, i, row.id) && FirstAt(results[i].tests, j, row.id) && Shows(row, subs[i], results[i].tests[j])
  }

  predicate FailsSomewhere(results: Results, id: string) {
    exists i | 0 <= i < |results| :: Fails(results[i], id)
  }

  function NewRow(s: Submission, t: FailedTest, count: nat): Row {
    Row(t.id, t.name, t.suite, t.class_, t.file, count, t.ranAt, s.buildURL, t.message, t.body, t.durationUS)
  }

  function RowOf(subs: seq<Submission>, results: Results, n: nat, id: string): Option<Row>
    requires n <= |subs| == |results|
  {
    if n == 0 then None
    else
      var older := RowOf(subs, results, n - 1, id);
      if !Fails(results[n - 1], id) then older
      else Some(Sighted(older, subs[n - 1], results[n - 1].tests, id))
  }

  /** The row of id after a submission in which it failed: the first sighting
      makes it, every later one only raises the count. */
  function Sighted(older: Option<Row>, s: Submission, tests: seq<FailedTest>, id: string): Row
    requires exists j | 0 <= j < |tests| :: tests[j].id == id
  {
    match older
    case Some(row) => row.(failureCount := row.failureCount + 1)
    case None => NewRow(s, tests[IndexIn(tests, |tests|, id).value], 1)
  }

  // ----- The merge

  function Lookup<K, V>(m: map<K, V>, k: K): Option<V> {
    if k in m then Some(m[k]) else None
  }

  /** The row of id in the middle of submission i, with j of its tests seen. */
  function RowMid(subs: seq<Submission>, results: Results, i: nat, j: nat, id: string): Option<Row>
    requires i < |subs| == |results| && results[i].Filled? && j <= |results[i].tests|
  {
    var tests := results[i].tests;
    var older := RowOf(subs, results, i, id);
    if id == "" || IndexIn(tests, j, id).None? then older
    else if older.Some? then Some(older.value.(failureCount := older.value.failureCount + 1))
    else Some(NewRow(subs[i], tests[IndexIn(tests, j, id).value], 1))
  }

  lemma {:induction false} MidEnds(subs: seq<Submission>, results: Results, i: nat, id: string)
    requires i < |subs| == |results| && results[i].Filled?
    ensures RowMid(subs, results, i, |results[i].tests|, id) == RowOf(subs, results, i + 1, id)
  {
    var tests := results[i].tests;
    if IndexIn(tests, |tests|, id).Some? {
      assert tests[IndexIn(tests, |tests|, id).value].id == id;
    }
  }

  /** A row after one more failure of its test. */
  function Bumped(row: Option<Row>, s: Submission, t: FailedTest): Row {
    match row
    case Some(r) => r.(failureCount := r.failureCount + 1)
    case None => NewRow(s, t, 1)
  }

  lemma {:induction false} MidSkips(subs: seq<Submission>, results: Results, i: nat, j: nat, id: string)
    requires i < |subs| == |results| && results[i].Filled? && j < |results[i].tests|
    requires var t := results[i].tests[j].id; t != id || t == "" || IndexIn(results[i].tests, j, t).Some?
    ensures RowMid(subs, results, i, j + 1, id) == RowMid(subs, results, i, j, id)
  {
  }

  lemma {:induction false} MidRecords(subs: seq<Submission>, results: Results, i: nat, j: nat,
                                      was: map<string, Row>, agg: map<string, Row>, id: string)
    requires i < |subs| == |results| && results[i].Filled? && j < |results[i].tests|
    requires var t := results[i].tests[j];
             && t.id != "" && IndexIn(results[i].tests, j, t.id).None?
             && Lookup(was, t.id) == RowMid(subs, results, i, j, t.id)
             && agg == was[t.id := Bumped(Lookup(was, t.id), subs[i], t)]
    requires Lookup(was, id) == RowMid(subs, results, i, j, id)
    ensures Lookup(agg, id) == RowMid(subs, results, i, j + 1, id)
  {
    if id != results[i].tests[j].id {
      MidSkips(subs, results, i, j, id);
    }
  }

  method Record(agg: map<string, Row>, s: Submission, t: FailedTest) returns (more: map<string, Row>)
    ensures more == agg[t.id := Bumped(Lookup(agg, t.id), s, t)]
    ensures t.id in agg ==> more[t.id] == agg[t.id].(failureCount := agg[t.id].failureCount + 1)
    ensures t.id !in agg ==> Shows(more[t.id], s, t) && more[t.id].failureCount == 1
  {
    more := agg;
    if t.id !in more {
      more := more[t.id := NewRow(s, t, 0)];
    }
    var row := more[t.id];
    more := more[t.id := row.(failureCount := row.failureCount + 1)];
  }

  /** id is marked as seen exactly if it is among the first j tests. */
  predicate Marked(seen: map<string, bool>, tests: seq<FailedTest>, j: nat, id: string)
    requires j <= |tests|
  {
    Lookup(seen, id) == if id != "" && IndexIn(tests, j, id).Some? then Some(true) else None
  }

  ghost predicate AllMarked(seen: map<string, bool>, tests: seq<FailedTest>, j: nat)
    requires j <= |tests|
  {
    forall id: string :: Marked(seen, tests, j, id)
  }

  /** The test is to be passed over. */
  predicate Skipped(seen: map<string, bool>, t: FailedTest) {
    t.id == "" || (t.id in seen && seen[t.id])
  }

  lemma MarksNext(was: map<string, bool>, seen: map<string, bool>, tests: seq<FailedTest>, j: nat)
    requires j < |tests| && AllMarked(was, tests, j)
    requires seen == if Skipped(was, tests[j]) then was else was[tests[j].id := true]
    ensures AllMarked(seen, tests, j + 1)
  {
    var next := j + 1;
    assert Marked(was, tests, j, tests[j].id);
    forall id: string
      ensures Marked(seen, tests, next, id)
    {
      assert Marked(was, tests, j, id);
    }
  }

  ghost predicate RowsMid(agg: map<string, Row>, subs: seq<Submission>, results: Results, i: nat, j: nat)
    requires i < |subs| == |results| && results[i].Filled? && j <= |results[i].tests|
  {
    forall id :: Lookup(agg, id) == RowMid(subs, results, i, j, id)
  }

  lemma RowsSkip(agg: map<string, Row>, subs: seq<Submission>, results: Results, i: nat, j: nat,
                 seen: map<string, bool>)
    requires i < |subs| == |results| && results[i].Filled? && j < |results[i].tests|
    requires RowsMid(agg, subs, results, i, j)
    requires AllMarked(seen, results[i].tests, j) && Skipped(seen, results[i].tests[j])
    ensures RowsMid(agg, subs, results, i, j + 1)
  {
    assert Marked(seen, results[i].tests, j, results[i].tests[j].id);
    forall id
      ensures RowMid(subs, results, i, j + 1, id) == RowMid(subs, results, i, j, id)
    {
      MidSkips(subs, results, i, j, id);
    }
  }

  lemma RowsGain(was: map<string, Row>, agg: map<string, Row>, subs: seq<Submission>, results: Results, i: nat,
                 j: nat, seen: map<string, bool>)
    requires i < |subs| == |results| && results[i].Filled? && j < |results[i].tests|
    requires RowsMid(was, subs, results, i, j)
    requires AllMarked(seen, results[i].tests, j) && !Skipped(seen, results[i].tests[j])
    requires var t := results[i].tests[j]; agg == was[t.id := Bumped(Lookup(was, t.id), subs[i], t)]
    ensures RowsMid(agg, subs, results, i, j + 1)
  {
    assert Marked(seen, results[i].tests, j, results[i].tests[j].id);
    forall id
      ensures Lookup(agg, id) == RowMid(subs, results, i, j + 1, id)
    {
      MidRecords(subs, results, i, j, was, agg, id);
    }
  }

  method MergeSubmission(before: map<string, Row>, ghost subs: seq<Submission>, ghost results: Results, ghost i: nat,
                         s: Submission, tests: seq<FailedTest>)
    returns (agg: map<string, Row>)
    requires i < |subs| == |results| && subs[i] == s && results[i] == Filled(tests)
    requires forall id :: Lookup(before, id) == RowOf(subs, results, i, id)
    ensures forall id :: Lookup(agg, id) == RowOf(subs, results, i + 1, id)
  {
    agg := before;
    var seen: map<string, bool> := map[];
    for j := 0 to |tests|
      invariant AllMarked(seen, tests, j)
      invariant RowsMid(agg, subs, results, i, j)
    {
      var t := tests[j];
      ghost var marks, was := seen, agg;
      if t.id == "" || (t.id in seen && seen[t.id]) {
        MarksNext(marks, seen, tests, j);
        RowsSkip(agg, subs, results, i, j, marks);
        continue;
      }
      seen := seen[t.id := true];
      MarksNext(marks, seen, tests, j);
      agg := Record(agg, s, t);
      RowsGain(was, agg, subs, results, i, j, marks);
    }
    forall id
      ensures Lookup(agg, id) == RowOf(subs, results, i + 1, id)
    {
      MidEnds(subs, results, i, id);
    }
  }

  method Merge(subs: seq<Submission>, results: Results) returns (agg: map<string, Row>)
    requires |subs| == |results|
    ensures forall id :: Lookup(agg, id) == RowOf(subs, results, |subs|, id)
    ensures forall id :: id in agg <==> FailsSomewhere(results, id)
    ensures forall id | id in agg :: agg[id].id == id && TellsTruth(agg[id], subs, results)
  {
    agg := map[];
    for i := 0 to |subs|
      invariant forall id :: Lookup(agg, id) == RowOf(subs, results, i, id)
    {
      if results[i].Filled? {
        agg := MergeSubmission(agg, subs, results, i, subs[i], results[i].tests);
      }
    }
    forall id
      ensures id in agg <==> FailsSomewhere(results, id)
      ensures id in agg ==> agg[id].id == id && TellsTruth(agg[id], subs, results)
    {
      assert Lookup(agg, id).Some? <==> id in agg;
      ReportedIffFailed(subs, results, |subs|, id);
      if id in agg {
        RowTellsTruth(subs, results, id);
      }
    }
  }

  // ----- What the rows mean

  /** The test of a submission that stands for id: the first one with that id. */
  function FirstTest(tests: seq<FailedTest>, id: string): (t: FailedTest)
    requires exists j | 0 <= j < |tests| :: tests[j].id == id
    ensures exists j: nat :: FirstAt(tests, j, id) && t == tests[j]
  {
    assert FirstAt(tests, IndexIn(tests, |tests|, id).value, id);
    tests[IndexIn(tests, |tests|, id).value]
  }

  lemma {:induction false} NoFailures(subs: seq<Submission>, results: Results, n: nat, id: string)
    requires n <= |subs| == |results| && forall i | 0 <= i < n :: !Fails(results[i], id)
    ensures RowOf(subs, results, n, id) == None && FailureCount(results, n, id) == 0
  {
    if n == 0 {
    } else {
      NoFailures(subs, results, n - 1, id);
    }
  }

  lemma {:induction false} NewestMakesRow(subs: seq<Submission>, results: Results, n: nat, i: nat, id: string)
    requires i < n <= |subs| == |results| && Newest(results, i, id)
    ensures RowOf(subs, results, n, id)
            == Some(NewRow(subs[i], FirstTest(results[i].tests, id), FailureCount(results, n, id)))
  {
    if i == n - 1 {
      NoFailures(subs, results, i, id);
    } else {
      NewestMakesRow(subs, results, n - 1, i, id);
    }
  }

  lemma {:induction false} CountIsSize(results: Results, n: nat, id: string)
    requires n <= |results|
    ensures FailureCount(results, n, id) == |FailedIn(results, n, id)|
  {
    if n == 0 {
    } else {
      CountIsSize(results, n - 1, id);
      var before := FailedIn(results, n - 1, id);
      assert FailedIn(results, n, id) == if Fails(results[n - 1], id) then before + {n - 1} else before;
    }
  }

  /** The row of a test has the fields of its first occurrence in the newest
      submission in which it failed, and counts the submissions in which it
      failed. */
  lemma RowIsNewest(subs: seq<Submission>, results: Results, n: nat, i: nat, j: nat, id: string)
    requires i < n <= |subs| == |results| && Newest(results, i, id) && FirstAt(results[i].tests, j, id)
    ensures var row := RowOf(subs, results, n, id);
            && row.Some? && Shows(row.value, subs[i], results[i].tests[j])
            && row.value.failureCount == |FailedIn(results, n, id)|
  {
    NewestMakesRow(subs, results, n, i, id);
    CountIsSize(results, n, id);
  }

  lemma {:induction false} SomeNewest(results: Results, n: nat, k: nat, id: string) returns (i: nat)
    requires k < n <= |results| && Fails(results[k], id)
    ensures i < n && Newest(results, i, id)
  {
    if j :| 0 <= j < k && Fails(results[j], id) {
      i := SomeNewest(results, n, j, id);
    } else {
      i := k;
    }
  }

  /** A test is reported exactly when it failed in some submission. */
  lemma {:induction false} ReportedIffFailed(subs: seq<Submission>, results: Results, n: nat, id: string)
    requires n <= |subs| == |results|
    ensures RowOf(subs, results, n, id).Some? <==> exists i | 0 <= i < n :: Fails(results[i], id)
  {
    if n == 0 {
    } else {
      ReportedIffFailed(subs, results, n - 1, id);
    }
  }

  lemma {:induction false} RowCounts(subs: seq<Submission>, results: Results, n: nat, id: string)
    requires n <= |subs| == |results| && RowOf(subs, results, n, id).Some?
    ensures var row := RowOf(subs, results, n, id).value;
            row.id == id && row.failureCount == FailureCount(results, n, id)
  {
    ReportedIffFailed(subs, results, n, id);
    var k :| 0 <= k < n && Fails(results[k], id);
    var i := SomeNewest(results, n, k, id);
    NewestMakesRow(subs, results, n, i, id);
  }

  lemma RowTellsTruth(subs: seq<Submission>, results: Results, id: string)
    requires |subs| == |results| && RowOf(subs, results, |subs|, id).Some?
    ensures var row := RowOf(subs, results, |subs|, id).value;
            row.id == id && TellsTruth(row, subs, results)
  {
    ReportedIffFailed(subs, results, |subs|, id);
    var k :| 0 <= k < |results| && Fails(results[k], id);
    var i := SomeNewest(results, |results|, k, id);
    var tests := results[i].tests;
    var j := IndexIn(tests, |tests|, id).value;
    assert FirstAt(tests, j, id);
    RowIsNewest(subs, results, |subs|, i, j, id);
  }

  // ----- Looking back further

  lemma {:induction false} PrefixRows(subs: seq<Submission>, results: Results, s: Submission,
                                      r: Slot<seq<FailedTest>>, n: nat, id: string)
    requires n <= |subs| == |results|
    ensures RowOf(subs + [s], results + [r], n, id) == RowOf(subs, results, n, id)
  {
    if n == 0 {
    } else {
      PrefixRows(subs, results, s, r, n - 1, id);
    }
  }

  /** One more, older submission changes no most_recent field of a row already
      there and raises its count by at most one. */
  lemma {:induction false} OlderSubmissionOnlyCounts(subs: seq<Submission>, results: Results, s: Submission,
                                                     r: Slot<seq<FailedTest>>, id: string)
    requires |subs| == |results|
    ensures var before := RowOf(subs, results, |subs|, id);
            var after := RowOf(subs + [s], results + [r], |subs| + 1, id);
            && (before.Some? ==>
                  after == Some(before.value.(failureCount :=
                      before.value.failureCount + if Fails(r, id) then 1 else 0)))
            && (before.None? ==>
                  && (after.Some? <==> Fails(r, id))
                  && (after.Some? ==> Shows(after.value, s, FirstTest(r.tests, id)) && after.value.failureCount == 1))
  {
    PrefixRows(subs, results, s, r, |subs|, id);
  }

  // ----- The counts add up

  /** The tests that failed in one submission. */
  function IdsOf(r: Slot<seq<FailedTest>>): (ids: set<string>)
    ensures forall id :: id in ids <==> Fails(r, id)
  {
    if r.Empty? then {} else set j | 0 <= j < |r.tests| && r.tests[j].id != "" :: r.tests[j].id
  }

  /** Distinct failing tests, submission by submission. */
  function TotalFailures(results: Results, n: nat): nat
    requires n <= |results|
  {
    if n == 0 then 0 else TotalFailures(results, n - 1) + |IdsOf(results[n - 1])|
  }

  predicate NoRepeats(ids: seq<string>) {
    forall i, j | 0 <= i < j < |ids| :: ids[i] != ids[j]
  }

  function SumCounts(ids: seq<string>, results: Results, n: nat): nat
    requires n <= |results|
  {
    if ids == [] then 0
    else SumCounts(ids[..|ids| - 1], results, n) + FailureCount(results, n, ids[|ids| - 1])
  }

  function Hits(ids: seq<string>, failed: set<string>): nat {
    if ids == [] then 0
    else Hits(ids[..|ids| - 1], failed) + if ids[|ids| - 1] in failed then 1 else 0
  }

  lemma {:induction false} HitsSplit(ids: seq<string>, results: Results, n: nat)
    requires 0 < n <= |results|
    ensures SumCounts(ids, results, n) == SumCounts(ids, results, n - 1) + Hits(ids, IdsOf(results[n - 1]))
  {
    if ids == [] {
    } else {
      HitsSplit(ids[..|ids| - 1], results, n);
    }
  }

  /** Distinct ids that cover a set hit it exactly as often as it has elements. */
  lemma {:induction false} HitsCover(ids: seq<string>, failed: set<string>)
    requires NoRepeats(ids) && forall id | id in failed :: id in ids
    ensures Hits(ids, failed) == |failed|
  {
    if ids == [] {
      assert failed == {};
    } else {
      var rest, last := ids[..|ids| - 1], ids[|ids| - 1];
      HitsCover(rest, failed - {last});
      HitsIgnore(rest, failed, last);
    }
  }

  lemma {:induction false} HitsIgnore(ids: seq<string>, failed: set<string>, other: string)
    requires other !in ids
    ensures Hits(ids, failed - {other}) == Hits(ids, failed)
  {
    if ids == [] {
    } else {
      assert ids[|ids| - 1] != other;
      HitsIgnore(ids[..|ids| - 1], failed, other);
    }
  }

  lemma {:induction false} NothingToSum(ids: seq<string>, results: Results)
    ensures SumCounts(ids, results, 0) == 0
  {
    if ids == [] {
    } else {
      NothingToSum(ids[..|ids| - 1], results);
    }
  }

  /** Over all reported tests the counts add up to the number of distinct tests
      that failed in each submission, added up. */
  lemma {:induction false} CountsAddUp(ids: seq<string>, results: Results, n: nat)
    requires n <= |results| && NoRepeats(ids)
    requires forall i, id | 0 <= i < n && Fails(results[i], id) :: id in ids
    ensures SumCounts(ids, results, n) == TotalFailures(results, n)
  {
    if n == 0 {
      NothingToSum(ids, results);
    } else {
      CountsAddUp(ids, results, n - 1);
      HitsSplit(ids, results, n);
      HitsCover(ids, IdsOf(results[n - 1]));
    }
  }
}
