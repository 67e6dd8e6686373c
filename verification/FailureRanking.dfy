/** From the aggregate to the list (internal/mcpserver/tools.go): rows leave the
    map in no particular order and are sorted by count, highest first, then by
    name. sort.SliceStable stands here as a stable sort on sequences. */
module FailureRanking {
  import opened Basics
  import opened FanOut
  import opened RecentFailures

  datatype Key = Key(count: nat, name: string)

  function KeyOf(r: Row): Key {
    Key(r.failureCount, r.name)
  }

  /** Go compares strings byte by byte, which on UTF-8 is the order of
      characters. */
  predicate LexLess(a: string, b: string) {
    b != "" && (a == "" || a[0] < b[0] || (a[0] == b[0] && LexLess(a[1..], b[1..])))
  }

  predicate Before(a: Key, b: Key) {
    if a.count != b.count then a.count > b.count else LexLess(a.name, b.name)
  }

  predicate Sorted(rows: seq<Row>) {
    forall i, j | 0 <= i < j < |rows| :: !Before(KeyOf(rows[j]), KeyOf(rows[i]))
  }

  /** a and b first differ at k, where a is smaller. */
  predicate SmallerAt(a: string, b: string, k: nat) {
    k < |a| && k < |b| && a[..k] == b[..k] && a[k] < b[k]
  }

  /** a is the start of b, or smaller where they first differ. */
  ghost predicate NamesInOrder(a: string, b: string) {
    a <= b || exists k: nat :: SmallerAt(a, b, k)
  }

  /** More failures first; among equals, by name. */
  ghost predicate WorstFirst(rows: seq<Row>) {
    forall i, j | 0 <= i < j < |rows| ::
      || rows[i].failureCount > rows[j].failureCount
      || (rows[i].failureCount == rows[j].failureCount && NamesInOrder(rows[i].name, rows[j].name))
  }

  /** The rows with one key, in order. */
  function With(rows: seq<Row>, key: Key): seq<Row> {
    if rows == [] then []
    else (if KeyOf(rows[0]) == key then [rows[0]] else []) + With(rows[1..], key)
  }

  /** What a stable sort promises. */
  ghost predicate StableSortOf(sorted: seq<Row>, rows: seq<Row>) {
    Sorted(sorted) && forall key :: With(sorted, key) == With(rows, key)
  }

  // ----- The order is total

  lemma {:induction false} LexTotal(a: string, b: string)
    ensures LexLess(a, b) || LexLess(b, a) || a == b
    ensures !(LexLess(a, b) && LexLess(b, a)) && !LexLess(a, a)
  {
    if a != "" && b != "" && a[0] == b[0] {
      LexTotal(a[1..], b[1..]);
      LexTotal(a[1..], a[1..]);
      assert a == [a[0]] + a[1..] && b == [b[0]] + b[1..];
    } else if a != "" {
      LexTotal(a[1..], a[1..]);
    }
  }

  lemma {:induction false} LexTransitive(a: string, b: string, c: string)
    requires LexLess(a, b) && LexLess(b, c)
    ensures LexLess(a, c)
  {
    if a == "" || !(a[0] == b[0] == c[0]) {
    } else {
      LexTransitive(a[1..], b[1..], c[1..]);
    }
  }

  lemma SmallerLater(a: string, b: string, k: nat)
    requires a != "" && b != "" && a[0] == b[0]
    ensures SmallerAt(a, b, k + 1) <==> SmallerAt(a[1..], b[1..], k)
  {
    if k + 1 < |a| && k + 1 < |b| {
      assert a[..k + 1] == [a[0]] + a[1..][..k] && b[..k + 1] == [b[0]] + b[1..][..k];
      assert a[1..][..k] == a[..k + 1][1..] && b[1..][..k] == b[..k + 1][1..];
    }
  }

  lemma SmallerNow(a: string, b: string, k: nat)
    requires SmallerAt(a, b, k) && a[0] != b[0]
    ensures a[0] < b[0]
  {
    assert k == 0;
  }

  lemma {:induction false} LexIsOrder(a: string, b: string)
    ensures LexLess(b, a) <==> !NamesInOrder(a, b)
  {
    if a == "" || b == "" {
    } else if a[0] == b[0] {
      LexIsOrder(a[1..], b[1..]);
      assert a == [a[0]] + a[1..] && b == [b[0]] + b[1..];
      if k: nat :| SmallerAt(a[1..], b[1..], k) {
        SmallerLater(a, b, k);
      }
      if k: nat :| SmallerAt(a, b, k) {
        SmallerLater(a, b, k - 1);
      }
    } else {
      if k: nat :| SmallerAt(a, b, k) {
        SmallerNow(a, b, k);
      }
      assert a[0] < b[0] ==> SmallerAt(a, b, 0);
    }
  }

  lemma SortedIsWorstFirst(rows: seq<Row>)
    ensures Sorted(rows) <==> WorstFirst(rows)
  {
    forall i, j | 0 <= i < j < |rows|
      ensures LexLess(rows[j].name, rows[i].name) <==> !NamesInOrder(rows[i].name, rows[j].name)
    {
      LexIsOrder(rows[i].name, rows[j].name);
    }
  }

  lemma {:induction false} BeforeTotal(a: Key, b: Key)
    ensures Before(a, b) || Before(b, a) || a == b
    ensures !(Before(a, b) && Before(b, a)) && !Before(a, a)
  {
    LexTotal(a.name, b.name);
    LexTotal(a.name, a.name);
  }

  lemma {:induction false} BeforeTransitive(a: Key, b: Key, c: Key)
    requires !Before(b, a) && !Before(c, b)
    ensures !Before(c, a)
  {
    BeforeTotal(a, b);
    BeforeTotal(b, c);
    BeforeTotal(a, c);
    if a.count == b.count == c.count && a != b && b != c {
      LexTransitive(a.name, b.name, c.name);
    }
  }

  // ----- The sort

  function Insert(r: Row, sorted: seq<Row>): seq<Row> {
    if sorted == [] || !Before(KeyOf(sorted[0]), KeyOf(r)) then [r] + sorted
    else [sorted[0]] + Insert(r, sorted[1..])
  }

  function Ranked(rows: seq<Row>): seq<Row> {
    if rows == [] then [] else Insert(rows[0], Ranked(rows[1..]))
  }

  lemma {:induction false} WithCons(r: Row, rest: seq<Row>, key: Key)
    ensures With([r] + rest, key) == (if KeyOf(r) == key then [r] else []) + With(rest, key)
  {
    assert ([r] + rest)[1..] == rest;
  }

  lemma {:induction false} InsertWith(r: Row, sorted: seq<Row>, key: Key)
    ensures With(Insert(r, sorted), key) == With([r] + sorted, key)
  {
    WithCons(r, sorted, key);
    if sorted != [] && Before(KeyOf(sorted[0]), KeyOf(r)) {
      InsertWith(r, sorted[1..], key);
      WithCons(sorted[0], Insert(r, sorted[1..]), key);
      WithCons(r, sorted[1..], key);
      BeforeTotal(KeyOf(r), KeyOf(r));
    }
  }

  lemma {:induction false} InsertSorted(r: Row, sorted: seq<Row>)
    requires Sorted(sorted)
    ensures Sorted(Insert(r, sorted))
    ensures multiset(Insert(r, sorted)) == multiset([r] + sorted)
  {
    if sorted == [] {
    } else if !Before(KeyOf(sorted[0]), KeyOf(r)) {
      ConsSorted(r, sorted);
    } else {
      var rest := sorted[1..];
      assert sorted == [sorted[0]] + rest;
      InsertSorted(r, rest);
      InsertHead(r, sorted);
      ConsSorted(sorted[0], Insert(r, rest));
    }
  }

  /** What is inserted into the tail still comes after the head. */
  lemma {:induction false} InsertHead(r: Row, sorted: seq<Row>)
    requires Sorted(sorted) && sorted != [] && Before(KeyOf(sorted[0]), KeyOf(r))
    ensures !Before(KeyOf(Insert(r, sorted[1..])[0]), KeyOf(sorted[0]))
  {
    BeforeTotal(KeyOf(sorted[0]), KeyOf(r));
  }

  lemma {:induction false} ConsSorted(r: Row, rest: seq<Row>)
    requires Sorted(rest) && (rest != [] ==> !Before(KeyOf(rest[0]), KeyOf(r)))
    ensures Sorted([r] + rest)
  {
    var all := [r] + rest;
    forall i, j | 0 <= i < j < |all|
      ensures !Before(KeyOf(all[j]), KeyOf(all[i]))
    {
      if i == 0 && j > 1 {
        BeforeTransitive(KeyOf(r), KeyOf(rest[0]), KeyOf(rest[j - 1]));
      }
    }
  }

  /** The list is a permutation of the rows, sorted, and stable. */
  lemma {:induction false} RankedIsStableSort(rows: seq<Row>)
    ensures StableSortOf(Ranked(rows), rows) && multiset(Ranked(rows)) == multiset(rows)
  {
    if rows == [] {
    } else {
      RankedIsStableSort(rows[1..]);
      InsertSorted(rows[0], Ranked(rows[1..]));
      assert rows == [rows[0]] + rows[1..];
      forall key
        ensures With(Ranked(rows), key) == With(rows, key)
      {
        InsertWith(rows[0], Ranked(rows[1..]), key);
        WithCons(rows[0], Ranked(rows[1..]), key);
      }
    }
  }

  // ----- Nothing else is a stable sort

  lemma {:induction false} HeadOfWith(rows: seq<Row>, key: Key)
    ensures With(rows, key) != [] <==> exists k | 0 <= k < |rows| :: KeyOf(rows[k]) == key
    ensures rows != [] && KeyOf(rows[0]) == key ==> With(rows, key) == [rows[0]] + With(rows[1..], key)
    ensures rows != [] && KeyOf(rows[0]) != key ==> With(rows, key) == With(rows[1..], key)
  {
    if rows == [] {
    } else {
      HeadOfWith(rows[1..], key);
      if k :| 0 <= k < |rows| && KeyOf(rows[k]) == key {
        assert k == 0 || KeyOf(rows[1..][k - 1]) == key;
      }
      if k :| 0 <= k < |rows| - 1 && KeyOf(rows[1..][k]) == key {
        assert KeyOf(rows[k + 1]) == key;
      }
    }
  }

  /** Two sorted lists with the same rows under each key start alike. */
  lemma {:induction false} SameHead(a: seq<Row>, b: seq<Row>)
    requires Sorted(a) && Sorted(b) && a != []
    requires forall key :: With(a, key) == With(b, key)
    ensures b != [] && a[0] == b[0]
  {
    SameHeadKey(a, b);
    var key := KeyOf(a[0]);
    HeadOfWith(a, key);
    HeadOfWith(b, key);
    assert With(a, key)[0] == a[0] && With(b, key)[0] == b[0];
  }

  lemma {:induction false} StableSortIsUnique(a: seq<Row>, b: seq<Row>)
    requires Sorted(a) && Sorted(b)
    requires forall key :: With(a, key) == With(b, key)
    ensures a == b
  {
    if a == [] {
      if b != [] {
        SameHead(b, a);
      }
    } else {
      SameHead(a, b);
      forall key
        ensures With(a[1..], key) == With(b[1..], key)
      {
        TailsWith(a, b, key);
      }
      StableSortIsUnique(a[1..], b[1..]);
      assert a == [a[0]] + a[1..] && b == [b[0]] + b[1..];
    }
  }

  lemma {:induction false} TailsWith(a: seq<Row>, b: seq<Row>, key: Key)
    requires a != [] && b != [] && a[0] == b[0] && With(a, key) == With(b, key)
    ensures With(a[1..], key) == With(b[1..], key)
  {
    HeadOfWith(a, key);
    HeadOfWith(b, key);
    if KeyOf(a[0]) == key {
      assert ([a[0]] + With(a[1..], key))[1..] == With(a[1..], key);
      assert ([b[0]] + With(b[1..], key))[1..] == With(b[1..], key);
    }
  }

  /** sort.SliceStable can only give this list. */
  lemma {:induction false} OnlyOneStableSort(sorted: seq<Row>, rows: seq<Row>)
    requires StableSortOf(sorted, rows)
    ensures sorted == Ranked(rows)
  {
    RankedIsStableSort(rows);
    StableSortIsUnique(sorted, Ranked(rows));
  }

  // ----- Which of it the map order can change

  function KeysOf(rows: seq<Row>): (keys: seq<Key>)
    ensures |keys| == |rows| && forall k | 0 <= k < |rows| :: keys[k] == KeyOf(rows[k])
  {
    seq(|rows|, k requires 0 <= k < |rows| => KeyOf(rows[k]))
  }

  lemma {:induction false} WithoutRow(rows: seq<Row>, r: Row) returns (rest: seq<Row>)
    requires r in rows
    ensures multiset(rest) == multiset(rows) - multiset{r} && |rest| == |rows| - 1
    ensures forall key :: |With(rest, key)| == |With(rows, key)| - if KeyOf(r) == key then 1 else 0
  {
    assert rows == [rows[0]] + rows[1..];
    if rows[0] == r {
      rest := rows[1..];
    } else {
      var tail := WithoutRow(rows[1..], r);
      rest := [rows[0]] + tail;
      forall key
        ensures |With(rest, key)| == |With(rows, key)| - if KeyOf(r) == key then 1 else 0
      {
        WithCons(rows[0], tail, key);
      }
    }
  }

  /** How many rows share a key does not depend on their order. */
  lemma {:induction false} SameTally(a: seq<Row>, b: seq<Row>, key: Key)
    requires multiset(a) == multiset(b)
    ensures |With(a, key)| == |With(b, key)|
    decreases |a|
  {
    if a == [] {
      assert |multiset(a)| == |a| && |multiset(b)| == |b|;
    } else {
      assert a == [a[0]] + a[1..];
      assert a[0] in multiset(b);
      var rest := WithoutRow(b, a[0]);
      SameTally(a[1..], rest, key);
    }
  }

  /** A sorted list of keys is fixed by how often each key occurs. */
  lemma {:induction false} SameKeys(a: seq<Row>, b: seq<Row>)
    requires Sorted(a) && Sorted(b)
    requires forall key :: |With(a, key)| == |With(b, key)|
    ensures KeysOf(a) == KeysOf(b)
    decreases |a|
  {
    if a == [] {
      if b != [] {
        HeadOfWith(b, KeyOf(b[0]));
      }
    } else {
      SameHeadKey(a, b);
      forall key
        ensures |With(a[1..], key)| == |With(b[1..], key)|
      {
        assert |With(a, key)| == |With(b, key)|;
      }
      SameKeys(a[1..], b[1..]);
      assert KeysOf(a) == [KeyOf(a[0])] + KeysOf(a[1..]);
      assert KeysOf(b) == [KeyOf(b[0])] + KeysOf(b[1..]);
    }
  }

  lemma {:induction false} SameHeadKey(a: seq<Row>, b: seq<Row>)
    requires Sorted(a) && Sorted(b) && a != []
    requires forall key :: |With(a, key)| == |With(b, key)|
    ensures b != [] && KeyOf(a[0]) == KeyOf(b[0])
  {
    var ka := KeyOf(a[0]);
    HeadOfWith(a, ka);
    assert |With(a, ka)| == |With(b, ka)|;
    HeadOfWith(b, ka);
    var kb := KeyOf(b[0]);
    HeadOfWith(b, kb);
    assert |With(a, kb)| == |With(b, kb)|;
    HeadOfWith(a, kb);
    BeforeTotal(ka, kb);
  }

  /** For every order in which the map hands out its rows, the reported counts
      and names are the same, position by position. */
  lemma {:induction false} MapOrderKeepsKeys(rows: seq<Row>, other: seq<Row>)
    requires multiset(rows) == multiset(other)
    ensures KeysOf(Ranked(rows)) == KeysOf(Ranked(other))
  {
    RankedIsStableSort(rows);
    RankedIsStableSort(other);
    forall key
      ensures |With(Ranked(rows), key)| == |With(Ranked(other), key)|
    {
      SameTally(rows, other, key);
    }
    SameKeys(Ranked(rows), Ranked(other));
  }

  ghost predicate NoTies(rows: seq<Row>) {
    forall r, s | r in rows && s in rows && KeyOf(r) == KeyOf(s) :: r == s
  }

  ghost predicate NoDuplicates(rows: seq<Row>) {
    forall i, j | 0 <= i < j < |rows| :: rows[i] != rows[j]
  }

  lemma {:induction false} WithAppend(rows: seq<Row>, r: Row, key: Key)
    ensures With(rows + [r], key) == With(rows, key) + if KeyOf(r) == key then [r] else []
  {
    if rows == [] {
      assert rows + [r] == [r] + [];
      WithCons(r, [], key);
    } else {
      WithAppend(rows[1..], r, key);
      assert rows + [r] == [rows[0]] + (rows[1..] + [r]);
      WithCons(rows[0], rows[1..] + [r], key);
    }
  }

  function Reversed(rows: seq<Row>): seq<Row> {
    if rows == [] then [] else Reversed(rows[1..]) + [rows[0]]
  }

  lemma {:induction false} ReversedWith(rows: seq<Row>, key: Key)
    ensures With(Reversed(rows), key) == Reversed(With(rows, key))
    ensures multiset(Reversed(rows)) == multiset(rows) && |Reversed(rows)| == |rows|
  {
    if rows == [] {
    } else {
      ReversedWith(rows[1..], key);
      WithAppend(Reversed(rows[1..]), rows[0], key);
      assert rows == [rows[0]] + rows[1..];
      HeadOfWith(rows, key);
      if KeyOf(rows[0]) == key {
        assert ([rows[0]] + With(rows[1..], key))[1..] == With(rows[1..], key);
      } else {
        assert Reversed(With(rows[1..], key)) + [] == Reversed(With(rows[1..], key));
      }
    }
  }

  lemma {:induction false} ReversedEnds(rows: seq<Row>)
    requires rows != []
    ensures |Reversed(rows)| == |rows| && Reversed(rows)[0] == rows[|rows| - 1]
  {
    if |rows| <= 1 {
    } else {
      ReversedEnds(rows[1..]);
    }
  }

  lemma {:induction false} WithKeeps(rows: seq<Row>, key: Key)
    ensures forall r :: r in With(rows, key) <==> r in rows && KeyOf(r) == key
    ensures NoDuplicates(rows) ==> NoDuplicates(With(rows, key))
  {
    if rows == [] {
    } else {
      WithKeeps(rows[1..], key);
    }
  }

  /** With a tie, two orders of the rows give two lists. */
  lemma {:induction false} TieShows(rows: seq<Row>, r: Row, s: Row)
    requires NoDuplicates(rows) && r in rows && s in rows && KeyOf(r) == KeyOf(s) && r != s
    ensures multiset(Reversed(rows)) == multiset(rows) && Ranked(Reversed(rows)) != Ranked(rows)
  {
    var tied := With(rows, KeyOf(r));
    WithKeeps(rows, KeyOf(r));
    ReversedWith(rows, KeyOf(r));
    assert r in tied && s in tied;
    ReversedEnds(tied);
    RankedIsStableSort(rows);
    RankedIsStableSort(Reversed(rows));
    assert With(Ranked(rows), KeyOf(r)) == tied;
    assert With(Ranked(Reversed(rows)), KeyOf(r)) == Reversed(tied);
  }

  lemma {:induction false} NoTieHidesOrder(rows: seq<Row>, other: seq<Row>)
    requires NoTies(rows) && multiset(rows) == multiset(other)
    ensures Ranked(rows) == Ranked(other)
  {
    var a, b := Ranked(rows), Ranked(other);
    RankedIsStableSort(rows);
    RankedIsStableSort(other);
    MapOrderKeepsKeys(rows, other);
    assert |a| == |KeysOf(a)| == |KeysOf(b)| == |b|;
    forall k | 0 <= k < |a|
      ensures a[k] == b[k]
    {
      assert KeysOf(a)[k] == KeysOf(b)[k];
      assert a[k] in multiset(a) && b[k] in multiset(b);
      assert a[k] in rows && b[k] in rows;
    }
  }

  /** The whole list is the same for every map order exactly when no two of its
      rows have the same count and the same name. */
  lemma {:induction false} MapOrderShowsIffTie(rows: seq<Row>)
    requires NoDuplicates(rows)
    ensures NoTies(rows)
            <==> forall other: seq<Row> | multiset(rows) == multiset(other) :: Ranked(rows) == Ranked(other)
  {
    if NoTies(rows) {
      forall other: seq<Row> | multiset(rows) == multiset(other)
        ensures Ranked(rows) == Ranked(other)
      {
        NoTieHidesOrder(rows, other);
      }
    } else {
      var r, s :| r in rows && s in rows && KeyOf(r) == KeyOf(s) && r != s;
      TieShows(rows, r, s);
    }
  }

  // ----- The report

  /** Copy the rows out of the map, in whatever order it yields them. */
  method Materialize(agg: map<string, Row>) returns (rows: seq<Row>)
    requires forall id | id in agg :: agg[id].id == id
    ensures multiset(rows) == multiset(agg.Values)
  {
    rows := [];
    var todo := agg.Keys;
    ghost var done: set<Row> := {};
    while todo != {}
      invariant todo <= agg.Keys
      invariant forall r :: r in done <==> r.id in agg && r == agg[r.id] && r.id !in todo
      invariant multiset(rows) == multiset(done)
      decreases |todo|
    {
      var id :| id in todo;
      todo := todo - {id};
      rows := rows + [agg[id]];
      done := done + {agg[id]};
    }
    assert done == agg.Values;
  }

  method SortRecentFailures(rows: seq<Row>) returns (sorted: seq<Row>)
    ensures StableSortOf(sorted, rows) && multiset(sorted) == multiset(rows)
  {
    RankedIsStableSort(rows);
    return Ranked(rows);
  }

  function RowIds(rows: seq<Row>): (ids: seq<string>)
    ensures |ids| == |rows| && forall k | 0 <= k < |rows| :: ids[k] == rows[k].id
  {
    seq(|rows|, k requires 0 <= k < |rows| => rows[k].id)
  }

  function SumOfCounts(rows: seq<Row>): nat {
    if rows == [] then 0 else SumOfCounts(rows[..|rows| - 1]) + rows[|rows| - 1].failureCount
  }

  /** The list says of every test what RowOf says, once. */
  ghost predicate Reports(rows: seq<Row>, subs: seq<Submission>, results: Results)
    requires |subs| == |results|
  {
    && NoRepeats(RowIds(rows))
    && (forall k | 0 <= k < |rows| :: RowOf(subs, results, |subs|, rows[k].id) == Some(rows[k]))
    && (forall id | RowOf(subs, results, |subs|, id).Some? :: id in RowIds(rows))
  }

  /** One row for every test that failed in some fetched submission, and for no
      other; each tells the truth. */
  ghost predicate ListsFailures(rows: seq<Row>, subs: seq<Submission>, results: Results)
    requires |subs| == |results|
  {
    && NoRepeats(RowIds(rows))
    && (forall id :: id in RowIds(rows) <==> FailsSomewhere(results, id))
    && (forall k | 0 <= k < |rows| :: TellsTruth(rows[k], subs, results))
  }

  lemma ReportsAreTrue(rows: seq<Row>, subs: seq<Submission>, results: Results)
    requires |subs| == |results| && Reports(rows, subs, results)
    ensures ListsFailures(rows, subs, results)
  {
    forall id
      ensures RowOf(subs, results, |subs|, id).Some? <==> FailsSomewhere(results, id)
    {
      ReportedIffFailed(subs, results, |subs|, id);
    }
    forall k | 0 <= k < |rows|
      ensures TellsTruth(rows[k], subs, results)
    {
      RowTellsTruth(subs, results, rows[k].id);
    }
  }

  lemma {:induction false} TwiceIsTwo(rows: seq<Row>, i: nat, j: nat)
    requires i < j < |rows| && rows[i] == rows[j]
    ensures multiset(rows)[rows[i]] >= 2
  {
    assert rows == rows[..j] + rows[j..];
    assert rows[i] == rows[..j][i] && rows[j] == rows[j..][0];
    assert rows[i] in multiset(rows[..j]) && rows[i] in multiset(rows[j..]);
  }

  lemma {:induction false} DumpReports(rows: seq<Row>, agg: map<string, Row>, subs: seq<Submission>, results: Results)
    requires |subs| == |results|
    requires forall id :: Lookup(agg, id) == RowOf(subs, results, |subs|, id)
    requires forall id | id in agg :: agg[id].id == id
    requires multiset(rows) == multiset(agg.Values)
    ensures Reports(rows, subs, results)
  {
    forall k | 0 <= k < |rows|
      ensures rows[k].id in agg && agg[rows[k].id] == rows[k]
    {
      assert rows[k] in multiset(rows);
    }
    forall i, j | 0 <= i < j < |rows|
      ensures rows[i].id != rows[j].id
    {
      assert multiset(agg.Values)[rows[i]] <= 1;
      if rows[i] == rows[j] {
        TwiceIsTwo(rows, i, j);
      }
    }
    forall id | RowOf(subs, results, |subs|, id).Some?
      ensures id in RowIds(rows)
    {
      assert Lookup(agg, id).Some?;
      assert agg[id] in multiset(rows);
      var k :| 0 <= k < |rows| && rows[k] == agg[id];
      assert RowIds(rows)[k] == id;
    }
  }

  lemma {:induction false} SumsAgree(rows: seq<Row>, subs: seq<Submission>, results: Results)
    requires |subs| == |results|
    requires forall k | 0 <= k < |rows| :: RowOf(subs, results, |subs|, rows[k].id) == Some(rows[k])
    ensures SumOfCounts(rows) == SumCounts(RowIds(rows), results, |subs|)
  {
    if rows == [] {
    } else {
      var last := rows[|rows| - 1];
      SumsAgree(rows[..|rows| - 1], subs, results);
      RowCounts(subs, results, |subs|, last.id);
      assert RowIds(rows)[..|rows| - 1] == RowIds(rows[..|rows| - 1]);
    }
  }

  /** The counts of a report add up to the distinct failures per submission. */
  lemma {:induction false} ReportAddsUp(rows: seq<Row>, subs: seq<Submission>, results: Results)
    requires |subs| == |results| && Reports(rows, subs, results)
    ensures SumOfCounts(rows) == TotalFailures(results, |subs|)
  {
    SumsAgree(rows, subs, results);
    forall i, id | 0 <= i < |subs| && Fails(results[i], id)
      ensures id in RowIds(rows)
    {
      ReportedIffFailed(subs, results, |subs|, id);
    }
    CountsAddUp(RowIds(rows), results, |subs|);
  }

  method Report(subs: seq<Submission>, results: Results) returns (failures: seq<Row>)
    requires |subs| == |results|
    ensures WorstFirst(failures) && ListsFailures(failures, subs, results)
    ensures SumOfCounts(failures) == TotalFailures(results, |subs|)
  {
    var agg := Merge(subs, results);
    forall id | id in agg
      ensures agg[id].id == id
    {
      assert Lookup(agg, id).Some?;
      RowCounts(subs, results, |subs|, id);
    }
    var rows := Materialize(agg);
    failures := SortRecentFailures(rows);
    DumpReports(failures, agg, subs, results);
    ReportAddsUp(failures, subs, results);
    ReportsAreTrue(failures, subs, results);
    SortedIsWorstFirst(failures);
  }

  /** Fetch under any schedule, then merge and sort: the report is about what
      the fetches answered, whatever order they answered in. */
  method GetRecentFailures(subs: seq<Submission>, answers: Results, schedule: seq<Event>)
    returns (failures: seq<Row>)
    requires |subs| == |answers| && Schedule(answers, Initial(|answers|), schedule)
    requires After(answers, Initial(|answers|), schedule).merging
    ensures WorstFirst(failures) && ListsFailures(failures, subs, answers)
    ensures SumOfCounts(failures) == TotalFailures(answers, |subs|)
  {
    var results := After(answers, Initial(|answers|), schedule).results;
    ScheduleDoesNotMatter(answers, schedule);
    failures := Report(subs, results);
  }
}
