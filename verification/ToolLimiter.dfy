/** The per-token tool budget of internal/mcpserver/policy.go: pruned lists of
    timestamps, against the plain rule that looks at every call ever admitted.
    Here calls reach the limiter in time order; the program reads the clock
    before it takes the lock, and LateCalls says what remains when they do not. */
module ToolLimiter {
  import opened CallHistory

  const LIMIT: nat := 120
  const WINDOW := 60_000_000_000

  type Hits = map<string, seq<int>>

  /** The key a call is counted under; histories hold the keys callers send. */
  function KeyOf(key: string): string {
    if key == "" then "anonymous" else key
  }

  /** Callers without a token are one caller, together with one who calls itself
      anonymous. */
  predicate SameCaller(a: string, b: string) {
    a == b || ((a == "" || a == "anonymous") && (b == "" || b == "anonymous"))
  }

  function Pruned(ts: seq<int>, cutoff: int): seq<int> {
    if ts == [] || ts[0] > cutoff then ts else Pruned(ts[1..], cutoff)
  }

  function TimesAt(hits: Hits, key: string): seq<int> {
    if KeyOf(key) in hits then hits[KeyOf(key)] else []
  }

  function Swept(hits: Hits, cutoff: int): Hits {
    map k | k in hits && Pruned(hits[k], cutoff) != [] :: Pruned(hits[k], cutoff)
  }

  /** Is a call with this key let through? */
  predicate Allowed(hits: Hits, key: string, now: int) {
    |TimesAt(Swept(hits, now - WINDOW), key)| < LIMIT
  }

  /** The table after the call. */
  function Updated(hits: Hits, key: string, now: int): Hits {
    var kept := Swept(hits, now - WINDOW);
    if Allowed(hits, key, now) then kept[KeyOf(key) := TimesAt(kept, key) + [now]] else kept
  }

  class TokenLimiter {
    var hits: Hits
    ghost var seen: History

    /** The table is what the calls seen have left. */
    ghost predicate Valid()
      reads this
    {
      hits == After(seen)
    }

    constructor ()
      ensures Valid() && seen == Empty
    {
      hits, seen := map[], Empty;
    }

    /** Drop aged-out timestamps; forget keys that have none left. The keys come
        in no particular order. */
    method Sweep(cutoff: int)
      modifies this`hits
      ensures hits == Swept(old(hits), cutoff)
    {
      ghost var was := hits;
      var todo := hits.Keys;
      while todo != {}
        invariant forall k | k in hits :: k in was
        invariant forall k | k in todo :: k in was
        invariant forall k | k in todo :: k in hits && hits[k] == was[k]
        invariant forall k | k in was && k !in todo ::
                    if Pruned(was[k], cutoff) == [] then k !in hits
                    else k in hits && hits[k] == Pruned(was[k], cutoff)
        decreases |todo|
      {
        var k :| k in todo;
        todo := todo - {k};
        var ts := hits[k];
        var j := 0;
        while j < |ts| && ts[j] <= cutoff
          invariant 0 <= j <= |ts|
          invariant Pruned(ts, cutoff) == Pruned(ts[j..], cutoff)
        {
          j := j + 1;
        }
        ts := ts[j..];
        if |ts| == 0 {
          hits := hits - {k};
        } else {
          hits := hits[k := ts];
        }
      }
    }

    /** As long as calls come in time order, a call is let through if and only if
        fewer than 120 of the same caller were let through in the minute before. */
    method Allow(key: string, now: int) returns (ok: bool)
      requires Valid()
      modifies this
      ensures Valid() && seen == Snoc(old(seen), Call(key, now))
      ensures ok == Allowed(old(hits), key, now)
      ensures Ordered(seen) ==> (ok <==> Count(Admitted(old(seen)), key, now - 60_000_000_000, now) < 120)
    {
      VerdictInOrder(seen, hits, key, now);
      seen := Snoc(seen, Call(key, now));
      var k := key;
      if k == "" {
        k := "anonymous";
      }
      Sweep(now - WINDOW);
      var times := if k in hits then hits[k] else [];
      if |times| >= LIMIT {
        return false;
      }
      hits := hits[k := times + [now]];
      return true;
    }
  }

  // ----- The plain rule

  function Count(calls: History, key: string, lo: int, hi: int): nat {
    match calls
    case Empty => 0
    case Snoc(past, c) => Count(past, key, lo, hi) + if SameCaller(c.key, key) && lo < c.at <= hi then 1 else 0
  }

  predicate Fits(admitted: History, c: Call) {
    Count(admitted, c.key, c.at - WINDOW, c.at) < LIMIT
  }

  /** The calls admitted when each is judged by all admitted before it. */
  function Admitted(calls: History): History {
    match calls
    case Empty => Empty
    case Snoc(past, c) => if Fits(Admitted(past), c) then Snoc(Admitted(past), c) else Admitted(past)
  }

  /** The limiter's table after a history of calls. */
  function After(calls: History): Hits {
    match calls
    case Empty => map[]
    case Snoc(past, c) => Updated(After(past), c.key, c.at)
  }

  function TimesOf(calls: History, key: string): seq<int> {
    match calls
    case Empty => []
    case Snoc(past, c) => if SameCaller(c.key, key) then TimesOf(past, key) + [c.at] else TimesOf(past, key)
  }

  predicate Sorted(ts: seq<int>) {
    forall i, j | 0 <= i < j < |ts| :: ts[i] <= ts[j]
  }

  // ----- Pruning

  lemma {:induction false} PrunedSnoc(ts: seq<int>, t: int, cutoff: int)
    requires t > cutoff
    ensures Pruned(ts + [t], cutoff) == Pruned(ts, cutoff) + [t]
  {
    if ts == [] {
      assert ts + [t] == [t];
    } else if ts[0] <= cutoff {
      assert (ts + [t])[1..] == ts[1..] + [t];
      PrunedSnoc(ts[1..], t, cutoff);
    }
  }

  lemma {:induction false} PrunedTwice(ts: seq<int>, earlier: int, later: int)
    requires earlier <= later
    ensures Pruned(Pruned(ts, earlier), later) == Pruned(ts, later)
  {
    if ts == [] || ts[0] > earlier {
    } else {
      PrunedTwice(ts[1..], earlier, later);
    }
  }

  lemma {:induction false} PrunedSorted(ts: seq<int>, cutoff: int)
    requires Sorted(ts)
    ensures Sorted(Pruned(ts, cutoff))
  {
    if ts == [] || ts[0] > cutoff {
    } else {
      PrunedSorted(ts[1..], cutoff);
    }
  }

  lemma {:induction false} AllPruned(ts: seq<int>, cutoff: int)
    requires forall i | 0 <= i < |ts| :: ts[i] <= cutoff
    ensures Pruned(ts, cutoff) == []
  {
    if ts == [] {
    } else {
      AllPruned(ts[1..], cutoff);
    }
  }

  lemma {:induction false} TimesBounded(calls: History, key: string, hi: int)
    requires NoLaterThan(calls, hi)
    ensures forall i | 0 <= i < |TimesOf(calls, key)| :: TimesOf(calls, key)[i] <= hi
  {
    if calls.Empty? {
    } else {
      TimesBounded(calls.past, key, hi);
    }
  }

  lemma {:induction false} NoneAfter(calls: History, key: string, lo: int, hi: int)
    requires NoLaterThan(calls, lo)
    ensures Count(calls, key, lo, hi) == 0
  {
    if calls.Empty? {
    } else {
      NoneAfter(calls.past, key, lo, hi);
    }
  }

  lemma {:induction false} TimesSorted(calls: History, key: string)
    requires Ordered(calls)
    ensures Sorted(TimesOf(calls, key))
  {
    if calls.Empty? {
    } else {
      TimesSorted(calls.past, key);
      TimesBounded(calls.past, key, calls.last.at);
    }
  }

  /** On a list in order, pruning from the front keeps exactly the entries after
      the cutoff. */
  lemma {:induction false} PrunedCounts(calls: History, key: string, lo: int, hi: int)
    requires Ordered(calls) && NoLaterThan(calls, hi)
    ensures |Pruned(TimesOf(calls, key), lo)| == Count(calls, key, lo, hi)
  {
    if calls.Empty? {
    } else {
      var c := calls.last;
      PrunedCounts(calls.past, key, lo, hi);
      if SameCaller(c.key, key) && c.at > lo {
        PrunedSnoc(TimesOf(calls.past, key), c.at, lo);
      } else if SameCaller(c.key, key) {
        TimesBounded(calls, key, c.at);
        AllPruned(TimesOf(calls, key), lo);
        NoneAfter(calls, key, c.at, hi);
        CountWidens(calls, key, lo, c.at, hi, hi);
      }
    }
  }

  lemma {:induction false} CountWidens(calls: History, key: string, lo: int, lo': int, hi: int, hi': int)
    requires lo' <= lo && (hi <= hi' || NoLaterThan(calls, hi'))
    ensures Count(calls, key, lo, hi) <= Count(calls, key, lo', hi')
  {
    if calls.Empty? {
    } else {
      CountWidens(calls.past, key, lo, lo', hi, hi');
    }
  }

  lemma {:induction false} SameCount(calls: History, a: string, b: string, lo: int, hi: int)
    requires SameCaller(a, b)
    ensures Count(calls, a, lo, hi) == Count(calls, b, lo, hi)
  {
    if calls.Empty? {
    } else {
      SameCount(calls.past, a, b, lo, hi);
    }
  }

  // ----- Refinement

  lemma {:induction false} AdmittedInOrder(calls: History)
    requires Ordered(calls)
    ensures Ordered(Admitted(calls))
  {
    if calls.Empty? {
    } else {
      AdmittedInOrder(calls.past);
      AdmittedBounded(calls.past, calls.last.at);
    }
  }

  lemma {:induction false} AdmittedBounded(calls: History, now: int)
    requires NoLaterThan(calls, now)
    ensures NoLaterThan(Admitted(calls), now)
  {
    if calls.Empty? {
    } else {
      AdmittedBounded(calls.past, now);
    }
  }

  /** The table holds, for each key, the admitted times still in the window. */
  predicate Holds(hits: Hits, admitted: History, cutoff: int, key: string) {
    && TimesAt(hits, key) == Pruned(TimesOf(admitted, key), cutoff)
    && (KeyOf(key) in hits <==> Pruned(TimesOf(admitted, key), cutoff) != [])
  }

  lemma {:induction false} SweepHolds(hits: Hits, admitted: History, earlier: int, later: int, key: string)
    requires Holds(hits, admitted, earlier, key) && earlier <= later
    ensures Holds(Swept(hits, later), admitted, later, key)
  {
    PrunedTwice(TimesOf(admitted, key), earlier, later);
    assert Pruned([], later) == [];
  }

  /** All a call at now needs to know about the table and the calls admitted. */
  ghost predicate Faithful(hits: Hits, admitted: History, now: int, key: string) {
    && Ordered(admitted)
    && NoLaterThan(admitted, now)
    && exists cutoff :: cutoff <= now - WINDOW && Holds(hits, admitted, cutoff, key)
  }

  lemma {:induction false} VerdictFits(hits: Hits, admitted: History, c: Call)
    requires Faithful(hits, admitted, c.at, c.key)
    ensures Allowed(hits, c.key, c.at) <==> Fits(admitted, c)
  {
    var cutoff :| cutoff <= c.at - WINDOW && Holds(hits, admitted, cutoff, c.key);
    SweepHolds(hits, admitted, cutoff, c.at - WINDOW, c.key);
    PrunedCounts(admitted, c.key, c.at - WINDOW, c.at);
  }

  lemma {:induction false} AdmitHolds(kept: Hits, admitted: History, c: Call, key: string)
    requires Holds(kept, admitted, c.at - WINDOW, key)
    ensures Holds(kept[KeyOf(c.key) := TimesAt(kept, c.key) + [c.at]], Snoc(admitted, c), c.at - WINDOW, key)
  {
    if SameCaller(c.key, key) {
      PrunedSnoc(TimesOf(admitted, key), c.at, c.at - WINDOW);
    }
  }

  lemma {:induction false} UpdateHolds(hits: Hits, admitted: History, c: Call, key: string)
    requires Faithful(hits, admitted, c.at, key)
    requires Allowed(hits, c.key, c.at) <==> Fits(admitted, c)
    ensures Holds(Updated(hits, c.key, c.at), if Fits(admitted, c) then Snoc(admitted, c) else admitted,
                  c.at - WINDOW, key)
  {
    var cutoff :| cutoff <= c.at - WINDOW && Holds(hits, admitted, cutoff, key);
    SweepHolds(hits, admitted, cutoff, c.at - WINDOW, key);
    AdmitHolds(Swept(hits, c.at - WINDOW), admitted, c, key);
  }

  lemma {:induction false} FirstCall(now: int, key: string)
    ensures Faithful(map[], Empty, now, key)
  {
    assert Holds(map[], Empty, now - WINDOW, key);
  }

  /** What the limiter has forgotten no longer matters: after any calls in time
      order its table holds exactly what the plain rule will ask for. */
  lemma {:induction false} TableHolds(calls: History, now: int, key: string)
    requires Ordered(calls) && NoLaterThan(calls, now)
    ensures Faithful(After(calls), Admitted(calls), now, key)
    ensures calls.Snoc? ==> Holds(After(calls), Admitted(calls), calls.last.at - WINDOW, key)
  {
    if calls.Empty? {
      FirstCall(now, key);
    } else {
      var past, c := calls.past, calls.last;
      TableHolds(past, c.at, key);
      TableHolds(past, c.at, c.key);
      VerdictFits(After(past), Admitted(past), c);
      UpdateHolds(After(past), Admitted(past), c, key);
      AdmittedInOrder(calls);
      AdmittedBounded(calls, now);
    }
  }

  /** The limiter decides as the plain rule does, although it forgets. */
  lemma {:induction false} LimiterRefinesRule(calls: History, c: Call)
    requires Ordered(Snoc(calls, c))
    ensures Allowed(After(calls), c.key, c.at)
            <==> Count(Admitted(calls), c.key, c.at - WINDOW, c.at) < LIMIT
  {
    TableHolds(calls, c.at, c.key);
    VerdictFits(After(calls), Admitted(calls), c);
  }

  lemma VerdictInOrder(calls: History, hits: Hits, key: string, now: int)
    requires hits == After(calls)
    ensures Ordered(Snoc(calls, Call(key, now))) ==>
              (Allowed(hits, key, now) <==> Count(Admitted(calls), key, now - 60_000_000_000, now) < 120)
  {
    if Ordered(Snoc(calls, Call(key, now))) {
      LimiterRefinesRule(calls, Call(key, now));
    }
  }

  // ----- No window is ever overfull

  /** In no stretch of one minute, wherever it starts, are more than LIMIT calls
      of one key admitted. */
  lemma {:induction false} WindowNeverOverfull(calls: History, key: string, start: int)
    requires Ordered(calls)
    ensures Count(Admitted(calls), key, start, start + WINDOW) <= LIMIT
  {
    if calls.Empty? {
    } else {
      var past, c := calls.past, calls.last;
      WindowNeverOverfull(past, key, start);
      AdmittedBounded(past, c.at);
      if SameCaller(c.key, key) && start < c.at <= start + WINDOW {
        SameCount(Admitted(past), c.key, key, c.at - WINDOW, c.at);
        CountWidens(Admitted(past), key, start, c.at - WINDOW, start + WINDOW, c.at);
      }
    }
  }

  /** After every call: a caller is in the table exactly when it has an admission in
      the current window, and its list is those admissions, in order, few. */
  lemma {:induction false} TableIsExact(calls: History, key: string)
    requires Ordered(calls) && calls.Snoc?
    ensures var now := calls.last.at;
            var recent := Count(Admitted(calls), key, now - WINDOW, now);
            && (KeyOf(key) in After(calls) <==> recent > 0)
            && TimesAt(After(calls), key) == Pruned(TimesOf(Admitted(calls), key), now - WINDOW)
            && |TimesAt(After(calls), key)| == recent <= LIMIT
            && Sorted(TimesAt(After(calls), key))
  {
    var now := calls.last.at;
    TableHolds(calls, now, key);
    RecentIsExact(calls, key, now);
  }

  lemma {:induction false} RecentIsExact(calls: History, key: string, now: int)
    requires Ordered(calls) && NoLaterThan(calls, now)
    ensures var recent := Pruned(TimesOf(Admitted(calls), key), now - WINDOW);
            |recent| == Count(Admitted(calls), key, now - WINDOW, now) <= LIMIT && Sorted(recent)
  {
    AdmittedInOrder(calls);
    AdmittedBounded(calls, now);
    PrunedCounts(Admitted(calls), key, now - WINDOW, now);
    TimesSorted(Admitted(calls), key);
    PrunedSorted(TimesOf(Admitted(calls), key), now - WINDOW);
    WindowNeverOverfull(calls, key, now - WINDOW);
  }

  // ----- Isolation

  function Only(calls: History, key: string): History {
    match calls
    case Empty => Empty
    case Snoc(past, c) => if SameCaller(c.key, key) then Snoc(Only(past, key), c) else Only(past, key)
  }

  lemma {:induction false} CountOnly(calls: History, key: string, lo: int, hi: int)
    ensures Count(Only(calls, key), key, lo, hi) == Count(calls, key, lo, hi)
  {
    if calls.Empty? {
    } else {
      CountOnly(calls.past, key, lo, hi);
    }
  }

  /** Judging by the rule commutes with leaving out the other keys. */
  lemma {:induction false} AdmittedOnly(calls: History, key: string)
    ensures Only(Admitted(calls), key) == Admitted(Only(calls, key))
  {
    if calls.Empty? {
    } else {
      var c := calls.last;
      AdmittedOnly(calls.past, key);
      if SameCaller(c.key, key) {
        CountOnly(Admitted(calls.past), key, c.at - WINDOW, c.at);
        SameCount(Admitted(calls.past), c.key, key, c.at - WINDOW, c.at);
        SameCount(Admitted(Only(calls.past, key)), c.key, key, c.at - WINDOW, c.at);
      }
    }
  }

  lemma {:induction false} OnlyOrdered(calls: History, key: string)
    requires Ordered(calls)
    ensures Ordered(Only(calls, key))
  {
    if calls.Empty? {
    } else {
      OnlyOrdered(calls.past, key);
      OnlyBounded(calls.past, key, calls.last.at);
    }
  }

  lemma {:induction false} OnlyBounded(calls: History, key: string, now: int)
    requires NoLaterThan(calls, now)
    ensures NoLaterThan(Only(calls, key), now)
  {
    if calls.Empty? {
    } else {
      OnlyBounded(calls.past, key, now);
    }
  }

  /** One token's traffic never changes another token's verdicts, although every
      call prunes every list. */
  lemma {:induction false} KeysAreIsolated(calls: History, c: Call)
    requires Ordered(Snoc(calls, c))
    ensures Allowed(After(calls), c.key, c.at) == Allowed(After(Only(calls, c.key)), c.key, c.at)
  {
    OnlyOrdered(calls, c.key);
    OnlyBounded(calls, c.key, c.at);
    LimiterRefinesRule(calls, c);
    LimiterRefinesRule(Only(calls, c.key), c);
    AdmittedOnly(calls, c.key);
    CountOnly(Admitted(calls), c.key, c.at - WINDOW, c.at);
  }

  // ----- Who shares a budget

  /** A call of a can change the verdict on a later call of b. */
  ghost predicate ShareBudget(a: string, b: string) {
    exists calls: History, t: int, now: int :: Interferes(calls, Call(a, t), Call(b, now))
  }

  predicate Interferes(calls: History, c: Call, d: Call) {
    && Ordered(Snoc(Snoc(calls, c), d))
    && Allowed(After(Snoc(calls, c)), d.key, d.at) != Allowed(After(calls), d.key, d.at)
  }

  lemma {:induction false} BurstAdmitted(key: string, at: int, k: nat)
    requires k <= LIMIT
    ensures var calls := Burst(Empty, key, at, k);
            Admitted(calls) == calls && Count(calls, key, at - WINDOW, at) == k
  {
    if k == 0 {
    } else {
      BurstAdmitted(key, at, k - 1);
    }
  }

  lemma BudgetLasts(a: string, b: string, at: int, k: nat)
    requires SameCaller(a, b) && k <= LIMIT
    ensures var calls := Burst(Empty, a, at, k);
            Ordered(Snoc(calls, Call(b, at))) && (Allowed(After(calls), b, at) <==> k < LIMIT)
  {
    var calls := Burst(Empty, a, at, k);
    BurstInTime(Empty, a, at, k, 0);
    BurstAdmitted(a, at, k);
    SameCount(calls, a, b, at - WINDOW, at);
    LimiterRefinesRule(calls, Call(b, at));
  }

  /** After one call less than the limit, at one moment, a caller's next is let
      through; after one more, not. */
  lemma BudgetRunsOut(a: string, b: string, at: int, k: nat)
    requires SameCaller(a, b) && k + 1 == LIMIT
    ensures Interferes(Burst(Empty, a, at, k), Call(a, at), Call(b, at))
  {
    BudgetLasts(a, b, at, k);
    BudgetLasts(a, b, at, k + 1);
    assert Burst(Empty, a, at, k + 1) == Snoc(Burst(Empty, a, at, k), Call(a, at));
  }

  lemma OthersDoNotInterfere(calls: History, c: Call, d: Call)
    requires Ordered(Snoc(Snoc(calls, c), d)) && !SameCaller(c.key, d.key)
    ensures !Interferes(calls, c, d)
  {
    assert Ordered(Snoc(calls, c));
    LaterStill(calls, c.at, d.at);
    KeysAreIsolated(Snoc(calls, c), d);
    KeysAreIsolated(calls, d);
    assert Only(Snoc(calls, c), d.key) == Only(calls, d.key);
  }

  /** Two callers share a budget exactly when they are the same, those without a
      token taken for one. */
  lemma BudgetIsSharedIffSame(a: string, b: string)
    ensures ShareBudget(a, b) <==> a == b || ((a == "" || a == "anonymous") && (b == "" || b == "anonymous"))
  {
    if SameCaller(a, b) {
      BudgetRunsOut(a, b, 0, LIMIT - 1);
    } else {
      forall calls: History, t: int, now: int
        ensures !Interferes(calls, Call(a, t), Call(b, now))
      {
        if Ordered(Snoc(Snoc(calls, Call(a, t)), Call(b, now))) {
          OthersDoNotInterfere(calls, Call(a, t), Call(b, now));
        }
      }
    }
  }
}
