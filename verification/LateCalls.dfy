/** The tool budget when calls reach the limiter out of time order, because the
    clock is read before the lock is taken (internal/mcpserver/policy.go:119).
    Skew bounds how much older a clock reading may be than one before it. */
module LateCalls {
  import opened CallHistory
  import opened ToolLimiter

  /** The calls the limiter lets through, in the order it sees them. */
  function Passed(calls: History): History {
    match calls
    case Empty => Empty
    case Snoc(past, c) => if Allowed(After(past), c.key, c.at) then Snoc(Passed(past), c) else Passed(past)
  }

  lemma {:induction false} PassedNoLater(calls: History, now: int)
    requires NoLaterThan(calls, now)
    ensures NoLaterThan(Passed(calls), now)
  {
    match calls
    case Empty =>
    case Snoc(past, _) => PassedNoLater(past, now);
  }

  // ----- What is still remembered

  function CountOver(ts: seq<int>, lo: int): nat {
    if ts == [] then 0 else CountOver(ts[..|ts| - 1], lo) + if ts[|ts| - 1] > lo then 1 else 0
  }

  lemma {:induction false} CountOverSnoc(ts: seq<int>, t: int, lo: int)
    ensures CountOver(ts + [t], lo) == CountOver(ts, lo) + if t > lo then 1 else 0
  {
    assert (ts + [t])[..|ts|] == ts;
  }

  lemma {:induction false} CountOverCons(ts: seq<int>, lo: int)
    requires ts != []
    ensures CountOver(ts, lo) == CountOver(ts[1..], lo) + if ts[0] > lo then 1 else 0
  {
    if |ts| == 1 {
    } else {
      CountOverCons(ts[..|ts| - 1], lo);
      assert ts[..|ts| - 1][1..] == ts[1..][..|ts| - 2];
    }
  }

  lemma {:induction false} CountOverPruned(ts: seq<int>, cutoff: int, lo: int)
    requires cutoff <= lo
    ensures CountOver(Pruned(ts, cutoff), lo) == CountOver(ts, lo) && CountOver(ts, lo) <= |ts|
  {
    if ts == [] {
    } else {
      CountOverCons(ts, lo);
      CountOverPruned(ts[1..], cutoff, lo);
    }
  }

  lemma {:induction false} CountOverAll(ts: seq<int>, lo: int)
    requires forall i | 0 <= i < |ts| :: ts[i] > lo
    ensures CountOver(ts, lo) == |ts|
  {
    if ts == [] {
    } else {
      CountOverAll(ts[..|ts| - 1], lo);
    }
  }

  lemma {:induction false} SweepKeepsRecent(hits: Hits, key: string, cutoff: int, lo: int)
    requires cutoff <= lo
    ensures CountOver(TimesAt(Swept(hits, cutoff), key), lo) == CountOver(TimesAt(hits, key), lo)
  {
    CountOverPruned(TimesAt(hits, key), cutoff, lo);
  }

  lemma {:induction false} UpdateCounts(hits: Hits, c: Call, key: string, lo: int)
    ensures CountOver(TimesAt(Updated(hits, c.key, c.at), key), lo)
            == CountOver(TimesAt(Swept(hits, c.at - WINDOW), key), lo)
               + if SameCaller(c.key, key) && Allowed(hits, c.key, c.at) && c.at > lo then 1 else 0
  {
    CountOverSnoc(TimesAt(Swept(hits, c.at - WINDOW), key), c.at, lo);
  }

  /** In whatever order calls arrive, nothing newer than lo is forgotten as long
      as no clock has read more than a minute past lo. */
  lemma {:induction false} NothingRecentForgotten(calls: History, key: string, lo: int)
    requires NoLaterThan(calls, lo + WINDOW)
    ensures CountOver(TimesAt(After(calls), key), lo) == CountOver(TimesOf(Passed(calls), key), lo)
  {
    match calls
    case Empty =>
    case Snoc(past, c) =>
      NothingRecentForgotten(past, key, lo);
      SweepKeepsRecent(After(past), key, c.at - WINDOW, lo);
      UpdateCounts(After(past), c, key, lo);
      CountOverSnoc(TimesOf(Passed(past), key), c.at, lo);
  }

  lemma {:induction false} CountIsOver(calls: History, key: string, lo: int, hi: int)
    ensures Count(calls, key, lo, hi) <= CountOver(TimesOf(calls, key), lo)
    ensures NoLaterThan(calls, hi) ==> Count(calls, key, lo, hi) == CountOver(TimesOf(calls, key), lo)
  {
    match calls
    case Empty =>
    case Snoc(past, c) =>
      CountIsOver(past, key, lo, hi);
      CountOverSnoc(TimesOf(past, key), c.at, lo);
  }

  // ----- What is remembered too long

  /** Entries follow each other with at most this much going back. */
  predicate Drooping(ts: seq<int>, skew: nat) {
    forall i, j | 0 <= i < j < |ts| :: ts[i] <= ts[j] + skew
  }

  lemma {:induction false} PrunedDroops(ts: seq<int>, cutoff: int, skew: nat)
    requires Drooping(ts, skew)
    ensures Drooping(Pruned(ts, cutoff), skew)
    ensures forall i | 0 <= i < |Pruned(ts, cutoff)| :: Pruned(ts, cutoff)[i] > cutoff - skew
  {
    if ts == [] || ts[0] > cutoff {
    } else {
      PrunedDroops(ts[1..], cutoff, skew);
    }
  }

  predicate UpTo(ts: seq<int>, now: int) {
    forall i | 0 <= i < |ts| :: ts[i] <= now
  }

  lemma {:induction false} PrunedUpTo(ts: seq<int>, cutoff: int, now: int)
    requires UpTo(ts, now)
    ensures UpTo(Pruned(ts, cutoff), now)
  {
    if ts == [] || ts[0] > cutoff {
    } else {
      PrunedUpTo(ts[1..], cutoff, now);
    }
  }

  /** The lists of a table that has seen calls with this skew, up to now. */
  predicate Sagging(hits: Hits, skew: nat, key: string, now: int) {
    Drooping(TimesAt(hits, key), skew) && UpTo(TimesAt(hits, key), now)
  }

  lemma {:induction false} SweepSags(hits: Hits, skew: nat, key: string, now: int, cutoff: int)
    requires Sagging(hits, skew, key, now)
    ensures Sagging(Swept(hits, cutoff), skew, key, now)
    ensures var kept := TimesAt(Swept(hits, cutoff), key);
            forall i | 0 <= i < |kept| :: kept[i] > cutoff - skew
  {
    PrunedDroops(TimesAt(hits, key), cutoff, skew);
    PrunedUpTo(TimesAt(hits, key), cutoff, now);
  }

  lemma {:induction false} AppendSags(ts: seq<int>, at: int, skew: nat, now: int)
    requires Drooping(ts, skew) && UpTo(ts, at + skew) && UpTo(ts, now) && at <= now
    ensures Drooping(ts + [at], skew) && UpTo(ts + [at], now)
  {
  }

  lemma {:induction false} UpdateSags(hits: Hits, skew: nat, key: string, c: Call, now: int)
    requires Sagging(hits, skew, key, c.at + skew) && Sagging(hits, skew, key, now) && c.at <= now
    ensures Sagging(Updated(hits, c.key, c.at), skew, key, now)
  {
    SweepSags(hits, skew, key, c.at + skew, c.at - WINDOW);
    SweepSags(hits, skew, key, now, c.at - WINDOW);
    AppendSags(TimesAt(Swept(hits, c.at - WINDOW), key), c.at, skew, now);
  }

  lemma {:induction false} TableSags(calls: History, skew: nat, key: string, now: int)
    requires Skewed(calls, skew) && NoLaterThan(calls, now)
    ensures Sagging(After(calls), skew, key, now)
  {
    match calls
    case Empty =>
    case Snoc(past, c) =>
      TableSags(past, skew, key, c.at + skew);
      TableSags(past, skew, key, now);
      UpdateSags(After(past), skew, key, c, now);
  }

  // ----- The verdict, to within the skew

  /** How many entries a call finds: at least the admissions of the minute up to
      the latest clock reading there can have been, at most those of its own
      minute widened by the skew on both sides. */
  predicate Finds(hits: Hits, passed: History, c: Call, skew: nat) {
    Count(passed, c.key, c.at + skew - WINDOW, c.at + skew)
    <= |TimesAt(Swept(hits, c.at - WINDOW), c.key)|
    <= Count(passed, c.key, c.at - skew - WINDOW, c.at + skew)
  }

  lemma {:induction false} EntriesFound(calls: History, c: Call, skew: nat)
    requires Skewed(Snoc(calls, c), skew)
    ensures Finds(After(calls), Passed(calls), c, skew)
  {
    FoundAtLeast(calls, c, skew);
    FoundAtMost(calls, c, skew);
  }

  lemma {:induction false} FindsDecides(hits: Hits, passed: History, c: Call, skew: nat)
    requires Finds(hits, passed, c, skew)
    ensures Allowed(hits, c.key, c.at) ==> Count(passed, c.key, c.at + skew - WINDOW, c.at + skew) < LIMIT
    ensures !Allowed(hits, c.key, c.at) ==> Count(passed, c.key, c.at - skew - WINDOW, c.at + skew) >= LIMIT
    ensures skew == 0 ==> (Allowed(hits, c.key, c.at) <==> Fits(passed, c))
  {
  }

  lemma {:induction false} FoundAtLeast(calls: History, c: Call, skew: nat)
    requires NoLaterThan(calls, c.at + skew)
    ensures Count(Passed(calls), c.key, c.at + skew - WINDOW, c.at + skew)
            <= |TimesAt(Swept(After(calls), c.at - WINDOW), c.key)|
  {
    var lo := c.at + skew - WINDOW;
    NothingRecentForgotten(calls, c.key, lo);
    CountIsOver(Passed(calls), c.key, lo, c.at + skew);
    SweepFinds(After(calls), c, lo);
  }

  lemma {:induction false} SweepFinds(hits: Hits, c: Call, lo: int)
    requires c.at - WINDOW <= lo
    ensures CountOver(TimesAt(hits, c.key), lo) <= |TimesAt(Swept(hits, c.at - WINDOW), c.key)|
  {
    SweepKeepsRecent(hits, c.key, c.at - WINDOW, lo);
    CountOverPruned(TimesAt(Swept(hits, c.at - WINDOW), c.key), lo, lo);
  }

  lemma {:induction false} FoundAtMost(calls: History, c: Call, skew: nat)
    requires Skewed(calls, skew) && NoLaterThan(calls, c.at + skew)
    ensures |TimesAt(Swept(After(calls), c.at - WINDOW), c.key)|
            <= Count(Passed(calls), c.key, c.at - skew - WINDOW, c.at + skew)
  {
    var lo := c.at - skew - WINDOW;
    TableSags(calls, skew, c.key, c.at + skew);
    SweptOver(After(calls), c, skew);
    NothingExtra(calls, c.key, lo);
    PassedNoLater(calls, c.at + skew);
    CountIsOver(Passed(calls), c.key, lo, c.at + skew);
  }

  lemma {:induction false} SweptOver(hits: Hits, c: Call, skew: nat)
    requires Sagging(hits, skew, c.key, c.at + skew)
    ensures |TimesAt(Swept(hits, c.at - WINDOW), c.key)| <= CountOver(TimesAt(hits, c.key), c.at - skew - WINDOW)
  {
    var ts, lo := TimesAt(Swept(hits, c.at - WINDOW), c.key), c.at - skew - WINDOW;
    SweepSags(hits, skew, c.key, c.at + skew, c.at - WINDOW);
    CountOverAll(ts, lo);
    PrunedCountsLess(TimesAt(hits, c.key), c.at - WINDOW, lo);
  }

  lemma {:induction false} PrunedCountsLess(ts: seq<int>, cutoff: int, lo: int)
    ensures CountOver(Pruned(ts, cutoff), lo) <= CountOver(ts, lo)
  {
    if ts == [] || ts[0] > cutoff {
    } else {
      CountOverCons(ts, lo);
      PrunedCountsLess(ts[1..], cutoff, lo);
    }
  }

  /** Whatever is in the table was admitted. */
  lemma {:induction false} NothingExtra(calls: History, key: string, lo: int)
    ensures CountOver(TimesAt(After(calls), key), lo) <= CountOver(TimesOf(Passed(calls), key), lo)
  {
    match calls
    case Empty =>
    case Snoc(past, c) =>
      NothingExtra(past, key, lo);
      PrunedCountsLess(TimesAt(After(past), key), c.at - WINDOW, lo);
      UpdateCounts(After(past), c, key, lo);
      CountOverSnoc(TimesOf(Passed(past), key), c.at, lo);
  }

  /** A call that gets through finds its quota not used up in the minute before
      the latest clock reading; a call that is refused finds it used up in its
      own minute widened by the skew. */
  lemma {:induction false} VerdictWithinSkew(calls: History, c: Call, skew: nat)
    requires Skewed(Snoc(calls, c), skew)
    ensures Allowed(After(calls), c.key, c.at) ==>
              Count(Passed(calls), c.key, c.at + skew - WINDOW, c.at + skew) < LIMIT
    ensures !Allowed(After(calls), c.key, c.at) ==>
              Count(Passed(calls), c.key, c.at - skew - WINDOW, c.at + skew) >= LIMIT
  {
    EntriesFound(calls, c, skew);
    FindsDecides(After(calls), Passed(calls), c, skew);
  }

  /** With clock readings up to skew late, the limit holds for every stretch
      that is shorter than a minute by skew. */
  lemma {:induction false} LateCallsShortenTheWindow(calls: History, key: string, start: int, skew: nat)
    requires Skewed(calls, skew)
    ensures Count(Passed(calls), key, start, start + WINDOW - skew) <= LIMIT
  {
    match calls
    case Empty =>
    case Snoc(past, c) =>
      LateCallsShortenTheWindow(past, key, start, skew);
      if SameCaller(c.key, key) && Allowed(After(past), c.key, c.at) && start < c.at <= start + WINDOW - skew {
        StretchHasRoom(past, c, start, skew);
        SameCount(Passed(past), c.key, key, start, start + WINDOW - skew);
      }
  }

  lemma {:induction false} StretchHasRoom(past: History, c: Call, start: int, skew: nat)
    requires Skewed(Snoc(past, c), skew) && Allowed(After(past), c.key, c.at)
    requires start < c.at <= start + WINDOW - skew
    ensures Count(Passed(past), c.key, start, start + WINDOW - skew) < LIMIT
  {
    var passed := Passed(past);
    VerdictWithinSkew(past, c, skew);
    PassedNoLater(past, c.at + skew);
    CountWidens(passed, c.key, start, c.at + skew - WINDOW, start + WINDOW - skew, c.at + skew);
  }

  // ----- Two histories to tell the limits by

  function Same(at: int, k: nat): (r: seq<int>)
    ensures |r| == k && forall i | 0 <= i < k :: r[i] == at
  {
    seq(k, _ => at)
  }

  /** A full quota of one key: one call at first, the rest at at. */
  function Quota(key: string, first: int, at: int): History {
    Burst(Snoc(Empty, Call(key, first)), key, at, LIMIT - 1)
  }

  /** While its first entry is fresh a list is kept whole. */
  lemma {:induction false} FreshListGrows(key: string, ts: seq<int>, at: int)
    requires ts != [] && ts[0] > at - WINDOW && |ts| < LIMIT
    ensures Allowed(map[KeyOf(key) := ts], key, at)
    ensures Updated(map[KeyOf(key) := ts], key, at) == map[KeyOf(key) := ts + [at]]
  {
    assert Swept(map[KeyOf(key) := ts], at - WINDOW) == map[KeyOf(key) := ts];
  }

  lemma {:induction false} BurstOnto(key: string, first: int, at: int, k: nat)
    requires first > at - WINDOW && k < LIMIT
    ensures var calls := Burst(Snoc(Empty, Call(key, first)), key, at, k);
            After(calls) == map[KeyOf(key) := [first] + Same(at, k)] && Passed(calls) == calls
  {
    if k == 0 {
      assert [first] + Same(at, 0) == [] + [first];
    } else {
      BurstOnto(key, first, at, k - 1);
      FreshListGrows(key, [first] + Same(at, k - 1), at);
      assert [first] + Same(at, k - 1) + [at] == [first] + Same(at, k);
    }
  }

  lemma {:induction false} BurstCounts(key: string, first: int, at: int, k: nat, lo: int, hi: int)
    ensures Count(Burst(Snoc(Empty, Call(key, first)), key, at, k), key, lo, hi)
            == (if lo < first <= hi then 1 else 0) + (if lo < at <= hi then k else 0)
  {
    if k == 0 {
      assert Count(Empty, key, lo, hi) == 0;
    } else {
      BurstCounts(key, first, at, k - 1, lo, hi);
    }
  }

  lemma {:induction false} QuotaSkewed(key: string, first: int, at: int)
    requires at <= first
    ensures Skewed(Quota(key, first, at), first - at) && NoLaterThan(Quota(key, first, at), first)
  {
    BurstInTime(Snoc(Empty, Call(key, first)), key, at, LIMIT - 1, first - at);
  }

  /** A full quota at 0, then another key's call, which makes the limiter forget
      it, at m. */
  function Forgotten(key: string, other: string, m: int): History {
    Snoc(Quota(key, 0, 0), Call(other, m))
  }

  lemma {:induction false} StaleListGoes(key: string, ts: seq<int>, other: string, now: int)
    requires !SameCaller(key, other) && forall i | 0 <= i < |ts| :: ts[i] <= now - WINDOW
    ensures Allowed(map[KeyOf(key) := ts], other, now)
    ensures Updated(map[KeyOf(key) := ts], other, now) == map[KeyOf(other) := [now]]
  {
    AllPruned(ts, now - WINDOW);
    assert Swept(map[KeyOf(key) := ts], now - WINDOW) == map[];
    assert [] + [now] == [now];
  }

  lemma {:induction false} ForgottenTable(key: string, other: string, m: int)
    requires !SameCaller(key, other) && m >= WINDOW
    ensures var calls := Forgotten(key, other, m);
            After(calls) == map[KeyOf(other) := [m]] && Passed(calls) == calls
  {
    BurstOnto(key, 0, 0, LIMIT - 1);
    StaleListGoes(key, [0] + Same(0, LIMIT - 1), other, m);
  }

  /** One more call of the first key, read skew before the other's. */
  lemma {:induction false} LateCallSlipsThrough(key: string, other: string, skew: nat, m: int)
    requires !SameCaller(key, other) && m >= WINDOW && m >= skew
    ensures var calls, late := Forgotten(key, other, m), Call(key, m - skew);
            && Skewed(Snoc(calls, late), skew)
            && Allowed(After(calls), key, late.at)
            && Count(Passed(Snoc(calls, late)), key, -1, m - skew) == LIMIT + 1
  {
    var calls, late := Forgotten(key, other, m), Call(key, m - skew);
    QuotaSkewed(key, 0, 0);
    SkewedMore(Quota(key, 0, 0), 0, skew);
    LaterStill(Quota(key, 0, 0), 0, m);
    LaterStill(Quota(key, 0, 0), 0, m + skew);
    ForgottenTable(key, other, m);
    NothingStored(map[KeyOf(other) := [m]], key, late.at);
    BurstCounts(key, 0, 0, LIMIT - 1, -1, m - skew);
  }

  lemma {:induction false} NothingStored(hits: Hits, key: string, now: int)
    requires KeyOf(key) !in hits
    ensures Allowed(hits, key, now)
  {
  }

  /** A call may also be refused although its minute holds one admission: the
      list is pruned only up to its first fresh entry, here 10, so the 119
      entries at 5 behind it are still counted when they are past. */
  lemma {:induction false} LateCallsBlockTheNext(key: string)
    ensures var calls, c := Quota(key, 10, 5), Call(key, WINDOW + 7);
            && Skewed(Snoc(calls, c), 5)
            && !Allowed(After(calls), key, c.at)
            && Count(Passed(calls), key, c.at - WINDOW, c.at) == 1
  {
    QuotaSkewed(key, 10, 5);
    LaterStill(Quota(key, 10, 5), 10, WINDOW + 12);
    BurstOnto(key, 10, 5, LIMIT - 1);
    BurstCounts(key, 10, 5, LIMIT - 1, 7, WINDOW + 7);
  }

  // ----- Exactly when each promise holds

  /** A call is let through if and only if fewer than LIMIT of the calls let
      through lie in the minute before it. */
  ghost predicate RuleHolds(skew: nat) {
    forall calls: History, c: Call | Skewed(Snoc(calls, c), skew) ::
      Allowed(After(calls), c.key, c.at) <==> Fits(Passed(calls), c)
  }

  /** Some late call gets through over its quota. */
  lemma {:induction false} SomeLateCall(skew: nat) returns (calls: History, late: Call)
    requires skew > 0
    ensures Skewed(Snoc(calls, late), skew) && Allowed(After(calls), late.key, late.at) && !Fits(Passed(calls), late)
  {
    calls, late := LateCallOf("a", "b");
    SkewedMore(Snoc(calls, late), 1, skew);
  }

  lemma {:induction false} LateCallOf(key: string, other: string) returns (calls: History, late: Call)
    requires !SameCaller(key, other)
    ensures Skewed(Snoc(calls, late), 1) && Allowed(After(calls), late.key, late.at) && !Fits(Passed(calls), late)
  {
    calls, late := Forgotten(key, other, WINDOW), Call(key, WINDOW - 1);
    LateCallSlipsThrough(key, other, 1, WINDOW);
    ForgottenTable(key, other, WINDOW);
    BurstCounts(key, 0, 0, LIMIT - 1, -1, WINDOW - 1);
  }

  lemma {:induction false} RuleInOrder(calls: History, c: Call)
    requires Skewed(Snoc(calls, c), 0)
    ensures Allowed(After(calls), c.key, c.at) <==> Fits(Passed(calls), c)
  {
    EntriesFound(calls, c, 0);
    FindsDecides(After(calls), Passed(calls), c, 0);
  }

  lemma {:induction false} RuleHoldsIffInOrder(skew: nat)
    ensures RuleHolds(skew) <==> skew == 0
  {
    if skew == 0 {
      forall calls: History, c: Call | Skewed(Snoc(calls, c), 0)
        ensures Allowed(After(calls), c.key, c.at) <==> Fits(Passed(calls), c)
      {
        RuleInOrder(calls, c);
      }
    } else {
      var calls, late := SomeLateCall(skew);
    }
  }

  /** Admissions of a key in the stretch of length l from start on. */
  function Within(calls: History, key: string, start: int, l: int): nat {
    Count(Passed(calls), key, start, start + l)
  }

  /** No stretch of length l holds more than LIMIT admissions of a key. */
  ghost predicate StretchHolds(skew: nat, l: int) {
    forall calls: History, key: string, start: int | Skewed(calls, skew) :: Within(calls, key, start, l) <= LIMIT
  }

  /** Any longer stretch holds more, for some calls. */
  lemma {:induction false} SomeLongStretch(key: string, other: string, skew: nat, l: int) returns (calls: History)
    requires !SameCaller(key, other) && l > 0 && l > WINDOW - skew
    ensures Skewed(calls, skew) && Within(calls, key, -1, l) > LIMIT
  {
    var m := if skew <= WINDOW then WINDOW else skew;
    calls := Snoc(Forgotten(key, other, m), Call(key, m - skew));
    LateCallSlipsThrough(key, other, skew, m);
    CountWidens(Passed(calls), key, -1, -1, m - skew, -1 + l);
  }

  /** The limit holds for the stretches that are shorter than a minute by the
      skew, and for no others. */
  lemma {:induction false} StretchHoldsIff(skew: nat, l: int)
    ensures StretchHolds(skew, l) <==> l <= 0 || l <= WINDOW - skew
  {
    if l <= 0 || l <= WINDOW - skew {
      forall calls: History, key: string, start: int | Skewed(calls, skew)
        ensures Within(calls, key, start, l) <= LIMIT
      {
        ShortStretch(calls, key, start, skew, l);
      }
    } else {
      var calls := SomeLongStretch("a", "b", skew, l);
    }
  }

  lemma {:induction false} ShortStretch(calls: History, key: string, start: int, skew: nat, l: int)
    requires Skewed(calls, skew) && (l <= 0 || l <= WINDOW - skew)
    ensures Within(calls, key, start, l) <= LIMIT
  {
    if l <= 0 {
      NothingBetween(Passed(calls), key, start, start + l);
    } else {
      LateCallsShortenTheWindow(calls, key, start, skew);
      ShorterHoldsLess(Passed(calls), key, start, l, WINDOW - skew);
    }
  }

  lemma {:induction false} ShorterHoldsLess(calls: History, key: string, start: int, l: int, longer: int)
    requires l <= longer
    ensures Count(calls, key, start, start + l) <= Count(calls, key, start, start + longer)
  {
    CountWidens(calls, key, start, start, start + l, start + longer);
  }

  lemma {:induction false} NothingBetween(calls: History, key: string, lo: int, hi: int)
    requires hi <= lo
    ensures Count(calls, key, lo, hi) == 0
  {
    match calls
    case Empty =>
    case Snoc(past, _) => NothingBetween(past, key, lo, hi);
  }

  /** A key's verdicts are those of its own calls run alone. */
  ghost predicate IsolationHolds(skew: nat) {
    forall calls: History, c: Call | Skewed(Snoc(calls, c), skew) ::
      Allowed(After(calls), c.key, c.at) == Allowed(After(Only(calls, c.key)), c.key, c.at)
  }

  lemma {:induction false} OnlyBurst(key: string, first: int, at: int, k: nat)
    ensures var calls := Burst(Snoc(Empty, Call(key, first)), key, at, k); Only(calls, key) == calls
  {
    if k == 0 {
    } else {
      OnlyBurst(key, first, at, k - 1);
    }
  }

  lemma {:induction false} QuotaBlocks(key: string, now: int)
    requires now < WINDOW
    ensures !Allowed(After(Quota(key, 0, 0)), key, now)
  {
    BurstOnto(key, 0, 0, LIMIT - 1);
  }

  lemma {:induction false} SomeInterference(key: string, other: string, skew: nat) returns (calls: History, late: Call)
    requires !SameCaller(key, other) && skew > 0
    ensures Skewed(Snoc(calls, late), skew) && Allowed(After(calls), late.key, late.at)
    ensures !Allowed(After(Only(calls, late.key)), late.key, late.at)
  {
    calls, late := Forgotten(key, other, WINDOW), Call(key, WINDOW - 1);
    LateCallSlipsThrough(key, other, 1, WINDOW);
    SkewedMore(Snoc(calls, late), 1, skew);
    OnlyBurst(key, 0, 0, LIMIT - 1);
    QuotaBlocks(key, WINDOW - 1);
  }

  lemma {:induction false} IsolationHoldsIffInOrder(skew: nat)
    ensures IsolationHolds(skew) <==> skew == 0
  {
    if skew == 0 {
      forall calls: History, c: Call | Skewed(Snoc(calls, c), 0)
        ensures Allowed(After(calls), c.key, c.at) == Allowed(After(Only(calls, c.key)), c.key, c.at)
      {
        KeysAreIsolated(calls, c);
      }
    } else {
      var calls, late := SomeInterference("a", "b", skew);
    }
  }

  /** After a call every list is as long as its key's minute has admissions. */
  ghost predicate TableHolds(skew: nat) {
    forall calls: History, c: Call, key: string | Skewed(Snoc(calls, c), skew) ::
      |TimesAt(After(Snoc(calls, c)), key)| == Count(Passed(Snoc(calls, c)), key, c.at - WINDOW, c.at)
  }

  lemma {:induction false} PassedByRule(calls: History)
    requires Ordered(calls)
    ensures Passed(calls) == Admitted(calls)
  {
    match calls
    case Empty =>
    case Snoc(past, c) =>
      PassedByRule(past);
      PassedNext(past, c);
  }

  lemma PassedNext(past: History, c: Call)
    requires Ordered(Snoc(past, c)) && Passed(past) == Admitted(past)
    ensures Passed(Snoc(past, c)) == Admitted(Snoc(past, c))
  {
    LimiterRefinesRule(past, c);
  }

  /** A list that starts fresh keeps an entry that has aged out. */
  lemma {:induction false} StaleEntryStays(key: string, other: string, skew: nat) returns (calls: History, c: Call)
    requires !SameCaller(key, other) && skew > 0
    ensures Skewed(Snoc(calls, c), skew)
    ensures |TimesAt(After(Snoc(calls, c)), key)| > Count(Passed(Snoc(calls, c)), key, c.at - WINDOW, c.at)
  {
    calls, c := Burst(Snoc(Empty, Call(key, 1)), key, 0, 1), Call(other, WINDOW);
    BurstInTime(Snoc(Empty, Call(key, 1)), key, 0, 1, 1);
    LaterStill(calls, 1, WINDOW + 1);
    SkewedMore(Snoc(calls, c), 1, skew);
    BurstOnto(key, 1, 0, 1);
    BurstCounts(key, 1, 0, 1, 0, WINDOW);
  }

  lemma TableInOrder(calls: History, c: Call, key: string)
    requires Skewed(Snoc(calls, c), 0)
    ensures |TimesAt(After(Snoc(calls, c)), key)| == Count(Passed(Snoc(calls, c)), key, c.at - WINDOW, c.at)
  {
    PassedByRule(Snoc(calls, c));
    TableIsExact(Snoc(calls, c), key);
  }

  lemma {:induction false} TableHoldsIffInOrder(skew: nat)
    ensures TableHolds(skew) <==> skew == 0
  {
    if skew == 0 {
      forall calls: History, c: Call, key: string | Skewed(Snoc(calls, c), 0)
        ensures |TimesAt(After(Snoc(calls, c)), key)| == Count(Passed(Snoc(calls, c)), key, c.at - WINDOW, c.at)
      {
        TableInOrder(calls, c, key);
      }
    } else {
      var calls, c := StaleEntryStays("a", "b", skew);
    }
  }
}
