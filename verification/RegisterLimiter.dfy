/** The fixed-window limiter of cmd/mcp-remote/register_guard.go, which guards
    client registration: a table of buckets that forgets the expired ones,
    against one window per key that is never forgotten. */
module RegisterLimiter {
  import opened CallHistory

  /** The program uses limit 10 and window ten minutes. */
  datatype Config = Config(limit: int, window: nat)

  datatype Bucket = Bucket(count: int, reset: int)

  type Buckets = map<string, Bucket>

  function Reaped(m: Buckets, now: int): Buckets {
    map k | k in m && now <= m[k].reset :: m[k]
  }

  /** A bucket past its reset counts as no bucket, reaped or not. */
  predicate Current(m: Buckets, key: string, now: int) {
    key in m && now <= m[key].reset
  }

  predicate Allowed(c: Config, m: Buckets, key: string, now: int) {
    Current(m, key, now) ==> m[key].count < c.limit
  }

  function Counted(c: Config, m: Buckets, key: string, now: int): Buckets {
    if !Current(m, key, now) then m[key := Bucket(1, now + c.window)]
    else if m[key].count >= c.limit then m
    else m[key := Bucket(m[key].count + 1, m[key].reset)]
  }

  /** The buckets after a call. */
  function AfterCall(c: Config, m: Buckets, key: string, now: int): Buckets {
    Counted(c, Reaped(m, now), key, now)
  }

  lemma {:induction false} StillCurrent(m: Buckets, key: string, now: int)
    ensures Current(Reaped(m, now), key, now) <==> Current(m, key, now)
    ensures Current(m, key, now) ==> Reaped(m, now)[key] == m[key]
  {
  }

  // ----- The limiter

  class RateBucket {
    var count: int
    var reset: int

    constructor (count: int, reset: int)
      ensures this.count == count && this.reset == reset
    {
      this.count, this.reset := count, reset;
    }

    function Value(): Bucket
      reads this
    {
      Bucket(count, reset)
    }
  }

  type Snapshot = map<RateBucket, Bucket>

  ghost predicate Owned(m: map<string, RateBucket>, made: set<RateBucket>) {
    && (forall k | k in m :: m[k] in made)
    && (forall k, k' | k in m && k' in m && k != k' :: m[k] != m[k'])
  }

  ghost function Through(m: map<string, RateBucket>, snap: Snapshot): Buckets
    requires Owned(m, snap.Keys)
  {
    map k | k in m :: snap[m[k]]
  }

  lemma {:induction false} ThroughFresh(m: map<string, RateBucket>, snap: Snapshot, key: string, r: RateBucket,
                                        b: Bucket)
    requires Owned(m, snap.Keys) && r !in snap
    ensures Owned(m[key := r], snap[r := b].Keys)
    ensures Through(m[key := r], snap[r := b]) == Through(m, snap)[key := b]
  {
  }

  lemma {:induction false} ThroughWrite(m: map<string, RateBucket>, snap: Snapshot, key: string, b: Bucket)
    requires Owned(m, snap.Keys) && key in m
    ensures Owned(m, snap[m[key] := b].Keys)
    ensures Through(m, snap[m[key] := b]) == Through(m, snap)[key := b]
  {
  }

  lemma {:induction false} ThroughReaped(m: map<string, RateBucket>, m': map<string, RateBucket>, snap: Snapshot,
                                         now: int)
    requires Owned(m, snap.Keys)
    requires forall k | k in m' :: k in m && m'[k] == m[k]
    requires forall k | k in m :: k in m' <==> now <= snap[m[k]].reset
    ensures Owned(m', snap.Keys) && Through(m', snap) == Reaped(Through(m, snap), now)
  {
  }

  predicate Within(m: map<string, RateBucket>, was: map<string, RateBucket>) {
    forall k | k in m :: k in was && m[k] == was[k]
  }

  class RateLimiter {
    const config: Config
    var buckets: map<string, RateBucket>
    ghost var made: set<RateBucket>

    constructor (limit: int, window: nat)
      ensures Valid() && View() == map[] && config == Config(limit, window) && made == {}
    {
      config := Config(limit, window);
      buckets, made := map[], {};
    }

    ghost predicate Valid()
      reads this
    {
      Owned(buckets, made)
    }

    ghost function Snap(): (snap: Snapshot)
      reads this, made
      ensures snap.Keys == made
    {
      map r | r in made :: r.Value()
    }

    ghost function View(): Buckets
      requires Valid()
      reads this, made
    {
      Through(buckets, Snap())
    }

    /** Delete the expired buckets; the keys come in no particular order. */
    method Reap(now: int)
      requires Valid()
      modifies this`buckets
      ensures Valid() && View() == Reaped(old(View()), now)
    {
      ghost var was, snap := buckets, Snap();
      var todo := buckets.Keys;
      while todo != {}
        invariant todo <= buckets.Keys && Within(buckets, was)
        invariant forall k | k in was && k !in todo :: k in buckets <==> now <= snap[was[k]].reset
        invariant forall k | k in todo :: k in was
        decreases |todo|
      {
        var k :| k in todo;
        assert buckets[k] == was[k] && snap[was[k]] == buckets[k].Value();
        todo := todo - {k};
        if now > buckets[k].reset {
          buckets := buckets - {k};
        }
      }
      ThroughReaped(was, buckets, snap, now);
      assert Snap() == snap;
    }

    method StartBucket(key: string, now: int)
      requires Valid()
      modifies this
      ensures Valid() && fresh(made - old(made))
      ensures View() == old(View())[key := Bucket(1, now + config.window)]
    {
      var b := new RateBucket(1, now + config.window);
      ThroughFresh(buckets, old(Snap()), key, b, Bucket(1, now + config.window));
      ghost var snap := old(Snap())[b := Bucket(1, now + config.window)];
      buckets, made := buckets[key := b], made + {b};
      assert Snap() == snap;
    }

    method Increment(key: string)
      requires Valid() && key in buckets
      modifies made
      ensures Valid()
      ensures View() == old(View()[key := Bucket(View()[key].count + 1, View()[key].reset)])
    {
      var b := buckets[key];
      ThroughWrite(buckets, Snap(), key, Bucket(b.count + 1, b.reset));
      ghost var snap := Snap()[b := Bucket(b.count + 1, b.reset)];
      b.count := b.count + 1;
      assert Snap() == snap;
    }

    /** now is the clock, read under the lock. */
    method Allow(key: string, now: int) returns (ok: bool)
      requires Valid()
      modifies this, made
      ensures Valid() && fresh(made - old(made))
      ensures ok == Allowed(config, old(View()), key, now)
      ensures View() == AfterCall(config, old(View()), key, now)
    {
      Reap(now);
      ghost var reaped := View();
      StillCurrent(old(View()), key, now);
      assert key in buckets ==> reaped[key] == buckets[key].Value();
      if key !in buckets || now > buckets[key].reset {
        StartBucket(key, now);
        return true;
      }
      if buckets[key].count >= config.limit {
        return false;
      }
      Increment(key);
      return true;
    }
  }

  // ----- Histories

  function After(c: Config, calls: History): Buckets {
    match calls
    case Empty => map[]
    case Snoc(past, x) => AfterCall(c, After(c, past), x.key, x.at)
  }

  // ----- The windows of one key

  datatype Window = Closed | Open(start: int, count: int)

  predicate Fits(c: Config, w: Window, now: int) {
    w.Closed? || now > w.start + c.window || w.count < c.limit
  }

  function NextWindow(c: Config, w: Window, now: int): Window {
    if w.Closed? || now > w.start + c.window then Open(now, 1)
    else if w.count < c.limit then Open(w.start, w.count + 1)
    else w
  }

  /** The window of a key after a history; other keys have no say in it. */
  function WindowOf(c: Config, calls: History, key: string): Window {
    match calls
    case Empty => Closed
    case Snoc(past, x) => if x.key == key then NextWindow(c, WindowOf(c, past, key), x.at) else WindowOf(c, past, key)
  }

  // ----- Refinement

  /** A bucket is its key's window; a key without one has no window that could
      still be open at now. */
  ghost predicate Follows(c: Config, m: Buckets, w: Window, now: int, key: string) {
    if key in m then w == Open(m[key].reset - c.window, m[key].count)
    else w.Closed? || w.start + c.window < now
  }

  lemma {:induction false} ReapFollows(c: Config, m: Buckets, w: Window, now: int, later: int, key: string)
    requires Follows(c, m, w, now, key) && now <= later
    ensures Follows(c, Reaped(m, later), w, later, key)
  {
  }

  lemma {:induction false} CountFollows(c: Config, m: Buckets, w: Window, x: Call, key: string)
    requires Follows(c, m, w, x.at, key)
    ensures Follows(c, Counted(c, m, x.key, x.at), if x.key == key then NextWindow(c, w, x.at) else w, x.at, key)
  {
  }

  lemma {:induction false} TableFollows(c: Config, calls: History, now: int, key: string)
    requires Ordered(calls) && NoLaterThan(calls, now)
    ensures exists last :: last <= now && Follows(c, After(c, calls), WindowOf(c, calls, key), last, key)
  {
    if calls.Empty? {
      assert Follows(c, After(c, calls), WindowOf(c, calls, key), now, key);
    } else {
      var past, x := calls.past, calls.last;
      TableFollows(c, past, x.at, key);
      var last :| last <= x.at && Follows(c, After(c, past), WindowOf(c, past, key), last, key);
      ReapFollows(c, After(c, past), WindowOf(c, past, key), last, x.at, key);
      CountFollows(c, Reaped(After(c, past), x.at), WindowOf(c, past, key), x, key);
      assert Follows(c, After(c, calls), WindowOf(c, calls, key), x.at, key);
    }
  }

  lemma {:induction false} FollowsDecides(c: Config, m: Buckets, w: Window, last: int, key: string, now: int)
    requires Follows(c, m, w, last, key) && last <= now
    ensures Allowed(c, m, key, now) <==> Fits(c, w, now)
  {
  }

  /** Reaping, in whatever order and on whoever's call, decides nothing: each
      verdict is the one the key's own window gives. */
  lemma {:induction false} ReapingDecidesNothing(c: Config, calls: History, x: Call)
    requires Ordered(Snoc(calls, x))
    ensures Allowed(c, After(c, calls), x.key, x.at) <==> Fits(c, WindowOf(c, calls, x.key), x.at)
  {
    TableFollows(c, calls, x.at, x.key);
    var last :| last <= x.at && Follows(c, After(c, calls), WindowOf(c, calls, x.key), last, x.key);
    FollowsDecides(c, After(c, calls), WindowOf(c, calls, x.key), last, x.key, x.at);
  }

  // ----- How many calls get through

  /** Calls of key let through at lo or later, up to hi. */
  function Passed(c: Config, calls: History, key: string, lo: int, hi: int): nat {
    match calls
    case Empty => 0
    case Snoc(past, x) =>
      Passed(c, past, key, lo, hi)
      + if x.key == key && Allowed(c, After(c, past), key, x.at) && lo <= x.at <= hi then 1 else 0
  }

  function Ceiling(c: Config): (l: int)
    ensures 1 <= l && c.limit <= l
  {
    if c.limit < 1 then 1 else c.limit
  }

  /** How many of the calls let through since lo fit below the current window,
      when it starts no later than m windows after lo. */
  predicate WithinQuota(c: Config, w: Window, passed: int, lo: int, m: nat) {
    match w
    case Closed => passed == 0
    case Open(start, count) =>
      && 1 <= count <= Ceiling(c)
      && (lo > start + c.window ==> passed == 0)
      && (start < lo ==> passed <= count - 1)
      && (start == lo ==> passed <= count)
      && (m >= 1 && start <= lo + m * c.window ==> passed <= m * Ceiling(c) + count - 1)
  }

  lemma {:induction false} QuotaStep(c: Config, w: Window, passed: int, lo: int, m: nat, now: int)
    requires WithinQuota(c, w, passed, lo, m)
    requires m >= 1 ==> WithinQuota(c, w, passed, lo, m - 1)
    ensures WithinQuota(c, NextWindow(c, w, now), passed + if Fits(c, w, now) && lo <= now then 1 else 0, lo, m)
  {
    if m >= 1 {
      assert (m - 1) * c.window == m * c.window - c.window;
      assert (m - 1) * Ceiling(c) == m * Ceiling(c) - Ceiling(c);
      assert m * Ceiling(c) >= Ceiling(c);
    }
  }

  lemma {:induction false} QuotaHolds(c: Config, calls: History, key: string, lo: int, hi: int, m: nat)
    requires Ordered(calls) && NoLaterThan(calls, hi)
    ensures WithinQuota(c, WindowOf(c, calls, key), Passed(c, calls, key, lo, hi), lo, m)
  {
    if calls.Empty? {
    } else if calls.last.key == key {
      var past, x := calls.past, calls.last;
      QuotaHolds(c, past, key, lo, hi, m);
      if m >= 1 {
        QuotaHolds(c, past, key, lo, hi, m - 1);
      }
      ReapingDecidesNothing(c, past, x);
      QuotaStep(c, WindowOf(c, past, key), Passed(c, past, key, lo, hi), lo, m, x.at);
    } else {
      QuotaHolds(c, calls.past, key, lo, hi, m);
    }
  }

  lemma {:induction false} OpenedBy(c: Config, calls: History, key: string, hi: int)
    requires NoLaterThan(calls, hi)
    ensures WindowOf(c, calls, key).Open? ==> WindowOf(c, calls, key).start <= hi
  {
    if calls.Empty? {
    } else {
      OpenedBy(c, calls.past, key, hi);
    }
  }

  /** At most limit calls of a key get through at one instant, and at most
      (n + 1) * limit - 1 in any stretch of n >= 1 windows, ends included. A
      limit below one acts as one. */
  lemma {:induction false} FewGetThrough(c: Config, calls: History, key: string, lo: int, n: nat)
    requires Ordered(calls)
    ensures Passed(c, calls, key, lo, lo + n * c.window) <= (n + 1) * Ceiling(c) - if n == 0 then 0 else 1
  {
    var hi := lo + n * c.window;
    if calls.Empty? {
    } else if calls.last.at > hi {
      FewGetThrough(c, calls.past, key, lo, n);
    } else {
      OrderedBounded(calls, hi);
      QuotaHolds(c, calls, key, lo, hi, n);
      OpenedBy(c, calls, key, hi);
      assert (n + 1) * Ceiling(c) == n * Ceiling(c) + Ceiling(c);
    }
  }

  lemma {:induction false} OrderedBounded(calls: History, hi: int)
    requires Ordered(calls) && (calls.Snoc? ==> calls.last.at <= hi)
    ensures NoLaterThan(calls, hi)
  {
    if calls.Snoc? {
      LaterStill(calls.past, calls.last.at, hi);
    }
  }

  // ----- The bound is met

  lemma {:induction false} BurstPasses(c: Config, calls: History, key: string, at: int, k: nat, lo: int, hi: int)
    requires Ordered(calls) && NoLaterThan(calls, at) && lo <= at <= hi
    requires var w := WindowOf(c, calls, key); w.Open? && at <= w.start + c.window && w.count + k <= c.limit
    ensures var after, w := Burst(calls, key, at, k), WindowOf(c, calls, key);
            && Ordered(after) && NoLaterThan(after, at)
            && WindowOf(c, after, key) == Open(w.start, w.count + k)
            && Passed(c, after, key, lo, hi) == Passed(c, calls, key, lo, hi) + k
  {
    if k == 0 {
    } else {
      BurstPasses(c, calls, key, at, k - 1, lo, hi);
      ReapingDecidesNothing(c, Burst(calls, key, at, k - 1), Call(key, at));
    }
  }

  lemma {:induction false} NextWindowOpens(c: Config, calls: History, key: string, at: int, lo: int, hi: int)
    requires Ordered(calls) && NoLaterThan(calls, at) && lo <= at <= hi
    requires var w := WindowOf(c, calls, key); w.Open? && w.start + c.window < at
    ensures var after := Snoc(calls, Call(key, at));
            && Ordered(after) && NoLaterThan(after, at) && WindowOf(c, after, key) == Open(at, 1)
            && Passed(c, after, key, lo, hi) == Passed(c, calls, key, lo, hi) + 1
  {
    ReapingDecidesNothing(c, calls, Call(key, at));
  }

  /** One call opens a window and the rest of its quota comes at its very end;
      the moment after comes a full quota, and again after each window. */
  function Crowd(c: Config, key: string, n: nat): History
    requires c.limit >= 1
  {
    if n == 0 then Burst(Snoc(Empty, Call(key, 0)), key, c.window, c.limit - 1)
    else
      var at := n * (c.window + 1);
      Burst(Snoc(Crowd(c, key, n - 1), Call(key, at)), key, at, c.limit - 1)
  }

  lemma {:induction false} Times(a: nat, b: nat, x: nat)
    requires a <= b
    ensures a * x <= b * x
    ensures a > 0 ==> (a - 1) * x == a * x - x
  {
    assert (b - a) * x >= 0;
  }

  lemma {:induction false} CrowdBegins(c: Config, key: string, lo: int, hi: int)
    requires c.limit >= 1 && 1 <= lo <= c.window <= hi
    ensures var crowd := Crowd(c, key, 0);
            && Ordered(crowd) && NoLaterThan(crowd, c.window) && WindowOf(c, crowd, key) == Open(0, c.limit)
            && Passed(c, crowd, key, lo, hi) == c.limit - 1
  {
    BurstPasses(c, Snoc(Empty, Call(key, 0)), key, c.window, c.limit - 1, lo, hi);
  }

  /** A full quota passes at the start of each further window. */
  lemma {:induction false} CrowdGrows(c: Config, key: string, crowd: History, start: int, latest: int,
                                      lo: int, hi: int)
    requires c.limit >= 1 && Ordered(crowd) && NoLaterThan(crowd, latest)
    requires WindowOf(c, crowd, key) == Open(start, c.limit) && latest <= start + c.window
    requires lo <= start + c.window + 1 <= hi
    ensures var at := start + c.window + 1;
            var more := Burst(Snoc(crowd, Call(key, at)), key, at, c.limit - 1);
            && Ordered(more) && NoLaterThan(more, at) && WindowOf(c, more, key) == Open(at, c.limit)
            && Passed(c, more, key, lo, hi) == Passed(c, crowd, key, lo, hi) + c.limit
  {
    var at := start + c.window + 1;
    LaterStill(crowd, latest, at);
    NextWindowOpens(c, crowd, key, at, lo, hi);
    BurstPasses(c, Snoc(crowd, Call(key, at)), key, at, c.limit - 1, lo, hi);
  }

  lemma {:induction false} CrowdPasses(c: Config, key: string, k: nat, n: nat)
    requires c.limit >= 1 && k <= n && 1 <= n <= c.window
    ensures var crowd, start := Crowd(c, key, k), k * (c.window + 1);
            && Ordered(crowd) && NoLaterThan(crowd, if k == 0 then c.window else start)
            && WindowOf(c, crowd, key) == Open(start, c.limit)
            && Passed(c, crowd, key, n, n * (c.window + 1)) == (k + 1) * c.limit - 1
  {
    var hi := n * (c.window + 1);
    Times(1, n, c.window + 1);
    if k == 0 {
      CrowdBegins(c, key, n, hi);
    } else {
      CrowdPasses(c, key, k - 1, n);
      CrowdSteps(c, k, n);
      var start := (k - 1) * (c.window + 1);
      CrowdGrows(c, key, Crowd(c, key, k - 1), start, if k == 1 then c.window else start, n, hi);
    }
  }

  lemma {:induction false} CrowdSteps(c: Config, k: nat, n: nat)
    requires c.limit >= 1 && 1 <= k <= n <= c.window
    ensures (k - 1) * (c.window + 1) + c.window + 1 == k * (c.window + 1)
    ensures n <= k * (c.window + 1) <= n * (c.window + 1)
    ensures (k + 1) * c.limit - 1 == (k * c.limit - 1) + c.limit
  {
    Times(1, k, c.window + 1);
    Times(k, n, c.window + 1);
    Times(k, k + 1, c.limit);
  }

  /** The bound is met for every limit and window, and every number of windows
      up to the length of one in nanoseconds. */
  lemma {:induction false} BoundIsMet(c: Config, key: string, n: nat)
    requires c.limit >= 1 && 1 <= n <= c.window
    ensures Ordered(Crowd(c, key, n))
    ensures Passed(c, Crowd(c, key, n), key, n, n + n * c.window) == (n + 1) * Ceiling(c) - 1
  {
    CrowdPasses(c, key, n, n);
    assert n * (c.window + 1) == n + n * c.window;
  }
}
