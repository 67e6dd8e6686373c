/** The memoized organization roster of a Client (internal/mcpserver/client.go)
    and its user resolveOrgID (internal/mcpserver/tools.go). Two short critical
    sections with a fetch between them; callers interleave freely. */
module OrgCache {
  import opened Basics

  const ORGS_CACHE_TTL := 60 * SECOND

  datatype Org = Org(id: string, name: string, slug: string)

  type Roster = seq<Org>

  /** How a caller came by its answer. */
  datatype Source = FromCache(checkedAt: int) | OwnFetch

  datatype Caller =
    | Checking
    | Fetching
    | Storing(orgs: Roster)
    | Returned(orgs: Roster, source: Source)
    | Failed

  datatype Cached = Cached(orgs: Roster, expires: int)

  /** A write of the second critical section. */
  datatype Store = Store(owner: nat, orgs: Roster, at: int)

  /** fetched and stores only record: every caller's own successful fetch, and
      every write to the cache. */
  datatype State = State(
    cache: Option<Cached>,
    now: int,
    callers: map<nat, Caller>,
    fetched: map<nat, Roster>,
    stores: seq<Store>)

  datatype Event =
    | Call(c: nat)
    | Check(c: nat)
    | Fetch(c: nat, answer: Option<Roster>)
    | Keep(c: nat)
    | Tick(n: nat)

  const INITIAL := State(None, 0, map[], map[], [])

  function Goto(s: State, c: nat, caller: Caller): State {
    s.(callers := s.callers[c := caller])
  }

  predicate At(s: State, c: nat, caller: Caller) {
    c in s.callers && s.callers[c] == caller
  }

  function Checked(s: State, c: nat): State {
    if s.cache.Some? && s.now < s.cache.value.expires then Goto(s, c, Returned(s.cache.value.orgs, FromCache(s.now)))
    else Goto(s, c, Fetching)
  }

  function Fetched(s: State, c: nat, answer: Option<Roster>): State {
    match answer
    case None => Goto(s, c, Failed)
    case Some(orgs) => Goto(s, c, Storing(orgs)).(fetched := s.fetched[c := orgs])
  }

  function Kept(s: State, c: nat, orgs: Roster): State {
    Goto(s, c, Returned(orgs, OwnFetch)).(cache := Some(Cached(orgs, s.now + ORGS_CACHE_TTL)),
                                          stores := s.stores + [Store(c, orgs, s.now)])
  }

  function Step(s: State, e: Event): State {
    match e
    case Call(c) => if c in s.callers then s else Goto(s, c, Checking)
    case Check(c) => if At(s, c, Checking) then Checked(s, c) else s
    case Fetch(c, answer) => if At(s, c, Fetching) then Fetched(s, c, answer) else s
    case Keep(c) => if c in s.callers && s.callers[c].Storing? then Kept(s, c, s.callers[c].orgs) else s
    case Tick(n) => s.(now := s.now + n)
  }

  function Run(s: State, es: seq<Event>): State {
    if es == [] then s else Step(Run(s, es[..|es| - 1]), es[|es| - 1])
  }

  // ----- Whole runs

  /** A store holds what its caller's own fetch brought, and is not in the
      future. */
  predicate Genuine(s: State, x: Store) {
    x.owner in s.fetched && s.fetched[x.owner] == x.orgs && x.at <= s.now
  }

  /** Some store of this roster was less than a minute old at that time. */
  ghost predicate RecentlyStored(s: State, orgs: Roster, at: int) {
    exists k | 0 <= k < |s.stores| ::
      s.stores[k].orgs == orgs && s.stores[k].at <= at < s.stores[k].at + ORGS_CACHE_TTL
  }

  ghost predicate CallerSound(s: State, c: nat, caller: Caller) {
    match caller
    case Checking => c !in s.fetched
    case Fetching => c !in s.fetched
    case Failed => c !in s.fetched
    case Storing(orgs) => c in s.fetched && s.fetched[c] == orgs
    case Returned(orgs, OwnFetch) => c in s.fetched && s.fetched[c] == orgs
    case Returned(orgs, FromCache(at)) => at <= s.now && RecentlyStored(s, orgs, at)
  }

  ghost predicate CacheIsLastStore(s: State) {
    match s.cache
    case None => s.stores == []
    case Some(x) =>
      s.stores != [] && var last := s.stores[|s.stores| - 1];
      last.orgs == x.orgs && last.at + ORGS_CACHE_TTL == x.expires
  }

  ghost predicate Inv(s: State) {
    && CacheIsLastStore(s)
    && (forall k | 0 <= k < |s.stores| :: Genuine(s, s.stores[k]))
    && (forall c | c in s.callers :: CallerSound(s, c, s.callers[c]))
    && (forall c | c in s.fetched :: c in s.callers)
  }

  /** What later steps keep of a caller and of a store. */
  predicate Grows(s: State, t: State) {
    && s.now <= t.now && s.stores <= t.stores
    && forall c | c in s.fetched :: c in t.fetched && t.fetched[c] == s.fetched[c]
  }

  lemma {:induction false} RecentlyStoredGrows(s: State, t: State, orgs: Roster, at: int)
    requires Grows(s, t) && RecentlyStored(s, orgs, at)
    ensures RecentlyStored(t, orgs, at)
  {
    var k :| 0 <= k < |s.stores|
      && s.stores[k].orgs == orgs && s.stores[k].at <= at < s.stores[k].at + ORGS_CACHE_TTL;
    assert t.stores[k] == s.stores[k];
  }

  lemma {:induction false} CallerGrows(s: State, t: State, c: nat, caller: Caller)
    requires Grows(s, t) && CallerSound(s, c, caller)
    requires c in t.fetched ==> c in s.fetched
    ensures CallerSound(t, c, caller)
  {
    if caller.Returned? && caller.source.FromCache? {
      RecentlyStoredGrows(s, t, caller.orgs, caller.source.checkedAt);
    }
  }

  lemma {:induction false} CheckKeepsInv(s: State, c: nat)
    requires Inv(s) && At(s, c, Checking)
    ensures Inv(Checked(s, c))
  {
    var t := Checked(s, c);
    if t.callers[c].Returned? {
      var last := |s.stores| - 1;
      assert Genuine(s, s.stores[last]);
      assert t.stores[last].at <= s.now < t.stores[last].at + ORGS_CACHE_TTL;
    }
    OthersSound(s, t, c);
  }

  /** Every caller but c stands as before; c is for the step to justify. */
  lemma {:induction false} OthersSound(s: State, t: State, c: nat)
    requires Inv(s) && Grows(s, t)
    requires forall d | d in t.callers && d != c :: d in s.callers && t.callers[d] == s.callers[d]
    requires forall d | d in t.fetched && d != c :: d in s.fetched
    ensures forall d | d in t.callers && d != c :: CallerSound(t, d, t.callers[d])
  {
    forall d | d in t.callers && d != c
      ensures CallerSound(t, d, t.callers[d])
    {
      CallerGrows(s, t, d, s.callers[d]);
    }
  }

  lemma {:induction false} FetchKeepsInv(s: State, c: nat, answer: Option<Roster>)
    requires Inv(s) && At(s, c, Fetching)
    ensures Inv(Fetched(s, c, answer))
  {
    assert CallerSound(s, c, Fetching);
    OthersSound(s, Fetched(s, c, answer), c);
  }

  lemma {:induction false} KeepKeepsInv(s: State, c: nat, orgs: Roster)
    requires Inv(s) && At(s, c, Storing(orgs))
    ensures Inv(Kept(s, c, orgs))
  {
    assert CallerSound(s, c, Storing(orgs));
    OthersSound(s, Kept(s, c, orgs), c);
  }

  lemma {:induction false} StepKeepsInv(s: State, e: Event)
    requires Inv(s)
    ensures Inv(Step(s, e))
  {
    match e {
      case Call(c) =>
        if c !in s.callers {
          OthersSound(s, Goto(s, c, Checking), c);
        }
      case Check(c) =>
        if At(s, c, Checking) {
          CheckKeepsInv(s, c);
        }
      case Fetch(c, answer) =>
        if At(s, c, Fetching) {
          FetchKeepsInv(s, c, answer);
        }
      case Keep(c) =>
        if c in s.callers && s.callers[c].Storing? {
          KeepKeepsInv(s, c, s.callers[c].orgs);
        }
      case Tick(n) =>
        forall c | c in s.callers
          ensures CallerSound(Step(s, e), c, s.callers[c])
        {
          CallerGrows(s, Step(s, e), c, s.callers[c]);
        }
    }
  }

  lemma {:induction false} RunKeepsInv(es: seq<Event>)
    ensures Inv(Run(INITIAL, es))
  {
    if es == [] {
    } else {
      RunKeepsInv(es[..|es| - 1]);
      StepKeepsInv(Run(INITIAL, es[..|es| - 1]), es[|es| - 1]);
    }
  }

  // ----- In terms of what the fetches answered

  /** In the i-th event of the run caller c, about to fetch, got this answer. */
  predicate AnsweredIn(es: seq<Event>, i: nat, c: nat, answer: Option<Roster>) {
    i < |es| && es[i] == Fetch(c, answer) && At(Run(INITIAL, es[..i]), c, Fetching)
  }

  ghost predicate FetchAnswered(es: seq<Event>, c: nat, answer: Option<Roster>) {
    exists i: nat :: AnsweredIn(es, i, c, answer)
  }

  lemma FetchStays(es: seq<Event>, e: Event, c: nat, answer: Option<Roster>)
    requires FetchAnswered(es, c, answer)
    ensures FetchAnswered(es + [e], c, answer)
  {
    var i: nat :| AnsweredIn(es, i, c, answer);
    assert (es + [e])[..i] == es[..i];
    assert AnsweredIn(es + [e], i, c, answer);
  }

  /** The roster on record for a caller is what the service answered it. */
  lemma {:induction false} FetchedIsAnswered(es: seq<Event>, c: nat)
    requires c in Run(INITIAL, es).fetched
    ensures FetchAnswered(es, c, Some(Run(INITIAL, es).fetched[c]))
  {
    if es == [] {
    } else {
      var init, last, n: nat := es[..|es| - 1], es[|es| - 1], |es| - 1;
      var s := Run(INITIAL, init);
      assert init + [last] == es;
      if last.Fetch? && last.c == c && At(s, c, Fetching) && last.answer.Some? {
        assert es[..n] == init;
        assert AnsweredIn(es, n, c, last.answer);
      } else {
        FetchedIsAnswered(init, c);
        FetchStays(init, last, c, Some(s.fetched[c]));
      }
    }
  }

  /** In its j-th event the run had caller owner put in the cache what the service
      had answered its fetch, at that time. */
  ghost predicate KeptIn(es: seq<Event>, j: nat, owner: nat, orgs: Roster, at: int) {
    && j < |es| && es[j] == Keep(owner) && At(Run(INITIAL, es[..j]), owner, Storing(orgs))
    && Run(INITIAL, es[..j]).now == at && FetchAnswered(es[..j], owner, Some(orgs))
  }

  ghost predicate WasKept(es: seq<Event>, x: Store) {
    exists j: nat :: KeptIn(es, j, x.owner, x.orgs, x.at)
  }

  lemma KeptStays(es: seq<Event>, e: Event, x: Store)
    requires WasKept(es, x)
    ensures WasKept(es + [e], x)
  {
    var j: nat :| KeptIn(es, j, x.owner, x.orgs, x.at);
    assert (es + [e])[..j] == es[..j];
    assert KeptIn(es + [e], j, x.owner, x.orgs, x.at);
  }

  /** Every store on record is a Keep event of the run. */
  lemma {:induction false} StoreWasKept(es: seq<Event>, k: nat)
    requires k < |Run(INITIAL, es).stores|
    ensures WasKept(es, Run(INITIAL, es).stores[k])
  {
    if es == [] {
    } else {
      var init, last, n: nat := es[..|es| - 1], es[|es| - 1], |es| - 1;
      var s := Run(INITIAL, init);
      assert init + [last] == es;
      if k < |s.stores| {
        StoreWasKept(init, k);
        KeptStays(init, last, s.stores[k]);
      } else {
        RunKeepsInv(init);
        assert CallerSound(s, last.c, s.callers[last.c]);
        FetchedIsAnswered(init, last.c);
        assert es[..n] == init;
        assert KeptIn(es, n, last.c, s.callers[last.c].orgs, s.now);
      }
    }
  }

  /** In its i-th event the run had caller c look and find in the cache what the
      Keep event j of caller owner had put there less than a minute before. */
  ghost predicate FoundIn(es: seq<Event>, i: nat, j: nat, c: nat, owner: nat, orgs: Roster) {
    && j < i < |es| && es[i] == Check(c) && At(Run(INITIAL, es[..i]), c, Checking)
    && KeptIn(es, j, owner, orgs, Run(INITIAL, es[..j]).now)
    && Run(INITIAL, es[..j]).now <= Run(INITIAL, es[..i]).now < Run(INITIAL, es[..j]).now + 60_000_000_000
  }

  ghost predicate FoundFresh(es: seq<Event>, c: nat, orgs: Roster) {
    exists i: nat, j: nat, owner: nat :: FoundIn(es, i, j, c, owner, orgs)
  }

  lemma FoundStays(es: seq<Event>, e: Event, c: nat, orgs: Roster)
    requires FoundFresh(es, c, orgs)
    ensures FoundFresh(es + [e], c, orgs)
  {
    var i: nat, j: nat, owner: nat :| FoundIn(es, i, j, c, owner, orgs);
    assert (es + [e])[..i] == es[..i] && (es + [e])[..j] == es[..j];
    assert FoundIn(es + [e], i, j, c, owner, orgs);
  }

  lemma FindsNow(es: seq<Event>, c: nat)
    requires var s := Run(INITIAL, es);
             At(s, c, Checking) && s.cache.Some? && s.now < s.cache.value.expires
    ensures FoundFresh(es + [Check(c)], c, Run(INITIAL, es).cache.value.orgs)
  {
    var s, next, n := Run(INITIAL, es), es + [Check(c)], |es|;
    RunKeepsInv(es);
    var x := s.stores[|s.stores| - 1];
    assert Genuine(s, x);
    StoreWasKept(es, |s.stores| - 1);
    var j: nat :| KeptIn(es, j, x.owner, x.orgs, x.at);
    assert next[..n] == es && next[..j] == es[..j];
    assert FoundIn(next, n, j, c, x.owner, x.orgs);
  }

  /** Whatever the interleaving, a roster handed to a caller is one that the service
      answered its own fetch, or one that the service answered some caller's fetch
      and that this caller put in the cache less than a minute before the other
      looked. */
  lemma {:induction false} RosterIsOwnOrRecent(es: seq<Event>, c: nat)
    requires var s := Run(INITIAL, es); c in s.callers && s.callers[c].Returned?
    ensures var caller := Run(INITIAL, es).callers[c];
            if caller.source.OwnFetch? then FetchAnswered(es, c, Some(caller.orgs)) else FoundFresh(es, c, caller.orgs)
  {
    if es == [] {
    } else {
      var init, last := es[..|es| - 1], es[|es| - 1];
      var s := Run(INITIAL, init);
      assert init + [last] == es;
      if c in s.callers && s.callers[c] == Run(INITIAL, es).callers[c] {
        RosterIsOwnOrRecent(init, c);
        RosterStays(init, last, c, s.callers[c]);
      } else if last.Check? {
        FindsNow(init, c);
      } else {
        RunKeepsInv(es);
        assert CallerSound(Run(INITIAL, es), c, Run(INITIAL, es).callers[c]);
        FetchedIsAnswered(es, c);
      }
    }
  }

  lemma RosterStays(es: seq<Event>, e: Event, c: nat, caller: Caller)
    requires caller.Returned?
    requires if caller.source.OwnFetch? then FetchAnswered(es, c, Some(caller.orgs)) else FoundFresh(es, c, caller.orgs)
    ensures if caller.source.OwnFetch? then FetchAnswered(es + [e], c, Some(caller.orgs))
            else FoundFresh(es + [e], c, caller.orgs)
  {
    if caller.source.OwnFetch? {
      FetchStays(es, e, c, Some(caller.orgs));
    } else {
      FoundStays(es, e, c, caller.orgs);
    }
  }

  /** The cache changes only by the store of a caller whose own fetch the service
      answered, to that answer, for a minute. */
  lemma {:induction false} OnlySuccessIsCached(es: seq<Event>, e: Event)
    ensures var s := Run(INITIAL, es);
            var t := Step(s, e);
            t.cache != s.cache ==>
              && e.Keep? && t.cache.Some? && t.cache.value.expires == s.now + 60_000_000_000
              && FetchAnswered(es, e.c, Some(t.cache.value.orgs))
  {
    RunKeepsInv(es);
    var s := Run(INITIAL, es);
    if e.Keep? && e.c in s.callers && s.callers[e.c].Storing? {
      assert CallerSound(s, e.c, s.callers[e.c]);
      FetchedIsAnswered(es, e.c);
    }
  }

  lemma {:induction false} FailedStaysFailed(es: seq<Event>, c: nat)
    requires FetchAnswered(es, c, None)
    ensures At(Run(INITIAL, es), c, Failed)
  {
    var init, last := es[..|es| - 1], es[|es| - 1];
    var i: nat :| AnsweredIn(es, i, c, None);
    if i == |es| - 1 {
    } else {
      assert es[..i] == init[..i];
      assert AnsweredIn(init, i, c, None);
      FailedStaysFailed(init, c);
    }
  }

  /** A caller whose fetch the service did not answer stores nothing, then or
      later. */
  lemma {:induction false} FailureStoresNothing(es: seq<Event>, c: nat)
    requires FetchAnswered(es, c, None)
    ensures forall k | 0 <= k < |Run(INITIAL, es).stores| :: Run(INITIAL, es).stores[k].owner != c
    ensures At(Run(INITIAL, es), c, Failed)
  {
    FailedStaysFailed(es, c);
    RunKeepsInv(es);
    var s := Run(INITIAL, es);
    assert CallerSound(s, c, Failed);
    forall k | 0 <= k < |s.stores|
      ensures s.stores[k].owner != c
    {
      assert Genuine(s, s.stores[k]);
    }
  }
}
