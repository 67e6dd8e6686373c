/** The code around the roster cache: cachedOrganizations as a method with other
    callers at work between its two critical sections, and resolveOrgID, which
    refuses to guess among several organizations. */
module OrgClient {
  import opened Basics
  import opened OrgCache

  predicate Foreign(e: Event, c: nat) {
    e.Tick? || e.c != c
  }

  predicate AllForeign(es: seq<Event>, c: nat) {
    forall i | 0 <= i < |es| :: Foreign(es[i], c)
  }

  lemma {:induction false} RunOne(s: State, es: seq<Event>, e: Event)
    ensures Run(s, es + [e]) == Step(Run(s, es), e)
  {
    assert (es + [e])[..|es|] == es;
  }

  lemma {:induction false} RunAppend(s: State, a: seq<Event>, b: seq<Event>)
    ensures Run(s, a + b) == Run(Run(s, a), b)
  {
    if b == [] {
      assert a + b == a;
    } else {
      var last := |b| - 1;
      RunAppend(s, a, b[..last]);
      RunOne(s, a + b[..last], b[last]);
      assert a + b == a + b[..last] + [b[last]];
    }
  }

  lemma {:induction false} ForeignKeepsCaller(s: State, e: Event, c: nat)
    requires c in s.callers && Foreign(e, c)
    ensures c in Step(s, e).callers && Step(s, e).callers[c] == s.callers[c]
  {
  }

  // ----- One caller among others

  /** The caller arrives, others act, it looks into the cache. */
  function Looked(s: State, c: nat, before: seq<Event>): State {
    Step(Run(Step(s, Call(c)), before), Check(c))
  }

  /** Its fetch is answered; on success others act and it stores the roster. */
  function Refreshed(s: State, c: nat, answer: Option<Roster>, during: seq<Event>): State {
    var t := Step(s, Fetch(c, answer));
    if answer.None? then t else Step(Run(t, during), Keep(c))
  }

  function Served(s: State, c: nat, before: seq<Event>, answer: Option<Roster>, during: seq<Event>): State {
    var t := Looked(s, c, before);
    if At(t, c, Fetching) then Refreshed(t, c, answer, during) else t
  }

  /** The roster it gets: the memoized one if that is fresh when it looks, else
      what the fetch brings. */
  function RosterFor(s: State, c: nat, before: seq<Event>, answer: Option<Roster>): Option<Roster> {
    var t := Run(Step(s, Call(c)), before);
    if t.cache.Some? && t.now < t.cache.value.expires then Some(t.cache.value.orgs) else answer
  }

  function Trace(s: State, c: nat, before: seq<Event>, answer: Option<Roster>, during: seq<Event>): seq<Event> {
    [Call(c)] + before + [Check(c)]
    + (if !At(Looked(s, c, before), c, Fetching) then []
       else if answer.None? then [Fetch(c, answer)]
       else [Fetch(c, answer)] + during + [Keep(c)])
  }

  lemma {:induction false} LookedIsRun(s: State, c: nat, before: seq<Event>)
    ensures Looked(s, c, before) == Run(s, [Call(c)] + before + [Check(c)])
  {
    RunOne(s, [], Call(c));
    assert [] + [Call(c)] == [Call(c)];
    RunAppend(s, [Call(c)], before);
    RunOne(s, [Call(c)] + before, Check(c));
  }

  lemma {:induction false} RefreshedIsRun(s: State, c: nat, answer: Option<Roster>, during: seq<Event>)
    ensures Refreshed(s, c, answer, during)
            == Run(s, if answer.None? then [Fetch(c, answer)] else [Fetch(c, answer)] + during + [Keep(c)])
  {
    RunOne(s, [], Fetch(c, answer));
    assert [] + [Fetch(c, answer)] == [Fetch(c, answer)];
    if answer.Some? {
      RunAppend(s, [Fetch(c, answer)], during);
      RunOne(s, [Fetch(c, answer)] + during, Keep(c));
    }
  }

  /** Being served is a run, so what holds of every run of the cache holds. */
  lemma {:induction false} ServedIsRun(s: State, c: nat, before: seq<Event>, answer: Option<Roster>, during: seq<Event>)
    ensures Served(s, c, before, answer, during) == Run(s, Trace(s, c, before, answer, during))
  {
    var look := [Call(c)] + before + [Check(c)];
    LookedIsRun(s, c, before);
    if At(Looked(s, c, before), c, Fetching) {
      RefreshedIsRun(Looked(s, c, before), c, answer, during);
      RunAppend(s, look, if answer.None? then [Fetch(c, answer)] else [Fetch(c, answer)] + during + [Keep(c)]);
    } else {
      assert look + [] == look;
    }
  }

  // ----- The message that names the organizations

  function Line(o: Org): string {
    var head := if o.slug != "" then "\n- " + o.name + (" (" + o.slug + ")") else "\n- " + o.name;
    head + ": " + o.id
  }

  function Listing(orgs: Roster): string {
    if orgs == [] then "" else Listing(orgs[..|orgs| - 1]) + Line(orgs[|orgs| - 1])
  }

  /** The message says the organization's name, its slug if it has one, and its
      identifier, on a line of its own. */
  ghost predicate Names(message: string, o: Org) {
    exists before, after :: NamedBetween(message, o, before, after)
  }

  predicate NamedBetween(message: string, o: Org, before: string, after: string) {
    var slug := if o.slug == "" then "" else " (" + o.slug + ")";
    message == before + ("\n- " + o.name + slug + ": " + o.id) + after
  }

  lemma LineNames(message: string, o: Org, before: string, after: string)
    requires message == before + Line(o) + after
    ensures NamedBetween(message, o, before, after)
  {
  }

  /** Every accessible organization has its line in the message. */
  lemma {:induction false} ListingNamesAll(orgs: Roster, k: nat)
    requires k < |orgs|
    ensures Names(Listing(orgs), orgs[k])
  {
    var last := |orgs| - 1;
    if k == last {
      LineNames(Listing(orgs), orgs[k], Listing(orgs[..last]), "");
    } else {
      ListingNamesAll(orgs[..last], k);
      var before, after :| NamedBetween(Listing(orgs[..last]), orgs[k], before, after);
      assert NamedBetween(Listing(orgs), orgs[k], before, after + Line(orgs[last]));
    }
  }

  /** strings.TrimSpace, the UUID pattern, and the sentence that says how many
      organizations there are to choose from. */
  datatype Text = Text(trim: string -> string, isUUID: string -> bool, header: nat -> string)

  datatype Resolution = Chosen(orgID: string) | NotAUUID | LookupFailed | Ambiguous(message: string)

  /** orgsCache, orgsCached and orgsExpires are the fields of the program's
      Client; the rest is the clock and the record of OrgCache. */
  class Client {
    var orgsCache: Roster
    var orgsCached: bool
    var orgsExpires: int
    var now: int
    var callers: map<nat, Caller>
    var fetched: map<nat, Roster>
    var stores: seq<OrgCache.Store>

    constructor ()
      ensures View() == INITIAL
    {
      orgsCache, orgsCached, orgsExpires := [], false, 0;
      now, callers, fetched, stores := 0, map[], map[], [];
    }

    function View(): State
      reads this
    {
      State(if orgsCached then Some(Cached(orgsCache, orgsExpires)) else None, now, callers, fetched, stores)
    }

    method OneOther(e: Event)
      modifies this
      ensures View() == Step(old(View()), e)
    {
      var s := Step(View(), e);
      if s.cache.Some? {
        orgsCache, orgsCached, orgsExpires := s.cache.value.orgs, true, s.cache.value.expires;
      }
      now, callers, fetched, stores := s.now, s.callers, s.fetched, s.stores;
    }

    /** Other callers, and the clock, take the steps es, in that order. */
    method Others(c: nat, es: seq<Event>)
      requires c in callers && AllForeign(es, c)
      modifies this
      ensures View() == Run(old(View()), es)
      ensures c in callers && callers[c] == old(callers[c])
    {
      ghost var s := View();
      for i := 0 to |es|
        invariant View() == Run(s, es[..i])
        invariant c in callers && callers[c] == s.callers[c]
      {
        RunOne(s, es[..i], es[i]);
        ForeignKeepsCaller(View(), es[i], c);
        assert es[..i + 1] == es[..i] + [es[i]];
        OneOther(es[i]);
      }
      assert es[..|es|] == es;
    }

    /** The first critical section. */
    method LookInCache(c: nat) returns (orgs: Option<Roster>)
      requires c in callers && callers[c] == Checking
      modifies this`callers
      ensures View() == Step(old(View()), Check(c))
      ensures orgs == if old(orgsCached && now < orgsExpires) then Some(old(orgsCache)) else None
      ensures c in callers
              && callers[c] == if orgs.Some? then Returned(orgs.value, FromCache(now)) else Fetching
    {
      if orgsCached && now < orgsExpires {
        callers := callers[c := Returned(orgsCache, FromCache(now))];
        return Some(orgsCache);
      }
      callers := callers[c := Fetching];
      return None;
    }

    /** The second critical section. */
    method Remember(c: nat, orgs: Roster)
      requires c in callers && callers[c] == Storing(orgs)
      modifies this
      ensures View() == Step(old(View()), Keep(c))
      ensures c in callers && callers[c] == Returned(orgs, OwnFetch)
    {
      orgsCache := orgs;
      orgsCached := true;
      orgsExpires := now + ORGS_CACHE_TTL;
      callers := callers[c := Returned(orgs, OwnFetch)];
      stores := stores + [OrgCache.Store(c, orgs, now)];
    }

    /** The fetch, outside the lock. */
    method Ask(c: nat, answer: Option<Roster>)
      requires c in callers && callers[c] == Fetching
      modifies this`callers, this`fetched
      ensures View() == Step(old(View()), Fetch(c, answer))
      ensures c in callers && callers[c] == if answer.Some? then Storing(answer.value) else Failed
    {
      match answer {
        case None => callers := callers[c := Failed];
        case Some(orgs) => callers, fetched := callers[c := Storing(orgs)], fetched[c := orgs];
      }
    }

    /** A miss: fetch and store, other callers acting in between. */
    method Refresh(c: nat, answer: Option<Roster>, during: seq<Event>)
      requires c in callers && callers[c] == Fetching && AllForeign(during, c)
      modifies this
      ensures View() == Refreshed(old(View()), c, answer, during)
      ensures c in callers && callers[c] == if answer.Some? then Returned(answer.value, OwnFetch) else Failed
    {
      Ask(c, answer);
      if answer.Some? {
        Others(c, during);
        Remember(c, answer.value);
      }
    }

    /** The roster, from the cache or from a fetch that is answered by answer;
        other callers act before the look and before the store. */
    method CachedOrganizations(c: nat, before: seq<Event>, answer: Option<Roster>, during: seq<Event>)
      returns (orgs: Option<Roster>)
      requires c !in callers && AllForeign(before, c) && AllForeign(during, c)
      modifies this
      ensures View() == Served(old(View()), c, before, answer, during)
      ensures orgs == RosterFor(old(View()), c, before, answer)
      ensures c in callers && match orgs
                              case Some(x) => callers[c].Returned? && callers[c].orgs == x
                              case None => callers[c] == Failed
    {
      callers := callers[c := Checking];
      assert View() == Step(old(View()), Call(c));
      Others(c, before);
      orgs := LookInCache(c);
      if orgs.None? {
        Refresh(c, answer, during);
        orgs := answer;
      }
    }

    /** Without an organization a call goes ahead only when the roster it got
        has at most one; with several it is refused, and told which. */
    method ResolveOrgID(t: Text, orgID: string, c: nat, before: seq<Event>, answer: Option<Roster>, during: seq<Event>)
      returns (r: Resolution)
      requires c !in callers && AllForeign(before, c) && AllForeign(during, c)
      modifies this
      ensures View() == if t.trim(orgID) == "" then Served(old(View()), c, before, answer, during) else old(View())
      ensures var s, roster := t.trim(orgID), RosterFor(old(View()), c, before, answer);
              && (r.Chosen? <==> if s != "" then t.isUUID(s) else roster.Some? && |roster.value| <= 1)
              && (r.Chosen? ==> r.orgID == s)
              && (r.NotAUUID? <==> s != "" && !t.isUUID(s))
              && (r.LookupFailed? <==> s == "" && roster.None?)
              && (r.Ambiguous? ==>
                    roster.Some? && forall k | 0 <= k < |roster.value| :: Names(r.message, roster.value[k]))
    {
      if t.trim(orgID) != "" && !t.isUUID(t.trim(orgID)) {
        return NotAUUID;
      }
      var s := t.trim(orgID);
      if s != "" {
        return Chosen(s);
      }
      var orgs := CachedOrganizations(c, before, answer, during);
      if orgs.None? {
        return LookupFailed;
      }
      if |orgs.value| <= 1 {
        return Chosen("");
      }
      var message := Complaint(t.header(|orgs.value|), orgs.value);
      return Ambiguous(message);
    }
  }

  lemma ListingGrows(orgs: Roster, i: nat)
    requires i < |orgs|
    ensures Listing(orgs[..i + 1]) == Listing(orgs[..i]) + Line(orgs[i])
  {
    assert orgs[..i + 1][..i] == orgs[..i];
  }

  method Complaint(header: string, orgs: Roster) returns (b: string)
    ensures forall k | 0 <= k < |orgs| :: Names(b, orgs[k])
  {
    b := header;
    for i := 0 to |orgs|
      invariant b == header + Listing(orgs[..i])
    {
      var o := orgs[i];
      var line := "\n- " + o.name;
      if o.slug != "" {
        line := line + (" (" + o.slug + ")");
      }
      line := line + ": " + o.id;
      b := b + line;
      ListingGrows(orgs, i);
    }
    assert orgs[..|orgs|] == orgs;
    forall k | 0 <= k < |orgs|
      ensures Names(b, orgs[k])
    {
      MessageNames(header, orgs, k);
    }
  }

  lemma {:induction false} MessageNames(header: string, orgs: Roster, k: nat)
    requires k < |orgs|
    ensures Names(header + Listing(orgs), orgs[k])
  {
    ListingNamesAll(orgs, k);
    var before, after :| NamedBetween(Listing(orgs), orgs[k], before, after);
    NamedBehind(header, Listing(orgs), orgs[k], before, after);
  }

  lemma NamedBehind(header: string, message: string, o: Org, before: string, after: string)
    requires NamedBetween(message, o, before, after)
    ensures NamedBetween(header + message, o, header + before, after)
  {
    var line := message[|before|..|message| - |after|];
    assert message == before + line + after;
    Assoc(header, before, line, after);
  }

  lemma Assoc(a: string, b: string, c: string, d: string)
    ensures a + (b + c + d) == (a + b) + c + d
  {
  }
}
