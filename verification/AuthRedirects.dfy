/** What a redirect of the consent page delivers, in every run: its parameters
    arrive in the query of a registered URI, and a code it announces was stored
    in that very step. */
module AuthRedirects {
  import opened Basics
  import opened Redirects
  import opened AuthRecords
  import opened Lineage
  import opened AuthSteps
  import opened AuthAudit
  import opened AuthSafety
  import opened AuthDecency
  import opened AuthInvariant
  import opened AuthTheorems
  import opened AuthHistory

  function StateOf(p: Params): string {
    match p
    case CodeGranted(_, state) => state
    case AccessDenied(state) => state
  }

  /** s' holds, beside what s held, the one code that answer r announces, made
      for the request a. */
  predicate StoredForAnswer(s: Sys, s': Sys, r: Response, a: AuthFact)
    requires r.Redirected?
  {
    match r.params
    case CodeGranted(code, _) =>
      && code !in s.codes && code in s'.codes && s'.codes == s.codes[code := s'.codes[code]]
      && var c := s'.codes[code];
         c.code == code && c.clientID == r.clientID && c.redirectURI == r.uri
         && c.codeChallenge == a.codeChallenge && c.scope == a.scope
    case AccessDenied(_) => s'.codes == s.codes
  }

  /** The answer repeats what the authorization request said. */
  predicate AnswersRequest(r: Response, a: AuthFact)
    requires r.Redirected?
  {
    r.clientID == a.clientID && r.uri == a.redirectURI && StateOf(r.params) == a.originalState
  }

  /** A denial answers a user who did not approve. */
  predicate AnswersChoice(f: Flight, r: Response)
    requires r.Redirected?
  {
    if r.params.AccessDenied? then f.ConsentLookup? && !f.approve else f.ConsentMint?
  }

  lemma DenialAnswers(w: World, s: Sys, tid: nat, f: Flight, io: IO, a: AuthFact)
    requires f.ConsentLookup? && MatchesAuth(f.p, a)
    ensures var e := ActConsentLookup(s, tid, f, io);
            e.next.Done? && e.next.response.Redirected? ==>
              AnswersRequest(e.next.response, a) && AnswersChoice(f, e.next.response)
              && StoredForAnswer(s, Perform(s, tid, e).sys, e.next.response, a)
  {
  }

  lemma GrantAnswers(w: World, s: Sys, tid: nat, p: PendingAuth, io: IO, a: AuthFact)
    requires Fresh(w, s) && MatchesAuth(p, a)
    ensures var e := ActConsentMint(w, s, tid, p, io);
            e.next.Done? && e.next.response.Redirected? ==>
              AnswersRequest(e.next.response, a) && AnswersChoice(ConsentMint(p), e.next.response)
              && StoredForAnswer(s, Perform(s, tid, e).sys, e.next.response, a)
  {
    FreshKeys(w, s);
  }

  lemma ConsentAnswers(w: World, s: State, tid: nat, f: Flight, io: IO)
    requires Informed(w, s, tid, f) && !f.Done?
    requires var e := Proceed(w, s.sys, tid, f, io); e.next.Done? && e.next.response.Redirected?
    ensures HasRecord(w, s, InHand(tid))
    ensures var e := Proceed(w, s.sys, tid, f, io);
            var a := AuthOf(TrailAt(s.audit, InHand(tid)));
            AnswersRequest(e.next.response, a) && AnswersChoice(f, e.next.response)
            && StoredForAnswer(s.sys, Perform(s.sys, tid, e).sys, e.next.response, a)
  {
    OnlyConsentRedirects(w, s.sys, tid, f, io);
    HandIsSettled(w, s, tid, f);
    var a := AuthOf(TrailAt(s.audit, InHand(tid)));
    if f.ConsentLookup? {
      DenialAnswers(w, s.sys, tid, f, io, a);
    } else {
      GrantAnswers(w, s.sys, tid, f.p, io, a);
    }
  }

  lemma OnlyConsentRedirects(w: World, s: Sys, tid: nat, f: Flight, io: IO)
    requires !f.Done?
    requires var e := Proceed(w, s, tid, f, io); e.next.Done? && e.next.response.Redirected?
    ensures f.ConsentLookup? || f.ConsentMint?
  {
    if LoginPoint(f) {
      LoginNeverRedirects(w, s, tid, f, io);
    } else if !ConsentPoint(f) {
      TokenNeverRedirects(w, s, tid, f, io);
    }
  }

  lemma AdvanceAnswers(w: World, s: State, tid: nat, io: IO)
    requires Sound(w) && Inv(w, s) && tid in s.sys.flights && !s.sys.flights[tid].Done?
    requires var f := Proceed(w, Ticked(s.sys, io.tick), tid, s.sys.flights[tid], io).next;
             f.Done? && f.response.Redirected?
    ensures InHand(tid) in s.audit.at && s.audit.at[InHand(tid)] < |s.audit.trails|
    ensures var r := Proceed(w, Ticked(s.sys, io.tick), tid, s.sys.flights[tid], io).next.response;
            var a := AuthOf(TrailAt(s.audit, InHand(tid)));
            AnswersRequest(r, a) && AnswersChoice(s.sys.flights[tid], r)
            && StoredForAnswer(s.sys, Advanced(w, s.sys, tid, io).sys, r, a)
  {
    TickKeepsCore(w, s, io.tick);
    TickKeepsFresh(w, s.sys, io.tick);
    ConsentAnswers(w, State(Ticked(s.sys, io.tick), s.audit), tid, s.sys.flights[tid], io);
  }

  /** The request that brought handler tid in is a consent POST for the record of
      authorization r, and approves if and only if the answer grants a code. */
  ghost predicate AnswersPost(w: World, es: seq<Event>, tid: nat, r: nat, response: Response)
    requires response.Redirected?
  {
    && Arrived(es, tid).Some? && Took(w, es, tid, r)
    && var q := Arrived(es, tid).value;
    q.ConsentRequest? && (response.params.CodeGranted? <==> q.action == "approve")
  }

  lemma PostIsAnswered(w: World, es: seq<Event>, e: Event, tid: nat)
    requires Sound(w) && InHand(tid) in Reached(w, es).audit.at && tid in Reached(w, es).sys.flights
    requires var s' := Reached(w, es + [e]).sys;
             tid in s'.flights && s'.flights[tid].Done? && s'.flights[tid].response.Redirected?
    ensures var response := Reached(w, es + [e]).sys.flights[tid].response;
            AnswersPost(w, es, tid, Reached(w, es).audit.at[InHand(tid)], response)
  {
    HoldersTook(w, es, tid);
    HandlersServe(w, es, tid);
    HandlersServe(w, es + [e], tid);
    ArrivedStays(es, es + [e], tid);
  }

  /** In every run, when a step makes a handler answer with a redirect: the URI
      is one of the client's own and may receive codes, whatever the answer says arrives in its query
      behind what was there before, the state is the one the client sent, a code
      is granted exactly if the user's POST says "approve", and the code announced
      is new and stored, for this client, URI and challenge; no other code is
      touched, and none at all when the user denied. */
  lemma RedirectDelivers(w: World, es: seq<Event>, tid: nat, io: IO, encode: Params -> string)
    requires Sound(w) && forall p :: '#' !in encode(p)
    requires tid in Reached(w, es).sys.flights && !Reached(w, es).sys.flights[tid].Done?
    requires var s' := Step(w, Reached(w, es), Advance(tid, io)).sys;
             tid in s'.flights && s'.flights[tid].Done? && s'.flights[tid].response.Redirected?
    ensures InHand(tid) in Reached(w, es).audit.at
    ensures Reached(w, es).audit.at[InHand(tid)] < |Reached(w, es).audit.trails|
    ensures var s, s' := Reached(w, es), Step(w, Reached(w, es), Advance(tid, io)).sys;
            var r, a := s'.flights[tid].response, AuthOf(TrailAt(s.audit, InHand(tid)));
            && r.clientID in s'.clients && r.uri in s'.clients[r.clientID].redirectURIs
            && MayReceiveCodes(w.parse, r.uri)
            && BaseOf(AppendQuery(r.uri, encode(r.params))) == BaseOf(r.uri)
            && QueryOf(AppendQuery(r.uri, encode(r.params))) == Some(Joined(r.uri, encode(r.params)))
            && AnswersRequest(r, a) && AnswersChoice(s.sys.flights[tid], r) && StoredForAnswer(s.sys, s', r, a)
            && AnswersPost(w, es, tid, s.audit.at[InHand(tid)], r)
  {
    var s, next := Reached(w, es), es + [Advance(tid, io)];
    assert next[..|es|] == es;
    AlwaysInv(w, es);
    var e := Proceed(w, Ticked(s.sys, io.tick), tid, s.sys.flights[tid], io);
    assert Act(w, s.sys, Advance(tid, io)) == Advanced(w, s.sys, tid, io);
    FlightsAfter(Ticked(s.sys, io.tick), tid, e);
    AdvanceAnswers(w, s, tid, io);
    RedirectsAreRegistered(w, next, tid);
    PostIsAnswered(w, es, Advance(tid, io), tid);
    AcceptedUriKeepsParametersInQuery(w.parse, e.next.response.uri, encode(e.next.response.params));
  }
}
