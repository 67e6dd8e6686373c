/** From stored records and noted facts back to what clients sent, what the user
    clicked and what Cognito answered, in every run. */
module AuthProvenance {
  import opened Basics
  import opened Redirects
  import opened AuthRecords
  import opened Lineage
  import opened LineageTheorems
  import opened AuthSteps
  import opened AuthAudit
  import opened AuthSafety
  import opened AuthDecency
  import opened AuthInvariant
  import opened AuthTheorems
  import opened AuthEndings
  import opened AuthRedirects
  import opened AuthHistory
  import opened AuthDeeds

  /** Request q came in under number tid, and then that handler took the record
      of authorization r from the place q names. */
  ghost predicate Brought(w: World, es: seq<Event>, tid: nat, q: Request, r: nat) {
    exists i: nat, j: nat :: BroughtIn(w, es, i, j, tid, q, r)
  }

  predicate BroughtIn(w: World, es: seq<Event>, i: nat, j: nat, tid: nat, q: Request, r: nat) {
    && i < j < |es| && es[i] == Start(tid, q)
    && es[j].Advance? && es[j].tid == tid && Named(w, q).Some?
    && Carrying(Reached(w, es[..j]), Named(w, q).value, r)
    && Carrying(Reached(w, es[..j + 1]), InHand(tid), r)
  }

  lemma TookIsBrought(w: World, es: seq<Event>, tid: nat, r: nat)
    requires Took(w, es, tid, r)
    ensures Arrived(es, tid).Some? && Brought(w, es, tid, Arrived(es, tid).value, r)
  {
    var j: nat :| TookIn(w, es, j, tid, r);
    ArrivedStays(es[..j], es, tid);
    ArrivedStarted(es[..j], tid);
    var i :| 0 <= i < j && es[..j][i] == Start(tid, Arrived(es, tid).value);
    assert BroughtIn(w, es, i, j, tid, Arrived(es, tid).value, r);
  }

  lemma BroughtStays(w: World, es: seq<Event>, more: seq<Event>, tid: nat, q: Request, r: nat)
    requires es <= more && Brought(w, es, tid, q, r)
    ensures Brought(w, more, tid, q, r)
  {
    var i: nat, j: nat :| BroughtIn(w, es, i, j, tid, q, r);
    assert more[..j] == es[..j] && more[..j + 1] == es[..j + 1];
    assert BroughtIn(w, more, i, j, tid, q, r);
  }

  /** The clock in the i-th event. */
  function ClockIn(w: World, es: seq<Event>, i: nat): int
    requires i < |es| && es[i].Advance?
  {
    Reached(w, es[..i]).sys.now + es[i].io.tick
  }

  predicate StepIn(w: World, es: seq<Event>, i: nat, tid: nat, at: int) {
    i < |es| && es[i].Advance? && es[i].tid == tid && ClockIn(w, es, i) == at
  }

  /** The step behind a fact, and the events that brought its request. */
  lemma WriterBrought(w: World, es: seq<Event>, i: nat, r: nat, u: Trail) returns (c: Scene)
    requires Sound(w) && Wrote(w, es, i, r, u) && es[i].Advance?
    ensures es[i].tid in Reached(w, es[..i]).sys.flights && Arrived(es[..i], es[i].tid).Some?
    ensures c == SceneOf(w, es[..i], es[i].tid, es[i].io) && Deed(w, c, u.fact)
    ensures StepIn(w, es, i, c.tid, c.now)
    ensures !c.q.RevokeRequest? ==> Brought(w, es, c.tid, c.q, r) && Carrying(Reached(w, es[..i]), InHand(c.tid), r)
  {
    c := SceneOf(w, es[..i], es[i].tid, es[i].io);
    if !c.q.RevokeRequest? {
      TookIsBrought(w, es[..i], c.tid, r);
      BroughtStays(w, es[..i], es, c.tid, c.q, r);
    }
  }

  /** The same for a fact that is not an ending. */
  lemma DeedBrought(w: World, es: seq<Event>, r: nat, u: Trail) returns (i: nat, c: Scene)
    requires Sound(w) && r < |Reached(w, es).audit.trails|
    requires Within(u, Reached(w, es).audit.trails[r]) && u.More? && !u.fact.Ended?
    ensures Deed(w, c, u.fact) && StepIn(w, es, i, c.tid, c.now) && Brought(w, es, c.tid, c.q, r)
    ensures Wrote(w, es, i, r, u) && c.tid in Reached(w, es[..i]).sys.flights && Arrived(es[..i], c.tid).Some?
    ensures c == SceneOf(w, es[..i], c.tid, es[i].io) && Carrying(Reached(w, es[..i]), InHand(c.tid), r)
  {
    EveryFactHappened(w, es, r, u);
    i :| Wrote(w, es, i, r, u);
    c := WriterBrought(w, es, i, r, u);
  }

  // ----- Approval

  /** A user approved authorization r: a consent POST came in with action
      "approve" and took r's record from under the key it named. */
  ghost predicate UserApproved(w: World, es: seq<Event>, r: nat) {
    exists tid: nat, key :: Brought(w, es, tid, ConsentRequest(key, "approve"), r)
  }

  /** In every run, no code comes into being without that. */
  lemma ApprovalIsTheUsers(w: World, es: seq<Event>, r: nat, u: Trail)
    requires Sound(w) && r < |Reached(w, es).audit.trails|
    requires Within(u, Reached(w, es).audit.trails[r]) && u.More? && u.fact.Approved?
    ensures UserApproved(w, es, r)
  {
    var i, c := DeedBrought(w, es, r, u);
    assert c.q == ConsentRequest(c.q.key, "approve");
  }

  // ----- Login

  /** Cognito named this user, in the callback that took the record of r. */
  ghost predicate CognitoLogin(w: World, es: seq<Event>, r: nat, visit: Visit, lookup: Option<seq<string>>) {
    exists tid: nat, i: nat, l: Login, q ::
      LoginIn(w, es, i, tid, l) && Brought(w, es, tid, q, r) && LoginGives(l, q, visit, lookup)
  }

  predicate LoginGives(l: Login, q: Request, visit: Visit, lookup: Option<seq<string>>) {
    q.CallbackRequest? && l.subject != "" && visit == VisitOf(l) && lookup == l.orgs
  }

  lemma LoginFound(w: World, es: seq<Event>, n: nat, tid: nat) returns (k: nat)
    requires n <= |es| && LoginOf(w, es[..n], tid).Some?
    ensures LoginIn(w, es, k, tid, LoginOf(w, es[..n], tid).value)
  {
    LoginHappened(w, es[..n], tid);
    k :| LoginIn(w, es[..n], k, tid, LoginOf(w, es[..n], tid).value);
    assert es[..n][..k] == es[..k];
  }

  /** In every run, no login is noted but what Cognito answered. */
  lemma LoginIsCognitos(w: World, es: seq<Event>, r: nat, u: Trail)
    requires Sound(w) && r < |Reached(w, es).audit.trails|
    requires Within(u, Reached(w, es).audit.trails[r]) && u.More? && u.fact.CalledBack?
    ensures CognitoLogin(w, es, r, u.fact.visit, u.fact.lookup)
  {
    var i, c := DeedBrought(w, es, r, u);
    var k := LoginFound(w, es, i, c.tid);
    assert LoginGives(c.login.value, c.q, u.fact.visit, u.fact.lookup);
  }

  /** In every run a stored code has its own authorization behind it: a user who
      approved it, after Cognito had named that user, for what the original
      request asked. */
  lemma CodeHasProvenance(w: World, es: seq<Event>, code: string)
    requires Sound(w) && code in Reached(w, es).sys.codes
    ensures var s := Reached(w, es);
            var c := s.sys.codes[code];
            && CodeAt(code) in s.audit.at && s.audit.at[CodeAt(code)] < |s.audit.trails|
            && var r := s.audit.at[CodeAt(code)];
            var t := s.audit.trails[r];
            && t.More? && t.fact.Approved? && t.fact.code == code && t.past.More? && t.past.fact.CalledBack?
            && UserApproved(w, es, r)
            && CognitoLogin(w, es, r, Visit(c.subject, c.email, c.orgs, c.cognitoRefreshEnc), t.past.fact.lookup)
            && c.clientID == AuthOf(t).clientID && c.redirectURI == AuthOf(t).redirectURI
            && c.codeChallenge == AuthOf(t).codeChallenge && c.scope == AuthOf(t).scope
            && c.expires <= t.fact.at + 60_000_000_000
  {
    CodeMatchesTrail(w, es, code);
    var r := Reached(w, es).audit.at[CodeAt(code)];
    var t := Reached(w, es).audit.trails[r];
    ApprovalIsTheUsers(w, es, r, t);
    assert Within(t.past, t);
    LoginIsCognitos(w, es, r, t.past);
  }

  /** Handler tid took one authorization's record for a consent POST that approves
      if and only if response r grants a code. */
  ghost predicate FollowsChoice(w: World, es: seq<Event>, tid: nat, response: Response)
    requires response.Redirected?
  {
    exists r: nat, q :: Brought(w, es, tid, q, r) && IsChoice(q, response)
  }

  predicate IsChoice(q: Request, response: Response)
    requires response.Redirected?
  {
    q.ConsentRequest? && (response.params.CodeGranted? <==> q.action == "approve")
  }

  /** In every run an answer that grants a code answers a POST that approves, and
      one that says access_denied answers a POST that does not. */
  lemma {:induction false} RedirectFollowsChoice(w: World, es: seq<Event>, tid: nat)
    requires Sound(w) && tid in Reached(w, es).sys.flights
    requires var f := Reached(w, es).sys.flights[tid];
             f.Done? && f.response.Redirected?
    ensures FollowsChoice(w, es, tid, Reached(w, es).sys.flights[tid].response)
  {
    if es == [] {
    } else {
      var init, last := es[..|es| - 1], es[|es| - 1];
      var f := Reached(w, es).sys.flights[tid];
      assert init + [last] == es;
      FlightFollows(w, Reached(w, init).sys, last, tid);
      if Stays(Reached(w, init).sys, tid, f) {
        RedirectFollowsChoice(w, init, tid);
        FollowsStays(w, init, last, tid, f.response);
      } else {
        FollowsNow(w, init, last, tid, f);
      }
    }
  }

  predicate Stays(s: Sys, tid: nat, f: Flight) {
    tid in s.flights && s.flights[tid] == f
  }

  lemma FollowsStays(w: World, es: seq<Event>, e: Event, tid: nat, response: Response)
    requires response.Redirected? && FollowsChoice(w, es, tid, response)
    ensures FollowsChoice(w, es + [e], tid, response)
  {
    var r: nat, q :| Brought(w, es, tid, q, r) && IsChoice(q, response);
    BroughtStays(w, es, es + [e], tid, q, r);
  }

  lemma FollowsNow(w: World, es: seq<Event>, e: Event, tid: nat, f: Flight)
    requires Sound(w) && f.Done? && f.response.Redirected? && !Stays(Reached(w, es).sys, tid, f)
    requires FlightAfter(w, Reached(w, es).sys, e, tid) == Some(f)
    ensures FollowsChoice(w, es + [e], tid, f.response)
  {
    RedirectingHolds(w, Reached(w, es).sys, e, tid, f);
    var r := HolderBrought(w, es, e, tid);
    FlightFollows(w, Reached(w, es).sys, e, tid);
    RunOneMore(w, es, e);
    HandlersServe(w, es + [e], tid);
    assert IsChoice(Arrived(es + [e], tid).value, f.response);
  }

  lemma RunOneMore(w: World, es: seq<Event>, e: Event)
    ensures Reached(w, es + [e]) == Step(w, Reached(w, es), e)
  {
    assert (es + [e])[..|es|] == es;
  }

  lemma RedirectingHolds(w: World, s: Sys, e: Event, tid: nat, f: Flight)
    requires f.Done? && f.response.Redirected? && FlightAfter(w, s, e, tid) == Some(f)
    requires !Stays(s, tid, f)
    ensures tid in s.flights && Holding(s.flights[tid])
  {
    if tid in s.flights {
      OnlyConsentRedirects(w, Ticked(s, e.io.tick), tid, s.flights[tid], e.io);
    }
  }

  /** The record a handler holds, in the run with one more event. */
  lemma HolderBrought(w: World, es: seq<Event>, e: Event, tid: nat) returns (r: nat)
    requires Sound(w) && tid in Reached(w, es).sys.flights && Holding(Reached(w, es).sys.flights[tid])
    ensures Carrying(Reached(w, es), InHand(tid), r)
    ensures Arrived(es + [e], tid).Some? && Brought(w, es + [e], tid, Arrived(es + [e], tid).value, r)
  {
    AlwaysInv(w, es);
    CoreKnows(w, Reached(w, es), InHand(tid));
    r := Reached(w, es).audit.at[InHand(tid)];
    HoldersTook(w, es, tid);
    TookStays(w, es, es + [e], tid, r);
    TookIsBrought(w, es + [e], tid, r);
  }

  // ----- Redemption and refresh

  /** Fact f repeats a code grant that came in, took r's record from under the
      code it named, and was checked at that time. */
  ghost predicate ClientRedeemed(w: World, es: seq<Event>, r: nat, f: Fact, code: string)
    requires f.Redeemed?
  {
    exists i: nat, q ::
      StepIn(w, es, i, f.tid, f.at) && Brought(w, es, f.tid, q, r)
      && q == CodeRequest(CodeGrant(code, f.verifier, f.clientID, f.redirectURI))
  }

  /** In every run a redemption is noted for what the client sent, and for the
      very code that was approved. */
  lemma RedemptionIsTheClients(w: World, es: seq<Event>, r: nat, u: Trail)
    requires Sound(w) && r < |Reached(w, es).audit.trails|
    requires Within(u, Reached(w, es).audit.trails[r]) && u.More? && u.fact.Redeemed?
    ensures u.past.More? && u.past.fact.Approved? && ClientRedeemed(w, es, r, u.fact, u.past.fact.code)
  {
    var i, c := DeedBrought(w, es, r, u);
    HeldCode(w, es[..i], c.tid, r);
    RedeemedStep(w, es, i, r, u.fact, u.past.fact.code, c.q);
  }

  lemma RedeemedStep(w: World, es: seq<Event>, i: nat, r: nat, f: Fact, code: string, q: Request)
    requires f.Redeemed? && q.CodeRequest? && StepIn(w, es, i, f.tid, f.at) && Brought(w, es, f.tid, q, r)
    requires q.grant.code == code && q.grant.verifier == f.verifier
    requires q.grant.clientID == f.clientID && q.grant.redirectURI == f.redirectURI
    ensures ClientRedeemed(w, es, r, f, code)
  {
    assert q == CodeRequest(CodeGrant(code, f.verifier, f.clientID, f.redirectURI));
  }

  lemma HeldCode(w: World, es: seq<Event>, tid: nat, r: nat)
    requires Sound(w) && Carrying(Reached(w, es), InHand(tid), r)
    requires tid in Reached(w, es).sys.flights && Reached(w, es).sys.flights[tid].CodeCheck?
    ensures r < |Reached(w, es).audit.trails|
    ensures var t := Reached(w, es).audit.trails[r];
            t.More? && t.fact.Approved? && t.fact.code == Reached(w, es).sys.flights[tid].c.code
  {
    AlwaysInv(w, es);
    HandIsSettled(w, Reached(w, es), tid, Reached(w, es).sys.flights[tid]);
  }

  /** So the client that redeems presented the approved code in time, with the
      proof of the challenge and as the client of the original request. */
  lemma RedemptionMatchesRequest(w: World, es: seq<Event>, r: nat, u: Trail)
    requires Sound(w) && r < |Reached(w, es).audit.trails|
    requires Within(u, Reached(w, es).audit.trails[r]) && u.More? && u.fact.Redeemed?
    ensures u.past.More? && u.past.fact.Approved?
    ensures var a := AuthOf(Reached(w, es).audit.trails[r]);
            exists g, i: nat ::
              && StepIn(w, es, i, u.fact.tid, u.fact.at) && Brought(w, es, u.fact.tid, CodeRequest(g), r)
              && g.code == u.past.fact.code && u.fact.at <= u.past.fact.at + 60_000_000_000
              && w.challengeOf(g.verifier) == a.codeChallenge && g.clientID == a.clientID
              && (g.redirectURI == "" || g.redirectURI == a.redirectURI)
  {
    var t := Reached(w, es).audit.trails[r];
    RedemptionIsTheClients(w, es, r, u);
    EveryTrailIsLawful(w, es, r);
    RedemptionIsBound(w, u, t);
    var g := CodeGrant(u.past.fact.code, u.fact.verifier, u.fact.clientID, u.fact.redirectURI);
    var i: nat, q :| StepIn(w, es, i, u.fact.tid, u.fact.at) && Brought(w, es, u.fact.tid, q, r) && q == CodeRequest(g);
    assert Brought(w, es, u.fact.tid, CodeRequest(g), r);
  }

  /** Fact f repeats a refresh request that came in, took r's record from under
      the token it named, and was checked at that time. */
  ghost predicate ClientPresented(w: World, es: seq<Event>, r: nat, f: Fact)
    requires f.Presented?
  {
    exists i: nat, q ::
      StepIn(w, es, i, f.tid, f.at) && Brought(w, es, f.tid, q, r)
      && q.RefreshRequest? && w.hash(q.presented) == f.key && q.clientID == f.clientID
  }

  lemma PresentationIsTheClients(w: World, es: seq<Event>, r: nat, u: Trail)
    requires Sound(w) && r < |Reached(w, es).audit.trails|
    requires Within(u, Reached(w, es).audit.trails[r]) && u.More? && u.fact.Presented?
    ensures ClientPresented(w, es, r, u.fact)
  {
    var i, c := DeedBrought(w, es, r, u);
    assert StepIn(w, es, i, u.fact.tid, u.fact.at);
  }

  /** In every run an accepted refresh was presented by a client that sent the
      token issued last, in time, and no other client's name. */
  lemma PresentationMatchesRequest(w: World, es: seq<Event>, r: nat, u: Trail)
    requires Sound(w) && r < |Reached(w, es).audit.trails|
    requires Within(u, Reached(w, es).audit.trails[r]) && u.More? && u.fact.Presented?
    ensures IssueOf(u.past).More? && IssueOf(u.past).fact.Issued?
    ensures var a := AuthOf(Reached(w, es).audit.trails[r]);
            exists q, i: nat ::
              && StepIn(w, es, i, u.fact.tid, u.fact.at) && Brought(w, es, u.fact.tid, q, r)
              && q.RefreshRequest? && w.hash(q.presented) == RefreshKeyOf(u.past)
              && u.fact.at <= IssueOf(u.past).fact.at + 2_592_000_000_000_000
              && (q.clientID == "" || q.clientID == a.clientID)
  {
    PresentationIsTheClients(w, es, r, u);
    EveryTrailIsLawful(w, es, r);
    RefreshWithinDeadline(w, u, Reached(w, es).audit.trails[r]);
  }

  /** In its i-th event the run had the handler of fact f ask Cognito with the
      ciphertext f names, and Cognito accepted for the user f names. */
  predicate RenewalIn(w: World, es: seq<Event>, i: nat, f: Fact)
    requires f.Renewed?
  {
    && i < |es| && es[i].Advance? && es[i].tid == f.tid
    && f.tid in Reached(w, es[..i]).sys.flights
    && var g := Reached(w, es[..i]).sys.flights[f.tid];
    && g.RefreshReauth? && g.rt.cognitoRefreshEnc == f.ciphertext
    && es[i].io.reauth == CognitoAccepted(f.subject, f.claimed, f.lookup) && f.subject != ""
  }

  ghost predicate CognitoRenewal(w: World, es: seq<Event>, r: nat, f: Fact)
    requires f.Renewed?
  {
    exists i: nat, q :: RenewalIn(w, es, i, f) && Brought(w, es, f.tid, q, r) && q.RefreshRequest?
  }

  /** In every run, no refresh is noted but what Cognito accepted. */
  lemma RenewalIsCognitos(w: World, es: seq<Event>, r: nat, u: Trail)
    requires Sound(w) && r < |Reached(w, es).audit.trails|
    requires Within(u, Reached(w, es).audit.trails[r]) && u.More? && u.fact.Renewed?
    ensures CognitoRenewal(w, es, r, u.fact)
  {
    var i, c := DeedBrought(w, es, r, u);
    assert RenewalIn(w, es, i, u.fact);
  }

  /** In every run a stored session was minted for a client that had just redeemed
      the approved code, for the user Cognito named at login; or for one whose
      refresh Cognito had just accepted, for the user Cognito named then. */
  lemma SessionHasProvenance(w: World, es: seq<Event>, key: string)
    requires Sound(w) && key in Reached(w, es).sys.sessions
    ensures var s := Reached(w, es);
            && Traced(s.audit, key, s.sys.sessions[key]) && s.sys.sessions[key].subject != ""
            && var r, session := s.audit.minter[key], s.sys.sessions[key];
            var u := MintOf(s.audit.trails[r], key, session);
            && u.past.More? && u.past.past.More?
            && if u.past.fact.Redeemed? then
                 && u.past.past.fact.Approved?
                 && ClientRedeemed(w, es, r, u.past.fact, u.past.past.fact.code)
                 && (exists lookup, enc ::
                       CognitoLogin(w, es, r, Visit(session.subject, session.email, session.orgs, enc), lookup))
               else
                 && u.past.fact.Renewed? && CognitoRenewal(w, es, r, u.past.fact)
                 && SessionIs(session, u.past.fact.subject, u.past.fact.email, u.past.fact.orgs)
  {
    SessionMatchesTrail(w, es, key);
    var s := Reached(w, es);
    var r, session := s.audit.minter[key], s.sys.sessions[key];
    var t := s.audit.trails[r];
    var u := MintOf(t, key, session);
    WithinStep(u, t);
    SessionFollowsProof(w, u, t);
    if u.past.fact.Redeemed? {
      RedemptionIsTheClients(w, es, r, u.past);
      RedemptionIsBound(w, u.past, t);
      WithinStep(u.past, t);
      WithinStep(u.past.past, t);
      LoginIsCognitos(w, es, r, u.past.past.past);
    } else {
      RenewalIsCognitos(w, es, r, u.past);
    }
  }
}
