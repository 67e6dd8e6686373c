/** Which steps end an authorization: those in which a check, a service or a
    store fails it, or the user denies it, and no others; and ended is for
    good. */
module AuthFailures {
  import opened Basics
  import opened AuthRecords
  import opened Lineage
  import opened LineageTheorems
  import opened AuthSteps
  import opened AuthAudit
  import opened AuthSafety
  import opened AuthInvariant
  import opened AuthTheorems
  import opened AuthEndings
  import opened AuthHistory
  import opened AuthDeeds

  /** Some check, service, store or user fails the authorization in this step. */
  ghost predicate Fails(w: World, c: Scene) {
    exists reason :: Because(w, c, reason)
  }

  /** A step that gives up its record does nothing else. */
  ghost predicate GivesUpIffFails(w: World, c: Scene, e: Effect) {
    if Fails(w, c) then
      && e.move.Close? && e.move.from == InHand(c.tid) && Because(w, c, e.move.reason)
      && e.write == NoWrite && e.next.Done?
    else NoteOf(e.move).Some? ==> !NoteOf(e.move).value.Ended?
  }

  lemma CallbackFails(w: World, c: Scene, s: Sys)
    requires c.f.CallbackCheck? || c.f.CallbackLogin? || c.f.CallbackName? || c.f.CallbackStash?
    requires Set(w, c, s)
    ensures GivesUpIffFails(w, c, Proceed(w, s, c.tid, c.f, c.io))
  {
    assert Fails(w, c) <==>
             (Because(w, c, Expired) || Because(w, c, Upstream) || Because(w, c, StoreFailed));
  }

  lemma ConsentFails(w: World, c: Scene, s: Sys)
    requires c.f.ConsentCheck? || c.f.ConsentLookup? || c.f.ConsentMint?
    requires Set(w, c, s)
    ensures GivesUpIffFails(w, c, Proceed(w, s, c.tid, c.f, c.io))
  {
    assert Fails(w, c) <==>
             (Because(w, c, Expired) || Because(w, c, Unregistered) || Because(w, c, Denied) ||
              Because(w, c, StoreFailed));
  }

  lemma CodeFails(w: World, c: Scene, s: Sys)
    requires c.f.CodeCheck? || c.f.CodeSession? || c.f.CodeIssue?
    requires Set(w, c, s)
    ensures GivesUpIffFails(w, c, Proceed(w, s, c.tid, c.f, c.io))
  {
    assert Fails(w, c) <==>
             (Because(w, c, Expired) || Because(w, c, Mismatch) || Because(w, c, BadProof) ||
              Because(w, c, NoRefresh) || Because(w, c, StoreFailed));
  }

  lemma RefreshFails(w: World, c: Scene, s: Sys)
    requires c.f.RefreshCheck? || c.f.RefreshReauth? || c.f.RefreshSession? || c.f.RefreshRotate?
    requires Set(w, c, s)
    ensures GivesUpIffFails(w, c, Proceed(w, s, c.tid, c.f, c.io))
  {
    assert Fails(w, c) <==>
             (Because(w, c, Expired) || Because(w, c, Mismatch) || Because(w, c, Undecryptable) ||
              Because(w, c, Upstream) || Because(w, c, StoreFailed));
  }

  lemma HolderFails(w: World, c: Scene, s: Sys)
    requires Holding(c.f) && Set(w, c, s)
    ensures GivesUpIffFails(w, c, Proceed(w, s, c.tid, c.f, c.io))
  {
    if c.f.CallbackCheck? || c.f.CallbackLogin? || c.f.CallbackName? || c.f.CallbackStash? {
      CallbackFails(w, c, s);
    } else if c.f.ConsentCheck? || c.f.ConsentLookup? || c.f.ConsentMint? {
      ConsentFails(w, c, s);
    } else if c.f.CodeCheck? || c.f.CodeSession? || c.f.CodeIssue? {
      CodeFails(w, c, s);
    } else {
      RefreshFails(w, c, s);
    }
  }

  // ----- In runs

  lemma EffectEnds(w: World, s: State, c: Scene, e: Effect, r: nat)
    requires GivesUpIffFails(w, c, e) && Fits(s.audit, e.move)
    requires Carrying(s, InHand(c.tid), r) && r < |s.audit.trails| && !PhaseOf(s.audit.trails[r]).Over?
    ensures var o := Land(s, Perform(s.sys, c.tid, e));
            && r < |o.audit.trails| && (PhaseOf(o.audit.trails[r]).Over? <==> Fails(w, c))
            && (Fails(w, c) ==>
                  && Because(w, c, e.move.reason) && o.audit.trails[r] == More(s.audit.trails[r], Ended(e.move.reason))
                  && o.sys.sessions == s.sys.sessions
                  && c.tid in o.sys.flights && o.sys.flights[c.tid].Done?)
  {
    ApplyTrail(s.audit, e.move, r, InHand(c.tid));
    TrailsKept(s.audit, e.move, r);
    FlightsAfter(s.sys, c.tid, e);
  }

  /** The trail of r after the step, if the step fails it. */
  ghost predicate EndedBecause(w: World, c: Scene, t: Trail, t': Trail) {
    exists reason :: Because(w, c, reason) && t' == More(t, Ended(reason))
  }

  /** In every run, a step of a handler ends the authorization whose record it
      holds if and only if a check, a service, a store or the user fails it. The
      handler then answers, and no session is stored. */
  lemma EndsIffFails(w: World, es: seq<Event>, tid: nat, io: IO)
    requires Sound(w)
    requires tid in Reached(w, es).sys.flights && Holding(Reached(w, es).sys.flights[tid])
    ensures Arrived(es, tid).Some? && InHand(tid) in Reached(w, es).audit.at
    ensures Reached(w, es).audit.at[InHand(tid)] < |Reached(w, es).audit.trails|
    ensures var c, s, s' := SceneOf(w, es, tid, io), Reached(w, es), Step(w, Reached(w, es), Advance(tid, io));
            var r := s.audit.at[InHand(tid)];
            && r < |s'.audit.trails| && (PhaseOf(s'.audit.trails[r]).Over? <==> Fails(w, c))
            && (Fails(w, c) ==>
                  && EndedBecause(w, c, s.audit.trails[r], s'.audit.trails[r])
                  && s'.sys.sessions == s.sys.sessions
                  && tid in s'.sys.flights && s'.sys.flights[tid].Done?)
  {
    var s := Reached(w, es);
    var t, f := State(Ticked(s.sys, io.tick), s.audit), s.sys.flights[tid];
    AlwaysInv(w, es);
    SceneIsSet(w, es, tid, io);
    CoreKnows(w, s, InHand(tid));
    StoredIsOpen(w, s, InHand(tid));
    TickKeepsCore(w, s, io.tick);
    TickKeepsFresh(w, s.sys, io.tick);
    ProceedFits(w, t, tid, f, io);
    var c := SceneOf(w, es, tid, io);
    HolderFails(w, c, t.sys);
    EffectEnds(w, t, c, Proceed(w, t.sys, tid, f, io), s.audit.at[InHand(tid)]);
    assert Act(w, s.sys, Advance(tid, io)) == Advanced(w, s.sys, tid, io);
  }

  /** Whatever comes later, an authorization that a step has failed has no record,
      gains no fact, and has no session but those minted before. */
  lemma FailureIsForever(w: World, es: seq<Event>, tid: nat, io: IO, later: seq<Event>)
    requires Sound(w)
    requires tid in Reached(w, es).sys.flights && Holding(Reached(w, es).sys.flights[tid])
    requires Arrived(es, tid).Some? && Fails(w, SceneOf(w, es, tid, io))
    ensures InHand(tid) in Reached(w, es).audit.at
    ensures var s, s' := Reached(w, es), Step(w, Reached(w, es), Advance(tid, io));
            var r, t := s.audit.at[InHand(tid)], Run(w, s', later);
            && r < |s.audit.trails| && r < |s'.audit.trails| && r < |t.audit.trails|
            && t.audit.trails[r] == s'.audit.trails[r] && LiveRecords(t, r) == {}
            && forall k | k in t.sys.sessions ::
                 && k in t.audit.minter
                 && (t.audit.minter[k] == r ==> MintedOn(s.audit.trails[r], k, t.sys.sessions[k]))
  {
    var s, next := Reached(w, es), es + [Advance(tid, io)];
    assert next[..|es|] == es;
    EndsIffFails(w, es, tid, io);
    var r := s.audit.at[InHand(tid)];
    EndedForever(w, next, later, r);
    RunAppend(w, INITIAL, next, later);
    AlwaysInv(w, next + later);
    var t := Reached(w, next + later);
    forall k | k in t.sys.sessions
      ensures k in t.audit.minter && (t.audit.minter[k] == r ==> MintedOn(s.audit.trails[r], k, t.sys.sessions[k]))
    {
      assert Traced(t.audit, k, t.sys.sessions[k]);
    }
  }

  // ----- The cases the repository names

  /** The step Advance(tid, io) after es ends the authorization whose record tid
      holds. */
  ghost predicate EndsIn(w: World, es: seq<Event>, tid: nat, io: IO) {
    var s, s' := Reached(w, es), Step(w, Reached(w, es), Advance(tid, io));
    && InHand(tid) in s.audit.at && s.audit.at[InHand(tid)] < |s'.audit.trails|
    && PhaseOf(s'.audit.trails[s.audit.at[InHand(tid)]]).Over?
  }

  /** Handler tid is at f after es. */
  predicate Is(w: World, es: seq<Event>, tid: nat, f: Flight) {
    tid in Reached(w, es).sys.flights && Reached(w, es).sys.flights[tid] == f
  }

  function ClockAt(w: World, es: seq<Event>, io: IO): int {
    Reached(w, es).sys.now + io.tick
  }

  lemma SceneEnds(w: World, es: seq<Event>, tid: nat, f: Flight, io: IO) returns (c: Scene)
    requires Sound(w) && Is(w, es, tid, f) && Holding(f)
    ensures c.f == f && c.io == io && c.now == ClockAt(w, es, io) && Serves(w, c.q, f)
    ensures Arrived(es, tid) == Some(c.q)
    ensures EndsIn(w, es, tid, io) <==> Fails(w, c)
  {
    EndsIffFails(w, es, tid, io);
    HandlersServe(w, es, tid);
    c := SceneOf(w, es, tid, io);
  }

  /** In every run a refresh ends its lineage when it asks Cognito if and only if
      Cognito does not accept the decrypted token for a named user. */
  lemma FailedReauthEnds(w: World, es: seq<Event>, tid: nat, rt: RefreshToken, io: IO)
    requires Sound(w) && Is(w, es, tid, RefreshReauth(rt))
    ensures EndsIn(w, es, tid, io) <==> !(io.reauth.CognitoAccepted? && io.reauth.subject != "")
  {
    var c := SceneEnds(w, es, tid, RefreshReauth(rt), io);
    assert io.reauth.DecryptFailed? ==> Because(w, c, Undecryptable);
    assert !(io.reauth.CognitoAccepted? && io.reauth.subject != "") && !io.reauth.DecryptFailed? ==>
        Because(w, c, Upstream);
  }

  /** In every run a refresh ends its lineage when it checks the token if and only
      if the token is late or another client's. */
  lemma FailedPresentationEnds(w: World, es: seq<Event>, tid: nat, rt: RefreshToken, clientID: string, io: IO)
    requires Sound(w) && Is(w, es, tid, RefreshCheck(rt, clientID))
    ensures EndsIn(w, es, tid, io) <==>
              ClockAt(w, es, io) > rt.expires || (clientID != "" && clientID != rt.clientID)
  {
    var c := SceneEnds(w, es, tid, RefreshCheck(rt, clientID), io);
    assert c.now > rt.expires ==> Because(w, c, Expired);
    assert clientID != "" && clientID != rt.clientID ==> Because(w, c, Mismatch);
  }

  /** In every run a refresh ends its lineage when it rotates the token if and only
      if the successor cannot be stored. */
  lemma FailedRotationEnds(w: World, es: seq<Event>, tid: nat, f: Flight, io: IO)
    requires Sound(w) && f.RefreshRotate? && Is(w, es, tid, f)
    ensures EndsIn(w, es, tid, io) <==> !io.ok
  {
    var c := SceneEnds(w, es, tid, f, io);
    assert !io.ok ==> Because(w, c, StoreFailed);
  }

  /** In every run a code is refused, and lost, when it is checked if and only if it
      is late, another client's, sent with another redirect URI, or without the
      proof of its challenge. */
  lemma FailedExchangeEnds(w: World, es: seq<Event>, tid: nat, code: AuthCode, g: CodeGrant, io: IO)
    requires Sound(w) && Is(w, es, tid, CodeCheck(code, g))
    ensures EndsIn(w, es, tid, io) <==>
              || ClockAt(w, es, io) > code.expires || g.clientID != code.clientID
              || (g.redirectURI != "" && g.redirectURI != code.redirectURI)
              || g.verifier == "" || w.challengeOf(g.verifier) != code.codeChallenge
  {
    var c := SceneEnds(w, es, tid, CodeCheck(code, g), io);
    assert c.now > code.expires ==> Because(w, c, Expired);
    assert g.clientID != code.clientID || (g.redirectURI != "" && g.redirectURI != code.redirectURI) ==>
        Because(w, c, Mismatch);
    assert g.verifier == "" || w.challengeOf(g.verifier) != code.codeChallenge ==> Because(w, c, BadProof);
  }
}
