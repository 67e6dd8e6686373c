/** A revocation and a rotation of the same refresh token
    (cmd/mcp-remote/oauth.go:520-534 and 647-732). */
module RotationRace {
  import opened Basics
  import opened AuthRecords
  import opened Lineage
  import opened LineageTheorems
  import opened AuthSteps
  import opened AuthAudit
  import opened AuthSafety
  import opened AuthInvariant
  import opened AuthTheorems
  import opened AuthSchedule
  import opened AuthRevocation
  import opened AuthEndings

  lemma {:induction false} LedgerWithout(w: World, s: State, key: string)
    requires Known(w, s, RefreshAt(key))
    ensures AuditWithout(s.audit, key, key in s.sys.refresh).at == s.audit.at - {RefreshAt(key)}
  {
    if key !in s.sys.refresh {
      assert s.audit.at - {RefreshAt(key)} == s.audit.at;
    }
  }

  lemma {:induction false} LiveWithout(s: State, s': State, p: Place, r: nat)
    requires s'.audit.at == s.audit.at - {p}
    ensures LiveRecords(s', r) == LiveRecords(s, r) - {p}
  {
  }

  /** The deletion of a refresh token, in a revocation that others may interrupt
      anywhere, ends exactly the authorizations that have no other record. A
      rotation that has already popped the token is such a record. */
  lemma {:induction false} RevocationEndsLineageIff(w: World, es: seq<Event>, tid: nat, token: string,
                                                    plan: seq<RevokeOp>, io: IO, r: nat)
    requires Sound(w) && tid in Reached(w, es).sys.flights && io.ok
    requires Reached(w, es).sys.flights[tid] == Revoking(token, plan) && plan != [] && plan[0] == DropRefresh
    requires r < |Reached(w, es).audit.trails|
    ensures var s := Reached(w, es);
            var s' := Step(w, s, Advance(tid, io));
            && r < |s'.audit.trails|
            && (PhaseOf(s'.audit.trails[r]).Over? <==> LiveRecords(s, r) <= {RefreshAt(w.hash(token))})
  {
    var s, key := Reached(w, es), w.hash(token);
    var s' := Step(w, s, Advance(tid, io));
    var next := es + [Advance(tid, io)];
    assert next[..|es|] == es;
    AlwaysInv(w, es);
    CoreKnows(w, s, RefreshAt(key));
    RevokeStep(w, s, tid, token, plan, io);
    LedgerWithout(w, s, key);
    LiveWithout(s, s', RefreshAt(key), r);
    TrailsKept(s.audit, Act(w, s.sys, Advance(tid, io)).move, r);
    OverIffNoRecord(w, next, r);
  }

  // ----- A rotation that is under way

  /** Cognito accepts. */
  function Accepting(subject: string, email: string, orgs: Option<seq<string>>): IO {
    IO(0, true, None, CognitoAccepted(subject, email, orgs))
  }

  /** What is left of the refresh grant of request h once it has its record. */
  function Remaining(h: nat, accepting: IO): seq<Event> {
    [Advance(h, accepting), Advance(h, SMOOTH), Advance(h, SMOOTH)]
  }

  lemma {:induction false} RaceReauthenticates(w: World, s: State, h: nat, rt: RefreshToken, accepting: IO, r: nat,
                                               t: Trail)
    returns (f: Flight, u: Trail)
    requires Stands(s, h, RefreshReauth(rt), InHand(h), r, t)
    requires accepting.tick == 0 && ReauthRefusal(accepting.reauth) == None
    ensures f.RefreshSession? && Stands(Step(w, s, Advance(h, accepting)), h, f, InHand(h), r, u)
  {
    StepIsSmooth(w, s, h, accepting);
    var s' := Step(w, s, Advance(h, accepting));
    f, u := s'.sys.flights[h], s'.audit.trails[r];
  }

  lemma {:induction false} RaceMints(w: World, s: State, h: nat, f: Flight, r: nat, t: Trail)
    returns (g: Flight, u: Trail)
    requires f.RefreshSession? && Stands(s, h, f, InHand(h), r, t)
    ensures var s' := Step(w, s, Advance(h, SMOOTH));
            && g.RefreshRotate? && Stands(s', h, g, InHand(h), r, u)
            && u.More? && u.fact.Minted? && u.fact.key in s'.sys.sessions
            && s'.sys.sessions[u.fact.key] == u.fact.session
  {
    StepIsSmooth(w, s, h, SMOOTH);
    var s' := Step(w, s, Advance(h, SMOOTH));
    g, u := s'.sys.flights[h], s'.audit.trails[r];
  }

  lemma {:induction false} RaceRotates(w: World, s: State, h: nat, f: Flight, r: nat, t: Trail) returns (key: string)
    requires f.RefreshRotate? && Stands(s, h, f, InHand(h), r, t)
    ensures var s' := Step(w, s, Advance(h, SMOOTH));
            && key in s'.sys.refresh && RefreshAt(key) in s'.audit.at && s'.audit.at[RefreshAt(key)] == r
            && s'.sys.sessions == s.sys.sessions
            && r < |s'.audit.trails| && s'.audit.trails[r].More? && s'.audit.trails[r].past == t
  {
    StepIsSmooth(w, s, h, SMOOTH);
    key := w.hash(w.coin(s.sys.drawn));
  }

  lemma {:induction false} RunThree(w: World, s: State, a: Event, b: Event, c: Event)
    ensures Run(w, s, [a, b, c]) == Step(w, Step(w, Step(w, s, a), b), c)
  {
    RunOne(w, s, s, [], a);
    RunOne(w, s, Step(w, s, a), [a], b);
    RunOne(w, s, Step(w, Step(w, s, a), b), [a, b], c);
    assert [] + [a] == [a] && [a] + [b] == [a, b] && [a, b] + [c] == [a, b, c];
  }

  lemma {:induction false} RotationFinishes(w: World, s: State, h: nat, rt: RefreshToken, accepting: IO, r: nat,
                                            t: Trail)
    returns (key: string, session: string)
    requires Stands(s, h, RefreshReauth(rt), InHand(h), r, t)
    requires accepting.tick == 0 && ReauthRefusal(accepting.reauth) == None
    ensures var s' := Run(w, s, Remaining(h, accepting));
            && key in s'.sys.refresh && RefreshAt(key) in s'.audit.at && s'.audit.at[RefreshAt(key)] == r
            && session in s'.sys.sessions && r < |s'.audit.trails|
            && MintedOn(s'.audit.trails[r], session, s'.sys.sessions[session])
  {
    RunThree(w, s, Advance(h, accepting), Advance(h, SMOOTH), Advance(h, SMOOTH));
    var f, u := RaceReauthenticates(w, s, h, rt, accepting, r, t);
    var g, v := RaceMints(w, Step(w, s, Advance(h, accepting)), h, f, r, u);
    key := RaceRotates(w, Step(w, Step(w, s, Advance(h, accepting)), Advance(h, SMOOTH)), h, g, r, v);
    session := v.fact.key;
  }

  lemma {:induction false} DeletionSparesHeld(s: State, tid: nat, h: nat, key: string, f: Flight)
    requires h != tid && h in s.sys.flights && s.sys.flights[h] == f && Linear(s.audit) && InHand(h) in s.audit.at
    requires key in s.sys.refresh ==> RefreshAt(key) in s.audit.at
    ensures var r := s.audit.at[InHand(h)];
            Stands(WithoutToken(s, tid, key), h, f, InHand(h), r, s.audit.trails[r])
  {
    if key in s.sys.refresh {
      assert s.audit.at[RefreshAt(key)] != s.audit.at[InHand(h)];
    }
  }

  lemma {:induction false} HeldOnLedger(w: World, s: State, h: nat, key: string)
    requires Core(w, s) && h in s.sys.flights && Holding(s.sys.flights[h])
    ensures InHand(h) in s.audit.at && s.audit.at[InHand(h)] < |s.audit.trails|
    ensures key in s.sys.refresh ==> RefreshAt(key) in s.audit.at
  {
    CoreKnows(w, s, InHand(h));
    CoreKnows(w, s, RefreshAt(key));
  }

  lemma {:induction false} SmoothRevocation(w: World, s: State, tid: nat, token: string, hint: string)
    requires tid !in s.sys.flights && token != ""
    ensures Revocation(w, s, tid, token, hint, SMOOTH, SMOOTH, [], []) == WithoutToken(s, tid, w.hash(token))
  {
    HintDoesNotMatter(w, s, tid, token, hint, SMOOTH, SMOOTH);
    assert Later(s, 0) == s;
  }

  lemma {:induction false} RevocationSparesHeld(w: World, s: State, tid: nat, h: nat, token: string, hint: string,
                                                f: Flight)
    requires Core(w, s) && tid !in s.sys.flights && token != ""
    requires h in s.sys.flights && s.sys.flights[h] == f && Holding(f)
    ensures InHand(h) in s.audit.at && s.audit.at[InHand(h)] < |s.audit.trails|
    ensures var r := s.audit.at[InHand(h)];
            Stands(Revocation(w, s, tid, token, hint, SMOOTH, SMOOTH, [], []), h, f, InHand(h), r, s.audit.trails[r])
  {
    HeldOnLedger(w, s, h, w.hash(token));
    SmoothRevocation(w, s, tid, token, hint);
    DeletionSparesHeld(s, tid, h, w.hash(token), f);
  }

  /** In every run: revoke a token while a refresh request h that has popped it
      is about to ask Cognito, let Cognito accept and h finish. The authorization
      has a new refresh token stored and a new session: it has outlived the
      revocation. */
  lemma {:induction false} RotationOutlivesRevocation(w: World, es: seq<Event>, tid: nat, h: nat, rt: RefreshToken,
                                                      token: string, hint: string, accepting: IO)
    requires Sound(w) && tid !in Reached(w, es).sys.flights && h in Reached(w, es).sys.flights
    requires Reached(w, es).sys.flights[h] == RefreshReauth(rt) && token != "" && w.hash(token) == rt.hashedToken
    requires accepting.tick == 0 && ReauthRefusal(accepting.reauth) == None
    ensures InHand(h) in Reached(w, es).audit.at
    ensures var s := Reached(w, es);
            var r := s.audit.at[InHand(h)];
            var revoked := Revocation(w, s, tid, token, hint, SMOOTH, SMOOTH, [], []);
            var after := Run(w, revoked, Remaining(h, accepting));
            && rt.hashedToken !in revoked.sys.refresh
            && r < |after.audit.trails|
            && (exists key :: key in after.sys.refresh && RefreshAt(key) in after.audit.at
                              && after.audit.at[RefreshAt(key)] == r)
            && (exists k :: k in after.sys.sessions && MintedOn(after.audit.trails[r], k, after.sys.sessions[k]))
  {
    var s := Reached(w, es);
    AlwaysInv(w, es);
    RevocationSparesHeld(w, s, tid, h, token, hint, RefreshReauth(rt));
    HintDoesNotMatter(w, s, tid, token, hint, SMOOTH, SMOOTH);
    var r := s.audit.at[InHand(h)];
    var key, session := RotationFinishes(w, Revocation(w, s, tid, token, hint, SMOOTH, SMOOTH, [], []), h, rt,
                                         accepting, r, s.audit.trails[r]);
  }
}
