/** A consent key fed back to callback (cmd/mcp-remote/oauth.go:391-456): from
    any state of any run in which it is pending, six steps in which only the
    organization lookup fails replace the organizations by none. */
module ConsentReplay {
  import opened Basics
  import opened AuthRecords
  import opened Lineage
  import opened LineageTheorems
  import opened AuthSteps
  import opened AuthAudit
  import opened AuthSafety
  import opened AuthInvariant
  import opened AuthTheorems
  import opened AuthSchedule

  /** Cognito and the services behind it answer this. */
  function Answering(login: Login): IO {
    IO(0, true, Some(login), DecryptFailed)
  }

  function Replay(tid: nat, key: string, login: Login): seq<Event> {
    [Start(tid, CallbackRequest("code", key)), Advance(tid, SMOOTH), Advance(tid, SMOOTH),
     Advance(tid, Answering(login)), Advance(tid, SMOOTH), Advance(tid, SMOOTH)]
  }

  lemma ReplayStarts(w: World, s: State, tid: nat, key: string, r: nat, t: Trail)
    requires tid !in s.sys.flights && key != "" && key in s.sys.pending
    requires PendingAt(key) in s.audit.at && s.audit.at[PendingAt(key)] == r
    requires r < |s.audit.trails| && s.audit.trails[r] == t
    ensures var s' := Step(w, s, Start(tid, CallbackRequest("code", key)));
            Stands(s', tid, CallbackPop(key), PendingAt(key), r, t)
            && s'.sys.pending == s.sys.pending && s'.sys.now == s.sys.now
  {
  }

  lemma ReplayPops(w: World, s: State, tid: nat, key: string, r: nat, t: Trail)
    requires Stands(s, tid, CallbackPop(key), PendingAt(key), r, t) && key in s.sys.pending
    ensures var s' := Step(w, s, Advance(tid, SMOOTH));
            Stands(s', tid, CallbackCheck(s.sys.pending[key]), InHand(tid), r, t) && s'.sys.now == s.sys.now
  {
    StepIsSmooth(w, s, tid, SMOOTH);
  }

  lemma ReplayChecks(w: World, s: State, tid: nat, p: PendingAuth, r: nat, t: Trail)
    requires Stands(s, tid, CallbackCheck(p), InHand(tid), r, t) && s.sys.now <= p.expires
    ensures Stands(Step(w, s, Advance(tid, SMOOTH)), tid, CallbackLogin(p), InHand(tid), r, t)
  {
    StepIsSmooth(w, s, tid, SMOOTH);
  }

  lemma ReplayLogsIn(w: World, s: State, tid: nat, p: PendingAuth, login: Login, r: nat, t: Trail)
    returns (q: PendingAuth)
    requires Stands(s, tid, CallbackLogin(p), InHand(tid), r, t) && login.subject != "" && login.orgs == None
    ensures Stands(Step(w, s, Advance(tid, Answering(login))), tid, CallbackName(q, None), InHand(tid), r, t)
  {
    StepIsSmooth(w, s, tid, Answering(login));
    q := p.(subject := login.subject, email := login.email, orgs := [], cognitoRefreshEnc := EncryptedRefresh(login));
  }

  lemma ReplayNames(w: World, s: State, tid: nat, p: PendingAuth, r: nat, t: Trail) returns (q: PendingAuth)
    requires Stands(s, tid, CallbackName(p, None), InHand(tid), r, t)
    ensures Stands(Step(w, s, Advance(tid, SMOOTH)), tid, CallbackStash(q, None), InHand(tid), r, t)
  {
    StepIsSmooth(w, s, tid, SMOOTH);
    q := p.(clientName := ClientName(s.sys, p.clientID, true));
  }

  lemma ReplayStashes(w: World, s: State, tid: nat, p: PendingAuth, r: nat, t: Trail)
    requires Stands(s, tid, CallbackStash(p, None), InHand(tid), r, t)
    ensures var s' := Step(w, s, Advance(tid, SMOOTH));
            r < |s'.audit.trails| && s'.audit.trails[r].More? && s'.audit.trails[r].past == t
            && s'.audit.trails[r].fact.CalledBack? && s'.audit.trails[r].fact.lookup == None
  {
    StepIsSmooth(w, s, tid, SMOOTH);
  }

  lemma RunSnoc(w: World, s: State, es: seq<Event>, e: Event)
    ensures Run(w, s, es + [e]) == Step(w, Run(w, s, es), e)
  {
    assert (es + [e])[..|es|] == es;
  }

  /** Six steps, one after the other. */
  lemma RunReplay(w: World, s: State, tid: nat, key: string, login: Login)
    ensures var es := Replay(tid, key, login);
            Run(w, s, es)
            == Step(w, Step(w, Step(w, Step(w, Step(w, Step(w, s, es[0]), es[1]), es[2]), es[3]), es[4]), es[5])
  {
    var es := Replay(tid, key, login);
    RunSnoc(w, s, [], es[0]);
    RunSnoc(w, s, es[..1], es[1]);
    RunSnoc(w, s, es[..2], es[2]);
    RunSnoc(w, s, es[..3], es[3]);
    RunSnoc(w, s, es[..4], es[4]);
    RunSnoc(w, s, es[..5], es[5]);
    assert es[..1] == [] + [es[0]] && es[..2] == es[..1] + [es[1]] && es[..3] == es[..2] + [es[2]];
    assert es[..4] == es[..3] + [es[3]] && es[..5] == es[..4] + [es[4]] && es == es[..5] + [es[5]];
  }

  lemma ReplayAddsCallback(w: World, s: State, tid: nat, key: string, login: Login, r: nat, t: Trail)
    requires tid !in s.sys.flights && key != "" && login.subject != "" && login.orgs == None
    requires key in s.sys.pending && s.sys.now <= s.sys.pending[key].expires
    requires PendingAt(key) in s.audit.at && s.audit.at[PendingAt(key)] == r
    requires r < |s.audit.trails| && s.audit.trails[r] == t
    ensures var trails := Run(w, s, Replay(tid, key, login)).audit.trails;
            r < |trails| && trails[r].More? && trails[r].past == t
            && trails[r].fact.CalledBack? && trails[r].fact.lookup == None
  {
    RunReplay(w, s, tid, key, login);
    var s1 := Step(w, s, Start(tid, CallbackRequest("code", key)));
    ReplayStarts(w, s, tid, key, r, t);
    var s2 := Step(w, s1, Advance(tid, SMOOTH));
    ReplayPops(w, s1, tid, key, r, t);
    var s3 := Step(w, s2, Advance(tid, SMOOTH));
    ReplayChecks(w, s2, tid, s.sys.pending[key], r, t);
    var s4 := Step(w, s3, Advance(tid, Answering(login)));
    var p := ReplayLogsIn(w, s3, tid, s.sys.pending[key], login, r, t);
    var s5 := Step(w, s4, Advance(tid, SMOOTH));
    var q := ReplayNames(w, s4, tid, p, r, t);
    ReplayStashes(w, s5, tid, q, r, t);
  }

  /** In every run, sending a pending, unexpired key to callback again while the
      organization lookup fails makes its authorization stand for no
      organizations; if a lookup had found some, that lookup is overruled. */
  lemma ReplayOverrules(w: World, es: seq<Event>, tid: nat, key: string, login: Login)
    requires Sound(w) && tid !in Reached(w, es).sys.flights
    requires key != "" && login.subject != "" && login.orgs == None
    requires key in Reached(w, es).sys.pending && Reached(w, es).sys.now <= Reached(w, es).sys.pending[key].expires
    ensures PendingAt(key) in Reached(w, es).audit.at
    ensures var s := Reached(w, es);
            var r := s.audit.at[PendingAt(key)];
            var after := Run(w, s, Replay(tid, key, login));
            && r < |s.audit.trails| && r < |after.audit.trails|
            && OrgsOf(after.audit.trails[r]) == []
            && LastLookup(after.audit.trails[r]) == LastLookup(s.audit.trails[r])
            && (Overruled(after.audit.trails[r]) <==> LastLookup(s.audit.trails[r]) != [])
  {
    var s := Reached(w, es);
    AlwaysInv(w, es);
    CoreKnows(w, s, PendingAt(key));
    var r := s.audit.at[PendingAt(key)];
    ReplayAddsCallback(w, s, tid, key, login, r, s.audit.trails[r]);
  }
}
