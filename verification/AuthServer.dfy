/** The handlers of cmd/mcp-remote/oauth.go and consent.go as code over mutable
    tables. Between any two of its store calls a handler lets other requests
    take any number of steps; whatever they do, the server's state is the state
    of AuthAudit after the handler's own steps and theirs. */
module AuthServer {
  import opened Basics
  import opened Redirects
  import opened AuthRecords
  import opened Lineage
  import opened AuthSteps
  import opened AuthAudit
  import opened AuthTheorems
  import opened AuthInvariant
  import opened AuthSchedule
  import RegisterLimiter

  class Server {
    const w: World
    var clients: map<string, Client>
    var pending: map<string, PendingAuth>
    var codes: map<string, AuthCode>
    var refresh: map<string, RefreshToken>
    var sessions: map<string, Session>
    var flights: map<nat, Flight>
    var now: int
    var drawn: nat
    ghost var audit: Audit

    constructor (w: World)
      ensures this.w == w && View() == INITIAL
    {
      this.w := w;
      clients, pending, codes, refresh, sessions := map[], map[], map[], map[], map[];
      flights, now, drawn := map[], 0, 0;
      audit := INITIAL.audit;
    }

    function Tables(): Sys
      reads this
    {
      Sys(clients, pending, codes, refresh, sessions, flights, now, drawn)
    }

    ghost function View(): State
      reads this
    {
      State(Tables(), audit)
    }

    method OneOther(e: Event)
      modifies this
      ensures View() == Step(w, old(View()), e)
    {
      var o := Act(w, Tables(), e);
      audit := Apply(audit, o.move);
      clients, pending, codes := o.sys.clients, o.sys.pending, o.sys.codes;
      refresh, sessions, flights := o.sys.refresh, o.sys.sessions, o.sys.flights;
      now, drawn := o.sys.now, o.sys.drawn;
    }

    /** Other requests take the steps es, in that order. */
    method Others(tid: nat, es: seq<Event>)
      requires tid in flights && AllForeign(es, tid)
      modifies this
      ensures View() == Run(w, old(View()), es)
      ensures tid in flights && flights[tid] == old(flights[tid])
    {
      ghost var s := View();
      for i := 0 to |es|
        invariant View() == Run(w, s, es[..i])
        invariant tid in flights && flights[tid] == s.sys.flights[tid]
      {
        ForeignStepKeepsFlight(w, Tables(), es[i], tid);
        RunOne(w, s, View(), es[..i], es[i]);
        assert es[..i + 1] == es[..i] + [es[i]];
        OneOther(es[i]);
      }
      assert es[..|es|] == es;
    }

    /** The handler arrives at its next program point. */
    method Arrive(tid: nat, f: Flight, ghost move: Move)
      modifies this`flights, this`audit
      ensures View() == State(Goto(old(Tables()), tid, f), Apply(old(audit), move))
    {
      flights := flights[tid := f];
      audit := Apply(audit, move);
    }

    method ReadClock(n: nat)
      modifies this`now
      ensures Tables() == Ticked(old(Tables()), n)
    {
      now := now + n;
    }

    method RandomHex() returns (r: string)
      modifies this`drawn
      ensures r == w.coin(old(drawn)) && Tables() == old(Tables()).(drawn := old(drawn) + 1)
    {
      r := w.coin(drawn);
      drawn := drawn + 1;
    }

    // ----- The store

    method PutClient(c: Client, ok: bool)
      modifies this`clients
      ensures Tables() == Written(old(Tables()), if ok then Write.PutClient(c) else NoWrite)
    {
      if ok {
        clients := clients[c.clientID := c];
      }
    }

    method PutPending(key: string, p: PendingAuth, ok: bool)
      modifies this`pending
      ensures Tables() == Written(old(Tables()),
                                  if ok then Write.PutPending(key, p.(expires := Stamp(w, p.expires))) else NoWrite)
    {
      if ok {
        pending := pending[key := p.(expires := Stamp(w, p.expires))];
      }
    }

    method PopPending(key: string, ok: bool) returns (p: Option<PendingAuth>)
      modifies this`pending
      ensures p == if ok && key in old(pending) then Some(old(pending)[key]) else None
      ensures Tables() == Written(old(Tables()), if p.Some? then DelPending(key) else NoWrite)
    {
      if ok && key in pending {
        p := Some(pending[key]);
        pending := pending - {key};
      } else {
        p := None;
      }
    }

    method PutCode(c: AuthCode, ok: bool)
      modifies this`codes
      ensures Tables() == Written(old(Tables()),
                                  if ok then Write.PutCode(c.(expires := Stamp(w, c.expires))) else NoWrite)
    {
      if ok {
        codes := codes[c.code := c.(expires := Stamp(w, c.expires))];
      }
    }

    method PopCode(code: string, ok: bool) returns (c: Option<AuthCode>)
      modifies this`codes
      ensures c == if ok && code in old(codes) then Some(old(codes)[code]) else None
      ensures Tables() == Written(old(Tables()), if c.Some? then DelCode(code) else NoWrite)
    {
      if ok && code in codes {
        c := Some(codes[code]);
        codes := codes - {code};
      } else {
        c := None;
      }
    }

    method PutRefresh(rt: RefreshToken, ok: bool)
      modifies this`refresh
      ensures Tables() == Written(old(Tables()),
                                  if ok then Write.PutRefresh(rt.(expires := Stamp(w, rt.expires))) else NoWrite)
    {
      if ok {
        refresh := refresh[rt.hashedToken := rt.(expires := Stamp(w, rt.expires))];
      }
    }

    method PopRefresh(key: string, ok: bool) returns (rt: Option<RefreshToken>)
      modifies this`refresh
      ensures rt == if ok && key in old(refresh) then Some(old(refresh)[key]) else None
      ensures Tables() == Written(old(Tables()), if rt.Some? then DelRefresh(key) else NoWrite)
    {
      if ok && key in refresh {
        rt := Some(refresh[key]);
        refresh := refresh - {key};
      } else {
        rt := None;
      }
    }

    /** persistMCPSession; an error is logged and otherwise ignored. */
    method PersistSession(access: string, session: Session, ok: bool)
      modifies this`sessions
      ensures Tables() == Written(old(Tables()), if ok then PutSession(w.hash(access), session) else NoWrite)
    {
      if ok {
        sessions := sessions[w.hash(access) := session];
      }
    }

    /** deleteMCPSession; an error is logged and otherwise ignored. */
    method DeleteSession(token: string, ok: bool)
      modifies this`sessions
      ensures Tables() == Written(old(Tables()), if ok then DelSession(w.hash(token)) else NoWrite)
    {
      if ok {
        sessions := sessions - {w.hash(token)};
      }
    }

    method Admission(tid: nat, request: Request)
      requires tid !in flights
      modifies this
      ensures View() == Step(w, old(View()), Start(tid, request))
      ensures tid in flights && flights[tid] == Admit(w, request)
    {
      Arrive(tid, Admit(w, request), Stay);
    }

    // ----- register

    method StoreClient(tid: nat, name: string, uris: seq<string>, grants: seq<string>, io: IO)
      requires tid in flights && flights[tid] == Registering(name, uris, grants)
      modifies this
      ensures View() == Step(w, old(View()), Advance(tid, io))
      ensures tid in flights && flights[tid].Done?
    {
      StepIsEffect(w, View(), tid, io, ActRegister(w, Ticked(Tables(), io.tick), flights[tid], io));
      ReadClock(io.tick);
      var coin := RandomHex();
      var c := Client(CLIENT_PREFIX + coin, name, uris, DefaultGrants(grants), now);
      PutClient(c, io.ok);
      Arrive(tid, Done(if io.ok then Registered(c.clientID) else Failed(ServerError)), Stay);
    }

    // ----- authorize

    method CheckAuthorization(tid: nat, a: Authorization, io: IO) returns (b: Option<Authorization>)
      requires tid in flights && flights[tid] == AuthorizeLookup(a)
      modifies this
      ensures View() == Step(w, old(View()), Advance(tid, io))
      ensures tid in flights && match b
                                case Some(x) => flights[tid] == AuthorizeStash(x)
                                case None => flights[tid].Done?
    {
      StepIsEffect(w, View(), tid, io, ActAuthorizeLookup(Ticked(Tables(), io.tick), a, io));
      ReadClock(io.tick);
      b := Validate(tid, a, io);
    }

    method Validate(tid: nat, a: Authorization, io: IO) returns (b: Option<Authorization>)
      modifies this
      ensures View() == After(old(View()), tid, 0, ActAuthorizeLookup(old(Tables()), a, io))
      ensures tid in flights && match b
                                case Some(x) => flights[tid] == AuthorizeStash(x)
                                case None => flights[tid].Done?
    {
      b := None;
      if !io.ok || a.clientID !in clients {
        Arrive(tid, Done(Failed(InvalidClient)), Stay);
        return;
      }
      var registered := Contains(clients[a.clientID].redirectURIs, a.redirectURI);
      if !registered {
        Arrive(tid, Done(Failed(InvalidRedirectUri)), Stay);
        return;
      }
      if a.codeChallenge == "" || a.codeChallengeMethod != "S256" {
        Arrive(tid, Done(Failed(InvalidRequest)), Stay);
        return;
      }
      b := Some(if a.scope == "" then a.(scope := DEFAULT_SCOPE) else a);
      Arrive(tid, AuthorizeStash(b.value), Stay);
    }

    method StashAuthorization(tid: nat, a: Authorization, io: IO)
      requires tid in flights && flights[tid] == AuthorizeStash(a)
      modifies this
      ensures View() == Step(w, old(View()), Advance(tid, io))
      ensures tid in flights && flights[tid].Done?
    {
      StepIsEffect(w, View(), tid, io, ActAuthorizeStash(w, Ticked(Tables(), io.tick), a, io));
      ReadClock(io.tick);
      NewAuthorization(tid, a, io);
    }

    method NewAuthorization(tid: nat, a: Authorization, io: IO)
      modifies this
      ensures View() == After(old(View()), tid, 0, ActAuthorizeStash(w, old(Tables()), a, io))
      ensures tid in flights && flights[tid].Done?
    {
      var state := RandomHex();
      PutPending(state, NewPending(a, now + PENDING_TTL), io.ok);
      if !io.ok {
        Arrive(tid, Done(Failed(ServerError)), Stay);
        return;
      }
      Arrive(tid, Done(ToCognito(state)),
             Open(PendingAt(state), AuthFact(a.clientID, a.redirectURI, a.codeChallenge, a.state, a.scope)));
    }

    // ----- callback

    method TakePending(tid: nat, state: string, io: IO) returns (p: Option<PendingAuth>)
      requires tid in flights && flights[tid] == CallbackPop(state)
      modifies this
      ensures View() == Step(w, old(View()), Advance(tid, io))
      ensures tid in flights && match p
                                case Some(x) => flights[tid] == CallbackCheck(x)
                                case None => flights[tid].Done?
    {
      StepIsEffect(w, View(), tid, io, ActCallbackPop(Ticked(Tables(), io.tick), tid, state, io));
      ReadClock(io.tick);
      p := PopPending(state, io.ok);
      if p.None? {
        Arrive(tid, Done(Failed(InvalidRequest)), Stay);
        return;
      }
      Arrive(tid, CallbackCheck(p.value), Shift(PendingAt(state), InHand(tid), None));
    }

    method CheckPending(tid: nat, p: PendingAuth, io: IO) returns (ok: bool)
      requires tid in flights && flights[tid] == CallbackCheck(p)
      modifies this
      ensures View() == Step(w, old(View()), Advance(tid, io))
      ensures tid in flights && (if ok then flights[tid] == CallbackLogin(p) else flights[tid].Done?)
    {
      StepIsEffect(w, View(), tid, io, ActCallbackCheck(Ticked(Tables(), io.tick), tid, p));
      ReadClock(io.tick);
      ok := now <= p.expires;
      if ok {
        Arrive(tid, CallbackLogin(p), Stay);
      } else {
        Arrive(tid, Done(Failed(InvalidRequest)), Close(InHand(tid), Expired));
      }
    }

    /** Exchange the Cognito code, encrypt its refresh token, look up the
        organizations, and write all of it into the record. */
    method Identify(tid: nat, p: PendingAuth, io: IO) returns (q: Option<(PendingAuth, Option<seq<string>>)>)
      requires tid in flights && flights[tid] == CallbackLogin(p)
      modifies this
      ensures View() == Step(w, old(View()), Advance(tid, io))
      ensures tid in flights && match q
                                case Some(x) => flights[tid] == CallbackName(x.0, x.1)
                                case None => flights[tid].Done?
    {
      StepIsEffect(w, View(), tid, io, ActCallbackLogin(tid, p, io));
      ReadClock(io.tick);
      q := LogIn(tid, p, io);
    }

    method LogIn(tid: nat, p: PendingAuth, io: IO) returns (q: Option<(PendingAuth, Option<seq<string>>)>)
      modifies this
      ensures View() == After(old(View()), tid, 0, ActCallbackLogin(tid, p, io))
      ensures tid in flights && match q
                                case Some(x) => flights[tid] == CallbackName(x.0, x.1)
                                case None => flights[tid].Done?
    {
      if io.login.None? || io.login.value.subject == "" {
        q := None;
        Arrive(tid, Done(Failed(UpstreamError)), Close(InHand(tid), Upstream));
        return;
      }
      var claims := io.login.value;
      var encrypted := "";
      if claims.cognitoRefresh != "" && claims.encrypted.Some? {
        encrypted := claims.encrypted.value;
      }
      var orgs := if claims.orgs.Some? then claims.orgs.value else [];
      var record := p;
      record := record.(subject := claims.subject);
      record := record.(email := claims.email);
      record := record.(orgs := orgs);
      record := record.(cognitoRefreshEnc := encrypted);
      q := Some((record, claims.orgs));
      Arrive(tid, CallbackName(record, claims.orgs), Stay);
    }

    method NameClient(tid: nat, p: PendingAuth, lookup: Option<seq<string>>, io: IO) returns (q: PendingAuth)
      requires tid in flights && flights[tid] == CallbackName(p, lookup)
      modifies this
      ensures View() == Step(w, old(View()), Advance(tid, io))
      ensures tid in flights && flights[tid] == CallbackStash(q, lookup)
    {
      StepIsEffect(w, View(), tid, io, ActCallbackName(Ticked(Tables(), io.tick), flights[tid], io));
      ReadClock(io.tick);
      var name := p.clientID;
      if io.ok && p.clientID in clients && clients[p.clientID].name != "" {
        name := clients[p.clientID].name;
      }
      q := p.(clientName := name);
      Arrive(tid, CallbackStash(q, lookup), Stay);
    }

    method StashConsent(tid: nat, p: PendingAuth, lookup: Option<seq<string>>, io: IO)
      requires tid in flights && flights[tid] == CallbackStash(p, lookup)
      modifies this
      ensures View() == Step(w, old(View()), Advance(tid, io))
      ensures tid in flights && flights[tid].Done?
    {
      StepIsEffect(w, View(), tid, io, ActCallbackStash(w, Ticked(Tables(), io.tick), tid, flights[tid], io));
      ReadClock(io.tick);
      var key := RandomHex();
      PutPending(ConsentKey(key), p.(expires := now + CONSENT_TTL), io.ok);
      if !io.ok {
        Arrive(tid, Done(Failed(ServerError)), Close(InHand(tid), StoreFailed));
        return;
      }
      Arrive(tid, Done(ConsentShown(key)),
             Shift(InHand(tid), PendingAt(ConsentKey(key)),
                   Some(CalledBack(Visit(p.subject, p.email, p.orgs, p.cognitoRefreshEnc), lookup))));
    }

    // ----- consent

    method TakeConsent(tid: nat, key: string, approve: bool, io: IO) returns (p: Option<PendingAuth>)
      requires tid in flights && flights[tid] == ConsentPop(key, approve)
      modifies this
      ensures View() == Step(w, old(View()), Advance(tid, io))
      ensures tid in flights && match p
                                case Some(x) => flights[tid] == ConsentCheck(x, approve)
                                case None => flights[tid].Done?
    {
      StepIsEffect(w, View(), tid, io, ActConsentPop(Ticked(Tables(), io.tick), tid, flights[tid], io));
      ReadClock(io.tick);
      var state := ConsentKey(key);
      p := PopPending(state, io.ok);
      if p.None? {
        Arrive(tid, Done(Failed(ConsentAlreadyUsed)), Stay);
        return;
      }
      Arrive(tid, ConsentCheck(p.value, approve), Shift(PendingAt(state), InHand(tid), None));
    }

    method CheckConsent(tid: nat, p: PendingAuth, approve: bool, io: IO) returns (ok: bool)
      requires tid in flights && flights[tid] == ConsentCheck(p, approve)
      modifies this
      ensures View() == Step(w, old(View()), Advance(tid, io))
      ensures tid in flights && (if ok then flights[tid] == ConsentLookup(p, approve) else flights[tid].Done?)
    {
      StepIsEffect(w, View(), tid, io, ActConsentCheck(Ticked(Tables(), io.tick), tid, flights[tid]));
      ReadClock(io.tick);
      ok := TimeConsent(tid, p, approve);
    }

    method TimeConsent(tid: nat, p: PendingAuth, approve: bool) returns (ok: bool)
      modifies this
      ensures View() == After(old(View()), tid, 0, ActConsentCheck(old(Tables()), tid, ConsentCheck(p, approve)))
      ensures tid in flights && (if ok then flights[tid] == ConsentLookup(p, approve) else flights[tid].Done?)
    {
      ok := now <= p.expires;
      if ok {
        Arrive(tid, ConsentLookup(p, approve), Stay);
      } else {
        Arrive(tid, Done(Failed(OAuthError.ConsentExpired)), Close(InHand(tid), Expired));
      }
    }

    method Decide(tid: nat, p: PendingAuth, approve: bool, io: IO) returns (mint: bool)
      requires tid in flights && flights[tid] == ConsentLookup(p, approve)
      modifies this
      ensures View() == Step(w, old(View()), Advance(tid, io))
      ensures tid in flights && (if mint then flights[tid] == ConsentMint(p) else flights[tid].Done?)
    {
      StepIsEffect(w, View(), tid, io, ActConsentLookup(Ticked(Tables(), io.tick), tid, flights[tid], io));
      ReadClock(io.tick);
      mint := false;
      var registered := false;
      if io.ok && p.clientID in clients {
        registered := Contains(clients[p.clientID].redirectURIs, p.redirectURI);
      }
      if !registered {
        Arrive(tid, Done(Failed(InvalidRedirectUri)), Close(InHand(tid), Unregistered));
      } else if !approve {
        Arrive(tid, Done(Redirected(p.clientID, p.redirectURI, AccessDenied(p.originalState))),
               Close(InHand(tid), Denied));
      } else {
        mint := true;
        Arrive(tid, ConsentMint(p), Stay);
      }
    }

    method MintCode(tid: nat, p: PendingAuth, io: IO)
      requires tid in flights && flights[tid] == ConsentMint(p)
      modifies this
      ensures View() == Step(w, old(View()), Advance(tid, io))
      ensures tid in flights && flights[tid].Done?
    {
      StepIsEffect(w, View(), tid, io, ActConsentMint(w, Ticked(Tables(), io.tick), tid, p, io));
      ReadClock(io.tick);
      GrantCode(tid, p, io);
    }

    method GrantCode(tid: nat, p: PendingAuth, io: IO)
      modifies this
      ensures View() == After(old(View()), tid, 0, ActConsentMint(w, old(Tables()), tid, p, io))
      ensures tid in flights && flights[tid].Done?
    {
      var code := RandomHex();
      PutCode(AuthCode(code, p.clientID, p.redirectURI, p.codeChallenge, p.scope,
                       p.subject, p.email, p.orgs, p.cognitoRefreshEnc, now + AUTH_CODE_TTL), io.ok);
      if !io.ok {
        Arrive(tid, Done(Failed(ServerError)), Close(InHand(tid), StoreFailed));
        return;
      }
      Arrive(tid, Done(Redirected(p.clientID, p.redirectURI, CodeGranted(code, p.originalState))),
             Shift(InHand(tid), CodeAt(code), Some(Approved(code, now))));
    }

    // ----- token, authorization_code

    method TakeCode(tid: nat, g: CodeGrant, io: IO) returns (c: Option<AuthCode>)
      requires tid in flights && flights[tid] == CodePop(g)
      modifies this
      ensures View() == Step(w, old(View()), Advance(tid, io))
      ensures tid in flights && match c
                                case Some(x) => flights[tid] == CodeCheck(x, g)
                                case None => flights[tid].Done?
    {
      StepIsEffect(w, View(), tid, io, ActCodePop(Ticked(Tables(), io.tick), tid, g, io));
      ReadClock(io.tick);
      c := PopCode(g.code, io.ok);
      if c.None? {
        Arrive(tid, Done(Failed(InvalidGrant)), Stay);
        return;
      }
      Arrive(tid, CodeCheck(c.value, g), Shift(CodeAt(g.code), InHand(tid), None));
    }

    /** The checks in the order the handler makes them. */
    method VerifyGrant(c: AuthCode, g: CodeGrant) returns (reason: Option<Reason>)
      ensures reason == CodeRefusal(w, c, g, now)
    {
      if now > c.expires {
        return Some(Expired);
      }
      if c.clientID != g.clientID {
        return Some(Mismatch);
      }
      if g.redirectURI != "" && g.redirectURI != c.redirectURI {
        return Some(Mismatch);
      }
      if g.verifier == "" {
        return Some(BadProof);
      }
      if w.challengeOf(g.verifier) != c.codeChallenge {
        return Some(BadProof);
      }
      return None;
    }

    method CheckCode(tid: nat, c: AuthCode, g: CodeGrant, io: IO) returns (ok: bool)
      requires tid in flights && flights[tid] == CodeCheck(c, g)
      modifies this
      ensures View() == Step(w, old(View()), Advance(tid, io))
      ensures tid in flights && (if ok then flights[tid] == CodeSession(c) else flights[tid].Done?)
    {
      StepIsEffect(w, View(), tid, io, ActCodeCheck(w, Ticked(Tables(), io.tick), tid, c, g));
      ReadClock(io.tick);
      ok := SpendCode(tid, c, g);
    }

    method SpendCode(tid: nat, c: AuthCode, g: CodeGrant) returns (ok: bool)
      modifies this
      ensures View() == After(old(View()), tid, 0, ActCodeCheck(w, old(Tables()), tid, c, g))
      ensures tid in flights && (if ok then flights[tid] == CodeSession(c) else flights[tid].Done?)
    {
      var reason := VerifyGrant(c, g);
      ok := reason.None?;
      if ok {
        Arrive(tid, CodeSession(c), Note(InHand(tid), Redeemed(tid, g.verifier, g.clientID, g.redirectURI, now)));
      } else {
        Arrive(tid, Done(Failed(InvalidGrant)), Close(InHand(tid), reason.value));
      }
    }

    method MintFirstSession(tid: nat, c: AuthCode, io: IO) returns (access: string)
      requires tid in flights && flights[tid] == CodeSession(c)
      modifies this
      ensures View() == Step(w, old(View()), Advance(tid, io))
      ensures tid in flights && flights[tid] == CodeIssue(c, access)
    {
      StepIsEffect(w, View(), tid, io, ActCodeSession(w, Ticked(Tables(), io.tick), tid, c, io));
      ReadClock(io.tick);
      access := FirstSession(tid, c, io);
    }

    method FirstSession(tid: nat, c: AuthCode, io: IO) returns (access: string)
      modifies this
      ensures View() == After(old(View()), tid, 0, ActCodeSession(w, old(Tables()), tid, c, io))
      ensures tid in flights && flights[tid] == CodeIssue(c, access)
    {
      access := RandomHex();
      var session := Session(c.subject, c.email, c.orgs, now, now + ACCESS_TOKEN_TTL);
      PersistSession(access, session, io.ok);
      Arrive(tid, CodeIssue(c, access), Note(InHand(tid), Minted(tid, w.hash(access), session)));
    }

    method IssueRefresh(tid: nat, c: AuthCode, access: string, io: IO)
      requires tid in flights && flights[tid] == CodeIssue(c, access)
      modifies this
      ensures View() == Step(w, old(View()), Advance(tid, io))
      ensures tid in flights && flights[tid].Done?
    {
      StepIsEffect(w, View(), tid, io, ActCodeIssue(w, Ticked(Tables(), io.tick), tid, c, access, io));
      ReadClock(io.tick);
      GrantRefresh(tid, c, access, io);
    }

    method GrantRefresh(tid: nat, c: AuthCode, access: string, io: IO)
      modifies this
      ensures View() == After(old(View()), tid, 0, ActCodeIssue(w, old(Tables()), tid, c, access, io))
      ensures tid in flights && flights[tid].Done?
    {
      if c.cognitoRefreshEnc == "" {
        Arrive(tid, Done(Tokens(access, None, c.scope)), Close(InHand(tid), NoRefresh));
        return;
      }
      var token := RandomHex();
      var key := w.hash(token);
      PutRefresh(RefreshToken(key, c.clientID, c.scope, c.subject, c.email, c.orgs, c.cognitoRefreshEnc,
                              now + REFRESH_TOKEN_TTL), io.ok);
      if !io.ok {
        Arrive(tid, Done(Tokens(access, None, c.scope)), Close(InHand(tid), StoreFailed));
        return;
      }
      Arrive(tid, Done(Tokens(access, Some(token), c.scope)),
             Shift(InHand(tid), RefreshAt(key), Some(Issued(tid, key, now, Stamp(w, now + REFRESH_TOKEN_TTL)))));
    }

    // ----- token, refresh_token

    method TakeRefresh(tid: nat, presented: string, clientID: string, io: IO) returns (rt: Option<RefreshToken>)
      requires tid in flights && flights[tid] == RefreshPop(presented, clientID)
      modifies this
      ensures View() == Step(w, old(View()), Advance(tid, io))
      ensures tid in flights && flights[tid] == match rt
                                                 case Some(r) => RefreshCheck(r, clientID)
                                                 case None => Done(Failed(InvalidGrant))
    {
      StepIsEffect(w, View(), tid, io, ActRefreshPop(w, Ticked(Tables(), io.tick), tid, flights[tid], io));
      ReadClock(io.tick);
      var key := w.hash(presented);
      rt := PopRefresh(key, io.ok);
      if rt.None? {
        Arrive(tid, Done(Failed(InvalidGrant)), Stay);
        return;
      }
      Arrive(tid, RefreshCheck(rt.value, clientID), Shift(RefreshAt(key), InHand(tid), None));
    }

    method CheckRefresh(tid: nat, rt: RefreshToken, clientID: string, io: IO) returns (ok: bool)
      requires tid in flights && flights[tid] == RefreshCheck(rt, clientID)
      modifies this
      ensures View() == Step(w, old(View()), Advance(tid, io))
      ensures tid in flights && flights[tid] == if ok then RefreshReauth(rt) else Done(Failed(InvalidGrant))
    {
      StepIsEffect(w, View(), tid, io, ActRefreshCheck(Ticked(Tables(), io.tick), tid, rt, clientID));
      ReadClock(io.tick);
      if now > rt.expires {
        Arrive(tid, Done(Failed(InvalidGrant)), Close(InHand(tid), Expired));
        return false;
      }
      if clientID != "" && rt.clientID != clientID {
        Arrive(tid, Done(Failed(InvalidGrant)), Close(InHand(tid), Mismatch));
        return false;
      }
      Arrive(tid, RefreshReauth(rt), Note(InHand(tid), Presented(tid, rt.hashedToken, clientID, now)));
      return true;
    }

    /** Decrypt, ask Cognito, look up the organizations again. */
    method Reauthenticate(tid: nat, rt: RefreshToken, io: IO) returns (who: Option<(string, string, seq<string>)>)
      requires tid in flights && flights[tid] == RefreshReauth(rt)
      modifies this
      ensures View() == Step(w, old(View()), Advance(tid, io))
      ensures tid in flights && match who
                                case Some(x) => flights[tid] == RefreshSession(rt, x.0, x.1, x.2)
                                case None => flights[tid].Done?
    {
      StepIsEffect(w, View(), tid, io, ActRefreshReauth(tid, rt, io));
      ReadClock(io.tick);
      who := AskCognito(tid, rt, io);
    }

    method AskCognito(tid: nat, rt: RefreshToken, io: IO) returns (who: Option<(string, string, seq<string>)>)
      modifies this
      ensures View() == After(old(View()), tid, 0, ActRefreshReauth(tid, rt, io))
      ensures tid in flights && match who
                                case Some(x) => flights[tid] == RefreshSession(rt, x.0, x.1, x.2)
                                case None => flights[tid].Done?
    {
      who := None;
      if io.reauth.DecryptFailed? {
        Arrive(tid, Done(Failed(InvalidGrant)), Close(InHand(tid), Undecryptable));
        return;
      }
      if io.reauth.CognitoRejected? || io.reauth.subject == "" {
        Arrive(tid, Done(Failed(InvalidGrant)), Close(InHand(tid), Upstream));
        return;
      }
      var subject := io.reauth.subject;
      var email := io.reauth.email;
      if email == "" {
        email := rt.email;
      }
      var orgs := rt.orgs;
      if io.reauth.orgs.Some? {
        orgs := io.reauth.orgs.value;
      }
      who := Some((subject, email, orgs));
      Arrive(tid, RefreshSession(rt, subject, email, orgs),
             Note(InHand(tid), Renewed(tid, rt.cognitoRefreshEnc, subject, io.reauth.email, email, orgs,
                                       io.reauth.orgs)));
    }

    method MintNextSession(tid: nat, rt: RefreshToken, who: (string, string, seq<string>), io: IO)
      returns (access: string)
      requires tid in flights && flights[tid] == RefreshSession(rt, who.0, who.1, who.2)
      modifies this
      ensures View() == Step(w, old(View()), Advance(tid, io))
      ensures tid in flights && flights[tid] == RefreshRotate(rt, who.0, who.1, who.2, access)
    {
      StepIsEffect(w, View(), tid, io, ActRefreshSession(w, Ticked(Tables(), io.tick), tid, flights[tid], io));
      ReadClock(io.tick);
      access := NextSession(tid, rt, who, io);
    }

    method NextSession(tid: nat, rt: RefreshToken, who: (string, string, seq<string>), io: IO)
      returns (access: string)
      modifies this
      ensures View() == After(old(View()), tid, 0,
                              ActRefreshSession(w, old(Tables()), tid, RefreshSession(rt, who.0, who.1, who.2), io))
      ensures tid in flights && flights[tid] == RefreshRotate(rt, who.0, who.1, who.2, access)
    {
      access := RandomHex();
      var session := Session(who.0, who.1, who.2, now, now + ACCESS_TOKEN_TTL);
      PersistSession(access, session, io.ok);
      Arrive(tid, RefreshRotate(rt, who.0, who.1, who.2, access),
             Note(InHand(tid), Minted(tid, w.hash(access), session)));
    }

    method Rotate(tid: nat, rt: RefreshToken, who: (string, string, seq<string>), access: string, io: IO)
      requires tid in flights && flights[tid] == RefreshRotate(rt, who.0, who.1, who.2, access)
      modifies this
      ensures View() == Step(w, old(View()), Advance(tid, io))
      ensures tid in flights && flights[tid].Done?
    {
      StepIsEffect(w, View(), tid, io, ActRefreshRotate(w, Ticked(Tables(), io.tick), tid, flights[tid], io));
      ReadClock(io.tick);
      var token := RandomHex();
      var key := w.hash(token);
      PutRefresh(RefreshToken(key, rt.clientID, rt.scope, who.0, who.1, who.2, rt.cognitoRefreshEnc, rt.expires),
                 io.ok);
      if !io.ok {
        Arrive(tid, Done(Tokens(access, None, rt.scope)), Close(InHand(tid), StoreFailed));
        return;
      }
      Arrive(tid, Done(Tokens(access, Some(token), rt.scope)),
             Shift(InHand(tid), RefreshAt(key), Some(Rotated(tid, key))));
    }

    // ----- revoke

    method RevokeSession(tid: nat, token: string, plan: seq<RevokeOp>, io: IO)
      requires tid in flights && flights[tid] == Revoking(token, plan) && plan != [] && plan[0] == DropSession
      modifies this
      ensures View() == Step(w, old(View()), Advance(tid, io))
      ensures tid in flights && flights[tid] == AfterOp(token, plan)
    {
      StepIsEffect(w, View(), tid, io, ActRevoke(w, Ticked(Tables(), io.tick), token, plan, io));
      ReadClock(io.tick);
      DeleteSession(token, io.ok);
      Arrive(tid, AfterOp(token, plan), Stay);
    }

    method RevokeRefresh(tid: nat, token: string, plan: seq<RevokeOp>, io: IO)
      requires tid in flights && flights[tid] == Revoking(token, plan) && plan != [] && plan[0] == DropRefresh
      modifies this
      ensures View() == Step(w, old(View()), Advance(tid, io))
      ensures tid in flights && flights[tid] == AfterOp(token, plan)
    {
      StepIsEffect(w, View(), tid, io, ActRevoke(w, Ticked(Tables(), io.tick), token, plan, io));
      ReadClock(io.tick);
      var key := w.hash(token);
      var found := PopRefresh(key, io.ok);
      Arrive(tid, AfterOp(token, plan), if found.Some? then Close(RefreshAt(key), Revoked) else Stay);
    }

    method RevokeFirst(tid: nat, token: string, plan: seq<RevokeOp>, io: IO)
      requires tid in flights && flights[tid] == Revoking(token, plan) && plan != []
      modifies this
      ensures View() == Step(w, old(View()), Advance(tid, io))
      ensures tid in flights && flights[tid] == AfterOp(token, plan)
    {
      match plan[0] {
        case DropSession => RevokeSession(tid, token, plan, io);
        case DropRefresh => RevokeRefresh(tid, token, plan, io);
      }
    }

    // ----- Whole handlers. env(i) is what the other requests do before the
    // handler's i-th step, io(i) what the services answer in it.

    /** register */
    method Register(tid: nat, admitted: bool, name: string, uris: seq<string>, grants: seq<string>,
        io: nat -> IO, env: nat -> seq<Event>)
      returns (response: Response)
      requires tid !in flights && forall i :: AllForeign(env(i), tid)
      modifies this
      ensures View() == Handled(w, old(View()), tid, RegisterRequest(admitted, name, uris, grants), io, env)
      ensures KeepsInv(w, old(View()), View())
      ensures tid in flights && flights[tid] == Done(response)
    {
      HandlingKeepsInv(w, View(), tid, RegisterRequest(admitted, name, uris, grants), io, env);
      Admission(tid, RegisterRequest(admitted, name, uris, grants));
      ghost var goal, at := Serve(w, View(), tid, io, env, 0), View();
      if flights[tid].Registering? {
        Others(tid, env(0));
        StoreClient(tid, name, uris, grants, io(0));
        TurnTaken(w, at, View(), tid, io, env, 0, goal);
        at := View();
      }
      return flights[tid].response;
    }

    /** register behind its limiter; clock is the limiter's. */
    method RegisterFrom(tid: nat, limiter: RegisterLimiter.RateLimiter, ip: string, clock: int,
        name: string, uris: seq<string>, grants: seq<string>, io: nat -> IO, env: nat -> seq<Event>)
      returns (response: Response)
      requires limiter.Valid() && tid !in flights && forall i :: AllForeign(env(i), tid)
      modifies this, limiter, limiter.made
      ensures limiter.Valid()
      ensures limiter.View() == RegisterLimiter.AfterCall(limiter.config, old(limiter.View()), ip, clock)
      ensures var admitted := RegisterLimiter.Allowed(limiter.config, old(limiter.View()), ip, clock);
              View() == Handled(w, old(View()), tid, RegisterRequest(admitted, name, uris, grants), io, env)
      ensures tid in flights && flights[tid] == Done(response)
    {
      var admitted := limiter.Allow(ip, clock);
      response := Register(tid, admitted, name, uris, grants, io, env);
    }

    /** authorize */
    method Authorize(tid: nat, a: Authorization,
        io: nat -> IO, env: nat -> seq<Event>)
      returns (response: Response)
      requires tid !in flights && forall i :: AllForeign(env(i), tid)
      modifies this
      ensures View() == Handled(w, old(View()), tid, AuthorizeRequest(a), io, env)
      ensures KeepsInv(w, old(View()), View())
      ensures tid in flights && flights[tid] == Done(response)
    {
      HandlingKeepsInv(w, View(), tid, AuthorizeRequest(a), io, env);
      Admission(tid, AuthorizeRequest(a));
      ghost var goal, at := Serve(w, View(), tid, io, env, 0), View();
      if flights[tid].AuthorizeLookup? {
        Others(tid, env(0));
        var b := CheckAuthorization(tid, a, io(0));
        TurnTaken(w, at, View(), tid, io, env, 0, goal);
        at := View();
        if b.Some? {
          Others(tid, env(1));
          StashAuthorization(tid, b.value, io(1));
          TurnTaken(w, at, View(), tid, io, env, 1, goal);
          at := View();
        }
      }
      return flights[tid].response;
    }

    /** callback */
    method Callback(tid: nat, code: string, state: string,
        io: nat -> IO, env: nat -> seq<Event>)
      returns (response: Response)
      requires tid !in flights && forall i :: AllForeign(env(i), tid)
      modifies this
      ensures View() == Handled(w, old(View()), tid, CallbackRequest(code, state), io, env)
      ensures KeepsInv(w, old(View()), View())
      ensures tid in flights && flights[tid] == Done(response)
    {
      HandlingKeepsInv(w, View(), tid, CallbackRequest(code, state), io, env);
      Admission(tid, CallbackRequest(code, state));
      ghost var goal, at := Serve(w, View(), tid, io, env, 0), View();
      if code == "" || state == "" {
        return flights[tid].response;
      }
      Others(tid, env(0));
      var p := TakePending(tid, state, io(0));
      TurnTaken(w, at, View(), tid, io, env, 0, goal);
      at := View();
      if p.None? {
        return flights[tid].response;
      }
      Others(tid, env(1));
      var ok := CheckPending(tid, p.value, io(1));
      TurnTaken(w, at, View(), tid, io, env, 1, goal);
      at := View();
      if !ok {
        return flights[tid].response;
      }
      Others(tid, env(2));
      var q := Identify(tid, p.value, io(2));
      TurnTaken(w, at, View(), tid, io, env, 2, goal);
      at := View();
      if q.None? {
        return flights[tid].response;
      }
      Others(tid, env(3));
      var r := NameClient(tid, q.value.0, q.value.1, io(3));
      TurnTaken(w, at, View(), tid, io, env, 3, goal);
      at := View();
      Others(tid, env(4));
      StashConsent(tid, r, q.value.1, io(4));
      TurnTaken(w, at, View(), tid, io, env, 4, goal);
      at := View();
      return flights[tid].response;
    }

    /** consent */
    method Consent(tid: nat, key: string, action: string,
        io: nat -> IO, env: nat -> seq<Event>)
      returns (response: Response)
      requires tid !in flights && forall i :: AllForeign(env(i), tid)
      modifies this
      ensures View() == Handled(w, old(View()), tid, ConsentRequest(key, action), io, env)
      ensures KeepsInv(w, old(View()), View())
      ensures tid in flights && flights[tid] == Done(response)
    {
      HandlingKeepsInv(w, View(), tid, ConsentRequest(key, action), io, env);
      Admission(tid, ConsentRequest(key, action));
      ghost var goal, at := Serve(w, View(), tid, io, env, 0), View();
      if key == "" {
        return flights[tid].response;
      }
      var approve := action == "approve";
      Others(tid, env(0));
      var p := TakeConsent(tid, key, approve, io(0));
      TurnTaken(w, at, View(), tid, io, env, 0, goal);
      at := View();
      if p.None? {
        return flights[tid].response;
      }
      Others(tid, env(1));
      var ok := CheckConsent(tid, p.value, approve, io(1));
      TurnTaken(w, at, View(), tid, io, env, 1, goal);
      at := View();
      if !ok {
        return flights[tid].response;
      }
      Others(tid, env(2));
      var mint := Decide(tid, p.value, approve, io(2));
      TurnTaken(w, at, View(), tid, io, env, 2, goal);
      at := View();
      if mint {
        Others(tid, env(3));
        MintCode(tid, p.value, io(3));
        TurnTaken(w, at, View(), tid, io, env, 3, goal);
        at := View();
      }
      return flights[tid].response;
    }

    /** tokenAuthorizationCode */
    method TokenAuthorizationCode(tid: nat, g: CodeGrant,
        io: nat -> IO, env: nat -> seq<Event>)
      returns (response: Response)
      requires tid !in flights && forall i :: AllForeign(env(i), tid)
      modifies this
      ensures View() == Handled(w, old(View()), tid, CodeRequest(g), io, env)
      ensures KeepsInv(w, old(View()), View())
      ensures tid in flights && flights[tid] == Done(response)
    {
      HandlingKeepsInv(w, View(), tid, CodeRequest(g), io, env);
      Admission(tid, CodeRequest(g));
      ghost var goal, at := Serve(w, View(), tid, io, env, 0), View();
      Others(tid, env(0));
      var c := TakeCode(tid, g, io(0));
      TurnTaken(w, at, View(), tid, io, env, 0, goal);
      at := View();
      if c.None? {
        return flights[tid].response;
      }
      Others(tid, env(1));
      var ok := CheckCode(tid, c.value, g, io(1));
      TurnTaken(w, at, View(), tid, io, env, 1, goal);
      at := View();
      if !ok {
        return flights[tid].response;
      }
      Others(tid, env(2));
      var access := MintFirstSession(tid, c.value, io(2));
      TurnTaken(w, at, View(), tid, io, env, 2, goal);
      at := View();
      Others(tid, env(3));
      IssueRefresh(tid, c.value, access, io(3));
      TurnTaken(w, at, View(), tid, io, env, 3, goal);
      at := View();
      return flights[tid].response;
    }

    /** tokenRefresh */
    method TokenRefresh(tid: nat, presented: string, clientID: string,
        io: nat -> IO, env: nat -> seq<Event>)
      returns (response: Response)
      requires tid !in flights && forall i :: AllForeign(env(i), tid)
      modifies this
      ensures View() == Handled(w, old(View()), tid, RefreshRequest(presented, clientID), io, env)
      ensures KeepsInv(w, old(View()), View())
      ensures tid in flights && flights[tid] == Done(response)
    {
      HandlingKeepsInv(w, View(), tid, RefreshRequest(presented, clientID), io, env);
      Admission(tid, RefreshRequest(presented, clientID));
      ghost var goal, at := Serve(w, View(), tid, io, env, 0), View();
      if presented == "" {
        return flights[tid].response;
      }
      Others(tid, env(0));
      var rt := TakeRefresh(tid, presented, clientID, io(0));
      TurnTaken(w, at, View(), tid, io, env, 0, goal);
      at := View();
      if rt.None? {
        return flights[tid].response;
      }
      Others(tid, env(1));
      var ok := CheckRefresh(tid, rt.value, clientID, io(1));
      TurnTaken(w, at, View(), tid, io, env, 1, goal);
      at := View();
      if !ok {
        return flights[tid].response;
      }
      Others(tid, env(2));
      var who := Reauthenticate(tid, rt.value, io(2));
      TurnTaken(w, at, View(), tid, io, env, 2, goal);
      at := View();
      if who.None? {
        return flights[tid].response;
      }
      Others(tid, env(3));
      var access := MintNextSession(tid, rt.value, who.value, io(3));
      TurnTaken(w, at, View(), tid, io, env, 3, goal);
      at := View();
      Others(tid, env(4));
      Rotate(tid, rt.value, who.value, access, io(4));
      TurnTaken(w, at, View(), tid, io, env, 4, goal);
      at := View();
      return flights[tid].response;
    }

    /** revoke */
    method Revoke(tid: nat, token: string, hint: string,
        io: nat -> IO, env: nat -> seq<Event>)
      returns (response: Response)
      requires tid !in flights && forall i :: AllForeign(env(i), tid)
      modifies this
      ensures View() == Handled(w, old(View()), tid, RevokeRequest(token, hint), io, env)
      ensures KeepsInv(w, old(View()), View())
      ensures tid in flights && flights[tid] == Done(response)
    {
      HandlingKeepsInv(w, View(), tid, RevokeRequest(token, hint), io, env);
      Admission(tid, RevokeRequest(token, hint));
      if token != "" {
        RevokeBoth(tid, token, RevokePlan(hint), io, env);
      }
      return flights[tid].response;
    }

    method RevokeBoth(tid: nat, token: string, plan: seq<RevokeOp>, io: nat -> IO, env: nat -> seq<Event>)
      requires tid in flights && flights[tid] == Revoking(token, plan) && |plan| == 2
      requires forall i :: AllForeign(env(i), tid)
      modifies this
      ensures View() == Serve(w, old(View()), tid, io, env, 0)
      ensures tid in flights && flights[tid].Done?
    {
      ghost var goal, at := Serve(w, View(), tid, io, env, 0), View();
      Others(tid, env(0));
      RevokeFirst(tid, token, plan, io(0));
      TurnTaken(w, at, View(), tid, io, env, 0, goal);
      at := View();
      var rest := plan[1..];
      assert flights[tid] == Revoking(token, rest) && |rest| == 1;
      Others(tid, env(1));
      RevokeFirst(tid, token, rest, io(1));
      assert flights[tid] == Done(RevokeDone);
      TurnTaken(w, at, View(), tid, io, env, 1, goal);
      Answered(w, View(), tid, io, env, 2, goal);
    }
  }
}
