/** What a registration and an authorization request are answered, whatever other
    requests do between their steps and whatever the store answers. */
module EntryExchange {
  import opened Basics
  import opened Redirects
  import opened AuthRecords
  import opened AuthSteps
  import opened AuthAudit
  import opened AuthSchedule
  import opened Exchange

  // ----- register

  /** The client is in the table under its new identifier, as it described itself;
      it may use codes and refresh tokens unless it said otherwise. */
  predicate ClientStored(id: string, name: string, uris: seq<string>, grants: seq<string>, at: int, s: Sys) {
    && id in s.clients && s.clients[id].clientID == id && s.clients[id].name == name
    && s.clients[id].redirectURIs == uris && s.clients[id].createdAt == at
    && s.clients[id].grantTypes == (if grants == [] then ["authorization_code", "refresh_token"] else grants)
  }

  /** The answer: a new identifier, under which the client was stored, if and only if
      the limiter admits the request, it keeps within the limits and the store takes
      the client; else a failure. */
  ghost predicate ClientGets(w: World, q: Request, put: bool, at: int, r: Response, s: Sys)
    requires q.RegisterRequest?
  {
    && (r.Registered? <==> q.admitted && MayRegister(w.parse, q.name, q.uris) && put)
    && (r.Registered? ==>
          && (exists i: nat :: r.clientID == "mcp_" + w.coin(i))
          && ClientStored(r.clientID, q.name, q.uris, q.grants, at, s))
    && (!r.Registered? ==>
          r == Failed(if !q.admitted then TemporarilyUnavailable
                      else if !MayRegister(w.parse, q.name, q.uris) then InvalidRedirectUri
                      else ServerError))
  }

  /** The answer of the one step of an admitted registration. */
  ghost predicate Kept(w: World, f: Flight, ok: bool, r: Response, at: int, s: Sys)
    requires f.Registering?
  {
    if ok then
      && r.Registered? && (exists i: nat :: r.clientID == "mcp_" + w.coin(i))
      && ClientStored(r.clientID, f.name, f.uris, f.grants, at, s)
    else r == Failed(ServerError)
  }

  lemma KeepsNext(w: World, s: Sys, tid: nat, f: Flight, io: IO)
    requires f.Registering?
    ensures var e := ActRegister(w, s, f, io);
            e.next.Done? && Kept(w, f, io.ok, e.next.response, s.now, Perform(s, tid, e).sys)
  {
  }

  lemma KeepTurn(w: World, s: State, tid: nat, f: Flight, es: seq<Event>, io: IO)
    requires f.Registering? && IsAt(s, tid, f) && AllForeign(es, tid)
    ensures var t := Turn(w, s, tid, es, io);
            && tid in t.sys.flights && t.sys.flights[tid].Done?
            && Kept(w, f, io.ok, t.sys.flights[tid].response, ClockAfter(w, s, es, io), t.sys)
  {
    var u := Ticked(Run(w, s, es).sys, io.tick);
    KeepsNext(w, u, tid, f, io);
    TurnGoes(w, s, tid, es, io, f, ActRegister(w, u, f, io));
  }

  lemma AfterAdmission(w: World, s: State, tid: nat, f: Flight, io: nat -> IO, env: nat -> seq<Event>, goal: State)
    requires f.Registering? && IsAt(s, tid, f) && Apart(tid, env) && goal == Serve(w, s, tid, io, env, 0)
    ensures tid in goal.sys.flights && goal.sys.flights[tid].Done?
    ensures Kept(w, f, io(0).ok, goal.sys.flights[tid].response, ClockAfter(w, s, env(0), io(0)), goal.sys)
  {
    var t := Turn(w, s, tid, env(0), io(0));
    KeepTurn(w, s, tid, f, env(0), io(0));
    TurnTaken(w, s, t, tid, io, env, 0, goal);
    Answered(w, t, tid, io, env, 1, goal);
  }

  lemma AdmissionOf(w: World, q: Request)
    requires q.RegisterRequest?
    ensures Admit(w, q) == if !q.admitted then Done(Failed(TemporarilyUnavailable))
                           else if !MayRegister(w.parse, q.name, q.uris) then Done(Failed(InvalidRedirectUri))
                           else Registering(q.name, q.uris, q.grants)
  {
    ValidIffSafe(w.parse, q.name, q.uris);
  }

  /** The whole registration. */
  lemma RegistrationIsAnswered(w: World, s: State, tid: nat, q: Request, io: nat -> IO, env: nat -> seq<Event>)
    requires q.RegisterRequest? && tid !in s.sys.flights && Apart(tid, env)
    ensures var entered := Step(w, s, Start(tid, q));
            var t := Handled(w, s, tid, q, io, env).sys;
            && tid in t.flights && t.flights[tid].Done?
            && ClientGets(w, q, io(0).ok, ClockAfter(w, entered, env(0), io(0)), t.flights[tid].response, t)
  {
    var entered := Step(w, s, Start(tid, q));
    var goal := Handled(w, s, tid, q, io, env);
    Enters(w, s, tid, q);
    AdmissionOf(w, q);
    if q.admitted && MayRegister(w.parse, q.name, q.uris) {
      AfterAdmission(w, entered, tid, Registering(q.name, q.uris, q.grants), io, env, goal);
    } else {
      Answered(w, entered, tid, io, env, 0, goal);
    }
  }

  // ----- authorize

  /** What the handler meets: the clients as it looks, whether the store answers each
      time, and the clock as it stores the request. */
  datatype Encounter = Encounter(clients: map<string, Client>, listed: bool, put: bool, storedAt: int)

  predicate Found(a: Authorization, m: Encounter) {
    m.listed && a.clientID in m.clients
  }

  /** A code request of a registered client for one of its own redirect URIs, with a
      SHA-256 challenge, which the store takes. */
  predicate GoesOn(w: World, a: Authorization, m: Encounter) {
    && w.configured && a.responseType == "code" && Found(a, m)
    && a.redirectURI in m.clients[a.clientID].redirectURIs
    && a.codeChallenge != "" && a.codeChallengeMethod == "S256" && m.put
  }

  function RefusalOf(w: World, a: Authorization, m: Encounter): OAuthError {
    if !w.configured then ServerMisconfigured
    else if a.responseType != "code" then UnsupportedResponseType
    else if !Found(a, m) then InvalidClient
    else if a.redirectURI !in m.clients[a.clientID].redirectURIs then InvalidRedirectUri
    else if a.codeChallenge == "" || a.codeChallengeMethod != "S256" then InvalidRequest
    else ServerError
  }

  /** p is what request a asked, for fifteen minutes, and no user yet. */
  predicate Waits(w: World, a: Authorization, at: int, p: PendingAuth) {
    && p.clientID == a.clientID && p.redirectURI == a.redirectURI && p.codeChallenge == a.codeChallenge
    && p.originalState == a.state && p.scope == (if a.scope == "" then "buildpulse.read" else a.scope)
    && p.expires == Stamp(w, at + 900_000_000_000)
    && p.subject == "" && p.email == "" && p.orgs == [] && p.cognitoRefreshEnc == "" && p.clientName == ""
  }

  /** The answer: to Cognito with a random state, under which the request was stored,
      if and only if the request goes on; else a failure. */
  ghost predicate CallerGets(w: World, a: Authorization, m: Encounter, r: Response, s: Sys) {
    && (r.ToCognito? <==> GoesOn(w, a, m))
    && (r.ToCognito? ==> IsDrawn(w, r.state) && r.state in s.pending && Waits(w, a, m.storedAt, s.pending[r.state]))
    && (!r.ToCognito? ==> r == Failed(RefusalOf(w, a, m)))
  }

  /** Where the lookup leads. */
  predicate Looked(a: Authorization, clients: map<string, Client>, ok: bool, f: Flight) {
    if !ok || a.clientID !in clients then f == Done(Failed(InvalidClient))
    else if a.redirectURI !in clients[a.clientID].redirectURIs then f == Done(Failed(InvalidRedirectUri))
    else if a.codeChallenge == "" || a.codeChallengeMethod != "S256" then f == Done(Failed(InvalidRequest))
    else f == AuthorizeStash(a.(scope := if a.scope == "" then "buildpulse.read" else a.scope))
  }

  lemma LooksNext(s: Sys, a: Authorization, io: IO)
    ensures Looked(a, s.clients, io.ok, ActAuthorizeLookup(s, a, io).next)
  {
  }

  lemma LookTurn(w: World, s: State, tid: nat, a: Authorization, io: nat -> IO, env: nat -> seq<Event>, goal: State)
    returns (t: State, f: Flight)
    requires IsAt(s, tid, AuthorizeLookup(a)) && Apart(tid, env) && goal == Serve(w, s, tid, io, env, 0)
    ensures t == Turn(w, s, tid, env(0), io(0)) && goal == Serve(w, t, tid, io, env, 1)
    ensures IsAt(t, tid, f) && Looked(a, Run(w, s, env(0)).sys.clients, io(0).ok, f)
  {
    var u := Ticked(Run(w, s, env(0)).sys, io(0).tick);
    t := Turn(w, s, tid, env(0), io(0));
    LooksNext(u, a, io(0));
    f := ActAuthorizeLookup(u, a, io(0)).next;
    TurnGoes(w, s, tid, env(0), io(0), AuthorizeLookup(a), ActAuthorizeLookup(u, a, io(0)));
    TurnTaken(w, s, t, tid, io, env, 0, goal);
  }

  predicate Stored(w: World, a: Authorization, key: string, at: int, s: Sys) {
    && key in s.pending
    && s.pending[key] == PendingAuth(a.clientID, a.redirectURI, a.codeChallenge, a.state, a.scope,
                                     Stamp(w, at + 900_000_000_000), "", "", "", [], "")
  }

  /** The answer of the last step. */
  ghost predicate Stashed(w: World, a: Authorization, ok: bool, r: Response, at: int, s: Sys) {
    if ok then r.ToCognito? && IsDrawn(w, r.state) && Stored(w, a, r.state, at, s)
    else r == Failed(ServerError)
  }

  /** The request is answered, as of time at. */
  ghost predicate StashAnswered(w: World, a: Authorization, ok: bool, tid: nat, at: int, s: Sys) {
    tid in s.flights && s.flights[tid].Done? && Stashed(w, a, ok, s.flights[tid].response, at, s)
  }

  lemma StashesNext(w: World, s: Sys, tid: nat, f: Flight, io: IO)
    requires f.AuthorizeStash?
    ensures StashAnswered(w, f.a, io.ok, tid, s.now, Perform(s, tid, ActAuthorizeStash(w, s, f.a, io)).sys)
  {
  }

  lemma StashTurn(w: World, s: State, tid: nat, f: Flight, es: seq<Event>, io: IO)
    requires f.AuthorizeStash? && IsAt(s, tid, f) && AllForeign(es, tid)
    ensures StashAnswered(w, f.a, io.ok, tid, ClockAfter(w, s, es, io), Turn(w, s, tid, es, io).sys)
  {
    var u := Ticked(Run(w, s, es).sys, io.tick);
    StashesNext(w, u, tid, f, io);
    TurnGoes(w, s, tid, es, io, f, ActAuthorizeStash(w, u, f.a, io));
  }

  lemma LastTurn(w: World, s: State, tid: nat, f: Flight, io: nat -> IO, env: nat -> seq<Event>, goal: State)
    requires f.AuthorizeStash? && IsAt(s, tid, f) && Apart(tid, env) && goal == Serve(w, s, tid, io, env, 1)
    ensures StashAnswered(w, f.a, io(1).ok, tid, ClockAfter(w, s, env(1), io(1)), goal.sys)
  {
    var t := Turn(w, s, tid, env(1), io(1));
    StashTurn(w, s, tid, f, env(1), io(1));
    TurnTaken(w, s, t, tid, io, env, 1, goal);
    Answered(w, t, tid, io, env, 2, goal);
  }

  /** What the handler meets that has just come in, in state s. */
  function EncounterOf(w: World, s: State, tid: nat, io: nat -> IO, env: nat -> seq<Event>): Encounter {
    Encounter(Run(w, s, env(0)).sys.clients, io(0).ok, io(1).ok,
              ClockAfter(w, Turn(w, s, tid, env(0), io(0)), env(1), io(1)))
  }

  ghost predicate FromLookup(w: World, a: Authorization, m: Encounter, s: Sys, tid: nat) {
    && tid in s.flights && s.flights[tid].Done?
    && exists f :: Looked(a, m.clients, m.listed, f)
                   && if f.AuthorizeStash? then StashAnswered(w, f.a, m.put, tid, m.storedAt, s)
                      else s.flights[tid] == f
  }

  lemma AfterArrival(w: World, s: State, tid: nat, a: Authorization, io: nat -> IO, env: nat -> seq<Event>,
                     goal: State)
    requires IsAt(s, tid, AuthorizeLookup(a)) && Apart(tid, env) && goal == Serve(w, s, tid, io, env, 0)
    ensures FromLookup(w, a, EncounterOf(w, s, tid, io, env), goal.sys, tid)
  {
    var t, f := LookTurn(w, s, tid, a, io, env, goal);
    if f.AuthorizeStash? {
      LastTurn(w, t, tid, f, io, env, goal);
    } else {
      Answered(w, t, tid, io, env, 1, goal);
    }
  }

  lemma StepsAnswer(w: World, a: Authorization, m: Encounter, s: Sys, tid: nat)
    requires w.configured && a.responseType == "code" && FromLookup(w, a, m, s, tid)
    ensures tid in s.flights && s.flights[tid].Done? && CallerGets(w, a, m, s.flights[tid].response, s)
  {
  }

  /** The whole authorization request. */
  lemma AuthorizationIsAnswered(w: World, s: State, tid: nat, a: Authorization,
                                io: nat -> IO, env: nat -> seq<Event>)
    requires tid !in s.sys.flights && Apart(tid, env)
    ensures var entered := Step(w, s, Start(tid, AuthorizeRequest(a)));
            var t := Handled(w, s, tid, AuthorizeRequest(a), io, env).sys;
            && tid in t.flights && t.flights[tid].Done?
            && CallerGets(w, a, EncounterOf(w, entered, tid, io, env), t.flights[tid].response, t)
  {
    var entered := Step(w, s, Start(tid, AuthorizeRequest(a)));
    var goal := Handled(w, s, tid, AuthorizeRequest(a), io, env);
    Enters(w, s, tid, AuthorizeRequest(a));
    if !w.configured || a.responseType != "code" {
      Answered(w, entered, tid, io, env, 0, goal);
    } else {
      AfterArrival(w, entered, tid, a, io, env, goal);
      StepsAnswer(w, a, EncounterOf(w, entered, tid, io, env), goal.sys, tid);
    }
  }
}
