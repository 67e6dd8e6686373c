/** What the browser that comes back from Cognito is shown: the whole callback,
    whatever other requests do between its steps and whatever the services answer;
    and that the key it is shown is the one consent looks for. */
module CallbackExchange {
  import opened Basics
  import opened AuthRecords
  import opened AuthSteps
  import opened AuthAudit
  import opened AuthSchedule
  import opened Exchange

  /** What the handler meets: the records as it looks, the clock as it checks,
      Cognito's answer, the clients as it looks up the name, whether the store
      answers each time, and the clock as it stores the record again. */
  datatype Encounter = Encounter(
    pending: map<string, PendingAuth>,
    popped: bool,
    checkedAt: int,
    login: Option<Login>,
    clients: map<string, Client>,
    listed: bool,
    put: bool,
    storedAt: int)

  predicate Named(m: Encounter) {
    m.login.Some? && m.login.value.subject != ""
  }

  /** The record is there and in time, Cognito names a user, and the store takes the
      record again. */
  predicate LogsIn(code: string, state: string, m: Encounter) {
    && code != "" && state != "" && m.popped && state in m.pending
    && m.checkedAt <= m.pending[state].expires && Named(m) && m.put
  }

  /** The name to show for the client: the one it registered, or else its id. */
  predicate ShownName(p: PendingAuth, m: Encounter, name: string) {
    if m.listed && p.clientID in m.clients && m.clients[p.clientID].name != "" then
      name == m.clients[p.clientID].name
    else name == p.clientID
  }

  /** q is the waiting record p with what Cognito said of the user, for fifteen
      minutes; the ciphertext is there exactly if Cognito gave a refresh token and
      it could be encrypted. */
  predicate Identified(w: World, p: PendingAuth, l: Login, m: Encounter, q: PendingAuth) {
    && q.clientID == p.clientID && q.redirectURI == p.redirectURI && q.codeChallenge == p.codeChallenge
    && q.originalState == p.originalState && q.scope == p.scope
    && q.subject == l.subject && q.email == l.email
    && q.orgs == (match l.orgs case Some(orgs) => orgs case None => [])
    && q.cognitoRefreshEnc == (if l.cognitoRefresh != "" && l.encrypted.Some? then l.encrypted.value else "")
    && ShownName(p, m, q.clientName) && q.expires == Stamp(w, m.storedAt + 900_000_000_000)
  }

  function RefusalOf(code: string, state: string, m: Encounter): OAuthError {
    if code == "" || state == "" || !m.popped || state !in m.pending || m.checkedAt > m.pending[state].expires then
      InvalidRequest
    else if !Named(m) then UpstreamError
    else ServerError
  }

  /** The answer: a consent screen with a random key if and only if the login succeeds, and
      then the record is stored under "consent:" and that key; else a failure. */
  ghost predicate BrowserGets(w: World, code: string, state: string, m: Encounter, r: Response, s: Sys) {
    && (r.ConsentShown? <==> LogsIn(code, state, m))
    && (LogsIn(code, state, m) ==>
          && IsDrawn(w, r.key) && "consent:" + r.key in s.pending
          && Identified(w, m.pending[state], m.login.value, m, s.pending["consent:" + r.key]))
    && (!LogsIn(code, state, m) ==> r == Failed(RefusalOf(code, state, m)))
  }

  // ----- The steps

  function Popped(pending: map<string, PendingAuth>, state: string, ok: bool): Flight {
    if ok && state in pending then CallbackCheck(pending[state]) else Done(Failed(InvalidRequest))
  }

  lemma PopsNext(s: Sys, tid: nat, state: string, io: IO)
    ensures ActCallbackPop(s, tid, state, io).next == Popped(s.pending, state, io.ok)
  {
  }

  lemma PopTurn(w: World, s: State, tid: nat, state: string, io: nat -> IO, env: nat -> seq<Event>, goal: State)
    returns (t: State)
    requires IsAt(s, tid, CallbackPop(state)) && Apart(tid, env) && goal == Serve(w, s, tid, io, env, 0)
    ensures t == Turn(w, s, tid, env(0), io(0)) && goal == Serve(w, t, tid, io, env, 1)
    ensures IsAt(t, tid, Popped(Run(w, s, env(0)).sys.pending, state, io(0).ok))
  {
    var u := Ticked(Run(w, s, env(0)).sys, io(0).tick);
    t := Turn(w, s, tid, env(0), io(0));
    PopsNext(u, tid, state, io(0));
    TurnGoes(w, s, tid, env(0), io(0), CallbackPop(state), ActCallbackPop(u, tid, state, io(0)));
    TurnTaken(w, s, t, tid, io, env, 0, goal);
  }

  lemma CheckTurn(w: World, s: State, tid: nat, p: PendingAuth, io: nat -> IO, env: nat -> seq<Event>, goal: State)
    returns (t: State)
    requires IsAt(s, tid, CallbackCheck(p)) && Apart(tid, env) && goal == Serve(w, s, tid, io, env, 1)
    ensures t == Turn(w, s, tid, env(1), io(1)) && goal == Serve(w, t, tid, io, env, 2)
    ensures IsAt(t, tid, if ClockAfter(w, s, env(1), io(1)) <= p.expires then CallbackLogin(p)
                         else Done(Failed(InvalidRequest)))
  {
    var u := Ticked(Run(w, s, env(1)).sys, io(1).tick);
    t := Turn(w, s, tid, env(1), io(1));
    TurnGoes(w, s, tid, env(1), io(1), CallbackCheck(p), ActCallbackCheck(u, tid, p));
    TurnTaken(w, s, t, tid, io, env, 1, goal);
  }

  /** q is p with the user of login l. */
  predicate WithUser(p: PendingAuth, l: Login, q: PendingAuth) {
    && q == p.(subject := q.subject, email := q.email, orgs := q.orgs, cognitoRefreshEnc := q.cognitoRefreshEnc)
    && q.subject == l.subject && q.email == l.email
    && q.orgs == (match l.orgs case Some(orgs) => orgs case None => [])
    && q.cognitoRefreshEnc == (if l.cognitoRefresh != "" && l.encrypted.Some? then l.encrypted.value else "")
  }

  predicate LoggedIn(p: PendingAuth, login: Option<Login>, f: Flight) {
    if login.Some? && login.value.subject != "" then f.CallbackName? && WithUser(p, login.value, f.p)
    else f == Done(Failed(UpstreamError))
  }

  lemma LogsInNext(tid: nat, p: PendingAuth, io: IO)
    ensures LoggedIn(p, io.login, ActCallbackLogin(tid, p, io).next)
  {
  }

  lemma LoginTurn(w: World, s: State, tid: nat, p: PendingAuth, io: nat -> IO, env: nat -> seq<Event>, goal: State)
    returns (t: State, f: Flight)
    requires IsAt(s, tid, CallbackLogin(p)) && Apart(tid, env) && goal == Serve(w, s, tid, io, env, 2)
    ensures t == Turn(w, s, tid, env(2), io(2)) && goal == Serve(w, t, tid, io, env, 3)
    ensures IsAt(t, tid, f) && LoggedIn(p, io(2).login, f)
  {
    t := Turn(w, s, tid, env(2), io(2));
    LogsInNext(tid, p, io(2));
    f := ActCallbackLogin(tid, p, io(2)).next;
    TurnGoes(w, s, tid, env(2), io(2), CallbackLogin(p), ActCallbackLogin(tid, p, io(2)));
    TurnTaken(w, s, t, tid, io, env, 2, goal);
  }

  predicate NameGiven(q: PendingAuth, clients: map<string, Client>, ok: bool, f: Flight) {
    && f.CallbackStash? && f.p == q.(clientName := f.p.clientName)
    && if ok && q.clientID in clients && clients[q.clientID].name != "" then
         f.p.clientName == clients[q.clientID].name
       else f.p.clientName == q.clientID
  }

  lemma NamesNext(s: Sys, f: Flight, io: IO)
    requires f.CallbackName?
    ensures NameGiven(f.p, s.clients, io.ok, ActCallbackName(s, f, io).next)
  {
  }

  lemma NameTurn(w: World, s: State, tid: nat, f: Flight, io: nat -> IO, env: nat -> seq<Event>, goal: State)
    returns (t: State, g: Flight)
    requires f.CallbackName? && IsAt(s, tid, f) && Apart(tid, env) && goal == Serve(w, s, tid, io, env, 3)
    ensures t == Turn(w, s, tid, env(3), io(3)) && goal == Serve(w, t, tid, io, env, 4)
    ensures IsAt(t, tid, g) && NameGiven(f.p, Run(w, s, env(3)).sys.clients, io(3).ok, g)
  {
    var u := Ticked(Run(w, s, env(3)).sys, io(3).tick);
    t := Turn(w, s, tid, env(3), io(3));
    NamesNext(u, f, io(3));
    g := ActCallbackName(u, f, io(3)).next;
    TurnGoes(w, s, tid, env(3), io(3), f, ActCallbackName(u, f, io(3)));
    TurnTaken(w, s, t, tid, io, env, 3, goal);
  }

  ghost predicate Shown(w: World, p: PendingAuth, ok: bool, r: Response, at: int, s: Sys) {
    if ok then
      && r.ConsentShown? && IsDrawn(w, r.key) && "consent:" + r.key in s.pending
      && s.pending["consent:" + r.key] == p.(expires := Stamp(w, at + 900_000_000_000))
    else r == Failed(ServerError)
  }

  lemma StashesNext(w: World, s: Sys, tid: nat, f: Flight, io: IO)
    requires f.CallbackStash?
    ensures var e := ActCallbackStash(w, s, tid, f, io);
            e.next.Done? && Shown(w, f.p, io.ok, e.next.response, s.now, Perform(s, tid, e).sys)
  {
  }

  lemma StashTurn(w: World, s: State, tid: nat, f: Flight, es: seq<Event>, io: IO)
    requires f.CallbackStash? && IsAt(s, tid, f) && AllForeign(es, tid)
    ensures var t := Turn(w, s, tid, es, io);
            && tid in t.sys.flights && t.sys.flights[tid].Done?
            && Shown(w, f.p, io.ok, t.sys.flights[tid].response, ClockAfter(w, s, es, io), t.sys)
  {
    var u := Ticked(Run(w, s, es).sys, io.tick);
    StashesNext(w, u, tid, f, io);
    TurnGoes(w, s, tid, es, io, f, ActCallbackStash(w, u, tid, f, io));
  }

  lemma LastTurn(w: World, s: State, tid: nat, f: Flight, io: nat -> IO, env: nat -> seq<Event>, goal: State)
    requires f.CallbackStash? && IsAt(s, tid, f) && Apart(tid, env) && goal == Serve(w, s, tid, io, env, 4)
    ensures tid in goal.sys.flights && goal.sys.flights[tid].Done?
    ensures Shown(w, f.p, io(4).ok, goal.sys.flights[tid].response, ClockAfter(w, s, env(4), io(4)), goal.sys)
  {
    var t := Turn(w, s, tid, env(4), io(4));
    StashTurn(w, s, tid, f, env(4), io(4));
    TurnTaken(w, s, t, tid, io, env, 4, goal);
    Answered(w, t, tid, io, env, 5, goal);
  }

  // ----- The steps together

  function TakenState(w: World, s: State, tid: nat, io: nat -> IO, env: nat -> seq<Event>): State {
    Turn(w, s, tid, env(0), io(0))
  }

  function CheckedState(w: World, s: State, tid: nat, io: nat -> IO, env: nat -> seq<Event>): State {
    Turn(w, TakenState(w, s, tid, io, env), tid, env(1), io(1))
  }

  function LoginState(w: World, s: State, tid: nat, io: nat -> IO, env: nat -> seq<Event>): State {
    Turn(w, CheckedState(w, s, tid, io, env), tid, env(2), io(2))
  }

  function NamedState(w: World, s: State, tid: nat, io: nat -> IO, env: nat -> seq<Event>): State {
    Turn(w, LoginState(w, s, tid, io, env), tid, env(3), io(3))
  }

  /** What the handler meets that has just come in, in state s. */
  function EncounterOf(w: World, s: State, tid: nat, io: nat -> IO, env: nat -> seq<Event>): Encounter {
    Encounter(Run(w, s, env(0)).sys.pending, io(0).ok,
              ClockAfter(w, TakenState(w, s, tid, io, env), env(1), io(1)), io(2).login,
              Run(w, LoginState(w, s, tid, io, env), env(3)).sys.clients, io(3).ok, io(4).ok,
              ClockAfter(w, NamedState(w, s, tid, io, env), env(4), io(4)))
  }

  ghost predicate FromName(w: World, q: PendingAuth, m: Encounter, s: Sys, tid: nat) {
    && tid in s.flights && s.flights[tid].Done?
    && exists g :: NameGiven(q, m.clients, m.listed, g) && Shown(w, g.p, m.put, s.flights[tid].response, m.storedAt, s)
  }

  lemma AfterLogin(w: World, s: State, tid: nat, f: Flight, io: nat -> IO, env: nat -> seq<Event>, goal: State,
                   m: Encounter)
    requires f.CallbackName? && IsAt(s, tid, f) && Apart(tid, env) && goal == Serve(w, s, tid, io, env, 3)
    requires m.clients == Run(w, s, env(3)).sys.clients && m.listed == io(3).ok && m.put == io(4).ok
    requires m.storedAt == ClockAfter(w, Turn(w, s, tid, env(3), io(3)), env(4), io(4))
    ensures FromName(w, f.p, m, goal.sys, tid)
  {
    var t, g := NameTurn(w, s, tid, f, io, env, goal);
    LastTurn(w, t, tid, g, io, env, goal);
  }

  ghost predicate FromLogin(w: World, p: PendingAuth, m: Encounter, s: Sys, tid: nat) {
    if Named(m) then exists q :: WithUser(p, m.login.value, q) && FromName(w, q, m, s, tid)
    else tid in s.flights && s.flights[tid] == Done(Failed(UpstreamError))
  }

  lemma AfterCheck(w: World, s: State, tid: nat, p: PendingAuth, io: nat -> IO, env: nat -> seq<Event>, goal: State,
                   m: Encounter)
    requires IsAt(s, tid, CallbackLogin(p)) && Apart(tid, env) && goal == Serve(w, s, tid, io, env, 2)
    requires m.login == io(2).login && m.listed == io(3).ok && m.put == io(4).ok
    requires m.clients == Run(w, Turn(w, s, tid, env(2), io(2)), env(3)).sys.clients
    requires var asked := Turn(w, s, tid, env(2), io(2));
             m.storedAt == ClockAfter(w, Turn(w, asked, tid, env(3), io(3)), env(4), io(4))
    ensures FromLogin(w, p, m, goal.sys, tid)
  {
    var t, f := LoginTurn(w, s, tid, p, io, env, goal);
    if Named(m) {
      AfterLogin(w, t, tid, f, io, env, goal, m);
    } else {
      Answered(w, t, tid, io, env, 3, goal);
    }
  }

  ghost predicate FromCheck(w: World, p: PendingAuth, m: Encounter, s: Sys, tid: nat) {
    if m.checkedAt <= p.expires then FromLogin(w, p, m, s, tid)
    else tid in s.flights && s.flights[tid] == Done(Failed(InvalidRequest))
  }

  lemma AfterPop(w: World, s: State, tid: nat, p: PendingAuth, io: nat -> IO, env: nat -> seq<Event>, goal: State,
                 m: Encounter)
    requires IsAt(s, tid, CallbackCheck(p)) && Apart(tid, env) && goal == Serve(w, s, tid, io, env, 1)
    requires m.checkedAt == ClockAfter(w, s, env(1), io(1))
    requires m.login == io(2).login && m.listed == io(3).ok && m.put == io(4).ok
    requires var asked := Turn(w, Turn(w, s, tid, env(1), io(1)), tid, env(2), io(2));
             && m.clients == Run(w, asked, env(3)).sys.clients
             && m.storedAt == ClockAfter(w, Turn(w, asked, tid, env(3), io(3)), env(4), io(4))
    ensures FromCheck(w, p, m, goal.sys, tid)
  {
    var t := CheckTurn(w, s, tid, p, io, env, goal);
    if m.checkedAt <= p.expires {
      AfterCheck(w, t, tid, p, io, env, goal, m);
    } else {
      Answered(w, t, tid, io, env, 2, goal);
    }
  }

  ghost predicate FromPop(w: World, state: string, m: Encounter, s: Sys, tid: nat) {
    if m.popped && state in m.pending then FromCheck(w, m.pending[state], m, s, tid)
    else tid in s.flights && s.flights[tid] == Done(Failed(InvalidRequest))
  }

  lemma AfterArrival(w: World, s: State, tid: nat, state: string, io: nat -> IO, env: nat -> seq<Event>, goal: State)
    requires IsAt(s, tid, CallbackPop(state)) && Apart(tid, env) && goal == Serve(w, s, tid, io, env, 0)
    ensures FromPop(w, state, EncounterOf(w, s, tid, io, env), goal.sys, tid)
  {
    var m := EncounterOf(w, s, tid, io, env);
    var t := PopTurn(w, s, tid, state, io, env, goal);
    if m.popped && state in m.pending {
      AfterPop(w, t, tid, m.pending[state], io, env, goal, m);
    } else {
      Answered(w, t, tid, io, env, 1, goal);
    }
  }

  lemma StepsAnswer(w: World, code: string, state: string, m: Encounter, s: Sys, tid: nat)
    requires code != "" && state != "" && FromPop(w, state, m, s, tid)
    ensures tid in s.flights && s.flights[tid].Done? && BrowserGets(w, code, state, m, s.flights[tid].response, s)
  {
    if m.popped && state in m.pending && m.checkedAt <= m.pending[state].expires && Named(m) {
      var q :| WithUser(m.pending[state], m.login.value, q) && FromName(w, q, m, s, tid);
      var g :| NameGiven(q, m.clients, m.listed, g) && Shown(w, g.p, m.put, s.flights[tid].response, m.storedAt, s);
    }
  }

  /** The whole callback. */
  lemma CallbackIsAnswered(w: World, s: State, tid: nat, code: string, state: string,
                           io: nat -> IO, env: nat -> seq<Event>)
    requires tid !in s.sys.flights && Apart(tid, env)
    ensures var entered := Step(w, s, Start(tid, CallbackRequest(code, state)));
            var t := Handled(w, s, tid, CallbackRequest(code, state), io, env).sys;
            && tid in t.flights && t.flights[tid].Done?
            && BrowserGets(w, code, state, EncounterOf(w, entered, tid, io, env), t.flights[tid].response, t)
  {
    var entered := Step(w, s, Start(tid, CallbackRequest(code, state)));
    var goal := Handled(w, s, tid, CallbackRequest(code, state), io, env);
    Enters(w, s, tid, CallbackRequest(code, state));
    if code == "" || state == "" {
      Answered(w, entered, tid, io, env, 0, goal);
    } else {
      AfterArrival(w, entered, tid, state, io, env, goal);
      StepsAnswer(w, code, state, EncounterOf(w, entered, tid, io, env), goal.sys, tid);
    }
  }
}
