/** What the user's POST is answered: the whole consent, whatever other requests
    do between its steps and whatever the store answers. */
module ConsentExchange {
  import opened Basics
  import opened AuthRecords
  import opened AuthSteps
  import opened AuthAudit
  import opened AuthSchedule
  import opened Exchange

  /** What the handler meets: the records as it looks, the clock as it checks, the
      clients as it checks again, whether the store answers each time, and the
      clock as it makes the code. */
  datatype Encounter = Encounter(
    pending: map<string, PendingAuth>,
    popped: bool,
    checkedAt: int,
    clients: map<string, Client>,
    listed: bool,
    put: bool,
    madeAt: int)

  /** The client may still be sent an answer. */
  predicate StillRegistered(p: PendingAuth, m: Encounter) {
    m.listed && p.clientID in m.clients && p.redirectURI in m.clients[p.clientID].redirectURIs
  }

  /** The record is there, in time, and its client still has that redirect URI. */
  predicate Open(key: string, m: Encounter) {
    && m.popped && "consent:" + key in m.pending
    && var p := m.pending["consent:" + key];
       m.checkedAt <= p.expires && StillRegistered(p, m)
  }

  /** The code that answer announces is stored, with what the record says, for a
      minute. */
  predicate CodeStored(w: World, code: string, p: PendingAuth, at: int, s: Sys) {
    && code in s.codes
    && s.codes[code] == AuthCode(code, p.clientID, p.redirectURI, p.codeChallenge, p.scope, p.subject, p.email, p.orgs,
                                 p.cognitoRefreshEnc, Stamp(w, at + 60_000_000_000))
  }

  /** Why the user gets no redirect. */
  function RefusalOf(key: string, m: Encounter): OAuthError {
    if key == "" then InvalidRequest
    else if !m.popped || "consent:" + key !in m.pending then ConsentAlreadyUsed
    else if m.checkedAt > m.pending["consent:" + key].expires then OAuthError.ConsentExpired
    else if !StillRegistered(m.pending["consent:" + key], m) then InvalidRedirectUri
    else ServerError
  }

  /** The answer: back to the client with a code and its state if and only if the
      POST approves an open record and the code can be stored; back with
      access_denied and its state if and only if it does not approve an open
      record; else a failure. */
  predicate UserGets(w: World, key: string, action: string, m: Encounter, r: Response, s: Sys) {
    var granted, denied := Open(key, m) && action == "approve" && m.put, Open(key, m) && action != "approve";
    && (key != "" && granted ==>
          var p := m.pending["consent:" + key];
          && r.Redirected? && r.clientID == p.clientID && r.uri == p.redirectURI
          && r.params.CodeGranted? && r.params.state == p.originalState
          && CodeStored(w, r.params.code, p, m.madeAt, s))
    && (key != "" && denied ==>
          var p := m.pending["consent:" + key];
          r == Redirected(p.clientID, p.redirectURI, AccessDenied(p.originalState)))
    && (key == "" || (!granted && !denied) ==> r == Failed(RefusalOf(key, m)))
    && (r.Redirected? && r.params.CodeGranted? <==> key != "" && granted)
    && (r.Redirected? && r.params.AccessDenied? <==> key != "" && denied)
  }

  // ----- The steps

  function Popped(pending: map<string, PendingAuth>, key: string, action: string, ok: bool): Flight {
    if ok && "consent:" + key in pending then ConsentCheck(pending["consent:" + key], action == "approve")
    else Done(Failed(ConsentAlreadyUsed))
  }

  lemma PopsNext(s: Sys, tid: nat, key: string, action: string, io: IO)
    ensures ActConsentPop(s, tid, ConsentPop(key, action == "approve"), io).next
            == Popped(s.pending, key, action, io.ok)
  {
  }

  lemma PopTurn(w: World, s: State, tid: nat, key: string, action: string, io: nat -> IO, env: nat -> seq<Event>,
                goal: State) returns (t: State)
    requires IsAt(s, tid, ConsentPop(key, action == "approve")) && Apart(tid, env)
    requires goal == Serve(w, s, tid, io, env, 0)
    ensures t == Turn(w, s, tid, env(0), io(0)) && goal == Serve(w, t, tid, io, env, 1)
    ensures IsAt(t, tid, Popped(Run(w, s, env(0)).sys.pending, key, action, io(0).ok))
  {
    var u, f := Ticked(Run(w, s, env(0)).sys, io(0).tick), ConsentPop(key, action == "approve");
    t := Turn(w, s, tid, env(0), io(0));
    PopsNext(u, tid, key, action, io(0));
    TurnGoes(w, s, tid, env(0), io(0), f, ActConsentPop(u, tid, f, io(0)));
    TurnTaken(w, s, t, tid, io, env, 0, goal);
  }

  lemma CheckTurn(w: World, s: State, tid: nat, f: Flight, io: nat -> IO, env: nat -> seq<Event>, goal: State)
    returns (t: State)
    requires f.ConsentCheck? && IsAt(s, tid, f) && Apart(tid, env) && goal == Serve(w, s, tid, io, env, 1)
    ensures t == Turn(w, s, tid, env(1), io(1)) && goal == Serve(w, t, tid, io, env, 2)
    ensures IsAt(t, tid, if ClockAfter(w, s, env(1), io(1)) <= f.p.expires then ConsentLookup(f.p, f.approve)
                         else Done(Failed(OAuthError.ConsentExpired)))
  {
    var u := Ticked(Run(w, s, env(1)).sys, io(1).tick);
    t := Turn(w, s, tid, env(1), io(1));
    TurnGoes(w, s, tid, env(1), io(1), f, ActConsentCheck(u, tid, f));
    TurnTaken(w, s, t, tid, io, env, 1, goal);
  }

  function Decided(p: PendingAuth, approve: bool, clients: map<string, Client>, ok: bool): Flight {
    if !ok || p.clientID !in clients || p.redirectURI !in clients[p.clientID].redirectURIs then
      Done(Failed(InvalidRedirectUri))
    else if approve then ConsentMint(p)
    else Done(Redirected(p.clientID, p.redirectURI, AccessDenied(p.originalState)))
  }

  lemma DecidesNext(s: Sys, tid: nat, p: PendingAuth, approve: bool, io: IO)
    ensures ActConsentLookup(s, tid, ConsentLookup(p, approve), io).next == Decided(p, approve, s.clients, io.ok)
  {
  }

  lemma DecideTurn(w: World, s: State, tid: nat, p: PendingAuth, approve: bool, io: nat -> IO, env: nat -> seq<Event>,
                   goal: State) returns (t: State)
    requires IsAt(s, tid, ConsentLookup(p, approve)) && Apart(tid, env) && goal == Serve(w, s, tid, io, env, 2)
    ensures goal == Serve(w, t, tid, io, env, 3) && t == Turn(w, s, tid, env(2), io(2))
    ensures IsAt(t, tid, Decided(p, approve, Run(w, s, env(2)).sys.clients, io(2).ok))
  {
    var u, f := Ticked(Run(w, s, env(2)).sys, io(2).tick), ConsentLookup(p, approve);
    t := Turn(w, s, tid, env(2), io(2));
    DecidesNext(u, tid, p, approve, io(2));
    TurnGoes(w, s, tid, env(2), io(2), f, ActConsentLookup(u, tid, f, io(2)));
    TurnTaken(w, s, t, tid, io, env, 2, goal);
  }

  /** The answer of the last step, as s has the codes. */
  predicate Minted(w: World, p: PendingAuth, ok: bool, r: Response, at: int, s: Sys) {
    if ok then
      && r.Redirected? && r.clientID == p.clientID && r.uri == p.redirectURI
      && r.params.CodeGranted? && r.params.state == p.originalState && CodeStored(w, r.params.code, p, at, s)
    else r == Failed(ServerError)
  }

  lemma MintsNext(w: World, s: Sys, tid: nat, p: PendingAuth, io: IO)
    ensures var e := ActConsentMint(w, s, tid, p, io);
            e.next.Done? && Minted(w, p, io.ok, e.next.response, s.now, Perform(s, tid, e).sys)
  {
  }

  lemma MintTurn(w: World, s: State, tid: nat, p: PendingAuth, es: seq<Event>, io: IO)
    requires IsAt(s, tid, ConsentMint(p)) && AllForeign(es, tid)
    ensures var t := Turn(w, s, tid, es, io);
            && tid in t.sys.flights && t.sys.flights[tid].Done?
            && Minted(w, p, io.ok, t.sys.flights[tid].response, ClockAfter(w, s, es, io), t.sys)
  {
    var u := Ticked(Run(w, s, es).sys, io.tick);
    MintsNext(w, u, tid, p, io);
    TurnGoes(w, s, tid, es, io, ConsentMint(p), ActConsentMint(w, u, tid, p, io));
  }

  lemma LastTurn(w: World, s: State, tid: nat, p: PendingAuth, io: nat -> IO, env: nat -> seq<Event>, goal: State)
    requires IsAt(s, tid, ConsentMint(p)) && Apart(tid, env) && goal == Serve(w, s, tid, io, env, 3)
    ensures tid in goal.sys.flights && goal.sys.flights[tid].Done?
    ensures Minted(w, p, io(3).ok, goal.sys.flights[tid].response, ClockAfter(w, s, env(3), io(3)), goal.sys)
  {
    var t := Turn(w, s, tid, env(3), io(3));
    MintTurn(w, s, tid, p, env(3), io(3));
    TurnTaken(w, s, t, tid, io, env, 3, goal);
    Answered(w, t, tid, io, env, 4, goal);
  }

  // ----- The steps together

  function TakenState(w: World, s: State, tid: nat, io: nat -> IO, env: nat -> seq<Event>): State {
    Turn(w, s, tid, env(0), io(0))
  }

  function CheckedState(w: World, s: State, tid: nat, io: nat -> IO, env: nat -> seq<Event>): State {
    Turn(w, TakenState(w, s, tid, io, env), tid, env(1), io(1))
  }

  function DecidedState(w: World, s: State, tid: nat, io: nat -> IO, env: nat -> seq<Event>): State {
    Turn(w, CheckedState(w, s, tid, io, env), tid, env(2), io(2))
  }

  /** What the handler meets that has just come in, in state s. */
  function EncounterOf(w: World, s: State, tid: nat, io: nat -> IO, env: nat -> seq<Event>): Encounter {
    Encounter(Run(w, s, env(0)).sys.pending, io(0).ok,
              ClockAfter(w, TakenState(w, s, tid, io, env), env(1), io(1)),
              Run(w, CheckedState(w, s, tid, io, env), env(2)).sys.clients, io(2).ok, io(3).ok,
              ClockAfter(w, DecidedState(w, s, tid, io, env), env(3), io(3)))
  }

  predicate FromLookup(w: World, p: PendingAuth, approve: bool, m: Encounter, s: Sys, tid: nat) {
    && tid in s.flights && s.flights[tid].Done?
    && var r := s.flights[tid].response;
    if !StillRegistered(p, m) then r == Failed(InvalidRedirectUri)
    else if approve then Minted(w, p, m.put, r, m.madeAt, s)
    else r == Redirected(p.clientID, p.redirectURI, AccessDenied(p.originalState))
  }

  lemma AfterCheck(w: World, s: State, tid: nat, p: PendingAuth, approve: bool, io: nat -> IO, env: nat -> seq<Event>,
                   goal: State, m: Encounter)
    requires IsAt(s, tid, ConsentLookup(p, approve)) && Apart(tid, env) && goal == Serve(w, s, tid, io, env, 2)
    requires m.clients == Run(w, s, env(2)).sys.clients && m.listed == io(2).ok && m.put == io(3).ok
    requires m.madeAt == ClockAfter(w, Turn(w, s, tid, env(2), io(2)), env(3), io(3))
    ensures FromLookup(w, p, approve, m, goal.sys, tid)
  {
    var t := DecideTurn(w, s, tid, p, approve, io, env, goal);
    if StillRegistered(p, m) && approve {
      LastTurn(w, t, tid, p, io, env, goal);
    } else {
      Answered(w, t, tid, io, env, 3, goal);
    }
  }

  predicate FromCheck(w: World, p: PendingAuth, approve: bool, m: Encounter, s: Sys, tid: nat) {
    if m.checkedAt <= p.expires then FromLookup(w, p, approve, m, s, tid)
    else tid in s.flights && s.flights[tid] == Done(Failed(OAuthError.ConsentExpired))
  }

  lemma AfterPop(w: World, s: State, tid: nat, p: PendingAuth, approve: bool, io: nat -> IO, env: nat -> seq<Event>,
                 goal: State, m: Encounter)
    requires IsAt(s, tid, ConsentCheck(p, approve)) && Apart(tid, env) && goal == Serve(w, s, tid, io, env, 1)
    requires m.checkedAt == ClockAfter(w, s, env(1), io(1)) && m.listed == io(2).ok && m.put == io(3).ok
    requires m.clients == Run(w, Turn(w, s, tid, env(1), io(1)), env(2)).sys.clients
    requires var checked := Turn(w, s, tid, env(1), io(1));
             m.madeAt == ClockAfter(w, Turn(w, checked, tid, env(2), io(2)), env(3), io(3))
    ensures FromCheck(w, p, approve, m, goal.sys, tid)
  {
    var t := CheckTurn(w, s, tid, ConsentCheck(p, approve), io, env, goal);
    if m.checkedAt <= p.expires {
      AfterCheck(w, t, tid, p, approve, io, env, goal, m);
    } else {
      Answered(w, t, tid, io, env, 2, goal);
    }
  }

  predicate FromPop(w: World, key: string, action: string, m: Encounter, s: Sys, tid: nat) {
    if m.popped && "consent:" + key in m.pending then
      FromCheck(w, m.pending["consent:" + key], action == "approve", m, s, tid)
    else tid in s.flights && s.flights[tid] == Done(Failed(ConsentAlreadyUsed))
  }

  lemma AfterArrival(w: World, s: State, tid: nat, key: string, action: string, io: nat -> IO, env: nat -> seq<Event>,
                     goal: State)
    requires IsAt(s, tid, ConsentPop(key, action == "approve")) && Apart(tid, env)
    requires goal == Serve(w, s, tid, io, env, 0)
    ensures FromPop(w, key, action, EncounterOf(w, s, tid, io, env), goal.sys, tid)
  {
    var m := EncounterOf(w, s, tid, io, env);
    var t := PopTurn(w, s, tid, key, action, io, env, goal);
    if m.popped && "consent:" + key in m.pending {
      AfterPop(w, t, tid, m.pending["consent:" + key], action == "approve", io, env, goal, m);
    } else {
      Answered(w, t, tid, io, env, 1, goal);
    }
  }

  lemma StepsAnswer(w: World, key: string, action: string, m: Encounter, s: Sys, tid: nat)
    requires key != "" && FromPop(w, key, action, m, s, tid)
    ensures tid in s.flights && s.flights[tid].Done? && UserGets(w, key, action, m, s.flights[tid].response, s)
  {
  }

  /** The whole consent. */
  lemma ConsentIsAnswered(w: World, s: State, tid: nat, key: string, action: string,
                          io: nat -> IO, env: nat -> seq<Event>)
    requires tid !in s.sys.flights && Apart(tid, env)
    ensures var entered := Step(w, s, Start(tid, ConsentRequest(key, action)));
            var t := Handled(w, s, tid, ConsentRequest(key, action), io, env).sys;
            && tid in t.flights && t.flights[tid].Done?
            && UserGets(w, key, action, EncounterOf(w, entered, tid, io, env), t.flights[tid].response, t)
  {
    var entered := Step(w, s, Start(tid, ConsentRequest(key, action)));
    var goal := Handled(w, s, tid, ConsentRequest(key, action), io, env);
    Enters(w, s, tid, ConsentRequest(key, action));
    if key == "" {
      Answered(w, entered, tid, io, env, 0, goal);
    } else {
      AfterArrival(w, entered, tid, key, action, io, env, goal);
      StepsAnswer(w, key, action, EncounterOf(w, entered, tid, io, env), goal.sys, tid);
    }
  }
}
