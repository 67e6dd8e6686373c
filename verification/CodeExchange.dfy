/** What a client gets for a code: the whole exchange, whatever other requests do
    between its steps. */
module CodeExchange {
  import opened Basics
  import opened AuthRecords
  import opened Lineage
  import opened AuthSteps
  import opened AuthAudit
  import opened AuthSchedule
  import opened Exchange

  lemma CodeArrives(w: World, s: State, tid: nat, g: CodeGrant)
    requires tid !in s.sys.flights
    ensures IsAt(Step(w, s, Start(tid, CodeRequest(g))), tid, CodePop(g))
  {
    Goes(s.sys, tid, Quiet(CodePop(g)));
  }

  function Taken(codes: map<string, AuthCode>, g: CodeGrant, ok: bool): Flight {
    if ok && g.code in codes then CodeCheck(codes[g.code], g) else Done(Failed(InvalidGrant))
  }

  lemma TakesNext(s: Sys, tid: nat, g: CodeGrant, io: IO)
    ensures ActCodePop(s, tid, g, io).next == Taken(s.codes, g, io.ok)
  {
  }

  /** The first turn: the code is taken, or there is none. */
  lemma CodeIsTaken(w: World, s: State, tid: nat, g: CodeGrant, es: seq<Event>, io: IO)
    requires IsAt(s, tid, CodePop(g)) && AllForeign(es, tid)
    ensures IsAt(Turn(w, s, tid, es, io), tid, Taken(Run(w, s, es).sys.codes, g, io.ok))
  {
    var u := Ticked(Run(w, s, es).sys, io.tick);
    TakesNext(u, tid, g, io);
    TurnGoes(w, s, tid, es, io, CodePop(g), ActCodePop(u, tid, g, io));
  }

  /** The client may have tokens for code c at that time. */
  predicate Entitled(w: World, c: AuthCode, g: CodeGrant, now: int) {
    && now <= c.expires && g.clientID == c.clientID
    && (g.redirectURI == "" || g.redirectURI == c.redirectURI)
    && g.verifier != "" && w.challengeOf(g.verifier) == c.codeChallenge
  }

  lemma ChecksNext(w: World, s: Sys, tid: nat, c: AuthCode, g: CodeGrant)
    ensures ActCodeCheck(w, s, tid, c, g).next
            == if Entitled(w, c, g, s.now) then CodeSession(c) else Done(Failed(InvalidGrant))
  {
  }

  lemma CodeIsChecked(w: World, s: State, tid: nat, c: AuthCode, g: CodeGrant, es: seq<Event>, io: IO)
    requires IsAt(s, tid, CodeCheck(c, g)) && AllForeign(es, tid)
    ensures IsAt(Turn(w, s, tid, es, io), tid,
                 if Entitled(w, c, g, Run(w, s, es).sys.now + io.tick) then CodeSession(c)
                 else Done(Failed(InvalidGrant)))
  {
    var u := Ticked(Run(w, s, es).sys, io.tick);
    ChecksNext(w, u, tid, c, g);
    TurnGoes(w, s, tid, es, io, CodeCheck(c, g), ActCodeCheck(w, u, tid, c, g));
  }

  /** The session of an access token, as minted in s, for an hour. */
  predicate HasSession(w: World, access: string, subject: string, email: string, orgs: seq<string>, s: Sys) {
    && w.hash(access) in s.sessions
    && s.sessions[w.hash(access)] == Session(subject, email, orgs, s.now, s.now + 3_600_000_000_000)
  }

  /** The access token: if the store answers, its session is stored for the user of
      the code. */
  lemma SessionIsMinted(w: World, s: State, tid: nat, c: AuthCode, es: seq<Event>, io: IO) returns (access: string)
    requires IsAt(s, tid, CodeSession(c)) && AllForeign(es, tid)
    ensures var t := Turn(w, s, tid, es, io);
            && IsAt(t, tid, CodeIssue(c, access))
            && (io.ok ==> HasSession(w, access, c.subject, c.email, c.orgs, t.sys))
  {
    var u := Ticked(Run(w, s, es).sys, io.tick);
    TurnGoes(w, s, tid, es, io, CodeSession(c), ActCodeSession(w, u, tid, c, io));
    access := w.coin(u.drawn);
  }

  /** Tokens for code c, as s has them: a refresh token if and only if the login
      left a ciphertext and the store answers, for the client and the user of the
      code and thirty days from now. */
  predicate IssuedFor(w: World, c: AuthCode, ok: bool, r: Response, s: Sys) {
    && r.Tokens? && r.scope == c.scope && (r.refresh.Some? <==> c.cognitoRefreshEnc != "" && ok)
    && (r.refresh.Some? ==>
          && w.hash(r.refresh.value) in s.refresh
          && s.refresh[w.hash(r.refresh.value)]
             == RefreshToken(w.hash(r.refresh.value), c.clientID, c.scope, c.subject, c.email, c.orgs,
                             c.cognitoRefreshEnc, Stamp(w, s.now + 2_592_000_000_000_000)))
  }

  lemma RefreshIsIssued(w: World, s: State, tid: nat, c: AuthCode, access: string, es: seq<Event>, io: IO)
    requires IsAt(s, tid, CodeIssue(c, access)) && AllForeign(es, tid)
    ensures var t := Turn(w, s, tid, es, io);
            && tid in t.sys.flights && t.sys.flights[tid].Done?
            && IssuedFor(w, c, io.ok, t.sys.flights[tid].response, t.sys)
            && t.sys.flights[tid].response.access == access
  {
    var u := Ticked(Run(w, s, es).sys, io.tick);
    TurnGoes(w, s, tid, es, io, CodeIssue(c, access), ActCodeIssue(w, u, tid, c, access, io));
  }

  // ----- The turns together

  /** The services' answers that matter here: whether the store answers when the
      code is taken, the session stored, the refresh token stored. */
  datatype Answers = Answers(taken: bool, minted: bool, issued: bool)

  function AnswersOf(io: nat -> IO): Answers {
    Answers(io(0).ok, io(2).ok, io(3).ok)
  }

  /** What the client is answered, when these codes were stored as the handler
      looked, it checked at that time, minted is the state after its third turn
      and s the one after its last. */
  predicate ClientGets(w: World, codes: map<string, AuthCode>, g: CodeGrant, ok: Answers, now: int,
                       minted: Sys, s: Sys, tid: nat) {
    && tid in s.flights && s.flights[tid].Done?
    && var r := s.flights[tid].response;
    if ok.taken && g.code in codes && Entitled(w, codes[g.code], g, now)
    then SessionAndTokens(w, codes[g.code], ok, r, minted, s)
    else r == Failed(InvalidGrant)
  }

  predicate SessionAndTokens(w: World, c: AuthCode, ok: Answers, r: Response, minted: Sys, s: Sys) {
    && IssuedFor(w, c, ok.issued, r, s)
    && (ok.minted ==> HasSession(w, r.access, c.subject, c.email, c.orgs, minted))
  }

  lemma FirstTurn(w: World, s: State, tid: nat, g: CodeGrant, io: nat -> IO, env: nat -> seq<Event>, goal: State)
    returns (t: State)
    requires IsAt(s, tid, CodePop(g)) && Apart(tid, env) && goal == Serve(w, s, tid, io, env, 0)
    ensures t == Turn(w, s, tid, env(0), io(0)) && goal == Serve(w, t, tid, io, env, 1)
    ensures IsAt(t, tid, Taken(Run(w, s, env(0)).sys.codes, g, io(0).ok))
  {
    t := Turn(w, s, tid, env(0), io(0));
    CodeIsTaken(w, s, tid, g, env(0), io(0));
    TurnTaken(w, s, t, tid, io, env, 0, goal);
  }

  lemma SecondTurn(w: World, s: State, tid: nat, c: AuthCode, g: CodeGrant, io: nat -> IO, env: nat -> seq<Event>,
                   goal: State) returns (t: State)
    requires IsAt(s, tid, CodeCheck(c, g)) && Apart(tid, env) && goal == Serve(w, s, tid, io, env, 1)
    ensures t == Turn(w, s, tid, env(1), io(1)) && goal == Serve(w, t, tid, io, env, 2)
    ensures IsAt(t, tid, if Entitled(w, c, g, ClockAfter(w, s, env(1), io(1))) then CodeSession(c)
                         else Done(Failed(InvalidGrant)))
  {
    t := Turn(w, s, tid, env(1), io(1));
    CodeIsChecked(w, s, tid, c, g, env(1), io(1));
    TurnTaken(w, s, t, tid, io, env, 1, goal);
  }

  lemma ThirdTurn(w: World, s: State, tid: nat, c: AuthCode, io: nat -> IO, env: nat -> seq<Event>, goal: State)
    returns (t: State, access: string)
    requires IsAt(s, tid, CodeSession(c)) && Apart(tid, env) && goal == Serve(w, s, tid, io, env, 2)
    ensures t == Turn(w, s, tid, env(2), io(2)) && goal == Serve(w, t, tid, io, env, 3)
    ensures IsAt(t, tid, CodeIssue(c, access))
    ensures io(2).ok ==> HasSession(w, access, c.subject, c.email, c.orgs, t.sys)
  {
    t := Turn(w, s, tid, env(2), io(2));
    access := SessionIsMinted(w, s, tid, c, env(2), io(2));
    TurnTaken(w, s, t, tid, io, env, 2, goal);
  }

  lemma LastTurn(w: World, s: State, tid: nat, c: AuthCode, access: string, io: nat -> IO, env: nat -> seq<Event>,
                 goal: State)
    requires IsAt(s, tid, CodeIssue(c, access)) && Apart(tid, env) && goal == Serve(w, s, tid, io, env, 3)
    ensures tid in goal.sys.flights && goal.sys.flights[tid].Done?
    ensures IssuedFor(w, c, io(3).ok, goal.sys.flights[tid].response, goal.sys)
    ensures goal.sys.flights[tid].response.access == access
  {
    var issued := Turn(w, s, tid, env(3), io(3));
    RefreshIsIssued(w, s, tid, c, access, env(3), io(3));
    TurnTaken(w, s, issued, tid, io, env, 3, goal);
    Answered(w, issued, tid, io, env, 4, goal);
  }

  lemma LastTurns(w: World, s: State, tid: nat, c: AuthCode, io: nat -> IO, env: nat -> seq<Event>, goal: State)
    requires IsAt(s, tid, CodeSession(c)) && Apart(tid, env) && goal == Serve(w, s, tid, io, env, 2)
    ensures tid in goal.sys.flights && goal.sys.flights[tid].Done?
    ensures SessionAndTokens(w, c, AnswersOf(io), goal.sys.flights[tid].response,
                             Turn(w, s, tid, env(2), io(2)).sys, goal.sys)
  {
    var minted, access := ThirdTurn(w, s, tid, c, io, env, goal);
    LastTurn(w, minted, tid, c, access, io, env, goal);
  }

  /** The state in which the session has just been minted, if the handler gets
      there; s is the one in which the code has been taken. */
  function MintedState(w: World, s: State, tid: nat, io: nat -> IO, env: nat -> seq<Event>): State {
    Turn(w, Turn(w, s, tid, env(1), io(1)), tid, env(2), io(2))
  }

  lemma AfterTaking(w: World, s: State, tid: nat, codes: map<string, AuthCode>, g: CodeGrant, io: nat -> IO,
                    env: nat -> seq<Event>, goal: State)
    requires Apart(tid, env) && goal == Serve(w, s, tid, io, env, 1)
    requires IsAt(s, tid, Taken(codes, g, io(0).ok))
    ensures ClientGets(w, codes, g, AnswersOf(io), ClockAfter(w, s, env(1), io(1)),
                       MintedState(w, s, tid, io, env).sys, goal.sys, tid)
  {
    if !io(0).ok || g.code !in codes {
      Answered(w, s, tid, io, env, 1, goal);
    } else {
      var c := codes[g.code];
      var checked := SecondTurn(w, s, tid, c, g, io, env, goal);
      if Entitled(w, c, g, ClockAfter(w, s, env(1), io(1))) {
        LastTurns(w, checked, tid, c, io, env, goal);
      } else {
        Answered(w, checked, tid, io, env, 2, goal);
      }
    }
  }

  lemma AfterEntering(w: World, s: State, tid: nat, g: CodeGrant, io: nat -> IO, env: nat -> seq<Event>, goal: State)
    requires IsAt(s, tid, CodePop(g)) && Apart(tid, env) && goal == Serve(w, s, tid, io, env, 0)
    ensures var taken := Turn(w, s, tid, env(0), io(0));
            ClientGets(w, Run(w, s, env(0)).sys.codes, g, AnswersOf(io), ClockAfter(w, taken, env(1), io(1)),
                       MintedState(w, taken, tid, io, env).sys, goal.sys, tid)
  {
    var taken := FirstTurn(w, s, tid, g, io, env, goal);
    AfterTaking(w, taken, tid, Run(w, s, env(0)).sys.codes, g, io, env, goal);
  }

  /** The whole exchange, with anybody else acting before each step and whatever the
      store answers. The code is the one stored when the handler looks; the client
      gets tokens if and only if the store gives it out and the client is entitled
      when the handler checks. The access token's session is stored, and there is a
      refresh token for thirty days exactly if the login left a ciphertext, as far
      as the store answers. */
  lemma ExchangeSucceedsIffEntitled(w: World, s: State, tid: nat, g: CodeGrant, io: nat -> IO, env: nat -> seq<Event>)
    requires tid !in s.sys.flights && Apart(tid, env)
    ensures var entered := Step(w, s, Start(tid, CodeRequest(g)));
            var taken := Turn(w, entered, tid, env(0), io(0));
            ClientGets(w, Run(w, entered, env(0)).sys.codes, g, AnswersOf(io), ClockAfter(w, taken, env(1), io(1)),
                       MintedState(w, taken, tid, io, env).sys,
                       Handled(w, s, tid, CodeRequest(g), io, env).sys, tid)
  {
    CodeArrives(w, s, tid, g);
    AfterEntering(w, Step(w, s, Start(tid, CodeRequest(g))), tid, g, io, env,
                  Handled(w, s, tid, CodeRequest(g), io, env));
  }
}
