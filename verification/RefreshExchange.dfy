/** What a client gets for a refresh token: the whole rotation, whatever other
    requests do between its steps. */
module RefreshExchange {
  import opened Basics
  import opened AuthRecords
  import opened Lineage
  import opened AuthSteps
  import opened AuthAudit
  import opened AuthSchedule
  import opened Exchange
  import opened CodeExchange

  lemma RefreshArrives(w: World, s: State, tid: nat, presented: string, clientID: string)
    requires tid !in s.sys.flights && presented != ""
    ensures IsAt(Step(w, s, Start(tid, RefreshRequest(presented, clientID))), tid, RefreshPop(presented, clientID))
  {
    Goes(s.sys, tid, Quiet(RefreshPop(presented, clientID)));
  }

  function Popped(tokens: map<string, RefreshToken>, key: string, clientID: string, ok: bool): Flight {
    if ok && key in tokens then RefreshCheck(tokens[key], clientID) else Done(Failed(InvalidGrant))
  }

  lemma PopsNext(w: World, s: Sys, tid: nat, f: Flight, io: IO)
    requires f.RefreshPop?
    ensures ActRefreshPop(w, s, tid, f, io).next == Popped(s.refresh, w.hash(f.presented), f.clientID, io.ok)
  {
  }

  lemma TokenIsTaken(w: World, s: State, tid: nat, f: Flight, es: seq<Event>, io: IO)
    requires f.RefreshPop? && IsAt(s, tid, f) && AllForeign(es, tid)
    ensures IsAt(Turn(w, s, tid, es, io), tid,
                 Popped(Run(w, s, es).sys.refresh, w.hash(f.presented), f.clientID, io.ok))
  {
    var u := Ticked(Run(w, s, es).sys, io.tick);
    PopsNext(w, u, tid, f, io);
    TurnGoes(w, s, tid, es, io, f, ActRefreshPop(w, u, tid, f, io));
  }

  /** The client may refresh with token rt at that time. */
  predicate MayRefresh(rt: RefreshToken, clientID: string, now: int) {
    now <= rt.expires && (clientID == "" || clientID == rt.clientID)
  }

  lemma TokenIsChecked(w: World, s: State, tid: nat, rt: RefreshToken, clientID: string, es: seq<Event>, io: IO)
    requires IsAt(s, tid, RefreshCheck(rt, clientID)) && AllForeign(es, tid)
    ensures IsAt(Turn(w, s, tid, es, io), tid,
                 if MayRefresh(rt, clientID, ClockAfter(w, s, es, io)) then RefreshReauth(rt)
                 else Done(Failed(InvalidGrant)))
  {
    var u := Ticked(Run(w, s, es).sys, io.tick);
    TurnGoes(w, s, tid, es, io, RefreshCheck(rt, clientID), ActRefreshCheck(u, tid, rt, clientID));
  }

  /** Whom Cognito vouches for, if it accepts the ciphertext of rt. */
  function Vouched(rt: RefreshToken, r: Reauth): Option<(string, string, seq<string>)> {
    match r
    case CognitoAccepted(subject, email, orgs) =>
      if subject == "" then None
      else Some((subject, if email == "" then rt.email else email, orgs.GetOr(rt.orgs)))
    case _ => None
  }

  lemma CognitoIsAsked(w: World, s: State, tid: nat, rt: RefreshToken, es: seq<Event>, io: IO)
    requires IsAt(s, tid, RefreshReauth(rt)) && AllForeign(es, tid)
    ensures IsAt(Turn(w, s, tid, es, io), tid,
                 match Vouched(rt, io.reauth)
                 case Some(x) => RefreshSession(rt, x.0, x.1, x.2)
                 case None => Done(Failed(InvalidGrant)))
  {
    TurnGoes(w, s, tid, es, io, RefreshReauth(rt), ActRefreshReauth(tid, rt, io));
  }

  lemma SessionIsRenewed(w: World, s: State, tid: nat, f: Flight, es: seq<Event>, io: IO) returns (access: string)
    requires f.RefreshSession? && IsAt(s, tid, f) && AllForeign(es, tid)
    ensures var t := Turn(w, s, tid, es, io);
            && IsAt(t, tid, RefreshRotate(f.rt, f.subject, f.email, f.orgs, access))
            && (io.ok ==> HasSession(w, access, f.subject, f.email, f.orgs, t.sys))
  {
    var u := Ticked(Run(w, s, es).sys, io.tick);
    TurnGoes(w, s, tid, es, io, f, ActRefreshSession(w, u, tid, f, io));
    access := w.coin(u.drawn);
  }

  /** New tokens in place of rt, for this user, as s has them: if the store answers,
      a successor with the same client, scope, ciphertext and deadline. */
  predicate RotatedFor(w: World, rt: RefreshToken, who: (string, string, seq<string>), ok: bool, r: Response, s: Sys) {
    && r.Tokens? && r.scope == rt.scope && (r.refresh.Some? <==> ok)
    && (r.refresh.Some? ==>
          && w.hash(r.refresh.value) in s.refresh
          && s.refresh[w.hash(r.refresh.value)]
             == RefreshToken(w.hash(r.refresh.value), rt.clientID, rt.scope, who.0, who.1, who.2,
                             rt.cognitoRefreshEnc, Stamp(w, rt.expires)))
  }

  lemma TokenIsRotated(w: World, s: State, tid: nat, f: Flight, es: seq<Event>, io: IO)
    requires f.RefreshRotate? && IsAt(s, tid, f) && AllForeign(es, tid)
    ensures var t := Turn(w, s, tid, es, io);
            && tid in t.sys.flights && t.sys.flights[tid].Done?
            && RotatedFor(w, f.rt, (f.subject, f.email, f.orgs), io.ok, t.sys.flights[tid].response, t.sys)
            && t.sys.flights[tid].response.access == f.access
  {
    var u := Ticked(Run(w, s, es).sys, io.tick);
    TurnGoes(w, s, tid, es, io, f, ActRefreshRotate(w, u, tid, f, io));
  }

  // ----- The turns together

  /** The services' answers that matter here: whether the store answers when the
      token is taken, the session stored, the successor stored; and Cognito's. */
  datatype RefreshAnswers = RefreshAnswers(taken: bool, reauth: Reauth, minted: bool, issued: bool)

  function RefreshAnswersOf(io: nat -> IO): RefreshAnswers {
    RefreshAnswers(io(0).ok, io(2).reauth, io(3).ok, io(4).ok)
  }

  predicate SessionAndSuccessor(w: World, rt: RefreshToken, who: (string, string, seq<string>), ok: RefreshAnswers,
                                r: Response, minted: Sys, s: Sys) {
    && RotatedFor(w, rt, who, ok.issued, r, s)
    && (ok.minted ==> HasSession(w, r.access, who.0, who.1, who.2, minted))
  }

  /** What the client is answered, when these tokens were stored as the handler
      looked, it checked at that time, minted is the state after its fourth turn
      and s the one after its last. */
  predicate ClientGetsNew(w: World, tokens: map<string, RefreshToken>, presented: string, clientID: string,
                          ok: RefreshAnswers, now: int, minted: Sys, s: Sys, tid: nat) {
    && tid in s.flights && s.flights[tid].Done?
    && var key, r := w.hash(presented), s.flights[tid].response;
    if ok.taken && key in tokens && MayRefresh(tokens[key], clientID, now) && Vouched(tokens[key], ok.reauth).Some?
    then SessionAndSuccessor(w, tokens[key], Vouched(tokens[key], ok.reauth).value, ok, r, minted, s)
    else r == Failed(InvalidGrant)
  }

  lemma TakeTurn(w: World, s: State, tid: nat, f: Flight, io: nat -> IO, env: nat -> seq<Event>, goal: State)
    returns (t: State)
    requires f.RefreshPop? && IsAt(s, tid, f) && Apart(tid, env) && goal == Serve(w, s, tid, io, env, 0)
    ensures t == Turn(w, s, tid, env(0), io(0)) && goal == Serve(w, t, tid, io, env, 1)
    ensures IsAt(t, tid, Popped(Run(w, s, env(0)).sys.refresh, w.hash(f.presented), f.clientID, io(0).ok))
  {
    t := Turn(w, s, tid, env(0), io(0));
    TokenIsTaken(w, s, tid, f, env(0), io(0));
    TurnTaken(w, s, t, tid, io, env, 0, goal);
  }

  lemma CheckTurn(w: World, s: State, tid: nat, rt: RefreshToken, clientID: string, io: nat -> IO,
                  env: nat -> seq<Event>, goal: State) returns (t: State)
    requires IsAt(s, tid, RefreshCheck(rt, clientID)) && Apart(tid, env) && goal == Serve(w, s, tid, io, env, 1)
    ensures t == Turn(w, s, tid, env(1), io(1)) && goal == Serve(w, t, tid, io, env, 2)
    ensures IsAt(t, tid, if MayRefresh(rt, clientID, ClockAfter(w, s, env(1), io(1))) then RefreshReauth(rt)
                         else Done(Failed(InvalidGrant)))
  {
    t := Turn(w, s, tid, env(1), io(1));
    TokenIsChecked(w, s, tid, rt, clientID, env(1), io(1));
    TurnTaken(w, s, t, tid, io, env, 1, goal);
  }

  lemma CognitoTurn(w: World, s: State, tid: nat, rt: RefreshToken, io: nat -> IO, env: nat -> seq<Event>, goal: State)
    returns (t: State)
    requires IsAt(s, tid, RefreshReauth(rt)) && Apart(tid, env) && goal == Serve(w, s, tid, io, env, 2)
    ensures t == Turn(w, s, tid, env(2), io(2)) && goal == Serve(w, t, tid, io, env, 3)
    ensures IsAt(t, tid, match Vouched(rt, io(2).reauth)
                         case Some(x) => RefreshSession(rt, x.0, x.1, x.2)
                         case None => Done(Failed(InvalidGrant)))
  {
    t := Turn(w, s, tid, env(2), io(2));
    CognitoIsAsked(w, s, tid, rt, env(2), io(2));
    TurnTaken(w, s, t, tid, io, env, 2, goal);
  }

  lemma SessionTurn(w: World, s: State, tid: nat, f: Flight, io: nat -> IO, env: nat -> seq<Event>, goal: State)
    returns (t: State, access: string)
    requires f.RefreshSession? && IsAt(s, tid, f) && Apart(tid, env) && goal == Serve(w, s, tid, io, env, 3)
    ensures t == Turn(w, s, tid, env(3), io(3)) && goal == Serve(w, t, tid, io, env, 4)
    ensures IsAt(t, tid, RefreshRotate(f.rt, f.subject, f.email, f.orgs, access))
    ensures io(3).ok ==> HasSession(w, access, f.subject, f.email, f.orgs, t.sys)
  {
    t := Turn(w, s, tid, env(3), io(3));
    access := SessionIsRenewed(w, s, tid, f, env(3), io(3));
    TurnTaken(w, s, t, tid, io, env, 3, goal);
  }

  lemma RotateTurn(w: World, s: State, tid: nat, f: Flight, io: nat -> IO, env: nat -> seq<Event>, goal: State)
    requires f.RefreshRotate? && IsAt(s, tid, f) && Apart(tid, env) && goal == Serve(w, s, tid, io, env, 4)
    ensures tid in goal.sys.flights && goal.sys.flights[tid].Done?
    ensures RotatedFor(w, f.rt, (f.subject, f.email, f.orgs), io(4).ok, goal.sys.flights[tid].response, goal.sys)
    ensures goal.sys.flights[tid].response.access == f.access
  {
    var rotated := Turn(w, s, tid, env(4), io(4));
    TokenIsRotated(w, s, tid, f, env(4), io(4));
    TurnTaken(w, s, rotated, tid, io, env, 4, goal);
    Answered(w, rotated, tid, io, env, 5, goal);
  }

  lemma RotationTurns(w: World, s: State, tid: nat, f: Flight, io: nat -> IO, env: nat -> seq<Event>, goal: State)
    requires f.RefreshSession? && IsAt(s, tid, f) && Apart(tid, env) && goal == Serve(w, s, tid, io, env, 3)
    ensures tid in goal.sys.flights && goal.sys.flights[tid].Done?
    ensures SessionAndSuccessor(w, f.rt, (f.subject, f.email, f.orgs), RefreshAnswersOf(io),
                                goal.sys.flights[tid].response, Turn(w, s, tid, env(3), io(3)).sys, goal.sys)
  {
    var renewed, access := SessionTurn(w, s, tid, f, io, env, goal);
    RotateTurn(w, renewed, tid, RefreshRotate(f.rt, f.subject, f.email, f.orgs, access), io, env, goal);
  }

  lemma AfterCheck(w: World, s: State, tid: nat, rt: RefreshToken, io: nat -> IO, env: nat -> seq<Event>, goal: State)
    requires IsAt(s, tid, RefreshReauth(rt)) && Apart(tid, env) && goal == Serve(w, s, tid, io, env, 2)
    ensures tid in goal.sys.flights && goal.sys.flights[tid].Done?
    ensures var who, minted := Vouched(rt, io(2).reauth), RenewedState(w, s, tid, io, env).sys;
            if who.Some? then
              SessionAndSuccessor(w, rt, who.value, RefreshAnswersOf(io), goal.sys.flights[tid].response, minted,
                                  goal.sys)
            else goal.sys.flights[tid].response == Failed(InvalidGrant)
  {
    var asked := CognitoTurn(w, s, tid, rt, io, env, goal);
    match Vouched(rt, io(2).reauth) {
      case Some(x) => RotationTurns(w, asked, tid, RefreshSession(rt, x.0, x.1, x.2), io, env, goal);
      case None => Answered(w, asked, tid, io, env, 3, goal);
    }
  }

  /** The state in which the new session has just been minted, if the handler gets
      there; s is the one in which the token has been checked. */
  function RenewedState(w: World, s: State, tid: nat, io: nat -> IO, env: nat -> seq<Event>): State {
    Turn(w, Turn(w, s, tid, env(2), io(2)), tid, env(3), io(3))
  }

  lemma AfterTake(w: World, s: State, tid: nat, tokens: map<string, RefreshToken>, presented: string, clientID: string,
                  io: nat -> IO, env: nat -> seq<Event>, goal: State)
    requires Apart(tid, env) && goal == Serve(w, s, tid, io, env, 1)
    requires IsAt(s, tid, Popped(tokens, w.hash(presented), clientID, io(0).ok))
    ensures var checked := Turn(w, s, tid, env(1), io(1));
            ClientGetsNew(w, tokens, presented, clientID, RefreshAnswersOf(io), ClockAfter(w, s, env(1), io(1)),
                          RenewedState(w, checked, tid, io, env).sys, goal.sys, tid)
  {
    var key := w.hash(presented);
    if !io(0).ok || key !in tokens {
      Answered(w, s, tid, io, env, 1, goal);
    } else {
      var checked := CheckTurn(w, s, tid, tokens[key], clientID, io, env, goal);
      if MayRefresh(tokens[key], clientID, ClockAfter(w, s, env(1), io(1))) {
        AfterCheck(w, checked, tid, tokens[key], io, env, goal);
      } else {
        Answered(w, checked, tid, io, env, 2, goal);
      }
    }
  }

  lemma AfterArrival(w: World, s: State, tid: nat, presented: string, clientID: string, io: nat -> IO,
                     env: nat -> seq<Event>, goal: State)
    requires IsAt(s, tid, RefreshPop(presented, clientID)) && Apart(tid, env)
    requires goal == Serve(w, s, tid, io, env, 0)
    ensures var taken := Turn(w, s, tid, env(0), io(0));
            var checked := Turn(w, taken, tid, env(1), io(1));
            ClientGetsNew(w, Run(w, s, env(0)).sys.refresh, presented, clientID, RefreshAnswersOf(io),
                          ClockAfter(w, taken, env(1), io(1)), RenewedState(w, checked, tid, io, env).sys, goal.sys,
                          tid)
  {
    var taken := TakeTurn(w, s, tid, RefreshPop(presented, clientID), io, env, goal);
    AfterTake(w, taken, tid, Run(w, s, env(0)).sys.refresh, presented, clientID, io, env, goal);
  }

  /** The whole rotation, with anybody else acting before each step and whatever the
      store answers. The token is the one stored when the handler looks; the client
      gets new tokens if and only if the store gives it out, it is in time, names no
      other client, and Cognito vouches for a user. As far as the store answers, the
      new session is that user's, and the successor has the same client, scope,
      ciphertext and deadline. */
  lemma RefreshSucceedsIffVouched(w: World, s: State, tid: nat, presented: string, clientID: string,
                                  io: nat -> IO, env: nat -> seq<Event>)
    requires tid !in s.sys.flights && Apart(tid, env)
    ensures var entered := Step(w, s, Start(tid, RefreshRequest(presented, clientID)));
            var taken := Turn(w, entered, tid, env(0), io(0));
            var checked := Turn(w, taken, tid, env(1), io(1));
            var t := Handled(w, s, tid, RefreshRequest(presented, clientID), io, env);
            if presented == "" then IsAt(t, tid, Done(Failed(InvalidRequest)))
            else
              ClientGetsNew(w, Run(w, entered, env(0)).sys.refresh, presented, clientID, RefreshAnswersOf(io),
                            ClockAfter(w, taken, env(1), io(1)), RenewedState(w, checked, tid, io, env).sys, t.sys, tid)
  {
    var entered := Step(w, s, Start(tid, RefreshRequest(presented, clientID)));
    var goal := Handled(w, s, tid, RefreshRequest(presented, clientID), io, env);
    if presented == "" {
      Goes(s.sys, tid, Quiet(Done(Failed(InvalidRequest))));
      Answered(w, entered, tid, io, env, 0, goal);
    } else {
      RefreshArrives(w, s, tid, presented, clientID);
      AfterArrival(w, entered, tid, presented, clientID, io, env, goal);
    }
  }
}
