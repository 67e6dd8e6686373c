/** What a revocation is answered, whatever other requests do between its steps and
    whatever the store answers. AuthRevocation says what it does. */
module RevokeExchange {
  import opened Basics
  import opened AuthRecords
  import opened AuthSteps
  import opened AuthAudit
  import opened AuthSchedule
  import opened AuthRevocation
  import opened Exchange

  lemma RevokeTurn(w: World, s: State, tid: nat, token: string, plan: seq<RevokeOp>, es: seq<Event>, io: IO)
    requires plan != [] && IsAt(s, tid, Revoking(token, plan)) && AllForeign(es, tid)
    ensures IsAt(Turn(w, s, tid, es, io), tid, if |plan| == 1 then Done(RevokeDone) else Revoking(token, plan[1..]))
  {
    var u := Ticked(Run(w, s, es).sys, io.tick);
    TurnGoes(w, s, tid, es, io, Revoking(token, plan), ActRevoke(w, u, token, plan, io));
  }

  lemma BothTurns(w: World, s: State, tid: nat, token: string, plan: seq<RevokeOp>, io: nat -> IO,
                  env: nat -> seq<Event>, goal: State)
    requires |plan| == 2 && IsAt(s, tid, Revoking(token, plan)) && Apart(tid, env)
    requires goal == Serve(w, s, tid, io, env, 0)
    ensures IsAt(goal, tid, Done(RevokeDone))
  {
    var half := Turn(w, s, tid, env(0), io(0));
    var t := Turn(w, half, tid, env(1), io(1));
    RevokeTurn(w, s, tid, token, plan, env(0), io(0));
    TurnTaken(w, s, half, tid, io, env, 0, goal);
    RevokeTurn(w, half, tid, token, plan[1..], env(1), io(1));
    TurnTaken(w, half, t, tid, io, env, 1, goal);
    Answered(w, t, tid, io, env, 2, goal);
  }

  /** What the client learns, whatever others do and whether or not the deletions
      succeed: that the request named a token (RFC 7009 section 2.2). */
  lemma RevocationIsAnswered(w: World, s: State, tid: nat, token: string, hint: string,
                             io: nat -> IO, env: nat -> seq<Event>)
    requires tid !in s.sys.flights && Apart(tid, env)
    ensures IsAt(Handled(w, s, tid, RevokeRequest(token, hint), io, env), tid,
                 Done(if token == "" then Failed(InvalidRequest) else RevokeDone))
  {
    var entered := Step(w, s, Start(tid, RevokeRequest(token, hint)));
    var goal := Handled(w, s, tid, RevokeRequest(token, hint), io, env);
    Enters(w, s, tid, RevokeRequest(token, hint));
    if token == "" {
      Answered(w, entered, tid, io, env, 0, goal);
    } else {
      PlanHasBoth(hint);
      BothTurns(w, entered, tid, token, RevokePlan(hint), io, env, goal);
    }
  }
}
