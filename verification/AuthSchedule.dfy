/** How one request is served while others are: its own steps in order, and
    between them any steps of anybody else. */
module AuthSchedule {
  import opened Basics
  import opened AuthRecords
  import opened Lineage
  import opened AuthSteps
  import opened AuthAudit
  import opened AuthSafety
  import opened AuthInvariant
  import opened AuthTheorems

  /** e is a step of some request other than tid. */
  predicate Foreign(e: Event, tid: nat) {
    match e
    case Start(other, _) => other != tid
    case Advance(other, _) => other != tid
    case Lost(place) => place != InHand(tid)
    case SessionLost(_) => true
  }

  predicate AllForeign(es: seq<Event>, tid: nat) {
    forall i | 0 <= i < |es| :: Foreign(es[i], tid)
  }

  lemma ForeignStepKeepsFlight(w: World, s: Sys, e: Event, tid: nat)
    requires Foreign(e, tid) && tid in s.flights
    ensures tid in Act(w, s, e).sys.flights && Act(w, s, e).sys.flights[tid] == s.flights[tid]
  {
    match e {
      case Start(other, request) =>
        if other !in s.flights {
          PerformKeepsFlight(s, other, Quiet(Admit(w, request)), tid);
        }
      case Advance(other, io) =>
        if other in s.flights {
          var t := Ticked(s, io.tick);
          PerformKeepsFlight(t, other, Proceed(w, t, other, s.flights[other], io), tid);
        }
      case Lost(place) => LostKeepsFlight(s, place, tid);
      case SessionLost(key) => WriteKeepsFlights(s, DelSession(key));
    }
  }

  lemma LostKeepsFlight(s: Sys, place: Place, tid: nat)
    requires place != InHand(tid) && tid in s.flights
    ensures var s' := ActLost(s, place).sys; tid in s'.flights && s'.flights[tid] == s.flights[tid]
  {
    if place.InHand? && place.tid in s.flights && Holding(s.flights[place.tid]) {
      PerformKeepsFlight(s, place.tid, Drop(place.tid, Crashed, Reaped), tid);
    }
  }

  lemma PerformKeepsFlight(s: Sys, other: nat, e: Effect, tid: nat)
    requires tid in s.flights && tid != other
    ensures tid in Perform(s, other, e).sys.flights && Perform(s, other, e).sys.flights[tid] == s.flights[tid]
  {
    WriteKeepsFlights(s, e.write);
  }

  lemma {:induction false} ForeignRunKeepsFlight(w: World, s: State, es: seq<Event>, tid: nat)
    requires AllForeign(es, tid) && tid in s.sys.flights
    ensures tid in Run(w, s, es).sys.flights && Run(w, s, es).sys.flights[tid] == s.sys.flights[tid]
  {
    if es == [] {
    } else {
      var init, last := es[..|es| - 1], es[|es| - 1];
      ForeignRunKeepsFlight(w, s, init, tid);
      ForeignStepKeepsFlight(w, Run(w, s, init).sys, last, tid);
    }
  }

  lemma RunOne(w: World, s: State, before: State, trace: seq<Event>, e: Event)
    requires before == Run(w, s, trace)
    ensures Step(w, before, e) == Run(w, s, trace + [e])
  {
    assert (trace + [e])[..|trace|] == trace;
  }

  lemma RunThrough(w: World, s: State, es: seq<Event>, e: Event, t: State, rest: seq<Event>)
    requires t == Step(w, Run(w, s, es), e)
    ensures Run(w, t, rest) == Run(w, s, es + [e] + rest)
  {
    RunOne(w, s, Run(w, s, es), es, e);
    RunAppend(w, s, es + [e], rest);
  }

  function After(s: State, tid: nat, n: nat, e: Effect): State {
    Land(s, Perform(Ticked(s.sys, n), tid, e))
  }

  lemma StepIsEffect(w: World, s: State, tid: nat, io: IO, e: Effect)
    requires tid in s.sys.flights
    requires e == Proceed(w, Ticked(s.sys, io.tick), tid, s.sys.flights[tid], io)
    ensures Step(w, s, Advance(tid, io)) == After(s, tid, io.tick, e)
  {
    assert Act(w, s.sys, Advance(tid, io)) == Perform(Ticked(s.sys, io.tick), tid, e);
  }

  lemma StepIsSmooth(w: World, s: State, tid: nat, io: IO)
    requires tid in s.sys.flights && io.tick == 0
    ensures Step(w, s, Advance(tid, io)) == Land(s, Perform(s.sys, tid, Proceed(w, s.sys, tid, s.sys.flights[tid], io)))
  {
    assert Ticked(s.sys, 0) == s.sys;
  }

  /** Request tid is at f; the record of authorization r, with trail t, is at p. */
  predicate Stands(s: State, tid: nat, f: Flight, p: Place, r: nat, t: Trail) {
    && tid in s.sys.flights && s.sys.flights[tid] == f
    && p in s.audit.at && s.audit.at[p] == r && r < |s.audit.trails| && s.audit.trails[r] == t
  }

  /** What other requests do, then one step of request tid. */
  function Turn(w: World, s: State, tid: nat, es: seq<Event>, io: IO): State {
    Step(w, Run(w, s, es), Advance(tid, io))
  }

  const MAX_TURNS: nat := 5

  /** Request tid is served from its i-th turn on: before turn k the others take
      the steps env(k), in it the services answer io(k). It ends with the answer
      of the handler. */
  function Serve(w: World, s: State, tid: nat, io: nat -> IO, env: nat -> seq<Event>, i: nat): State
    decreases MAX_TURNS - i
  {
    if i >= MAX_TURNS || tid !in s.sys.flights || s.sys.flights[tid].Done? then s
    else Serve(w, Turn(w, s, tid, env(i), io(i)), tid, io, env, i + 1)
  }

  /** A whole request: it arrives, then it is served. */
  function Handled(w: World, s: State, tid: nat, request: Request, io: nat -> IO, env: nat -> seq<Event>): State {
    Serve(w, Step(w, s, Start(tid, request)), tid, io, env, 0)
  }

  /** After its i-th turn a request that is not done goes on with the next. */
  lemma {:induction false} TurnTaken(w: World, s: State, v: State, tid: nat, io: nat -> IO, env: nat -> seq<Event>,
                                     i: nat, goal: State)
    requires i < MAX_TURNS && tid in s.sys.flights && !s.sys.flights[tid].Done?
    requires goal == Serve(w, s, tid, io, env, i)
    requires v == Turn(w, s, tid, env(i), io(i))
    ensures goal == Serve(w, v, tid, io, env, i + 1)
  {
  }

  /** A request that is done is served. */
  lemma Answered(w: World, s: State, tid: nat, io: nat -> IO, env: nat -> seq<Event>, i: nat, goal: State)
    requires tid in s.sys.flights && s.sys.flights[tid].Done? && goal == Serve(w, s, tid, io, env, i)
    ensures goal == s
  {
  }

  /** The events by which request tid is served. */
  function Trace(w: World, s: State, tid: nat, io: nat -> IO, env: nat -> seq<Event>, i: nat): seq<Event>
    decreases MAX_TURNS - i
  {
    if i >= MAX_TURNS || tid !in s.sys.flights || s.sys.flights[tid].Done? then []
    else env(i) + [Advance(tid, io(i))] + Trace(w, Turn(w, s, tid, env(i), io(i)), tid, io, env, i + 1)
  }

  lemma {:induction false} TurnTraced(w: World, s: State, v: State, tid: nat, io: nat -> IO, env: nat -> seq<Event>,
                                      i: nat, goal: State)
    requires i < MAX_TURNS && tid in s.sys.flights && !s.sys.flights[tid].Done?
    requires v == Turn(w, s, tid, env(i), io(i))
    requires goal == Run(w, v, Trace(w, v, tid, io, env, i + 1))
    ensures goal == Run(w, s, Trace(w, s, tid, io, env, i))
  {
    RunThrough(w, s, env(i), Advance(tid, io(i)), v, Trace(w, v, tid, io, env, i + 1));
  }

  lemma LastTurn(w: World, s: State, tid: nat, io: nat -> IO, env: nat -> seq<Event>, i: nat)
    requires i >= MAX_TURNS || tid !in s.sys.flights || s.sys.flights[tid].Done?
    ensures Serve(w, s, tid, io, env, i) == Run(w, s, Trace(w, s, tid, io, env, i))
  {
  }

  lemma {:induction false} ServingIsRunning(w: World, s: State, tid: nat, io: nat -> IO, env: nat -> seq<Event>, i: nat,
                                            goal: State)
    requires goal == Serve(w, s, tid, io, env, i)
    ensures goal == Run(w, s, Trace(w, s, tid, io, env, i))
    decreases MAX_TURNS - i
  {
    if i >= MAX_TURNS || tid !in s.sys.flights || s.sys.flights[tid].Done? {
      LastTurn(w, s, tid, io, env, i);
    } else {
      var v := Turn(w, s, tid, env(i), io(i));
      TurnTaken(w, s, v, tid, io, env, i, goal);
      ServingIsRunning(w, v, tid, io, env, i + 1, goal);
      TurnTraced(w, s, v, tid, io, env, i, goal);
    }
  }

  /** Serving a request is a run, so what holds of every run holds of it. */
  lemma HandlingIsRunning(w: World, s: State, tid: nat, request: Request, io: nat -> IO, env: nat -> seq<Event>)
    ensures var entered := Step(w, s, Start(tid, request));
            Handled(w, s, tid, request, io, env)
            == Run(w, s, [Start(tid, request)] + Trace(w, entered, tid, io, env, 0))
  {
    var entered := Step(w, s, Start(tid, request));
    ServingIsRunning(w, entered, tid, io, env, 0, Handled(w, s, tid, request, io, env));
    RunOne(w, s, s, [], Start(tid, request));
    assert [] + [Start(tid, request)] == [Start(tid, request)];
    RunAppend(w, s, [Start(tid, request)], Trace(w, entered, tid, io, env, 0));
  }

  /** From s to t the invariant is kept. */
  ghost predicate KeepsInv(w: World, s: State, t: State) {
    Sound(w) && Inv(w, s) ==> Inv(w, t)
  }

  /** So a request that is served among others keeps the invariant. */
  lemma HandlingKeepsInv(w: World, s: State, tid: nat, request: Request, io: nat -> IO, env: nat -> seq<Event>)
    ensures KeepsInv(w, s, Handled(w, s, tid, request, io, env))
  {
    if Sound(w) && Inv(w, s) {
      HandlingIsRunning(w, s, tid, request, io, env);
      RunKeepsInv(w, s, [Start(tid, request)] + Trace(w, Step(w, s, Start(tid, request)), tid, io, env, 0));
    }
  }
}
