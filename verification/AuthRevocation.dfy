/** Token revocation (RFC 7009), while other requests take any steps before,
    between and after its two deletions. The deletions themselves succeed. */
module AuthRevocation {
  import opened Basics
  import opened AuthRecords
  import opened Lineage
  import opened AuthSteps
  import opened AuthAudit
  import opened AuthSafety
  import opened AuthInvariant
  import opened AuthTheorems
  import opened AuthSchedule
  import opened AuthBlindness

  /** The revoking request is in; nothing is deleted yet. */
  function Entered(w: World, s: State, tid: nat, token: string, hint: string): State {
    Step(w, s, Start(tid, RevokeRequest(token, hint)))
  }

  /** The others take the steps a, the first deletion happens, they take the
      steps b, the second deletion happens. */
  function Revocation(w: World, s: State, tid: nat, token: string, hint: string,
                   io0: IO, io1: IO, a: seq<Event>, b: seq<Event>): State {
    Turn(w, Turn(w, Entered(w, s, tid, token, hint), tid, a, io0), tid, b, io1)
  }

  /** A token that was issued, or made up, before now: no later draw yields it. */
  ghost predicate NotFuture(w: World, s: Sys, token: string) {
    forall i: nat | s.drawn <= i :: w.coin(i) != token
  }

  function Later(s: State, n: nat): State {
    State(Ticked(s.sys, n), s.audit)
  }

  function AuditWithout(a: Audit, key: string, present: bool): Audit {
    if present then Apply(a, Close(RefreshAt(key), Revoked)) else a
  }

  lemma {:induction false} PlanHasBoth(hint: string)
    ensures RevokePlan(hint) == [DropSession, DropRefresh] || RevokePlan(hint) == [DropRefresh, DropSession]
  {
  }

  /** One deletion, on tables and ledger. */
  function OpDone(s: State, tid: nat, key: string, op: RevokeOp, next: Flight): State {
    match op
    case DropSession =>
      State(s.sys.(sessions := s.sys.sessions - {key}, flights := s.sys.flights[tid := next]), s.audit)
    case DropRefresh =>
      State(s.sys.(refresh := s.sys.refresh - {key}, flights := s.sys.flights[tid := next]),
            AuditWithout(s.audit, key, key in s.sys.refresh))
  }

  /** A deletion takes exactly the entry under the token's key. */
  lemma {:induction false} RevokeStep(w: World, s: State, tid: nat, token: string, plan: seq<RevokeOp>, io: IO)
    requires tid in s.sys.flights && s.sys.flights[tid] == Revoking(token, plan) && plan != [] && io.ok
    ensures Step(w, s, Advance(tid, io))
            == OpDone(Later(s, io.tick), tid, w.hash(token), plan[0], AfterOp(token, plan))
  {
    var key := w.hash(token);
    assert Act(w, s.sys, Advance(tid, io)) == Advanced(w, s.sys, tid, io);
    if key !in s.sys.refresh {
      assert s.sys.refresh - {key} == s.sys.refresh;
    }
  }

  lemma {:induction false} RevocationEnters(w: World, s: State, tid: nat, token: string, hint: string)
    requires tid !in s.sys.flights && token != ""
    ensures Entered(w, s, tid, token, hint)
            == State(Goto(s.sys, tid, Revoking(token, RevokePlan(hint))), s.audit)
  {
  }

  /** Where the revoking request is before and after its first deletion. */
  lemma {:induction false} RevocationProceeds(w: World, s: State, tid: nat, token: string, hint: string,
                                              io0: IO, a: seq<Event>)
    requires tid !in s.sys.flights && token != "" && AllForeign(a, tid) && io0.ok
    ensures var before := Run(w, Entered(w, s, tid, token, hint), a);
            && tid in before.sys.flights && before.sys.flights[tid] == Revoking(token, RevokePlan(hint))
            && var half := Turn(w, Entered(w, s, tid, token, hint), tid, a, io0);
            && tid in half.sys.flights && half.sys.flights[tid] == Revoking(token, RevokePlan(hint)[1..])
  {
    var entered := Entered(w, s, tid, token, hint);
    RevocationEnters(w, s, tid, token, hint);
    PlanHasBoth(hint);
    ForeignRunKeepsFlight(w, entered, a, tid);
    RevokeStep(w, Run(w, entered, a), tid, token, RevokePlan(hint), io0);
  }

  /** Revocation is what the revoke handler does (AuthServer.Server.Revoke). */
  lemma {:induction false} HandledIsRevocation(w: World, s: State, tid: nat, token: string, hint: string,
                                               io: nat -> IO, env: nat -> seq<Event>)
    requires tid !in s.sys.flights && token != "" && io(0).ok && io(1).ok
    requires AllForeign(env(0), tid) && AllForeign(env(1), tid)
    ensures Handled(w, s, tid, RevokeRequest(token, hint), io, env)
            == Revocation(w, s, tid, token, hint, io(0), io(1), env(0), env(1))
  {
    var entered := Entered(w, s, tid, token, hint);
    var half := Turn(w, entered, tid, env(0), io(0));
    var goal := Serve(w, entered, tid, io, env, 0);
    RevocationEnters(w, s, tid, token, hint);
    RevocationProceeds(w, s, tid, token, hint, io(0), env(0));
    TurnTaken(w, entered, half, tid, io, env, 0, goal);
    TurnTaken(w, half, Turn(w, half, tid, env(1), io(1)), tid, io, env, 1, goal);
    RevocationAnswers(w, s, tid, token, hint, io(0), io(1), env(0), env(1));
  }

  lemma {:induction false} RevocationAnswers(w: World, s: State, tid: nat, token: string, hint: string,
                                             io0: IO, io1: IO, a: seq<Event>, b: seq<Event>)
    requires tid !in s.sys.flights && token != "" && io0.ok && io1.ok && AllForeign(a, tid) && AllForeign(b, tid)
    ensures var t := Revocation(w, s, tid, token, hint, io0, io1, a, b);
            tid in t.sys.flights && t.sys.flights[tid] == Done(RevokeDone)
  {
    var half := Turn(w, Entered(w, s, tid, token, hint), tid, a, io0);
    RevocationProceeds(w, s, tid, token, hint, io0, a);
    ForeignRunKeepsFlight(w, half, b, tid);
    PlanHasBoth(hint);
    RevokeStep(w, Run(w, half, b), tid, token, RevokePlan(hint)[1..], io1);
  }

  // ----- Sessions

  ghost predicate SessionRetired(w: World, s: Sys, key: string) {
    key !in s.sessions && forall i: nat | s.drawn <= i :: w.hash(w.coin(i)) != key
  }

  lemma {:induction false} SessionUntouched(s: Sys, wr: Write, key: string)
    requires key !in s.sessions && (wr.PutSession? ==> wr.key != key)
    ensures key !in Written(s, wr).sessions
  {
    if !wr.PutSession? && !wr.DelSession? {
      assert Written(s, wr).sessions == s.sessions;
    }
  }

  lemma {:induction false} PerformKeepsSessionRetired(w: World, s: Sys, tid: nat, e: Effect, key: string)
    requires SessionRetired(w, s, key) && FreshWrite(w, s, e)
    ensures SessionRetired(w, Perform(s, tid, e).sys, key)
  {
    SessionUntouched(s, e.write, key);
    PerformDraws(s, tid, e);
  }

  lemma {:induction false} LostKeepsSessions(s: Sys, place: Place)
    ensures ActLost(s, place).sys.sessions == s.sessions && ActLost(s, place).sys.drawn == s.drawn
  {
  }

  lemma {:induction false} AdvanceKeepsSessionRetired(w: World, s: Sys, tid: nat, io: IO, key: string)
    requires SessionRetired(w, s, key) && tid in s.flights
    ensures SessionRetired(w, Advanced(w, s, tid, io).sys, key)
  {
    var t := Ticked(s, io.tick);
    ProceedWrites(w, t, tid, s.flights[tid], io);
    PerformKeepsSessionRetired(w, t, tid, Proceed(w, t, tid, s.flights[tid], io), key);
  }

  lemma {:induction false} StepKeepsSessionRetired(w: World, s: Sys, e: Event, key: string)
    requires SessionRetired(w, s, key)
    ensures SessionRetired(w, Act(w, s, e).sys, key)
  {
    match e {
      case Start(tid, request) =>
        if tid !in s.flights {
          PerformKeepsSessionRetired(w, s, tid, Quiet(Admit(w, request)), key);
        }
      case Advance(tid, io) =>
        if tid in s.flights {
          AdvanceKeepsSessionRetired(w, s, tid, io, key);
          assert Act(w, s, e) == Advanced(w, s, tid, io);
        }
      case Lost(place) => LostKeepsSessions(s, place);
      case SessionLost(_) =>
    }
  }

  lemma {:induction false} RunKeepsSessionRetired(w: World, s: State, es: seq<Event>, key: string)
    requires SessionRetired(w, s.sys, key)
    ensures SessionRetired(w, Run(w, s, es).sys, key)
  {
    if es == [] {
    } else {
      RunKeepsSessionRetired(w, s, es[..|es| - 1], key);
      StepKeepsSessionRetired(w, Run(w, s, es[..|es| - 1]).sys, es[|es| - 1], key);
    }
  }

  // ----- What has been revoked stays revoked

  lemma {:induction false} RunDrawsOnlyAdvance(w: World, s: State, es: seq<Event>)
    ensures s.sys.drawn <= Run(w, s, es).sys.drawn
  {
    if es == [] {
    } else {
      RunDrawsOnlyAdvance(w, s, es[..|es| - 1]);
      DrawsOnlyAdvance(w, Run(w, s, es[..|es| - 1]).sys, es[|es| - 1]);
    }
  }

  lemma {:induction false} TurnDrawsOnlyAdvance(w: World, s: State, tid: nat, es: seq<Event>, io: IO)
    ensures s.sys.drawn <= Run(w, s, es).sys.drawn <= Turn(w, s, tid, es, io).sys.drawn
  {
    RunDrawsOnlyAdvance(w, s, es);
    DrawsOnlyAdvance(w, Run(w, s, es).sys, Advance(tid, io));
  }

  /** The table the deletion cleared has lost the token for good. */
  ghost predicate OpGone(w: World, s: State, key: string, op: RevokeOp) {
    match op
    case DropSession => SessionRetired(w, s.sys, key)
    case DropRefresh => Retired(w, s.sys, RefreshAt(key))
  }

  lemma {:induction false} OpRetires(w: World, s: State, tid: nat, token: string, plan: seq<RevokeOp>, io: IO)
    requires Sound(w) && NotFuture(w, s.sys, token) && io.ok
    requires tid in s.sys.flights && s.sys.flights[tid] == Revoking(token, plan) && plan != []
    ensures OpGone(w, Step(w, s, Advance(tid, io)), w.hash(token), plan[0])
  {
    RevokeStep(w, s, tid, token, plan, io);
    forall i: nat | s.sys.drawn <= i
      ensures w.hash(w.coin(i)) != w.hash(token)
    {
      assert w.coin(i) != token;
    }
  }

  lemma {:induction false} OpStaysGone(w: World, s: State, es: seq<Event>, key: string, op: RevokeOp)
    requires OpGone(w, s, key, op)
    ensures OpGone(w, Run(w, s, es), key, op)
  {
    match op {
      case DropSession => RunKeepsSessionRetired(w, s, es, key);
      case DropRefresh => RunKeepsRetired(w, s, es, RefreshAt(key));
    }
  }

  lemma {:induction false} TurnKeepsGone(w: World, s: State, tid: nat, es: seq<Event>, io: IO, key: string,
                                         op: RevokeOp)
    requires OpGone(w, s, key, op)
    ensures OpGone(w, Turn(w, s, tid, es, io), key, op)
  {
    OpStaysGone(w, s, es, key, op);
    OpStaysGone(w, Run(w, s, es), [Advance(tid, io)], key, op);
    RunOne(w, Run(w, s, es), Run(w, s, es), [], Advance(tid, io));
    assert [] + [Advance(tid, io)] == [Advance(tid, io)];
  }

  lemma {:induction false} BothGone(w: World, s: State, tid: nat, token: string, hint: string,
                                    io0: IO, io1: IO, a: seq<Event>, b: seq<Event>)
    requires Sound(w) && tid !in s.sys.flights && token != "" && NotFuture(w, s.sys, token)
    requires io0.ok && io1.ok && AllForeign(a, tid) && AllForeign(b, tid)
    ensures var t := Revocation(w, s, tid, token, hint, io0, io1, a, b);
            OpGone(w, t, w.hash(token), DropSession) && OpGone(w, t, w.hash(token), DropRefresh)
  {
    var key, plan := w.hash(token), RevokePlan(hint);
    var entered := Entered(w, s, tid, token, hint);
    var half := Turn(w, entered, tid, a, io0);
    PlanHasBoth(hint);
    RevocationEnters(w, s, tid, token, hint);
    RevocationProceeds(w, s, tid, token, hint, io0, a);
    TurnDrawsOnlyAdvance(w, entered, tid, a, io0);
    OpRetires(w, Run(w, entered, a), tid, token, plan, io0);
    TurnKeepsGone(w, half, tid, b, io1, key, plan[0]);
    RunDrawsOnlyAdvance(w, half, b);
    ForeignRunKeepsFlight(w, half, b, tid);
    OpRetires(w, Run(w, half, b), tid, token, plan[1..], io1);
  }

  /** Whatever other requests do before, between and after the deletions, and
      whatever the hint, no later step finds the token in either table, whether
      or not it was there. */
  lemma {:induction false} RevokedStaysRevoked(w: World, s: State, tid: nat, token: string, hint: string,
                                               io0: IO, io1: IO, a: seq<Event>, b: seq<Event>, later: seq<Event>)
    requires Sound(w) && tid !in s.sys.flights && token != "" && NotFuture(w, s.sys, token)
    requires io0.ok && io1.ok && AllForeign(a, tid) && AllForeign(b, tid)
    ensures var t := Run(w, Revocation(w, s, tid, token, hint, io0, io1, a, b), later);
            w.hash(token) !in t.sys.refresh && w.hash(token) !in t.sys.sessions
  {
    var t := Revocation(w, s, tid, token, hint, io0, io1, a, b);
    BothGone(w, s, tid, token, hint, io0, io1, a, b);
    OpStaysGone(w, t, later, w.hash(token), DropSession);
    OpStaysGone(w, t, later, w.hash(token), DropRefresh);
  }

  /** A token that any record is stored under is not a future draw. */
  lemma {:induction false} StoredIsNoFuture(w: World, es: seq<Event>, token: string)
    requires Sound(w)
    requires w.hash(token) in Reached(w, es).sys.refresh || w.hash(token) in Reached(w, es).sys.sessions
    ensures NotFuture(w, Reached(w, es).sys, token)
  {
    var s := Reached(w, es).sys;
    AlwaysInv(w, es);
    forall i: nat | s.drawn <= i
      ensures w.coin(i) != token
    {
      assert Unused(w, s, i);
    }
  }

  // ----- The hint

  /** Dropping a session is invisible but for the session. */
  lemma {:induction false} SessionDropIsBlind(s: State, tid: nat, key: string, next: Flight)
    ensures Blind(OpDone(s, tid, key, DropSession, next), tid, key) == Blind(s, tid, key)
  {
    assert s.sys.sessions - {key} - {key} == s.sys.sessions - {key};
    assert s.sys.flights[tid := next] - {tid} == s.sys.flights - {tid};
  }

  lemma {:induction false} RefreshDropIsBlind(s: State, t: State, tid: nat, key: string, next: Flight, next': Flight)
    requires Blind(s, tid, key) == Blind(t, tid, key)
    ensures Blind(OpDone(s, tid, key, DropRefresh, next), tid, key)
            == Blind(OpDone(t, tid, key, DropRefresh, next'), tid, key)
    ensures key !in s.sys.refresh ==>
              Blind(OpDone(s, tid, key, DropRefresh, next), tid, key) == Blind(s, tid, key)
  {
    assert s.sys.flights[tid := next] - {tid} == s.sys.flights - {tid};
    assert t.sys.flights[tid := next'] - {tid} == t.sys.flights - {tid};
    assert s.sys.refresh == Blind(s, tid, key).sys.refresh == t.sys.refresh;
    assert s.audit == t.audit;
    if key !in s.sys.refresh {
      assert s.sys.refresh - {key} == s.sys.refresh;
    }
  }

  lemma {:induction false} LaterIsBlind(s: State, t: State, tid: nat, key: string, n: nat)
    requires Blind(s, tid, key) == Blind(t, tid, key)
    ensures Blind(Later(s, n), tid, key) == Blind(Later(t, n), tid, key)
  {
    assert Blind(Later(s, n), tid, key) == Later(Blind(s, tid, key), n);
    assert Blind(Later(t, n), tid, key) == Later(Blind(t, tid, key), n);
  }

  /** With nothing stored under the key, a deletion shows nowhere. */
  lemma {:induction false} OpIsBlind(s: State, t: State, tid: nat, key: string, op: RevokeOp, next: Flight, n: nat)
    requires Blind(s, tid, key) == Blind(t, tid, key) && key !in s.sys.refresh
    ensures Blind(OpDone(Later(s, n), tid, key, op, next), tid, key) == Blind(Later(t, n), tid, key)
  {
    LaterIsBlind(s, t, tid, key, n);
    match op {
      case DropSession => SessionDropIsBlind(Later(s, n), tid, key, next);
      case DropRefresh => RefreshDropIsBlind(Later(s, n), Later(s, n), tid, key, next, next);
    }
  }

  /** The same, after other requests have acted. */
  lemma {:induction false} TurnIsBlind(w: World, s: State, t: State, tid: nat, token: string, plan: seq<RevokeOp>,
                                       es: seq<Event>, io: IO)
    requires tid in s.sys.flights && s.sys.flights[tid] == Revoking(token, plan) && plan != [] && io.ok
    requires AllForeign(es, tid) && Blind(s, tid, w.hash(token)) == Blind(t, tid, w.hash(token))
    requires w.hash(token) !in Run(w, t, es).sys.refresh
    ensures Blind(Turn(w, s, tid, es, io), tid, w.hash(token))
            == Blind(Later(Run(w, t, es), io.tick), tid, w.hash(token))
  {
    var key := w.hash(token);
    var s', t' := Run(w, s, es), Run(w, t, es);
    RunBlind(w, s, t, tid, key, es);
    ForeignRunKeepsFlight(w, s, es, tid);
    RevokeStep(w, s', tid, token, plan, io);
    assert s'.sys.refresh == Blind(s', tid, key).sys.refresh == Blind(t', tid, key).sys.refresh == t'.sys.refresh;
    OpIsBlind(s', t', tid, key, plan[0], AfterOp(token, plan), io.tick);
  }

  /** The run without the revoking request; only its time passes. */
  function Untouched(w: World, s: State, io0: IO, io1: IO, a: seq<Event>, b: seq<Event>): State {
    Later(Run(w, Later(Run(w, s, a), io0.tick), b), io1.tick)
  }

  lemma {:induction false} AbsentStaysAbsent(w: World, s: State, token: string, es: seq<Event>)
    requires Sound(w) && NotFuture(w, s.sys, token) && w.hash(token) !in s.sys.refresh
    ensures w.hash(token) !in Run(w, s, es).sys.refresh
  {
    forall i: nat | s.sys.drawn <= i
      ensures w.hash(w.coin(i)) != w.hash(token)
    {
      assert w.coin(i) != token;
    }
    OpStaysGone(w, s, es, w.hash(token), DropRefresh);
  }

  /** Unless it finds a stored refresh token, a revocation changes nothing but
      the session under its token and its own program point. */
  lemma {:induction false} RevocationTouchesOnlyItsToken(w: World, s: State, tid: nat, token: string, hint: string,
                                                         io0: IO, io1: IO, a: seq<Event>, b: seq<Event>)
    requires Sound(w) && tid !in s.sys.flights && token != "" && NotFuture(w, s.sys, token)
    requires io0.ok && io1.ok && AllForeign(a, tid) && AllForeign(b, tid)
    requires w.hash(token) !in Run(w, s, a).sys.refresh
    ensures Blind(Revocation(w, s, tid, token, hint, io0, io1, a, b), tid, w.hash(token))
            == Blind(Untouched(w, s, io0, io1, a, b), tid, w.hash(token))
  {
    var key, plan := w.hash(token), RevokePlan(hint);
    var entered := Entered(w, s, tid, token, hint);
    var half := Turn(w, entered, tid, a, io0);
    var other := Later(Run(w, s, a), io0.tick);
    PlanHasBoth(hint);
    RevocationEnters(w, s, tid, token, hint);
    assert s.sys.flights[tid := Revoking(token, plan)] - {tid} == s.sys.flights - {tid};
    TurnIsBlind(w, entered, s, tid, token, plan, a, io0);
    RevocationProceeds(w, s, tid, token, hint, io0, a);
    RunDrawsOnlyAdvance(w, s, a);
    AbsentStaysAbsent(w, other, token, b);
    TurnIsBlind(w, half, other, tid, token, plan[1..], b, io1);
  }

  lemma {:induction false} BlindDetermines(s: State, t: State, tid: nat, key: string)
    requires Blind(s, tid, key) == Blind(t, tid, key)
    requires key !in s.sys.sessions && key !in t.sys.sessions
    requires tid in s.sys.flights && tid in t.sys.flights && s.sys.flights[tid] == t.sys.flights[tid]
    ensures s == t
  {
    assert s.sys.sessions == s.sys.sessions - {key} == t.sys.sessions - {key} == t.sys.sessions;
    assert s.sys.flights == (s.sys.flights - {tid})[tid := s.sys.flights[tid]];
    assert t.sys.flights == (t.sys.flights - {tid})[tid := t.sys.flights[tid]];
  }

  lemma {:induction false} HintHidden(w: World, s: State, tid: nat, token: string,
                                              hint: string, hint': string,
                                      io0: IO, io1: IO, a: seq<Event>, b: seq<Event>)
    requires Sound(w) && tid !in s.sys.flights && token != "" && NotFuture(w, s.sys, token)
    requires io0.ok && io1.ok && AllForeign(a, tid) && AllForeign(b, tid)
    requires w.hash(token) !in Run(w, s, a).sys.refresh
    ensures Revocation(w, s, tid, token, hint, io0, io1, a, b) == Revocation(w, s, tid, token, hint', io0, io1, a, b)
  {
    var one := Revocation(w, s, tid, token, hint, io0, io1, a, b);
    var two := Revocation(w, s, tid, token, hint', io0, io1, a, b);
    RevocationTouchesOnlyItsToken(w, s, tid, token, hint, io0, io1, a, b);
    RevocationTouchesOnlyItsToken(w, s, tid, token, hint', io0, io1, a, b);
    BothGone(w, s, tid, token, hint, io0, io1, a, b);
    BothGone(w, s, tid, token, hint', io0, io1, a, b);
    RevocationAnswers(w, s, tid, token, hint, io0, io1, a, b);
    RevocationAnswers(w, s, tid, token, hint', io0, io1, a, b);
    BlindDetermines(one, two, tid, w.hash(token));
  }

  /** A request u that presents the token as a refresh token. */
  function Presenting(u: nat, token: string): seq<Event> {
    [Start(u, RefreshRequest(token, "")), Advance(u, SMOOTH)]
  }

  lemma {:induction false} PresentingTells(w: World, s: State, u: nat, token: string)
    requires u !in s.sys.flights && token != ""
    ensures var t := Run(w, s, Presenting(u, token));
            u in t.sys.flights && (t.sys.flights[u].Done? <==> w.hash(token) !in s.sys.refresh)
  {
    var one := Step(w, s, Start(u, RefreshRequest(token, "")));
    RunOne(w, s, s, [], Start(u, RefreshRequest(token, "")));
    RunOne(w, s, one, [Start(u, RefreshRequest(token, ""))], Advance(u, SMOOTH));
    assert [] + [Start(u, RefreshRequest(token, ""))] == [Start(u, RefreshRequest(token, ""))];
    assert [Start(u, RefreshRequest(token, ""))] + [Advance(u, SMOOTH)] == Presenting(u, token);
    assert one.sys == Goto(s.sys, u, RefreshPop(token, ""));
    assert Act(w, one.sys, Advance(u, SMOOTH)) == Advanced(w, one.sys, u, SMOOTH);
  }

  lemma {:induction false} FreshRequest(taken: set<nat>) returns (u: nat)
    ensures u !in taken && forall k | k in taken :: k < u
  {
    if taken == {} {
      u := 0;
    } else {
      var k :| k in taken;
      var v := FreshRequest(taken - {k});
      u := if k < v then v else k + 1;
      assert forall x | x in taken :: x == k || x in taken - {k};
    }
  }

  lemma {:induction false} AfterFirstDeletion(w: World, s: State, tid: nat, token: string, hint: string,
                                              io0: IO, a: seq<Event>, u: nat)
    requires tid !in s.sys.flights && token != "" && io0.ok && AllForeign(a, tid)
    requires w.hash(token) in Run(w, s, a).sys.refresh && u !in Run(w, s, a).sys.flights && u != tid
    ensures var half := Turn(w, Entered(w, s, tid, token, hint), tid, a, io0);
            u !in half.sys.flights && (w.hash(token) in half.sys.refresh <==> RevokePlan(hint)[0] != DropRefresh)
  {
    var key, plan := w.hash(token), RevokePlan(hint);
    var entered := Entered(w, s, tid, token, hint);
    var x := Run(w, entered, a);
    PlanHasBoth(hint);
    RevocationEnters(w, s, tid, token, hint);
    assert s.sys.flights[tid := Revoking(token, plan)] - {tid} == s.sys.flights - {tid};
    RunBlind(w, entered, s, tid, key, a);
    FlightBlind(x.sys, Run(w, s, a).sys, tid, key, u);
    assert x.sys.refresh == Blind(x, tid, key).sys.refresh == Run(w, s, a).sys.refresh;
    RevocationProceeds(w, s, tid, token, hint, io0, a);
    RevokeStep(w, x, tid, token, plan, io0);
  }

  /** Whether the presenting request is refused tells which table was cleared
      first. */
  lemma {:induction false} OrderShows(w: World, s: State, tid: nat, token: string, hint: string,
                                      io0: IO, io1: IO, a: seq<Event>, u: nat)
    requires tid !in s.sys.flights && token != "" && io0.ok && io1.ok && AllForeign(a, tid)
    requires w.hash(token) in Run(w, s, a).sys.refresh && u !in Run(w, s, a).sys.flights && u != tid
    ensures var t := Revocation(w, s, tid, token, hint, io0, io1, a, Presenting(u, token));
            u in t.sys.flights && (t.sys.flights[u].Done? <==> RevokePlan(hint)[0] == DropRefresh)
  {
    var half := Turn(w, Entered(w, s, tid, token, hint), tid, a, io0);
    PlanHasBoth(hint);
    RevocationProceeds(w, s, tid, token, hint, io0, a);
    AfterFirstDeletion(w, s, tid, token, hint, io0, a, u);
    PresentingTells(w, half, u, token);
    LastDeletionKeepsFlights(w, half, tid, token, RevokePlan(hint)[1..], io1, Presenting(u, token), u);
  }

  lemma {:induction false} LastDeletionKeepsFlights(w: World, s: State, tid: nat, token: string, plan: seq<RevokeOp>,
                                                    io: IO, es: seq<Event>, u: nat)
    requires tid in s.sys.flights && s.sys.flights[tid] == Revoking(token, plan) && plan != [] && io.ok
    requires AllForeign(es, tid) && u != tid && u in Run(w, s, es).sys.flights
    ensures var t := Turn(w, s, tid, es, io);
            u in t.sys.flights && t.sys.flights[u] == Run(w, s, es).sys.flights[u]
  {
    ForeignRunKeepsFlight(w, s, es, tid);
    RevokeStep(w, Run(w, s, es), tid, token, plan, io);
  }

  /** The hint decides which deletion comes first. That makes no difference,
      whatever others do in between, if and only if the token is not stored as a
      refresh token when the first deletion comes. */
  lemma {:induction false} HintDoesNotMatterIff(w: World, s: State, tid: nat, token: string,
                                               hint: string, hint': string, io0: IO, io1: IO, a: seq<Event>)
    requires Sound(w) && tid !in s.sys.flights && token != "" && NotFuture(w, s.sys, token)
    requires io0.ok && io1.ok && AllForeign(a, tid) && RevokePlan(hint) != RevokePlan(hint')
    ensures w.hash(token) !in Run(w, s, a).sys.refresh
            <==> forall b | AllForeign(b, tid) ::
                   Revocation(w, s, tid, token, hint, io0, io1, a, b)
                   == Revocation(w, s, tid, token, hint', io0, io1, a, b)
  {
    if w.hash(token) !in Run(w, s, a).sys.refresh {
      forall b | AllForeign(b, tid)
        ensures Revocation(w, s, tid, token, hint, io0, io1, a, b)
                == Revocation(w, s, tid, token, hint', io0, io1, a, b)
      {
        HintHidden(w, s, tid, token, hint, hint', io0, io1, a, b);
      }
    } else {
      var u := FreshRequest(Run(w, s, a).sys.flights.Keys + {tid});
      OrderShows(w, s, tid, token, hint, io0, io1, a, u);
      OrderShows(w, s, tid, token, hint', io0, io1, a, u);
      PlanHasBoth(hint);
      PlanHasBoth(hint');
      assert AllForeign(Presenting(u, token), tid);
    }
  }

  /** The token in neither table, everything else as it was. */
  function WithoutToken(s: State, tid: nat, key: string): State {
    State(s.sys.(sessions := s.sys.sessions - {key}, refresh := s.sys.refresh - {key},
                 flights := s.sys.flights[tid := Done(RevokeDone)]),
          AuditWithout(s.audit, key, key in s.sys.refresh))
  }

  lemma {:induction false} BothDeletions(s: State, tid: nat, key: string, first: RevokeOp, f: Flight, m: nat, n: nat)
    ensures var second := if first.DropSession? then DropRefresh else DropSession;
            OpDone(Later(OpDone(Later(s, m), tid, key, first, f), n), tid, key, second, Done(RevokeDone))
            == WithoutToken(Later(s, m + n), tid, key)
  {
    assert s.sys.flights[tid := f][tid := Done(RevokeDone)] == s.sys.flights[tid := Done(RevokeDone)];
  }

  lemma {:induction false} EntryIsForgotten(s: State, tid: nat, key: string, f: Flight, n: nat)
    ensures WithoutToken(Later(State(Goto(s.sys, tid, f), s.audit), n), tid, key) == WithoutToken(Later(s, n), tid, key)
  {
    assert s.sys.flights[tid := f][tid := Done(RevokeDone)] == s.sys.flights[tid := Done(RevokeDone)];
  }

  /** Served without interruption a revocation takes the token from both tables
      and changes nothing else, for every hint. */
  lemma {:induction false} HintDoesNotMatter(w: World, s: State, tid: nat, token: string, hint: string, io0: IO,
                                             io1: IO)
    requires tid !in s.sys.flights && token != "" && io0.ok && io1.ok
    ensures Revocation(w, s, tid, token, hint, io0, io1, [], [])
            == WithoutToken(Later(s, io0.tick + io1.tick), tid, w.hash(token))
  {
    var key, plan := w.hash(token), RevokePlan(hint);
    var entered := Entered(w, s, tid, token, hint);
    PlanHasBoth(hint);
    RevocationEnters(w, s, tid, token, hint);
    RevocationProceeds(w, s, tid, token, hint, io0, []);
    RevokeStep(w, entered, tid, token, plan, io0);
    RevokeStep(w, Turn(w, entered, tid, [], io0), tid, token, plan[1..], io1);
    BothDeletions(entered, tid, key, plan[0], AfterOp(token, plan), io0.tick, io1.tick);
    EntryIsForgotten(s, tid, key, Revoking(token, plan), io0.tick + io1.tick);
  }

  /** After one revocation, and whatever came since, another one with any hint
      changes nothing at all but its own program point. */
  lemma {:induction false} RevocationIsIdempotent(w: World, s: State, tid: nat, token: string, hint: string,
                                                  io0: IO, io1: IO, a: seq<Event>, b: seq<Event>, since: seq<Event>,
                                                  tid': nat, hint': string,
                                                  io0': IO, io1': IO, a': seq<Event>, b': seq<Event>)
    requires Sound(w) && tid !in s.sys.flights && token != "" && NotFuture(w, s.sys, token)
    requires io0.ok && io1.ok && AllForeign(a, tid) && AllForeign(b, tid)
    requires io0'.ok && io1'.ok && AllForeign(a', tid') && AllForeign(b', tid')
    requires tid' !in Run(w, Revocation(w, s, tid, token, hint, io0, io1, a, b), since).sys.flights
    ensures var once := Run(w, Revocation(w, s, tid, token, hint, io0, io1, a, b), since);
            var twice := Revocation(w, once, tid', token, hint', io0', io1', a', b');
            var without := Untouched(w, once, io0', io1', a', b');
            && twice.audit == without.audit
            && twice.sys == without.sys.(flights := without.sys.flights[tid' := Done(RevokeDone)])
  {
    var first := Revocation(w, s, tid, token, hint, io0, io1, a, b);
    var once := Run(w, first, since);
    SinceRevocation(w, s, tid, token, hint, io0, io1, a, b, since);
    OpStaysGone(w, once, a', w.hash(token), DropRefresh);
    RevocationTouchesOnlyItsToken(w, once, tid', token, hint', io0', io1', a', b');
    UntouchedStaysGone(w, once, w.hash(token), io0', io1', a', b');
    BothGone(w, once, tid', token, hint', io0', io1', a', b');
    RevocationAnswers(w, once, tid', token, hint', io0', io1', a', b');
    BlindUpTo(Revocation(w, once, tid', token, hint', io0', io1', a', b'),
              Untouched(w, once, io0', io1', a', b'), tid', w.hash(token));
  }

  lemma {:induction false} SinceRevocation(w: World, s: State, tid: nat, token: string, hint: string,
                                           io0: IO, io1: IO, a: seq<Event>, b: seq<Event>, since: seq<Event>)
    requires Sound(w) && tid !in s.sys.flights && token != "" && NotFuture(w, s.sys, token)
    requires io0.ok && io1.ok && AllForeign(a, tid) && AllForeign(b, tid)
    ensures var once := Run(w, Revocation(w, s, tid, token, hint, io0, io1, a, b), since);
            && NotFuture(w, once.sys, token)
            && OpGone(w, once, w.hash(token), DropSession) && OpGone(w, once, w.hash(token), DropRefresh)
  {
    var entered := Entered(w, s, tid, token, hint);
    var first := Revocation(w, s, tid, token, hint, io0, io1, a, b);
    BothGone(w, s, tid, token, hint, io0, io1, a, b);
    OpStaysGone(w, first, since, w.hash(token), DropSession);
    OpStaysGone(w, first, since, w.hash(token), DropRefresh);
    RevocationEnters(w, s, tid, token, hint);
    TurnDrawsOnlyAdvance(w, entered, tid, a, io0);
    TurnDrawsOnlyAdvance(w, Turn(w, entered, tid, a, io0), tid, b, io1);
    RunDrawsOnlyAdvance(w, first, since);
  }

  lemma {:induction false} UntouchedStaysGone(w: World, s: State, key: string, io0: IO, io1: IO,
                                              a: seq<Event>, b: seq<Event>)
    requires SessionRetired(w, s.sys, key)
    ensures key !in Untouched(w, s, io0, io1, a, b).sys.sessions
  {
    RunKeepsSessionRetired(w, s, a, key);
    RunKeepsSessionRetired(w, Later(Run(w, s, a), io0.tick), b, key);
  }

  lemma {:induction false} BlindUpTo(s: State, t: State, tid: nat, key: string)
    requires Blind(s, tid, key) == Blind(t, tid, key) && tid in s.sys.flights
    requires key !in s.sys.sessions && key !in t.sys.sessions
    ensures s.audit == t.audit && s.sys == t.sys.(flights := t.sys.flights[tid := s.sys.flights[tid]])
  {
    assert s.sys.sessions == s.sys.sessions - {key} == t.sys.sessions - {key} == t.sys.sessions;
    assert s.sys.flights == (s.sys.flights - {tid})[tid := s.sys.flights[tid]];
    assert t.sys.flights[tid := s.sys.flights[tid]] == (t.sys.flights - {tid})[tid := s.sys.flights[tid]];
  }
}
