/** How long a login and a consent screen may wait: each fifteen minutes from
    the moment the record was last stored, in every run. */
module PendingLifetime {
  import opened Basics
  import opened AuthRecords
  import opened Lineage
  import opened AuthSteps
  import opened AuthAudit
  import opened AuthSafety
  import opened AuthDecency
  import opened AuthInvariant
  import opened AuthTheorems
  import opened AuthEndings
  import opened AuthHistory
  import opened AuthDeeds
  import opened AuthLookups
  import opened AuthFailures
  import opened AuthProvenance
  import opened AuthSchedule

  /** Between these ledgers r's record was stored under a new key, for the first
      time or after a login. */
  predicate Stashed(a: Audit, b: Audit, r: nat) {
    && r < |b.trails|
    && (r >= |a.trails|
        || (b.trails[r] != a.trails[r] && b.trails[r].More? && b.trails[r].fact.CalledBack?))
  }

  /** The clock when r's pending record was last stored. */
  function Since(w: World, es: seq<Event>, r: nat): int {
    if es == [] then 0
    else
      var init := es[..|es| - 1];
      if Stashed(Reached(w, init).audit, Reached(w, es).audit, r) then Reached(w, es).sys.now else Since(w, init, r)
  }

  /** Fifteen minutes later, as the store keeps it. */
  function Due(w: World, es: seq<Event>, r: nat): int {
    Stamp(w, Since(w, es, r) + 900_000_000_000)
  }

  /** The expiry of a pending record that is still to be checked. */
  function Waiting(c: Content): Option<int> {
    match c
    case OfPending(p) => Some(p.expires)
    case OfFlight(f) => if f.CallbackCheck? || f.ConsentCheck? then Some(f.p.expires) else None
    case _ => None
  }

  /** How a step treats the expiry of the record it moves. */
  predicate Times(w: World, s: Sys, tid: nat, e: Effect) {
    && (e.move.Open? || (e.move.Shift? && e.move.to.PendingAt?) ==>
          && e.write.PutPending? && e.move.to == PendingAt(e.write.key)
          && e.write.p.expires == Stamp(w, s.now + PENDING_TTL))
    && (e.move.Shift? && e.move.to.PendingAt? ==>
          e.move.from == InHand(tid) && e.move.note.Some? && e.move.note.value.CalledBack?)
    && (NoteOf(e.move).Some? && NoteOf(e.move).value.CalledBack? ==> e.move.Shift? && e.move.to.PendingAt?)
    && (if e.move.Shift? && e.move.to.InHand? then
          e.move.to == InHand(tid) && e.move.note == None
          && Waiting(OfFlight(e.next)) == Waiting(ContentAt(s, e.move.from))
        else Waiting(OfFlight(e.next)) == None)
  }

  lemma LoginTimes(w: World, s: Sys, tid: nat, f: Flight, io: IO)
    requires LoginPoint(f) || ConsentPoint(f)
    ensures Times(w, s, tid, Proceed(w, s, tid, f, io))
  {
  }

  lemma TokenTimes(w: World, s: Sys, tid: nat, f: Flight, io: IO)
    requires !LoginPoint(f) && !ConsentPoint(f)
    ensures Times(w, s, tid, Proceed(w, s, tid, f, io))
  {
  }

  lemma ProceedTimes(w: World, s: Sys, tid: nat, f: Flight, io: IO)
    ensures Times(w, s, tid, Proceed(w, s, tid, f, io))
  {
    if LoginPoint(f) || ConsentPoint(f) {
      LoginTimes(w, s, tid, f, io);
    } else {
      TokenTimes(w, s, tid, f, io);
    }
  }

  /** One effect, at the place the record goes to. */
  lemma ArrivalTimes(w: World, s: State, tid: nat, e: Effect, p: Place)
    requires Times(w, s.sys, tid, e) && Fits(s.audit, e.move) && MovesInto(e.move, p)
    requires p.PendingAt? || p.InHand?
    ensures var o := Land(s, Perform(s.sys, tid, e));
            && p in o.audit.at
            && if p.PendingAt? then
                 Waiting(ContentAt(o.sys, p)) == Some(Stamp(w, s.sys.now + PENDING_TTL))
                 && Stashed(s.audit, o.audit, o.audit.at[p]) && o.sys.now == s.sys.now
               else
                 e.move.Shift? && o.audit.at[p] == s.audit.at[e.move.from] && o.audit.trails == s.audit.trails
                 && (Waiting(ContentAt(o.sys, p)).Some? ==>
                       Waiting(ContentAt(o.sys, p)) == Waiting(ContentAt(s.sys, e.move.from)))
  {
    FlightsAfter(s.sys, tid, e);
  }

  lemma BystanderStays(w: World, s: State, tid: nat, e: Effect, p: Place)
    requires Decent(w, s, tid, e) && p != InHand(tid) && !MovesInto(e.move, p)
    requires p in Apply(s.audit, e.move).at
    ensures ContentAt(Perform(s.sys, tid, e).sys, p) == ContentAt(s.sys, p)
  {
    DecentIsProper(w, s, tid, e);
    TrackedStays(s.sys, InHand(tid), s.audit, Perform(s.sys, tid, e), p);
  }

  lemma TrackedStays(s: Sys, hand: Place, a: Audit, o: Outcome, p: Place)
    requires Tracks(s, hand, o.move, o.sys) && Fits(a, o.move) && p != hand && !MovesInto(o.move, p)
    requires o.move.Note? ==> o.move.at == hand
    requires p in Apply(a, o.move).at
    ensures ContentAt(o.sys, p) == ContentAt(s, p)
  {
  }

  /** A record that stays where it is has not been stored again. */
  lemma StayingIsNotStashed(a: Audit, m: Move, p: Place, hand: Place)
    requires Fits(a, m) && Linear(a) && p in a.at && p in Apply(a, m).at && !MovesInto(m, p)
    requires NoteOf(m).Some? && NoteOf(m).value.CalledBack? ==> m.Shift?
    ensures !Stashed(a, Apply(a, m), a.at[p])
  {
    TrailOver(a, m, a.at[p], hand);
  }

  /** Every waiting record of s expires when due says. */
  ghost predicate AllPunctual(s: State, due: nat -> int) {
    forall p | p in s.audit.at && Waiting(ContentAt(s.sys, p)).Some? ::
      Waiting(ContentAt(s.sys, p)).value == due(s.audit.at[p])
  }

  /** The record at p after the step: stored just now, or due as before. */
  ghost predicate PunctualAfter(w: World, s: State, s': State, due: nat -> int, p: Place) {
    p in s'.audit.at && Waiting(ContentAt(s'.sys, p)).Some? ==>
      Waiting(ContentAt(s'.sys, p)).value
      == if Stashed(s.audit, s'.audit, s'.audit.at[p]) then Stamp(w, s'.sys.now + PENDING_TTL) else due(s'.audit.at[p])
  }

  lemma ArrivalPunctual(w: World, s: State, tid: nat, e: Effect, p: Place, due: nat -> int)
    requires AllPunctual(s, due) && Fits(s.audit, e.move) && Times(w, s.sys, tid, e)
    requires MovesInto(e.move, p) && (p.PendingAt? || p.InHand?)
    ensures PunctualAfter(w, s, Land(s, Perform(s.sys, tid, e)), due, p)
  {
    ArrivalTimes(w, s, tid, e, p);
  }

  lemma BystanderPunctual(w: World, s: State, tid: nat, e: Effect, p: Place, due: nat -> int)
    requires AllPunctual(s, due) && Decent(w, s, tid, e) && Times(w, s.sys, tid, e) && Linear(s.audit)
    requires !MovesInto(e.move, p) && p != InHand(tid)
    ensures PunctualAfter(w, s, Land(s, Perform(s.sys, tid, e)), due, p)
  {
    if p in Apply(s.audit, e.move).at {
      DecentFits(w, s, tid, e);
      BystanderStays(w, s, tid, e, p);
      ApplyPlace(s.audit, e.move, p);
      StayingIsNotStashed(s.audit, e.move, p, InHand(tid));
    }
  }

  lemma OwnHandPunctual(w: World, s: State, tid: nat, e: Effect, due: nat -> int)
    requires Times(w, s.sys, tid, e) && !MovesInto(e.move, InHand(tid))
    ensures PunctualAfter(w, s, Land(s, Perform(s.sys, tid, e)), due, InHand(tid))
  {
    FlightsAfter(s.sys, tid, e);
  }

  lemma EffectPunctual(w: World, s: State, tid: nat, e: Effect, p: Place, due: nat -> int)
    requires AllPunctual(s, due) && Decent(w, s, tid, e) && Times(w, s.sys, tid, e) && Linear(s.audit)
    ensures PunctualAfter(w, s, Land(s, Perform(s.sys, tid, e)), due, p)
  {
    if MovesInto(e.move, p) && (p.PendingAt? || p.InHand?) {
      DecentFits(w, s, tid, e);
      ArrivalPunctual(w, s, tid, e, p, due);
    } else if p == InHand(tid) {
      OwnHandPunctual(w, s, tid, e, due);
    } else if p.PendingAt? || p.InHand? {
      BystanderPunctual(w, s, tid, e, p, due);
    }
  }

  lemma TickPunctual(s: State, n: nat, due: nat -> int)
    requires AllPunctual(s, due)
    ensures AllPunctual(State(Ticked(s.sys, n), s.audit), due)
  {
    forall p
      ensures ContentAt(Ticked(s.sys, n), p) == ContentAt(s.sys, p)
    {
    }
  }

  lemma AdvancePunctual(w: World, s: State, tid: nat, io: IO, p: Place, due: nat -> int)
    requires Sound(w) && Inv(w, s) && tid in s.sys.flights && AllPunctual(s, due)
    ensures PunctualAfter(w, s, Land(s, Advanced(w, s.sys, tid, io)), due, p)
  {
    var t, f := State(Ticked(s.sys, io.tick), s.audit), s.sys.flights[tid];
    TickKeepsCore(w, s, io.tick);
    TickKeepsFresh(w, s.sys, io.tick);
    TickPunctual(s, io.tick, due);
    ProceedIsDecent(w, t, tid, f, io);
    ProceedTimes(w, t.sys, tid, f, io);
    EffectPunctual(w, t, tid, Proceed(w, t.sys, tid, f, io), p, due);
  }

  lemma StartPunctual(w: World, s: State, tid: nat, request: Request, p: Place, due: nat -> int)
    requires Core(w, s) && tid !in s.sys.flights && AllPunctual(s, due)
    ensures PunctualAfter(w, s, Land(s, Perform(s.sys, tid, Quiet(Admit(w, request)))), due, p)
  {
    var e := Quiet(Admit(w, request));
    PlaceIsSettled(w, s, InHand(tid));
    GoOn(w, s, tid, e);
    EffectPunctual(w, s, tid, e, p, due);
  }

  lemma LostPunctual(w: World, s: State, place: Place, p: Place, due: nat -> int)
    requires Core(w, s) && AllPunctual(s, due)
    ensures PunctualAfter(w, s, Land(s, ActLost(s.sys, place)), due, p)
  {
    var o := ActLost(s.sys, place);
    LostMoves(s.sys, place);
    LostFits(w, s, place);
    if p in Apply(s.audit, o.move).at {
      LostElsewhere(s, place, p);
      ApplyPlace(s.audit, o.move, p);
      StayingIsNotStashed(s.audit, o.move, p, place);
    }
  }

  lemma LostElsewhere(s: State, place: Place, p: Place)
    requires Fits(s.audit, ActLost(s.sys, place).move) && p in Apply(s.audit, ActLost(s.sys, place).move).at
    ensures ContentAt(ActLost(s.sys, place).sys, p) == ContentAt(s.sys, p)
  {
    if place.InHand? && ActLost(s.sys, place).move.Close? {
      FlightsAfter(s.sys, place.tid, Drop(place.tid, Crashed, Reaped));
    }
  }

  lemma SessionLostPunctual(w: World, s: State, key: string, p: Place, due: nat -> int)
    requires AllPunctual(s, due)
    ensures PunctualAfter(w, s, State(Written(s.sys, DelSession(key)), s.audit), due, p)
  {
    assert ContentAt(Written(s.sys, DelSession(key)), p) == ContentAt(s.sys, p);
  }

  lemma StepPunctual(w: World, s: State, e: Event, p: Place, due: nat -> int)
    requires Sound(w) && Inv(w, s) && AllPunctual(s, due)
    ensures PunctualAfter(w, s, Step(w, s, e), due, p)
  {
    match e {
      case Start(tid, request) =>
        if tid !in s.sys.flights {
          StartPunctual(w, s, tid, request, p, due);
        }
      case Advance(tid, io) =>
        if tid in s.sys.flights {
          AdvancePunctual(w, s, tid, io, p, due);
          assert Act(w, s.sys, e) == Advanced(w, s.sys, tid, io);
        }
      case Lost(place) => LostPunctual(w, s, place, p, due);
      case SessionLost(key) => SessionLostPunctual(w, s, key, p, due);
    }
  }

  lemma StepAllPunctual(w: World, s: State, e: Event, due: nat -> int, after: nat -> int)
    requires Sound(w) && Inv(w, s) && AllPunctual(s, due)
    requires var s' := Step(w, s, e);
             forall r: nat ::
               after(r) == if Stashed(s.audit, s'.audit, r) then Stamp(w, s'.sys.now + PENDING_TTL) else due(r)
    ensures AllPunctual(Step(w, s, e), after)
  {
    var s' := Step(w, s, e);
    forall p | p in s'.audit.at && Waiting(ContentAt(s'.sys, p)).Some?
      ensures Waiting(ContentAt(s'.sys, p)).value == after(s'.audit.at[p])
    {
      StepPunctual(w, s, e, p, due);
    }
  }

  lemma DueAfter(w: World, es: seq<Event>, r: nat)
    requires es != []
    ensures var init := es[..|es| - 1];
            Due(w, es, r)
            == if Stashed(Reached(w, init).audit, Reached(w, es).audit, r)
               then Stamp(w, Reached(w, es).sys.now + PENDING_TTL) else Due(w, init, r)
  {
  }

  /** In every run every record that waits for Cognito or for consent expires
      fifteen minutes after it was last stored, as the store keeps that time. */
  lemma {:induction false} RecordsArePunctual(w: World, es: seq<Event>)
    requires Sound(w)
    ensures AllPunctual(Reached(w, es), (r: nat) => Due(w, es, r))
  {
    if es == [] {
    } else {
      var init, last := es[..|es| - 1], es[|es| - 1];
      RecordsArePunctual(w, init);
      AlwaysInv(w, init);
      forall r: nat {
        DueAfter(w, es, r);
      }
      StepAllPunctual(w, Reached(w, init), last, (r: nat) => Due(w, init, r), (r: nat) => Due(w, es, r));
    }
  }

  /** In every run a callback or a consent POST finds its authorization in time if
      and only if it checks no later than fifteen minutes after the record was
      last stored: the login after authorize, the consent after the last login.
      Otherwise the authorization ends. */
  lemma ChecksAreTimely(w: World, es: seq<Event>, tid: nat, io: IO)
    requires Sound(w) && tid in Reached(w, es).sys.flights
    requires var f := Reached(w, es).sys.flights[tid]; f.CallbackCheck? || f.ConsentCheck?
    ensures InHand(tid) in Reached(w, es).audit.at
    ensures var s, s' := Reached(w, es), Step(w, Reached(w, es), Advance(tid, io));
            var r := s.audit.at[InHand(tid)];
            && r < |s'.audit.trails|
            && (PhaseOf(s'.audit.trails[r]).Over? <==> s.sys.now + io.tick > Due(w, es, r))
  {
    HeldIsPunctual(w, es, tid);
    EndsIffFails(w, es, tid, io);
    FailsIffLate(w, SceneOf(w, es, tid, io));
  }

  lemma HeldIsPunctual(w: World, es: seq<Event>, tid: nat)
    requires Sound(w) && tid in Reached(w, es).sys.flights
    requires var f := Reached(w, es).sys.flights[tid]; f.CallbackCheck? || f.ConsentCheck?
    ensures InHand(tid) in Reached(w, es).audit.at
    ensures Reached(w, es).sys.flights[tid].p.expires == Due(w, es, Reached(w, es).audit.at[InHand(tid)])
  {
    var r := HeldRecord(w, es, tid);
    RecordsArePunctual(w, es);
    WaitingIsDue(Reached(w, es), tid, (r: nat) => Due(w, es, r));
  }

  lemma WaitingIsDue(s: State, tid: nat, due: nat -> int)
    requires AllPunctual(s, due) && InHand(tid) in s.audit.at && tid in s.sys.flights
    requires s.sys.flights[tid].CallbackCheck? || s.sys.flights[tid].ConsentCheck?
    ensures s.sys.flights[tid].p.expires == due(s.audit.at[InHand(tid)])
  {
    assert Waiting(ContentAt(s.sys, InHand(tid))) == Some(s.sys.flights[tid].p.expires);
  }

  lemma FailsIffLate(w: World, c: Scene)
    requires c.f.CallbackCheck? || c.f.ConsentCheck?
    ensures Fails(w, c) <==> c.now > c.f.p.expires
  {
    assert Because(w, c, Expired) <==> c.now > c.f.p.expires;
  }

  // ----- From the check to the code

  /** In its j-th event the run had consent handler tid, with the record of r in
      hand, compare its expiry with the clock, in time. */
  predicate CheckedIn(w: World, es: seq<Event>, j: nat, tid: nat, r: nat) {
    && j < |es| && es[j].Advance? && es[j].tid == tid
    && tid in Reached(w, es[..j]).sys.flights && Reached(w, es[..j]).sys.flights[tid].ConsentCheck?
    && Carrying(Reached(w, es[..j]), InHand(tid), r)
    && Reached(w, es[..j]).sys.now + es[j].io.tick <= Due(w, es[..j], r)
  }

  ghost predicate CheckedInTime(w: World, es: seq<Event>, tid: nat, r: nat) {
    exists j: nat :: CheckedIn(w, es, j, tid, r)
  }

  lemma CheckStays(w: World, es: seq<Event>, more: seq<Event>, tid: nat, r: nat)
    requires es <= more && CheckedInTime(w, es, tid, r)
    ensures CheckedInTime(w, more, tid, r)
  {
    var j: nat :| CheckedIn(w, es, j, tid, r);
    assert more[..j] == es[..j];
    assert CheckedIn(w, more, j, tid, r);
  }

  predicate PastCheck(f: Flight) {
    f.ConsentLookup? || f.ConsentMint?
  }

  /** Where a handler past its check was one step earlier. */
  lemma ComesFromCheck(w: World, s: Sys, tid: nat, f: Flight, io: IO)
    requires PastCheck(Proceed(w, s, tid, f, io).next)
    ensures (f.ConsentCheck? && s.now <= f.p.expires) || f.ConsentLookup?
  {
  }

  lemma PassesCheckNow(w: World, es: seq<Event>, tid: nat, io: IO)
    requires Sound(w) && tid in Reached(w, es).sys.flights && Reached(w, es).sys.flights[tid].ConsentCheck?
    requires Reached(w, es).sys.now + io.tick <= Reached(w, es).sys.flights[tid].p.expires
    ensures InHand(tid) in Reached(w, es).audit.at
    ensures CheckedInTime(w, es + [Advance(tid, io)], tid, Reached(w, es).audit.at[InHand(tid)])
  {
    HeldIsPunctual(w, es, tid);
    var next, n := es + [Advance(tid, io)], |es|;
    assert next[..n] == es;
    assert CheckedIn(w, next, n, tid, Reached(w, es).audit.at[InHand(tid)]);
  }

  /** In every run a consent that is on its way to a code passed its check within
      fifteen minutes of the login it follows. */
  lemma {:induction false} ConsentsWereTimely(w: World, es: seq<Event>, tid: nat, r: nat)
    requires Sound(w) && Carrying(Reached(w, es), InHand(tid), r)
    requires tid in Reached(w, es).sys.flights && PastCheck(Reached(w, es).sys.flights[tid])
    ensures CheckedInTime(w, es, tid, r)
  {
    if es == [] {
    } else {
      var init, last := es[..|es| - 1], es[|es| - 1];
      var s := Reached(w, init);
      assert init + [last] == es;
      AlwaysInv(w, init);
      FlightFollows(w, s.sys, last, tid);
      HeldBefore(w, s, last, tid, r);
      PastOrPassing(w, s.sys, last, tid);
      if s.sys.flights[tid].ConsentCheck? {
        PassesCheckNow(w, init, tid, last.io);
      } else {
        ConsentsWereTimely(w, init, tid, r);
        CheckStays(w, init, es, tid, r);
      }
    }
  }

  lemma PastOrPassing(w: World, s: Sys, e: Event, tid: nat)
    requires tid in s.flights
    requires var f := FlightAfter(w, s, e, tid); f.Some? && PastCheck(f.value)
    ensures PastCheck(s.flights[tid])
            || (e.Advance? && e.tid == tid && s.flights[tid].ConsentCheck?
                && s.now + e.io.tick <= s.flights[tid].p.expires)
  {
    if e.Advance? && e.tid == tid {
      ComesFromCheck(w, Ticked(s, e.io.tick), tid, s.flights[tid], e.io);
    }
  }

  /** The record a handler past its check holds was in its hands before. */
  lemma HeldBefore(w: World, s: State, e: Event, tid: nat, r: nat)
    requires Sound(w) && Inv(w, s) && Carrying(Step(w, s, e), InHand(tid), r)
    requires var f := FlightAfter(w, s.sys, e, tid); f.Some? && PastCheck(f.value)
    ensures Carrying(s, InHand(tid), r) && tid in s.sys.flights
  {
    var m := Act(w, s.sys, e).move;
    StepFits(w, s, e);
    ApplyPlace(s.audit, m, InHand(tid));
    NotIntoPastCheck(w, s.sys, e, tid);
  }

  lemma NotIntoPastCheck(w: World, s: Sys, e: Event, tid: nat)
    requires var f := FlightAfter(w, s, e, tid); f.Some? && PastCheck(f.value)
    ensures !MovesInto(Act(w, s, e).move, InHand(tid)) && tid in s.flights
  {
    match e {
      case Start(_, _) =>
      case Advance(other, io) =>
        if other in s.flights {
          var t := Ticked(s, io.tick);
          ProceedTimes(w, t, other, s.flights[other], io);
          assert Act(w, s, e) == Advanced(w, s, other, io);
          if other == tid {
            ComesFromCheck(w, t, tid, s.flights[tid], io);
          }
        }
      case Lost(place) => LostMoves(s, place);
      case SessionLost(_) =>
    }
  }

  /** The i-th event of the run wrote approval u on r's trail, by a handler that a
      consent POST with action "approve" had brought in, that had taken r's record
      from under the key the POST named, and that had passed its check in time. */
  ghost predicate ApprovedInTime(w: World, es: seq<Event>, i: nat, r: nat, u: Trail) {
    && Wrote(w, es, i, r, u) && es[i].Advance?
    && CheckedInTime(w, es[..i], es[i].tid, r)
    && (exists q :: Brought(w, es, es[i].tid, q, r) && q.ConsentRequest? && q.action == "approve")
  }

  /** In every run a code comes from a consent POST that passed its check within
      fifteen minutes of the login before it. */
  lemma ApprovalsWereTimely(w: World, es: seq<Event>, r: nat, u: Trail)
    requires Sound(w) && r < |Reached(w, es).audit.trails|
    requires Within(u, Reached(w, es).audit.trails[r]) && u.More? && u.fact.Approved?
    ensures exists i: nat :: ApprovedInTime(w, es, i, r, u)
  {
    var i, c := DeedBrought(w, es, r, u);
    MintsPastCheck(w, c, u.fact);
    ConsentsWereTimely(w, es[..i], c.tid, r);
    assert Brought(w, es, es[i].tid, c.q, r) && c.q.ConsentRequest? && c.q.action == "approve";
    assert ApprovedInTime(w, es, i, r, u);
  }

  lemma MintsPastCheck(w: World, c: Scene, f: Fact)
    requires f.Approved? && Deed(w, c, f)
    ensures PastCheck(c.f)
  {
  }

  /** The code itself may come any time after that: the check is not repeated when
      it is made, however far the clock has moved. */
  lemma CodeMayLag(w: World, es: seq<Event>, tid: nat, io: IO) returns (r: nat)
    requires Sound(w) && io.ok
    requires tid in Reached(w, es).sys.flights && Reached(w, es).sys.flights[tid].ConsentMint?
    ensures Carrying(Reached(w, es), InHand(tid), r)
    ensures NotesApproval(w, Reached(w, es), Step(w, Reached(w, es), Advance(tid, io)), r,
                          Reached(w, es).sys.now + io.tick)
  {
    r := HeldRecord(w, es, tid);
    MintStep(w, Reached(w, es), tid, io, r);
  }

  lemma HeldRecord(w: World, es: seq<Event>, tid: nat) returns (r: nat)
    requires Sound(w) && tid in Reached(w, es).sys.flights && Holding(Reached(w, es).sys.flights[tid])
    ensures Carrying(Reached(w, es), InHand(tid), r) && r < |Reached(w, es).audit.trails|
  {
    AlwaysInv(w, es);
    CoreKnows(w, Reached(w, es), InHand(tid));
    r := Reached(w, es).audit.at[InHand(tid)];
  }

  /** r's trail grows by the approval of the next random string, at that time. */
  predicate NotesApproval(w: World, s: State, s': State, r: nat, at: int) {
    && r < |s.audit.trails| && r < |s'.audit.trails|
    && s'.audit.trails[r] == More(s.audit.trails[r], Approved(w.coin(s.sys.drawn), at))
  }

  lemma MintStep(w: World, s: State, tid: nat, io: IO, r: nat)
    requires io.ok && tid in s.sys.flights && s.sys.flights[tid].ConsentMint?
    requires Carrying(s, InHand(tid), r) && r < |s.audit.trails|
    ensures NotesApproval(w, s, Step(w, s, Advance(tid, io)), r, s.sys.now + io.tick)
  {
    var p := s.sys.flights[tid].p;
    StepIsEffect(w, s, tid, io, ActConsentMint(w, Ticked(s.sys, io.tick), tid, p, io));
    MintNotes(w, s, tid, p, io, r);
  }

  lemma MintNotes(w: World, s: State, tid: nat, p: PendingAuth, io: IO, r: nat)
    requires io.ok && Carrying(s, InHand(tid), r) && r < |s.audit.trails|
    ensures var t := After(s, tid, io.tick, ActConsentMint(w, Ticked(s.sys, io.tick), tid, p, io)).audit.trails;
            r < |t| && t[r] == More(s.audit.trails[r], Approved(w.coin(s.sys.drawn), s.sys.now + io.tick))
  {
  }
}
