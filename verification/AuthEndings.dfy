/** How authorizations end: an answer that gives nothing more to come ends the
    one whose record the handler held, and those that have ended are exactly
    those without a record. */
module AuthEndings {
  import opened Basics
  import opened AuthRecords
  import opened Lineage
  import opened LineageTheorems
  import opened AuthSteps
  import opened AuthAudit
  import opened AuthSafety
  import opened AuthInvariant
  import opened AuthTheorems

  /** An error, an access token without a refresh token, or access_denied. */
  predicate DeadEnd(r: Response) {
    match r
    case Failed(_) => true
    case Tokens(_, refresh, _) => refresh.None?
    case Redirected(_, _, params) => params.AccessDenied?
    case _ => false
  }

  /** If the handler is done after this step, its record is given up exactly
      when its answer is a dead end. */
  predicate ClosesIffDeadEnd(e: Effect, tid: nat) {
    e.next.Done? ==>
      if DeadEnd(e.next.response) then e.move.Close? && e.move.from == InHand(tid)
      else e.move.Shift? && e.move.from == InHand(tid) && !(e.move.note.Some? && e.move.note.value.Ended?)
           && e.move.to != InHand(tid)
  }

  lemma {:induction false} HolderCloses(w: World, s: Sys, tid: nat, f: Flight, io: IO)
    requires Holding(f)
    ensures ClosesIffDeadEnd(Proceed(w, s, tid, f, io), tid)
  {
  }

  lemma {:induction false} PerformGoesNext(s: Sys, tid: nat, e: Effect)
    ensures var o := Perform(s, tid, e);
            tid in o.sys.flights && o.sys.flights[tid] == e.next && o.move == e.move
  {
  }

  lemma {:induction false} MoveEnds(a: Audit, m: Move, tid: nat, r: nat)
    requires Fits(a, m) && InHand(tid) in a.at && a.at[InHand(tid)] == r
    requires m.Close? || m.Shift?
    requires if m.Close? then m.from == InHand(tid)
             else m.from == InHand(tid) && !(m.note.Some? && m.note.value.Ended?)
    requires PhaseOf(a.trails[r]) != Over
    ensures r < |Apply(a, m).trails| && (PhaseOf(Apply(a, m).trails[r]).Over? <==> m.Close?)
  {
  }

  lemma {:induction false} AdvanceEnds(w: World, s: State, tid: nat, io: IO)
    requires Sound(w) && Inv(w, s) && tid in s.sys.flights && Holding(s.sys.flights[tid])
    ensures InHand(tid) in s.audit.at
    ensures var s' := Land(s, Advanced(w, s.sys, tid, io));
            var r := s.audit.at[InHand(tid)];
            && tid in s'.sys.flights && r < |s'.audit.trails|
            && (s'.sys.flights[tid].Done? ==>
                  (PhaseOf(s'.audit.trails[r]).Over? <==> DeadEnd(s'.sys.flights[tid].response)))
  {
    var t, f := State(Ticked(s.sys, io.tick), s.audit), s.sys.flights[tid];
    var e := Proceed(w, t.sys, tid, f, io);
    CoreKnows(w, s, InHand(tid));
    TickKeepsCore(w, s, io.tick);
    TickKeepsFresh(w, s.sys, io.tick);
    ProceedFits(w, t, tid, f, io);
    PerformGoesNext(t.sys, tid, e);
    TrailsKept(s.audit, e.move, s.audit.at[InHand(tid)]);
    if e.next.Done? {
      HolderCloses(w, t.sys, tid, f, io);
      StoredIsOpen(w, s, InHand(tid));
      MoveEnds(s.audit, e.move, tid, s.audit.at[InHand(tid)]);
    }
  }

  lemma {:induction false} TrailsKept(a: Audit, m: Move, r: nat)
    requires r < |a.trails|
    ensures r < |Apply(a, m).trails|
  {
  }

  /** In every run: when a handler that held a record answers, its authorization
      is over if and only if the answer is a dead end, that is a refusal, a
      failure, no refresh token, or access_denied. */
  lemma {:induction false} AnswerEndsIffDeadEnd(w: World, es: seq<Event>, tid: nat, io: IO)
    requires Sound(w)
    requires tid in Reached(w, es).sys.flights && Holding(Reached(w, es).sys.flights[tid])
    ensures InHand(tid) in Reached(w, es).audit.at
    ensures var s := Reached(w, es);
            var s' := Step(w, s, Advance(tid, io));
            var r := s.audit.at[InHand(tid)];
            && tid in s'.sys.flights && r < |s'.audit.trails|
            && (s'.sys.flights[tid].Done? ==>
                  (PhaseOf(s'.audit.trails[r]).Over? <==> DeadEnd(s'.sys.flights[tid].response)))
  {
    AlwaysInv(w, es);
    AdvanceEnds(w, Reached(w, es), tid, io);
    assert Act(w, Reached(w, es).sys, Advance(tid, io)) == Advanced(w, Reached(w, es).sys, tid, io);
  }

  // ----- Ended means gone, and gone means ended

  /** Authorization r has ended, or its record is somewhere. */
  ghost predicate Accounted(a: Audit, r: nat)
    requires r < |a.trails|
  {
    PhaseOf(a.trails[r]).Over? || exists p :: p in a.at && a.at[p] == r
  }

  ghost predicate AllAccounted(a: Audit) {
    forall r | 0 <= r < |a.trails| :: Accounted(a, r)
  }

  lemma {:induction false} OthersKept(a: Audit, m: Move, r: nat, p: Place)
    requires Fits(a, m) && p in a.at && a.at[p] == r < |a.trails|
    ensures r < |Apply(a, m).trails| && Accounted(Apply(a, m), r)
  {
    var b := Apply(a, m);
    match m {
      case Stay => assert p in b.at;
      case Open(to, _) => assert p in b.at && b.at[p] == r;
      case Note(_, _) => assert p in b.at && b.at[p] == r;
      case Shift(from, to, _) =>
        if p == from {
          assert to in b.at && b.at[to] == r;
        } else {
          assert p in b.at && b.at[p] == r;
        }
      case Close(from, _) =>
        if p != from {
          assert p in b.at && b.at[p] == r;
        }
    }
  }

  lemma {:induction false} MoveAccounts(a: Audit, m: Move)
    requires AllAccounted(a) && Fits(a, m) && Linear(a)
    requires forall p | p in a.at :: !PhaseOf(a.trails[a.at[p]]).Over?
    ensures AllAccounted(Apply(a, m))
  {
    var b := Apply(a, m);
    forall r | 0 <= r < |b.trails|
      ensures Accounted(b, r)
    {
      if r == |a.trails| {
        assert m.to in b.at && b.at[m.to] == r;
      } else if PhaseOf(a.trails[r]).Over? {
        OverKept(a, m, r);
      } else {
        assert Accounted(a, r);
        var p :| p in a.at && a.at[p] == r;
        OthersKept(a, m, r, p);
      }
    }
  }

  lemma {:induction false} OverKept(a: Audit, m: Move, r: nat)
    requires r < |a.trails| && PhaseOf(a.trails[r]).Over?
    requires forall p | p in a.at :: a.at[p] < |a.trails| && !PhaseOf(a.trails[a.at[p]]).Over?
    ensures r < |Apply(a, m).trails| && Apply(a, m).trails[r] == a.trails[r]
  {
    ApplyLeavesOthers(a, m, r);
  }

  lemma {:induction false} AdvanceFits(w: World, s: State, tid: nat, io: IO)
    requires Sound(w) && Inv(w, s) && tid in s.sys.flights
    ensures Fits(s.audit, Act(w, s.sys, Advance(tid, io)).move)
  {
    var t, f := State(Ticked(s.sys, io.tick), s.audit), s.sys.flights[tid];
    TickKeepsCore(w, s, io.tick);
    TickKeepsFresh(w, s.sys, io.tick);
    ProceedFits(w, t, tid, f, io);
    PerformGoesNext(t.sys, tid, Proceed(w, t.sys, tid, f, io));
  }

  lemma {:induction false} LostFits(w: World, s: State, place: Place)
    requires Core(w, s)
    ensures Fits(s.audit, ActLost(s.sys, place).move)
  {
    CoreKnows(w, s, place);
  }

  lemma {:induction false} StepFits(w: World, s: State, e: Event)
    requires Sound(w) && Inv(w, s)
    ensures Fits(s.audit, Act(w, s.sys, e).move)
  {
    match e {
      case Advance(tid, io) =>
        if tid in s.sys.flights {
          AdvanceFits(w, s, tid, io);
        }
      case Lost(place) => LostFits(w, s, place);
      case _ =>
    }
  }

  lemma {:induction false} StepAccounts(w: World, s: State, e: Event)
    requires Sound(w) && Inv(w, s) && AllAccounted(s.audit)
    ensures AllAccounted(Step(w, s, e).audit)
  {
    StepFits(w, s, e);
    forall p | p in s.audit.at
      ensures s.audit.at[p] < |s.audit.trails| && !PhaseOf(s.audit.trails[s.audit.at[p]]).Over?
    {
      OverIsOffTheLedger(w, s, p);
    }
    MoveAccounts(s.audit, Act(w, s.sys, e).move);
  }

  lemma {:induction false} RunAccounts(w: World, es: seq<Event>)
    requires Sound(w)
    ensures AllAccounted(Reached(w, es).audit)
  {
    if es == [] {
    } else {
      var init := es[..|es| - 1];
      RunAccounts(w, init);
      AlwaysInv(w, init);
      StepAccounts(w, Reached(w, init), es[|es| - 1]);
    }
  }

  /** In every run an authorization has ended if and only if it has no record
      anywhere. */
  lemma {:induction false} OverIffNoRecord(w: World, es: seq<Event>, r: nat)
    requires Sound(w) && r < |Reached(w, es).audit.trails|
    ensures LiveRecords(Reached(w, es), r) == {} <==> PhaseOf(Reached(w, es).audit.trails[r]).Over?
  {
    var s := Reached(w, es);
    AlwaysInv(w, es);
    RunAccounts(w, es);
    if PhaseOf(s.audit.trails[r]).Over? {
      forall p | p in s.audit.at
        ensures s.audit.at[p] != r
      {
        OverIsOffTheLedger(w, s, p);
      }
    } else {
      assert Accounted(s.audit, r);
      var p :| p in s.audit.at && s.audit.at[p] == r;
      assert p in LiveRecords(s, r);
    }
  }

  /** So a refusal, a failure, a missing refresh token or a denial is for good:
      whatever comes later, the authorization whose record the handler held has
      no record, no session and no other fact added to it. */
  lemma {:induction false} DeadEndIsForever(w: World, es: seq<Event>, tid: nat, io: IO, later: seq<Event>)
    requires Sound(w)
    requires tid in Reached(w, es).sys.flights && Holding(Reached(w, es).sys.flights[tid])
    requires InHand(tid) in Reached(w, es).audit.at
    requires var s' := Step(w, Reached(w, es), Advance(tid, io));
             tid in s'.sys.flights && s'.sys.flights[tid].Done? && DeadEnd(s'.sys.flights[tid].response)
    ensures var r, s' := Reached(w, es).audit.at[InHand(tid)], Step(w, Reached(w, es), Advance(tid, io));
            var t := Run(w, s', later);
            && r < |s'.audit.trails| && r < |t.audit.trails| && t.audit.trails[r] == s'.audit.trails[r]
            && LiveRecords(t, r) == {}
  {
    var next := es + [Advance(tid, io)];
    assert next[..|es|] == es;
    AnswerEndsIffDeadEnd(w, es, tid, io);
    EndedForever(w, next, later, Reached(w, es).audit.at[InHand(tid)]);
  }
}
