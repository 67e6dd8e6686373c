/** Puts that report an error and take effect all the same. Nothing becomes usable
    twice; what is lost is that a refusal ends its authorization. */
module PhantomPuts {
  import opened Basics
  import opened Redirects
  import opened AuthRecords
  import opened Lineage
  import opened AuthSteps
  import opened AuthAudit
  import opened AuthSafety
  import opened AuthDecency
  import opened AuthInvariant
  import opened AuthTheorems
  import opened AuthEndings
  import opened AuthHistory

  /** An event as before, or a step of handler tid whose put takes effect although
      the handler is told that it failed. */
  datatype Happening = Plain(e: Event) | Phantom(tid: nat, io: IO)

  /** The steps that put something. */
  predicate PutPoint(f: Flight) {
    || f.Registering? || f.AuthorizeStash? || f.CallbackStash? || f.ConsentMint?
    || f.CodeSession? || f.CodeIssue? || f.RefreshSession? || f.RefreshRotate?
  }

  /** The tables of the success, the answer of the failure. */
  function PhantomEffect(w: World, s: Sys, tid: nat, f: Flight, io: IO): Effect {
    Proceed(w, s, tid, f, io.(ok := true)).(next := Proceed(w, s, tid, f, io.(ok := false)).next)
  }

  function Happen(w: World, s: State, h: Happening): State {
    match h
    case Plain(e) => Step(w, s, e)
    case Phantom(tid, io) =>
      if tid !in s.sys.flights || !PutPoint(s.sys.flights[tid]) then s
      else
        var t := Ticked(s.sys, io.tick);
        Land(s, Perform(t, tid, PhantomEffect(w, t, tid, s.sys.flights[tid], io)))
  }

  function HappenAll(w: World, s: State, hs: seq<Happening>): State {
    if hs == [] then s else Happen(w, HappenAll(w, s, hs[..|hs| - 1]), hs[|hs| - 1])
  }

  // ----- The invariant

  lemma LoginPutNexts(w: World, s: Sys, tid: nat, f: Flight, io: IO)
    requires f.Registering? || f.AuthorizeStash? || f.CallbackStash? || f.ConsentMint?
    ensures Proceed(w, s, tid, f, io).next.Done?
  {
  }

  lemma SessionNexts(w: World, s: Sys, tid: nat, f: Flight, io: IO)
    requires f.CodeSession? || f.RefreshSession?
    ensures Proceed(w, s, tid, f, io).next == Proceed(w, s, tid, f, io.(ok := true)).next
  {
  }

  lemma TokenPutNexts(w: World, s: Sys, tid: nat, f: Flight, io: IO)
    requires f.CodeIssue? || f.RefreshRotate?
    ensures Proceed(w, s, tid, f, io).next.Done?
  {
  }

  /** Success and failure go on the same way, or both are answers. */
  lemma PutNexts(w: World, s: Sys, tid: nat, f: Flight, io: IO)
    requires PutPoint(f)
    ensures var good, bad := Proceed(w, s, tid, f, io.(ok := true)).next, Proceed(w, s, tid, f, io.(ok := false)).next;
            good == bad || (good.Done? && bad.Done?)
  {
    if f.CodeSession? || f.RefreshSession? {
      SessionNexts(w, s, tid, f, io.(ok := false));
    } else if f.CodeIssue? || f.RefreshRotate? {
      TokenPutNexts(w, s, tid, f, io.(ok := true));
      TokenPutNexts(w, s, tid, f, io.(ok := false));
    } else {
      LoginPutNexts(w, s, tid, f, io.(ok := true));
      LoginPutNexts(w, s, tid, f, io.(ok := false));
    }
  }

  /** What the ledger follows does not depend on which answer is given. */
  lemma OtherAnswerDecent(w: World, s: State, tid: nat, e: Effect, n: Flight)
    requires Decent(w, s, tid, e) && (n == e.next || (n.Done? && e.next.Done?))
    ensures Decent(w, s, tid, e.(next := n))
  {
  }

  lemma PhantomIsDecent(w: World, s: State, tid: nat, f: Flight, io: IO)
    requires Informed(w, s, tid, f) && PutPoint(f)
    ensures Decent(w, s, tid, PhantomEffect(w, s.sys, tid, f, io))
  {
    PutNexts(w, s.sys, tid, f, io);
    ProceedIsDecent(w, s, tid, f, io.(ok := true));
    OtherAnswerDecent(w, s, tid, Proceed(w, s.sys, tid, f, io.(ok := true)),
                      Proceed(w, s.sys, tid, f, io.(ok := false)).next);
  }

  /** Any effect that is decent, clean and safe keeps the invariant. */
  lemma EffectKeepsInv(w: World, s: State, tid: nat, e: Effect)
    requires Sound(w) && Inv(w, s) && Decent(w, s, tid, e)
    requires CleanWrite(w, s.sys, e) && ReplySafe(w, s.sys, e.next) && SafeClient(w, e.write)
    ensures Inv(w, Land(s, Perform(s.sys, tid, e)))
  {
    EffectKeepsCore(w, s, tid, e);
    FreshKept(w, s.sys, tid, e);
    FreshWriteKeepsClients(w, s.sys, tid, e);
    PerformKeepsClients(w, s.sys, tid, e);
    PerformKeepsReplies(w, s.sys, tid, e);
    DecentFits(w, s, tid, e);
    SessionsStayTraced(w, s, tid, e);
  }

  lemma TickKeepsInv(w: World, s: State, n: nat)
    requires Inv(w, s)
    ensures Inv(w, State(Ticked(s.sys, n), s.audit))
  {
    TickKeepsCore(w, s, n);
    TickKeepsFresh(w, s.sys, n);
    forall h | h in s.sys.flights
      ensures ReplySafe(w, Ticked(s.sys, n), s.sys.flights[h])
    {
      ReplyLater(w, s.sys, Ticked(s.sys, n), s.sys.flights[h]);
    }
  }

  lemma CleanWhateverAnswered(w: World, s: Sys, e: Effect, n: Flight)
    requires CleanWrite(w, s, e)
    ensures CleanWrite(w, s, e.(next := n))
  {
  }

  lemma PhantomKeepsInv(w: World, s: State, tid: nat, f: Flight, io: IO)
    requires Sound(w) && Inv(w, s) && tid in s.sys.flights && s.sys.flights[tid] == f && PutPoint(f)
    ensures Inv(w, Land(s, Perform(s.sys, tid, PhantomEffect(w, s.sys, tid, f, io))))
  {
    var good, bad := Proceed(w, s.sys, tid, f, io.(ok := true)), Proceed(w, s.sys, tid, f, io.(ok := false));
    PhantomIsDecent(w, s, tid, f, io);
    ProceedWrites(w, s.sys, tid, f, io.(ok := true));
    ProceedReplies(w, s.sys, tid, f, io.(ok := true));
    ProceedReplies(w, s.sys, tid, f, io.(ok := false));
    CleanWhateverAnswered(w, s.sys, good, bad.next);
    EffectKeepsInv(w, s, tid, PhantomEffect(w, s.sys, tid, f, io));
  }

  lemma HappenKeepsInv(w: World, s: State, h: Happening)
    requires Sound(w) && Inv(w, s)
    ensures Inv(w, Happen(w, s, h))
  {
    match h {
      case Plain(e) => StepKeepsInv(w, s, e);
      case Phantom(tid, io) =>
        if tid in s.sys.flights && PutPoint(s.sys.flights[tid]) {
          TickKeepsInv(w, s, io.tick);
          PhantomKeepsInv(w, State(Ticked(s.sys, io.tick), s.audit), tid, s.sys.flights[tid], io);
        }
    }
  }

  /** The invariant holds in every run, puts that only seem to fail included. */
  lemma {:induction false} AlwaysInvWithPhantoms(w: World, hs: seq<Happening>)
    requires Sound(w)
    ensures Inv(w, HappenAll(w, INITIAL, hs))
  {
    if hs == [] {
      InitialInv(w);
    } else {
      AlwaysInvWithPhantoms(w, hs[..|hs| - 1]);
      HappenKeepsInv(w, HappenAll(w, INITIAL, hs[..|hs| - 1]), hs[|hs| - 1]);
    }
  }

  // ----- Still nothing is used twice

  /** So there is still at most one live record of every authorization. */
  lemma OneLiveRecordStill(w: World, hs: seq<Happening>, r: nat)
    requires Sound(w)
    ensures |LiveRecords(HappenAll(w, INITIAL, hs), r)| <= 1
    ensures var s := HappenAll(w, INITIAL, hs); forall p :: ContentAt(s.sys, p) != Nothing <==> p in s.audit.at
  {
    AlwaysInvWithPhantoms(w, hs);
    AtMostOneElement(LiveRecords(HappenAll(w, INITIAL, hs), r));
  }

  lemma HappenKeepsRetired(w: World, s: State, h: Happening, p: Place)
    requires !p.InHand? && Retired(w, s.sys, p)
    ensures Retired(w, Happen(w, s, h).sys, p)
  {
    match h {
      case Plain(e) => StepKeepsRetired(w, s.sys, e, p);
      case Phantom(tid, io) =>
        if tid in s.sys.flights && PutPoint(s.sys.flights[tid]) {
          PhantomKeepsRetired(w, Ticked(s.sys, io.tick), tid, s.sys.flights[tid], io, p);
        }
    }
  }

  lemma PhantomKeepsRetired(w: World, s: Sys, tid: nat, f: Flight, io: IO, p: Place)
    requires !p.InHand? && Retired(w, s, p)
    ensures Retired(w, Perform(s, tid, PhantomEffect(w, s, tid, f, io)).sys, p)
  {
    var good := Proceed(w, s, tid, f, io.(ok := true));
    ProceedWrites(w, s, tid, f, io.(ok := true));
    CleanWhateverAnswered(w, s, good, Proceed(w, s, tid, f, io.(ok := false)).next);
    PerformKeepsRetired(w, s, tid, PhantomEffect(w, s, tid, f, io), p);
  }

  lemma {:induction false} AllKeepRetired(w: World, s: State, hs: seq<Happening>, p: Place)
    requires !p.InHand? && Retired(w, s.sys, p)
    ensures Retired(w, HappenAll(w, s, hs).sys, p)
  {
    if hs == [] {
    } else {
      AllKeepRetired(w, s, hs[..|hs| - 1], p);
      HappenKeepsRetired(w, HappenAll(w, s, hs[..|hs| - 1]), hs[|hs| - 1], p);
    }
  }

  lemma DrawnKept(w: World, s: State, h: Happening)
    ensures s.sys.drawn <= Happen(w, s, h).sys.drawn
  {
    match h {
      case Plain(e) => DrawsOnlyAdvance(w, s.sys, e);
      case Phantom(tid, io) =>
        if tid in s.sys.flights && PutPoint(s.sys.flights[tid]) {
          var t := Ticked(s.sys, io.tick);
          PerformDraws(t, tid, PhantomEffect(w, t, tid, s.sys.flights[tid], io));
        }
    }
  }

  /** And a state, consent key, code or refresh token that leaves its table is
      still never found there again. */
  lemma LeavingIsStillFinal(w: World, hs: seq<Happening>, h: Happening, later: seq<Happening>, p: Place)
    requires Sound(w) && !p.InHand?
    requires ContentAt(HappenAll(w, INITIAL, hs).sys, p) != Nothing
    requires ContentAt(Happen(w, HappenAll(w, INITIAL, hs), h).sys, p) == Nothing
    ensures ContentAt(HappenAll(w, Happen(w, HappenAll(w, INITIAL, hs), h), later).sys, p) == Nothing
  {
    var s := HappenAll(w, INITIAL, hs);
    AlwaysInvWithPhantoms(w, hs);
    StoredIsNotFuture(w, s.sys, p);
    DrawnKept(w, s, h);
    assert Retired(w, Happen(w, s, h).sys, p);
    AllKeepRetired(w, Happen(w, s, h), later, p);
  }

  // ----- What a refusal means then

  /** The handler is about to put its record away, or finds nothing to put. */
  predicate PutsAway(f: Flight) {
    f.CallbackStash? || f.ConsentMint? || f.CodeIssue? || f.RefreshRotate?
  }

  predicate NothingToPut(f: Flight) {
    f.CodeIssue? && f.c.cognitoRefreshEnc == ""
  }

  /** The effect answers as for a failed put, and has put the record under a key
      made from the string it drew. */
  predicate PutsSilently(w: World, s: Sys, tid: nat, f: Flight, e: Effect) {
    && e.next.Done? && DeadEnd(e.next.response)
    && if NothingToPut(f) then e.move.Close? && e.move.from == InHand(tid)
       else
         && e.move.Shift? && e.move.from == InHand(tid) && !e.move.to.InHand?
         && e.move.note.Some? && !e.move.note.value.Ended? && KeyFrom(w, e.move.to, w.coin(s.drawn))
  }

  lemma PhantomIsSilent(w: World, s: Sys, tid: nat, f: Flight, io: IO)
    requires PutsAway(f)
    ensures PutsSilently(w, s, tid, f, PhantomEffect(w, s, tid, f, io))
  {
  }

  lemma SilentPutLives(w: World, s: State, tid: nat, f: Flight, e: Effect, r: nat)
    requires PutsSilently(w, s.sys, tid, f, e) && Fits(s.audit, e.move)
    requires Carrying(s, InHand(tid), r) && !PhaseOf(s.audit.trails[r]).Over?
    ensures var o := Land(s, Perform(s.sys, tid, e));
            && tid in o.sys.flights && o.sys.flights[tid].Done? && DeadEnd(o.sys.flights[tid].response)
            && r < |o.audit.trails| && (PhaseOf(o.audit.trails[r]).Over? <==> NothingToPut(f))
            && (!NothingToPut(f) ==> Carrying(o, e.move.to, r) && KeyFrom(w, e.move.to, w.coin(s.sys.drawn)))
  {
    FlightsAfter(s.sys, tid, e);
  }

  /** From s to s' handler tid answers as for a failed put, and r lives on under a
      key made from the string drawn, unless there was nothing to put. */
  ghost predicate RefusedButPut(w: World, s: State, s': State, tid: nat, f: Flight, r: nat) {
    && tid in s'.sys.flights && s'.sys.flights[tid].Done? && DeadEnd(s'.sys.flights[tid].response)
    && r < |s'.audit.trails| && (PhaseOf(s'.audit.trails[r]).Over? <==> NothingToPut(f))
    && (!NothingToPut(f) ==>
          exists p: Place :: !p.InHand? && Carrying(s', p, r) && KeyFrom(w, p, w.coin(s.sys.drawn)))
  }

  lemma PhantomRefuses(w: World, s: State, tid: nat, f: Flight, io: IO, r: nat)
    requires Sound(w) && Inv(w, s) && tid in s.sys.flights && s.sys.flights[tid] == f && PutsAway(f)
    requires Carrying(s, InHand(tid), r) && !PhaseOf(s.audit.trails[r]).Over?
    ensures RefusedButPut(w, s, Land(s, Perform(s.sys, tid, PhantomEffect(w, s.sys, tid, f, io))), tid, f, r)
  {
    var e := PhantomEffect(w, s.sys, tid, f, io);
    PhantomIsDecent(w, s, tid, f, io);
    DecentFits(w, s, tid, e);
    PhantomIsSilent(w, s.sys, tid, f, io);
    SilentPutLives(w, s, tid, f, e, r);
  }

  /** A put that only seems to fail: the client is refused, or gets no refresh
      token, and yet the authorization lives on, unless there was nothing to put.
      Its record is under a key made from a random string that no answer shows. */
  lemma RefusalLeavesRecordIffPut(w: World, hs: seq<Happening>, tid: nat, io: IO) returns (r: nat)
    requires Sound(w)
    requires var s := HappenAll(w, INITIAL, hs).sys; tid in s.flights && PutsAway(s.flights[tid])
    ensures Carrying(HappenAll(w, INITIAL, hs), InHand(tid), r)
    ensures var s := HappenAll(w, INITIAL, hs);
            RefusedButPut(w, s, Happen(w, s, Phantom(tid, io)), tid, s.sys.flights[tid], r)
  {
    AlwaysInvWithPhantoms(w, hs);
    r := HeldAndOpen(w, HappenAll(w, INITIAL, hs), tid);
    HappenRefuses(w, HappenAll(w, INITIAL, hs), tid, io, r);
  }

  lemma HeldAndOpen(w: World, s: State, tid: nat) returns (r: nat)
    requires Core(w, s) && tid in s.sys.flights && Holding(s.sys.flights[tid])
    ensures Carrying(s, InHand(tid), r) && r < |s.audit.trails| && !PhaseOf(s.audit.trails[r]).Over?
  {
    CoreKnows(w, s, InHand(tid));
    StoredIsOpen(w, s, InHand(tid));
    r := s.audit.at[InHand(tid)];
  }

  lemma HappenRefuses(w: World, s: State, tid: nat, io: IO, r: nat)
    requires Sound(w) && Inv(w, s) && tid in s.sys.flights && PutsAway(s.sys.flights[tid])
    requires Carrying(s, InHand(tid), r) && r < |s.audit.trails| && !PhaseOf(s.audit.trails[r]).Over?
    ensures RefusedButPut(w, s, Happen(w, s, Phantom(tid, io)), tid, s.sys.flights[tid], r)
  {
    TickKeepsInv(w, s, io.tick);
    PhantomRefuses(w, State(Ticked(s.sys, io.tick), s.audit), tid, s.sys.flights[tid], io, r);
  }
}
