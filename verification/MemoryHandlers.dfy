/** The handlers of AuthSteps over memoryStore: which operations on pending
    records their steps are, that they never write or store a record they have
    already stored, and that the pointers therefore hold the very table the step
    system has. */
module MemoryHandlers {
  import opened Basics
  import opened AuthRecords
  import opened Lineage
  import opened AuthSteps
  import opened AuthAudit
  import opened AuthSafety
  import opened AuthInvariant
  import opened AuthTheorems
  import opened AuthHistory
  import opened MemoryBackend

  /** The handler has a pending record in hand. */
  predicate HasPending(f: Flight) {
    || f.CallbackCheck? || f.CallbackLogin? || f.CallbackName? || f.CallbackStash?
    || f.ConsentCheck? || f.ConsentLookup? || f.ConsentMint?
  }

  function IdentityOf(p: PendingAuth, name: string): Identity {
    Identity(name, p.subject, p.email, p.orgs, p.cognitoRefreshEnc)
  }

  /** What the handler's step does to pending records. It lets go of the one it
      has when it answers without putting it back. */
  function StepOps(w: World, s: Sys, tid: nat, f: Flight, io: IO): seq<Op> {
    match f
    case AuthorizeStash(a) =>
      var create := Create(tid, NewPending(a, s.now + PENDING_TTL));
      if io.ok then [create, Put(tid, w.coin(s.drawn))] else [create, Release(tid)]
    case CallbackPop(state) => if io.ok && state in s.pending then [Pop(tid, state)] else []
    case CallbackCheck(p) => if s.now > p.expires then [Release(tid)] else []
    case CallbackLogin(_) => if io.login.None? || io.login.value.subject == "" then [Release(tid)] else []
    case CallbackName(p, _) => [Identify(tid, IdentityOf(p, ClientName(s, p.clientID, io.ok)))]
    case CallbackStash(_, _) =>
      var extend := Extend(tid, s.now + CONSENT_TTL);
      if io.ok then [extend, Put(tid, ConsentKey(w.coin(s.drawn)))] else [extend, Release(tid)]
    case ConsentPop(key, _) => if io.ok && ConsentKey(key) in s.pending then [Pop(tid, ConsentKey(key))] else []
    case ConsentCheck(p, _) => if s.now > p.expires then [Release(tid)] else []
    case ConsentLookup(_, _) => if ActConsentLookup(s, tid, f, io).next.Done? then [Release(tid)] else []
    case ConsentMint(_) => [Release(tid)]
    case _ => []
  }

  function EventOps(w: World, s: Sys, e: Event): seq<Op> {
    match e
    case Advance(tid, io) =>
      if tid !in s.flights then [] else StepOps(w, Ticked(s, io.tick), tid, s.flights[tid], io)
    case Lost(PendingAt(key)) => [Op.Drop(key)]
    case Lost(InHand(tid)) => if tid in s.flights && HasPending(s.flights[tid]) then [Release(tid)] else []
    case _ => []
  }

  /** What a whole run does to pending records. */
  function RunOps(w: World, es: seq<Event>): seq<Op> {
    if es == [] then []
    else RunOps(w, es[..|es| - 1]) + EventOps(w, Reached(w, es[..|es| - 1]).sys, es[|es| - 1])
  }

  // ----- The step system's records are the copies

  /** The copy a request has, when it is at f: callback knows the user before it
      writes that into the record. */
  predicate CopyOf(f: Flight, p: PendingAuth)
    requires HasPending(f)
  {
    if f.CallbackName? then
      f.p == p.(subject := f.p.subject, email := f.p.email, orgs := f.p.orgs,
                cognitoRefreshEnc := f.p.cognitoRefreshEnc)
    else f.p == p
  }

  /** Request tid, at f, has its own copy, or none, or one it has stored. */
  predicate HandOf(v: Values, tid: nat, f: Flight) {
    if HasPending(f) then tid in v.held && tid !in v.lent && CopyOf(f, v.held[tid])
    else tid in v.held ==> tid in v.lent && f.Done?
  }

  ghost predicate Mirrors(s: Sys, v: Values) {
    && v.stored == s.pending && v.lent <= v.held.Keys
    && (forall tid | tid in s.flights :: HandOf(v, tid, s.flights[tid]))
    && (forall tid | tid in v.held :: tid in s.flights)
  }

  lemma OneOp(v: Values, op: Op)
    ensures CopiedAll(v, [op]) == Copied(v, op)
    ensures DisciplinedAll(v, [op]) <==> Disciplined(v, op)
  {
    assert [op][..0] == [];
  }

  lemma TwoOps(v: Values, a: Op, b: Op)
    ensures CopiedAll(v, [a, b]) == Copied(Copied(v, a), b)
    ensures DisciplinedAll(v, [a, b]) <==> Disciplined(v, a) && Disciplined(Copied(v, a), b)
  {
    OneOp(v, a);
    assert [a, b][..1] == [a];
  }

  /** What the operations of one step of tid owe. */
  predicate StepFits(v: Values, ops: seq<Op>, tid: nat, next: Flight, stored: map<string, PendingAuth>) {
    var v' := CopiedAll(v, ops);
    && DisciplinedAll(v, ops) && v'.stored == stored && v'.lent <= v'.held.Keys
    && v'.held - {tid} == v.held - {tid} && v'.lent - {tid} == v.lent - {tid}
    && HandOf(v', tid, next)
  }

  /** How request tid finds the store, at f. */
  ghost predicate Finds(w: World, s: Sys, v: Values, tid: nat, f: Flight) {
    w.grain == 1 && v.stored == s.pending && v.lent <= v.held.Keys && HandOf(v, tid, f)
  }

  lemma ExactExpiry(w: World, t: int)
    requires w.grain == 1
    ensures Stamp(w, t) == t
  {
  }

  lemma NothingFits(w: World, s: Sys, v: Values, tid: nat, f: Flight, next: Flight)
    requires Finds(w, s, v, tid, f) && HandOf(v, tid, next)
    ensures StepFits(v, [], tid, next, s.pending)
  {
  }

  lemma ReleaseFits(w: World, s: Sys, v: Values, tid: nat, f: Flight, r: Response)
    requires Finds(w, s, v, tid, f)
    ensures StepFits(v, [Release(tid)], tid, Done(r), s.pending)
  {
    OneOp(v, Release(tid));
  }

  lemma PopFits(w: World, s: Sys, v: Values, tid: nat, f: Flight, key: string, next: Flight)
    requires Finds(w, s, v, tid, f) && key in s.pending
    requires HasPending(next) && CopyOf(next, s.pending[key])
    ensures StepFits(v, [Pop(tid, key)], tid, next, s.pending - {key})
  {
    OneOp(v, Pop(tid, key));
  }

  lemma AuthorizeStashFits(w: World, s: Sys, v: Values, tid: nat, a: Authorization, io: IO)
    requires Finds(w, s, v, tid, AuthorizeStash(a))
    ensures var e := ActAuthorizeStash(w, s, a, io);
            StepFits(v, StepOps(w, s, tid, AuthorizeStash(a), io), tid, e.next, Written(s, e.write).pending)
  {
    var create := Create(tid, NewPending(a, s.now + PENDING_TTL));
    TwoOps(v, create, if io.ok then Put(tid, w.coin(s.drawn)) else Release(tid));
    ExactExpiry(w, s.now + PENDING_TTL);
  }

  lemma CallbackPopFits(w: World, s: Sys, v: Values, tid: nat, state: string, io: IO)
    requires Finds(w, s, v, tid, CallbackPop(state))
    ensures var e := ActCallbackPop(s, tid, state, io);
            StepFits(v, StepOps(w, s, tid, CallbackPop(state), io), tid, e.next, Written(s, e.write).pending)
  {
    if io.ok && state in s.pending {
      PopFits(w, s, v, tid, CallbackPop(state), state, CallbackCheck(s.pending[state]));
    }
  }

  lemma CallbackCheckFits(w: World, s: Sys, v: Values, tid: nat, p: PendingAuth, io: IO)
    requires Finds(w, s, v, tid, CallbackCheck(p))
    ensures var e := ActCallbackCheck(s, tid, p);
            StepFits(v, StepOps(w, s, tid, CallbackCheck(p), io), tid, e.next, Written(s, e.write).pending)
  {
    if s.now > p.expires {
      ReleaseFits(w, s, v, tid, CallbackCheck(p), Failed(InvalidRequest));
    }
  }

  lemma CallbackLoginFits(w: World, s: Sys, v: Values, tid: nat, p: PendingAuth, io: IO)
    requires Finds(w, s, v, tid, CallbackLogin(p))
    ensures var e := ActCallbackLogin(tid, p, io);
            StepFits(v, StepOps(w, s, tid, CallbackLogin(p), io), tid, e.next, Written(s, e.write).pending)
  {
    if io.login.None? || io.login.value.subject == "" {
      ReleaseFits(w, s, v, tid, CallbackLogin(p), Failed(UpstreamError));
    }
  }

  lemma CallbackNameFits(w: World, s: Sys, v: Values, tid: nat, f: Flight, io: IO)
    requires f.CallbackName? && Finds(w, s, v, tid, f)
    ensures var e := ActCallbackName(s, f, io);
            StepFits(v, StepOps(w, s, tid, f, io), tid, e.next, Written(s, e.write).pending)
  {
    OneOp(v, Identify(tid, IdentityOf(f.p, ClientName(s, f.p.clientID, io.ok))));
  }

  lemma CallbackStashFits(w: World, s: Sys, v: Values, tid: nat, f: Flight, io: IO)
    requires f.CallbackStash? && Finds(w, s, v, tid, f)
    ensures var e := ActCallbackStash(w, s, tid, f, io);
            StepFits(v, StepOps(w, s, tid, f, io), tid, e.next, Written(s, e.write).pending)
  {
    var extend := Extend(tid, s.now + CONSENT_TTL);
    TwoOps(v, extend, if io.ok then Put(tid, ConsentKey(w.coin(s.drawn))) else Release(tid));
    ExactExpiry(w, s.now + CONSENT_TTL);
  }

  lemma ConsentPopFits(w: World, s: Sys, v: Values, tid: nat, f: Flight, io: IO)
    requires f.ConsentPop? && Finds(w, s, v, tid, f)
    ensures var e := ActConsentPop(s, tid, f, io);
            StepFits(v, StepOps(w, s, tid, f, io), tid, e.next, Written(s, e.write).pending)
  {
    var key := ConsentKey(f.key);
    if io.ok && key in s.pending {
      PopFits(w, s, v, tid, f, key, ConsentCheck(s.pending[key], f.approve));
    }
  }

  lemma ConsentCheckFits(w: World, s: Sys, v: Values, tid: nat, f: Flight, io: IO)
    requires f.ConsentCheck? && Finds(w, s, v, tid, f)
    ensures var e := ActConsentCheck(s, tid, f);
            StepFits(v, StepOps(w, s, tid, f, io), tid, e.next, Written(s, e.write).pending)
  {
    if s.now > f.p.expires {
      ReleaseFits(w, s, v, tid, f, Failed(OAuthError.ConsentExpired));
    }
  }

  lemma ConsentLookupFits(w: World, s: Sys, v: Values, tid: nat, f: Flight, io: IO)
    requires f.ConsentLookup? && Finds(w, s, v, tid, f)
    ensures var e := ActConsentLookup(s, tid, f, io);
            StepFits(v, StepOps(w, s, tid, f, io), tid, e.next, Written(s, e.write).pending)
  {
    var e := ActConsentLookup(s, tid, f, io);
    if e.next.Done? {
      ReleaseFits(w, s, v, tid, f, e.next.response);
    }
  }

  lemma ConsentMintFits(w: World, s: Sys, v: Values, tid: nat, p: PendingAuth, io: IO)
    requires Finds(w, s, v, tid, ConsentMint(p))
    ensures var e := ActConsentMint(w, s, tid, p, io);
            StepFits(v, StepOps(w, s, tid, ConsentMint(p), io), tid, e.next, Written(s, e.write).pending)
  {
    ReleaseFits(w, s, v, tid, ConsentMint(p), ActConsentMint(w, s, tid, p, io).next.response);
  }

  /** The steps that have to do with pending records. */
  predicate PendingPoint(f: Flight) {
    f.AuthorizeStash? || f.CallbackPop? || f.ConsentPop? || HasPending(f)
  }

  /** All others leave pending records alone. */
  lemma OtherStep(w: World, s: Sys, tid: nat, f: Flight, io: IO)
    requires !PendingPoint(f)
    ensures var e := Proceed(w, s, tid, f, io);
            && !HasPending(e.next) && !e.write.PutPending? && !e.write.DelPending? && (f.Done? ==> e.next == f)
  {
  }

  lemma PendingStays(s: Sys, wr: Write)
    requires !wr.PutPending? && !wr.DelPending?
    ensures Written(s, wr).pending == s.pending
  {
  }

  lemma LoginStepFits(w: World, s: Sys, v: Values, tid: nat, f: Flight, io: IO)
    requires Finds(w, s, v, tid, f) && PendingPoint(f) && LoginPoint(f)
    ensures var e := Proceed(w, s, tid, f, io);
            StepFits(v, StepOps(w, s, tid, f, io), tid, e.next, Written(s, e.write).pending)
  {
    match f {
      case AuthorizeStash(a) => AuthorizeStashFits(w, s, v, tid, a, io);
      case CallbackPop(state) => CallbackPopFits(w, s, v, tid, state, io);
      case CallbackCheck(p) => CallbackCheckFits(w, s, v, tid, p, io);
      case CallbackLogin(p) => CallbackLoginFits(w, s, v, tid, p, io);
      case CallbackName(_, _) => CallbackNameFits(w, s, v, tid, f, io);
    }
  }

  lemma ConsentStepFits(w: World, s: Sys, v: Values, tid: nat, f: Flight, io: IO)
    requires Finds(w, s, v, tid, f) && ConsentPoint(f)
    ensures var e := Proceed(w, s, tid, f, io);
            StepFits(v, StepOps(w, s, tid, f, io), tid, e.next, Written(s, e.write).pending)
  {
    match f {
      case CallbackStash(_, _) => CallbackStashFits(w, s, v, tid, f, io);
      case ConsentPop(_, _) => ConsentPopFits(w, s, v, tid, f, io);
      case ConsentCheck(_, _) => ConsentCheckFits(w, s, v, tid, f, io);
      case ConsentLookup(_, _) => ConsentLookupFits(w, s, v, tid, f, io);
      case ConsentMint(p) => ConsentMintFits(w, s, v, tid, p, io);
    }
  }

  lemma OtherStepFits(w: World, s: Sys, v: Values, tid: nat, f: Flight, io: IO)
    requires Finds(w, s, v, tid, f) && !PendingPoint(f)
    ensures var e := Proceed(w, s, tid, f, io);
            StepFits(v, StepOps(w, s, tid, f, io), tid, e.next, Written(s, e.write).pending)
  {
    var e := Proceed(w, s, tid, f, io);
    OtherStep(w, s, tid, f, io);
    PendingStays(s, e.write);
    NothingFits(w, s, v, tid, f, e.next);
  }

  lemma ProceedFitsStore(w: World, s: Sys, v: Values, tid: nat, f: Flight, io: IO)
    requires Finds(w, s, v, tid, f)
    ensures var e := Proceed(w, s, tid, f, io);
            StepFits(v, StepOps(w, s, tid, f, io), tid, e.next, Written(s, e.write).pending)
  {
    if !PendingPoint(f) {
      OtherStepFits(w, s, v, tid, f, io);
    } else if LoginPoint(f) {
      LoginStepFits(w, s, v, tid, f, io);
    } else {
      ConsentStepFits(w, s, v, tid, f, io);
    }
  }

  // ----- Whole runs

  lemma {:induction false} OpsAppend(v: Values, a: seq<Op>, b: seq<Op>)
    ensures CopiedAll(v, a + b) == CopiedAll(CopiedAll(v, a), b)
    ensures DisciplinedAll(v, a + b) <==> DisciplinedAll(v, a) && DisciplinedAll(CopiedAll(v, a), b)
  {
    if b == [] {
      assert a + b == a;
    } else {
      OpsAppend(v, a, b[..|b| - 1]);
      assert (a + b)[..|a + b| - 1] == a + b[..|b| - 1];
    }
  }

  lemma StepMirrors(s: Sys, s': Sys, v: Values, ops: seq<Op>, tid: nat, next: Flight)
    requires Mirrors(s, v) && StepFits(v, ops, tid, next, s'.pending) && s'.flights == s.flights[tid := next]
    ensures Mirrors(s', CopiedAll(v, ops))
  {
    var v' := CopiedAll(v, ops);
    forall h | h in v'.held
      ensures h in s'.flights
    {
      assert h != tid ==> h in v'.held - {tid};
    }
    forall h | h in s'.flights
      ensures HandOf(v', h, s'.flights[h])
    {
      if h != tid {
        assert h in v'.held <==> h in v'.held - {tid};
        assert h in v.held <==> h in v.held - {tid};
        assert h in v'.held ==> v'.held[h] == (v'.held - {tid})[h] == (v.held - {tid})[h] == v.held[h];
        assert h in v'.lent <==> h in v'.lent - {tid};
        assert h in v.lent <==> h in v.lent - {tid};
      }
    }
  }

  lemma PerformTables(s: Sys, tid: nat, e: Effect)
    ensures Perform(s, tid, e).sys.pending == Written(s, e.write).pending
    ensures Perform(s, tid, e).sys.flights == s.flights[tid := e.next]
  {
    FlightsAfter(s, tid, e);
  }

  lemma AdvanceMirrors(w: World, s: Sys, v: Values, tid: nat, io: IO)
    requires w.grain == 1 && Mirrors(s, v) && tid in s.flights
    ensures var ops := StepOps(w, Ticked(s, io.tick), tid, s.flights[tid], io);
            DisciplinedAll(v, ops) && Mirrors(Advanced(w, s, tid, io).sys, CopiedAll(v, ops))
  {
    var t, f := Ticked(s, io.tick), s.flights[tid];
    var e := Proceed(w, t, tid, f, io);
    ProceedFitsStore(w, t, v, tid, f, io);
    PerformTables(t, tid, e);
    StepMirrors(t, Perform(t, tid, e).sys, v, StepOps(w, t, tid, f, io), tid, e.next);
  }

  lemma StartMirrors(w: World, s: Sys, v: Values, tid: nat, request: Request)
    requires Mirrors(s, v) && tid !in s.flights
    ensures Mirrors(Perform(s, tid, Quiet(Admit(w, request))).sys, v)
  {
    var f := Admit(w, request);
    PerformTables(s, tid, Quiet(f));
    StepMirrors(s, Perform(s, tid, Quiet(f)).sys, v, [], tid, f);
  }

  lemma CrashMirrors(s: Sys, v: Values, tid: nat)
    requires Mirrors(s, v) && tid in s.flights && Holding(s.flights[tid])
    ensures var ops := if HasPending(s.flights[tid]) then [Release(tid)] else [];
            && DisciplinedAll(v, ops)
            && Mirrors(Perform(s, tid, AuthSteps.Drop(tid, Crashed, Reaped)).sys, CopiedAll(v, ops))
  {
    var e := AuthSteps.Drop(tid, Crashed, Reaped);
    PerformTables(s, tid, e);
    OneOp(v, Release(tid));
    StepMirrors(s, Perform(s, tid, e).sys, v, if HasPending(s.flights[tid]) then [Release(tid)] else [], tid, e.next);
  }

  lemma LostMirrors(s: Sys, v: Values, place: Place, w: World)
    requires Mirrors(s, v)
    ensures var ops := EventOps(w, s, Lost(place));
            DisciplinedAll(v, ops) && Mirrors(ActLost(s, place).sys, CopiedAll(v, ops))
  {
    match place {
      case PendingAt(key) => OneOp(v, Op.Drop(key));
      case CodeAt(_) =>
      case RefreshAt(_) =>
      case InHand(tid) =>
        if tid in s.flights && Holding(s.flights[tid]) {
          CrashMirrors(s, v, tid);
        }
    }
  }

  lemma EventMirrors(w: World, s: Sys, v: Values, e: Event)
    requires w.grain == 1 && Mirrors(s, v)
    ensures DisciplinedAll(v, EventOps(w, s, e)) && Mirrors(Act(w, s, e).sys, CopiedAll(v, EventOps(w, s, e)))
  {
    match e {
      case Start(tid, request) =>
        if tid !in s.flights {
          StartMirrors(w, s, v, tid, request);
        }
      case Advance(tid, io) =>
        if tid in s.flights {
          AdvanceMirrors(w, s, v, tid, io);
          assert Act(w, s, e) == Advanced(w, s, tid, io);
        }
      case Lost(place) => LostMirrors(s, v, place, w);
      case SessionLost(key) => SessionsAside(s, key);
    }
  }

  lemma SessionsAside(s: Sys, key: string)
    ensures Written(s, DelSession(key)).pending == s.pending && Written(s, DelSession(key)).flights == s.flights
  {
  }

  /** In every run the handlers never write or store a record again that they have
      stored, and copies handed out in their place are the step system's table. */
  lemma {:induction false} HandlersAreDisciplined(w: World, es: seq<Event>)
    requires w.grain == 1
    ensures DisciplinedAll(NOTHING, RunOps(w, es))
    ensures Mirrors(Reached(w, es).sys, CopiedAll(NOTHING, RunOps(w, es)))
  {
    if es == [] {
    } else {
      var init, last := es[..|es| - 1], es[|es| - 1];
      HandlersAreDisciplined(w, init);
      var s, v := Reached(w, init).sys, CopiedAll(NOTHING, RunOps(w, init));
      EventMirrors(w, s, v, last);
      OpsAppend(NOTHING, RunOps(w, init), EventOps(w, s, last));
    }
  }

  /** So the memory store, with its shared pointers, holds after every run exactly
      the pending records of the step system. */
  method FollowRun(w: World, es: seq<Event>) returns (m: MemoryStore)
    requires w.grain == 1
    ensures fresh(m) && m.Valid()
    ensures m.pending.Keys == Reached(w, es).sys.pending.Keys
    ensures forall k | k in m.pending :: m.pending[k].Value() == Reached(w, es).sys.pending[k]
  {
    m := new MemoryStore();
    HandlersAreDisciplined(w, es);
    m.DoAll(RunOps(w, es), NOTHING);
    forall k | k in m.pending
      ensures m.pending[k].Value() == Reached(w, es).sys.pending[k]
    {
      assert m.State().at[m.pending[k]] == m.Snap()[m.pending[k]];
    }
  }
}
