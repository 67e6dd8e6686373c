/** The invariant holds in every state of every run, however requests
    interleave. */
module AuthInvariant {
  import opened Basics
  import opened Redirects
  import opened AuthRecords
  import opened Lineage
  import opened AuthSteps
  import opened AuthAudit
  import opened AuthSafety
  import opened AuthDecency

  // ----- Core

  /** What a handler may rely on about its own place, the keys it could pop and
      the key it would put to. */
  ghost predicate Informed(w: World, s: State, tid: nat, f: Flight) {
    && Sound(w) && Fresh(w, s.sys) && Core(w, s) && tid in s.sys.flights && s.sys.flights[tid] == f
  }

  lemma FreshKeys(w: World, s: Sys)
    requires Fresh(w, s)
    ensures var c := w.coin(s.drawn);
            && CLIENT_PREFIX + c !in s.clients && c !in s.pending && ConsentKey(c) !in s.pending
            && c !in s.codes && w.hash(c) !in s.refresh && w.hash(c) !in s.sessions
  {
    assert Unused(w, s, s.drawn);
  }

  lemma PlaceIsSettled(w: World, s: State, p: Place)
    requires Core(w, s)
    ensures Settled(w, s, p)
  {
    CoreKnows(w, s, p);
  }

  lemma HandIsSettled(w: World, s: State, tid: nat, f: Flight)
    requires Core(w, s) && tid in s.sys.flights && s.sys.flights[tid] == f
    ensures if Holding(f) then Holds(w, s, tid, f) else IsFree(s, InHand(tid))
  {
    CoreKnows(w, s, InHand(tid));
  }

  /** Nothing is where the next random string will be a key. */
  lemma FreshPlaces(w: World, s: State)
    requires Sound(w) && Fresh(w, s.sys) && Core(w, s)
    ensures var c := w.coin(s.sys.drawn);
            && IsFree(s, PendingAt(c)) && !IsConsentKey(c) && IsFree(s, PendingAt(ConsentKey(c)))
            && IsFree(s, CodeAt(c)) && IsFree(s, RefreshAt(w.hash(c)))
  {
    var c := w.coin(s.sys.drawn);
    FreshKeys(w, s.sys);
    HexIsNotConsentKey(c);
    CoreKnows(w, s, PendingAt(c));
    CoreKnows(w, s, PendingAt(ConsentKey(c)));
    CoreKnows(w, s, CodeAt(c));
    CoreKnows(w, s, RefreshAt(w.hash(c)));
  }

  lemma LoginIsDecent(w: World, s: State, tid: nat, f: Flight, io: IO)
    requires Informed(w, s, tid, f) && LoginPoint(f)
    ensures Decent(w, s, tid, Proceed(w, s.sys, tid, f, io))
  {
    HandIsSettled(w, s, tid, f);
    match f {
      case Registering(_, _, _) => RegisterDecent(w, s, tid, f, io);
      case AuthorizeLookup(a) => AuthorizeLookupDecent(w, s, tid, a, io);
      case AuthorizeStash(a) =>
        FreshPlaces(w, s);
        AuthorizeStashDecent(w, s, tid, a, io);
      case CallbackPop(state) =>
        PlaceIsSettled(w, s, PendingAt(state));
        CallbackPopDecent(w, s, tid, state, io);
      case CallbackCheck(p) => CallbackCheckDecent(w, s, tid, p);
      case CallbackLogin(p) => CallbackLoginDecent(w, s, tid, p, io);
      case CallbackName(_, _) => CallbackNameDecent(w, s, tid, f, io);
    }
  }

  lemma ConsentIsDecent(w: World, s: State, tid: nat, f: Flight, io: IO)
    requires Informed(w, s, tid, f) && ConsentPoint(f)
    ensures Decent(w, s, tid, Proceed(w, s.sys, tid, f, io))
  {
    HandIsSettled(w, s, tid, f);
    match f {
      case CallbackStash(_, _) =>
        FreshPlaces(w, s);
        CallbackStashDecent(w, s, tid, f, io);
      case ConsentPop(key, _) =>
        PlaceIsSettled(w, s, PendingAt(ConsentKey(key)));
        ConsentPopDecent(w, s, tid, f, io);
      case ConsentCheck(_, _) => ConsentCheckDecent(w, s, tid, f);
      case ConsentLookup(_, _) => ConsentLookupDecent(w, s, tid, f, io);
      case ConsentMint(p) =>
        FreshPlaces(w, s);
        ConsentMintDecent(w, s, tid, p, io);
    }
  }

  lemma CodeIsDecent(w: World, s: State, tid: nat, f: Flight, io: IO)
    requires Informed(w, s, tid, f) && CodePoint(f) && !f.Revoking? && !f.Done?
    ensures Decent(w, s, tid, Proceed(w, s.sys, tid, f, io))
  {
    HandIsSettled(w, s, tid, f);
    match f {
      case CodePop(g) =>
        PlaceIsSettled(w, s, CodeAt(g.code));
        CodePopDecent(w, s, tid, g, io);
      case CodeCheck(c, g) => CodeCheckDecent(w, s, tid, c, g);
      case CodeSession(c) => CodeSessionDecent(w, s, tid, c, io);
      case CodeIssue(c, access) =>
        FreshPlaces(w, s);
        CodeIssueDecent(w, s, tid, c, access, io);
    }
  }

  lemma RevokingIsDecent(w: World, s: State, tid: nat, f: Flight, io: IO)
    requires Informed(w, s, tid, f) && (f.Revoking? || f.Done?)
    ensures Decent(w, s, tid, Proceed(w, s.sys, tid, f, io))
  {
    HandIsSettled(w, s, tid, f);
    match f {
      case Revoking(token, plan) =>
        PlaceIsSettled(w, s, RefreshAt(w.hash(token)));
        RevokeDecent(w, s, tid, token, plan, io);
      case Done(_) => GoOn(w, s, tid, Quiet(f));
    }
  }

  lemma RefreshIsDecent(w: World, s: State, tid: nat, f: Flight, io: IO)
    requires Informed(w, s, tid, f) && RefreshPoint(f)
    ensures Decent(w, s, tid, Proceed(w, s.sys, tid, f, io))
  {
    HandIsSettled(w, s, tid, f);
    match f {
      case RefreshPop(presented, _) =>
        PlaceIsSettled(w, s, RefreshAt(w.hash(presented)));
        RefreshPopDecent(w, s, tid, f, io);
      case RefreshCheck(rt, clientID) => RefreshCheckDecent(w, s, tid, rt, clientID);
      case RefreshReauth(rt) => RefreshReauthDecent(w, s, tid, rt, io);
      case RefreshSession(_, _, _, _) => RefreshSessionDecent(w, s, tid, f, io);
      case RefreshRotate(_, _, _, _, _) =>
        FreshPlaces(w, s);
        RefreshRotateDecent(w, s, tid, f, io);
    }
  }

  /** Every step of every handler is one the ledger can follow. */
  lemma ProceedIsDecent(w: World, s: State, tid: nat, f: Flight, io: IO)
    requires Informed(w, s, tid, f)
    ensures Decent(w, s, tid, Proceed(w, s.sys, tid, f, io))
  {
    if LoginPoint(f) {
      LoginIsDecent(w, s, tid, f, io);
    } else if ConsentPoint(f) {
      ConsentIsDecent(w, s, tid, f, io);
    } else if f.Revoking? || f.Done? {
      RevokingIsDecent(w, s, tid, f, io);
    } else if CodePoint(f) {
      CodeIsDecent(w, s, tid, f, io);
    } else {
      RefreshIsDecent(w, s, tid, f, io);
    }
  }

  lemma ProceedKeepsCore(w: World, s: State, tid: nat, f: Flight, io: IO)
    requires Informed(w, s, tid, f)
    ensures Core(w, Land(s, Perform(s.sys, tid, Proceed(w, s.sys, tid, f, io))))
  {
    ProceedIsDecent(w, s, tid, f, io);
    EffectKeepsCore(w, s, tid, Proceed(w, s.sys, tid, f, io));
  }

  lemma EffectKeepsCore(w: World, s: State, tid: nat, e: Effect)
    requires Core(w, s) && Decent(w, s, tid, e)
    ensures Core(w, Land(s, Perform(s.sys, tid, e)))
  {
    DecentIsProper(w, s, tid, e);
    ProperKeepsCore(w, s, InHand(tid), Perform(s.sys, tid, e));
  }

  lemma TickKeepsCore(w: World, s: State, n: nat)
    requires Core(w, s)
    ensures Core(w, State(Ticked(s.sys, n), s.audit))
  {
    var s' := State(Ticked(s.sys, n), s.audit);
    forall p
      ensures ContentAt(s'.sys, p) == ContentAt(s.sys, p)
    {
    }
    forall p | p in s.audit.at
      ensures Sits(w, s', p)
    {
      assert Sits(w, s, p);
      CarriesLater(w, p, ContentAt(s.sys, p), TrailAt(s.audit, p), s.sys.now, s'.sys.now);
    }
  }

  lemma TickKeepsFresh(w: World, s: Sys, n: nat)
    requires Fresh(w, s)
    ensures Fresh(w, Ticked(s, n))
  {
    forall i: nat | s.drawn <= i
      ensures Unused(w, Ticked(s, n), i)
    {
      assert Unused(w, s, i);
    }
  }

  lemma StartKeepsCore(w: World, s: State, tid: nat, request: Request)
    requires Core(w, s) && tid !in s.sys.flights
    ensures Core(w, Land(s, Perform(s.sys, tid, Quiet(Admit(w, request)))))
  {
    PlaceIsSettled(w, s, InHand(tid));
    GoOn(w, s, tid, Quiet(Admit(w, request)));
    EffectKeepsCore(w, s, tid, Quiet(Admit(w, request)));
  }

  lemma LostKeepsCore(w: World, s: State, place: Place)
    requires Core(w, s)
    ensures Core(w, Land(s, ActLost(s.sys, place)))
  {
    var o := ActLost(s.sys, place);
    if o.move.Close? {
      CoreKnows(w, s, place);
      StoredIsOpen(w, s, place);
      LostIsProper(w, s, place);
      ProperKeepsCore(w, s, place, o);
    }
  }

  lemma LostIsProper(w: World, s: State, place: Place)
    requires Sits(w, s, place) && PhaseOf(TrailAt(s.audit, place)) != Over
    requires ActLost(s.sys, place).move.Close?
    ensures Proper(w, s, place, ActLost(s.sys, place))
  {
    var o := ActLost(s.sys, place);
    if place.InHand? {
      HolderEnds(w, s, place.tid, o, Done(Failed(Crashed)), Reaped);
    } else {
      Deleted(s.sys, place);
      RemovedIsProper(w, s, place, o);
    }
  }

  lemma Deleted(s: Sys, place: Place)
    requires !place.InHand? && ContentAt(s, place) != Nothing
    ensures var o := ActLost(s, place);
            && o.move == Close(place, Reaped) && o.sys == Written(s, DelAt(place)) && o.sys.now == s.now
            && ContentAt(o.sys, place) == Nothing
            && forall p | p != place :: ContentAt(o.sys, p) == ContentAt(s, p)
  {
  }

  lemma RemovedIsProper(w: World, s: State, place: Place, o: Outcome)
    requires Sits(w, s, place) && PhaseOf(TrailAt(s.audit, place)) != Over
    requires o.move == Close(place, Reaped) && o.sys.now == s.sys.now && ContentAt(o.sys, place) == Nothing
    requires forall p | p != place :: ContentAt(o.sys, p) == ContentAt(s.sys, p)
    ensures Proper(w, s, place, o)
  {
  }

  /** A state that differs in nothing the ledger watches. */
  lemma SameContentKeepsCore(w: World, s: State, s': State)
    requires Core(w, s) && s'.audit == s.audit && s'.sys.now == s.sys.now
    requires forall p :: ContentAt(s'.sys, p) == ContentAt(s.sys, p)
    ensures Core(w, s')
  {
    forall p | p in s.audit.at
      ensures Sits(w, s', p)
    {
      assert Sits(w, s, p);
    }
  }

  lemma SessionLostKeepsCore(w: World, s: State, key: string)
    requires Core(w, s)
    ensures Core(w, State(Written(s.sys, DelSession(key)), s.audit))
  {
    var s' := State(Written(s.sys, DelSession(key)), s.audit);
    forall p
      ensures ContentAt(s'.sys, p) == ContentAt(s.sys, p)
    {
    }
    SameContentKeepsCore(w, s, s');
  }

  function Advanced(w: World, s: Sys, tid: nat, io: IO): Outcome
    requires tid in s.flights
  {
    var t := Ticked(s, io.tick);
    Perform(t, tid, Proceed(w, t, tid, s.flights[tid], io))
  }

  lemma AdvanceKeepsCore(w: World, s: State, tid: nat, io: IO)
    requires Sound(w) && Fresh(w, s.sys) && Core(w, s) && tid in s.sys.flights
    ensures Core(w, Land(s, Advanced(w, s.sys, tid, io)))
  {
    TickKeepsCore(w, s, io.tick);
    TickKeepsFresh(w, s.sys, io.tick);
    ProceedKeepsCore(w, State(Ticked(s.sys, io.tick), s.audit), tid, s.sys.flights[tid], io);
  }

  lemma StepKeepsCore(w: World, s: State, e: Event)
    requires Sound(w) && Fresh(w, s.sys) && Core(w, s)
    ensures Core(w, Step(w, s, e))
  {
    match e {
      case Start(tid, request) =>
        if tid !in s.sys.flights {
          StartKeepsCore(w, s, tid, request);
        }
      case Advance(tid, io) =>
        if tid in s.sys.flights {
          AdvanceKeepsCore(w, s, tid, io);
          assert Act(w, s.sys, e) == Advanced(w, s.sys, tid, io);
        }
      case Lost(place) => LostKeepsCore(w, s, place);
      case SessionLost(key) => SessionLostKeepsCore(w, s, key);
    }
  }

  // ----- Fresh keys stay fresh

  /** A put uses the random string drawn in the same step. */
  predicate FreshWrite(w: World, s: Sys, e: Effect) {
    var c := w.coin(s.drawn);
    match e.write
    case PutClient(client) => e.drew && client.clientID == CLIENT_PREFIX + c
    case PutPending(k, _) => e.drew && (k == c || k == ConsentKey(c))
    case PutCode(code) => e.drew && code.code == c
    case PutRefresh(rt) => e.drew && rt.hashedToken == w.hash(c)
    case PutSession(k, _) => e.drew && k == w.hash(c)
    case _ => true
  }

  /** Minted facts and stored sessions go together, under a fresh key. */
  predicate TracedWrite(w: World, s: Sys, e: Effect) {
    && (e.write.PutSession? ==>
          e.move.Note? && e.move.fact.Minted? && e.move.fact.key == e.write.key
          && e.move.fact.session == e.write.session)
    && (NoteOf(e.move).Some? && NoteOf(e.move).value.Minted? ==>
          NoteOf(e.move).value.key == w.hash(w.coin(s.drawn)) && e.move.Note?)
  }

  predicate CleanWrite(w: World, s: Sys, e: Effect) {
    FreshWrite(w, s, e) && TracedWrite(w, s, e)
  }

  lemma ProceedWrites(w: World, s: Sys, tid: nat, f: Flight, io: IO)
    ensures CleanWrite(w, s, Proceed(w, s, tid, f, io))
  {
  }

  /** Distinct draws give distinct keys of every kind. */
  lemma DrawsAreApart(w: World, i: nat, j: nat)
    requires Sound(w) && i != j
    ensures var a, b := w.coin(i), w.coin(j);
            && a != b && w.hash(a) != w.hash(b) && CLIENT_PREFIX + a != CLIENT_PREFIX + b
            && ConsentKey(a) != ConsentKey(b) && a != ConsentKey(b)
  {
    var a, b := w.coin(i), w.coin(j);
    if CLIENT_PREFIX + a == CLIENT_PREFIX + b {
      PrefixCancels(CLIENT_PREFIX, a, b);
    }
    if ConsentKey(a) == ConsentKey(b) {
      PrefixCancels(CONSENT_PREFIX, a, b);
    }
    HexIsNotConsentKey(a);
  }

  lemma UnusedAfterPut(w: World, s: Sys, e: Effect, i: nat)
    requires Sound(w) && FreshWrite(w, s, e) && Unused(w, s, i) && i != s.drawn && e.drew
    requires e.write.PutClient? || e.write.PutPending? || e.write.PutCode? || e.write.PutRefresh? || e.write.PutSession?
    ensures Unused(w, Written(s, e.write), i)
  {
    DrawsAreApart(w, i, s.drawn);
    DrawsAreApart(w, s.drawn, i);
  }

  lemma UnusedAfterDelete(w: World, s: Sys, wr: Write, i: nat)
    requires Unused(w, s, i)
    requires wr.NoWrite? || wr.DelPending? || wr.DelCode? || wr.DelRefresh? || wr.DelSession?
    ensures Unused(w, Written(s, wr), i)
  {
  }

  lemma UnusedKept(w: World, s: Sys, tid: nat, e: Effect, i: nat)
    requires Sound(w) && FreshWrite(w, s, e) && Unused(w, s, i) && (e.drew ==> i != s.drawn)
    ensures Unused(w, Perform(s, tid, e).sys, i)
  {
    match e.write {
      case NoWrite => UnusedAfterDelete(w, s, e.write, i);
      case DelPending(_) => UnusedAfterDelete(w, s, e.write, i);
      case DelCode(_) => UnusedAfterDelete(w, s, e.write, i);
      case DelRefresh(_) => UnusedAfterDelete(w, s, e.write, i);
      case DelSession(_) => UnusedAfterDelete(w, s, e.write, i);
      case _ => UnusedAfterPut(w, s, e, i);
    }
  }

  lemma FreshKept(w: World, s: Sys, tid: nat, e: Effect)
    requires Sound(w) && Fresh(w, s) && FreshWrite(w, s, e)
    ensures Fresh(w, Perform(s, tid, e).sys)
  {
    forall i: nat | Perform(s, tid, e).sys.drawn <= i
      ensures Unused(w, Perform(s, tid, e).sys, i)
    {
      UnusedKept(w, s, tid, e, i);
    }
  }

  lemma StepKeepsFresh(w: World, s: Sys, e: Event)
    requires Sound(w) && Fresh(w, s)
    ensures Fresh(w, Act(w, s, e).sys)
  {
    match e {
      case Start(tid, request) =>
        if tid !in s.flights {
          FreshKept(w, s, tid, Quiet(Admit(w, request)));
        }
      case Advance(tid, io) =>
        if tid in s.flights {
          AdvanceKeepsFresh(w, s, tid, io);
          assert Act(w, s, e) == Advanced(w, s, tid, io);
        }
      case Lost(place) => LostKeepsFresh(w, s, place);
      case SessionLost(_) =>
        forall i: nat | s.drawn <= i
          ensures Unused(w, Act(w, s, e).sys, i)
        {
          assert Unused(w, s, i);
        }
    }
  }

  lemma AdvanceKeepsFresh(w: World, s: Sys, tid: nat, io: IO)
    requires Sound(w) && Fresh(w, s) && tid in s.flights
    ensures Fresh(w, Advanced(w, s, tid, io).sys)
  {
    var t := Ticked(s, io.tick);
    TickKeepsFresh(w, s, io.tick);
    ProceedWrites(w, t, tid, s.flights[tid], io);
    FreshKept(w, t, tid, Proceed(w, t, tid, s.flights[tid], io));
  }

  lemma LostKeepsFresh(w: World, s: Sys, place: Place)
    requires Fresh(w, s)
    ensures Fresh(w, ActLost(s, place).sys)
  {
    forall i: nat | s.drawn <= i
      ensures Unused(w, ActLost(s, place).sys, i)
    {
      assert Unused(w, s, i);
    }
  }

  // ----- Sessions keep their trail

  lemma MintedOnLater(a: Audit, r: nat, f: Fact, key: string, session: Session)
    requires r < |a.trails| && MintedOn(a.trails[r], key, session)
    ensures forall q: nat | q < |a.trails| :: MintedOn(Extend(a, q, f).trails[r], key, session)
  {
  }

  lemma TrailsOnlyGrow(a: Audit, m: Move, r: nat, key: string, session: Session)
    requires r < |a.trails| && MintedOn(a.trails[r], key, session)
    ensures r < |Apply(a, m).trails| && MintedOn(Apply(a, m).trails[r], key, session)
  {
    forall f: Fact, q: nat | q < |a.trails|
      ensures MintedOn(Extend(a, q, f).trails[r], key, session)
    {
      MintedOnLater(a, r, f, key, session);
    }
  }

  lemma StoredSession(s: Sys, wr: Write, k: string)
    requires k in Written(s, wr).sessions
    ensures (k in s.sessions && Written(s, wr).sessions[k] == s.sessions[k])
            || wr == PutSession(k, Written(s, wr).sessions[k])
  {
    match wr {
      case PutSession(_, _) =>
      case DelSession(_) =>
      case _ =>
        assert Written(s, wr).sessions == s.sessions;
    }
  }

  lemma OldSessionTraced(a: Audit, m: Move, k: string, session: Session)
    requires Traced(a, k, session)
    requires NoteOf(m).Some? && NoteOf(m).value.Minted? ==> NoteOf(m).value.key != k
    ensures Traced(Apply(a, m), k, session)
  {
    TrailsOnlyGrow(a, m, a.minter[k], k, session);
  }

  lemma NewSessionTraced(a: Audit, m: Move, k: string, session: Session)
    requires Fits(a, m) && m.Note? && m.fact.Minted? && m.fact.key == k && m.fact.session == session
    ensures Traced(Apply(a, m), k, session)
  {
  }

  lemma SessionsStayTraced(w: World, s: State, tid: nat, e: Effect)
    requires SessionsTraced(s) && Fresh(w, s.sys) && TracedWrite(w, s.sys, e) && Fits(s.audit, e.move)
    ensures SessionsTraced(Land(s, Perform(s.sys, tid, e)))
  {
    var s' := Land(s, Perform(s.sys, tid, e));
    FreshKeys(w, s.sys);
    forall k | k in s'.sys.sessions
      ensures Traced(s'.audit, k, s'.sys.sessions[k])
    {
      StoredSession(s.sys, e.write, k);
      if k in s.sys.sessions && s'.sys.sessions[k] == s.sys.sessions[k] {
        OldSessionTraced(s.audit, e.move, k, s.sys.sessions[k]);
      } else {
        NewSessionTraced(s.audit, e.move, k, s'.sys.sessions[k]);
      }
    }
  }

  // ----- Redirects stay registered

  ghost predicate ClientsKept(s: Sys, s': Sys) {
    forall id | id in s.clients :: id in s'.clients && s'.clients[id] == s.clients[id]
  }

  lemma StoredClient(s: Sys, wr: Write, id: string)
    requires id in Written(s, wr).clients
    ensures (id in s.clients && Written(s, wr).clients[id] == s.clients[id])
            || (wr.PutClient? && wr.client == Written(s, wr).clients[id])
  {
    if !wr.PutClient? {
      assert Written(s, wr).clients == s.clients;
    }
  }

  lemma KeptClient(s: Sys, wr: Write, id: string)
    requires id in s.clients && (wr.PutClient? ==> wr.client.clientID != id)
    ensures id in Written(s, wr).clients && Written(s, wr).clients[id] == s.clients[id]
  {
    if !wr.PutClient? {
      assert Written(s, wr).clients == s.clients;
    }
  }

  lemma FreshWriteKeepsClients(w: World, s: Sys, tid: nat, e: Effect)
    requires Fresh(w, s) && FreshWrite(w, s, e)
    ensures ClientsKept(s, Perform(s, tid, e).sys)
  {
    FreshKeys(w, s);
    forall id | id in s.clients
      ensures id in Written(s, e.write).clients && Written(s, e.write).clients[id] == s.clients[id]
    {
      KeptClient(s, e.write, id);
    }
  }

  lemma ReplyLater(w: World, s: Sys, s': Sys, f: Flight)
    requires ReplySafe(w, s, f) && ClientsKept(s, s')
    ensures ReplySafe(w, s', f)
  {
  }

  predicate SafeClient(w: World, wr: Write) {
    wr.PutClient? ==> ValidRegistration(w.parse, wr.client.name, wr.client.redirectURIs)
  }

  lemma ProceedReplies(w: World, s: Sys, tid: nat, f: Flight, io: IO)
    requires ReplySafe(w, s, f) && ClientsValid(w, s)
    ensures ReplySafe(w, s, Proceed(w, s, tid, f, io).next) && SafeClient(w, Proceed(w, s, tid, f, io).write)
  {
  }

  lemma PerformKeepsClients(w: World, s: Sys, tid: nat, e: Effect)
    requires ClientsValid(w, s) && SafeClient(w, e.write)
    ensures ClientsValid(w, Perform(s, tid, e).sys)
  {
    var s' := Perform(s, tid, e).sys;
    assert s'.clients == Written(s, e.write).clients;
    forall id | id in s'.clients
      ensures ValidRegistration(w.parse, s'.clients[id].name, s'.clients[id].redirectURIs)
    {
      StoredClient(s, e.write, id);
    }
  }

  lemma PerformKeepsReplies(w: World, s: Sys, tid: nat, e: Effect)
    requires RepliesSafe(w, s) && ClientsKept(s, Perform(s, tid, e).sys) && ReplySafe(w, s, e.next)
    ensures RepliesSafe(w, Perform(s, tid, e).sys)
  {
    var s' := Perform(s, tid, e).sys;
    FlightsAfter(s, tid, e);
    RepliesKept(w, s, s', tid, e.next);
  }

  lemma FlightsAfter(s: Sys, tid: nat, e: Effect)
    ensures Perform(s, tid, e).sys.flights == s.flights[tid := e.next]
  {
    WriteKeepsFlights(s, e.write);
    WentTo(Written(s, e.write), tid, e);
  }

  lemma WentTo(t: Sys, tid: nat, e: Effect)
    ensures var u := Goto(t, tid, e.next);
            (if e.drew then u.(drawn := u.drawn + 1) else u).flights == t.flights[tid := e.next]
  {
  }

  lemma RepliesKept(w: World, s: Sys, s': Sys, tid: nat, f: Flight)
    requires RepliesSafe(w, s) && ClientsKept(s, s') && ReplySafe(w, s, f) && s'.flights == s.flights[tid := f]
    ensures RepliesSafe(w, s')
  {
    forall h | h in s'.flights
      ensures ReplySafe(w, s', s'.flights[h])
    {
      ReplyLater(w, s, s', if h == tid then f else s.flights[h]);
    }
  }

  // ----- Every run

  lemma AdvanceKeepsInv(w: World, s: State, tid: nat, io: IO)
    requires Sound(w) && Inv(w, s) && tid in s.sys.flights
    ensures SessionsTraced(Land(s, Advanced(w, s.sys, tid, io)))
    ensures ClientsValid(w, Advanced(w, s.sys, tid, io).sys) && RepliesSafe(w, Advanced(w, s.sys, tid, io).sys)
  {
    var t := State(Ticked(s.sys, io.tick), s.audit);
    var f := s.sys.flights[tid];
    TickKeepsCore(w, s, io.tick);
    TickKeepsFresh(w, s.sys, io.tick);
    forall h | h in t.sys.flights
      ensures ReplySafe(w, t.sys, t.sys.flights[h])
    {
      ReplyLater(w, s.sys, t.sys, s.sys.flights[h]);
    }
    ProceedWrites(w, t.sys, tid, f, io);
    ProceedReplies(w, t.sys, tid, f, io);
    FreshWriteKeepsClients(w, t.sys, tid, Proceed(w, t.sys, tid, f, io));
    PerformKeepsClients(w, t.sys, tid, Proceed(w, t.sys, tid, f, io));
    PerformKeepsReplies(w, t.sys, tid, Proceed(w, t.sys, tid, f, io));
    ProceedFits(w, t, tid, f, io);
    SessionsStayTraced(w, t, tid, Proceed(w, t.sys, tid, f, io));
  }

  lemma ProceedFits(w: World, s: State, tid: nat, f: Flight, io: IO)
    requires Informed(w, s, tid, f)
    ensures Fits(s.audit, Proceed(w, s.sys, tid, f, io).move)
  {
    ProceedIsDecent(w, s, tid, f, io);
    DecentFits(w, s, tid, Proceed(w, s.sys, tid, f, io));
  }

  lemma DecentFits(w: World, s: State, tid: nat, e: Effect)
    requires Decent(w, s, tid, e)
    ensures Fits(s.audit, e.move)
  {
  }

  lemma StartKeepsInv(w: World, s: State, tid: nat, request: Request)
    requires Sound(w) && Inv(w, s) && tid !in s.sys.flights
    ensures SessionsTraced(Step(w, s, Start(tid, request)))
    ensures ClientsValid(w, Act(w, s.sys, Start(tid, request)).sys)
    ensures RepliesSafe(w, Act(w, s.sys, Start(tid, request)).sys)
  {
    var e := Quiet(Admit(w, request));
    PerformKeepsReplies(w, s.sys, tid, e);
    SessionsStayTraced(w, s, tid, e);
  }

  lemma LostKeepsSessions(s: State, place: Place)
    requires SessionsTraced(s)
    ensures SessionsTraced(Land(s, ActLost(s.sys, place)))
  {
    var o := ActLost(s.sys, place);
    assert o.sys.sessions == s.sys.sessions;
    forall k | k in o.sys.sessions
      ensures Traced(Apply(s.audit, o.move), k, o.sys.sessions[k])
    {
      OldSessionTraced(s.audit, o.move, k, s.sys.sessions[k]);
    }
  }

  lemma LostKeepsReplies(w: World, s: Sys, place: Place)
    requires ClientsValid(w, s) && RepliesSafe(w, s)
    ensures ClientsValid(w, ActLost(s, place).sys) && RepliesSafe(w, ActLost(s, place).sys)
  {
    var s' := ActLost(s, place).sys;
    assert s'.clients == s.clients;
    forall h | h in s'.flights
      ensures ReplySafe(w, s', s'.flights[h])
    {
      if s'.flights[h] == s.flights[h] {
        ReplyLater(w, s, s', s.flights[h]);
      }
    }
  }

  lemma StepKeepsInv(w: World, s: State, e: Event)
    requires Sound(w) && Inv(w, s)
    ensures Inv(w, Step(w, s, e))
  {
    StepKeepsCore(w, s, e);
    StepKeepsFresh(w, s.sys, e);
    match e {
      case Start(tid, request) =>
        if tid !in s.sys.flights {
          StartKeepsInv(w, s, tid, request);
        }
      case Advance(tid, io) =>
        if tid in s.sys.flights {
          AdvanceKeepsInv(w, s, tid, io);
          assert Act(w, s.sys, e) == Advanced(w, s.sys, tid, io);
        }
      case Lost(place) =>
        LostKeepsSessions(s, place);
        LostKeepsReplies(w, s.sys, place);
      case SessionLost(key) =>
        SessionLostKeepsReplies(w, s.sys, key);
    }
  }

  lemma SessionLostKeepsReplies(w: World, s: Sys, key: string)
    requires ClientsValid(w, s) && RepliesSafe(w, s)
    ensures ClientsValid(w, Written(s, DelSession(key))) && RepliesSafe(w, Written(s, DelSession(key)))
  {
    var s' := Written(s, DelSession(key));
    forall h | h in s'.flights
      ensures ReplySafe(w, s', s'.flights[h])
    {
      ReplyLater(w, s, s', s.flights[h]);
    }
  }

  lemma InitialInv(w: World)
    ensures Inv(w, INITIAL)
  {
  }

  lemma {:induction false} RunKeepsInv(w: World, s: State, es: seq<Event>)
    requires Sound(w) && Inv(w, s)
    ensures Inv(w, Run(w, s, es))
  {
    if es == [] {
    } else {
      RunKeepsInv(w, s, es[..|es| - 1]);
      StepKeepsInv(w, Run(w, s, es[..|es| - 1]), es[|es| - 1]);
    }
  }

  lemma AlwaysInv(w: World, es: seq<Event>)
    requires Sound(w)
    ensures Inv(w, Run(w, INITIAL, es))
  {
    InitialInv(w);
    RunKeepsInv(w, INITIAL, es);
  }
}
