/** Where authorizations and clients come from: every authorization from one
    authorize request of a registered client, every client from one admitted
    registration. */
module AuthOrigins {
  import opened Basics
  import opened Redirects
  import opened AuthRecords
  import opened Lineage
  import opened AuthSteps
  import opened AuthAudit
  import opened AuthSafety
  import opened AuthInvariant
  import opened AuthTheorems
  import opened AuthEndings
  import opened AuthHistory
  import opened AuthDeeds
  import opened AuthProvenance

  // ----- Clients

  lemma PerformKeepsClientTable(w: World, s: Sys, tid: nat, e: Effect)
    requires Fresh(w, s) && CleanWrite(w, s, e)
    ensures ClientsKept(s, Perform(s, tid, e).sys)
  {
    FreshWriteKeepsClients(w, s, tid, e);
  }

  /** No step changes or removes a client. */
  lemma StepKeepsClients(w: World, s: Sys, e: Event)
    requires Fresh(w, s)
    ensures ClientsKept(s, Act(w, s, e).sys)
  {
    match e {
      case Start(tid, request) =>
        if tid !in s.flights {
          PerformKeepsClientTable(w, s, tid, Quiet(Admit(w, request)));
        }
      case Advance(tid, io) =>
        if tid in s.flights {
          var t := Ticked(s, io.tick);
          TickKeepsFresh(w, s, io.tick);
          ProceedWrites(w, t, tid, s.flights[tid], io);
          PerformKeepsClientTable(w, t, tid, Proceed(w, t, tid, s.flights[tid], io));
          assert Act(w, s, e) == Advanced(w, s, tid, io);
        }
      case Lost(place) => LostLeavesClients(s, place);
      case SessionLost(_) =>
    }
  }

  lemma LostLeavesClients(s: Sys, place: Place)
    ensures ActLost(s, place).sys.clients == s.clients
  {
  }

  // ----- Authorize requests

  predicate IsRegistered(s: Sys, a: Authorization) {
    a.clientID in s.clients && a.redirectURI in s.clients[a.clientID].redirectURIs
  }

  lemma OnlyLookupStashes(w: World, s: Sys, tid: nat, f: Flight, io: IO)
    requires Proceed(w, s, tid, f, io).next.AuthorizeStash?
    ensures f.AuthorizeLookup? && IsRegistered(s, Proceed(w, s, tid, f, io).next.a)
    ensures Proceed(w, s, tid, f, io).write == NoWrite
  {
  }

  lemma StepRegisters(w: World, s: Sys, e: Event, tid: nat)
    requires Fresh(w, s)
    requires tid in s.flights && s.flights[tid].AuthorizeStash? ==> IsRegistered(s, s.flights[tid].a)
    requires var f := FlightAfter(w, s, e, tid); f.Some? && f.value.AuthorizeStash?
    ensures IsRegistered(Act(w, s, e).sys, FlightAfter(w, s, e, tid).value.a)
  {
    StepKeepsClients(w, s, e);
    if e.Advance? && e.tid == tid && tid in s.flights {
      OnlyLookupStashes(w, Ticked(s, e.io.tick), tid, s.flights[tid], e.io);
    }
  }

  /** In every run a request that authorize is about to stash names a client with
      that redirect URI. */
  lemma {:induction false} StashesAreRegistered(w: World, es: seq<Event>, tid: nat)
    requires Sound(w) && tid in Reached(w, es).sys.flights && Reached(w, es).sys.flights[tid].AuthorizeStash?
    ensures IsRegistered(Reached(w, es).sys, Reached(w, es).sys.flights[tid].a)
  {
    if es == [] {
    } else {
      var init, last := es[..|es| - 1], es[|es| - 1];
      var s := Reached(w, init).sys;
      AlwaysInv(w, init);
      if tid in s.flights && s.flights[tid].AuthorizeStash? {
        StashesAreRegistered(w, init, tid);
      }
      FlightFollows(w, s, last, tid);
      StepRegisters(w, s, last, tid);
    }
  }

  /** The i-th event of the run accepted this request as authorization r, which it
      opened. */
  predicate AcceptedIn(w: World, es: seq<Event>, i: nat, tid: nat, a: Authorization, r: nat, auth: AuthFact) {
    && i < |es| && es[i].Advance? && es[i].tid == tid && es[i].io.ok
    && Arrived(es[..i], tid) == Some(AuthorizeRequest(a)) && WellFormed(a)
    && tid in Reached(w, es[..i]).sys.flights && Reached(w, es[..i]).sys.flights[tid].AuthorizeStash?
    && IsRegistered(Reached(w, es[..i]).sys, a)
    && r == |Reached(w, es[..i]).audit.trails|
    && auth == AuthFact(a.clientID, a.redirectURI, a.codeChallenge, a.state, Completed(a).scope)
  }

  ghost predicate Accepted(w: World, es: seq<Event>, r: nat, auth: AuthFact) {
    exists i: nat, tid: nat, a :: AcceptedIn(w, es, i, tid, a, r, auth)
  }

  lemma AcceptedStays(w: World, es: seq<Event>, e: Event, r: nat, auth: AuthFact)
    requires Accepted(w, es, r, auth)
    ensures Accepted(w, es + [e], r, auth)
  {
    var i: nat, tid: nat, a :| AcceptedIn(w, es, i, tid, a, r, auth);
    assert (es + [e])[..i] == es[..i];
    assert AcceptedIn(w, es + [e], i, tid, a, r, auth);
  }

  lemma OnlyStashOpens(w: World, s: Sys, tid: nat, f: Flight, io: IO)
    requires Proceed(w, s, tid, f, io).move.Open?
    ensures f.AuthorizeStash? && io.ok
    ensures var a := f.a;
            Proceed(w, s, tid, f, io).move.auth
            == AuthFact(a.clientID, a.redirectURI, a.codeChallenge, a.state, a.scope)
  {
  }

  lemma OpenIsAccepted(w: World, es: seq<Event>, e: Event)
    requires Sound(w) && Act(w, Reached(w, es).sys, e).move.Open?
    ensures Accepted(w, es + [e], |Reached(w, es).audit.trails|, Act(w, Reached(w, es).sys, e).move.auth)
  {
    var s := Reached(w, es).sys;
    match e {
      case Start(_, _) =>
      case Advance(tid, io) =>
        assert Act(w, s, e) == Advanced(w, s, tid, io);
        OnlyStashOpens(w, Ticked(s, io.tick), tid, s.flights[tid], io);
        HandlersServe(w, es, tid);
        StashesAreRegistered(w, es, tid);
        AcceptsNow(w, es, tid, io, Act(w, s, e).move.auth);
      case Lost(place) => LostMoves(s, place);
      case SessionLost(_) =>
    }
  }

  lemma AcceptsNow(w: World, es: seq<Event>, tid: nat, io: IO, auth: AuthFact)
    requires io.ok && tid in Reached(w, es).sys.flights && Reached(w, es).sys.flights[tid].AuthorizeStash?
    requires Arrived(es, tid).Some? && Serves(w, Arrived(es, tid).value, Reached(w, es).sys.flights[tid])
    requires var b := Reached(w, es).sys.flights[tid].a;
             && IsRegistered(Reached(w, es).sys, b)
             && auth == AuthFact(b.clientID, b.redirectURI, b.codeChallenge, b.state, b.scope)
    ensures Accepted(w, es + [Advance(tid, io)], |Reached(w, es).audit.trails|, auth)
  {
    var next, n := es + [Advance(tid, io)], |es|;
    assert next[..n] == es;
    assert AcceptedIn(w, next, n, tid, Arrived(es, tid).value.authorization, |Reached(w, es).audit.trails|, auth);
  }

  /** In every run every authorization is one authorize request that came in, with
      a challenge, from a client registered with that redirect URI. */
  lemma {:induction false} AuthorizationHasProvenance(w: World, es: seq<Event>, r: nat)
    requires Sound(w) && r < |Reached(w, es).audit.trails|
    ensures Accepted(w, es, r, AuthOf(Reached(w, es).audit.trails[r]))
  {
    if es == [] {
    } else {
      var init, last := es[..|es| - 1], es[|es| - 1];
      var s := Reached(w, init);
      assert init + [last] == es;
      AuthOver(s.audit, Act(w, s.sys, last).move, r);
      if r < |s.audit.trails| {
        AuthorizationHasProvenance(w, init, r);
        AcceptedStays(w, init, last, r, AuthOf(s.audit.trails[r]));
      } else {
        OpenIsAccepted(w, init, last);
      }
    }
  }

  lemma AuthOver(a: Audit, m: Move, r: nat)
    requires r < |Apply(a, m).trails|
    ensures if r < |a.trails| then AuthOf(Apply(a, m).trails[r]) == AuthOf(a.trails[r])
            else m.Open? && r == |a.trails| && AuthOf(Apply(a, m).trails[r]) == m.auth
  {
  }

  lemma RegisteredIsSafe(w: World, es: seq<Event>, a: Authorization)
    requires Sound(w) && IsRegistered(Reached(w, es).sys, a)
    ensures MayReceiveCodes(w.parse, a.redirectURI)
  {
    AlwaysInv(w, es);
    var uris := Reached(w, es).sys.clients[a.clientID].redirectURIs;
    var i :| 0 <= i < |uris| && uris[i] == a.redirectURI;
    AcceptedIffSafe(w.parse, uris[i]);
  }

  /** In every run every stored code is for a redirect URI that may receive codes:
      over plain http only on the user's own machine. */
  lemma CodesGoToSafePlaces(w: World, es: seq<Event>, code: string)
    requires Sound(w) && code in Reached(w, es).sys.codes
    ensures MayReceiveCodes(w.parse, Reached(w, es).sys.codes[code].redirectURI)
  {
    CodeMatchesTrail(w, es, code);
    var s := Reached(w, es);
    var r := s.audit.at[CodeAt(code)];
    AuthorizationHasProvenance(w, es, r);
    var i: nat, tid: nat, a :| AcceptedIn(w, es, i, tid, a, r, AuthOf(s.audit.trails[r]));
    RegisteredIsSafe(w, es[..i], a);
  }

  /** An authorize handler that has stashed its request is done. */
  lemma StashesOnce(w: World, s: Sys, tid: nat, io: IO)
    requires tid in s.flights && s.flights[tid].AuthorizeStash?
    ensures var t := Act(w, s, Advance(tid, io)).sys; tid in t.flights && t.flights[tid].Done?
  {
    FlightFollows(w, s, Advance(tid, io), tid);
    var t := Ticked(s, io.tick);
    StashAnswers(w, t, tid, s.flights[tid], io);
  }

  lemma StashAnswers(w: World, s: Sys, tid: nat, f: Flight, io: IO)
    requires f.AuthorizeStash?
    ensures Proceed(w, s, tid, f, io).next.Done?
  {
  }

  lemma DoneStaysDone(w: World, s: Sys, e: Event, tid: nat)
    requires tid in s.flights && s.flights[tid].Done?
    ensures var t := Act(w, s, e).sys; tid in t.flights && t.flights[tid].Done?
  {
    FlightFollows(w, s, e, tid);
  }

  lemma {:induction false} AnsweredForGood(w: World, es: seq<Event>, n: nat, tid: nat)
    requires n <= |es| && tid in Reached(w, es[..n]).sys.flights && Reached(w, es[..n]).sys.flights[tid].Done?
    ensures tid in Reached(w, es).sys.flights && Reached(w, es).sys.flights[tid].Done?
  {
    if n == |es| {
      assert es[..n] == es;
    } else {
      var init := es[..|es| - 1];
      assert init[..n] == es[..n];
      AnsweredForGood(w, init, n, tid);
      DoneStaysDone(w, Reached(w, init).sys, es[|es| - 1], tid);
    }
  }

  /** In every run no request opens two authorizations: what is at most once for an
      authorization is at most once for an accepted request. */
  lemma OneAuthorizationPerRequest(w: World, es: seq<Event>, i: nat, j: nat, tid: nat, tid': nat,
                                   a: Authorization, a': Authorization, r: nat, r': nat,
                                   auth: AuthFact, auth': AuthFact)
    requires AcceptedIn(w, es, i, tid, a, r, auth) && AcceptedIn(w, es, j, tid', a', r', auth') && r != r'
    ensures i != j && tid != tid'
  {
    if tid == tid' {
      AcceptsOnce(w, es, if i < j then i else j, if i < j then j else i, tid);
    }
  }

  lemma AcceptsOnce(w: World, es: seq<Event>, i: nat, j: nat, tid: nat)
    requires i < j < |es| && es[i].Advance? && es[i].tid == tid
    requires tid in Reached(w, es[..i]).sys.flights && Reached(w, es[..i]).sys.flights[tid].AuthorizeStash?
    ensures tid in Reached(w, es[..j]).sys.flights && Reached(w, es[..j]).sys.flights[tid].Done?
  {
    var before := es[..j];
    assert before[..i] == es[..i] && before[..i + 1] == es[..i] + [es[i]];
    StashesOnce(w, Reached(w, es[..i]).sys, tid, es[i].io);
    RunOneMore(w, es[..i], es[i]);
    AnsweredForGood(w, before, i + 1, tid);
  }

  // ----- Registrations

  /** The i-th event of the run made this client from a registration that was
      admitted and is within the limits. */
  predicate RegisteredIn(w: World, es: seq<Event>, i: nat, tid: nat, q: Request, c: Client) {
    && i < |es| && es[i].Advance? && es[i].tid == tid && es[i].io.ok && Arrived(es[..i], tid) == Some(q)
    && q.RegisterRequest? && q.admitted && MayRegister(w.parse, q.name, q.uris)
    && c.clientID == CLIENT_PREFIX + w.coin(Reached(w, es[..i]).sys.drawn)
    && c.name == q.name && c.redirectURIs == q.uris && c.grantTypes == DefaultGrants(q.grants)
  }

  ghost predicate Registered(w: World, es: seq<Event>, c: Client) {
    exists i: nat, tid: nat, q :: RegisteredIn(w, es, i, tid, q, c)
  }

  lemma RegisteredStays(w: World, es: seq<Event>, e: Event, c: Client)
    requires Registered(w, es, c)
    ensures Registered(w, es + [e], c)
  {
    var i: nat, tid: nat, q :| RegisteredIn(w, es, i, tid, q, c);
    assert (es + [e])[..i] == es[..i];
    assert RegisteredIn(w, es + [e], i, tid, q, c);
  }

  lemma OnlyRegisterPuts(w: World, s: Sys, tid: nat, f: Flight, io: IO)
    requires Proceed(w, s, tid, f, io).write.PutClient?
    ensures f.Registering? && io.ok
    ensures Proceed(w, s, tid, f, io).write.client
            == Client(CLIENT_PREFIX + w.coin(s.drawn), f.name, f.uris, DefaultGrants(f.grants), s.now)
  {
  }

  /** A client that is in the table after the step was there, or is put by it. */
  lemma ClientBefore(w: World, s: Sys, e: Event, id: string)
    requires id in Act(w, s, e).sys.clients
    ensures var t := Act(w, s, e).sys.clients;
            || (id in s.clients && t[id] == s.clients[id])
            || (e.Advance? && e.tid in s.flights
                && Proceed(w, Ticked(s, e.io.tick), e.tid, s.flights[e.tid], e.io).write == PutClient(t[id]))
  {
    match e {
      case Start(_, _) =>
      case Advance(tid, io) =>
        if tid in s.flights {
          var t := Ticked(s, io.tick);
          var eff := Proceed(w, t, tid, s.flights[tid], io);
          assert Act(w, s, e) == Advanced(w, s, tid, io);
          PerformClients(t, tid, eff);
          StoredClient(t, eff.write, id);
        }
      case Lost(place) => LostLeavesClients(s, place);
      case SessionLost(_) =>
    }
  }

  lemma PerformClients(s: Sys, tid: nat, e: Effect)
    ensures Perform(s, tid, e).sys.clients == Written(s, e.write).clients
  {
  }

  lemma RegistersNow(w: World, es: seq<Event>, tid: nat, io: IO, c: Client)
    requires Sound(w) && tid in Reached(w, es).sys.flights
    requires var s := Reached(w, es).sys;
             Proceed(w, Ticked(s, io.tick), tid, s.flights[tid], io).write == PutClient(c)
    ensures Registered(w, es + [Advance(tid, io)], c)
  {
    var s := Reached(w, es).sys;
    var next, n := es + [Advance(tid, io)], |es|;
    OnlyRegisterPuts(w, Ticked(s, io.tick), tid, s.flights[tid], io);
    HandlersServe(w, es, tid);
    AlwaysInv(w, es);
    assert ReplySafe(w, s, s.flights[tid]);
    ValidIffSafe(w.parse, s.flights[tid].name, s.flights[tid].uris);
    assert next[..n] == es;
    assert RegisteredIn(w, next, n, tid, Arrived(es, tid).value, c);
  }

  /** In every run every stored client is one registration that came in, was
      admitted by the limiter and kept within the limits. */
  lemma {:induction false} ClientHasProvenance(w: World, es: seq<Event>, id: string)
    requires Sound(w) && id in Reached(w, es).sys.clients
    ensures Registered(w, es, Reached(w, es).sys.clients[id])
  {
    if es == [] {
    } else {
      var init, last := es[..|es| - 1], es[|es| - 1];
      var s := Reached(w, init).sys;
      assert init + [last] == es;
      ClientBefore(w, s, last, id);
      if id in s.clients && Reached(w, es).sys.clients[id] == s.clients[id] {
        ClientHasProvenance(w, init, id);
        RegisteredStays(w, init, last, s.clients[id]);
      } else {
        RegistersNow(w, init, last.tid, last.io, Reached(w, es).sys.clients[id]);
      }
    }
  }
}
