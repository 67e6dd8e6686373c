/** Whole-run safety of the authorization server: statements about every state
    that any interleaving of requests can reach. */
module AuthTheorems {
  import opened Basics
  import opened Redirects
  import opened AuthRecords
  import opened Lineage
  import opened LineageTheorems
  import opened AuthSteps
  import opened AuthAudit
  import opened AuthSafety
  import opened AuthInvariant

  function Reached(w: World, es: seq<Event>): State {
    Run(w, INITIAL, es)
  }

  /** The places that hold the record of authorization r: stored records and
      handlers that popped one and have not put it back. */
  function LiveRecords(s: State, r: nat): set<Place> {
    set p | p in s.audit.at && s.audit.at[p] == r
  }

  lemma AtMostOneElement(a: set<Place>)
    requires forall p, q | p in a && q in a :: p == q
    ensures |a| <= 1
  {
    if a != {} {
      var p :| p in a;
      assert a == {p};
    }
  }

  /** At every moment an accepted /authorize has at most one live record in the
      whole system: pending entry, code, refresh token, or record in some
      handler's hands. Every record there is belongs to one authorization. */
  lemma OneLiveRecord(w: World, es: seq<Event>, r: nat)
    requires Sound(w)
    ensures |LiveRecords(Reached(w, es), r)| <= 1
    ensures forall p :: ContentAt(Reached(w, es).sys, p) != Nothing <==> p in Reached(w, es).audit.at
  {
    AlwaysInv(w, es);
    AtMostOneElement(LiveRecords(Reached(w, es), r));
  }

  /** Every authorization ever accepted follows the protocol. */
  lemma EveryTrailIsLawful(w: World, es: seq<Event>, r: nat)
    requires Sound(w) && r < |Reached(w, es).audit.trails|
    ensures Lawful(w, Reached(w, es).audit.trails[r])
  {
    AlwaysInv(w, es);
  }

  /** Each accepted /authorize yields at most one code and at most one access
      token by code exchange, in every run. */
  lemma OneCodePerAuthorization(w: World, es: seq<Event>, r: nat)
    requires Sound(w) && r < |Reached(w, es).audit.trails|
    ensures var t := Reached(w, es).audit.trails[r];
            Approvals(t) <= 1 && Redemptions(t) <= 1 && ExchangeSessions(t) <= 1 && RefreshLineages(t) <= 1
  {
    EveryTrailIsLawful(w, es, r);
    AtMostOneOfEach(w, Reached(w, es).audit.trails[r]);
  }

  /** A stored code says what its trail says of the approval, the login and the
      original request. */
  lemma CodeMatchesTrail(w: World, es: seq<Event>, code: string)
    requires Sound(w) && code in Reached(w, es).sys.codes
    ensures var s := Reached(w, es);
            var c := s.sys.codes[code];
            && CodeAt(code) in s.audit.at && s.audit.at[CodeAt(code)] < |s.audit.trails|
            && var t := s.audit.trails[s.audit.at[CodeAt(code)]];
            && t.More? && t.fact.Approved? && t.fact.code == code && t.past.More? && t.past.fact.CalledBack?
            && c.subject == t.past.fact.visit.subject != "" && c.email == t.past.fact.visit.email
            && c.orgs == t.past.fact.visit.orgs && c.cognitoRefreshEnc == t.past.fact.visit.cognitoRefreshEnc
            && c.clientID == AuthOf(t).clientID && c.redirectURI == AuthOf(t).redirectURI
            && c.codeChallenge == AuthOf(t).codeChallenge && c.scope == AuthOf(t).scope
            && c.expires <= t.fact.at + 60_000_000_000
  {
    AlwaysInv(w, es);
    var s := Reached(w, es);
    CoreKnows(w, s, CodeAt(code));
    ApprovalFollowsLogin(w, s.audit.trails[s.audit.at[CodeAt(code)]], s.sys.codes[code], s.sys.now);
  }

  lemma ApprovalFollowsLogin(w: World, t: Trail, c: AuthCode, now: int)
    requires Lawful(w, t) && UnusedCode(c, t, now)
    ensures t.past.More? && t.past.fact.CalledBack?
    ensures t.past.fact.visit == LastVisit(t) && LastVisit(t).subject != ""
  {
    assert Lawful(w, t.past);
    assert LastVisit(t) == LastVisit(t.past);
  }

  /** A stored refresh token carries the client, scope, ciphertext and deadline
      that its lineage has had since the code exchange. */
  lemma RefreshTokenMatchesLineage(w: World, es: seq<Event>, key: string)
    requires Sound(w) && key in Reached(w, es).sys.refresh
    ensures var s := Reached(w, es);
            var rt := s.sys.refresh[key];
            && RefreshAt(key) in s.audit.at && s.audit.at[RefreshAt(key)] < |s.audit.trails|
            && var t := s.audit.trails[s.audit.at[RefreshAt(key)]];
            && rt.clientID == AuthOf(t).clientID && rt.scope == AuthOf(t).scope
            && rt.cognitoRefreshEnc == LastVisit(t).cognitoRefreshEnc
            && StandsFor(t, rt.subject, rt.email, rt.orgs)
            && DeadlineOf(t) == Some(rt.expires) && RefreshKeyOf(t) == key
  {
    AlwaysInv(w, es);
    CoreKnows(w, Reached(w, es), RefreshAt(key));
  }

  /** The moment session k was minted. */
  function MintOf(t: Trail, key: string, session: Session): (u: Trail)
    requires MintedOn(t, key, session)
    ensures Within(u, t) && u.More? && u.fact.Minted? && u.fact.key == key && u.fact.session == session
  {
    if t.fact.Minted? && t.fact.key == key && t.fact.session == session then t
    else MintOf(t.past, key, session)
  }

  /** Every session that platform-api would accept was minted right after a
      redeemed code or a successful Cognito refresh by the same handler. */
  lemma SessionMatchesTrail(w: World, es: seq<Event>, key: string)
    requires Sound(w) && key in Reached(w, es).sys.sessions
    ensures var s := Reached(w, es);
            && Traced(s.audit, key, s.sys.sessions[key])
            && var t := s.audit.trails[s.audit.minter[key]];
            var u := MintOf(t, key, s.sys.sessions[key]);
            && Lawful(w, t) && u.past.More?
            && (u.past.fact.Redeemed? || u.past.fact.Renewed?) && u.past.fact.tid == u.fact.tid
            && s.sys.sessions[key].subject != ""
  {
    AlwaysInv(w, es);
    var s := Reached(w, es);
    var t := s.audit.trails[s.audit.minter[key]];
    var u := MintOf(t, key, s.sys.sessions[key]);
    SessionFollowsProof(w, u, t);
    WithinIsLawful(w, u, t);
    if u.past.fact.Redeemed? {
      WithinStep(u, t);
      RedemptionIsBound(w, u.past, t);
    }
  }

  lemma {:induction false} WithinStep(u: Trail, t: Trail)
    requires Within(u, t) && u.More?
    ensures Within(u.past, t)
  {
    if u != t {
      WithinStep(u, t.past);
    } else {
      assert Within(u.past, u.past);
    }
  }

  /** A redirect emitted by consent goes to a URI that may receive codes and is
      registered to the client it names. */
  lemma RedirectsAreRegistered(w: World, es: seq<Event>, tid: nat)
    requires Sound(w) && tid in Reached(w, es).sys.flights
    requires var f := Reached(w, es).sys.flights[tid];
             f.Done? && f.response.Redirected?
    ensures var s := Reached(w, es).sys;
            var r := s.flights[tid].response;
            && r.clientID in s.clients && r.uri in s.clients[r.clientID].redirectURIs
            && ValidateRedirectURI(w.parse, r.uri) == UriVerdict.Accepted && MayReceiveCodes(w.parse, r.uri)
  {
    AlwaysInv(w, es);
    var s := Reached(w, es).sys;
    assert ReplySafe(w, s, s.flights[tid]);
    AcceptedIffSafe(w.parse, s.flights[tid].response.uri);
  }

  lemma LoginNeverRedirects(w: World, s: Sys, tid: nat, f: Flight, io: IO)
    requires LoginPoint(f)
    ensures var e := Proceed(w, s, tid, f, io); !(e.next.Done? && e.next.response.Redirected?)
  {
  }

  lemma TokenNeverRedirects(w: World, s: Sys, tid: nat, f: Flight, io: IO)
    requires !LoginPoint(f) && !ConsentPoint(f) && !f.Done?
    ensures var e := Proceed(w, s, tid, f, io); !(e.next.Done? && e.next.response.Redirected?)
  {
  }

  // ----- Used once

  /** The key of a stored record comes from the random string c. */
  predicate KeyFrom(w: World, p: Place, c: string) {
    match p
    case PendingAt(k) => k == c || k == ConsentKey(c)
    case CodeAt(k) => k == c
    case RefreshAt(k) => k == w.hash(c)
    case InHand(_) => true
  }

  /** Nothing is stored at p and no random string still to come leads there. */
  ghost predicate Retired(w: World, s: Sys, p: Place) {
    ContentAt(s, p) == Nothing && forall i: nat | s.drawn <= i :: !KeyFrom(w, p, w.coin(i))
  }

  lemma PendingUntouched(s: Sys, wr: Write, k: string)
    requires k !in s.pending && (wr.PutPending? ==> wr.key != k)
    ensures k !in Written(s, wr).pending
  {
    if !wr.PutPending? && !wr.DelPending? {
      assert Written(s, wr).pending == s.pending;
    }
  }

  lemma CodesUntouched(s: Sys, wr: Write, code: string)
    requires code !in s.codes && (wr.PutCode? ==> wr.c.code != code)
    ensures code !in Written(s, wr).codes
  {
    if !wr.PutCode? && !wr.DelCode? {
      assert Written(s, wr).codes == s.codes;
    }
  }

  lemma RefreshUntouched(s: Sys, wr: Write, k: string)
    requires k !in s.refresh && (wr.PutRefresh? ==> wr.rt.hashedToken != k)
    ensures k !in Written(s, wr).refresh
  {
    if !wr.PutRefresh? && !wr.DelRefresh? {
      assert Written(s, wr).refresh == s.refresh;
    }
  }

  lemma WrittenElsewhere(w: World, s: Sys, e: Effect, p: Place)
    requires !p.InHand? && ContentAt(s, p) == Nothing && FreshWrite(w, s, e)
    requires e.drew ==> !KeyFrom(w, p, w.coin(s.drawn))
    ensures ContentAt(Written(s, e.write), p) == Nothing
  {
    match p {
      case PendingAt(k) => PendingUntouched(s, e.write, k);
      case CodeAt(code) => CodesUntouched(s, e.write, code);
      case RefreshAt(k) => RefreshUntouched(s, e.write, k);
    }
  }

  lemma PerformKeepsRetired(w: World, s: Sys, tid: nat, e: Effect, p: Place)
    requires !p.InHand? && Retired(w, s, p) && FreshWrite(w, s, e)
    ensures Retired(w, Perform(s, tid, e).sys, p)
  {
    WrittenElsewhere(w, s, e, p);
    assert SameTables(Written(s, e.write), Perform(s, tid, e).sys);
  }

  lemma AdvanceKeepsRetired(w: World, s: Sys, tid: nat, io: IO, p: Place)
    requires !p.InHand? && Retired(w, s, p) && tid in s.flights
    ensures Retired(w, Advanced(w, s, tid, io).sys, p)
  {
    var t := Ticked(s, io.tick);
    assert SameTables(s, t);
    ProceedWrites(w, t, tid, s.flights[tid], io);
    PerformKeepsRetired(w, t, tid, Proceed(w, t, tid, s.flights[tid], io), p);
  }

  lemma LostKeepsRetired(w: World, s: Sys, place: Place, p: Place)
    requires !p.InHand? && Retired(w, s, p)
    ensures Retired(w, ActLost(s, place).sys, p)
  {
  }

  lemma StepKeepsRetired(w: World, s: Sys, e: Event, p: Place)
    requires !p.InHand? && Retired(w, s, p)
    ensures Retired(w, Act(w, s, e).sys, p)
  {
    match e {
      case Start(tid, request) =>
        if tid !in s.flights {
          PerformKeepsRetired(w, s, tid, Quiet(Admit(w, request)), p);
        }
      case Advance(tid, io) =>
        if tid in s.flights {
          AdvanceKeepsRetired(w, s, tid, io, p);
          assert Act(w, s, e) == Advanced(w, s, tid, io);
        }
      case Lost(place) => LostKeepsRetired(w, s, place, p);
      case SessionLost(key) =>
        assert SameTables(s, Written(s, DelSession(key)));
    }
  }

  lemma {:induction false} RunKeepsRetired(w: World, s: State, es: seq<Event>, p: Place)
    requires !p.InHand? && Retired(w, s.sys, p)
    ensures Retired(w, Run(w, s, es).sys, p)
  {
    if es == [] {
    } else {
      RunKeepsRetired(w, s, es[..|es| - 1], p);
      StepKeepsRetired(w, Run(w, s, es[..|es| - 1]).sys, es[|es| - 1], p);
    }
  }

  lemma {:induction false} RunAppend(w: World, s: State, a: seq<Event>, b: seq<Event>)
    ensures Run(w, s, a + b) == Run(w, Run(w, s, a), b)
  {
    if b == [] {
      assert a + b == a;
    } else {
      var n := |b| - 1;
      RunAppend(w, s, a, b[..n]);
      assert (a + b)[..|a + b| - 1] == a + b[..n];
    }
  }

  lemma StoredIsNotFuture(w: World, s: Sys, p: Place)
    requires Fresh(w, s) && !p.InHand? && ContentAt(s, p) != Nothing
    ensures forall i: nat | s.drawn <= i :: !KeyFrom(w, p, w.coin(i))
  {
    forall i: nat | s.drawn <= i
      ensures !KeyFrom(w, p, w.coin(i))
    {
      assert Unused(w, s, i);
    }
  }

  lemma PerformDraws(s: Sys, tid: nat, e: Effect)
    ensures s.drawn <= Perform(s, tid, e).sys.drawn
  {
    WriteDrawsNothing(s, e.write);
  }

  lemma WriteDrawsNothing(s: Sys, wr: Write)
    ensures Written(s, wr).drawn == s.drawn
  {
  }

  lemma DrawsOnlyAdvance(w: World, s: Sys, e: Event)
    ensures s.drawn <= Act(w, s, e).sys.drawn
  {
    match e {
      case Start(tid, request) => PerformDraws(s, tid, Quiet(Admit(w, request)));
      case Advance(tid, io) =>
        if tid in s.flights {
          var t := Ticked(s, io.tick);
          PerformDraws(t, tid, Proceed(w, t, tid, s.flights[tid], io));
          assert Act(w, s, e) == Advanced(w, s, tid, io);
        }
      case Lost(place) =>
        assert ActLost(s, place).sys.drawn == s.drawn;
      case SessionLost(_) =>
    }
  }

  /** A state, consent key, code or refresh token that leaves its table, by a
      handler's pop, a revocation or the sweep, is never found there again, in
      any continuation: nothing single-use is accepted twice. */
  lemma LeavingIsFinal(w: World, es: seq<Event>, e: Event, later: seq<Event>, p: Place)
    requires Sound(w) && !p.InHand?
    requires ContentAt(Reached(w, es).sys, p) != Nothing
    requires ContentAt(Step(w, Reached(w, es), e).sys, p) == Nothing
    ensures ContentAt(Run(w, Step(w, Reached(w, es), e), later).sys, p) == Nothing
  {
    AlwaysInv(w, es);
    var s := Reached(w, es);
    StoredIsNotFuture(w, s.sys, p);
    DrawsOnlyAdvance(w, s.sys, e);
    assert Retired(w, Step(w, s, e).sys, p);
    RunKeepsRetired(w, Step(w, s, e), later, p);
  }

  /** In step e the refresh handler tid accepts the presented token. */
  predicate TakesToken(w: World, s: Sys, e: Event, token: string) {
    && e.Advance? && e.tid in s.flights
    && s.flights[e.tid].RefreshPop? && s.flights[e.tid].presented == token
    && e.io.ok && w.hash(token) in s.refresh
  }

  lemma TakingRemoves(w: World, s: Sys, e: Event, token: string)
    requires TakesToken(w, s, e, token)
    ensures ContentAt(Act(w, s, e).sys, RefreshAt(w.hash(token))) == Nothing
  {
    var t := Ticked(s, e.io.tick);
    var f := s.flights[e.tid];
    assert Proceed(w, t, e.tid, f, e.io).write == DelRefresh(w.hash(token));
  }

  lemma TakenIsGone(w: World, es: seq<Event>, e: Event, later: seq<Event>, token: string)
    requires Sound(w) && TakesToken(w, Reached(w, es).sys, e, token)
    ensures w.hash(token) !in Reached(w, es + [e] + later).sys.refresh
  {
    var s := Reached(w, es);
    TakingRemoves(w, s.sys, e, token);
    LeavingIsFinal(w, es, e, later, RefreshAt(w.hash(token)));
    assert (es + [e])[..|es|] == es;
    RunAppend(w, INITIAL, es + [e], later);
  }

  /** No refresh token is taken twice in any run (RFC 9700 section 4.14). */
  lemma NoTokenTakenTwice(w: World, es: seq<Event>, i: nat, j: nat, token: string)
    requires Sound(w) && i < j < |es|
    requires TakesToken(w, Reached(w, es[..i]).sys, es[i], token)
    ensures !TakesToken(w, Reached(w, es[..j]).sys, es[j], token)
  {
    TakenIsGone(w, es[..i], es[i], es[i + 1..j], token);
    assert es[..j] == es[..i] + [es[i]] + es[i + 1..j];
  }

  // ----- Over is over

  lemma OverIsOffTheLedger(w: World, s: State, p: Place)
    requires Core(w, s) && p in s.audit.at
    ensures s.audit.at[p] < |s.audit.trails| && PhaseOf(s.audit.trails[s.audit.at[p]]) != Over
  {
    assert Sits(w, s, p);
    StoredIsOpen(w, s, p);
  }

  lemma ApplyLeavesOthers(a: Audit, m: Move, r: nat)
    requires r < |a.trails| && forall p | p in a.at :: a.at[p] != r
    ensures r < |Apply(a, m).trails| && Apply(a, m).trails[r] == a.trails[r]
    ensures forall p | p in Apply(a, m).at :: Apply(a, m).at[p] != r
  {
  }

  lemma {:induction false} RunLeavesOver(w: World, s: State, es: seq<Event>, r: nat)
    requires r < |s.audit.trails| && forall p | p in s.audit.at :: s.audit.at[p] != r
    ensures r < |Run(w, s, es).audit.trails| && Run(w, s, es).audit.trails[r] == s.audit.trails[r]
    ensures forall p | p in Run(w, s, es).audit.at :: Run(w, s, es).audit.at[p] != r
  {
    if es == [] {
    } else {
      var t := Run(w, s, es[..|es| - 1]);
      RunLeavesOver(w, s, es[..|es| - 1], r);
      ApplyLeavesOthers(t.audit, Act(w, t.sys, es[|es| - 1]).move, r);
    }
  }

  /** An authorization that has ended never again has a record anywhere, mints a
      session, or gains any other fact. AuthEndings says which answers end one. */
  lemma EndedForever(w: World, es: seq<Event>, later: seq<Event>, r: nat)
    requires Sound(w) && r < |Reached(w, es).audit.trails|
    requires PhaseOf(Reached(w, es).audit.trails[r]).Over?
    ensures var s := Run(w, Reached(w, es), later);
            && r < |s.audit.trails| && s.audit.trails[r] == Reached(w, es).audit.trails[r]
            && LiveRecords(s, r) == {}
  {
    AlwaysInv(w, es);
    var s := Reached(w, es);
    forall p | p in s.audit.at
      ensures s.audit.at[p] != r
    {
      OverIsOffTheLedger(w, s, p);
    }
    RunLeavesOver(w, s, later, r);
  }
}
