/** The step system with its ledger: which place carries which authorization,
    and the trail of each. The ledger only watches; AuthSteps.Act never sees
    it. */
module AuthAudit {
  import opened Basics
  import opened Redirects
  import opened AuthRecords
  import opened Lineage
  import opened AuthSteps

  /** at[p] is the authorization (an index into trails) whose one live record is
      at p; minter[k] is the one whose trail minted session k. */
  datatype Audit = Audit(at: map<Place, nat>, trails: seq<Trail>, minter: map<string, nat>)

  datatype State = State(sys: Sys, audit: Audit)

  const INITIAL := State(EmptySys, Audit(map[], [], map[]))

  function Extend(a: Audit, r: nat, f: Fact): Audit
    requires r < |a.trails|
  {
    a.(trails := a.trails[r := More(a.trails[r], f)],
       minter := if f.Minted? then a.minter[f.key := r] else a.minter)
  }

  function Apply(a: Audit, m: Move): Audit {
    match m
    case Stay => a
    case Open(to, auth) => a.(at := a.at[to := |a.trails|], trails := a.trails + [Origin(auth)])
    case Shift(from, to, note) =>
      if from !in a.at || a.at[from] >= |a.trails| then a
      else
        var r := a.at[from];
        var b := if note.Some? then Extend(a, r, note.value) else a;
        b.(at := (a.at - {from})[to := r])
    case Note(p, f) =>
      if p !in a.at || a.at[p] >= |a.trails| then a else Extend(a, a.at[p], f)
    case Close(from, reason) =>
      if from !in a.at || a.at[from] >= |a.trails| then a
      else Extend(a, a.at[from], Ended(reason)).(at := a.at - {from})
  }

  function Land(s: State, o: Outcome): State {
    State(o.sys, Apply(s.audit, o.move))
  }

  function Step(w: World, s: State, e: Event): State {
    Land(s, Act(w, s.sys, e))
  }

  function Run(w: World, s: State, es: seq<Event>): State {
    if es == [] then s else Step(w, Run(w, s, es[..|es| - 1]), es[|es| - 1])
  }

  // ----- The invariant

  /** What is at a place. A handler counts only while it holds a record. */
  datatype Content =
    | Nothing
    | OfPending(p: PendingAuth)
    | OfCode(c: AuthCode)
    | OfRefresh(rt: RefreshToken)
    | OfFlight(f: Flight)

  function ContentAt(s: Sys, place: Place): Content {
    match place
    case PendingAt(k) => if k in s.pending then OfPending(s.pending[k]) else Nothing
    case CodeAt(c) => if c in s.codes then OfCode(s.codes[c]) else Nothing
    case RefreshAt(k) => if k in s.refresh then OfRefresh(s.refresh[k]) else Nothing
    case InHand(h) => if h in s.flights && Holding(s.flights[h]) then OfFlight(s.flights[h]) else Nothing
  }

  /** The ledger's places are exactly the stored records and the handlers that
      hold one. */
  ghost predicate Ledger(s: State) {
    forall p :: p in s.audit.at <==> ContentAt(s.sys, p) != Nothing
  }

  /** No two places carry the same authorization. */
  ghost predicate Linear(a: Audit) {
    && (forall p | p in a.at :: a.at[p] < |a.trails|)
    && (forall p, q | p in a.at && q in a.at && a.at[p] == a.at[q] :: p == q)
  }

  ghost predicate AllLawful(w: World, a: Audit) {
    forall r | 0 <= r < |a.trails| :: Lawful(w, a.trails[r])
  }

  predicate MatchesAuth(p: PendingAuth, a: AuthFact) {
    && p.clientID == a.clientID && p.redirectURI == a.redirectURI && p.codeChallenge == a.codeChallenge
    && p.originalState == a.originalState && p.scope == a.scope
  }

  predicate MatchesVisit(p: PendingAuth, v: Visit) {
    p.subject == v.subject && p.email == v.email && p.orgs == v.orgs && p.cognitoRefreshEnc == v.cognitoRefreshEnc
  }

  predicate BeforeConsent(t: Trail) {
    PhaseOf(t).AtLogin? || PhaseOf(t).AtConsent?
  }

  /** p is the record of an authorization waiting for Cognito or for consent. */
  predicate WaitingRecord(p: PendingAuth, t: Trail) {
    && BeforeConsent(t)
    && MatchesAuth(p, AuthOf(t)) && MatchesVisit(p, LastVisit(t))
    && StandsFor(t, p.subject, p.email, p.orgs)
    && (PhaseOf(t).AtConsent? ==> p.subject != "")
  }

  predicate IdentifiedRecord(p: PendingAuth, lookup: Option<seq<string>>, t: Trail) {
    BeforeConsent(t) && MatchesAuth(p, AuthOf(t)) && p.subject != "" && p.orgs == lookup.GetOr([])
  }

  predicate CodeRecord(c: AuthCode, t: Trail) {
    var a, v := AuthOf(t), LastVisit(t);
    && c.clientID == a.clientID && c.redirectURI == a.redirectURI
    && c.codeChallenge == a.codeChallenge && c.scope == a.scope
    && c.subject == v.subject && c.email == v.email && c.orgs == v.orgs
    && c.cognitoRefreshEnc == v.cognitoRefreshEnc && StandsFor(t, c.subject, c.email, c.orgs)
  }

  predicate UnusedCode(c: AuthCode, t: Trail, now: int) {
    && CodeRecord(c, t) && t.More? && t.fact.Approved?
    && t.fact.code == c.code && t.fact.at <= now && c.expires <= t.fact.at + AUTH_CODE_TTL
  }

  /** Client, scope, ciphertext, key and deadline never change along a lineage. */
  predicate RefreshRecord(w: World, rt: RefreshToken, t: Trail) {
    && rt.clientID == AuthOf(t).clientID && rt.scope == AuthOf(t).scope
    && rt.cognitoRefreshEnc == LastVisit(t).cognitoRefreshEnc
    && rt.hashedToken == RefreshKeyOf(t)
    && DeadlineOf(t) == Some(rt.expires) && Stamp(w, rt.expires) == rt.expires
  }

  predicate RefreshHeld(w: World, rt: RefreshToken, t: Trail) {
    RefreshRecord(w, rt, t) && StandsFor(t, rt.subject, rt.email, rt.orgs)
  }

  predicate FlightCarries(w: World, tid: nat, f: Flight, t: Trail, now: int) {
    match f
    case CallbackCheck(p) => WaitingRecord(p, t)
    case CallbackLogin(p) => WaitingRecord(p, t)
    case CallbackName(p, lookup) => IdentifiedRecord(p, lookup, t)
    case CallbackStash(p, lookup) => IdentifiedRecord(p, lookup, t)
    case ConsentCheck(p, _) => WaitingRecord(p, t) && PhaseOf(t).AtConsent?
    case ConsentLookup(p, _) => WaitingRecord(p, t) && PhaseOf(t).AtConsent?
    case ConsentMint(p) => WaitingRecord(p, t) && PhaseOf(t).AtConsent?
    case CodeCheck(c, _) => UnusedCode(c, t, now)
    case CodeSession(c) => CodeRecord(c, t) && PhaseOf(t) == Exchanging(tid)
    case CodeIssue(c, _) => CodeRecord(c, t) && PhaseOf(t) == Exchanged(tid)
    case RefreshCheck(rt, _) => RefreshHeld(w, rt, t) && PhaseOf(t) == Live
    case RefreshReauth(rt) => RefreshHeld(w, rt, t) && PhaseOf(t) == Checked(tid)
    case RefreshSession(rt, subject, email, orgs) =>
      && RefreshRecord(w, rt, t) && StandsFor(t, subject, email, orgs)
      && PhaseOf(t) == Reauthenticated(tid)
      && t.fact.subject == subject && t.fact.email == email && t.fact.orgs == orgs
    case RefreshRotate(rt, subject, email, orgs, _) =>
      RefreshRecord(w, rt, t) && StandsFor(t, subject, email, orgs) && PhaseOf(t) == Reminted(tid)
    case _ => false
  }

  /** The record at place p says what the trail says. A key with the consent
      prefix always holds a record that has been through Cognito. */
  predicate Carries(w: World, p: Place, c: Content, t: Trail, now: int) {
    match p
    case PendingAt(k) => c.OfPending? && WaitingRecord(c.p, t) && (IsConsentKey(k) <==> PhaseOf(t).AtConsent?)
    case CodeAt(code) => c.OfCode? && c.c.code == code && UnusedCode(c.c, t, now)
    case RefreshAt(k) => c.OfRefresh? && c.rt.hashedToken == k && RefreshHeld(w, c.rt, t) && PhaseOf(t) == Live
    case InHand(h) => c.OfFlight? && FlightCarries(w, h, c.f, t, now)
  }

  /** Place p is on the ledger and its record agrees with its trail. */
  ghost predicate Sits(w: World, s: State, p: Place) {
    && p in s.audit.at && s.audit.at[p] < |s.audit.trails|
    && Carries(w, p, ContentAt(s.sys, p), s.audit.trails[s.audit.at[p]], s.sys.now)
  }

  ghost predicate AllSit(w: World, s: State) {
    forall p | p in s.audit.at :: Sits(w, s, p)
  }

  ghost predicate Core(w: World, s: State) {
    Ledger(s) && Linear(s.audit) && AllLawful(w, s.audit) && AllSit(w, s)
  }

  /** No key is made from the i-th random string. */
  predicate Unused(w: World, s: Sys, i: nat) {
    var c := w.coin(i);
    && CLIENT_PREFIX + c !in s.clients
    && c !in s.pending && ConsentKey(c) !in s.pending
    && c !in s.codes
    && w.hash(c) !in s.refresh && w.hash(c) !in s.sessions
  }

  /** No string still to be drawn is in use as a key. */
  ghost predicate Fresh(w: World, s: Sys) {
    forall i: nat | s.drawn <= i :: Unused(w, s, i)
  }

  predicate MintedOn(t: Trail, key: string, session: Session) {
    t.More? && ((t.fact.Minted? && t.fact.key == key && t.fact.session == session)
                || MintedOn(t.past, key, session))
  }

  predicate Traced(a: Audit, k: string, session: Session) {
    k in a.minter && a.minter[k] < |a.trails| && MintedOn(a.trails[a.minter[k]], k, session)
  }

  /** Every stored session was minted on the trail the ledger names. */
  ghost predicate SessionsTraced(s: State) {
    forall k | k in s.sys.sessions :: Traced(s.audit, k, s.sys.sessions[k])
  }

  /** uri passed registration validation and is registered to client id. */
  ghost predicate Redirectable(w: World, s: Sys, id: string, uri: string) {
    id in s.clients && uri in s.clients[id].redirectURIs && ValidateRedirectURI(w.parse, uri) == Accepted
  }

  ghost predicate ReplySafe(w: World, s: Sys, f: Flight) {
    match f
    case Registering(name, uris, _) => ValidRegistration(w.parse, name, uris)
    case ConsentMint(p) => Redirectable(w, s, p.clientID, p.redirectURI)
    case Done(r) => r.Redirected? ==> Redirectable(w, s, r.clientID, r.uri)
    case _ => true
  }

  ghost predicate ClientsValid(w: World, s: Sys) {
    forall id | id in s.clients :: ValidRegistration(w.parse, s.clients[id].name, s.clients[id].redirectURIs)
  }

  ghost predicate RepliesSafe(w: World, s: Sys) {
    forall h | h in s.flights :: ReplySafe(w, s, s.flights[h])
  }

  ghost predicate Inv(w: World, s: State) {
    && Core(w, s) && Fresh(w, s.sys) && SessionsTraced(s)
    && ClientsValid(w, s.sys) && RepliesSafe(w, s.sys)
  }
}
