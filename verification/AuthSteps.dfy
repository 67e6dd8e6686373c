/** The authorization server as a system of atomic steps. A request in flight is
    a program point together with the handler's locals; one step performs one
    store call or one stretch of handler-local work. Steps of different
    requests interleave freely. */
module AuthSteps {
  import opened Basics
  import opened Redirects
  import opened AuthRecords
  import opened Lineage

  datatype RevokeOp = DropSession | DropRefresh

  datatype Flight =
    | Registering(name: string, uris: seq<string>, grants: seq<string>)
    | AuthorizeLookup(a: Authorization)
    | AuthorizeStash(a: Authorization)
    | CallbackPop(state: string)
    | CallbackCheck(p: PendingAuth)
    | CallbackLogin(p: PendingAuth)
    | CallbackName(p: PendingAuth, lookup: Option<seq<string>>)
    | CallbackStash(p: PendingAuth, lookup: Option<seq<string>>)
    | ConsentPop(key: string, approve: bool)
    | ConsentCheck(p: PendingAuth, approve: bool)
    | ConsentLookup(p: PendingAuth, approve: bool)
    | ConsentMint(p: PendingAuth)
    | CodePop(g: CodeGrant)
    | CodeCheck(c: AuthCode, g: CodeGrant)
    | CodeSession(c: AuthCode)
    | CodeIssue(c: AuthCode, access: string)
    | RefreshPop(presented: string, clientID: string)
    | RefreshCheck(rt: RefreshToken, clientID: string)
    | RefreshReauth(rt: RefreshToken)
    | RefreshSession(rt: RefreshToken, subject: string, email: string, orgs: seq<string>)
    | RefreshRotate(rt: RefreshToken, subject: string, email: string, orgs: seq<string>, access: string)
    | Revoking(token: string, plan: seq<RevokeOp>)
    | Done(response: Response)

  /** The handler has popped a record and not yet put it back. */
  predicate Holding(f: Flight) {
    || f.CallbackCheck? || f.CallbackLogin? || f.CallbackName? || f.CallbackStash?
    || f.ConsentCheck? || f.ConsentLookup? || f.ConsentMint?
    || f.CodeCheck? || f.CodeSession? || f.CodeIssue?
    || f.RefreshCheck? || f.RefreshReauth? || f.RefreshSession? || f.RefreshRotate?
  }

  /** The expiry a handler is about to compare with the clock. */
  function ExpiryChecked(f: Flight): Option<int> {
    match f
    case CallbackCheck(p) => Some(p.expires)
    case ConsentCheck(p, _) => Some(p.expires)
    case CodeCheck(c, _) => Some(c.expires)
    case RefreshCheck(rt, _) => Some(rt.expires)
    case _ => None
  }

  // ----- The program points, by endpoint

  predicate LoginPoint(f: Flight) {
    f.Registering? || f.AuthorizeLookup? || f.AuthorizeStash? || f.CallbackPop? || f.CallbackCheck?
    || f.CallbackLogin? || f.CallbackName?
  }

  predicate ConsentPoint(f: Flight) {
    f.CallbackStash? || f.ConsentPop? || f.ConsentCheck? || f.ConsentLookup? || f.ConsentMint?
  }

  predicate CodePoint(f: Flight) {
    f.CodePop? || f.CodeCheck? || f.CodeSession? || f.CodeIssue? || f.Revoking? || f.Done?
  }

  predicate RefreshPoint(f: Flight) {
    !LoginPoint(f) && !ConsentPoint(f) && !CodePoint(f)
  }

  /** The shared tables, the requests in flight, the clock, and how many random
      strings have been drawn. */
  datatype Sys = Sys(
    clients: map<string, Client>,
    pending: map<string, PendingAuth>,
    codes: map<string, AuthCode>,
    refresh: map<string, RefreshToken>,
    sessions: map<string, Session>,
    flights: map<nat, Flight>,
    now: int,
    drawn: nat)

  const EmptySys := Sys(map[], map[], map[], map[], map[], map[], 0, 0)

  /** Lost is the table sweep, or a delete whose answer never arrived, or a process
      that died with a record in hand. */
  datatype Event =
    | Start(tid: nat, request: Request)
    | Advance(tid: nat, io: IO)
    | Lost(place: Place)
    | SessionLost(key: string)

  /** The one table access of a step. */
  datatype Write =
    | NoWrite
    | PutClient(client: Client)
    | PutPending(key: string, p: PendingAuth)
    | DelPending(key: string)
    | PutCode(c: AuthCode)
    | DelCode(code: string)
    | PutRefresh(rt: RefreshToken)
    | DelRefresh(key: string)
    | PutSession(key: string, session: Session)
    | DelSession(key: string)

  /** Where a handler goes next, its table access, whether it drew a random
      string, and what became of the record that carries the authorization. */
  datatype Effect = Effect(next: Flight, write: Write, drew: bool, move: Move)

  datatype Outcome = Outcome(sys: Sys, move: Move)

  function Written(s: Sys, wr: Write): Sys {
    match wr
    case NoWrite => s
    case PutClient(c) => s.(clients := s.clients[c.clientID := c])
    case PutPending(k, p) => s.(pending := s.pending[k := p])
    case DelPending(k) => s.(pending := s.pending - {k})
    case PutCode(c) => s.(codes := s.codes[c.code := c])
    case DelCode(code) => s.(codes := s.codes - {code})
    case PutRefresh(rt) => s.(refresh := s.refresh[rt.hashedToken := rt])
    case DelRefresh(k) => s.(refresh := s.refresh - {k})
    case PutSession(k, x) => s.(sessions := s.sessions[k := x])
    case DelSession(k) => s.(sessions := s.sessions - {k})
  }

  function Goto(s: Sys, tid: nat, f: Flight): Sys {
    s.(flights := s.flights[tid := f])
  }

  function Perform(s: Sys, tid: nat, e: Effect): Outcome {
    var t := Goto(Written(s, e.write), tid, e.next);
    Outcome(if e.drew then t.(drawn := t.drawn + 1) else t, e.move)
  }

  function Quiet(f: Flight): Effect {
    Effect(f, NoWrite, false, Stay)
  }

  function Refuse(error: OAuthError): Effect {
    Quiet(Done(Failed(error)))
  }

  /** A handler that holds a record and gives up: the record is gone. */
  function Drop(tid: nat, error: OAuthError, reason: Reason): Effect {
    Effect(Done(Failed(error)), NoWrite, false, Close(InHand(tid), reason))
  }

  // ----- What each handler does before its first store call

  function RevokePlan(hint: string): seq<RevokeOp> {
    var known := hint == "access_token" || hint == "refresh_token";
    var access := hint == "" || hint == "access_token" || !known;
    var refresh := hint == "" || hint == "refresh_token" || !known;
    (if access then [DropSession] else [])
    + (if refresh then [DropRefresh] else [])
    + (if hint == "refresh_token" then [DropSession] else [])
    + (if hint == "access_token" then [DropRefresh] else [])
  }

  function Admit(w: World, r: Request): Flight {
    match r
    case RegisterRequest(admitted, name, uris, grants) =>
      if !admitted then Done(Failed(TemporarilyUnavailable))
      else if !ValidRegistration(w.parse, name, uris) then Done(Failed(InvalidRedirectUri))
      else Registering(name, uris, grants)
    case AuthorizeRequest(a) =>
      if !w.configured then Done(Failed(ServerMisconfigured))
      else if a.responseType != "code" then Done(Failed(UnsupportedResponseType))
      else AuthorizeLookup(a)
    case CallbackRequest(code, state) =>
      if code == "" || state == "" then Done(Failed(InvalidRequest)) else CallbackPop(state)
    case ConsentRequest(key, action) =>
      if key == "" then Done(Failed(InvalidRequest)) else ConsentPop(key, action == "approve")
    case CodeRequest(g) => CodePop(g)
    case RefreshRequest(presented, clientID) =>
      if presented == "" then Done(Failed(InvalidRequest)) else RefreshPop(presented, clientID)
    case RevokeRequest(token, hint) =>
      if token == "" then Done(Failed(InvalidRequest)) else Revoking(token, RevokePlan(hint))
  }

  // ----- register

  function DefaultGrants(grants: seq<string>): seq<string> {
    if |grants| == 0 then ["authorization_code", "refresh_token"] else grants
  }

  function ActRegister(w: World, s: Sys, f: Flight, io: IO): Effect
    requires f.Registering?
  {
    var id := CLIENT_PREFIX + w.coin(s.drawn);
    if !io.ok then Refuse(ServerError).(drew := true)
    else
      Effect(Done(Registered(id)), PutClient(Client(id, f.name, f.uris, DefaultGrants(f.grants), s.now)), true, Stay)
  }

  // ----- authorize

  function ActAuthorizeLookup(s: Sys, a: Authorization, io: IO): Effect {
    if !io.ok || a.clientID !in s.clients then Refuse(InvalidClient)
    else if a.redirectURI !in s.clients[a.clientID].redirectURIs then Refuse(InvalidRedirectUri)
    else if a.codeChallenge == "" then Refuse(InvalidRequest)
    else if a.codeChallengeMethod != "S256" then Refuse(InvalidRequest)
    else Quiet(AuthorizeStash(a.(scope := if a.scope == "" then DEFAULT_SCOPE else a.scope)))
  }

  function NewPending(a: Authorization, expires: int): PendingAuth {
    PendingAuth(a.clientID, a.redirectURI, a.codeChallenge, a.state, a.scope, expires, "", "", "", [], "")
  }

  function ActAuthorizeStash(w: World, s: Sys, a: Authorization, io: IO): Effect {
    var key := w.coin(s.drawn);
    if !io.ok then Refuse(ServerError).(drew := true)
    else
      Effect(Done(ToCognito(key)), PutPending(key, NewPending(a, Stamp(w, s.now + PENDING_TTL))), true,
             Open(PendingAt(key), AuthFact(a.clientID, a.redirectURI, a.codeChallenge, a.state, a.scope)))
  }

  // ----- callback

  function ActCallbackPop(s: Sys, tid: nat, state: string, io: IO): Effect {
    if !io.ok || state !in s.pending then Refuse(InvalidRequest)
    else
      Effect(CallbackCheck(s.pending[state]), DelPending(state), false,
             Shift(PendingAt(state), InHand(tid), None))
  }

  function ActCallbackCheck(s: Sys, tid: nat, p: PendingAuth): Effect {
    if s.now > p.expires then Drop(tid, InvalidRequest, Expired) else Quiet(CallbackLogin(p))
  }

  /** A Cognito answer without a subject is an error of parseIDTokenClaims. */
  function ActCallbackLogin(tid: nat, p: PendingAuth, io: IO): Effect {
    if io.login.None? || io.login.value.subject == "" then Drop(tid, UpstreamError, Upstream)
    else
      var l := io.login.value;
      var q := p.(subject := l.subject, email := l.email, orgs := l.orgs.GetOr([]),
                  cognitoRefreshEnc := EncryptedRefresh(l));
      Quiet(CallbackName(q, l.orgs))
  }

  function ClientName(s: Sys, id: string, ok: bool): string {
    if ok && id in s.clients && s.clients[id].name != "" then s.clients[id].name else id
  }

  function ActCallbackName(s: Sys, f: Flight, io: IO): Effect
    requires f.CallbackName?
  {
    Quiet(CallbackStash(f.p.(clientName := ClientName(s, f.p.clientID, io.ok)), f.lookup))
  }

  function ActCallbackStash(w: World, s: Sys, tid: nat, f: Flight, io: IO): Effect
    requires f.CallbackStash?
  {
    var key := w.coin(s.drawn);
    if !io.ok then Drop(tid, ServerError, StoreFailed).(drew := true)
    else
      var p := f.p.(expires := Stamp(w, s.now + CONSENT_TTL));
      var visit := Visit(p.subject, p.email, p.orgs, p.cognitoRefreshEnc);
      Effect(Done(ConsentShown(key)), PutPending(ConsentKey(key), p), true,
             Shift(InHand(tid), PendingAt(ConsentKey(key)), Some(CalledBack(visit, f.lookup))))
  }

  // ----- consent

  function ActConsentPop(s: Sys, tid: nat, f: Flight, io: IO): Effect
    requires f.ConsentPop?
  {
    var key := ConsentKey(f.key);
    if !io.ok || key !in s.pending then Refuse(ConsentAlreadyUsed)
    else
      Effect(ConsentCheck(s.pending[key], f.approve), DelPending(key), false,
             Shift(PendingAt(key), InHand(tid), None))
  }

  function ActConsentCheck(s: Sys, tid: nat, f: Flight): Effect
    requires f.ConsentCheck?
  {
    if s.now > f.p.expires then Drop(tid, OAuthError.ConsentExpired, Expired)
    else Quiet(ConsentLookup(f.p, f.approve))
  }

  function ActConsentLookup(s: Sys, tid: nat, f: Flight, io: IO): Effect
    requires f.ConsentLookup?
  {
    var p := f.p;
    if !io.ok || p.clientID !in s.clients || p.redirectURI !in s.clients[p.clientID].redirectURIs then
      Drop(tid, InvalidRedirectUri, Unregistered)
    else if !f.approve then
      Effect(Done(Redirected(p.clientID, p.redirectURI, AccessDenied(p.originalState))), NoWrite, false,
             Close(InHand(tid), Denied))
    else Quiet(ConsentMint(p))
  }

  function NewCode(w: World, p: PendingAuth, code: string, now: int): AuthCode {
    AuthCode(code, p.clientID, p.redirectURI, p.codeChallenge, p.scope,
             p.subject, p.email, p.orgs, p.cognitoRefreshEnc, Stamp(w, now + AUTH_CODE_TTL))
  }

  function ActConsentMint(w: World, s: Sys, tid: nat, p: PendingAuth, io: IO): Effect {
    var code := w.coin(s.drawn);
    if !io.ok then Drop(tid, ServerError, StoreFailed).(drew := true)
    else
      Effect(Done(Redirected(p.clientID, p.redirectURI, CodeGranted(code, p.originalState))),
             PutCode(NewCode(w, p, code, s.now)), true,
             Shift(InHand(tid), CodeAt(code), Some(Approved(code, s.now))))
  }

  // ----- token, authorization_code

  function ActCodePop(s: Sys, tid: nat, g: CodeGrant, io: IO): Effect {
    if !io.ok || g.code !in s.codes then Refuse(InvalidGrant)
    else Effect(CodeCheck(s.codes[g.code], g), DelCode(g.code), false, Shift(CodeAt(g.code), InHand(tid), None))
  }

  function CodeRefusal(w: World, c: AuthCode, g: CodeGrant, now: int): Option<Reason> {
    if now > c.expires then Some(Expired)
    else if c.clientID != g.clientID then Some(Mismatch)
    else if g.redirectURI != "" && g.redirectURI != c.redirectURI then Some(Mismatch)
    else if g.verifier == "" then Some(BadProof)
    else if w.challengeOf(g.verifier) != c.codeChallenge then Some(BadProof)
    else None
  }

  function ActCodeCheck(w: World, s: Sys, tid: nat, c: AuthCode, g: CodeGrant): Effect {
    match CodeRefusal(w, c, g, s.now)
    case Some(reason) => Drop(tid, InvalidGrant, reason)
    case None =>
      Effect(CodeSession(c), NoWrite, false,
             Note(InHand(tid), Redeemed(tid, g.verifier, g.clientID, g.redirectURI, s.now)))
  }

  function NewSession(subject: string, email: string, orgs: seq<string>, now: int): Session {
    Session(subject, email, orgs, now, now + ACCESS_TOKEN_TTL)
  }

  /** persistMCPSession: best effort, the handler goes on either way. */
  function MintSession(tid: nat, next: Flight, key: string, session: Session, ok: bool): Effect {
    Effect(next, if ok then PutSession(key, session) else NoWrite, true,
           Note(InHand(tid), Minted(tid, key, session)))
  }

  function ActCodeSession(w: World, s: Sys, tid: nat, c: AuthCode, io: IO): Effect {
    var access := w.coin(s.drawn);
    MintSession(tid, CodeIssue(c, access), w.hash(access), NewSession(c.subject, c.email, c.orgs, s.now), io.ok)
  }

  function FirstRefresh(w: World, c: AuthCode, key: string, now: int): RefreshToken {
    RefreshToken(key, c.clientID, c.scope, c.subject, c.email, c.orgs, c.cognitoRefreshEnc,
                 Stamp(w, now + REFRESH_TOKEN_TTL))
  }

  /** PutRefresh and the answer that carries the token. */
  function StoreRefresh(tid: nat, rt: RefreshToken, response: Response, fact: Fact): Effect {
    Effect(Done(response), PutRefresh(rt), true,
           Shift(InHand(tid), RefreshAt(rt.hashedToken), Some(fact)))
  }

  /** The access token alone: no silent refresh for this session. */
  function NoRefreshToken(tid: nat, access: string, scope: string, drew: bool, reason: Reason): Effect {
    Effect(Done(Tokens(access, None, scope)), NoWrite, drew, Close(InHand(tid), reason))
  }

  function ActCodeIssue(w: World, s: Sys, tid: nat, c: AuthCode, access: string, io: IO): Effect {
    if c.cognitoRefreshEnc == "" then NoRefreshToken(tid, access, c.scope, false, NoRefresh)
    else if !io.ok then NoRefreshToken(tid, access, c.scope, true, StoreFailed)
    else
      var token := w.coin(s.drawn);
      var rt := FirstRefresh(w, c, w.hash(token), s.now);
      StoreRefresh(tid, rt, Tokens(access, Some(token), c.scope), Issued(tid, rt.hashedToken, s.now, rt.expires))
  }

  // ----- token, refresh_token

  function ActRefreshPop(w: World, s: Sys, tid: nat, f: Flight, io: IO): Effect
    requires f.RefreshPop?
  {
    var key := w.hash(f.presented);
    if !io.ok || key !in s.refresh then Refuse(InvalidGrant)
    else
      Effect(RefreshCheck(s.refresh[key], f.clientID), DelRefresh(key), false,
             Shift(RefreshAt(key), InHand(tid), None))
  }

  function RefreshRefusal(rt: RefreshToken, clientID: string, now: int): Option<Reason> {
    if now > rt.expires then Some(Expired)
    else if clientID != "" && rt.clientID != clientID then Some(Mismatch)
    else None
  }

  function ActRefreshCheck(s: Sys, tid: nat, rt: RefreshToken, clientID: string): Effect {
    match RefreshRefusal(rt, clientID, s.now)
    case Some(reason) => Drop(tid, InvalidGrant, reason)
    case None =>
      Effect(RefreshReauth(rt), NoWrite, false,
             Note(InHand(tid), Presented(tid, rt.hashedToken, clientID, s.now)))
  }

  /** An answer without a subject is already an error inside refreshCognito, so
      the handler's own fallback to the stored subject never applies. */
  function ReauthRefusal(r: Reauth): Option<Reason> {
    match r
    case DecryptFailed => Some(Undecryptable)
    case CognitoRejected => Some(Upstream)
    case CognitoAccepted(subject, _, _) => if subject == "" then Some(Upstream) else None
  }

  /** Decrypt, Cognito's refresh grant, organization lookup. */
  function ActRefreshReauth(tid: nat, rt: RefreshToken, io: IO): Effect {
    match ReauthRefusal(io.reauth)
    case Some(reason) => Drop(tid, InvalidGrant, reason)
    case None =>
      var r := io.reauth;
      var email := if r.email == "" then rt.email else r.email;
      var orgs := r.orgs.GetOr(rt.orgs);
      Effect(RefreshSession(rt, r.subject, email, orgs), NoWrite, false,
             Note(InHand(tid), Renewed(tid, rt.cognitoRefreshEnc, r.subject, r.email, email, orgs, r.orgs)))
  }

  function ActRefreshSession(w: World, s: Sys, tid: nat, f: Flight, io: IO): Effect
    requires f.RefreshSession?
  {
    var access := w.coin(s.drawn);
    MintSession(tid, RefreshRotate(f.rt, f.subject, f.email, f.orgs, access), w.hash(access),
                NewSession(f.subject, f.email, f.orgs, s.now), io.ok)
  }

  /** The same ciphertext and the same absolute deadline under a new key. */
  function NextRefresh(w: World, f: Flight, key: string): RefreshToken
    requires f.RefreshRotate?
  {
    f.rt.(hashedToken := key, subject := f.subject, email := f.email, orgs := f.orgs,
          expires := Stamp(w, f.rt.expires))
  }

  function ActRefreshRotate(w: World, s: Sys, tid: nat, f: Flight, io: IO): Effect
    requires f.RefreshRotate?
  {
    if !io.ok then NoRefreshToken(tid, f.access, f.rt.scope, true, StoreFailed)
    else
      var token := w.coin(s.drawn);
      var rt := NextRefresh(w, f, w.hash(token));
      StoreRefresh(tid, rt, Tokens(f.access, Some(token), f.rt.scope), Rotated(tid, rt.hashedToken))
  }

  // ----- revoke

  function ActRevokeOp(w: World, s: Sys, token: string, op: RevokeOp, next: Flight, io: IO): Effect {
    var key := w.hash(token);
    if io.ok && op.DropSession? then Effect(next, DelSession(key), false, Stay)
    else if io.ok && op.DropRefresh? && key in s.refresh then
      Effect(next, DelRefresh(key), false, Close(RefreshAt(key), Revoked))
    else Quiet(next)
  }

  function AfterOp(token: string, plan: seq<RevokeOp>): Flight {
    if |plan| <= 1 then Done(RevokeDone) else Revoking(token, plan[1..])
  }

  function ActRevoke(w: World, s: Sys, token: string, plan: seq<RevokeOp>, io: IO): Effect {
    if plan == [] then Quiet(Done(RevokeDone))
    else ActRevokeOp(w, s, token, plan[0], AfterOp(token, plan), io)
  }

  // ----- One step of the whole system

  function Proceed(w: World, s: Sys, tid: nat, f: Flight, io: IO): Effect {
    match f
    case Registering(_, _, _) => ActRegister(w, s, f, io)
    case AuthorizeLookup(a) => ActAuthorizeLookup(s, a, io)
    case AuthorizeStash(a) => ActAuthorizeStash(w, s, a, io)
    case CallbackPop(state) => ActCallbackPop(s, tid, state, io)
    case CallbackCheck(p) => ActCallbackCheck(s, tid, p)
    case CallbackLogin(p) => ActCallbackLogin(tid, p, io)
    case CallbackName(_, _) => ActCallbackName(s, f, io)
    case CallbackStash(_, _) => ActCallbackStash(w, s, tid, f, io)
    case ConsentPop(_, _) => ActConsentPop(s, tid, f, io)
    case ConsentCheck(_, _) => ActConsentCheck(s, tid, f)
    case ConsentLookup(_, _) => ActConsentLookup(s, tid, f, io)
    case ConsentMint(p) => ActConsentMint(w, s, tid, p, io)
    case CodePop(g) => ActCodePop(s, tid, g, io)
    case CodeCheck(c, g) => ActCodeCheck(w, s, tid, c, g)
    case CodeSession(c) => ActCodeSession(w, s, tid, c, io)
    case CodeIssue(c, access) => ActCodeIssue(w, s, tid, c, access, io)
    case RefreshPop(_, _) => ActRefreshPop(w, s, tid, f, io)
    case RefreshCheck(rt, clientID) => ActRefreshCheck(s, tid, rt, clientID)
    case RefreshReauth(rt) => ActRefreshReauth(tid, rt, io)
    case RefreshSession(_, _, _, _) => ActRefreshSession(w, s, tid, f, io)
    case RefreshRotate(_, _, _, _, _) => ActRefreshRotate(w, s, tid, f, io)
    case Revoking(token, plan) => ActRevoke(w, s, token, plan, io)
    case Done(_) => Quiet(f)
  }

  function ActLost(s: Sys, place: Place): Outcome {
    match place
    case PendingAt(key) =>
      if key !in s.pending then Outcome(s, Stay) else Outcome(Written(s, DelPending(key)), Close(place, Reaped))
    case CodeAt(code) =>
      if code !in s.codes then Outcome(s, Stay) else Outcome(Written(s, DelCode(code)), Close(place, Reaped))
    case RefreshAt(key) =>
      if key !in s.refresh then Outcome(s, Stay) else Outcome(Written(s, DelRefresh(key)), Close(place, Reaped))
    case InHand(tid) =>
      if tid !in s.flights || !Holding(s.flights[tid]) then Outcome(s, Stay)
      else Perform(s, tid, Drop(tid, Crashed, Reaped))
  }

  function Ticked(s: Sys, n: nat): Sys {
    s.(now := s.now + n)
  }

  function Act(w: World, s: Sys, e: Event): Outcome {
    match e
    case Start(tid, request) =>
      if tid in s.flights then Outcome(s, Stay) else Perform(s, tid, Quiet(Admit(w, request)))
    case Advance(tid, io) =>
      if tid !in s.flights then Outcome(s, Stay)
      else
        var t := Ticked(s, io.tick);
        Perform(t, tid, Proceed(w, t, tid, s.flights[tid], io))
    case Lost(place) => ActLost(s, place)
    case SessionLost(key) => Outcome(Written(s, DelSession(key)), Stay)
  }
}
