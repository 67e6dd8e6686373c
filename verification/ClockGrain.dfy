/** What a store that keeps expiries to the second (store_dynamo.go) does to a
    run of the server, compared with one that keeps them exactly
    (store_memory.go). For any sequence of events the coarse server is the image
    of the exact one, but that a check that falls between a record's rounded
    expiry and its exact one refuses. */
module ClockGrain {
  import opened Basics
  import opened Redirects
  import opened AuthRecords
  import opened Lineage
  import opened AuthSteps
  import opened AuthSafety

  /** The same world with exact expiries. */
  function Exact(w: World): World {
    w.(grain := 1)
  }

  function RoundPending(w: World, p: PendingAuth): PendingAuth {
    p.(expires := Stamp(w, p.expires))
  }

  function RoundCode(w: World, c: AuthCode): AuthCode {
    c.(expires := Stamp(w, c.expires))
  }

  function RoundRefresh(w: World, rt: RefreshToken): RefreshToken {
    rt.(expires := Stamp(w, rt.expires))
  }

  function RoundFlight(w: World, f: Flight): Flight {
    match f
    case CallbackCheck(p) => CallbackCheck(RoundPending(w, p))
    case CallbackLogin(p) => CallbackLogin(RoundPending(w, p))
    case CallbackName(p, lookup) => CallbackName(RoundPending(w, p), lookup)
    case CallbackStash(p, lookup) => CallbackStash(RoundPending(w, p), lookup)
    case ConsentCheck(p, approve) => ConsentCheck(RoundPending(w, p), approve)
    case ConsentLookup(p, approve) => ConsentLookup(RoundPending(w, p), approve)
    case ConsentMint(p) => ConsentMint(RoundPending(w, p))
    case CodeCheck(c, g) => CodeCheck(RoundCode(w, c), g)
    case CodeSession(c) => CodeSession(RoundCode(w, c))
    case CodeIssue(c, access) => CodeIssue(RoundCode(w, c), access)
    case RefreshCheck(rt, clientID) => RefreshCheck(RoundRefresh(w, rt), clientID)
    case RefreshReauth(rt) => RefreshReauth(RoundRefresh(w, rt))
    case RefreshSession(rt, subject, email, orgs) => RefreshSession(RoundRefresh(w, rt), subject, email, orgs)
    case RefreshRotate(rt, subject, email, orgs, access) =>
      RefreshRotate(RoundRefresh(w, rt), subject, email, orgs, access)
    case _ => f
  }

  function RoundWrite(w: World, wr: Write): Write {
    match wr
    case PutPending(key, p) => PutPending(key, RoundPending(w, p))
    case PutCode(c) => PutCode(RoundCode(w, c))
    case PutRefresh(rt) => PutRefresh(RoundRefresh(w, rt))
    case _ => wr
  }

  function RoundPendings(w: World, m: map<string, PendingAuth>): map<string, PendingAuth> {
    map k | k in m :: RoundPending(w, m[k])
  }

  function RoundCodes(w: World, m: map<string, AuthCode>): map<string, AuthCode> {
    map k | k in m :: RoundCode(w, m[k])
  }

  function RoundRefreshes(w: World, m: map<string, RefreshToken>): map<string, RefreshToken> {
    map k | k in m :: RoundRefresh(w, m[k])
  }

  function RoundFlights(w: World, m: map<nat, Flight>): map<nat, Flight> {
    map h | h in m :: RoundFlight(w, m[h])
  }

  /** The coarse server's state when the exact one is in state s. */
  function Rounded(w: World, s: Sys): Sys {
    s.(pending := RoundPendings(w, s.pending), codes := RoundCodes(w, s.codes),
       refresh := RoundRefreshes(w, s.refresh), flights := RoundFlights(w, s.flights))
  }

  predicate InGap(w: World, f: Flight, now: int) {
    ExpiryChecked(f).Some? && Stamp(w, ExpiryChecked(f).value) < now <= ExpiryChecked(f).value
  }

  /** The event checks a record between its rounded and its exact expiry. */
  predicate GapCheck(w: World, s: Sys, e: Event) {
    e.Advance? && e.tid in s.flights && InGap(w, s.flights[e.tid], s.now + e.io.tick)
  }

  // ----- One step

  /** a is the rounded form of b; what the ledger is told may differ. */
  predicate RoundsTo(w: World, a: Effect, b: Effect) {
    a.next == RoundFlight(w, b.next) && a.write == RoundWrite(w, b.write) && a.drew == b.drew
  }

  lemma {:induction false} ExactStamp(w: World, t: int)
    ensures Stamp(Exact(w), t) == t
    ensures Stamp(w, Stamp(Exact(w), t)) == Stamp(w, t)
    ensures Stamp(w, Stamp(w, t)) == Stamp(w, t)
  {
    StampBounds(w, t);
  }

  lemma {:induction false} PendingPopRounds(w: World, s: Sys, tid: nat, f: Flight, io: IO)
    requires f.CallbackPop?
    ensures RoundsTo(w, ActCallbackPop(Rounded(w, s), tid, f.state, io), ActCallbackPop(s, tid, f.state, io))
  {
  }

  lemma {:induction false} ConsentPopRounds(w: World, s: Sys, tid: nat, f: Flight, io: IO)
    requires f.ConsentPop?
    ensures RoundsTo(w, ActConsentPop(Rounded(w, s), tid, f, io), ActConsentPop(s, tid, f, io))
  {
  }

  lemma {:induction false} CodePopRounds(w: World, s: Sys, tid: nat, f: Flight, io: IO)
    requires f.CodePop?
    ensures RoundsTo(w, ActCodePop(Rounded(w, s), tid, f.g, io), ActCodePop(s, tid, f.g, io))
  {
  }

  lemma {:induction false} RefreshPopRounds(w: World, s: Sys, tid: nat, f: Flight, io: IO)
    requires f.RefreshPop?
    ensures RoundsTo(w, ActRefreshPop(w, Rounded(w, s), tid, f, io), ActRefreshPop(Exact(w), s, tid, f, io))
  {
  }

  lemma {:induction false} LoginRounds(w: World, s: Sys, tid: nat, f: Flight, io: IO)
    requires f.CallbackLogin? || f.CallbackName?
    ensures RoundsTo(w, Proceed(w, Rounded(w, s), tid, RoundFlight(w, f), io), Proceed(Exact(w), s, tid, f, io))
  {
  }

  lemma {:induction false} StashRounds(w: World, s: Sys, tid: nat, f: Flight, io: IO)
    requires f.AuthorizeStash? || f.CallbackStash?
    ensures RoundsTo(w, Proceed(w, Rounded(w, s), tid, RoundFlight(w, f), io), Proceed(Exact(w), s, tid, f, io))
  {
    ExactStamp(w, s.now + PENDING_TTL);
    ExactStamp(w, s.now + CONSENT_TTL);
  }

  lemma {:induction false} ConsentRounds(w: World, s: Sys, tid: nat, f: Flight, io: IO)
    requires f.ConsentLookup?
    ensures RoundsTo(w, Proceed(w, Rounded(w, s), tid, RoundFlight(w, f), io), Proceed(Exact(w), s, tid, f, io))
  {
  }

  lemma {:induction false} MintRounds(w: World, s: Sys, tid: nat, p: PendingAuth, io: IO)
    ensures RoundsTo(w, ActConsentMint(w, Rounded(w, s), tid, RoundPending(w, p), io),
                     ActConsentMint(Exact(w), s, tid, p, io))
  {
    ExactStamp(w, s.now + AUTH_CODE_TTL);
  }

  lemma {:induction false} SessionRounds(w: World, s: Sys, tid: nat, f: Flight, io: IO)
    requires f.CodeSession? || f.RefreshSession?
    ensures RoundsTo(w, Proceed(w, Rounded(w, s), tid, RoundFlight(w, f), io), Proceed(Exact(w), s, tid, f, io))
  {
  }

  lemma {:induction false} IssueRounds(w: World, s: Sys, tid: nat, f: Flight, io: IO)
    requires f.CodeIssue?
    ensures RoundsTo(w, Proceed(w, Rounded(w, s), tid, RoundFlight(w, f), io), Proceed(Exact(w), s, tid, f, io))
  {
    ExactStamp(w, s.now + REFRESH_TOKEN_TTL);
  }

  lemma {:induction false} ReauthRounds(w: World, s: Sys, tid: nat, f: Flight, io: IO)
    requires f.RefreshReauth?
    ensures RoundsTo(w, Proceed(w, Rounded(w, s), tid, RoundFlight(w, f), io), Proceed(Exact(w), s, tid, f, io))
  {
  }

  /** A rotated token keeps its rounded deadline: rounding twice is rounding
      once, so rotations never shorten it further. */
  lemma {:induction false} RotateRounds(w: World, s: Sys, tid: nat, f: Flight, io: IO)
    requires f.RefreshRotate?
    ensures RoundsTo(w, Proceed(w, Rounded(w, s), tid, RoundFlight(w, f), io), Proceed(Exact(w), s, tid, f, io))
  {
    ExactStamp(w, f.rt.expires);
  }

  lemma {:induction false} LoginCheckRounds(w: World, s: Sys, tid: nat, f: Flight, io: IO)
    requires (f.CallbackCheck? || f.ConsentCheck?) && !InGap(w, f, s.now)
    ensures RoundsTo(w, Proceed(w, Rounded(w, s), tid, RoundFlight(w, f), io), Proceed(Exact(w), s, tid, f, io))
  {
    StampBounds(w, f.p.expires);
  }

  lemma {:induction false} CodeCheckRounds(w: World, s: Sys, tid: nat, c: AuthCode, g: CodeGrant)
    requires !InGap(w, CodeCheck(c, g), s.now)
    ensures RoundsTo(w, ActCodeCheck(w, Rounded(w, s), tid, RoundCode(w, c), g), ActCodeCheck(Exact(w), s, tid, c, g))
  {
    StampBounds(w, c.expires);
  }

  lemma {:induction false} RefreshCheckRounds(w: World, s: Sys, tid: nat, rt: RefreshToken, clientID: string)
    requires !InGap(w, RefreshCheck(rt, clientID), s.now)
    ensures RoundsTo(w, ActRefreshCheck(Rounded(w, s), tid, RoundRefresh(w, rt), clientID),
                     ActRefreshCheck(s, tid, rt, clientID))
  {
    StampBounds(w, rt.expires);
  }

  lemma {:induction false} OpenRounds(w: World, s: Sys, tid: nat, f: Flight, io: IO)
    requires f.Registering? || f.AuthorizeLookup?
    ensures RoundsTo(w, Proceed(w, Rounded(w, s), tid, RoundFlight(w, f), io), Proceed(Exact(w), s, tid, f, io))
  {
  }

  lemma {:induction false} RevokeRounds(w: World, s: Sys, tid: nat, f: Flight, io: IO)
    requires f.Revoking?
    ensures RoundsTo(w, ActRevoke(w, Rounded(w, s), f.token, f.plan, io), ActRevoke(Exact(w), s, f.token, f.plan, io))
  {
  }

  lemma {:induction false} LoginPointRounds(w: World, s: Sys, tid: nat, f: Flight, io: IO)
    requires LoginPoint(f) && !InGap(w, f, s.now)
    ensures RoundsTo(w, Proceed(w, Rounded(w, s), tid, RoundFlight(w, f), io), Proceed(Exact(w), s, tid, f, io))
  {
    match f {
      case Registering(_, _, _) => OpenRounds(w, s, tid, f, io);
      case AuthorizeLookup(_) => OpenRounds(w, s, tid, f, io);
      case AuthorizeStash(_) => StashRounds(w, s, tid, f, io);
      case CallbackPop(_) => PendingPopRounds(w, s, tid, f, io);
      case CallbackCheck(_) => LoginCheckRounds(w, s, tid, f, io);
      case CallbackLogin(_) => LoginRounds(w, s, tid, f, io);
      case CallbackName(_, _) => LoginRounds(w, s, tid, f, io);
    }
  }

  lemma {:induction false} ConsentPointRounds(w: World, s: Sys, tid: nat, f: Flight, io: IO)
    requires ConsentPoint(f) && !InGap(w, f, s.now)
    ensures RoundsTo(w, Proceed(w, Rounded(w, s), tid, RoundFlight(w, f), io), Proceed(Exact(w), s, tid, f, io))
  {
    match f {
      case CallbackStash(_, _) => StashRounds(w, s, tid, f, io);
      case ConsentPop(_, _) => ConsentPopRounds(w, s, tid, f, io);
      case ConsentCheck(_, _) => LoginCheckRounds(w, s, tid, f, io);
      case ConsentLookup(_, _) => ConsentRounds(w, s, tid, f, io);
      case ConsentMint(p) => MintRounds(w, s, tid, p, io);
    }
  }

  lemma {:induction false} CodePointRounds(w: World, s: Sys, tid: nat, f: Flight, io: IO)
    requires CodePoint(f) && !InGap(w, f, s.now)
    ensures RoundsTo(w, Proceed(w, Rounded(w, s), tid, RoundFlight(w, f), io), Proceed(Exact(w), s, tid, f, io))
  {
    match f {
      case CodePop(_) => CodePopRounds(w, s, tid, f, io);
      case CodeCheck(c, g) => CodeCheckRounds(w, s, tid, c, g);
      case CodeSession(_) => SessionRounds(w, s, tid, f, io);
      case CodeIssue(_, _) => IssueRounds(w, s, tid, f, io);
      case Revoking(_, _) => RevokeRounds(w, s, tid, f, io);
      case Done(_) =>
    }
  }

  lemma {:induction false} RefreshPointRounds(w: World, s: Sys, tid: nat, f: Flight, io: IO)
    requires RefreshPoint(f) && !InGap(w, f, s.now)
    ensures RoundsTo(w, Proceed(w, Rounded(w, s), tid, RoundFlight(w, f), io), Proceed(Exact(w), s, tid, f, io))
  {
    match f {
      case RefreshPop(_, _) => RefreshPopRounds(w, s, tid, f, io);
      case RefreshCheck(rt, clientID) => RefreshCheckRounds(w, s, tid, rt, clientID);
      case RefreshReauth(_) => ReauthRounds(w, s, tid, f, io);
      case RefreshSession(_, _, _, _) => SessionRounds(w, s, tid, f, io);
      case RefreshRotate(_, _, _, _, _) => RotateRounds(w, s, tid, f, io);
    }
  }

  lemma {:induction false} ProceedRounds(w: World, s: Sys, tid: nat, f: Flight, io: IO)
    requires !InGap(w, f, s.now)
    ensures RoundsTo(w, Proceed(w, Rounded(w, s), tid, RoundFlight(w, f), io), Proceed(Exact(w), s, tid, f, io))
  {
    if LoginPoint(f) {
      LoginPointRounds(w, s, tid, f, io);
    } else if ConsentPoint(f) {
      ConsentPointRounds(w, s, tid, f, io);
    } else if CodePoint(f) {
      CodePointRounds(w, s, tid, f, io);
    } else {
      RefreshPointRounds(w, s, tid, f, io);
    }
  }

  lemma {:induction false} PendingRounds(w: World, m: map<string, PendingAuth>, k: string, p: PendingAuth)
    ensures RoundPendings(w, m)[k := RoundPending(w, p)] == RoundPendings(w, m[k := p])
  {
  }

  lemma {:induction false} CodesRound(w: World, m: map<string, AuthCode>, k: string, c: AuthCode)
    ensures RoundCodes(w, m)[k := RoundCode(w, c)] == RoundCodes(w, m[k := c])
  {
  }

  lemma {:induction false} RefreshesRound(w: World, m: map<string, RefreshToken>, k: string, rt: RefreshToken)
    ensures RoundRefreshes(w, m)[k := RoundRefresh(w, rt)] == RoundRefreshes(w, m[k := rt])
  {
  }

  lemma {:induction false} PendingDropRounds(w: World, m: map<string, PendingAuth>, k: string)
    ensures RoundPendings(w, m) - {k} == RoundPendings(w, m - {k})
  {
  }

  lemma {:induction false} CodeDropRounds(w: World, m: map<string, AuthCode>, k: string)
    ensures RoundCodes(w, m) - {k} == RoundCodes(w, m - {k})
  {
  }

  lemma {:induction false} RefreshDropRounds(w: World, m: map<string, RefreshToken>, k: string)
    ensures RoundRefreshes(w, m) - {k} == RoundRefreshes(w, m - {k})
  {
  }

  lemma {:induction false} WriteRounds(w: World, s: Sys, wr: Write)
    ensures Written(Rounded(w, s), RoundWrite(w, wr)) == Rounded(w, Written(s, wr))
  {
    match wr {
      case PutPending(k, p) => PendingRounds(w, s.pending, k, p);
      case DelPending(k) => PendingDropRounds(w, s.pending, k);
      case PutCode(c) => CodesRound(w, s.codes, c.code, c);
      case DelCode(k) => CodeDropRounds(w, s.codes, k);
      case PutRefresh(rt) => RefreshesRound(w, s.refresh, rt.hashedToken, rt);
      case DelRefresh(k) => RefreshDropRounds(w, s.refresh, k);
      case _ =>
    }
  }

  lemma {:induction false} GotoRounds(w: World, s: Sys, tid: nat, f: Flight)
    ensures Goto(Rounded(w, s), tid, RoundFlight(w, f)) == Rounded(w, Goto(s, tid, f))
  {
    assert RoundFlights(w, s.flights)[tid := RoundFlight(w, f)] == RoundFlights(w, s.flights[tid := f]);
  }

  lemma {:induction false} PerformRounds(w: World, s: Sys, tid: nat, a: Effect, b: Effect)
    requires RoundsTo(w, a, b)
    ensures Perform(Rounded(w, s), tid, a).sys == Rounded(w, Perform(s, tid, b).sys)
  {
    WriteRounds(w, s, b.write);
    GotoRounds(w, Written(s, b.write), tid, b.next);
  }

  lemma HoldingRounds(w: World, f: Flight)
    ensures Holding(RoundFlight(w, f)) == Holding(f)
  {
  }

  lemma DropRounds(w: World, s: Sys, tid: nat, error: OAuthError, reason: Reason)
    ensures var e := Drop(tid, error, reason); Perform(Rounded(w, s), tid, e).sys == Rounded(w, Perform(s, tid, e).sys)
  {
    PerformRounds(w, s, tid, Drop(tid, error, reason), Drop(tid, error, reason));
  }

  lemma {:induction false} CrashRounds(w: World, s: Sys, tid: nat)
    ensures ActLost(Rounded(w, s), InHand(tid)).sys == Rounded(w, ActLost(s, InHand(tid)).sys)
  {
    if tid in s.flights {
      HoldingRounds(w, s.flights[tid]);
    }
    if tid in s.flights && Holding(s.flights[tid]) {
      DropRounds(w, s, tid, Crashed, Reaped);
    }
  }

  lemma {:induction false} LostRounds(w: World, s: Sys, place: Place)
    ensures ActLost(Rounded(w, s), place).sys == Rounded(w, ActLost(s, place).sys)
  {
    match place {
      case PendingAt(key) => WriteRounds(w, s, DelPending(key));
      case CodeAt(code) => WriteRounds(w, s, DelCode(code));
      case RefreshAt(key) => WriteRounds(w, s, DelRefresh(key));
      case InHand(tid) => CrashRounds(w, s, tid);
    }
  }

  lemma {:induction false} StartRounds(w: World, s: Sys, tid: nat, request: Request)
    ensures Act(w, Rounded(w, s), Start(tid, request)).sys == Rounded(w, Act(Exact(w), s, Start(tid, request)).sys)
  {
    if tid !in s.flights {
      var f := Admit(w, request);
      PerformRounds(w, s, tid, Quiet(f), Quiet(f));
    }
  }

  lemma {:induction false} HandlerRounds(w: World, s: Sys, tid: nat, f: Flight, io: IO)
    requires !InGap(w, f, s.now)
    ensures Perform(Rounded(w, s), tid, Proceed(w, Rounded(w, s), tid, RoundFlight(w, f), io)).sys
            == Rounded(w, Perform(s, tid, Proceed(Exact(w), s, tid, f, io)).sys)
  {
    var a, b := Proceed(w, Rounded(w, s), tid, RoundFlight(w, f), io), Proceed(Exact(w), s, tid, f, io);
    ProceedRounds(w, s, tid, f, io);
    PerformRounds(w, s, tid, a, b);
  }

  lemma {:induction false} AdvanceRounds(w: World, s: Sys, tid: nat, io: IO)
    requires !GapCheck(w, s, Advance(tid, io))
    ensures Act(w, Rounded(w, s), Advance(tid, io)).sys == Rounded(w, Act(Exact(w), s, Advance(tid, io)).sys)
  {
    if tid in s.flights {
      assert Ticked(Rounded(w, s), io.tick) == Rounded(w, Ticked(s, io.tick));
      HandlerRounds(w, Ticked(s, io.tick), tid, s.flights[tid], io);
    }
  }

  /** Off the gap, rounding commutes with a step of the server. */
  lemma {:induction false} StepRounds(w: World, s: Sys, e: Event)
    requires !GapCheck(w, s, e)
    ensures Act(w, Rounded(w, s), e).sys == Rounded(w, Act(Exact(w), s, e).sys)
  {
    match e {
      case Start(tid, request) => StartRounds(w, s, tid, request);
      case Advance(tid, io) => AdvanceRounds(w, s, tid, io);
      case Lost(place) => LostRounds(w, s, place);
      case SessionLost(key) => WriteRounds(w, s, DelSession(key));
    }
  }

  /** The answer to a record found expired. */
  function RefusalOf(f: Flight): OAuthError {
    if f.CallbackCheck? then InvalidRequest
    else if f.ConsentCheck? then OAuthError.ConsentExpired
    else InvalidGrant
  }

  /** In the gap the coarse server refuses, with the answer an expired record
      gets, less than one grain before the exact server would. */
  lemma {:induction false} GapRefuses(w: World, s: Sys, tid: nat, f: Flight, io: IO)
    requires InGap(w, f, s.now)
    ensures var coarse := Proceed(w, Rounded(w, s), tid, RoundFlight(w, f), io);
            && coarse.write == NoWrite && coarse.move == Close(InHand(tid), Expired)
            && coarse.next == Done(Failed(RefusalOf(f)))
    ensures Proceed(Exact(w), s, tid, f, io).move != Close(InHand(tid), Expired)
    ensures 0 <= ExpiryChecked(f).value - s.now < w.grain - 1
  {
    StampBounds(w, ExpiryChecked(f).value);
  }

  // ----- Whole runs

  /** A step of the exact server that takes a record in the gap for expired. */
  function ImpatientStep(w: World, s: Sys, e: Event): Sys {
    if GapCheck(w, s, e)
    then Perform(Ticked(s, e.io.tick), e.tid, Drop(e.tid, RefusalOf(s.flights[e.tid]), Expired)).sys
    else Act(Exact(w), s, e).sys
  }

  function SysAfter(w: World, s: Sys, es: seq<Event>): Sys
    decreases |es|
  {
    if es == [] then s else SysAfter(w, Act(w, s, es[0]).sys, es[1..])
  }

  function ImpatientAfter(w: World, s: Sys, es: seq<Event>): Sys
    decreases |es|
  {
    if es == [] then s else ImpatientAfter(w, ImpatientStep(w, s, es[0]), es[1..])
  }

  lemma {:induction false} GapRounds(w: World, s: Sys, tid: nat, f: Flight, io: IO)
    requires InGap(w, f, s.now)
    ensures RoundsTo(w, Proceed(w, Rounded(w, s), tid, RoundFlight(w, f), io), Drop(tid, RefusalOf(f), Expired))
  {
    GapRefuses(w, s, tid, f, io);
    RefusingDrawsNothing(w, s, tid, f, io);
  }

  lemma {:induction false} RefusingDrawsNothing(w: World, s: Sys, tid: nat, f: Flight, io: IO)
    requires ExpiryChecked(f).Some?
    ensures !Proceed(w, Rounded(w, s), tid, RoundFlight(w, f), io).drew
  {
  }

  lemma {:induction false} GapStepRounds(w: World, s: Sys, e: Event)
    requires GapCheck(w, s, e)
    ensures Act(w, Rounded(w, s), e).sys == Rounded(w, ImpatientStep(w, s, e))
  {
    var t, f := Ticked(s, e.io.tick), s.flights[e.tid];
    var a := Proceed(w, Rounded(w, t), e.tid, RoundFlight(w, f), e.io);
    assert Ticked(Rounded(w, s), e.io.tick) == Rounded(w, t);
    assert Act(w, Rounded(w, s), e) == Perform(Rounded(w, t), e.tid, a);
    GapRounds(w, t, e.tid, f, e.io);
    PerformRounds(w, t, e.tid, a, Drop(e.tid, RefusalOf(f), Expired));
  }

  /** For every sequence of events the coarse server is the image of the exact
      one that refuses records less than a grain early: it stores and answers
      the same, but for the lost fraction on expiries, and differs from the
      exact server in nothing but those refusals. */
  lemma {:induction false} CoarseRunIsRounded(w: World, s: Sys, es: seq<Event>)
    ensures SysAfter(w, Rounded(w, s), es) == Rounded(w, ImpatientAfter(w, s, es))
    decreases |es|
  {
    if es == [] {
    } else {
      if GapCheck(w, s, es[0]) {
        GapStepRounds(w, s, es[0]);
      } else {
        StepRounds(w, s, es[0]);
      }
      CoarseRunIsRounded(w, ImpatientStep(w, s, es[0]), es[1..]);
    }
  }
}
