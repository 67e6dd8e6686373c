/** Every step of every handler is one that the ledger can follow. */
module AuthDecency {
  import opened Basics
  import opened Redirects
  import opened AuthRecords
  import opened Lineage
  import opened AuthSteps
  import opened AuthAudit
  import opened AuthSafety

  /** The handler is where its record says. */
  ghost predicate Holds(w: World, s: State, tid: nat, f: Flight) {
    HasRecord(w, s, InHand(tid)) && FlightCarries(w, tid, f, TrailAt(s.audit, InHand(tid)), s.sys.now)
  }

  /** A place has a record that the ledger knows, or is free. */
  ghost predicate Settled(w: World, s: State, p: Place) {
    HasRecord(w, s, p) || IsFree(s, p)
  }

  lemma DropDecent(w: World, s: State, tid: nat, error: OAuthError, reason: Reason)
    requires HasRecord(w, s, InHand(tid))
    ensures Decent(w, s, tid, Drop(tid, error, reason))
    ensures Decent(w, s, tid, Drop(tid, error, reason).(drew := true))
  {
    GiveUp(w, s, tid, Drop(tid, error, reason), reason);
    GiveUp(w, s, tid, Drop(tid, error, reason).(drew := true), reason);
  }

  // ----- register and authorize

  lemma RegisterDecent(w: World, s: State, tid: nat, f: Flight, io: IO)
    requires f.Registering? && IsFree(s, InHand(tid))
    ensures Decent(w, s, tid, ActRegister(w, s.sys, f, io))
  {
    GoOn(w, s, tid, ActRegister(w, s.sys, f, io));
  }

  lemma AuthorizeLookupDecent(w: World, s: State, tid: nat, a: Authorization, io: IO)
    requires IsFree(s, InHand(tid))
    ensures Decent(w, s, tid, ActAuthorizeLookup(s.sys, a, io))
  {
    GoOn(w, s, tid, ActAuthorizeLookup(s.sys, a, io));
  }

  lemma AuthorizeStashDecent(w: World, s: State, tid: nat, a: Authorization, io: IO)
    requires IsFree(s, InHand(tid))
    requires var key := w.coin(s.sys.drawn); IsFree(s, PendingAt(key)) && !IsConsentKey(key)
    ensures Decent(w, s, tid, ActAuthorizeStash(w, s.sys, a, io))
  {
    var e := ActAuthorizeStash(w, s.sys, a, io);
    if !io.ok {
      GoOn(w, s, tid, e);
    } else {
      OpenDecent(w, s, tid, e, e.move.to, OfPending(e.write.p), e.move.auth);
    }
  }

  // ----- callback

  lemma CallbackPopDecent(w: World, s: State, tid: nat, state: string, io: IO)
    requires IsFree(s, InHand(tid)) && Settled(w, s, PendingAt(state))
    ensures Decent(w, s, tid, ActCallbackPop(s.sys, tid, state, io))
  {
    var e := ActCallbackPop(s.sys, tid, state, io);
    if e.move.Stay? {
      GoOn(w, s, tid, e);
    } else {
      PopDecent(w, s, tid, e, PendingAt(state));
    }
  }

  lemma CallbackCheckDecent(w: World, s: State, tid: nat, p: PendingAuth)
    requires Holds(w, s, tid, CallbackCheck(p))
    ensures Decent(w, s, tid, ActCallbackCheck(s.sys, tid, p))
  {
    if s.sys.now > p.expires {
      DropDecent(w, s, tid, InvalidRequest, Expired);
    } else {
      KeepHolding(w, s, tid, CallbackLogin(p));
    }
  }

  lemma CallbackLoginDecent(w: World, s: State, tid: nat, p: PendingAuth, io: IO)
    requires Holds(w, s, tid, CallbackLogin(p))
    ensures Decent(w, s, tid, ActCallbackLogin(tid, p, io))
  {
    var e := ActCallbackLogin(tid, p, io);
    if e.move.Close? {
      DropDecent(w, s, tid, UpstreamError, Upstream);
    } else {
      KeepHolding(w, s, tid, e.next);
    }
  }

  lemma CallbackNameDecent(w: World, s: State, tid: nat, f: Flight, io: IO)
    requires f.CallbackName? && Holds(w, s, tid, f)
    ensures Decent(w, s, tid, ActCallbackName(s.sys, f, io))
  {
    KeepHolding(w, s, tid, ActCallbackName(s.sys, f, io).next);
  }

  lemma CallbackStashDecent(w: World, s: State, tid: nat, f: Flight, io: IO)
    requires f.CallbackStash? && Holds(w, s, tid, f) && IsFree(s, PendingAt(ConsentKey(w.coin(s.sys.drawn))))
    ensures Decent(w, s, tid, ActCallbackStash(w, s.sys, tid, f, io))
  {
    var e := ActCallbackStash(w, s.sys, tid, f, io);
    if !io.ok {
      DropDecent(w, s, tid, ServerError, StoreFailed);
    } else {
      PutDecent(w, s, tid, e, e.move.to, OfPending(e.write.p), e.move.note.value);
    }
  }

  // ----- consent

  lemma ConsentPopDecent(w: World, s: State, tid: nat, f: Flight, io: IO)
    requires f.ConsentPop? && IsFree(s, InHand(tid)) && Settled(w, s, PendingAt(ConsentKey(f.key)))
    ensures Decent(w, s, tid, ActConsentPop(s.sys, tid, f, io))
  {
    var e := ActConsentPop(s.sys, tid, f, io);
    if e.move.Stay? {
      GoOn(w, s, tid, e);
    } else {
      assert IsConsentKey(ConsentKey(f.key));
      PopDecent(w, s, tid, e, PendingAt(ConsentKey(f.key)));
    }
  }

  lemma ConsentCheckDecent(w: World, s: State, tid: nat, f: Flight)
    requires f.ConsentCheck? && Holds(w, s, tid, f)
    ensures Decent(w, s, tid, ActConsentCheck(s.sys, tid, f))
  {
    if s.sys.now > f.p.expires {
      DropDecent(w, s, tid, OAuthError.ConsentExpired, Expired);
    } else {
      KeepHolding(w, s, tid, ConsentLookup(f.p, f.approve));
    }
  }

  lemma ConsentLookupDecent(w: World, s: State, tid: nat, f: Flight, io: IO)
    requires f.ConsentLookup? && Holds(w, s, tid, f)
    ensures Decent(w, s, tid, ActConsentLookup(s.sys, tid, f, io))
  {
    var e := ActConsentLookup(s.sys, tid, f, io);
    if e.move.Close? {
      GiveUp(w, s, tid, e, e.move.reason);
    } else {
      KeepHolding(w, s, tid, ConsentMint(f.p));
    }
  }

  lemma ConsentMintDecent(w: World, s: State, tid: nat, p: PendingAuth, io: IO)
    requires Holds(w, s, tid, ConsentMint(p)) && IsFree(s, CodeAt(w.coin(s.sys.drawn)))
    ensures Decent(w, s, tid, ActConsentMint(w, s.sys, tid, p, io))
  {
    if !io.ok {
      DropDecent(w, s, tid, ServerError, StoreFailed);
    } else {
      var code, now := w.coin(s.sys.drawn), s.sys.now;
      Approvable(w, TrailAt(s.audit, InHand(tid)), p, code, now);
      PutDecent(w, s, tid, ActConsentMint(w, s.sys, tid, p, io), CodeAt(code), OfCode(NewCode(w, p, code, now)),
                Approved(code, now));
    }
  }

  // ----- token, authorization_code

  lemma CodePopDecent(w: World, s: State, tid: nat, g: CodeGrant, io: IO)
    requires IsFree(s, InHand(tid)) && Settled(w, s, CodeAt(g.code))
    ensures Decent(w, s, tid, ActCodePop(s.sys, tid, g, io))
  {
    var e := ActCodePop(s.sys, tid, g, io);
    if e.move.Stay? {
      GoOn(w, s, tid, e);
    } else {
      PopDecent(w, s, tid, e, CodeAt(g.code));
    }
  }

  lemma CodeCheckDecent(w: World, s: State, tid: nat, c: AuthCode, g: CodeGrant)
    requires Holds(w, s, tid, CodeCheck(c, g))
    ensures Decent(w, s, tid, ActCodeCheck(w, s.sys, tid, c, g))
  {
    match CodeRefusal(w, c, g, s.sys.now) {
      case Some(reason) => DropDecent(w, s, tid, InvalidGrant, reason);
      case None =>
        Redeemable(w, TrailAt(s.audit, InHand(tid)), c, g, tid, s.sys.now);
        NoteDecent(w, s, tid, ActCodeCheck(w, s.sys, tid, c, g),
                   Redeemed(tid, g.verifier, g.clientID, g.redirectURI, s.sys.now));
    }
  }

  lemma CodeSessionDecent(w: World, s: State, tid: nat, c: AuthCode, io: IO)
    requires Holds(w, s, tid, CodeSession(c))
    ensures Decent(w, s, tid, ActCodeSession(w, s.sys, tid, c, io))
  {
    var e := ActCodeSession(w, s.sys, tid, c, io);
    NoteDecent(w, s, tid, e, e.move.fact);
  }

  lemma CodeIssueDecent(w: World, s: State, tid: nat, c: AuthCode, access: string, io: IO)
    requires Holds(w, s, tid, CodeIssue(c, access)) && IsFree(s, RefreshAt(w.hash(w.coin(s.sys.drawn))))
    ensures Decent(w, s, tid, ActCodeIssue(w, s.sys, tid, c, access, io))
  {
    var e := ActCodeIssue(w, s.sys, tid, c, access, io);
    if e.move.Close? {
      GiveUp(w, s, tid, e, e.move.reason);
    } else {
      var key := w.hash(w.coin(s.sys.drawn));
      Issuable(w, TrailAt(s.audit, InHand(tid)), c, tid, key, s.sys.now);
      PutDecent(w, s, tid, e, RefreshAt(key), OfRefresh(FirstRefresh(w, c, key, s.sys.now)), e.move.note.value);
    }
  }

  // ----- token, refresh_token

  lemma RefreshPopDecent(w: World, s: State, tid: nat, f: Flight, io: IO)
    requires f.RefreshPop? && IsFree(s, InHand(tid)) && Settled(w, s, RefreshAt(w.hash(f.presented)))
    ensures Decent(w, s, tid, ActRefreshPop(w, s.sys, tid, f, io))
  {
    var e := ActRefreshPop(w, s.sys, tid, f, io);
    if e.move.Stay? {
      GoOn(w, s, tid, e);
    } else {
      PopDecent(w, s, tid, e, RefreshAt(w.hash(f.presented)));
    }
  }

  lemma RefreshCheckDecent(w: World, s: State, tid: nat, rt: RefreshToken, clientID: string)
    requires Holds(w, s, tid, RefreshCheck(rt, clientID))
    ensures Decent(w, s, tid, ActRefreshCheck(s.sys, tid, rt, clientID))
  {
    match RefreshRefusal(rt, clientID, s.sys.now) {
      case Some(reason) => DropDecent(w, s, tid, InvalidGrant, reason);
      case None =>
        Presentable(w, TrailAt(s.audit, InHand(tid)), rt, clientID, tid, s.sys.now);
        NoteDecent(w, s, tid, ActRefreshCheck(s.sys, tid, rt, clientID),
                   Presented(tid, rt.hashedToken, clientID, s.sys.now));
    }
  }

  lemma RefreshReauthDecent(w: World, s: State, tid: nat, rt: RefreshToken, io: IO)
    requires Holds(w, s, tid, RefreshReauth(rt))
    ensures Decent(w, s, tid, ActRefreshReauth(tid, rt, io))
  {
    match ReauthRefusal(io.reauth) {
      case Some(reason) => DropDecent(w, s, tid, InvalidGrant, reason);
      case None =>
        var e := ActRefreshReauth(tid, rt, io);
        Renewable(w, TrailAt(s.audit, InHand(tid)), rt, tid, e.move.fact, s.sys.now);
        NoteDecent(w, s, tid, e, e.move.fact);
    }
  }

  lemma RefreshSessionDecent(w: World, s: State, tid: nat, f: Flight, io: IO)
    requires f.RefreshSession? && Holds(w, s, tid, f)
    ensures Decent(w, s, tid, ActRefreshSession(w, s.sys, tid, f, io))
  {
    var e := ActRefreshSession(w, s.sys, tid, f, io);
    NoteDecent(w, s, tid, e, e.move.fact);
  }

  lemma RefreshRotateDecent(w: World, s: State, tid: nat, f: Flight, io: IO)
    requires f.RefreshRotate? && Holds(w, s, tid, f) && IsFree(s, RefreshAt(w.hash(w.coin(s.sys.drawn))))
    ensures Decent(w, s, tid, ActRefreshRotate(w, s.sys, tid, f, io))
  {
    var e := ActRefreshRotate(w, s.sys, tid, f, io);
    if e.move.Close? {
      GiveUp(w, s, tid, e, e.move.reason);
    } else {
      var key := w.hash(w.coin(s.sys.drawn));
      Rotatable(w, TrailAt(s.audit, InHand(tid)), f, tid, key, s.sys.now);
      PutDecent(w, s, tid, e, RefreshAt(key), OfRefresh(NextRefresh(w, f, key)), Rotated(tid, key));
    }
  }

  // ----- revoke

  lemma RevokeDecent(w: World, s: State, tid: nat, token: string, plan: seq<RevokeOp>, io: IO)
    requires IsFree(s, InHand(tid)) && Settled(w, s, RefreshAt(w.hash(token)))
    ensures Decent(w, s, tid, ActRevoke(w, s.sys, token, plan, io))
  {
    var e := ActRevoke(w, s.sys, token, plan, io);
    if e.move.Stay? {
      GoOn(w, s, tid, e);
    } else {
      CloseDecent(w, s, tid, e, RefreshAt(w.hash(token)), Revoked);
    }
  }
}
