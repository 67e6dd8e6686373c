/** Every fact on a trail happened: an event of the run wrote it, and what it
    says is what the client sent, what the user chose, what the clock showed and
    what Cognito and the stores answered in that event. */
module AuthDeeds {
  import opened Basics
  import opened AuthRecords
  import opened Lineage
  import opened LineageTheorems
  import opened AuthSteps
  import opened AuthAudit
  import opened AuthSafety
  import opened AuthDecency
  import opened AuthInvariant
  import opened AuthTheorems
  import opened AuthEndings
  import opened AuthHistory

  /** One step of one handler: the request it serves, where it is, what the
      services answer, the time and random string of the step, what Cognito said
      at login, and the registered clients. */
  datatype Scene = Scene(
    tid: nat,
    q: Request,
    f: Flight,
    io: IO,
    now: int,
    coin: string,
    login: Option<Login>,
    clients: map<string, Client>)

  /** What an ending of this kind is due to. */
  predicate Because(w: World, c: Scene, reason: Reason) {
    match reason
    case Expired => ExpiryChecked(c.f).Some? && c.now > ExpiryChecked(c.f).value
    case Mismatch =>
      || (c.f.CodeCheck? && c.q.CodeRequest?
          && (c.q.grant.clientID != c.f.c.clientID
              || (c.q.grant.redirectURI != "" && c.q.grant.redirectURI != c.f.c.redirectURI)))
      || (c.f.RefreshCheck? && c.q.RefreshRequest? && c.q.clientID != "" && c.q.clientID != c.f.rt.clientID)
    case BadProof =>
      && c.f.CodeCheck? && c.q.CodeRequest?
      && (c.q.grant.verifier == "" || w.challengeOf(c.q.grant.verifier) != c.f.c.codeChallenge)
    case Upstream =>
      || (c.f.CallbackLogin? && (c.io.login.None? || c.io.login.value.subject == ""))
      || (c.f.RefreshReauth? && (c.io.reauth.CognitoRejected?
                                 || (c.io.reauth.CognitoAccepted? && c.io.reauth.subject == "")))
    case Undecryptable => c.f.RefreshReauth? && c.io.reauth.DecryptFailed?
    case StoreFailed => !c.io.ok && (c.f.CallbackStash? || c.f.ConsentMint? || c.f.CodeIssue? || c.f.RefreshRotate?)
    case Unregistered =>
      && c.f.ConsentLookup?
      && (!c.io.ok || c.f.p.clientID !in c.clients || c.f.p.redirectURI !in c.clients[c.f.p.clientID].redirectURIs)
    case Denied => c.f.ConsentLookup? && c.q.ConsentRequest? && c.q.action != "approve"
    case Revoked => c.f.Revoking? && c.q.RevokeRequest? && c.io.ok
    case NoRefresh => c.f.CodeIssue? && c.f.c.cognitoRefreshEnc == ""
    case Reaped => false
  }

  /** The fact says what the step is about. */
  predicate Deed(w: World, c: Scene, fact: Fact) {
    match fact
    case CalledBack(visit, lookup) =>
      && c.q.CallbackRequest? && c.f.CallbackStash? && c.io.ok
      && c.login.Some? && c.login.value.subject != ""
      && visit == VisitOf(c.login.value) && lookup == c.login.value.orgs
    case Approved(code, at) =>
      && c.q.ConsentRequest? && c.q.action == "approve" && c.f.ConsentMint?
      && c.io.ok && code == c.coin && at == c.now
    case Redeemed(tid, verifier, clientID, redirectURI, at) =>
      && c.q.CodeRequest? && tid == c.tid && at == c.now
      && c.f.CodeCheck? && c.f.c.code == c.q.grant.code
      && verifier == c.q.grant.verifier && clientID == c.q.grant.clientID && redirectURI == c.q.grant.redirectURI
    case Minted(tid, key, session) =>
      && (c.q.CodeRequest? || c.q.RefreshRequest?) && tid == c.tid
      && key == w.hash(c.coin) && session.createdAt == c.now
    case Issued(tid, key, at, _) =>
      c.q.CodeRequest? && tid == c.tid && c.io.ok && key == w.hash(c.coin) && at == c.now
    case Presented(tid, key, clientID, at) =>
      && c.q.RefreshRequest? && tid == c.tid && at == c.now
      && key == w.hash(c.q.presented) && clientID == c.q.clientID
    case Renewed(tid, ciphertext, subject, claimed, _, _, lookup) =>
      && c.q.RefreshRequest? && tid == c.tid
      && c.f.RefreshReauth? && c.f.rt.cognitoRefreshEnc == ciphertext
      && c.io.reauth == CognitoAccepted(subject, claimed, lookup) && subject != ""
    case Rotated(tid, key) => c.q.RefreshRequest? && tid == c.tid && c.io.ok && key == w.hash(c.coin)
    case Ended(reason) => Because(w, c, reason)
  }

  /** What a step of handler tid notes, and on whose trail. */
  predicate Notes(w: World, c: Scene, m: Move) {
    NoteOf(m).Some? ==>
      && Deed(w, c, NoteOf(m).value)
      && SourceOf(m, InHand(c.tid)) == if c.q.RevokeRequest? then RefreshAt(w.hash(c.q.token)) else InHand(c.tid)
  }

  predicate Set(w: World, c: Scene, s: Sys) {
    && Serves(w, c.q, c.f) && LoggedIn(c.login, c.f)
    && c.now == s.now && c.coin == w.coin(s.drawn) && c.clients == s.clients
  }

  lemma LoginNotes(w: World, c: Scene, s: Sys)
    requires LoginPoint(c.f) && Set(w, c, s)
    ensures Notes(w, c, Proceed(w, s, c.tid, c.f, c.io).move)
  {
  }

  lemma StashNotes(w: World, c: Scene, s: Sys)
    requires c.f.CallbackStash? && Set(w, c, s)
    ensures Notes(w, c, ActCallbackStash(w, s, c.tid, c.f, c.io).move)
  {
  }

  lemma ConsentNotes(w: World, c: Scene, s: Sys)
    requires ConsentPoint(c.f) && Set(w, c, s)
    ensures Notes(w, c, Proceed(w, s, c.tid, c.f, c.io).move)
  {
    if c.f.CallbackStash? {
      StashNotes(w, c, s);
    }
  }

  lemma CodeNotes(w: World, c: Scene, s: Sys)
    requires c.f.CodePop? || c.f.CodeCheck? || c.f.CodeSession? || c.f.CodeIssue?
    requires Set(w, c, s)
    ensures Notes(w, c, Proceed(w, s, c.tid, c.f, c.io).move)
  {
  }

  lemma RevokeNotes(w: World, c: Scene, s: Sys)
    requires (c.f.Revoking? || c.f.Done?) && Set(w, c, s)
    ensures Notes(w, c, Proceed(w, s, c.tid, c.f, c.io).move)
  {
  }

  lemma RefreshNotes(w: World, c: Scene, s: Sys)
    requires RefreshPoint(c.f) && Set(w, c, s)
    ensures Notes(w, c, Proceed(w, s, c.tid, c.f, c.io).move)
  {
  }

  lemma ProceedNotes(w: World, c: Scene, s: Sys)
    requires Set(w, c, s)
    ensures Notes(w, c, Proceed(w, s, c.tid, c.f, c.io).move)
  {
    if LoginPoint(c.f) {
      LoginNotes(w, c, s);
    } else if ConsentPoint(c.f) {
      ConsentNotes(w, c, s);
    } else if c.f.Revoking? || c.f.Done? {
      RevokeNotes(w, c, s);
    } else if CodePoint(c.f) {
      CodeNotes(w, c, s);
    } else {
      RefreshNotes(w, c, s);
    }
  }

  // ----- In runs

  /** The step Advance(tid, io) after the events before. */
  function SceneOf(w: World, before: seq<Event>, tid: nat, io: IO): Scene
    requires tid in Reached(w, before).sys.flights && Arrived(before, tid).Some?
  {
    var s := Reached(w, before).sys;
    Scene(tid, Arrived(before, tid).value, s.flights[tid], io, s.now + io.tick, w.coin(s.drawn),
          LoginOf(w, before, tid), s.clients)
  }

  /** After the events before, event e writes this fact on trail r, and rightly. */
  ghost predicate Cause(w: World, before: seq<Event>, e: Event, r: nat, fact: Fact) {
    var s := Reached(w, before);
    match e
    case Advance(tid, io) =>
      && tid in s.sys.flights && Arrived(before, tid).Some?
      && var c := SceneOf(w, before, tid, io);
      && Deed(w, c, fact)
      && (if c.q.RevokeRequest? then Carrying(s, RefreshAt(w.hash(c.q.token)), r)
          else Carrying(s, InHand(tid), r) && Took(w, before, tid, r))
    case Lost(place) => fact == Ended(Reaped) && Carrying(s, place, r)
    case _ => false
  }

  lemma SceneIsSet(w: World, before: seq<Event>, tid: nat, io: IO)
    requires Sound(w) && tid in Reached(w, before).sys.flights
    ensures Arrived(before, tid).Some?
    ensures Set(w, SceneOf(w, before, tid, io), Ticked(Reached(w, before).sys, io.tick))
  {
    HandlersServe(w, before, tid);
    CallbackHasLoggedIn(w, before, tid);
  }

  lemma AdvanceCauses(w: World, before: seq<Event>, tid: nat, io: IO, r: nat, fact: Fact)
    requires Sound(w) && tid in Reached(w, before).sys.flights
    requires var m := Act(w, Reached(w, before).sys, Advance(tid, io)).move;
             NoteOf(m) == Some(fact) && Carrying(Reached(w, before), SourceOf(m, InHand(tid)), r)
    ensures Cause(w, before, Advance(tid, io), r, fact)
  {
    var s := Reached(w, before).sys;
    SceneIsSet(w, before, tid, io);
    var c := SceneOf(w, before, tid, io);
    assert Act(w, s, Advance(tid, io)) == Advanced(w, s, tid, io);
    ProceedNotes(w, c, Ticked(s, io.tick));
    if !c.q.RevokeRequest? {
      HoldersTook(w, before, tid);
    }
  }

  lemma NotesAreCaused(w: World, before: seq<Event>, e: Event, r: nat, fact: Fact, hand: Place)
    requires Sound(w)
    requires var m := Act(w, Reached(w, before).sys, e).move;
             NoteOf(m) == Some(fact) && Carrying(Reached(w, before), SourceOf(m, hand), r)
    ensures Cause(w, before, e, r, fact)
  {
    match e {
      case Start(_, _) =>
      case Advance(tid, io) =>
        if tid in Reached(w, before).sys.flights {
          AdvanceCauses(w, before, tid, io, r, fact);
        }
      case Lost(place) => LostMoves(Reached(w, before).sys, place);
      case SessionLost(_) =>
    }
  }

  /** A trail after a move: new, as before, or longer by what the move notes. */
  lemma ApplyTrail(a: Audit, m: Move, r: nat, hand: Place)
    requires Fits(a, m) && r < |Apply(a, m).trails|
    ensures r < |a.trails| ==>
              || Apply(a, m).trails[r] == a.trails[r]
              || (NoteOf(m).Some? && SourceOf(m, hand) in a.at && a.at[SourceOf(m, hand)] == r
                  && Apply(a, m).trails[r] == More(a.trails[r], NoteOf(m).value))
    ensures r >= |a.trails| ==> Apply(a, m).trails[r].Origin?
  {
  }

  /** The i-th event of the run wrote the last fact of u on trail r. */
  ghost predicate Wrote(w: World, es: seq<Event>, i: nat, r: nat, u: Trail) {
    && i < |es| && u.More?
    && r < |Reached(w, es[..i]).audit.trails| && Reached(w, es[..i]).audit.trails[r] == u.past
    && r < |Reached(w, es[..i + 1]).audit.trails| && Reached(w, es[..i + 1]).audit.trails[r] == u
    && Cause(w, es[..i], es[i], r, u.fact)
  }

  lemma WroteStays(w: World, es: seq<Event>, e: Event, i: nat, r: nat, u: Trail)
    requires Wrote(w, es, i, r, u)
    ensures Wrote(w, es + [e], i, r, u)
  {
    assert (es + [e])[..i] == es[..i] && (es + [e])[..i + 1] == es[..i + 1];
  }

  lemma WritesNow(w: World, before: seq<Event>, e: Event, r: nat)
    requires Sound(w)
    requires r < |Reached(w, before + [e]).audit.trails| && Reached(w, before + [e]).audit.trails[r].More?
    requires r >= |Reached(w, before).audit.trails|
             || Reached(w, before).audit.trails[r] != Reached(w, before + [e]).audit.trails[r]
    ensures Wrote(w, before + [e], |before|, r, Reached(w, before + [e]).audit.trails[r])
  {
    var es, s, n := before + [e], Reached(w, before), |before|;
    var m := Act(w, s.sys, e).move;
    var hand := InHand(if e.Advance? then e.tid else 0);
    assert es[..n] == before && es[..n + 1] == es && es[n] == e;
    AlwaysInv(w, before);
    StepFits(w, s, e);
    ApplyTrail(s.audit, m, r, hand);
    NotesAreCaused(w, before, e, r, NoteOf(m).value, hand);
  }

  /** In every run, every fact of every authorization was written by one event,
      for the reason Cause gives. */
  lemma {:induction false} EveryFactHappened(w: World, es: seq<Event>, r: nat, u: Trail)
    requires Sound(w) && r < |Reached(w, es).audit.trails|
    requires Within(u, Reached(w, es).audit.trails[r]) && u.More?
    ensures exists i: nat :: Wrote(w, es, i, r, u)
  {
    if es == [] {
    } else {
      var init, last, n: nat := es[..|es| - 1], es[|es| - 1], |es| - 1;
      var t := Reached(w, es).audit.trails[r];
      assert init + [last] == es;
      if r < |Reached(w, init).audit.trails| && Reached(w, init).audit.trails[r] == t {
        EveryFactHappened(w, init, r, u);
        var i: nat :| Wrote(w, init, i, r, u);
        WroteStays(w, init, last, i, r, u);
        assert Wrote(w, es, i, r, u);
      } else {
        WritesNow(w, init, last, r);
        assert Wrote(w, es, n, r, t);
        if u != t {
          EveryFactHappened(w, init, r, u);
          var i: nat :| Wrote(w, init, i, r, u);
          WroteStays(w, init, last, i, r, u);
          assert Wrote(w, es, i, r, u);
        }
      }
    }
  }
}
