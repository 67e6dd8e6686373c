/** Where a handler's knowledge comes from: the request by which it entered, the
    place it took its record from, and what Cognito answered it. All three are
    read off the events of the run. */
module AuthHistory {
  import opened Basics
  import opened AuthRecords
  import opened Lineage
  import opened AuthSteps
  import opened AuthAudit
  import opened AuthSafety
  import opened AuthDecency
  import opened AuthInvariant
  import opened AuthTheorems
  import opened AuthEndings

  /** The request by which handler tid entered; only the first one counts. */
  function Arrived(es: seq<Event>, tid: nat): Option<Request> {
    if es == [] then None
    else
      var init, last := es[..|es| - 1], es[|es| - 1];
      if Arrived(init, tid).Some? then Arrived(init, tid)
      else if last.Start? && last.tid == tid then Some(last.request)
      else None
  }

  lemma {:induction false} ArrivedStarted(es: seq<Event>, tid: nat)
    requires Arrived(es, tid).Some?
    ensures exists i :: 0 <= i < |es| && es[i] == Start(tid, Arrived(es, tid).value)
  {
    var init := es[..|es| - 1];
    if Arrived(init, tid).Some? {
      ArrivedStarted(init, tid);
      var i :| 0 <= i < |init| && init[i] == Start(tid, Arrived(init, tid).value);
      assert es[i] == init[i];
    } else {
      assert es[|es| - 1] == Start(tid, Arrived(es, tid).value);
    }
  }

  /** What Cognito, the encrypter and the lookup answered in the login of tid. */
  function LoginOf(w: World, es: seq<Event>, tid: nat): Option<Login> {
    if es == [] then None
    else
      var init, last := es[..|es| - 1], es[|es| - 1];
      var flights := Reached(w, init).sys.flights;
      if last.Advance? && last.tid == tid && tid in flights && flights[tid].CallbackLogin? then last.io.login
      else LoginOf(w, init, tid)
  }

  // ----- One handler through one step

  /** The program point of tid after event e, if it has entered. */
  function FlightAfter(w: World, s: Sys, e: Event, tid: nat): Option<Flight> {
    var before := if tid in s.flights then Some(s.flights[tid]) else None;
    match e
    case Start(other, request) => if other == tid && before.None? then Some(Admit(w, request)) else before
    case Advance(other, io) =>
      if other == tid && before.Some? then Some(Proceed(w, Ticked(s, io.tick), tid, before.value, io).next) else before
    case Lost(place) =>
      if place == InHand(tid) && before.Some? && Holding(before.value) then Some(Done(Failed(Crashed))) else before
    case SessionLost(_) => before
  }

  lemma LostFlight(s: Sys, place: Place, tid: nat)
    ensures var t := ActLost(s, place).sys.flights;
            if place == InHand(tid) && tid in s.flights && Holding(s.flights[tid])
            then tid in t && t[tid] == Done(Failed(Crashed))
            else (tid in t <==> tid in s.flights) && (tid in t ==> t[tid] == s.flights[tid])
  {
    if place.InHand? && place.tid in s.flights && Holding(s.flights[place.tid]) {
      FlightsAfter(s, place.tid, Drop(place.tid, Crashed, Reaped));
    }
  }

  lemma FlightFollows(w: World, s: Sys, e: Event, tid: nat)
    ensures var t := Act(w, s, e).sys.flights;
            FlightAfter(w, s, e, tid) == if tid in t then Some(t[tid]) else None
  {
    match e {
      case Start(other, request) =>
        if other !in s.flights {
          FlightsAfter(s, other, Quiet(Admit(w, request)));
        }
      case Advance(other, io) =>
        if other in s.flights {
          var t := Ticked(s, io.tick);
          FlightsAfter(t, other, Proceed(w, t, other, s.flights[other], io));
          assert Act(w, s, e) == Advanced(w, s, other, io);
        }
      case Lost(place) => LostFlight(s, place, tid);
      case SessionLost(key) => WriteKeepsFlights(s, DelSession(key));
    }
  }

  // ----- The request behind a handler

  predicate Grants(r: Response, q: Request) {
    match r
    case Redirected(_, _, params) => q.ConsentRequest? && (params.CodeGranted? <==> q.action == "approve")
    case ConsentShown(_) => q.CallbackRequest?
    case Tokens(_, _, _) => q.CodeRequest? || q.RefreshRequest?
    case _ => true
  }

  /** The request with the default scope filled in. */
  function Completed(a: Authorization): Authorization {
    a.(scope := if a.scope == "" then DEFAULT_SCOPE else a.scope)
  }

  /** What authorize insists on (RFC 7636 section 4.3). */
  predicate WellFormed(a: Authorization) {
    a.responseType == "code" && a.codeChallengeMethod == "S256" && a.codeChallenge != ""
  }

  /** What the handler's locals have from request q. */
  predicate Serves(w: World, q: Request, f: Flight) {
    match f
    case Registering(name, uris, grants) => q == RegisterRequest(true, name, uris, grants)
    case AuthorizeLookup(a) => q == AuthorizeRequest(a) && a.responseType == "code"
    case AuthorizeStash(a) => q.AuthorizeRequest? && a == Completed(q.authorization) && WellFormed(a)
    case CallbackPop(state) => q.CallbackRequest? && q.state == state
    case CallbackCheck(_) => q.CallbackRequest?
    case CallbackLogin(_) => q.CallbackRequest?
    case CallbackName(_, _) => q.CallbackRequest?
    case CallbackStash(_, _) => q.CallbackRequest?
    case ConsentPop(key, approve) => q.ConsentRequest? && q.key == key && approve == (q.action == "approve")
    case ConsentCheck(_, approve) => q.ConsentRequest? && approve == (q.action == "approve")
    case ConsentLookup(_, approve) => q.ConsentRequest? && approve == (q.action == "approve")
    case ConsentMint(_) => q.ConsentRequest? && q.action == "approve"
    case CodePop(g) => q == CodeRequest(g)
    case CodeCheck(c, g) => q == CodeRequest(g) && c.code == g.code
    case CodeSession(_) => q.CodeRequest?
    case CodeIssue(_, _) => q.CodeRequest?
    case RefreshPop(presented, clientID) => q == RefreshRequest(presented, clientID)
    case RefreshCheck(rt, clientID) =>
      q.RefreshRequest? && q.clientID == clientID && rt.hashedToken == w.hash(q.presented)
    case RefreshReauth(rt) => q.RefreshRequest? && rt.hashedToken == w.hash(q.presented)
    case RefreshSession(rt, _, _, _) => q.RefreshRequest? && rt.hashedToken == w.hash(q.presented)
    case RefreshRotate(rt, _, _, _, _) => q.RefreshRequest? && rt.hashedToken == w.hash(q.presented)
    case Revoking(token, _) => q.RevokeRequest? && q.token == token
    case Done(r) => Grants(r, q)
  }

  /** Codes and refresh tokens are stored under their own keys. */
  predicate Keyed(s: Sys) {
    && (forall k | k in s.codes :: s.codes[k].code == k)
    && (forall k | k in s.refresh :: s.refresh[k].hashedToken == k)
  }

  lemma CoreIsKeyed(w: World, s: State)
    requires Core(w, s)
    ensures Keyed(s.sys)
  {
    forall k | k in s.sys.codes
      ensures s.sys.codes[k].code == k
    {
      CoreKnows(w, s, CodeAt(k));
    }
    forall k | k in s.sys.refresh
      ensures s.sys.refresh[k].hashedToken == k
    {
      CoreKnows(w, s, RefreshAt(k));
    }
  }

  lemma AdmitServes(w: World, q: Request)
    ensures Serves(w, q, Admit(w, q))
  {
  }

  lemma LoginServes(w: World, s: Sys, tid: nat, q: Request, f: Flight, io: IO)
    requires LoginPoint(f) && Serves(w, q, f)
    ensures Serves(w, q, Proceed(w, s, tid, f, io).next)
  {
  }

  lemma ConsentServes(w: World, s: Sys, tid: nat, q: Request, f: Flight, io: IO)
    requires ConsentPoint(f) && Serves(w, q, f)
    ensures Serves(w, q, Proceed(w, s, tid, f, io).next)
  {
  }

  lemma CodeServes(w: World, s: Sys, tid: nat, q: Request, f: Flight, io: IO)
    requires f.CodePop? || f.CodeCheck? || f.CodeSession? || f.CodeIssue?
    requires Serves(w, q, f) && Keyed(s)
    ensures Serves(w, q, Proceed(w, s, tid, f, io).next)
  {
  }

  lemma RevokeServes(w: World, s: Sys, tid: nat, q: Request, f: Flight, io: IO)
    requires (f.Revoking? || f.Done?) && Serves(w, q, f)
    ensures Serves(w, q, Proceed(w, s, tid, f, io).next)
  {
  }

  lemma RefreshServes(w: World, s: Sys, tid: nat, q: Request, f: Flight, io: IO)
    requires RefreshPoint(f) && Serves(w, q, f) && Keyed(s)
    ensures Serves(w, q, Proceed(w, s, tid, f, io).next)
  {
  }

  lemma ProceedServes(w: World, s: Sys, tid: nat, q: Request, f: Flight, io: IO)
    requires Serves(w, q, f) && Keyed(s)
    ensures Serves(w, q, Proceed(w, s, tid, f, io).next)
  {
    if LoginPoint(f) {
      LoginServes(w, s, tid, q, f, io);
    } else if ConsentPoint(f) {
      ConsentServes(w, s, tid, q, f, io);
    } else if f.Revoking? || f.Done? {
      RevokeServes(w, s, tid, q, f, io);
    } else if CodePoint(f) {
      CodeServes(w, s, tid, q, f, io);
    } else {
      RefreshServes(w, s, tid, q, f, io);
    }
  }

  lemma StepServes(w: World, s: State, e: Event, tid: nat, q: Request)
    requires Core(w, s) && tid in Act(w, s.sys, e).sys.flights
    requires tid in s.sys.flights ==> Serves(w, q, s.sys.flights[tid])
    requires tid !in s.sys.flights ==> e == Start(tid, q)
    ensures Serves(w, q, Act(w, s.sys, e).sys.flights[tid])
  {
    FlightFollows(w, s.sys, e, tid);
    match e {
      case Start(_, _) => AdmitServes(w, q);
      case Advance(other, io) =>
        if other == tid {
          CoreIsKeyed(w, s);
          ProceedServes(w, Ticked(s.sys, io.tick), tid, q, s.sys.flights[tid], io);
        }
      case Lost(_) =>
      case SessionLost(_) =>
    }
  }

  lemma EntersByStart(w: World, s: Sys, e: Event, tid: nat)
    ensures tid in Act(w, s, e).sys.flights <==> tid in s.flights || (e.Start? && e.tid == tid)
  {
    FlightFollows(w, s, e, tid);
  }

  /** A handler is at work exactly if its request has arrived. */
  lemma {:induction false} EnteredIffArrived(w: World, es: seq<Event>, tid: nat)
    ensures tid in Reached(w, es).sys.flights <==> Arrived(es, tid).Some?
  {
    if es == [] {
    } else {
      var init := es[..|es| - 1];
      EnteredIffArrived(w, init, tid);
      EntersByStart(w, Reached(w, init).sys, es[|es| - 1], tid);
    }
  }

  /** In every run a handler works for the request that brought it in. */
  lemma {:induction false} HandlersServe(w: World, es: seq<Event>, tid: nat)
    requires Sound(w) && tid in Reached(w, es).sys.flights
    ensures Arrived(es, tid).Some?
    ensures Serves(w, Arrived(es, tid).value, Reached(w, es).sys.flights[tid])
  {
    EnteredIffArrived(w, es, tid);
    if es == [] {
    } else {
      var init := es[..|es| - 1];
      EnteredIffArrived(w, init, tid);
      AlwaysInv(w, init);
      if tid in Reached(w, init).sys.flights {
        HandlersServe(w, init, tid);
      }
      StepServes(w, Reached(w, init), es[|es| - 1], tid, Arrived(es, tid).value);
    }
  }

  // ----- The record behind a handler

  /** Where request q says its record is. */
  function Named(w: World, q: Request): Option<Place> {
    match q
    case CallbackRequest(_, state) => Some(PendingAt(state))
    case ConsentRequest(key, _) => Some(PendingAt(ConsentKey(key)))
    case CodeRequest(g) => Some(CodeAt(g.code))
    case RefreshRequest(presented, _) => Some(RefreshAt(w.hash(presented)))
    case _ => None
  }

  predicate Carrying(s: State, p: Place, r: nat) {
    p in s.audit.at && s.audit.at[p] == r
  }

  /** In its j-th event the run had handler tid take the record of authorization
      r from the place its request names. */
  predicate TookIn(w: World, es: seq<Event>, j: nat, tid: nat, r: nat) {
    && j < |es| && es[j].Advance? && es[j].tid == tid
    && Arrived(es[..j], tid).Some?
    && Named(w, Arrived(es[..j], tid).value).Some?
    && Carrying(Reached(w, es[..j]), Named(w, Arrived(es[..j], tid).value).value, r)
    && Carrying(Reached(w, es[..j + 1]), InHand(tid), r)
  }

  ghost predicate Took(w: World, es: seq<Event>, tid: nat, r: nat) {
    exists j: nat :: TookIn(w, es, j, tid, r)
  }

  lemma {:induction false} ArrivedStays(es: seq<Event>, more: seq<Event>, tid: nat)
    requires es <= more && Arrived(es, tid).Some?
    ensures Arrived(more, tid) == Arrived(es, tid)
  {
    if es == more {
    } else {
      var init := more[..|more| - 1];
      assert es <= init;
      ArrivedStays(es, init, tid);
    }
  }

  lemma TookStays(w: World, es: seq<Event>, more: seq<Event>, tid: nat, r: nat)
    requires es <= more && Took(w, es, tid, r)
    ensures Took(w, more, tid, r)
  {
    var j: nat :| TookIn(w, es, j, tid, r);
    assert more[..j] == es[..j] && more[..j + 1] == es[..j + 1];
    assert TookIn(w, more, j, tid, r);
  }

  /** The only way into a handler's hands is its own pop. */
  predicate PopsNamed(w: World, q: Request, tid: nat, m: Move) {
    match m
    case Open(to, _) => !to.InHand?
    case Shift(from, to, _) => to.InHand? ==> to == InHand(tid) && Named(w, q) == Some(from)
    case _ => true
  }

  lemma ProceedPops(w: World, s: Sys, tid: nat, q: Request, f: Flight, io: IO)
    requires Serves(w, q, f)
    ensures PopsNamed(w, q, tid, Proceed(w, s, tid, f, io).move)
  {
  }

  /** Only a pop puts a record into a handler's hands. */
  predicate MovesInto(m: Move, p: Place) {
    (m.Open? || m.Shift?) && m.to == p
  }

  lemma ApplyPlace(a: Audit, m: Move, p: Place)
    requires Fits(a, m) && p in Apply(a, m).at
    ensures MovesInto(m, p) || (p in a.at && Apply(a, m).at[p] == a.at[p])
    ensures m.Shift? && m.to == p ==> Apply(a, m).at[p] == a.at[m.from]
  {
  }

  /** A step into tid's hands is tid's own and takes from the named place. */
  lemma StepIntoHand(w: World, s: State, e: Event, tid: nat, q: Request)
    requires MovesInto(Act(w, s.sys, e).move, InHand(tid))
    requires tid in s.sys.flights ==> Serves(w, q, s.sys.flights[tid])
    requires forall other | other in s.sys.flights :: exists q' :: Serves(w, q', s.sys.flights[other])
    ensures e.Advance? && e.tid == tid && tid in s.sys.flights
    ensures var m := Act(w, s.sys, e).move; m.Shift? && m.to == InHand(tid) && Named(w, q) == Some(m.from)
  {
    match e {
      case Start(_, _) =>
      case Advance(other, io) =>
        if other in s.sys.flights {
          var t, f := Ticked(s.sys, io.tick), s.sys.flights[other];
          assert Act(w, s.sys, e) == Advanced(w, s.sys, other, io);
          var q' :| Serves(w, q', f);
          ProceedPops(w, t, other, q', f, io);
          if other == tid {
            ProceedPops(w, t, tid, q, f, io);
          }
        }
      case Lost(place) => LostMoves(s.sys, place);
      case SessionLost(_) =>
    }
  }

  lemma LostMoves(s: Sys, place: Place)
    ensures var m := ActLost(s, place).move; m == Stay || m == Close(place, Reaped)
  {
  }

  lemma AllServe(w: World, es: seq<Event>)
    requires Sound(w)
    ensures forall tid | tid in Reached(w, es).sys.flights :: exists q :: Serves(w, q, Reached(w, es).sys.flights[tid])
  {
    forall tid | tid in Reached(w, es).sys.flights
      ensures exists q :: Serves(w, q, Reached(w, es).sys.flights[tid])
    {
      HandlersServe(w, es, tid);
    }
  }

  /** In the last event of es handler tid takes the record it has then. */
  lemma TakesNow(w: World, es: seq<Event>, tid: nat)
    requires Sound(w) && es != []
    requires var m := Act(w, Reached(w, es[..|es| - 1]).sys, es[|es| - 1]).move;
             Fits(Reached(w, es[..|es| - 1]).audit, m) && MovesInto(m, InHand(tid))
    requires InHand(tid) in Reached(w, es).audit.at
    ensures Took(w, es, tid, Reached(w, es).audit.at[InHand(tid)])
  {
    var init, last, j: nat := es[..|es| - 1], es[|es| - 1], |es| - 1;
    var s := Reached(w, init);
    AllServe(w, init);
    if tid in s.sys.flights {
      HandlersServe(w, init, tid);
    }
    var q := if Arrived(init, tid).Some? then Arrived(init, tid).value else RevokeRequest("", "");
    StepIntoHand(w, s, last, tid, q);
    ApplyPlace(s.audit, Act(w, s.sys, last).move, InHand(tid));
    assert es[..j] == init && es[..j + 1] == es;
    assert TookIn(w, es, j, tid, Reached(w, es).audit.at[InHand(tid)]);
  }

  /** In every run a handler that holds a record took it from the place its own
      request names. */
  lemma {:induction false} HoldersTook(w: World, es: seq<Event>, tid: nat)
    requires Sound(w) && InHand(tid) in Reached(w, es).audit.at
    ensures Took(w, es, tid, Reached(w, es).audit.at[InHand(tid)])
  {
    if es == [] {
    } else {
      var init, last := es[..|es| - 1], es[|es| - 1];
      var s := Reached(w, init);
      AlwaysInv(w, init);
      StepFits(w, s, last);
      ApplyPlace(s.audit, Act(w, s.sys, last).move, InHand(tid));
      if MovesInto(Act(w, s.sys, last).move, InHand(tid)) {
        TakesNow(w, es, tid);
      } else {
        HoldersTook(w, init, tid);
        TookStays(w, init, es, tid, s.audit.at[InHand(tid)]);
      }
    }
  }

  // ----- The login behind a record

  function VisitOf(l: Login): Visit {
    Visit(l.subject, l.email, l.orgs.GetOr([]), EncryptedRefresh(l))
  }

  /** p and lookup are what login l gave, and it named a user. */
  predicate Identifies(l: Login, p: PendingAuth, lookup: Option<seq<string>>) {
    l.subject != "" && MatchesVisit(p, VisitOf(l)) && lookup == l.orgs
  }

  predicate LoggedIn(login: Option<Login>, f: Flight) {
    f.CallbackName? || f.CallbackStash? ==> login.Some? && Identifies(login.value, f.p, f.lookup)
  }

  lemma LoginIdentifies(tid: nat, p: PendingAuth, io: IO)
    ensures LoggedIn(io.login, ActCallbackLogin(tid, p, io).next)
  {
  }

  lemma NameIdentifies(s: Sys, login: Option<Login>, f: Flight, io: IO)
    requires f.CallbackName? && LoggedIn(login, f)
    ensures LoggedIn(login, ActCallbackName(s, f, io).next)
  {
  }

  predicate BeforeName(f: Flight) {
    f.CallbackLogin? || f.CallbackName?
  }

  lemma OthersGoElsewhere(w: World, s: Sys, tid: nat, f: Flight, io: IO)
    requires !BeforeName(f)
    ensures var n := Proceed(w, s, tid, f, io).next; !n.CallbackName? && !n.CallbackStash?
  {
  }

  lemma StepLogsIn(w: World, s: Sys, e: Event, tid: nat, login: Option<Login>)
    requires tid in Act(w, s, e).sys.flights
    requires tid in s.flights ==> LoggedIn(login, s.flights[tid])
    ensures var now := if e.Advance? && e.tid == tid && tid in s.flights && s.flights[tid].CallbackLogin?
                       then e.io.login else login;
            LoggedIn(now, Act(w, s, e).sys.flights[tid])
  {
    FlightFollows(w, s, e, tid);
    if e.Advance? && e.tid == tid {
      var t, f := Ticked(s, e.io.tick), s.flights[tid];
      if f.CallbackLogin? {
        LoginIdentifies(tid, f.p, e.io);
      } else if f.CallbackName? {
        NameIdentifies(t, login, f, e.io);
      } else {
        OthersGoElsewhere(w, t, tid, f, e.io);
      }
    }
  }

  /** In every run what callback knows of the user is what Cognito answered it. */
  lemma {:induction false} CallbackHasLoggedIn(w: World, es: seq<Event>, tid: nat)
    requires tid in Reached(w, es).sys.flights
    ensures LoggedIn(LoginOf(w, es, tid), Reached(w, es).sys.flights[tid])
  {
    if es == [] {
    } else {
      var init, last := es[..|es| - 1], es[|es| - 1];
      if tid in Reached(w, init).sys.flights {
        CallbackHasLoggedIn(w, init, tid);
      }
      StepLogsIn(w, Reached(w, init).sys, last, tid, LoginOf(w, init, tid));
    }
  }

  /** In its i-th event the run had handler tid ask Cognito, which answered l. */
  predicate LoginIn(w: World, es: seq<Event>, i: nat, tid: nat, l: Login) {
    && i < |es| && es[i].Advance? && es[i].tid == tid && es[i].io.login == Some(l)
    && tid in Reached(w, es[..i]).sys.flights && Reached(w, es[..i]).sys.flights[tid].CallbackLogin?
  }

  lemma {:induction false} LoginHappened(w: World, es: seq<Event>, tid: nat)
    requires LoginOf(w, es, tid).Some?
    ensures exists i: nat :: LoginIn(w, es, i, tid, LoginOf(w, es, tid).value)
  {
    var init, last, n: nat := es[..|es| - 1], es[|es| - 1], |es| - 1;
    var flights := Reached(w, init).sys.flights;
    if last.Advance? && last.tid == tid && tid in flights && flights[tid].CallbackLogin? {
      assert LoginIn(w, es, n, tid, LoginOf(w, es, tid).value);
    } else {
      LoginHappened(w, init, tid);
      var i: nat :| LoginIn(w, init, i, tid, LoginOf(w, init, tid).value);
      assert es[..i] == init[..i];
      assert LoginIn(w, es, i, tid, LoginOf(w, es, tid).value);
    }
  }
}
