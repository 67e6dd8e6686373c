/** A login and the POST that answers its consent screen, end to end. */
module LoginThenConsent {
  import opened Basics
  import opened AuthRecords
  import opened AuthSteps
  import opened AuthAudit
  import opened AuthSchedule
  import opened Exchange
  import Callback = CallbackExchange
  import Consent = ConsentExchange

  lemma EntryKeepsPending(w: World, s: State, tid: nat, request: Request)
    requires tid !in s.sys.flights
    ensures Run(w, Step(w, s, Start(tid, request)), []).sys.pending == s.sys.pending
  {
    KeepsPending(s.sys, tid, Admit(w, request));
  }

  lemma KeepsPending(s: Sys, tid: nat, f: Flight)
    ensures Perform(s, tid, Quiet(f)).sys.pending == s.pending
  {
  }

  /** r grants the client of the waiting record p a code with the state it sent, and
      the code is stored for Cognito's user. */
  predicate GrantsFor(p: PendingAuth, l: Login, r: Response, s: Sys) {
    && r.Redirected? && r.clientID == p.clientID && r.uri == p.redirectURI
    && r.params.CodeGranted? && r.params.state == p.originalState && r.params.code in s.codes
    && var c := s.codes[r.params.code];
    && c.clientID == p.clientID && c.redirectURI == p.redirectURI && c.codeChallenge == p.codeChallenge
    && c.scope == p.scope && c.subject == l.subject && c.email == l.email
    && c.orgs == (match l.orgs case Some(orgs) => orgs case None => [])
  }

  lemma ApprovalGrants(w: World, p: PendingAuth, l: Login, m: Callback.Encounter, q: PendingAuth, key: string,
                       n: Consent.Encounter, r: Response, s: Sys)
    requires Callback.Identified(w, p, l, m, q) && key != ""
    requires Consent.UserGets(w, key, "approve", n, r, s) && Consent.Open(key, n) && n.put
    requires n.pending["consent:" + key] == q
    ensures GrantsFor(p, l, r, s)
  {
  }

  /** A callback that shows a consent screen, whatever happened around it, and then
      the POST of that screen, which nobody overtakes, with anything between its
      later steps: the record found is the one just stored. If the POST approves, in
      time, for a client that still has the redirect URI, and the store answers,
      then the client of the original request gets a code for Cognito's user. */
  lemma ApprovedLoginGivesCode(w: World, s: State, tid: nat, code: string, state: string, io: nat -> IO,
                               env: nat -> seq<Event>, tid': nat, action: string,
                               io': nat -> IO, env': nat -> seq<Event>)
    requires Sound(w) && tid !in s.sys.flights && Apart(tid, env)
    requires var entered := Step(w, s, Start(tid, CallbackRequest(code, state)));
             Callback.LogsIn(code, state, Callback.EncounterOf(w, entered, tid, io, env))
    requires tid' !in Handled(w, s, tid, CallbackRequest(code, state), io, env).sys.flights
    requires Apart(tid', env') && env'(0) == [] && io'(0).ok
    ensures var m := Callback.EncounterOf(w, Step(w, s, Start(tid, CallbackRequest(code, state))), tid, io, env);
            var shown := Handled(w, s, tid, CallbackRequest(code, state), io, env);
            && tid in shown.sys.flights && shown.sys.flights[tid].Done?
            && shown.sys.flights[tid].response.ConsentShown?
            && var key := shown.sys.flights[tid].response.key;
            var n := Consent.EncounterOf(w, Step(w, shown, Start(tid', ConsentRequest(key, action))), tid', io', env');
            var t := Handled(w, shown, tid', ConsentRequest(key, action), io', env').sys;
            && n.popped && n.pending == shown.sys.pending && "consent:" + key in n.pending
            && tid' in t.flights && t.flights[tid'].Done?
            && (Consent.Open(key, n) && action == "approve" && n.put ==>
                  GrantsFor(m.pending[state], m.login.value, t.flights[tid'].response, t))
  {
    Callback.CallbackIsAnswered(w, s, tid, code, state, io, env);
    var m := Callback.EncounterOf(w, Step(w, s, Start(tid, CallbackRequest(code, state))), tid, io, env);
    var shown := Handled(w, s, tid, CallbackRequest(code, state), io, env);
    var key := shown.sys.flights[tid].response.key;
    PostFinds(w, shown, tid', key, action, io', env', m.pending[state], m.login.value, m);
  }

  /** The second half, from the state in which the screen has just been shown. */
  lemma PostFinds(w: World, shown: State, tid: nat, key: string, action: string, io: nat -> IO,
                  env: nat -> seq<Event>, p: PendingAuth, l: Login, m: Callback.Encounter)
    requires Sound(w) && tid !in shown.sys.flights && Apart(tid, env) && env(0) == [] && io(0).ok
    requires IsDrawn(w, key) && "consent:" + key in shown.sys.pending
    requires Callback.Identified(w, p, l, m, shown.sys.pending["consent:" + key])
    ensures var n := Consent.EncounterOf(w, Step(w, shown, Start(tid, ConsentRequest(key, action))), tid, io, env);
            var t := Handled(w, shown, tid, ConsentRequest(key, action), io, env).sys;
            && n.popped && n.pending == shown.sys.pending
            && tid in t.flights && t.flights[tid].Done?
            && (Consent.Open(key, n) && action == "approve" && n.put ==> GrantsFor(p, l, t.flights[tid].response, t))
  {
    var n := Consent.EncounterOf(w, Step(w, shown, Start(tid, ConsentRequest(key, action))), tid, io, env);
    var t := Handled(w, shown, tid, ConsentRequest(key, action), io, env).sys;
    EntryKeepsPending(w, shown, tid, ConsentRequest(key, action));
    Consent.ConsentIsAnswered(w, shown, tid, key, action, io, env);
    var i: nat :| key == w.coin(i);
    assert IsHex(key);
    if Consent.Open(key, n) && action == "approve" && n.put {
      ApprovalGrants(w, p, l, m, shown.sys.pending["consent:" + key], key, n, t.flights[tid].response, t);
    }
  }
}
