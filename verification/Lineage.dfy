/** What may happen to one accepted /authorize, from the Cognito hop to the last
    refresh. A trail is the history of one authorization, oldest fact innermost;
    Lawful is the protocol it must follow, written without reference to tables
    or handlers. */
module Lineage {
  import opened Basics
  import opened AuthRecords

  /** Where the one live record of an authorization is. */
  datatype Place =
    | PendingAt(key: string)
    | CodeAt(code: string)
    | RefreshAt(key: string)
    | InHand(tid: nat)

  datatype Reason =
    | Expired | Mismatch | BadProof | Upstream | Undecryptable | StoreFailed
    | Unregistered | Denied | Revoked | NoRefresh | Reaped

  datatype AuthFact = AuthFact(
    clientID: string, redirectURI: string, codeChallenge: string, originalState: string, scope: string)

  datatype Visit = Visit(subject: string, email: string, orgs: seq<string>, cognitoRefreshEnc: string)

  datatype Fact =
    | CalledBack(visit: Visit, lookup: Option<seq<string>>)
    | Approved(code: string, at: int)
    | Redeemed(tid: nat, verifier: string, clientID: string, redirectURI: string, at: int)
    | Minted(tid: nat, key: string, session: Session)
    | Issued(tid: nat, key: string, at: int, deadline: int)
    | Presented(tid: nat, key: string, clientID: string, at: int)
    | Renewed(tid: nat, ciphertext: string, subject: string, claimed: string, email: string, orgs: seq<string>,
              lookup: Option<seq<string>>)
    | Rotated(tid: nat, key: string)
    | Ended(reason: Reason)

  datatype Trail = Origin(auth: AuthFact) | More(past: Trail, fact: Fact)

  /** What one step does to places and trails. */
  datatype Move =
    | Stay
    | Open(to: Place, auth: AuthFact)
    | Shift(from: Place, to: Place, note: Option<Fact>)
    | Note(at: Place, fact: Fact)
    | Close(from: Place, reason: Reason)

  datatype Phase =
    | AtLogin
    | AtConsent
    | CodeOut
    | Exchanging(tid: nat)
    | Exchanged(tid: nat)
    | Live
    | Checked(tid: nat)
    | Reauthenticated(tid: nat)
    | Reminted(tid: nat)
    | Over

  function PhaseOf(t: Trail): Phase {
    match t
    case Origin(_) => AtLogin
    case More(past, f) =>
      match f
      case CalledBack(_, _) => AtConsent
      case Approved(_, _) => CodeOut
      case Redeemed(tid, _, _, _, _) => Exchanging(tid)
      case Minted(tid, _, _) => if PhaseOf(past).Exchanging? then Exchanged(tid) else Reminted(tid)
      case Issued(_, _, _, _) => Live
      case Presented(tid, _, _, _) => Checked(tid)
      case Renewed(tid, _, _, _, _, _, _) => Reauthenticated(tid)
      case Rotated(_, _) => Live
      case Ended(_) => Over
  }

  function AuthOf(t: Trail): AuthFact {
    match t
    case Origin(auth) => auth
    case More(past, _) => AuthOf(past)
  }

  /** What the last callback recorded. */
  function LastVisit(t: Trail): Visit {
    match t
    case Origin(_) => Visit("", "", [], "")
    case More(past, f) => if f.CalledBack? then f.visit else LastVisit(past)
  }

  /** The organizations the authorization currently stands for. */
  function OrgsOf(t: Trail): seq<string> {
    match t
    case Origin(_) => []
    case More(past, f) =>
      if f.CalledBack? then f.lookup.GetOr([])
      else if f.Renewed? then f.lookup.GetOr(OrgsOf(past))
      else OrgsOf(past)
  }

  /** The user of the last callback or the last refresh Cognito accepted. */
  function SubjectOf(t: Trail): string {
    match t
    case Origin(_) => ""
    case More(past, f) =>
      if f.CalledBack? then f.visit.subject else if f.Renewed? then f.subject else SubjectOf(past)
  }

  function EmailOf(t: Trail): string {
    match t
    case Origin(_) => ""
    case More(past, f) => if f.CalledBack? then f.visit.email else if f.Renewed? then f.email else EmailOf(past)
  }

  /** Whom the authorization stands for at the end of the trail. */
  predicate StandsFor(t: Trail, subject: string, email: string, orgs: seq<string>) {
    subject == SubjectOf(t) && email == EmailOf(t) && orgs == OrgsOf(t)
  }

  /** The absolute deadline fixed by the code exchange. */
  function DeadlineOf(t: Trail): Option<int> {
    match t
    case Origin(_) => None
    case More(past, f) => if f.Issued? then Some(f.deadline) else DeadlineOf(past)
  }

  function RefreshKeyOf(t: Trail): string {
    match t
    case Origin(_) => ""
    case More(past, f) => if f.Issued? || f.Rotated? then f.key else RefreshKeyOf(past)
  }

  predicate SessionIs(s: Session, subject: string, email: string, orgs: seq<string>) {
    s.subject == subject && s.email == email && s.orgs == orgs && s.expiresAt == s.createdAt + ACCESS_TOKEN_TTL
  }

  /** May fact f happen next on trail t? */
  ghost predicate Allowed(w: World, t: Trail, f: Fact) {
    match f
    case CalledBack(v, lookup) =>
      (PhaseOf(t).AtLogin? || PhaseOf(t).AtConsent?) && v.subject != "" && v.orgs == lookup.GetOr([])
    case Approved(_, _) => PhaseOf(t).AtConsent?
    case Redeemed(_, verifier, clientID, redirectURI, at) =>
      && t.More? && t.fact.Approved?
      && t.fact.at <= at <= t.fact.at + AUTH_CODE_TTL
      && verifier != "" && w.challengeOf(verifier) == AuthOf(t).codeChallenge
      && clientID == AuthOf(t).clientID
      && (redirectURI == "" || redirectURI == AuthOf(t).redirectURI)
    case Minted(tid, _, session) =>
      || (PhaseOf(t) == Exchanging(tid)
          && SessionIs(session, LastVisit(t).subject, LastVisit(t).email, LastVisit(t).orgs))
      || (t.More? && t.fact.Renewed? && t.fact.tid == tid
          && SessionIs(session, t.fact.subject, t.fact.email, t.fact.orgs))
    case Issued(tid, _, at, deadline) =>
      && PhaseOf(t) == Exchanged(tid)
      && LastVisit(t).cognitoRefreshEnc != ""
      && at + REFRESH_TOKEN_TTL - w.grain < deadline <= at + REFRESH_TOKEN_TTL
    case Presented(_, key, clientID, at) =>
      && PhaseOf(t) == Live
      && key == RefreshKeyOf(t)
      && DeadlineOf(t).Some? && at <= DeadlineOf(t).value
      && (clientID == "" || clientID == AuthOf(t).clientID)
    case Renewed(tid, ciphertext, subject, claimed, email, orgs, lookup) =>
      && PhaseOf(t) == Checked(tid)
      && ciphertext == LastVisit(t).cognitoRefreshEnc
      && subject != ""
      && email == (if claimed == "" then EmailOf(t) else claimed)
      && orgs == lookup.GetOr(OrgsOf(t))
    case Rotated(tid, _) => PhaseOf(t) == Reminted(tid)
    case Ended(_) => PhaseOf(t) != Over
  }

  ghost predicate Lawful(w: World, t: Trail) {
    match t
    case Origin(_) => true
    case More(past, f) => Lawful(w, past) && Allowed(w, past, f)
  }

  /** u is t at some earlier moment, or t itself. */
  predicate Within(u: Trail, t: Trail) {
    u == t || (t.More? && Within(u, t.past))
  }
}
