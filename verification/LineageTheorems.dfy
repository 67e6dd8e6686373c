/** What a lawful trail guarantees. Each theorem is about every trail, so about
    every authorization the server ever accepted. */
module LineageTheorems {
  import opened Basics
  import opened AuthRecords
  import opened Lineage

  // ----- Order and number

  function Approvals(t: Trail): nat {
    match t
    case Origin(_) => 0
    case More(past, f) => Approvals(past) + (if f.Approved? then 1 else 0)
  }

  function Redemptions(t: Trail): nat {
    match t
    case Origin(_) => 0
    case More(past, f) => Redemptions(past) + (if f.Redeemed? then 1 else 0)
  }

  /** Sessions minted by a code exchange, as opposed to a refresh. */
  function ExchangeSessions(t: Trail): nat {
    match t
    case Origin(_) => 0
    case More(past, f) => ExchangeSessions(past) + (if f.Minted? && PhaseOf(past).Exchanging? then 1 else 0)
  }

  function RefreshLineages(t: Trail): nat {
    match t
    case Origin(_) => 0
    case More(past, f) => RefreshLineages(past) + (if f.Issued? then 1 else 0)
  }

  predicate Passed(count: nat, done: bool, over: bool) {
    if over then count <= 1 else count == if done then 1 else 0
  }

  /** How far an authorization has come. */
  function Stage(p: Phase): nat {
    match p
    case AtLogin => 0
    case AtConsent => 0
    case CodeOut => 1
    case Exchanging(_) => 2
    case Exchanged(_) => 3
    case _ => 4
  }

  lemma {:induction false} CountsFollowStage(w: World, t: Trail)
    requires Lawful(w, t)
    ensures var over, n := PhaseOf(t).Over?, Stage(PhaseOf(t));
            && Passed(Approvals(t), n >= 1, over) && Passed(Redemptions(t), n >= 2, over)
            && Passed(ExchangeSessions(t), n >= 3, over) && Passed(RefreshLineages(t), n >= 4, over)
  {
    match t
    case Origin(_) =>
    case More(past, f) => CountsFollowStage(w, past);
  }

  /** One accepted /authorize gives at most one code, one redemption of it, one
      access token by code exchange, and one refresh lineage. */
  lemma AtMostOneOfEach(w: World, t: Trail)
    requires Lawful(w, t)
    ensures Approvals(t) <= 1 && Redemptions(t) <= 1 && ExchangeSessions(t) <= 1 && RefreshLineages(t) <= 1
  {
    CountsFollowStage(w, t);
  }

  lemma {:induction false} WithinIsLawful(w: World, u: Trail, t: Trail)
    requires Lawful(w, t) && Within(u, t)
    ensures Lawful(w, u)
  {
    if u == t {
    } else {
      WithinIsLawful(w, u, t.past);
    }
  }

  /** Once a trail has ended nothing follows: no session, no rotation, no code. */
  lemma {:induction false} NothingAfterTheEnd(w: World, u: Trail, t: Trail)
    requires Lawful(w, t) && Within(u, t) && PhaseOf(u).Over?
    ensures u == t
  {
    if u == t {
    } else {
      NothingAfterTheEnd(w, u, t.past);
    }
  }

  // ----- The code exchange

  /** The whole chain behind a redeemed code: login, consent, redemption, each
      directly before the next, with the bindings of RFC 7636 section 4.6. */
  lemma RedemptionIsBound(w: World, u: Trail, t: Trail)
    requires Lawful(w, t) && Within(u, t) && u.More? && u.fact.Redeemed?
    ensures u.past.More? && u.past.fact.Approved?
    ensures u.past.past.More? && u.past.past.fact.CalledBack?
    ensures u.past.past.fact.visit == LastVisit(u) && LastVisit(u).subject != ""
    ensures u.past.fact.at <= u.fact.at <= u.past.fact.at + 60_000_000_000
    ensures w.challengeOf(u.fact.verifier) == AuthOf(t).codeChallenge
    ensures u.fact.clientID == AuthOf(t).clientID
    ensures u.fact.redirectURI == "" || u.fact.redirectURI == AuthOf(t).redirectURI
  {
    WithinIsLawful(w, u, t);
    SameAuthorization(u, t);
    assert Lawful(w, u.past) && Lawful(w, u.past.past);
    assert LastVisit(u) == LastVisit(u.past) == LastVisit(u.past.past);
  }

  lemma {:induction false} SameAuthorization(u: Trail, t: Trail)
    requires Within(u, t)
    ensures AuthOf(u) == AuthOf(t)
  {
    if u == t {
    } else {
      SameAuthorization(u, t.past);
    }
  }

  lemma {:induction false} LoginPhasesComeFirst(w: World, u: Trail, t: Trail)
    requires Lawful(w, t) && Within(u, t) && Stage(PhaseOf(u)) >= 1
    ensures Stage(PhaseOf(t)) >= 1
  {
    if u == t {
    } else {
      LoginPhasesComeFirst(w, u, t.past);
    }
  }

  /** From the moment there is a code, who logged in and with what Cognito
      ciphertext never changes again. */
  lemma {:induction false} IdentityIsFrozen(w: World, u: Trail, t: Trail)
    requires Lawful(w, t) && Within(u, t) && Stage(PhaseOf(u)) >= 1
    ensures LastVisit(t) == LastVisit(u)
  {
    if u == t {
    } else {
      LoginPhasesComeFirst(w, u, t.past);
      IdentityIsFrozen(w, u, t.past);
    }
  }

  // ----- Sessions

  /** A session is minted by the handler that has just redeemed the code, for the
      user of the last callback; or by the handler whose Cognito refresh, with
      the ciphertext of that callback, has just succeeded. */
  lemma SessionFollowsProof(w: World, u: Trail, t: Trail)
    requires Lawful(w, t) && Within(u, t) && u.More? && u.fact.Minted?
    ensures u.past.More? && (u.past.fact.Redeemed? || u.past.fact.Renewed?)
    ensures u.past.fact.tid == u.fact.tid
    ensures u.past.fact.Redeemed? ==>
              SessionIs(u.fact.session, LastVisit(u).subject, LastVisit(u).email, LastVisit(u).orgs)
    ensures u.past.fact.Renewed? ==>
              && u.past.fact.ciphertext == LastVisit(t).cognitoRefreshEnc
              && SessionIs(u.fact.session, u.past.fact.subject, u.past.fact.email, u.past.fact.orgs)
              && u.past.past.More? && u.past.past.fact.Presented? && u.past.past.fact.tid == u.fact.tid
  {
    WithinIsLawful(w, u, t);
    ExchangingIsRedeemed(u.past);
    if u.past.fact.Renewed? {
      CheckedIsPresented(u.past.past);
      IdentityIsFrozen(w, u.past, t) by {
        WithinTransitive(u.past, u, t);
      }
    }
  }

  lemma ExchangingIsRedeemed(t: Trail)
    ensures PhaseOf(t).Exchanging? ==> t.More? && t.fact.Redeemed? && PhaseOf(t).tid == t.fact.tid
  {
  }

  lemma CheckedIsPresented(t: Trail)
    ensures PhaseOf(t).Checked? ==> t.More? && t.fact.Presented? && PhaseOf(t).tid == t.fact.tid
  {
  }

  lemma {:induction false} WithinTransitive(a: Trail, b: Trail, c: Trail)
    requires Within(a, b) && Within(b, c)
    ensures Within(a, c)
  {
    if b == c {
    } else {
      WithinTransitive(a, b, c.past);
    }
  }

  // ----- Refreshes

  /** The fact that fixed the deadline. */
  function IssueOf(t: Trail): Trail
    ensures Within(IssueOf(t), t)
    ensures DeadlineOf(t).Some? ==>
              IssueOf(t).More? && IssueOf(t).fact.Issued? && Some(IssueOf(t).fact.deadline) == DeadlineOf(t)
  {
    match t
    case Origin(_) => t
    case More(past, f) => if f.Issued? then t else if DeadlineOf(past).Some? then IssueOf(past) else t
  }

  /** Every accepted refresh, after any number of rotations, is checked within 30
      days of the code exchange, for the same client, with the key last issued. */
  lemma RefreshWithinDeadline(w: World, u: Trail, t: Trail)
    requires Lawful(w, t) && Within(u, t) && u.More? && u.fact.Presented?
    ensures IssueOf(u.past).More? && IssueOf(u.past).fact.Issued?
    ensures u.fact.at <= IssueOf(u.past).fact.at + 2_592_000_000_000_000
    ensures u.fact.key == RefreshKeyOf(u.past)
    ensures u.fact.clientID == "" || u.fact.clientID == AuthOf(t).clientID
    ensures IssueOf(u.past).past.More? && IssueOf(u.past).past.fact.Minted?
  {
    WithinIsLawful(w, u, t);
    WithinIsLawful(w, IssueOf(u.past), u.past);
    SameAuthorization(u, t);
    ExchangedIsMinted(IssueOf(u.past).past);
  }

  lemma ExchangedIsMinted(t: Trail)
    ensures PhaseOf(t).Exchanged? ==> t.More? && t.fact.Minted?
  {
  }

  /** The deadline, once fixed, never moves. */
  lemma {:induction false} DeadlineIsAbsolute(w: World, u: Trail, t: Trail)
    requires Lawful(w, t) && Within(u, t) && DeadlineOf(u).Some?
    ensures DeadlineOf(t) == DeadlineOf(u)
  {
    WithinIsLawful(w, u, t);
    DeadlineMeansIssued(w, u);
    if u == t {
    } else {
      DeadlineIsAbsolute(w, u, t.past);
      DeadlineMeansIssued(w, t.past);
    }
  }

  lemma {:induction false} DeadlineMeansIssued(w: World, t: Trail)
    requires Lawful(w, t)
    ensures DeadlineOf(t).Some? ==> Stage(PhaseOf(t)) == 4
  {
    match t
    case Origin(_) =>
    case More(past, f) => DeadlineMeansIssued(w, past);
  }

  // ----- Organizations

  /** The organizations of the latest lookup that succeeded, over the whole life
      of the authorization. */
  function LastLookup(t: Trail): seq<string> {
    match t
    case Origin(_) => []
    case More(past, f) =>
      if (f.CalledBack? || f.Renewed?) && f.lookup.Some? then f.lookup.value else LastLookup(past)
  }

  /** A second callback's failed lookup discarded organizations that an earlier
      one had found, and no refresh has looked them up again since. */
  predicate Overruled(t: Trail) {
    match t
    case Origin(_) => false
    case More(past, f) =>
      if f.CalledBack? then f.lookup.None? && LastLookup(past) != []
      else if f.Renewed? then f.lookup.None? && Overruled(past)
      else Overruled(past)
  }

  /** The session's organizations are those of the latest successful lookup,
      except exactly when a repeated callback overruled it. */
  lemma {:induction false} OrgsFollowLastLookup(t: Trail)
    ensures OrgsOf(t) == LastLookup(t) <==> !Overruled(t)
  {
    match t
    case Origin(_) =>
    case More(past, f) => OrgsFollowLastLookup(past);
  }

  function Callbacks(t: Trail): nat {
    match t
    case Origin(_) => 0
    case More(past, f) => Callbacks(past) + (if f.CalledBack? then 1 else 0)
  }

  /** With a single callback the organizations never deviate. */
  lemma {:induction false} OneCallbackIsNeverOverruled(w: World, t: Trail)
    requires Lawful(w, t)
    ensures Callbacks(t) == 0 ==> LastLookup(t) == [] && PhaseOf(t) in {AtLogin, Over}
    ensures Callbacks(t) <= 1 ==> !Overruled(t)
  {
    match t
    case Origin(_) =>
    case More(past, f) => OneCallbackIsNeverOverruled(w, past);
  }
}
