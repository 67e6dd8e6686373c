/** Every atomic step keeps the invariant of AuthAudit. */
module AuthSafety {
  import opened Basics
  import opened Redirects
  import opened AuthRecords
  import opened Lineage
  import opened AuthSteps
  import opened AuthAudit

  // ----- The ledger, for any well-behaved move

  predicate Touches(m: Move, p: Place) {
    match m
    case Stay => false
    case Open(to, _) => p == to
    case Shift(from, to, _) => p == from || p == to
    case Note(at, _) => p == at
    case Close(from, _) => p == from
  }

  /** The move names a record that is on the ledger and a place that is free. */
  predicate Fits(a: Audit, m: Move) {
    match m
    case Stay => true
    case Open(to, _) => to !in a.at
    case Shift(from, to, _) => from in a.at && a.at[from] < |a.trails| && to !in a.at
    case Note(at, _) => at in a.at && a.at[at] < |a.trails|
    case Close(from, _) => from in a.at && a.at[from] < |a.trails|
  }

  /** Tables and handlers change where the move says, and nowhere else. */
  ghost predicate Tracks(s: Sys, hand: Place, m: Move, s': Sys) {
    && (forall p | p != hand && !Touches(m, p) :: ContentAt(s', p) == ContentAt(s, p))
    && (!Touches(m, hand) ==> (ContentAt(s', hand) == Nothing <==> ContentAt(s, hand) == Nothing))
    && match m
       case Stay => true
       case Open(to, _) => ContentAt(s', to) != Nothing
       case Shift(from, to, _) => ContentAt(s', from) == Nothing && ContentAt(s', to) != Nothing
       case Note(at, _) => ContentAt(s', at) != Nothing
       case Close(from, _) => ContentAt(s', from) == Nothing
  }

  function NoteOf(m: Move): Option<Fact> {
    match m
    case Shift(_, _, note) => note
    case Note(_, f) => Some(f)
    case Close(_, reason) => Some(Ended(reason))
    case _ => None
  }

  function SourceOf(m: Move, hand: Place): Place {
    match m
    case Shift(from, _, _) => from
    case Note(at, _) => at
    case Close(from, _) => from
    case _ => hand
  }

  /** Where the record is afterwards, if it still is anywhere. */
  function TargetOf(m: Move, hand: Place): Option<Place> {
    match m
    case Stay => Some(hand)
    case Open(to, _) => Some(to)
    case Shift(_, to, _) => Some(to)
    case Note(at, _) => Some(at)
    case Close(_, _) => None
  }

  function TrailAt(a: Audit, p: Place): Trail
    requires p in a.at && a.at[p] < |a.trails|
  {
    a.trails[a.at[p]]
  }

  /** The fact the move notes is one the protocol allows there. */
  ghost predicate Permitted(w: World, a: Audit, m: Move, hand: Place)
    requires Fits(a, m)
  {
    NoteOf(m).Some? ==> Allowed(w, TrailAt(a, SourceOf(m, hand)), NoteOf(m).value)
  }

  lemma LinearKept(a: Audit, m: Move)
    requires Linear(a) && Fits(a, m)
    ensures Linear(Apply(a, m))
  {
  }

  lemma LawfulKept(w: World, a: Audit, m: Move, hand: Place)
    requires AllLawful(w, a) && Fits(a, m) && Permitted(w, a, m, hand)
    ensures AllLawful(w, Apply(a, m))
  {
    var b := Apply(a, m);
    forall r | 0 <= r < |b.trails|
      ensures Lawful(w, b.trails[r])
    {
      if r < |a.trails| && b.trails[r] != a.trails[r] {
        assert b.trails[r] == More(a.trails[r], NoteOf(m).value);
      }
    }
  }

  lemma LedgerKept(s: State, hand: Place, o: Outcome)
    requires Ledger(s) && Fits(s.audit, o.move) && Tracks(s.sys, hand, o.move, o.sys)
    ensures Ledger(Land(s, o))
  {
    var s' := Land(s, o);
    forall p
      ensures p in s'.audit.at <==> ContentAt(s'.sys, p) != Nothing
    {
      assert p in s.audit.at <==> ContentAt(s.sys, p) != Nothing;
    }
  }

  /** Time passing does not disturb a record. */
  lemma CarriesLater(w: World, p: Place, c: Content, t: Trail, now: int, later: int)
    requires Carries(w, p, c, t, now) && now <= later
    ensures Carries(w, p, c, t, later)
  {
  }

  /** A place that the move leaves alone still sits on its own, unchanged trail. */
  lemma BystanderSits(w: World, s: State, hand: Place, o: Outcome, p: Place)
    requires Linear(s.audit) && Fits(s.audit, o.move) && Sits(w, s, p)
    requires ContentAt(o.sys, p) == ContentAt(s.sys, p) && s.sys.now <= o.sys.now
    requires !Touches(o.move, p)
    ensures Sits(w, Land(s, o), p)
  {
    assert TrailAt(Apply(s.audit, o.move), p) == TrailAt(s.audit, p);
    CarriesLater(w, p, ContentAt(s.sys, p), TrailAt(s.audit, p), s.sys.now, o.sys.now);
  }

  /** Everything one step owes the ledger. */
  ghost predicate Proper(w: World, s: State, hand: Place, o: Outcome) {
    && Fits(s.audit, o.move)
    && Tracks(s.sys, hand, o.move, o.sys)
    && s.sys.now <= o.sys.now
    && Permitted(w, s.audit, o.move, hand)
    && (hand in s.audit.at ==> Touches(o.move, hand) || o.move.Stay?)
    && var a := Apply(s.audit, o.move);
    && var to := TargetOf(o.move, hand);
    && (to.Some? && to.value in a.at ==> Sits(w, State(o.sys, a), to.value))
  }

  lemma PlaceSits(w: World, s: State, hand: Place, o: Outcome, p: Place)
    requires Linear(s.audit) && Proper(w, s, hand, o)
    requires p in Apply(s.audit, o.move).at && (p in s.audit.at ==> Sits(w, s, p))
    ensures Sits(w, Land(s, o), p)
  {
    if TargetOf(o.move, hand) != Some(p) {
      BystanderSits(w, s, hand, o, p);
    }
  }

  lemma ProperKeepsCore(w: World, s: State, hand: Place, o: Outcome)
    requires Core(w, s) && Proper(w, s, hand, o)
    ensures Core(w, Land(s, o))
  {
    LinearKept(s.audit, o.move);
    LawfulKept(w, s.audit, o.move, hand);
    LedgerKept(s, hand, o);
    forall p | p in Apply(s.audit, o.move).at
      ensures Sits(w, Land(s, o), p)
    {
      PlaceSits(w, s, hand, o, p);
    }
  }

  // ----- Fresh keys

  lemma HexIsNotConsentKey(key: string)
    requires IsHex(key)
    ensures !IsConsentKey(key)
  {
    assert !IsHexDigit(CONSENT_PREFIX[1]);
    if |key| > 1 {
      assert IsHexDigit(key[1]);
    }
  }

  lemma PrefixCancels(prefix: string, a: string, b: string)
    requires prefix + a == prefix + b
    ensures a == b
  {
    assert (prefix + a)[|prefix|..] == a;
    assert (prefix + b)[|prefix|..] == b;
  }

  // ----- Each handler's steps

  predicate OneChanged<V(==)>(m: map<string, V>, m': map<string, V>, k: string) {
    m' == m - {k} || (k in m' && m' == m[k := m'[k]])
  }

  /** A step changes its own handler and at most the one stored place it names. */
  lemma OnlyTouched(s: Sys, s': Sys, tid: nat, place: Place)
    requires tid in s'.flights && s'.flights == s.flights[tid := s'.flights[tid]]
    requires s'.pending == s.pending || (place.PendingAt? && OneChanged(s.pending, s'.pending, place.key))
    requires s'.codes == s.codes || (place.CodeAt? && OneChanged(s.codes, s'.codes, place.code))
    requires s'.refresh == s.refresh || (place.RefreshAt? && OneChanged(s.refresh, s'.refresh, place.key))
    ensures forall p | p != InHand(tid) && p != place :: ContentAt(s', p) == ContentAt(s, p)
  {
  }

  /** The ledger's entry for one place, as the handler finds it. */
  ghost predicate Known(w: World, s: State, p: Place) {
    if ContentAt(s.sys, p) == Nothing then p !in s.audit.at else Sits(w, s, p)
  }

  lemma CoreKnows(w: World, s: State, p: Place)
    requires Core(w, s)
    ensures Known(w, s, p)
  {
    assert p in s.audit.at <==> ContentAt(s.sys, p) != Nothing;
  }

  predicate SameTables(s: Sys, s': Sys) {
    s'.pending == s.pending && s'.codes == s.codes && s'.refresh == s.refresh
  }

  /** From s to s', handler tid moves to program point f. */
  predicate Moves(s: Sys, s': Sys, tid: nat, f: Flight) {
    s'.flights == s.flights[tid := f] && s.now <= s'.now
  }

  lemma IdleProper(w: World, s: State, tid: nat, o: Outcome, f: Flight)
    requires Known(w, s, InHand(tid)) && ContentAt(s.sys, InHand(tid)) == Nothing && !Holding(f)
    requires o.move == Stay && SameTables(s.sys, o.sys) && Moves(s.sys, o.sys, tid, f)
    ensures Proper(w, s, InHand(tid), o)
  {
    OnlyTouched(s.sys, o.sys, tid, InHand(tid));
  }

  lemma HolderStays(w: World, s: State, tid: nat, o: Outcome, f: Flight)
    requires Sits(w, s, InHand(tid)) && ContentAt(s.sys, InHand(tid)) != Nothing
    requires o.move == Stay && SameTables(s.sys, o.sys) && Moves(s.sys, o.sys, tid, f)
    requires Holding(f) && FlightCarries(w, tid, f, TrailAt(s.audit, InHand(tid)), o.sys.now)
    ensures Proper(w, s, InHand(tid), o)
  {
    OnlyTouched(s.sys, o.sys, tid, InHand(tid));
  }

  lemma HolderNotes(w: World, s: State, tid: nat, o: Outcome, f: Flight, fact: Fact)
    requires Sits(w, s, InHand(tid))
    requires o.move == Note(InHand(tid), fact) && SameTables(s.sys, o.sys) && Moves(s.sys, o.sys, tid, f)
    requires Allowed(w, TrailAt(s.audit, InHand(tid)), fact)
    requires Holding(f) && FlightCarries(w, tid, f, More(TrailAt(s.audit, InHand(tid)), fact), o.sys.now)
    ensures Proper(w, s, InHand(tid), o)
  {
    OnlyTouched(s.sys, o.sys, tid, InHand(tid));
  }

  lemma HolderEnds(w: World, s: State, tid: nat, o: Outcome, f: Flight, reason: Reason)
    requires Sits(w, s, InHand(tid)) && PhaseOf(TrailAt(s.audit, InHand(tid))) != Over
    requires o.move == Close(InHand(tid), reason) && SameTables(s.sys, o.sys) && Moves(s.sys, o.sys, tid, f)
    requires !Holding(f)
    ensures Proper(w, s, InHand(tid), o)
  {
    OnlyTouched(s.sys, o.sys, tid, InHand(tid));
  }

  /** A pop: the record leaves its table and is in the handler's hands. */
  lemma PopProper(w: World, s: State, tid: nat, o: Outcome, f: Flight, from: Place)
    requires Known(w, s, InHand(tid)) && ContentAt(s.sys, InHand(tid)) == Nothing
    requires from != InHand(tid) && Sits(w, s, from) && ContentAt(o.sys, from) == Nothing
    requires o.move == Shift(from, InHand(tid), None) && Moves(s.sys, o.sys, tid, f)
    requires forall p | p != InHand(tid) && p != from :: ContentAt(o.sys, p) == ContentAt(s.sys, p)
    requires ContentAt(o.sys, InHand(tid)) == OfFlight(f)
    requires Carries(w, InHand(tid), OfFlight(f), TrailAt(s.audit, from), o.sys.now)
    ensures Proper(w, s, InHand(tid), o)
  {
  }

  /** A put: the record goes from the handler's hands to a free key. */
  lemma PutProper(w: World, s: State, tid: nat, o: Outcome, f: Flight, to: Place, fact: Fact)
    requires Sits(w, s, InHand(tid)) && !Holding(f)
    requires to != InHand(tid) && Known(w, s, to) && ContentAt(s.sys, to) == Nothing
    requires o.move == Shift(InHand(tid), to, Some(fact)) && Moves(s.sys, o.sys, tid, f)
    requires forall p | p != InHand(tid) && p != to :: ContentAt(o.sys, p) == ContentAt(s.sys, p)
    requires Allowed(w, TrailAt(s.audit, InHand(tid)), fact) && ContentAt(o.sys, to) != Nothing
    requires Carries(w, to, ContentAt(o.sys, to), More(TrailAt(s.audit, InHand(tid)), fact), o.sys.now)
    ensures Proper(w, s, InHand(tid), o)
  {
  }

  lemma OpenProper(w: World, s: State, tid: nat, o: Outcome, f: Flight, to: Place, auth: AuthFact)
    requires Known(w, s, InHand(tid)) && ContentAt(s.sys, InHand(tid)) == Nothing && !Holding(f)
    requires to != InHand(tid) && Known(w, s, to) && ContentAt(s.sys, to) == Nothing
    requires o.move == Open(to, auth) && Moves(s.sys, o.sys, tid, f)
    requires forall p | p != InHand(tid) && p != to :: ContentAt(o.sys, p) == ContentAt(s.sys, p)
    requires ContentAt(o.sys, to) != Nothing && Carries(w, to, ContentAt(o.sys, to), Origin(auth), o.sys.now)
    ensures Proper(w, s, InHand(tid), o)
  {
  }

  /** A record is never that of an authorization that is over. */
  lemma StoredIsOpen(w: World, s: State, p: Place)
    requires Sits(w, s, p)
    ensures PhaseOf(TrailAt(s.audit, p)) != Over
  {
  }

  lemma StoredEnds(w: World, s: State, hand: Place, o: Outcome, p: Place, reason: Reason)
    requires Sits(w, s, p) && !p.InHand? && hand.InHand?
    requires Known(w, s, hand) && ContentAt(s.sys, hand) == Nothing == ContentAt(o.sys, hand)
    requires o.move == Close(p, reason) && ContentAt(o.sys, p) == Nothing && s.sys.now <= o.sys.now
    requires forall q | q != hand && q != p :: ContentAt(o.sys, q) == ContentAt(s.sys, q)
    ensures Proper(w, s, hand, o)
  {
    StoredIsOpen(w, s, p);
  }

  // ----- Effects the ledger can follow

  /** The write leaves pending entries, codes and refresh tokens alone. */
  predicate Quietly(wr: Write) {
    wr.NoWrite? || wr.PutClient? || wr.PutSession? || wr.DelSession?
  }

  /** Where a put goes, and what is there afterwards. */
  function PutAt(wr: Write): Option<(Place, Content)> {
    match wr
    case PutPending(k, p) => Some((PendingAt(k), OfPending(p)))
    case PutCode(c) => Some((CodeAt(c.code), OfCode(c)))
    case PutRefresh(rt) => Some((RefreshAt(rt.hashedToken), OfRefresh(rt)))
    case _ => None
  }

  function DelAt(p: Place): Write {
    match p
    case PendingAt(k) => DelPending(k)
    case CodeAt(code) => DelCode(code)
    case RefreshAt(k) => DelRefresh(k)
    case InHand(_) => NoWrite
  }

  ghost predicate HasRecord(w: World, s: State, p: Place) {
    ContentAt(s.sys, p) != Nothing && Sits(w, s, p)
  }

  ghost predicate IsFree(s: State, p: Place) {
    ContentAt(s.sys, p) == Nothing && p !in s.audit.at
  }

  /** The effect of a step of request tid, before any table is touched: what
      moves is there, where it goes is free, and it agrees with its trail. */
  ghost predicate Decent(w: World, s: State, tid: nat, e: Effect) {
    var hand, now := InHand(tid), s.sys.now;
    match e.move
    case Stay =>
      Quietly(e.write)
      && (if Holding(e.next) then HasRecord(w, s, hand) && FlightCarries(w, tid, e.next, TrailAt(s.audit, hand), now)
          else IsFree(s, hand))
    case Open(to, auth) =>
      && IsFree(s, hand) && !Holding(e.next) && to != hand && IsFree(s, to)
      && PutAt(e.write).Some? && PutAt(e.write).value.0 == to
      && Carries(w, to, PutAt(e.write).value.1, Origin(auth), now)
    case Note(at, fact) =>
      && at == hand && HasRecord(w, s, hand) && Quietly(e.write) && Holding(e.next)
      && Allowed(w, TrailAt(s.audit, hand), fact)
      && FlightCarries(w, tid, e.next, More(TrailAt(s.audit, hand), fact), now)
    case Close(from, _) =>
      && !Holding(e.next) && HasRecord(w, s, from)
      && (if from == hand then Quietly(e.write) else !from.InHand? && IsFree(s, hand) && e.write == DelAt(from))
    case Shift(from, to, note) =>
      if to == hand then
        && note == None && !from.InHand? && IsFree(s, hand) && HasRecord(w, s, from) && e.write == DelAt(from)
        && Holding(e.next) && FlightCarries(w, tid, e.next, TrailAt(s.audit, from), now)
      else
        && from == hand && note.Some? && !Holding(e.next) && HasRecord(w, s, hand) && IsFree(s, to)
        && PutAt(e.write).Some? && PutAt(e.write).value.0 == to
        && Allowed(w, TrailAt(s.audit, hand), note.value)
        && Carries(w, to, PutAt(e.write).value.1, More(TrailAt(s.audit, hand), note.value), now)
  }

  lemma QuietWrite(s: Sys, tid: nat, e: Effect)
    requires Quietly(e.write)
    ensures var s' := Perform(s, tid, e).sys; SameTables(s, s') && Moves(s, s', tid, e.next)
  {
  }

  lemma PutWrite(s: Sys, tid: nat, e: Effect, to: Place, c: Content)
    requires PutAt(e.write) == Some((to, c))
    ensures var s' := Perform(s, tid, e).sys;
            && Moves(s, s', tid, e.next) && ContentAt(s', to) == c
            && forall p | p != InHand(tid) && p != to :: ContentAt(s', p) == ContentAt(s, p)
  {
    OnlyTouched(s, Perform(s, tid, e).sys, tid, to);
  }

  lemma DelWrite(s: Sys, tid: nat, e: Effect, from: Place)
    requires e.write == DelAt(from) && !from.InHand?
    ensures var s' := Perform(s, tid, e).sys;
            && Moves(s, s', tid, e.next) && ContentAt(s', from) == Nothing
            && forall p | p != InHand(tid) && p != from :: ContentAt(s', p) == ContentAt(s, p)
  {
    OnlyTouched(s, Perform(s, tid, e).sys, tid, from);
  }

  lemma WriteKeepsFlights(s: Sys, wr: Write)
    ensures Written(s, wr).flights == s.flights
  {
  }

  lemma TakenInHand(w: World, s: Sys, tid: nat, f: Flight, t: Trail)
    requires tid in s.flights && s.flights[tid] == f && Holding(f) && FlightCarries(w, tid, f, t, s.now)
    ensures ContentAt(s, InHand(tid)) == OfFlight(f) && Carries(w, InHand(tid), OfFlight(f), t, s.now)
  {
  }

  lemma DecentStayIsProper(w: World, s: State, tid: nat, e: Effect)
    requires Decent(w, s, tid, e) && e.move.Stay?
    ensures Proper(w, s, InHand(tid), Perform(s.sys, tid, e))
  {
    QuietWrite(s.sys, tid, e);
    if Holding(e.next) {
      HolderStays(w, s, tid, Perform(s.sys, tid, e), e.next);
    } else {
      IdleProper(w, s, tid, Perform(s.sys, tid, e), e.next);
    }
  }

  lemma DecentNoteIsProper(w: World, s: State, tid: nat, e: Effect)
    requires Decent(w, s, tid, e) && e.move.Note?
    ensures Proper(w, s, InHand(tid), Perform(s.sys, tid, e))
  {
    QuietWrite(s.sys, tid, e);
    HolderNotes(w, s, tid, Perform(s.sys, tid, e), e.next, e.move.fact);
  }

  lemma DecentCloseIsProper(w: World, s: State, tid: nat, e: Effect)
    requires Decent(w, s, tid, e) && e.move.Close?
    ensures Proper(w, s, InHand(tid), Perform(s.sys, tid, e))
  {
    var o := Perform(s.sys, tid, e);
    if e.move.from == InHand(tid) {
      QuietWrite(s.sys, tid, e);
      StoredIsOpen(w, s, InHand(tid));
      HolderEnds(w, s, tid, o, e.next, e.move.reason);
    } else {
      DelWrite(s.sys, tid, e, e.move.from);
      StoredEnds(w, s, InHand(tid), o, e.move.from, e.move.reason);
    }
  }

  lemma DecentOpenIsProper(w: World, s: State, tid: nat, e: Effect)
    requires Decent(w, s, tid, e) && e.move.Open?
    ensures Proper(w, s, InHand(tid), Perform(s.sys, tid, e))
  {
    PutWrite(s.sys, tid, e, e.move.to, PutAt(e.write).value.1);
    OpenProper(w, s, tid, Perform(s.sys, tid, e), e.next, e.move.to, e.move.auth);
  }

  lemma DecentShiftIsProper(w: World, s: State, tid: nat, e: Effect)
    requires Decent(w, s, tid, e) && e.move.Shift?
    ensures Proper(w, s, InHand(tid), Perform(s.sys, tid, e))
  {
    var o := Perform(s.sys, tid, e);
    if e.move.to == InHand(tid) {
      DelWrite(s.sys, tid, e, e.move.from);
      TakenInHand(w, o.sys, tid, e.next, TrailAt(s.audit, e.move.from));
      PopProper(w, s, tid, o, e.next, e.move.from);
    } else {
      PutWrite(s.sys, tid, e, e.move.to, PutAt(e.write).value.1);
      PutProper(w, s, tid, o, e.next, e.move.to, e.move.note.value);
    }
  }

  /** A decent effect keeps the ledger. */
  lemma DecentIsProper(w: World, s: State, tid: nat, e: Effect)
    requires Decent(w, s, tid, e)
    ensures Proper(w, s, InHand(tid), Perform(s.sys, tid, e))
  {
    match e.move {
      case Stay => DecentStayIsProper(w, s, tid, e);
      case Open(_, _) => DecentOpenIsProper(w, s, tid, e);
      case Shift(_, _, _) => DecentShiftIsProper(w, s, tid, e);
      case Note(_, _) => DecentNoteIsProper(w, s, tid, e);
      case Close(_, _) => DecentCloseIsProper(w, s, tid, e);
    }
  }

  // ----- The shapes a decent effect comes in

  /** A handler without a record goes on without one. */
  lemma GoOn(w: World, s: State, tid: nat, e: Effect)
    requires IsFree(s, InHand(tid)) && e.move == Stay && Quietly(e.write) && !Holding(e.next)
    ensures Decent(w, s, tid, e)
  {
  }

  lemma KeepHolding(w: World, s: State, tid: nat, f: Flight)
    requires HasRecord(w, s, InHand(tid)) && Holding(f)
    requires FlightCarries(w, tid, f, TrailAt(s.audit, InHand(tid)), s.sys.now)
    ensures Decent(w, s, tid, Quiet(f))
  {
  }

  /** A handler with a record gives it up. */
  lemma GiveUp(w: World, s: State, tid: nat, e: Effect, reason: Reason)
    requires HasRecord(w, s, InHand(tid)) && e.move == Close(InHand(tid), reason)
    requires Quietly(e.write) && !Holding(e.next)
    ensures Decent(w, s, tid, e)
  {
  }

  lemma PopDecent(w: World, s: State, tid: nat, e: Effect, from: Place)
    requires IsFree(s, InHand(tid)) && !from.InHand? && HasRecord(w, s, from)
    requires e.move == Shift(from, InHand(tid), None) && e.write == DelAt(from)
    requires Holding(e.next) && FlightCarries(w, tid, e.next, TrailAt(s.audit, from), s.sys.now)
    ensures Decent(w, s, tid, e)
  {
  }

  lemma NoteDecent(w: World, s: State, tid: nat, e: Effect, fact: Fact)
    requires HasRecord(w, s, InHand(tid)) && e.move == Note(InHand(tid), fact)
    requires Quietly(e.write) && Holding(e.next) && Allowed(w, TrailAt(s.audit, InHand(tid)), fact)
    requires FlightCarries(w, tid, e.next, More(TrailAt(s.audit, InHand(tid)), fact), s.sys.now)
    ensures Decent(w, s, tid, e)
  {
  }

  lemma PutDecent(w: World, s: State, tid: nat, e: Effect, to: Place, c: Content, fact: Fact)
    requires HasRecord(w, s, InHand(tid)) && !to.InHand? && IsFree(s, to) && !Holding(e.next)
    requires e.move == Shift(InHand(tid), to, Some(fact)) && PutAt(e.write) == Some((to, c))
    requires Allowed(w, TrailAt(s.audit, InHand(tid)), fact)
    requires Carries(w, to, c, More(TrailAt(s.audit, InHand(tid)), fact), s.sys.now)
    ensures Decent(w, s, tid, e)
  {
  }

  lemma OpenDecent(w: World, s: State, tid: nat, e: Effect, to: Place, c: Content, auth: AuthFact)
    requires IsFree(s, InHand(tid)) && !to.InHand? && IsFree(s, to) && !Holding(e.next)
    requires e.move == Open(to, auth) && PutAt(e.write) == Some((to, c))
    requires Carries(w, to, c, Origin(auth), s.sys.now)
    ensures Decent(w, s, tid, e)
  {
  }

  lemma CloseDecent(w: World, s: State, tid: nat, e: Effect, from: Place, reason: Reason)
    requires IsFree(s, InHand(tid)) && !from.InHand? && HasRecord(w, s, from) && !Holding(e.next)
    requires e.move == Close(from, reason) && e.write == DelAt(from)
    ensures Decent(w, s, tid, e)
  {
  }

  /** What a record says of its trail, place by place. */
  lemma HandCarries(w: World, s: State, tid: nat, f: Flight)
    requires HasRecord(w, s, InHand(tid)) && tid in s.sys.flights && s.sys.flights[tid] == f
    ensures FlightCarries(w, tid, f, TrailAt(s.audit, InHand(tid)), s.sys.now)
  {
  }

  // ----- What the next fact of a trail needs

  lemma StampBounds(w: World, t: int)
    ensures t - w.grain < Stamp(w, t) <= t
    ensures Stamp(w, Stamp(w, t)) == Stamp(w, t)
  {
    StampIsMultiple(t, w.grain);
  }

  lemma StampIsMultiple(t: int, g: Grain)
    ensures (t - t % g) % g == 0
  {
    var x := t - t % g;
    var q, y, r := t / g, x / g, x % g;
    assert x == q * g && x == y * g + r;
    assert (q - y) * g == r;
    MultiplesAreApart(q - y, g);
  }

  lemma MultiplesAreApart(k: int, g: Grain)
    ensures k >= 1 ==> k * g >= g
    ensures k <= -1 ==> k * g + g <= 0
  {
    if k >= 1 {
      assert (k - 1) * g >= 0;
    } else if k <= -1 {
      assert (-k - 1) * g >= 0;
    }
  }

  lemma Approvable(w: World, t: Trail, p: PendingAuth, code: string, now: int)
    requires WaitingRecord(p, t) && PhaseOf(t).AtConsent?
    ensures Allowed(w, t, Approved(code, now))
    ensures UnusedCode(NewCode(w, p, code, now), More(t, Approved(code, now)), now)
  {
    StampBounds(w, now + AUTH_CODE_TTL);
  }

  /** A code that passes every check may be redeemed. */
  lemma Redeemable(w: World, t: Trail, c: AuthCode, g: CodeGrant, tid: nat, now: int)
    requires UnusedCode(c, t, now) && CodeRefusal(w, c, g, now) == None
    ensures var f := Redeemed(tid, g.verifier, g.clientID, g.redirectURI, now);
            Allowed(w, t, f) && FlightCarries(w, tid, CodeSession(c), More(t, f), now)
  {
  }

  lemma Issuable(w: World, t: Trail, c: AuthCode, tid: nat, key: string, now: int)
    requires CodeRecord(c, t) && PhaseOf(t) == Exchanged(tid) && c.cognitoRefreshEnc != ""
    ensures var rt := FirstRefresh(w, c, key, now);
            var f := Issued(tid, key, now, rt.expires);
            Allowed(w, t, f) && Carries(w, RefreshAt(key), OfRefresh(rt), More(t, f), now)
  {
    StampBounds(w, now + REFRESH_TOKEN_TTL);
  }

  lemma Presentable(w: World, t: Trail, rt: RefreshToken, clientID: string, tid: nat, now: int)
    requires RefreshHeld(w, rt, t) && PhaseOf(t) == Live && RefreshRefusal(rt, clientID, now) == None
    ensures var f := Presented(tid, rt.hashedToken, clientID, now);
            Allowed(w, t, f) && FlightCarries(w, tid, RefreshReauth(rt), More(t, f), now)
  {
  }

  lemma Renewable(w: World, t: Trail, rt: RefreshToken, tid: nat, f: Fact, now: int)
    requires RefreshHeld(w, rt, t) && PhaseOf(t) == Checked(tid)
    requires f.Renewed? && f.tid == tid && f.ciphertext == rt.cognitoRefreshEnc && f.subject != ""
    requires f.email == (if f.claimed == "" then rt.email else f.claimed) && f.orgs == f.lookup.GetOr(rt.orgs)
    ensures Allowed(w, t, f)
    ensures FlightCarries(w, tid, RefreshSession(rt, f.subject, f.email, f.orgs), More(t, f), now)
  {
  }

  lemma Rotatable(w: World, t: Trail, f: Flight, tid: nat, key: string, now: int)
    requires f.RefreshRotate? && FlightCarries(w, tid, f, t, now)
    ensures Allowed(w, t, Rotated(tid, key))
    ensures Carries(w, RefreshAt(key), OfRefresh(NextRefresh(w, f, key)), More(t, Rotated(tid, key)), now)
  {
  }
}
