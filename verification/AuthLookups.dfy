/** Which organizations an authorization stands for, in terms of what the lookup
    service answered in the run. */
module AuthLookups {
  import opened Basics
  import opened AuthRecords
  import opened Lineage
  import opened LineageTheorems
  import opened AuthSteps
  import opened AuthAudit
  import opened AuthSafety
  import opened AuthInvariant
  import opened AuthTheorems
  import opened AuthEndings
  import opened AuthHistory
  import opened AuthDeeds

  /** What the lookup service said in a login that step c puts on record, or in a
      refresh that Cognito accepts in step c. */
  function AnswerIn(c: Scene): Option<seq<string>> {
    if c.f.CallbackStash? && c.io.ok && c.login.Some? then c.login.value.orgs
    else if c.f.RefreshReauth? && c.io.reauth.CognitoAccepted? && c.io.reauth.subject != "" then c.io.reauth.orgs
    else None
  }

  /** The latest successful answer of the lookup service for authorization r. */
  function Answered(w: World, es: seq<Event>, r: nat): seq<string> {
    if es == [] then []
    else
      var init, e := es[..|es| - 1], es[|es| - 1];
      if e.Advance? && e.tid in Reached(w, init).sys.flights && Arrived(init, e.tid).Some?
         && Carrying(Reached(w, init), InHand(e.tid), r)
      then AnswerIn(SceneOf(w, init, e.tid, e.io)).GetOr(Answered(w, init, r))
      else Answered(w, init, r)
  }

  /** The fact, if any, brings exactly the answer of the step. */
  predicate Brings(note: Option<Fact>, answer: Option<seq<string>>) {
    answer == if note.Some? && (note.value.CalledBack? || note.value.Renewed?) then note.value.lookup else None
  }

  predicate AnswerPoint(f: Flight) {
    f.CallbackStash? || f.RefreshReauth?
  }

  lemma AnswerIsBrought(w: World, c: Scene, s: Sys)
    requires Set(w, c, s) && AnswerPoint(c.f)
    ensures Brings(NoteOf(Proceed(w, s, c.tid, c.f, c.io).move), AnswerIn(c))
  {
  }

  lemma OthersBringNothing(w: World, c: Scene, m: Move)
    requires Notes(w, c, m) && !AnswerPoint(c.f)
    ensures Brings(NoteOf(m), AnswerIn(c))
  {
  }

  lemma ProceedBrings(w: World, c: Scene, s: Sys)
    requires Set(w, c, s)
    ensures Brings(NoteOf(Proceed(w, s, c.tid, c.f, c.io).move), AnswerIn(c))
  {
    if AnswerPoint(c.f) {
      AnswerIsBrought(w, c, s);
    } else {
      ProceedNotes(w, c, s);
      OthersBringNothing(w, c, Proceed(w, s, c.tid, c.f, c.io).move);
    }
  }

  /** LastLookup after a trail grows by at most one fact. */
  lemma LookupGrows(t: Trail, t': Trail, note: Option<Fact>, answer: Option<seq<string>>)
    requires Brings(note, answer) && t' == if note.Some? then More(t, note.value) else t
    ensures LastLookup(t') == answer.GetOr(LastLookup(t))
  {
  }

  lemma OtherNotesBringNothing(w: World, s: Sys, e: Event)
    requires !e.Advance? || e.tid !in s.flights
    ensures Brings(NoteOf(Act(w, s, e).move), None)
  {
    if e.Lost? {
      LostMoves(s, e.place);
    }
  }

  /** The trail of r over one move whose source is not r's, or is hand and r's. */
  lemma TrailOver(a: Audit, m: Move, r: nat, hand: Place)
    requires Fits(a, m) && r < |a.trails|
    ensures r < |Apply(a, m).trails|
    ensures var mine := NoteOf(m).Some? && SourceOf(m, hand) in a.at && a.at[SourceOf(m, hand)] == r;
            Apply(a, m).trails[r] == if mine then More(a.trails[r], NoteOf(m).value) else a.trails[r]
  {
  }

  function LookupAt(a: Audit, r: nat): seq<string> {
    if r < |a.trails| then LastLookup(a.trails[r]) else []
  }

  /** A move whose note is on the trail of the record in hand, or is an ending. */
  lemma MoveLookup(a: Audit, m: Move, r: nat, hand: Place, answer: Option<seq<string>>)
    requires Fits(a, m) && Linear(a) && Brings(NoteOf(m), answer)
    requires answer.Some? ==> SourceOf(m, hand) == hand
    ensures LookupAt(Apply(a, m), r)
            == if hand in a.at && a.at[hand] == r then answer.GetOr(LookupAt(a, r)) else LookupAt(a, r)
  {
    if r < |a.trails| {
      TrailOver(a, m, r, hand);
      if SourceOf(m, hand) in a.at && a.at[SourceOf(m, hand)] == r {
        LookupGrows(a.trails[r], Apply(a, m).trails[r], NoteOf(m), answer);
      }
    } else if r < |Apply(a, m).trails| {
      ApplyTrail(a, m, r, hand);
    }
  }

  lemma AnswersAreNoted(w: World, c: Scene, s: Sys)
    requires Set(w, c, s)
    ensures var m := Perform(s, c.tid, Proceed(w, s, c.tid, c.f, c.io)).move;
            Brings(NoteOf(m), AnswerIn(c)) && (AnswerIn(c).Some? ==> SourceOf(m, InHand(c.tid)) == InHand(c.tid))
  {
    ProceedBrings(w, c, s);
    ProceedNotes(w, c, s);
    var m := Proceed(w, s, c.tid, c.f, c.io).move;
    AnswerHasSource(w, c, m);
  }

  lemma AnswerHasSource(w: World, c: Scene, m: Move)
    requires Brings(NoteOf(m), AnswerIn(c)) && Notes(w, c, m)
    ensures AnswerIn(c).Some? ==> SourceOf(m, InHand(c.tid)) == InHand(c.tid)
  {
  }

  lemma AdvanceLookup(w: World, es: seq<Event>, tid: nat, io: IO, r: nat)
    requires Sound(w) && tid in Reached(w, es).sys.flights
    ensures Arrived(es, tid).Some?
    ensures var s := Reached(w, es);
            LookupAt(Step(w, s, Advance(tid, io)).audit, r)
            == if Carrying(s, InHand(tid), r) then AnswerIn(SceneOf(w, es, tid, io)).GetOr(LookupAt(s.audit, r))
               else LookupAt(s.audit, r)
  {
    var s := Reached(w, es);
    AlwaysInv(w, es);
    SceneIsSet(w, es, tid, io);
    StepFits(w, s, Advance(tid, io));
    var c, t := SceneOf(w, es, tid, io), Ticked(s.sys, io.tick);
    assert Act(w, s.sys, Advance(tid, io)) == Advanced(w, s.sys, tid, io);
    AnswersAreNoted(w, c, t);
    MoveLookup(s.audit, Act(w, s.sys, Advance(tid, io)).move, r, InHand(tid), AnswerIn(c));
  }

  lemma OtherLookup(w: World, es: seq<Event>, e: Event, r: nat)
    requires Sound(w) && (!e.Advance? || e.tid !in Reached(w, es).sys.flights)
    ensures LookupAt(Step(w, Reached(w, es), e).audit, r) == LookupAt(Reached(w, es).audit, r)
  {
    var s := Reached(w, es);
    AlwaysInv(w, es);
    StepFits(w, s, e);
    OtherNotesBringNothing(w, s.sys, e);
    MoveLookup(s.audit, Act(w, s.sys, e).move, r, InHand(0), None);
  }

  /** In every run the lookups on a trail are those the service answered. */
  lemma {:induction false} LookupsAreAnswers(w: World, es: seq<Event>, r: nat)
    requires Sound(w)
    ensures LookupAt(Reached(w, es).audit, r) == Answered(w, es, r)
  {
    if es == [] {
    } else {
      var init, e := es[..|es| - 1], es[|es| - 1];
      LookupsAreAnswers(w, init, r);
      if e.Advance? && e.tid in Reached(w, init).sys.flights {
        AdvanceLookup(w, init, e.tid, e.io, r);
      } else {
        OtherLookup(w, init, e, r);
      }
    }
  }

  /** In every run an authorization stands for the organizations that the lookup
      service answered last, if and only if no repeated callback whose lookup
      failed has overruled them since. */
  lemma OrgsFollowAnswers(w: World, es: seq<Event>, r: nat)
    requires Sound(w) && r < |Reached(w, es).audit.trails|
    ensures var t := Reached(w, es).audit.trails[r];
            OrgsOf(t) == Answered(w, es, r) <==> !Overruled(t)
  {
    LookupsAreAnswers(w, es, r);
    OrgsFollowLastLookup(Reached(w, es).audit.trails[r]);
  }
}
