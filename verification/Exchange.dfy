/** One handler's turns among anybody else's steps: what the whole exchanges of
    EntryExchange, CallbackExchange, ConsentExchange, CodeExchange,
    RefreshExchange and RevokeExchange are made of. */
module Exchange {
  import opened AuthRecords
  import opened AuthSteps
  import opened AuthAudit
  import opened AuthSchedule

  /** The handler's next program point does not depend on what others do, except
      through the tables. */
  lemma TurnGoes(w: World, s: State, tid: nat, es: seq<Event>, io: IO, f: Flight, e: Effect)
    requires AllForeign(es, tid) && tid in s.sys.flights && s.sys.flights[tid] == f
    requires e == Proceed(w, Ticked(Run(w, s, es).sys, io.tick), tid, f, io)
    ensures var t := Turn(w, s, tid, es, io);
            && tid in t.sys.flights && t.sys.flights[tid] == e.next
            && t.sys == Perform(Ticked(Run(w, s, es).sys, io.tick), tid, e).sys
  {
    ForeignRunKeepsFlight(w, s, es, tid);
    StepIsEffect(w, Run(w, s, es), tid, io, e);
    Goes(Ticked(Run(w, s, es).sys, io.tick), tid, e);
  }

  lemma Goes(s: Sys, tid: nat, e: Effect)
    ensures var t := Perform(s, tid, e).sys; tid in t.flights && t.flights[tid] == e.next
  {
  }

  predicate IsAt(s: State, tid: nat, f: Flight) {
    tid in s.sys.flights && s.sys.flights[tid] == f
  }

  /** Only others act between the handler's turns. */
  ghost predicate Apart(tid: nat, env: nat -> seq<Event>) {
    forall k: nat :: AllForeign(env(k), tid)
  }

  function ClockAfter(w: World, s: State, es: seq<Event>, io: IO): int {
    Run(w, s, es).sys.now + io.tick
  }

  lemma Enters(w: World, s: State, tid: nat, request: Request)
    requires tid !in s.sys.flights
    ensures IsAt(Step(w, s, Start(tid, request)), tid, Admit(w, request))
  {
    Goes(s.sys, tid, Quiet(Admit(w, request)));
  }

  /** A random string of the server's. */
  ghost predicate IsDrawn(w: World, key: string) {
    exists i: nat :: key == w.coin(i)
  }
}
