/** Nothing a request does depends on the sessions stored or on what other
    requests are at: runs that differ only there stay alike. */
module AuthBlindness {
  import opened Basics
  import opened AuthRecords
  import opened Lineage
  import opened AuthSteps
  import opened AuthAudit
  import opened AuthSchedule

  /** Everything but request tid's own program point and session key. */
  function Blind(s: State, tid: nat, key: string): State {
    State(s.sys.(sessions := s.sys.sessions - {key}, flights := s.sys.flights - {tid}), s.audit)
  }

  /** s and t differ in sessions and flights only. */
  predicate SameStore(s: Sys, t: Sys) {
    t == s.(sessions := t.sessions, flights := t.flights)
  }

  lemma {:induction false} ProceedBlind(w: World, s: Sys, t: Sys, tid: nat, f: Flight, io: IO)
    requires SameStore(s, t)
    ensures Proceed(w, s, tid, f, io) == Proceed(w, t, tid, f, io)
  {
  }

  /** A system without request tid and without session key. */
  function BlindSys(s: Sys, tid: nat, key: string): Sys {
    s.(sessions := s.sessions - {key}, flights := s.flights - {tid})
  }

  lemma PutHidden(m: map<string, Session>, n: map<string, Session>, key: string, k: string, x: Session)
    requires m - {key} == n - {key}
    ensures m[k := x] - {key} == n[k := x] - {key}
  {
    assert m[k := x] - {key} == if k == key then m - {key} else (m - {key})[k := x];
    assert n[k := x] - {key} == if k == key then n - {key} else (n - {key})[k := x];
  }

  lemma DropHidden(m: map<string, Session>, n: map<string, Session>, key: string, k: string)
    requires m - {key} == n - {key}
    ensures m - {k} - {key} == n - {k} - {key}
  {
    assert m - {k} - {key} == m - {key} - {k};
    assert n - {k} - {key} == n - {key} - {k};
  }

  lemma {:induction false} WriteBlind(s: Sys, t: Sys, tid: nat, key: string, wr: Write)
    requires BlindSys(s, tid, key) == BlindSys(t, tid, key)
    ensures BlindSys(Written(s, wr), tid, key) == BlindSys(Written(t, wr), tid, key)
  {
    match wr {
      case PutSession(k, x) => PutHidden(s.sessions, t.sessions, key, k, x);
      case DelSession(k) => DropHidden(s.sessions, t.sessions, key, k);
      case _ =>
    }
  }

  lemma {:induction false} PerformBlind(s: Sys, t: Sys, tid: nat, key: string, other: nat, e: Effect)
    requires BlindSys(s, tid, key) == BlindSys(t, tid, key) && other != tid
    ensures BlindSys(Perform(s, other, e).sys, tid, key) == BlindSys(Perform(t, other, e).sys, tid, key)
  {
    WriteBlind(s, t, tid, key, e.write);
    var a, b := Written(s, e.write).flights, Written(t, e.write).flights;
    assert a[other := e.next] - {tid} == (a - {tid})[other := e.next];
    assert b[other := e.next] - {tid} == (b - {tid})[other := e.next];
  }

  lemma {:induction false} FlightBlind(s: Sys, t: Sys, tid: nat, key: string, other: nat)
    requires BlindSys(s, tid, key) == BlindSys(t, tid, key) && other != tid
    ensures other in s.flights <==> other in t.flights
    ensures other in s.flights ==> s.flights[other] == t.flights[other]
  {
    assert other in s.flights <==> other in BlindSys(s, tid, key).flights;
    assert other in t.flights <==> other in BlindSys(t, tid, key).flights;
    if other in s.flights {
      assert BlindSys(s, tid, key).flights[other] == s.flights[other];
    }
  }

  /** A step of another request does the same in both. */
  lemma {:induction false} AdvanceBlind(w: World, s: Sys, t: Sys, tid: nat, key: string, other: nat, io: IO)
    requires BlindSys(s, tid, key) == BlindSys(t, tid, key) && other != tid && other in s.flights
    ensures other in t.flights && s.flights[other] == t.flights[other]
    ensures var e := Proceed(w, Ticked(s, io.tick), other, s.flights[other], io);
            && e == Proceed(w, Ticked(t, io.tick), other, s.flights[other], io)
            && BlindSys(Perform(Ticked(s, io.tick), other, e).sys, tid, key)
               == BlindSys(Perform(Ticked(t, io.tick), other, e).sys, tid, key)
  {
    var s', t' := Ticked(s, io.tick), Ticked(t, io.tick);
    FlightBlind(s, t, tid, key, other);
    assert BlindSys(s', tid, key) == Ticked(BlindSys(s, tid, key), io.tick);
    assert BlindSys(t', tid, key) == Ticked(BlindSys(t, tid, key), io.tick);
    ProceedBlind(w, s', t', other, s.flights[other], io);
    PerformBlind(s', t', tid, key, other, Proceed(w, s', other, s.flights[other], io));
  }

  lemma {:induction false} LostBlind(s: Sys, t: Sys, tid: nat, key: string, place: Place)
    requires BlindSys(s, tid, key) == BlindSys(t, tid, key) && place != InHand(tid)
    ensures ActLost(s, place).move == ActLost(t, place).move
    ensures BlindSys(ActLost(s, place).sys, tid, key) == BlindSys(ActLost(t, place).sys, tid, key)
  {
    match place {
      case InHand(other) =>
        FlightBlind(s, t, tid, key, other);
        PerformBlind(s, t, tid, key, other, Drop(other, Crashed, Reaped));
      case PendingAt(k) => WriteBlind(s, t, tid, key, DelPending(k));
      case CodeAt(k) => WriteBlind(s, t, tid, key, DelCode(k));
      case RefreshAt(k) => WriteBlind(s, t, tid, key, DelRefresh(k));
    }
  }

  lemma {:induction false} ActBlind(w: World, s: Sys, t: Sys, tid: nat, key: string, e: Event)
    requires BlindSys(s, tid, key) == BlindSys(t, tid, key) && Foreign(e, tid)
    ensures Act(w, s, e).move == Act(w, t, e).move
    ensures BlindSys(Act(w, s, e).sys, tid, key) == BlindSys(Act(w, t, e).sys, tid, key)
  {
    match e {
      case Start(other, request) =>
        FlightBlind(s, t, tid, key, other);
        PerformBlind(s, t, tid, key, other, Quiet(Admit(w, request)));
      case Advance(other, io) =>
        FlightBlind(s, t, tid, key, other);
        if other in s.flights {
          AdvanceBlind(w, s, t, tid, key, other, io);
        }
      case Lost(place) => LostBlind(s, t, tid, key, place);
      case SessionLost(k) => WriteBlind(s, t, tid, key, DelSession(k));
    }
  }

  /** Two states alike but for request tid and session key stay alike, whatever
      the others do. */
  lemma {:induction false} RunBlind(w: World, s: State, t: State, tid: nat, key: string, es: seq<Event>)
    requires Blind(s, tid, key) == Blind(t, tid, key) && AllForeign(es, tid)
    ensures Blind(Run(w, s, es), tid, key) == Blind(Run(w, t, es), tid, key)
  {
    if es == [] {
    } else {
      var init, last := es[..|es| - 1], es[|es| - 1];
      RunBlind(w, s, t, tid, key, init);
      var s', t' := Run(w, s, init), Run(w, t, init);
      assert BlindSys(s'.sys, tid, key) == Blind(s', tid, key).sys == BlindSys(t'.sys, tid, key);
      ActBlind(w, s'.sys, t'.sys, tid, key, last);
    }
  }
}
