/** The concurrent fetch of getRecentFailures (internal/mcpserver/tools.go): one
    goroutine per submission, six permits, a wait group. Every schedule fills
    the results slice the same way. */
module FanOut {
  const PERMITS: nat := 6

  /** Where a goroutine is. It holds a permit while Fetching and while Answered. */
  datatype PC = Unspawned | Waiting | Fetching | Answered | Released | Finished

  /** What GetJSON gave for a submission; a failed fetch leaves the slot's zero
      value, which is not ok. */
  datatype Slot<T> = Empty | Filled(tests: T)

  /** spawned is main's loop counter, inFlight the length of the semaphore
      channel, pending the wait group's counter. */
  datatype State<T> = State(
    spawned: nat,
    pcs: seq<PC>,
    inFlight: nat,
    pending: nat,
    results: seq<Slot<T>>,
    merging: bool)

  datatype Event = Spawn | Acquire(i: nat) | Answer(i: nat) | Release(i: nat) | Finish(i: nat) | Pass

  function Initial<T>(n: nat): State<T> {
    State(0, seq(n, _ => Unspawned), 0, 0, seq(n, _ => Empty), false)
  }

  predicate At<T>(s: State<T>, i: nat, pc: PC) {
    i < |s.pcs| && s.pcs[i] == pc
  }

  predicate Enabled<T>(s: State<T>, e: Event) {
    match e
    case Spawn => At(s, s.spawned, Unspawned)
    case Acquire(i) => At(s, i, Waiting) && s.inFlight < PERMITS
    case Answer(i) => At(s, i, Fetching)
    case Release(i) => At(s, i, Answered) && s.inFlight > 0
    case Finish(i) => At(s, i, Released) && s.pending > 0
    case Pass => s.spawned == |s.pcs| && s.pending == 0 && !s.merging
  }

  function Moved<T>(s: State<T>, i: nat, pc: PC): State<T>
    requires i < |s.pcs|
  {
    s.(pcs := s.pcs[i := pc])
  }

  /** answers[i] is what the fetch for submission i comes back with. */
  function Next<T>(answers: seq<Slot<T>>, s: State<T>, e: Event): State<T>
    requires Enabled(s, e) && |answers| == |s.pcs| == |s.results|
  {
    match e
    case Spawn => Moved(s, s.spawned, Waiting).(spawned := s.spawned + 1, pending := s.pending + 1)
    case Acquire(i) => Moved(s, i, Fetching).(inFlight := s.inFlight + 1)
    case Answer(i) =>
      Moved(s, i, Answered).(results := if answers[i].Filled? then s.results[i := answers[i]] else s.results)
    case Release(i) => Moved(s, i, Released).(inFlight := s.inFlight - 1)
    case Finish(i) => Moved(s, i, Finished).(pending := s.pending - 1)
    case Pass => s.(merging := true)
  }

  // ----- Counting goroutines

  datatype Measure = Holding | Living | StepsLeft

  predicate Holds(pc: PC) {
    pc.Fetching? || pc.Answered?
  }

  function Weight(m: Measure, pc: PC): nat {
    match m
    case Holding => if Holds(pc) then 1 else 0
    case Living => if pc.Unspawned? || pc.Finished? then 0 else 1
    case StepsLeft =>
      match pc
      case Unspawned => 5
      case Waiting => 4
      case Fetching => 3
      case Answered => 2
      case Released => 1
      case Finished => 0
  }

  function Sum(m: Measure, pcs: seq<PC>): nat {
    if pcs == [] then 0 else Sum(m, pcs[..|pcs| - 1]) + Weight(m, pcs[|pcs| - 1])
  }

  lemma {:induction false} SumMoves(m: Measure, pcs: seq<PC>, i: nat, pc: PC)
    requires i < |pcs|
    ensures Sum(m, pcs[i := pc]) + Weight(m, pcs[i]) == Sum(m, pcs) + Weight(m, pc)
  {
    var last := |pcs| - 1;
    if i == last {
      assert pcs[i := pc][..last] == pcs[..last];
    } else {
      assert pcs[i := pc][..last] == pcs[..last][i := pc];
      SumMoves(m, pcs[..last], i, pc);
    }
  }

  lemma {:induction false} SumAtLeast(m: Measure, pcs: seq<PC>, i: nat)
    requires i < |pcs|
    ensures Sum(m, pcs) >= Weight(m, pcs[i])
  {
    if i == |pcs| - 1 {
    } else {
      SumAtLeast(m, pcs[..|pcs| - 1], i);
    }
  }

  lemma {:induction false} SumFlat(m: Measure, pcs: seq<PC>, pc: PC)
    requires forall i | 0 <= i < |pcs| :: pcs[i] == pc
    ensures Sum(m, pcs) == |pcs| * Weight(m, pc)
  {
    if pcs == [] {
    } else {
      SumFlat(m, pcs[..|pcs| - 1], pc);
    }
  }

  /** A measure that is not zero weighs on some goroutine. */
  lemma {:induction false} SomeoneWeighs(m: Measure, pcs: seq<PC>) returns (i: nat)
    requires Sum(m, pcs) > 0
    ensures i < |pcs| && Weight(m, pcs[i]) > 0
  {
    i := |pcs| - 1;
    if Weight(m, pcs[i]) == 0 {
      i := SomeoneWeighs(m, pcs[..i]);
    }
  }

  // ----- The invariant

  predicate HasAnswered(pc: PC) {
    pc.Answered? || pc.Released? || pc.Finished?
  }

  ghost predicate Counted<T>(s: State<T>) {
    && s.inFlight == Sum(Holding, s.pcs) <= PERMITS
    && s.pending == Sum(Living, s.pcs)
  }

  ghost predicate Inv<T>(answers: seq<Slot<T>>, s: State<T>) {
    && |answers| == |s.pcs| == |s.results|
    && Counted(s)
    && s.spawned <= |s.pcs|
    && (forall i | 0 <= i < |s.pcs| :: i < s.spawned <==> !s.pcs[i].Unspawned?)
    && (forall i | 0 <= i < |s.pcs| :: s.results[i] == if HasAnswered(s.pcs[i]) then answers[i] else Empty)
    && (s.merging ==> s.spawned == |s.pcs| && s.pending == 0)
  }

  lemma {:induction false} MoveKeepsCounts<T>(s: State<T>, i: nat, pc: PC)
    requires i < |s.pcs| && Counted(s)
    ensures Sum(Holding, s.pcs[i := pc]) == s.inFlight - Weight(Holding, s.pcs[i]) + Weight(Holding, pc)
    ensures Sum(Living, s.pcs[i := pc]) == s.pending - Weight(Living, s.pcs[i]) + Weight(Living, pc)
  {
    SumMoves(Holding, s.pcs, i, pc);
    SumMoves(Living, s.pcs, i, pc);
  }

  lemma {:induction false} StepKeepsCounts<T>(answers: seq<Slot<T>>, s: State<T>, e: Event)
    requires Inv(answers, s) && Enabled(s, e)
    ensures Counted(Next(answers, s, e))
  {
    match e {
      case Spawn => MoveKeepsCounts(s, s.spawned, Waiting);
      case Acquire(i) => MoveKeepsCounts(s, i, Fetching);
      case Answer(i) => MoveKeepsCounts(s, i, Answered);
      case Release(i) => MoveKeepsCounts(s, i, Released);
      case Finish(i) => MoveKeepsCounts(s, i, Finished);
      case Pass =>
    }
  }

  lemma {:induction false} StepKeepsInv<T>(answers: seq<Slot<T>>, s: State<T>, e: Event)
    requires Inv(answers, s) && Enabled(s, e)
    ensures Inv(answers, Next(answers, s, e))
  {
    StepKeepsCounts(answers, s, e);
    match e {
      case Acquire(i) => SumAtLeast(Living, s.pcs, i);
      case Answer(i) => SumAtLeast(Living, s.pcs, i);
      case Release(i) => SumAtLeast(Living, s.pcs, i);
      case Finish(i) => SumAtLeast(Living, s.pcs, i);
      case _ =>
    }
  }

  lemma {:induction false} InitialInv<T>(answers: seq<Slot<T>>)
    ensures Inv(answers, Initial(|answers|))
  {
    var s: State<T> := Initial(|answers|);
    SumFlat(Holding, s.pcs, Unspawned);
    SumFlat(Living, s.pcs, Unspawned);
  }

  // ----- Schedules

  /** es can happen in this order from s. */
  predicate Schedule<T>(answers: seq<Slot<T>>, s: State<T>, es: seq<Event>)
    requires |answers| == |s.pcs| == |s.results|
    decreases |es|
  {
    es == [] || (Enabled(s, es[0]) && Schedule(answers, Next(answers, s, es[0]), es[1..]))
  }

  function After<T>(answers: seq<Slot<T>>, s: State<T>, es: seq<Event>): State<T>
    requires |answers| == |s.pcs| == |s.results| && Schedule(answers, s, es)
    decreases |es|
  {
    if es == [] then s else After(answers, Next(answers, s, es[0]), es[1..])
  }

  /** Steps left in the whole fan-out, main's last one included. */
  function Left<T>(s: State<T>): nat {
    Sum(StepsLeft, s.pcs) + if s.merging then 0 else 1
  }

  lemma {:induction false} StepCosts<T>(answers: seq<Slot<T>>, s: State<T>, e: Event)
    requires Inv(answers, s) && Enabled(s, e)
    ensures Left(Next(answers, s, e)) == Left(s) - 1
  {
    match e {
      case Spawn => SumMoves(StepsLeft, s.pcs, s.spawned, Waiting);
      case Acquire(i) => SumMoves(StepsLeft, s.pcs, i, Fetching);
      case Answer(i) => SumMoves(StepsLeft, s.pcs, i, Answered);
      case Release(i) => SumMoves(StepsLeft, s.pcs, i, Released);
      case Finish(i) => SumMoves(StepsLeft, s.pcs, i, Finished);
      case Pass =>
    }
  }

  lemma {:induction false} ScheduleKeepsInv<T>(answers: seq<Slot<T>>, s: State<T>, es: seq<Event>)
    requires Inv(answers, s) && Schedule(answers, s, es)
    ensures Inv(answers, After(answers, s, es))
    ensures Left(After(answers, s, es)) + |es| == Left(s)
    decreases |es|
  {
    if es == [] {
    } else {
      StepKeepsInv(answers, s, es[0]);
      StepCosts(answers, s, es[0]);
      ScheduleKeepsInv(answers, Next(answers, s, es[0]), es[1..]);
    }
  }

  // ----- What holds under every schedule

  lemma {:induction false} HoldersCounted(pcs: seq<PC>)
    ensures |set i | 0 <= i < |pcs| && Holds(pcs[i])| == Sum(Holding, pcs)
  {
    if pcs == [] {
    } else {
      var last := |pcs| - 1;
      HoldersCounted(pcs[..last]);
      var before := set i | 0 <= i < last && Holds(pcs[..last][i]);
      assert (set i | 0 <= i < |pcs| && Holds(pcs[i])) == before + if Holds(pcs[last]) then {last} else {};
    }
  }

  /** Never more than six fetches at once. */
  lemma {:induction false} AtMostSixFetch<T>(answers: seq<Slot<T>>, es: seq<Event>)
    requires Schedule(answers, Initial(|answers|), es)
    ensures var pcs := After(answers, Initial(|answers|), es).pcs;
            |set i | 0 <= i < |pcs| && Holds(pcs[i])| <= 6
  {
    InitialInv(answers);
    ScheduleKeepsInv(answers, Initial(|answers|), es);
    HoldersCounted(After(answers, Initial(|answers|), es).pcs);
  }

  lemma {:induction false} AnswersStay<T>(answers: seq<Slot<T>>, s: State<T>, e: Event, i: nat)
    requires Inv(answers, s) && Enabled(s, e) && i < |s.pcs|
    ensures HasAnswered(Next(answers, s, e).pcs[i]) <==> HasAnswered(s.pcs[i]) || e == Answer(i)
  {
  }

  lemma {:induction false} AnsweredIffScheduled<T>(answers: seq<Slot<T>>, s: State<T>, es: seq<Event>, i: nat)
    requires Inv(answers, s) && Schedule(answers, s, es) && i < |answers|
    ensures Inv(answers, After(answers, s, es))
    ensures HasAnswered(After(answers, s, es).pcs[i]) <==> HasAnswered(s.pcs[i]) || Answer(i) in es
    decreases |es|
  {
    if es == [] {
    } else {
      StepKeepsInv(answers, s, es[0]);
      AnswersStay(answers, s, es[0], i);
      AnsweredIffScheduled(answers, Next(answers, s, es[0]), es[1..], i);
      assert es == [es[0]] + es[1..];
    }
  }

  /** At every moment of every schedule a slot has the answer of its own
      submission if goroutine i has answered, and nothing otherwise, whatever
      the others did. */
  lemma {:induction false} SlotIsOwn<T>(answers: seq<Slot<T>>, es: seq<Event>, i: nat)
    requires Schedule(answers, Initial(|answers|), es) && i < |answers|
    ensures var results := After(answers, Initial(|answers|), es).results;
            i < |results| && results[i] == if Answer(i) in es then answers[i] else Empty
  {
    InitialInv(answers);
    AnsweredIffScheduled(answers, Initial(|answers|), es, i);
  }

  /** Until main merges, something can always happen. */
  lemma {:induction false} NeverStuck<T>(answers: seq<Slot<T>>, s: State<T>)
    requires Inv(answers, s) && !s.merging
    ensures exists e :: Enabled(s, e)
  {
    if s.spawned < |s.pcs| {
      assert Enabled(s, Spawn);
    } else if s.inFlight > 0 {
      var i := SomeoneWeighs(Holding, s.pcs);
      assert Enabled(s, if s.pcs[i].Fetching? then Answer(i) else Release(i));
    } else if s.pending > 0 {
      var i := SomeoneWeighs(Living, s.pcs);
      if Holds(s.pcs[i]) {
        SumAtLeast(Holding, s.pcs, i);
      }
      assert Enabled(s, if s.pcs[i].Waiting? then Acquire(i) else Finish(i));
    } else {
      assert Enabled(s, Pass);
    }
  }

  /** A run takes five steps for each submission and one for main, no more; it
      has taken them all exactly when main goes on to merge. */
  lemma {:induction false} EveryRunEnds<T>(answers: seq<Slot<T>>, es: seq<Event>)
    requires Schedule(answers, Initial(|answers|), es)
    ensures |es| <= 5 * |answers| + 1
    ensures After(answers, Initial(|answers|), es).merging <==> |es| == 5 * |answers| + 1
  {
    InitialInv(answers);
    InitialWork<T>(|answers|);
    ScheduleKeepsInv(answers, Initial(|answers|), es);
    LeftIsNothing(answers, After(answers, Initial(|answers|), es));
  }

  lemma {:induction false} InitialWork<T>(n: nat)
    ensures Left<T>(Initial(n)) == 5 * n + 1
  {
    var s: State<T> := Initial(n);
    SumFlat(StepsLeft, s.pcs, Unspawned);
  }

  lemma {:induction false} LeftIsNothing<T>(answers: seq<Slot<T>>, s: State<T>)
    requires Inv(answers, s)
    ensures Left(s) == 0 <==> s.merging
  {
    if s.merging {
      AllFinished(answers, s);
      SumFlat(StepsLeft, s.pcs, Finished);
    }
  }

  lemma {:induction false} AllFinished<T>(answers: seq<Slot<T>>, s: State<T>)
    requires Inv(answers, s) && s.merging
    ensures forall i | 0 <= i < |s.pcs| :: s.pcs[i] == Finished
  {
    forall i | 0 <= i < |s.pcs|
      ensures s.pcs[i] == Finished
    {
      SumAtLeast(Living, s.pcs, i);
    }
  }

  /** Whatever the completion order, the merge sees the same results. */
  lemma {:induction false} ScheduleDoesNotMatter<T>(answers: seq<Slot<T>>, es: seq<Event>)
    requires Schedule(answers, Initial(|answers|), es)
    requires After(answers, Initial(|answers|), es).merging
    ensures After(answers, Initial(|answers|), es).results == answers
  {
    InitialInv(answers);
    ScheduleKeepsInv(answers, Initial(|answers|), es);
    AllFinished(answers, After(answers, Initial(|answers|), es));
  }
}
