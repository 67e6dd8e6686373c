/** memoryStore (cmd/mcp-remote/store_memory.go) hands out pointers, callback
    writes through its own, and keeps it after the put. When that is the same as
    handing out copies. */
module MemoryBackend {
  import opened Basics
  import opened AuthRecords

  /** A pendingAuth on the heap. Callback overwrites its fields in place. */
  class PendingRecord {
    const clientID: string
    const redirectURI: string
    const codeChallenge: string
    const originalState: string
    const scope: string
    var expires: int
    var clientName: string
    var subject: string
    var email: string
    var orgs: seq<string>
    var cognitoRefreshEnc: string

    constructor (p: PendingAuth)
      ensures Value() == p
    {
      clientID, redirectURI, codeChallenge := p.clientID, p.redirectURI, p.codeChallenge;
      originalState, scope, expires := p.originalState, p.scope, p.expires;
      clientName, subject, email, orgs := p.clientName, p.subject, p.email, p.orgs;
      cognitoRefreshEnc := p.cognitoRefreshEnc;
    }

    method Overwrite(i: Identity)
      modifies this
      ensures Value() == Identified(old(Value()), i)
    {
      clientName := i.clientName;
      subject := i.subject;
      email := i.email;
      orgs := i.orgs;
      cognitoRefreshEnc := i.enc;
    }

    function Value(): PendingAuth
      reads this
    {
      PendingAuth(clientID, redirectURI, codeChallenge, originalState, scope, expires,
                  clientName, subject, email, orgs, cognitoRefreshEnc)
    }
  }

  /** What callback learns about the user. */
  datatype Identity = Identity(clientName: string, subject: string, email: string, orgs: seq<string>, enc: string)

  function Identified(p: PendingAuth, i: Identity): PendingAuth {
    p.(clientName := i.clientName, subject := i.subject, email := i.email, orgs := i.orgs,
       cognitoRefreshEnc := i.enc)
  }

  /** What the handlers of different requests do with pending records, in any
      order: hand is the request that acts. Drop is a delete on nobody's behalf. */
  datatype Op =
    | Create(hand: nat, p: PendingAuth)
    | Put(hand: nat, key: string)
    | Pop(hand: nat, key: string)
    | Identify(hand: nat, i: Identity)
    | Extend(hand: nat, expires: int)
    | Release(hand: nat)
    | Drop(key: string)

  /** The record after an in-place write. */
  function Rewritten(p: PendingAuth, op: Op): PendingAuth
    requires op.Identify? || op.Extend?
  {
    if op.Identify? then Identified(p, op.i) else p.(expires := op.expires)
  }

  // ----- With copies

  /** A store of values: what is stored, every request's own copy, and which
      requests have stored theirs. */
  datatype Values = Values(stored: map<string, PendingAuth>, held: map<nat, PendingAuth>, lent: set<nat>)

  const NOTHING := Values(map[], map[], {})

  function Copied(v: Values, op: Op): Values {
    match op
    case Create(h, p) => Values(v.stored, v.held[h := p], v.lent - {h})
    case Put(h, key) => if h !in v.held then v else Values(v.stored[key := v.held[h]], v.held, v.lent + {h})
    case Pop(h, key) =>
      if key !in v.stored then v else Values(v.stored - {key}, v.held[h := v.stored[key]], v.lent - {h})
    case Identify(h, _) => if h !in v.held then v else v.(held := v.held[h := Rewritten(v.held[h], op)])
    case Extend(h, _) => if h !in v.held then v else v.(held := v.held[h := Rewritten(v.held[h], op)])
    case Release(h) => Values(v.stored, v.held - {h}, v.lent - {h})
    case Drop(key) => v.(stored := v.stored - {key})
  }

  function CopiedAll(v: Values, ops: seq<Op>): Values {
    if ops == [] then v else Copied(CopiedAll(v, ops[..|ops| - 1]), ops[|ops| - 1])
  }

  // ----- With pointers

  type Pointers<K> = map<K, PendingRecord>

  /** A store of pointers: the records, who points where, and which requests
      have stored their pointer and still have it. */
  datatype Heap = Heap(at: map<PendingRecord, PendingAuth>, stored: Pointers<string>, hands: Pointers<nat>,
                       lent: set<nat>)

  ghost predicate Known<K>(m: Pointers<K>, made: set<PendingRecord>) {
    forall k | k in m :: m[k] in made
  }

  ghost predicate Grounded(x: Heap) {
    Known(x.stored, x.at.Keys) && Known(x.hands, x.at.Keys) && x.lent <= x.hands.Keys
  }

  /** The same operations on pointers; r is where a new record goes, if the
      operation makes one. A write reaches whoever shares the pointer. */
  ghost function Acted(x: Heap, op: Op, r: PendingRecord?): Heap
    requires Grounded(x) && (op.Create? ==> r != null)
  {
    match op
    case Create(h, p) => Heap(x.at[r := p], x.stored, x.hands[h := r], x.lent - {h})
    case Put(h, key) =>
      if h !in x.hands then x else Heap(x.at, x.stored[key := x.hands[h]], x.hands, x.lent + {h})
    case Pop(h, key) =>
      if key !in x.stored then x else Heap(x.at, x.stored - {key}, x.hands[h := x.stored[key]], x.lent - {h})
    case Identify(h, _) => if h !in x.hands then x else x.(at := x.at[x.hands[h] := Rewritten(x.at[x.hands[h]], op)])
    case Extend(h, _) => if h !in x.hands then x else x.(at := x.at[x.hands[h] := Rewritten(x.at[x.hands[h]], op)])
    case Release(h) => Heap(x.at, x.stored, x.hands - {h}, x.lent - {h})
    case Drop(key) => x.(stored := x.stored - {key})
  }

  lemma ActedIsGrounded(x: Heap, op: Op, r: PendingRecord?)
    requires Grounded(x) && (op.Create? ==> r != null)
    ensures Grounded(Acted(x, op, r))
  {
  }

  // ----- Pointers against copies

  ghost predicate TablesAgree(x: Heap, v: Values)
    requires Grounded(x)
  {
    x.stored.Keys == v.stored.Keys && forall k | k in x.stored :: x.at[x.stored[k]] == v.stored[k]
  }

  /** What a request that has stored its record still reads through its pointer is
      the redirect URI, which nothing ever writes. */
  ghost predicate HandsAgree(x: Heap, v: Values)
    requires Grounded(x)
  {
    && x.hands.Keys == v.held.Keys && x.lent == v.lent
    && (forall h | h in x.hands && h !in x.lent :: x.at[x.hands[h]] == v.held[h])
    && (forall h | h in x.hands :: x.at[x.hands[h]].redirectURI == v.held[h].redirectURI)
  }

  /** The tables say the same, and so do the records in the hands of requests that
      have not stored them. */
  ghost predicate Agrees(x: Heap, v: Values)
    requires Grounded(x)
  {
    TablesAgree(x, v) && HandsAgree(x, v)
  }

  /** Every record belongs to one key or to one request that has not stored it. */
  ghost predicate Owned(x: Heap) {
    && (forall k, k' | k in x.stored && k' in x.stored && k != k' :: x.stored[k] != x.stored[k'])
    && (forall h, h' | h in x.hands - x.lent && h' in x.hands - x.lent && h != h' :: x.hands[h] != x.hands[h'])
    && (forall k, h | k in x.stored && h in x.hands - x.lent :: x.stored[k] != x.hands[h])
  }

  /** The request does not write or store what it has already stored. */
  predicate Disciplined(v: Values, op: Op) {
    op.Put? || op.Identify? || op.Extend? ==> op.hand !in v.lent
  }

  lemma CreateAgrees(x: Heap, v: Values, op: Op, r: PendingRecord?)
    requires Grounded(x) && Owned(x) && Agrees(x, v) && op.Create? && r != null && r !in x.at
    ensures Owned(Acted(x, op, r)) && Agrees(Acted(x, op, r), Copied(v, op))
  {
  }

  lemma PutAgrees(x: Heap, v: Values, op: Op, r: PendingRecord?)
    requires Grounded(x) && Owned(x) && Agrees(x, v) && op.Put? && Disciplined(v, op)
    ensures Owned(Acted(x, op, r)) && Agrees(Acted(x, op, r), Copied(v, op))
  {
  }

  lemma PopAgrees(x: Heap, v: Values, op: Op, r: PendingRecord?)
    requires Grounded(x) && Owned(x) && Agrees(x, v) && op.Pop?
    ensures Owned(Acted(x, op, r)) && Agrees(Acted(x, op, r), Copied(v, op))
  {
  }

  /** Record y becomes q, which has the same redirect URI. */
  lemma TablesAfterWrite(x: Heap, v: Values, y: PendingRecord, q: PendingAuth)
    requires Grounded(x) && TablesAgree(x, v) && y in x.at
    ensures TablesAgree(x.(at := x.at[y := q]), v)
            <==> ((exists k | k in x.stored :: x.stored[k] == y) ==> q == x.at[y])
  {
    var after := x.(at := x.at[y := q]);
    if k :| k in x.stored && x.stored[k] == y {
      assert after.at[after.stored[k]] == q && v.stored[k] == x.at[y];
    }
  }

  lemma HandsAfterWrite(x: Heap, v: Values, h: nat, q: PendingAuth, c: PendingAuth)
    requires Grounded(x) && HandsAgree(x, v) && h in x.hands
    requires q.redirectURI == x.at[x.hands[h]].redirectURI == c.redirectURI
    requires h !in x.lent ==> c == q
    ensures HandsAgree(x.(at := x.at[x.hands[h] := q]), v.(held := v.held[h := c]))
            <==> ((exists o | o in x.hands && o !in x.lent && o != h :: x.hands[o] == x.hands[h])
                  ==> q == x.at[x.hands[h]])
  {
    var y := x.hands[h];
    var after := x.(at := x.at[y := q]);
    if o :| o in x.hands && o !in x.lent && o != h && x.hands[o] == y {
      assert after.at[after.hands[o]] == q && v.held[o] == x.at[y];
    }
  }

  lemma WriteAgrees(x: Heap, v: Values, op: Op, r: PendingRecord?)
    requires Grounded(x) && Owned(x) && Agrees(x, v) && (op.Identify? || op.Extend?) && Disciplined(v, op)
    ensures Owned(Acted(x, op, r)) && Agrees(Acted(x, op, r), Copied(v, op))
  {
    var h := op.hand;
    if h in x.hands {
      var q := Rewritten(x.at[x.hands[h]], op);
      TablesAfterWrite(x, v, x.hands[h], q);
      HandsAfterWrite(x, v, h, q, q);
    }
  }

  lemma LetGoAgrees(x: Heap, v: Values, op: Op, r: PendingRecord?)
    requires Grounded(x) && Owned(x) && Agrees(x, v) && (op.Release? || op.Drop?)
    ensures Owned(Acted(x, op, r)) && Agrees(Acted(x, op, r), Copied(v, op))
  {
  }

  /** A disciplined operation does the same to pointers as to copies. */
  lemma DisciplinedAgrees(x: Heap, v: Values, op: Op, r: PendingRecord?)
    requires Grounded(x) && Owned(x) && Agrees(x, v) && Disciplined(v, op) && (op.Create? ==> r != null && r !in x.at)
    ensures Owned(Acted(x, op, r)) && Agrees(Acted(x, op, r), Copied(v, op))
  {
    match op {
      case Create(_, _) => CreateAgrees(x, v, op, r);
      case Put(_, _) => PutAgrees(x, v, op, r);
      case Pop(_, _) => PopAgrees(x, v, op, r);
      case Identify(_, _) => WriteAgrees(x, v, op, r);
      case Extend(_, _) => WriteAgrees(x, v, op, r);
      case Release(_) => LetGoAgrees(x, v, op, r);
      case Drop(_) => LetGoAgrees(x, v, op, r);
    }
  }

  /** Somebody still uses the record that h has stored. */
  ghost predicate InUse(x: Heap, h: nat)
    requires h in x.hands
  {
    || (exists k | k in x.stored :: x.stored[k] == x.hands[h])
    || (exists o | o in x.hands && o !in x.lent :: x.hands[o] == x.hands[h])
  }

  /** A write by a request that has stored its record goes unnoticed if and only
      if nobody uses the record any more, or the write changes nothing: a late
      write to a stored record is seen by whoever pops it. */
  lemma LateWriteAgreesIff(x: Heap, v: Values, op: Op, r: PendingRecord?)
    requires Grounded(x) && Owned(x) && Agrees(x, v)
    requires (op.Identify? || op.Extend?) && op.hand in v.lent
    ensures Agrees(Acted(x, op, r), Copied(v, op))
            <==> !InUse(x, op.hand) || Rewritten(x.at[x.hands[op.hand]], op) == x.at[x.hands[op.hand]]
  {
    var h := op.hand;
    var q := Rewritten(x.at[x.hands[h]], op);
    TablesAfterWrite(x, v, x.hands[h], q);
    HandsAfterWrite(x, v, h, q, Rewritten(v.held[h], op));
  }

  /** A second put of a record goes unnoticed if and only if nobody has written the
      record since the first. */
  lemma LatePutAgreesIff(x: Heap, v: Values, h: nat, key: string)
    requires Grounded(x) && Agrees(x, v) && h in v.lent
    ensures Agrees(Acted(x, Put(h, key), null), Copied(v, Put(h, key))) <==> x.at[x.hands[h]] == v.held[h]
  {
    var after := Acted(x, Put(h, key), null);
    assert after.at[after.stored[key]] == x.at[x.hands[h]] && Copied(v, Put(h, key)).stored[key] == v.held[h];
  }

  /** The simplest run that shows the difference: create, put, write. */
  lemma LateWriteShows(r: PendingRecord, h: nat, p: PendingAuth, key: string, i: Identity)
    requires Identified(p, i) != p
    ensures var x := Acted(Acted(Heap(map[], map[], map[], {}), Create(h, p), r), Put(h, key), null);
            var v := Copied(Copied(NOTHING, Create(h, p)), Put(h, key));
            && Agrees(x, v) && !Agrees(Acted(x, Identify(h, i), null), Copied(v, Identify(h, i)))
  {
    var x := Acted(Acted(Heap(map[], map[], map[], {}), Create(h, p), r), Put(h, key), null);
    var v := Copied(Copied(NOTHING, Create(h, p)), Put(h, key));
    assert x.stored[key] == x.hands[h] == r;
    LateWriteAgreesIff(x, v, Identify(h, i), null);
  }

  // ----- Whole sequences

  predicate DisciplinedAll(v: Values, ops: seq<Op>) {
    ops == []
    || (DisciplinedAll(v, ops[..|ops| - 1]) && Disciplined(CopiedAll(v, ops[..|ops| - 1]), ops[|ops| - 1]))
  }

  /** The store with the local pointers of the requests in flight. */
  class MemoryStore {
    var pending: map<string, PendingRecord>
    var hands: map<nat, PendingRecord>
    /** Requests that have stored their record; it only records. */
    ghost var lent: set<nat>
    /** Every record made so far. */
    ghost var made: set<PendingRecord>

    constructor ()
      ensures Valid() && Owned(State()) && Agrees(State(), NOTHING) && made == {}
    {
      pending, hands, lent, made := map[], map[], {}, {};
    }

    ghost predicate Valid()
      reads this
    {
      Known(pending, made) && Known(hands, made) && lent <= hands.Keys
    }

    ghost function Snap(): (snap: map<PendingRecord, PendingAuth>)
      reads this, made
      ensures snap.Keys == made
    {
      map r | r in made :: r.Value()
    }

    ghost function State(): (x: Heap)
      requires Valid()
      reads this, made
      ensures Grounded(x)
    {
      Heap(Snap(), pending, hands, lent)
    }

    method DoCreate(h: nat, p: PendingAuth) returns (r: PendingRecord)
      requires Valid()
      modifies this`hands, this`lent, this`made
      ensures Valid() && fresh(r) && r !in old(made) && made == old(made) + {r}
      ensures State() == Acted(old(State()), Create(h, p), r)
    {
      r := new PendingRecord(p);
      ghost var snap := old(Snap())[r := p];
      hands, lent, made := hands[h := r], lent - {h}, made + {r};
      assert Snap() == snap;
    }

    /** The pointer is stored; the request keeps it. */
    method DoPut(h: nat, key: string)
      requires Valid()
      modifies this`pending, this`lent
      ensures Valid() && State() == Acted(old(State()), Put(h, key), null)
    {
      if h in hands {
        pending := pending[key := hands[h]];
        lent := lent + {h};
        assert Snap() == old(Snap());
      }
    }

    method DoPop(h: nat, key: string)
      requires Valid()
      modifies this`pending, this`hands, this`lent
      ensures Valid() && State() == Acted(old(State()), Pop(h, key), null)
    {
      if key in pending {
        var p := pending[key];
        pending := pending - {key};
        hands := hands[h := p];
        lent := lent - {h};
        assert Snap() == old(Snap());
      }
    }

    /** The in-place writes of callback, through whatever pointer it has. */
    method DoIdentify(h: nat, i: Identity)
      requires Valid()
      modifies made
      ensures Valid() && State() == Acted(old(State()), Identify(h, i), null)
    {
      if h in hands {
        ghost var snap := Snap()[hands[h] := Identified(hands[h].Value(), i)];
        hands[h].Overwrite(i);
        assert Snap() == snap;
      }
    }

    /** stashConsent's write before the put. */
    method DoExtend(h: nat, expires: int)
      requires Valid()
      modifies made
      ensures Valid() && State() == Acted(old(State()), Extend(h, expires), null)
    {
      if h in hands {
        ghost var snap := Snap()[hands[h] := hands[h].Value().(expires := expires)];
        hands[h].expires := expires;
        assert Snap() == snap;
      }
    }

    method DoRelease(h: nat)
      requires Valid()
      modifies this`hands, this`lent
      ensures Valid() && State() == Acted(old(State()), Release(h), null)
    {
      hands, lent := hands - {h}, lent - {h};
      assert Snap() == old(Snap());
    }

    method DoDrop(key: string)
      requires Valid()
      modifies this`pending
      ensures Valid() && State() == Acted(old(State()), Drop(key), null)
    {
      pending := pending - {key};
      assert Snap() == old(Snap());
    }

    method Do(op: Op) returns (ghost r: PendingRecord?)
      requires Valid()
      modifies this`pending, this`hands, this`lent, this`made, made
      ensures Valid() && fresh(made - old(made))
      ensures (op.Create? <==> r != null) && (r != null ==> r !in old(made))
      ensures State() == Acted(old(State()), op, r)
    {
      r := null;
      match op {
        case Create(h, p) => r := DoCreate(h, p);
        case Put(h, key) => DoPut(h, key);
        case Pop(h, key) => DoPop(h, key);
        case Identify(h, i) => DoIdentify(h, i);
        case Extend(h, expires) => DoExtend(h, expires);
        case Release(h) => DoRelease(h);
        case Drop(key) => DoDrop(key);
      }
    }

    /** If nobody writes or stores what it has already stored, handing out
        pointers is the same as handing out copies. */
    method DoAll(ops: seq<Op>, ghost v: Values)
      requires Valid() && Owned(State()) && Agrees(State(), v) && DisciplinedAll(v, ops)
      modifies this, made
      ensures Valid() && fresh(made - old(made))
      ensures Owned(State()) && Agrees(State(), CopiedAll(v, ops))
    {
      for i := 0 to |ops|
        invariant Valid() && fresh(made - old(made))
        invariant Owned(State()) && Agrees(State(), CopiedAll(v, ops[..i]))
      {
        DisciplinedPrefix(v, ops, i + 1);
        assert ops[..i + 1][..i] == ops[..i];
        DoNext(ops[i], CopiedAll(v, ops[..i]));
      }
      assert ops[..|ops|] == ops;
    }

    method DoNext(op: Op, ghost v: Values)
      requires Valid() && Owned(State()) && Agrees(State(), v) && Disciplined(v, op)
      modifies this, made
      ensures Valid() && fresh(made - old(made))
      ensures Owned(State()) && Agrees(State(), Copied(v, op))
    {
      ghost var before := State();
      var r := Do(op);
      DisciplinedAgrees(before, v, op, r);
    }
  }

  lemma {:induction false} DisciplinedPrefix(v: Values, ops: seq<Op>, n: nat)
    requires DisciplinedAll(v, ops) && n <= |ops|
    ensures DisciplinedAll(v, ops[..n])
  {
    if n == |ops| {
      assert ops[..n] == ops;
    } else {
      assert ops[..|ops| - 1][..n] == ops[..n];
      DisciplinedPrefix(v, ops[..|ops| - 1], n);
    }
  }
}
