/** dynamoStore (cmd/mcp-remote/store_dynamo.go): records become items with an
    expiry in whole seconds, and items become records again. */
module DynamoBackend {
  import opened Basics
  import opened AuthRecords

  /** time.Time{}, the instant a zero in the table stands for. */
  const ZERO_TIME := -62_135_596_800 * SECOND

  datatype ClientItem = ClientItem(
    clientID: string, clientName: string, redirectURIs: seq<string>, grantTypes: seq<string>, createdUnix: int)

  datatype CodeItem = CodeItem(
    code: string, clientID: string, redirectURI: string, codeChallenge: string, scope: string,
    subject: string, email: string, orgs: seq<string>, cognitoRefreshEnc: string, expiresUnix: int)

  datatype PendingItem = PendingItem(
    state: string, clientID: string, redirectURI: string, codeChallenge: string, originalState: string,
    scope: string, expiresUnix: int,
    clientName: string, subject: string, email: string, orgs: seq<string>, cognitoRefreshEnc: string)

  datatype RefreshItem = RefreshItem(
    hashedToken: string, clientID: string, scope: string, subject: string, email: string,
    orgs: seq<string>, cognitoRefreshEnc: string, expiresUnix: int)

  /** time.Time.Unix rounds towards the past, also before 1970. */
  function Unix(t: int): int {
    t / SECOND
  }

  function UnixToTime(unix: int): int {
    if unix == 0 then ZERO_TIME else unix * SECOND
  }

  /** An expiry as it comes back from the table. */
  function ReadBack(t: int): int {
    UnixToTime(Unix(t))
  }

  // ----- Conversions

  function ClientToItem(c: Client): ClientItem {
    ClientItem(c.clientID, c.name, c.redirectURIs, c.grantTypes, Unix(c.createdAt))
  }

  function ItemToClient(i: ClientItem): Client {
    Client(i.clientID, i.clientName, i.redirectURIs, i.grantTypes, UnixToTime(i.createdUnix))
  }

  function CodeToItem(c: AuthCode): CodeItem {
    CodeItem(c.code, c.clientID, c.redirectURI, c.codeChallenge, c.scope,
             c.subject, c.email, c.orgs, c.cognitoRefreshEnc, Unix(c.expires))
  }

  function ItemToCode(i: CodeItem): AuthCode {
    AuthCode(i.code, i.clientID, i.redirectURI, i.codeChallenge, i.scope,
             i.subject, i.email, i.orgs, i.cognitoRefreshEnc, UnixToTime(i.expiresUnix))
  }

  function PendingToItem(state: string, p: PendingAuth): PendingItem {
    PendingItem(state, p.clientID, p.redirectURI, p.codeChallenge, p.originalState, p.scope, Unix(p.expires),
                p.clientName, p.subject, p.email, p.orgs, p.cognitoRefreshEnc)
  }

  function ItemToPending(i: PendingItem): PendingAuth {
    PendingAuth(i.clientID, i.redirectURI, i.codeChallenge, i.originalState, i.scope, UnixToTime(i.expiresUnix),
                i.clientName, i.subject, i.email, i.orgs, i.cognitoRefreshEnc)
  }

  function RefreshToItem(rt: RefreshToken): RefreshItem {
    RefreshItem(rt.hashedToken, rt.clientID, rt.scope, rt.subject, rt.email, rt.orgs, rt.cognitoRefreshEnc,
                Unix(rt.expires))
  }

  function ItemToRefresh(i: RefreshItem): RefreshToken {
    RefreshToken(i.hashedToken, i.clientID, i.scope, i.subject, i.email, i.orgs, i.cognitoRefreshEnc,
                 UnixToTime(i.expiresUnix))
  }

  /** The round trip through a table is Stamp with a grain of one second for
      every time outside the first second of 1970; inside it the record comes
      back long expired. */
  lemma ReadBackIsStamp(w: World, t: int)
    requires w.grain == SECOND
    ensures ReadBack(t) == Stamp(w, t) <==> Unix(t) != 0
    ensures Unix(t) == 0 ==> ReadBack(t) < Stamp(w, t)
  {
  }

  /** A second trip changes nothing more, so rotations do not drift. */
  lemma ReadBackSettles(t: int)
    ensures ReadBack(ReadBack(t)) == ReadBack(t)
  {
    assert Unix(ZERO_TIME) * SECOND == ZERO_TIME;
    if Unix(t) != 0 {
      assert Unix(Unix(t) * SECOND) == Unix(t);
    }
  }

  /** Every expiry the handlers compute on a clock past 1970 is far from that
      second, so the table is the store of values with a grain of one second;
      ClockGrain says what that grain does to a run. */
  lemma WrittenExpiriesAreStamped(w: World, now: int)
    requires w.grain == SECOND && now >= 0
    ensures ReadBack(now + PENDING_TTL) == Stamp(w, now + PENDING_TTL)
    ensures ReadBack(now + CONSENT_TTL) == Stamp(w, now + CONSENT_TTL)
    ensures ReadBack(now + AUTH_CODE_TTL) == Stamp(w, now + AUTH_CODE_TTL)
    ensures ReadBack(now + REFRESH_TOKEN_TTL) == Stamp(w, now + REFRESH_TOKEN_TTL)
  {
    ReadBackIsStamp(w, now + PENDING_TTL);
    ReadBackIsStamp(w, now + CONSENT_TTL);
    ReadBackIsStamp(w, now + AUTH_CODE_TTL);
    ReadBackIsStamp(w, now + REFRESH_TOKEN_TTL);
  }

  class DynamoStore {
    /** Empty when the deployment has no refresh table. */
    const refreshTable: string
    var clients: map<string, ClientItem>
    var codes: map<string, CodeItem>
    var pending: map<string, PendingItem>
    var refresh: map<string, RefreshItem>

    constructor (refreshTable: string)
      ensures this.refreshTable == refreshTable
      ensures Valid() && Pending() == map[] && Codes() == map[] && Refresh() == map[]
    {
      this.refreshTable := refreshTable;
      clients, codes, pending, refresh := map[], map[], map[], map[];
    }

    /** An item lies under its own key; without its table no refresh item
        exists. */
    ghost predicate Valid()
      reads this
    {
      && (forall k | k in clients :: clients[k].clientID == k)
      && (forall k | k in codes :: codes[k].code == k)
      && (forall k | k in pending :: pending[k].state == k)
      && (forall k | k in refresh :: refresh[k].hashedToken == k)
      && (refreshTable == "" ==> refresh == map[])
    }

    ghost function Pending(): map<string, PendingAuth>
      reads this
    {
      map k | k in pending :: ItemToPending(pending[k])
    }

    ghost function Codes(): map<string, AuthCode>
      reads this
    {
      map k | k in codes :: ItemToCode(codes[k])
    }

    ghost function Refresh(): map<string, RefreshToken>
      reads this
    {
      map k | k in refresh :: ItemToRefresh(refresh[k])
    }

    method PutClient(c: Client, up: bool) returns (ok: bool)
      requires Valid()
      modifies this`clients
      ensures Valid() && ok == up
      ensures clients == if ok then old(clients)[c.clientID := ClientToItem(c)] else old(clients)
    {
      ok := up;
      if ok {
        clients := clients[c.clientID := ClientToItem(c)];
      }
    }

    /** The client as registered, but for the fraction of createdAt. */
    method GetClient(id: string, up: bool) returns (c: Option<Client>)
      requires Valid()
      ensures c == if up && id in clients then Some(ItemToClient(clients[id])) else None
      ensures c.Some? ==> c.value.clientID == id
    {
      if !up || id !in clients {
        return None;
      }
      return Some(ItemToClient(clients[id]));
    }

    method PutPending(state: string, p: PendingAuth, up: bool) returns (ok: bool)
      requires Valid()
      modifies this`pending
      ensures Valid() && ok == up
      ensures Pending() == if ok then old(Pending())[state := p.(expires := ReadBack(p.expires))] else old(Pending())
    {
      ok := up;
      if ok {
        pending := pending[state := PendingToItem(state, p)];
      }
    }

    /** DeleteItem with ALL_OLD: one atomic read and delete. */
    method PopPending(state: string, up: bool) returns (p: Option<PendingAuth>)
      requires Valid()
      modifies this`pending
      ensures Valid()
      ensures p == if up && state in old(Pending()) then Some(old(Pending())[state]) else None
      ensures Pending() == if p.Some? then old(Pending()) - {state} else old(Pending())
    {
      if !up || state !in pending {
        return None;
      }
      p := Some(ItemToPending(pending[state]));
      pending := pending - {state};
    }

    method PutCode(c: AuthCode, up: bool) returns (ok: bool)
      requires Valid()
      modifies this`codes
      ensures Valid() && ok == up
      ensures Codes() == if ok then old(Codes())[c.code := c.(expires := ReadBack(c.expires))] else old(Codes())
    {
      ok := up;
      if ok {
        codes := codes[c.code := CodeToItem(c)];
      }
    }

    method PopCode(code: string, up: bool) returns (c: Option<AuthCode>)
      requires Valid()
      modifies this`codes
      ensures Valid()
      ensures c == if up && code in old(Codes()) then Some(old(Codes())[code]) else None
      ensures Codes() == if c.Some? then old(Codes()) - {code} else old(Codes())
      ensures c.Some? ==> c.value.code == code
    {
      if !up || code !in codes {
        return None;
      }
      c := Some(ItemToCode(codes[code]));
      codes := codes - {code};
    }

    /** Without a refresh table the token is not stored and the caller is told. */
    method PutRefresh(rt: RefreshToken, up: bool) returns (ok: bool)
      requires Valid()
      modifies this`refresh
      ensures Valid() && ok == (up && refreshTable != "")
      ensures Refresh() == if ok then old(Refresh())[rt.hashedToken := rt.(expires := ReadBack(rt.expires))]
                           else old(Refresh())
    {
      if refreshTable == "" {
        return false;
      }
      ok := up;
      if ok {
        refresh := refresh[rt.hashedToken := RefreshToItem(rt)];
      }
    }

    method PopRefresh(key: string, up: bool) returns (rt: Option<RefreshToken>)
      requires Valid()
      modifies this`refresh
      ensures Valid()
      ensures rt == if up && key in old(Refresh()) then Some(old(Refresh())[key]) else None
      ensures Refresh() == if rt.Some? then old(Refresh()) - {key} else old(Refresh())
      ensures rt.Some? ==> rt.value.hashedToken == key
    {
      if refreshTable == "" || !up || key !in refresh {
        return None;
      }
      rt := Some(ItemToRefresh(refresh[key]));
      refresh := refresh - {key};
    }
  }
}
