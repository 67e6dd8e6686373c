/** Records of the authorization server (cmd/mcp-remote/oauth.go), and the
    outside world it depends on: hashing, randomness, URL parsing, the store's
    clock resolution. Times are nanoseconds. */
module AuthRecords {
  import opened Basics
  import opened Redirects

  const ACCESS_TOKEN_TTL := 3600 * SECOND
  const AUTH_CODE_TTL := 60 * SECOND
  const PENDING_TTL := 15 * 60 * SECOND
  const CONSENT_TTL := 15 * 60 * SECOND
  const REFRESH_TOKEN_TTL := 30 * 24 * 3600 * SECOND
  const DEFAULT_SCOPE := "buildpulse.read"
  const CONSENT_PREFIX := "consent:"
  const CLIENT_PREFIX := "mcp_"

  type Grain = n: nat | 0 < n witness 1

  /** coin(i) is the i-th string randomHex ever returned, to any caller.
      grain is the resolution at which the store keeps an expiry: one
      nanosecond in memory, one second in DynamoDB. */
  datatype World = World(
    configured: bool,
    parse: Parser,
    hash: string -> string,
    challengeOf: string -> string,
    coin: nat -> string,
    grain: Grain)

  predicate IsHexDigit(c: char) {
    '0' <= c <= '9' || 'a' <= c <= 'f'
  }

  predicate IsHex(s: string) {
    s != "" && forall i | 0 <= i < |s| :: IsHexDigit(s[i])
  }

  /** Random draws are distinct hex strings and the token hash is injective. */
  ghost predicate Sound(w: World) {
    && (forall i: nat, j: nat :: w.coin(i) == w.coin(j) ==> i == j)
    && (forall i: nat :: IsHex(w.coin(i)))
    && (forall a, b :: w.hash(a) == w.hash(b) ==> a == b)
  }

  /** An expiry as the store gives it back. */
  function Stamp(w: World, t: int): int {
    t - t % w.grain
  }

  function ConsentKey(key: string): string {
    CONSENT_PREFIX + key
  }

  predicate IsConsentKey(key: string) {
    CONSENT_PREFIX <= key
  }

  datatype Client = Client(
    clientID: string, name: string, redirectURIs: seq<string>, grantTypes: seq<string>, createdAt: int)

  datatype PendingAuth = PendingAuth(
    clientID: string,
    redirectURI: string,
    codeChallenge: string,
    originalState: string,
    scope: string,
    expires: int,
    clientName: string,
    subject: string,
    email: string,
    orgs: seq<string>,
    cognitoRefreshEnc: string)

  datatype AuthCode = AuthCode(
    code: string,
    clientID: string,
    redirectURI: string,
    codeChallenge: string,
    scope: string,
    subject: string,
    email: string,
    orgs: seq<string>,
    cognitoRefreshEnc: string,
    expires: int)

  datatype RefreshToken = RefreshToken(
    hashedToken: string,
    clientID: string,
    scope: string,
    subject: string,
    email: string,
    orgs: seq<string>,
    cognitoRefreshEnc: string,
    expires: int)

  /** A row of mcpSessions: what platform-api accepts as a bearer token. */
  datatype Session = Session(
    subject: string, email: string, orgs: seq<string>, createdAt: int, expiresAt: int)

  // ----- Requests and responses

  datatype Authorization = Authorization(
    clientID: string,
    redirectURI: string,
    responseType: string,
    codeChallenge: string,
    codeChallengeMethod: string,
    scope: string,
    state: string)

  datatype CodeGrant = CodeGrant(code: string, verifier: string, clientID: string, redirectURI: string)

  datatype Request =
    | RegisterRequest(admitted: bool, name: string, uris: seq<string>, grants: seq<string>)
    | AuthorizeRequest(authorization: Authorization)
    | CallbackRequest(code: string, state: string)
    | ConsentRequest(key: string, action: string)
    | CodeRequest(grant: CodeGrant)
    | RefreshRequest(presented: string, clientID: string)
    | RevokeRequest(token: string, hint: string)

  datatype OAuthError =
    | TemporarilyUnavailable
    | ServerMisconfigured
    | UnsupportedResponseType
    | InvalidRequest
    | InvalidClient
    | InvalidRedirectUri
    | InvalidGrant
    | UpstreamError
    | ServerError
    | ConsentAlreadyUsed
    | ConsentExpired
    | Crashed

  datatype Params =
    | CodeGranted(code: string, state: string)
    | AccessDenied(state: string)

  datatype Response =
    | Failed(error: OAuthError)
    | Registered(clientID: string)
    | ToCognito(state: string)
    | ConsentShown(key: string)
    | Redirected(clientID: string, uri: string, params: Params)
    | Tokens(access: string, refresh: Option<string>, scope: string)
    | RevokeDone

  // ----- Answers of the services behind the handlers

  /** Claims and refresh token of a Cognito code exchange, the encrypter's
      answer, and the organization lookup's. */
  datatype Login = Login(
    subject: string,
    email: string,
    cognitoRefresh: string,
    encrypted: Option<string>,
    orgs: Option<seq<string>>)

  datatype Reauth =
    | DecryptFailed
    | CognitoRejected
    | CognitoAccepted(subject: string, email: string, orgs: Option<seq<string>>)

  /** Everything nondeterministic in one atomic step: how far the clock moved,
      whether the store call succeeded, what Cognito and its neighbours said. */
  datatype IO = IO(tick: nat, ok: bool, login: Option<Login>, reauth: Reauth)

  /** A step in which no time passes and the store answers. */
  const SMOOTH := IO(0, true, None, DecryptFailed)

  function EncryptedRefresh(l: Login): string {
    if l.cognitoRefresh == "" then "" else l.encrypted.GetOr("")
  }
}
