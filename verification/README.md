# Verified model of the BuildPulse MCP server

This project models the parts of the BuildPulse MCP server that keep state, and
proves what they promise: the OAuth 2.1 authorization server of
`cmd/mcp-remote`, its two stores, its registration limiter, and, from
`internal/mcpserver`, the per-token tool budget, the concurrent fetch and merge
behind `get_recent_failures`, the organization cache and the path splitter.

Check it with `dafny verify dfyconfig.toml`.

## The authorization server

`AuthSteps.dfy` is the server as atomic steps. A request in flight is a program
point with the handler's locals; a step makes one store call, or does one
stretch of work on the handler's own locals. Steps of any number of requests
interleave freely. Every step may find the store failing, the clock advanced by
any amount, or Cognito, the encrypter and the organization lookup answering in
any way; between steps any stored record may be swept and any process may die with
a record in its hands. `AuthServer.dfy` has the handlers as code over mutable
tables, in the order and with the branches of the source. Each is proved to
leave exactly the state `AuthSchedule.Handled` defines: the request arrives with
these arguments, and for each of its turns the other requests take the steps
`env(k)` and then the handler takes one step with the answers `io(k)`, until it
has answered. `AuthSchedule.HandlingIsRunning` shows this to be a run of the step
system, event by event, so what holds of every run holds of the handlers.

`AuthAudit.dfy` adds a ledger that only watches. It says which place (table key
or request) carries which authorization, and keeps the trail of each: what has
happened to one accepted `/authorize`, from the Cognito hop to the last
refresh. `Lineage.Lawful` is the protocol a trail must follow, written without
tables or handlers. `AuthInvariant.AlwaysInv` shows that in every run every
trail is lawful, every live record is on the ledger at one place only, and says
what its trail says. `LineageTheorems.dfy` draws the consequences for every
lawful trail; `AuthTheorems.dfy`, `AuthEndings.dfy` (which answers end an
authorization), `AuthRedirects.dfy` (what a redirect delivers),
`AuthRevocation.dfy` and `RotationRace.dfy` do so for every run. `AuthSafety.dfy`
and `AuthDecency.dfy` are the proof that each step keeps the ledger.

A trail is the model's own note, so a second layer ties every note to the events
of the run. `AuthHistory.dfy` reads off a run which request brought a handler in,
which record it took from which place, and what Cognito answered it.
`AuthDeeds.EveryFactHappened` shows that each fact was written by one event, and
says what that request asked, that user chose, that clock showed and that service
answered. On it rest `AuthProvenance.dfy` (codes come from POSTs that approve,
logins and refreshes from Cognito's answers, redemptions from what clients sent),
`AuthOrigins.dfy` (authorizations and clients from requests), `AuthLookups.dfy`
(organizations from the lookup service), `AuthFailures.dfy` (exactly which failures
end an authorization) and `PendingLifetime.dfy` (how long a login and a consent
may wait).

What each request is answered is said once more from outside, in plain terms and
without the steps, for every schedule of other requests and every answer of the
services: `EntryExchange.dfy` for registration and authorize, `CallbackExchange.dfy`,
`ConsentExchange.dfy`, `CodeExchange.dfy`, `RefreshExchange.dfy` and
`RevokeExchange.dfy`.
`LoginThenConsent.dfy` joins two of them: the key a login shows is the key under
which the user's POST finds the record. `PhantomPuts.dfy` repeats the linear-use theorems
for a store whose puts may report an error and take effect all the same.

What is assumed of the world (`AuthRecords.Sound`): random strings are hex and
never repeat, the token hash is injective, the clock does not go back. URL
parsing and the PKCE hash are arbitrary functions. Callback accepts any string
as `state`, consent keys included, so a record may pass through callback many
times.

Five results are sharper than, or differ from, what the repository says:

* A refresh is said to fall back to the last known organizations
  (`oauth.go:687-694`), which suggests that a session's organizations are
  always those of the latest lookup that succeeded. They are, except exactly
  when a consent key was fed back to callback and that second lookup failed:
  callback then replaces what the first one found by nothing
  (`oauth.go:432-436`). `LineageTheorems.OrgsFollowLastLookup` is the exact
  condition; `ConsentReplay.ReplayOverrules` gives the six steps that bring the
  exception about in any run.
* Revoking a refresh token does not stop a rotation that has already popped it;
  the rotation stores a successor. `RotationRace.RotationOutlivesRevocation` is
  that run, from any reached state; `RotationRace.RevocationEndsLineageIff` says
  exactly when a revocation ends the authorization. Nor is the hint without
  effect (`oauth.go:512-534`): it decides which deletion comes first, and others
  can tell, exactly when the token is stored as a refresh token
  (`AuthRevocation.HintDoesNotMatterIff`). What holds in spite of both is that
  the token itself is never accepted again
  (`AuthRevocation.RevokedStaysRevoked`).
* The fallback to the stored subject in `tokenRefresh` (`oauth.go:678-681`)
  never applies: an answer without a subject is already an error in
  `parseIDTokenClaims` (`oauth.go:895-897`).
* Plain http is said to be for the user's own machine. `strings.EqualFold`
  (`register_guard.go:92`) also takes the long s, U+017F, for an s, so that
  spelling of localhost counts as well. `Redirects.AcceptedIffSafe` is the exact
  rule.
* The fifteen minutes of a consent screen bound the check, not the code: the
  expiry is compared before the client is looked up again and the code is made
  (`consent.go:311-348`), and a slow handler may make the code any time later.
  `PendingLifetime.ChecksAreTimely` is the exact rule for both waits,
  `PendingLifetime.CodeMayLag` the delay. Each replay of a consent key to callback
  starts another fifteen minutes.

## The stores

The handlers see a store of values. The memory store hands out pointers, callback
writes through its own, and keeps it after the put. `MemoryBackend.dfy` proves
exactly when that is the same as handing out copies: a write through a pointer
that has been stored shows if and only if somebody still uses the record and the
write changes it (`LateWriteAgreesIff`). `MemoryHandlers.dfy` proves that the
handlers never do that in any run, so that the pointers hold the very table of the
step system. What callback reads through its pointer after the put, the redirect
URI, nothing ever writes. `DynamoBackend.dfy` proves the same of the items of the DynamoDB
store, with expiries rounded down to the second, and of a deployment without a
refresh table. `ClockGrain.dfy` proves what the rounding does to every run: the
server on DynamoDB is the image of one in memory that takes a record for expired
less than a second early, and differs from it in nothing but the lost fraction.

## The other components

* `ToolLimiter.dfy`: the sliding window with pruned lists against the rule that
  looks at every admitted call. The program reads the clock before it takes the
  lock (`internal/mcpserver/policy.go:119`), so calls may arrive slightly out of
  order. `LateCalls.dfy` gives the exact price of a skew: the rule, the table and
  the isolation of keys hold if and only if there is none; the limit holds
  exactly for the stretches shorter than a minute by the skew. A late call can
  be let through over the limit (`LateCallSlipsThrough`) and a punctual one
  refused far below it (`LateCallsBlockTheNext`); both verdicts are right up to
  the skew (`VerdictWithinSkew`).
* `RegisterLimiter.dfy`: the fixed window. In n >= 1 windows, ends included, at
  most (n + 1) * limit - 1 calls of a key pass, one less than a count of windows
  suggests, and for every n up to the window's length some calls meet that bound.
* `FanOut.dfy`, `RecentFailures.dfy`, `FailureRanking.dfy`: goroutines,
  semaphore and wait group as a step system; the merge as loops; the sort as any
  stable sort.
* `OrgCache.dfy`, `OrgClient.dfy`: the cache with its fetch outside the lock,
  and `resolveOrgID` on top of it.
* `PathSplit.dfy`: `splitNonEmpty`.

Strings stand for byte strings, times are nanoseconds.

## Model

| member | source | states |
|---|---|---|
| AuthServer.Server.Register | cmd/mcp-remote/oauth.go:270-311 | registration with these arguments, its services answering io and the others acting env before its store call, leaves exactly the state of that schedule and returns its answer |
| AuthServer.Server.Authorize | cmd/mcp-remote/oauth.go:316-378 | the same for authorize: lookup, checks in order, stash |
| AuthServer.Server.Callback | cmd/mcp-remote/oauth.go:383-472 | the same for callback, whose record passes through five interruptible stretches and may be a consent record again |
| AuthServer.Server.Consent | cmd/mcp-remote/consent.go:289-358 | the same for consent with the action sent: pop, expiry, re-check of the registration, deny or mint |
| AuthServer.Server.TokenAuthorizationCode | cmd/mcp-remote/oauth.go:545-628 | the same for the code grant: pop, checks, session, refresh token |
| AuthServer.Server.TokenRefresh | cmd/mcp-remote/oauth.go:637-737 | the same for the refresh grant: pop, checks, Cognito, session, rotation |
| AuthServer.Server.Revoke | cmd/mcp-remote/oauth.go:497-538 | the same for revocation, for every token and hint |
| AuthServer.Server.RegisterFrom | cmd/mcp-remote/oauth.go:277-282 | registration behind its limiter: the request is admitted exactly if the limiter's bucket for the address allows it, and both states are as specified |
| EntryExchange.RegistrationIsAnswered | cmd/mcp-remote/oauth.go:270-311 | whatever others do and the store answers, a registration is answered with a new identifier if and only if the limiter admits it, it has one to five URIs that may receive codes and a name that fits, and the store takes it; under that identifier the client is then stored as it described itself; else which failure |
| EntryExchange.AuthorizationIsAnswered | cmd/mcp-remote/oauth.go:316-378 | whatever others do and the store answers, authorize sends the browser to Cognito with a random state if and only if the client is registered with that redirect URI, asks for a code, has an S256 challenge and the store takes the request; under that state the request then waits for fifteen minutes; else which failure |
| CallbackExchange.CallbackIsAnswered | cmd/mcp-remote/oauth.go:383-472 | whatever others do and the services answer, callback shows a consent screen with a random key if and only if the record is found and in time, Cognito names a user and the store takes the record again; under "consent:" and that key the record then has Cognito's user, organizations and ciphertext, the client's name and fifteen minutes; else which failure |
| ConsentExchange.ConsentIsAnswered | cmd/mcp-remote/consent.go:289-358 | whatever others do and the store answers, the user goes back to the client with a code and the client's state if and only if the POST approves a record that is found, in time and still registered, and the store takes the code, which is then stored for the record's user for a minute; with access_denied if and only if it does not approve such a record; else which failure |
| LoginThenConsent.ApprovedLoginGivesCode | cmd/mcp-remote/consent.go:289-369 | a POST with the key that a login has just shown, not overtaken, finds that login's record; if it approves, in time, a code for the original client, redirect URI and challenge and for the user Cognito named is stored and sent there |
| AuthSchedule.HandlingKeepsInv | cmd/mcp-remote/oauth.go:270-737 | serving a request among others keeps the invariant, as every handler's contract says |
| AuthSchedule.HandlingIsRunning | cmd/mcp-remote/oauth.go:270-737 | serving a request among others is the run of its arrival, then its turns with what others do before each |
| AuthServer.Server.StashConsent | cmd/mcp-remote/consent.go:362-369 | the put under the consent prefix is one step, with the expiry restarted and the ledger moved to the new key |
| AuthServer.Server.PersistSession | cmd/mcp-remote/mongo.go:152-174 | a session is stored under the token's hash, or, on an error, nothing changes |
| AuthServer.Server.DeleteSession | cmd/mcp-remote/mongo.go:179-189 | only the row under the token's hash goes |
| AuthInvariant.AlwaysInv | cmd/mcp-remote/oauth.go:316-737 | in every reachable state the ledger is exact and linear, every trail is lawful, every record agrees with its trail, no future key is in use, sessions and redirects are accounted for |
| AuthTheorems.OneLiveRecord | cmd/mcp-remote/oauth.go:606-732 | at every moment of every run an authorization has at most one live record among pending entries, codes, refresh tokens and handlers that hold one; every record belongs to an authorization |
| AuthTheorems.EveryTrailIsLawful | cmd/mcp-remote/oauth.go:357-732 | every accepted authorize follows the protocol of Lineage.Lawful to its end |
| AuthTheorems.OneCodePerAuthorization | cmd/mcp-remote/consent.go:305-348 | an accepted authorize yields at most one code, one redemption, one access token by code grant and one refresh lineage, even if consent keys go back to callback |
| AuthDeeds.EveryFactHappened | cmd/mcp-remote/oauth.go:316-737 | in every run every fact on every trail was written by one event, and its data are those of the request that brought the handler in, the user's action, the clock, the random string and the answers of Cognito and the store in that event |
| AuthOrigins.AuthorizationHasProvenance | cmd/mcp-remote/oauth.go:316-378 | every authorization is one authorize request that came in, with response type code and an S256 challenge, from a client registered with that redirect URI |
| AuthOrigins.OneAuthorizationPerRequest | cmd/mcp-remote/oauth.go:357-378 | in every run distinct authorizations were accepted by distinct events of distinct requests, so what is at most once for an authorization is at most once for an accepted authorize |
| AuthOrigins.ClientHasProvenance | cmd/mcp-remote/oauth.go:270-305 | every stored client is one registration that came in, was admitted and kept within the limits, under a fresh identifier |
| AuthOrigins.CodesGoToSafePlaces | cmd/mcp-remote/register_guard.go:43-99 | in every run every stored code is for a redirect URI that may receive codes: over plain http only on the user's own machine |
| AuthProvenance.ApprovalIsTheUsers | cmd/mcp-remote/consent.go:296-348 | in every run no code comes into being unless a consent POST with action "approve" came in and then took that authorization's record from under the key it named |
| AuthProvenance.LoginIsCognitos | cmd/mcp-remote/oauth.go:400-456 | in every run a noted login is what Cognito, the encrypter and the lookup answered the callback that took that authorization's record, with a non-empty subject |
| AuthProvenance.CodeHasProvenance | cmd/mcp-remote/consent.go:336-348 | in every run a stored code has such an approval, directly after such a login, and carries what authorize asked and Cognito said, for at most 60 seconds |
| AuthProvenance.RedirectFollowsChoice | cmd/mcp-remote/consent.go:326-357 | in every run an answer grants a code if and only if the POST that brought the handler in says "approve", and denies otherwise |
| AuthProvenance.RedemptionMatchesRequest | cmd/mcp-remote/oauth.go:551-580 | in every run a redemption is a code grant that came in with the approved code, checked within 60 seconds of the approval, with the proof of the original challenge and the original client and redirect URI (RFC 7636 section 4.6) |
| AuthProvenance.PresentationMatchesRequest | cmd/mcp-remote/oauth.go:637-659 | in every run an accepted refresh token came in with a request, is the one issued last, was checked within 30 days of the code exchange, and names no other client |
| AuthProvenance.RenewalIsCognitos | cmd/mcp-remote/oauth.go:661-694 | in every run a noted refresh is one that Cognito accepted for a named user, in an event in which that handler asked with the lineage's ciphertext |
| AuthProvenance.SessionHasProvenance | cmd/mcp-remote/mongo.go:152-174 | in every run a stored session was minted right after a redemption the client sent, for the user Cognito named at login, or right after a refresh Cognito accepted, for the user it named then |
| AuthTheorems.RefreshTokenMatchesLineage | cmd/mcp-remote/oauth.go:608-617 | a stored refresh token carries its lineage's client, scope, ciphertext, current user and organizations, key and deadline |
| AuthFailures.EndsIffFails | cmd/mcp-remote/oauth.go:391-732 | in every run a handler's step ends the authorization whose record it holds if and only if the record is late, the client or proof does not match, Cognito or the decrypter refuses, the client is unregistered, the user does not approve, the put fails, or there is no ciphertext; it then answers and stores no session |
| AuthFailures.FailureIsForever | cmd/mcp-remote/oauth.go:652-676 | after such a failure no continuation gives the authorization a record, a fact or a session |
| AuthFailures.FailedReauthEnds | cmd/mcp-remote/oauth.go:661-676 | in every run the Cognito step of a refresh ends its lineage if and only if Cognito gives anything but an acceptance with a non-empty subject |
| AuthFailures.FailedPresentationEnds | cmd/mcp-remote/oauth.go:652-659 | in every run the check of a refresh token does if and only if the token is late or another client is named |
| AuthFailures.FailedRotationEnds | cmd/mcp-remote/oauth.go:728-732 | in every run the rotation does if and only if the put fails |
| AuthFailures.FailedExchangeEnds | cmd/mcp-remote/oauth.go:556-578 | in every run the check of a code does if and only if it is late, another client's, with another redirect URI, or without proof of the challenge |
| CodeExchange.ExchangeSucceedsIffEntitled | cmd/mcp-remote/oauth.go:545-628 | whatever others do between its steps and whatever the store answers, a code grant gets tokens if and only if the store gives the code out and it is in time, the client's and proved, otherwise invalid_grant; the access token's session is then the code's user's, for an hour, if the store takes it, and there is a refresh token, for the same client and user and thirty days, if and only if the login left a ciphertext and the store takes it |
| RefreshExchange.RefreshSucceedsIffVouched | cmd/mcp-remote/oauth.go:637-737 | whatever others do between its steps and whatever the store answers, a refresh gets new tokens if and only if the store gives the token out, it is in time and no other client's, and Cognito vouches; as far as the store takes them, the session is that user's and the successor has the same client, scope, ciphertext and deadline |
| PendingLifetime.RecordsArePunctual | cmd/mcp-remote/oauth.go:354-367 | in every run every record that waits for Cognito or consent expires fifteen minutes after it was last stored |
| PendingLifetime.ChecksAreTimely | cmd/mcp-remote/consent.go:311-316 | in every run a callback or consent check ends its authorization if and only if it comes later than that |
| PendingLifetime.ApprovalsWereTimely | cmd/mcp-remote/consent.go:311-348 | in every run an approval is written by a handler that a consent POST with action "approve" brought in and that, holding the record, passed the consent check within fifteen minutes of the login before it |
| PendingLifetime.CodeMayLag | cmd/mcp-remote/consent.go:311-348 | the code itself may be made any time after that check |
| PhantomPuts.AlwaysInvWithPhantoms | cmd/mcp-remote/store_dynamo.go:155-332 | the invariant holds in every run even if puts may report an error and take effect |
| PhantomPuts.OneLiveRecordStill | cmd/mcp-remote/store_dynamo.go:155-332 | so do at most one live record of an authorization |
| PhantomPuts.LeavingIsStillFinal | cmd/mcp-remote/store_dynamo.go:178-332 | and the finality of leaving a table |
| PhantomPuts.RefusalLeavesRecordIffPut | cmd/mcp-remote/oauth.go:619-732 | but a refusal for such a put leaves the authorization alive, unless there was nothing to put, under a key that no answer shows |
| AuthTheorems.RedirectsAreRegistered | cmd/mcp-remote/consent.go:317-357 | a redirect emitted by consent goes to a URI that may receive codes and is registered to that client |
| AuthRedirects.RedirectDelivers | cmd/mcp-remote/consent.go:317-357 | in every run, when consent answers with a redirect its parameters arrive in the query of a registered URI of the client that may receive codes, with the state authorize was sent; it grants a code if and only if the POST that brought the handler in approves; a code it announces is new and stored in that step for that client, URI and challenge, and a denial touches no code |
| AuthTheorems.LeavingIsFinal | cmd/mcp-remote/store.go:44-62 | a state, consent key, code or refresh token that leaves its table is never found there again in any continuation |
| AuthTheorems.NoTokenTakenTwice | cmd/mcp-remote/oauth.go:645-651 | no refresh token is accepted twice in any run (RFC 9700 section 4.14) |
| AuthTheorems.EndedForever | cmd/mcp-remote/oauth.go:652-676 | an authorization that has ended never again has a record, a session or a rotation |
| AuthEndings.AnswerEndsIffDeadEnd | cmd/mcp-remote/oauth.go:412-732 | what the client can tell: in every run, a handler that held a record and now answers has ended that authorization if and only if the answer is a failure, access_denied, or tokens without a refresh token |
| AuthEndings.OverIffNoRecord | cmd/mcp-remote/oauth.go:606-732 | in every run an authorization has ended if and only if it has no record anywhere |
| AuthEndings.DeadEndIsForever | cmd/mcp-remote/oauth.go:652-676 | so after a refusal, failure or denial no continuation gives the authorization a record or adds anything to its trail |
| LineageTheorems.AtMostOneOfEach | cmd/mcp-remote/oauth.go:551-580 | on a lawful trail: at most one approval, redemption, code-grant session and refresh lineage |
| LineageTheorems.NothingAfterTheEnd | cmd/mcp-remote/oauth.go:728-732 | nothing follows the end of a trail |
| LineageTheorems.RedemptionIsBound | cmd/mcp-remote/oauth.go:551-578 | on a lawful trail a noted redemption was approved at most 60 seconds before the check, directly after a login; verifier, client and redirect URI match the original authorize (RFC 7636 section 4.6) |
| LineageTheorems.IdentityIsFrozen | cmd/mcp-remote/consent.go:337-348 | from the code on, subject, email, organizations and ciphertext of the login never change |
| LineageTheorems.SessionFollowsProof | cmd/mcp-remote/oauth.go:661-697 | on a lawful trail a noted session follows, in the same handler, a redemption or an accepted Cognito refresh with the ciphertext of the login, and carries its user and organizations |
| LineageTheorems.RefreshWithinDeadline | cmd/mcp-remote/oauth.go:652-659 | on a lawful trail every noted presentation is checked within 30 days of the code exchange, with the key last issued, for the same client |
| LineageTheorems.DeadlineIsAbsolute | cmd/mcp-remote/oauth.go:712-728 | rotations never move the deadline |
| LineageTheorems.OrgsFollowLastLookup | cmd/mcp-remote/oauth.go:687-694 | on every trail the organizations are those of the latest successful noted lookup if and only if no repeated callback with a failed lookup has overruled it since |
| AuthLookups.LookupsAreAnswers | cmd/mcp-remote/oauth.go:430-456 | in every run the latest noted lookup is the latest successful answer of the lookup service to a completed login or an accepted refresh of that authorization |
| AuthLookups.OrgsFollowAnswers | cmd/mcp-remote/oauth.go:687-694 | so in every run the organizations are those the service answered last, if and only if no repeated callback has overruled them |
| LineageTheorems.OneCallbackIsNeverOverruled | cmd/mcp-remote/oauth.go:432-436 | with a single callback they always are |
| ConsentReplay.ReplayOverrules | cmd/mcp-remote/oauth.go:391-456 | in every run, sending a pending, unexpired key to callback again while only the organization lookup fails leaves its authorization with no organizations, overruling an earlier lookup if there was one |
| AuthRevocation.HandledIsRevocation | cmd/mcp-remote/oauth.go:497-538 | the revoke handler, if the store answers, is two deletions with anything of others before and between them |
| RevokeExchange.RevocationIsAnswered | cmd/mcp-remote/oauth.go:497-538 | whatever others do and whether or not the deletions succeed, the client is told success if it named a token and invalid_request otherwise (RFC 7009 section 2.2) |
| AuthRevocation.RevokedStaysRevoked | cmd/mcp-remote/oauth.go:517-534 | whatever others do before, between and after the two deletions, and whatever the hint, no later state has the token in either table, stored before or not |
| AuthRevocation.RevocationTouchesOnlyItsToken | cmd/mcp-remote/oauth.go:520-534 | an interrupted revocation that finds no refresh token changes nothing but the session under its token |
| AuthRevocation.HintDoesNotMatterIff | cmd/mcp-remote/oauth.go:507-534 | two hints that differ in order give the same state, for all that others may do in between, if and only if the token is not stored as a refresh token when the first deletion comes |
| AuthRevocation.HintDoesNotMatter | cmd/mcp-remote/oauth.go:507-534 | uninterrupted, for every hint the token leaves both tables and nothing else changes (RFC 7009 section 2.1) |
| AuthRevocation.RevocationIsIdempotent | cmd/mcp-remote/oauth.go:517-534 | after a revocation and whatever came since, another one, interrupted by anything, with any hint, changes nothing but its own program point |
| RotationRace.RevocationEndsLineageIff | cmd/mcp-remote/oauth.go:520-534 | in every run, after the refresh-token deletion of a revocation an authorization has ended if and only if it had no record but that stored token |
| RotationRace.RotationOutlivesRevocation | cmd/mcp-remote/oauth.go:645-728 | from every reached state with a handler about to ask Cognito, a revocation of its token and then its remaining steps leave a stored refresh token and a session of that authorization |
| Redirects.ValidateRegistration | cmd/mcp-remote/register_guard.go:102-118 | accepts exactly one to five URIs that each may receive codes, with a name that fits |
| Redirects.AcceptedIffSafe | cmd/mcp-remote/register_guard.go:43-99 | validation accepts exactly the URIs of 1 to 2048 bytes that parse, have no fragment mark, and lead over https to a host, over http to localhost or a loopback address, or to an application whose scheme has a dot, schemes and host in any case |
| Redirects.Contains | cmd/mcp-remote/oauth.go:945-952 | finds exactly the members |
| Redirects.SubtleConstantTimeEq | cmd/mcp-remote/oauth.go:914-923 | the loop that never stops early decides equality |
| Redirects.AppendedParametersReachQuery | cmd/mcp-remote/consent.go:374-380 | appended parameters land in the query, after what was there, if and only if the URI has no fragment mark |
| Redirects.RegisteredUriKeepsParametersInQuery | cmd/mcp-remote/register_guard.go:54-59 | so they do for every registered URI (RFC 6749 section 3.1.2) |
| MemoryBackend.MemoryStore.DoPut | cmd/mcp-remote/store_memory.go:50-53 | the pointer is stored and the request keeps it |
| MemoryBackend.MemoryStore.DoPop | cmd/mcp-remote/store_memory.go:55-61 | load-and-delete hands the stored pointer to the request |
| MemoryBackend.MemoryStore.DoIdentify | cmd/mcp-remote/oauth.go:450-454 | callback's writes change the record for everybody who shares the pointer, stored or not |
| MemoryBackend.MemoryStore.DoExtend | cmd/mcp-remote/consent.go:364-364 | so does the write of the new expiry |
| MemoryBackend.DisciplinedAgrees | cmd/mcp-remote/store_memory.go:15-74 | an operation that does not write or store again what its request has stored does the same to pointers as to copies |
| MemoryBackend.LateWriteAgreesIff | cmd/mcp-remote/oauth.go:450-456 | a write through a pointer that has been stored goes unnoticed if and only if nobody uses the record any more or the write changes nothing |
| MemoryBackend.LatePutAgreesIff | cmd/mcp-remote/consent.go:362-369 | a second put of a pointer goes unnoticed if and only if nobody has written the record since |
| MemoryBackend.LateWriteShows | cmd/mcp-remote/oauth.go:450-456 | create, put, write: the stored record differs from a copy |
| MemoryBackend.MemoryStore.DoAll | cmd/mcp-remote/store_memory.go:15-74 | for any disciplined operations of any requests, a store of pointers agrees with a store of copies |
| MemoryHandlers.HandlersAreDisciplined | cmd/mcp-remote/oauth.go:350-456 | in every run the handlers' operations on pending records are disciplined, and copies in their place are the step system's table and the records its handlers hold |
| MemoryHandlers.FollowRun | cmd/mcp-remote/store_memory.go:15-74 | so the store of pointers holds after every run exactly the step system's pending records |
| DynamoBackend.ReadBackIsStamp | cmd/mcp-remote/time.go:7-12 | the trip of a time through a table rounds it down to the second if and only if it is outside the first second of 1970, where it comes back long past |
| DynamoBackend.ReadBackSettles | cmd/mcp-remote/store_dynamo.go:331-331 | a second trip changes nothing more |
| DynamoBackend.WrittenExpiriesAreStamped | cmd/mcp-remote/store_dynamo.go:166-166 | every expiry the handlers compute is outside that second |
| DynamoBackend.DynamoStore.PutPending | cmd/mcp-remote/store_dynamo.go:212-236 | every field but the fraction of the expiry can be read back; nothing else changes |
| DynamoBackend.DynamoStore.PopPending | cmd/mcp-remote/store_dynamo.go:238-270 | an atomic read and delete, or not found |
| DynamoBackend.DynamoStore.PutCode | cmd/mcp-remote/store_dynamo.go:155-176 | the same for codes |
| DynamoBackend.DynamoStore.PopCode | cmd/mcp-remote/store_dynamo.go:178-208 | the same for codes, under the code's own key |
| DynamoBackend.DynamoStore.PutRefresh | cmd/mcp-remote/store_dynamo.go:274-300 | the same for refresh tokens; without a refresh table an error and no change |
| DynamoBackend.DynamoStore.PopRefresh | cmd/mcp-remote/store_dynamo.go:302-332 | the same for refresh tokens; without a refresh table never found |
| ClockGrain.StepRounds | cmd/mcp-remote/store_dynamo.go:155-332 | outside the gap between rounded and exact expiry, rounding commutes with every step of the server |
| ClockGrain.RotateRounds | cmd/mcp-remote/oauth.go:719-728 | a rotation does not round a deadline further down |
| ClockGrain.CoarseRunIsRounded | cmd/mcp-remote/store_dynamo.go:155-332 | on every sequence of events the server on DynamoDB is the image of a server in memory that refuses as expired what it checks in the gap |
| ClockGrain.GapRefuses | cmd/mcp-remote/oauth.go:652-655 | in the gap it refuses as for an expired record, less than one grain early, and stores nothing |
| ToolLimiter.TokenLimiter.Sweep | internal/mcpserver/policy.go:47-58 | in any key order, exactly the aged-out entries and emptied keys go |
| ToolLimiter.TokenLimiter.Allow | internal/mcpserver/policy.go:36-65 | the verdict and the whole new table after the calls it has seen, with the keys callers send; in time order, a call is let through if and only if fewer than 120 of the same caller were in the minute before |
| ToolLimiter.LimiterRefinesRule | internal/mcpserver/policy.go:44-64 | for calls in time order, a call is admitted if and only if fewer than 120 admitted calls of its caller lie in the minute before it |
| ToolLimiter.WindowNeverOverfull | internal/mcpserver/policy.go:22-25 | no minute, wherever it starts, holds more than 120 admissions of a caller |
| ToolLimiter.TableIsExact | internal/mcpserver/policy.go:44-63 | the callers in the table are exactly those with an admission in the current minute; each list is those admissions, sorted, at most 120 |
| ToolLimiter.KeysAreIsolated | internal/mcpserver/policy.go:47-58 | a caller's verdicts are those of its own calls run alone |
| ToolLimiter.BudgetIsSharedIffSame | internal/mcpserver/policy.go:36-65 | in some calls in time order one caller's call changes a later verdict on another if and only if their keys are equal, the empty key and "anonymous" being the same |
| LateCalls.VerdictWithinSkew | internal/mcpserver/policy.go:44-64 | with clock readings up to some skew late, an admitted call finds fewer than 120 admissions in the minute before the latest possible reading, a refused one at least 120 in its own minute widened by the skew |
| LateCalls.RuleHoldsIffInOrder | internal/mcpserver/policy.go:119-119 | admission is by the rule for every history if and only if the skew is zero |
| LateCalls.StretchHoldsIff | internal/mcpserver/policy.go:119-119 | no history exceeds 120 admissions of a key in a stretch if and only if the stretch is empty or shorter than a minute by the skew |
| LateCalls.LateCallsShortenTheWindow | internal/mcpserver/policy.go:119-119 | the limit for the stretches shorter by the skew, wherever they start |
| LateCalls.LateCallSlipsThrough | internal/mcpserver/policy.go:47-58 | for every skew, after another key's sweep a call that late is admitted as the 121st of a stretch of a minute, less the skew, plus one nanosecond |
| LateCalls.LateCallsBlockTheNext | internal/mcpserver/policy.go:47-58 | late entries behind a fresh one are not pruned: a call is refused although its minute holds one admission |
| LateCalls.IsolationHoldsIffInOrder | internal/mcpserver/policy.go:47-58 | a key's verdicts are those of its own calls alone for every history if and only if the skew is zero |
| LateCalls.TableHoldsIffInOrder | internal/mcpserver/policy.go:44-63 | lists are as long as their key's minute has admissions for every history if and only if the skew is zero |
| RegisterLimiter.RateLimiter.Reap | cmd/mcp-remote/register_guard.go:150-154 | in any key order, exactly the expired buckets go |
| RegisterLimiter.RateLimiter.Allow | cmd/mcp-remote/register_guard.go:145-166 | the verdict and every bucket afterwards, buckets being objects written in place |
| RegisterLimiter.ReapingDecidesNothing | cmd/mcp-remote/register_guard.go:143-166 | every verdict is the one of the key's own window, never reaped |
| RegisterLimiter.FewGetThrough | cmd/mcp-remote/register_guard.go:120-126 | at most (n + 1) * limit - 1 calls of a key pass in any closed interval of n >= 1 windows, at most limit at one instant |
| RegisterLimiter.BoundIsMet | cmd/mcp-remote/register_guard.go:156-165 | for every limit and window and every n from one to the window's length in nanoseconds some calls reach the bound |
| FanOut.AtMostSixFetch | internal/mcpserver/tools.go:850-870 | under every schedule at most six goroutines hold a permit |
| FanOut.SlotIsOwn | internal/mcpserver/tools.go:856-885 | after any schedule, a slot has its own submission's answer if its goroutine has answered and is empty otherwise |
| FanOut.NeverStuck | internal/mcpserver/tools.go:860-887 | until main merges some step is possible |
| FanOut.EveryRunEnds | internal/mcpserver/tools.go:863-887 | a run has at most five steps for each submission and one more, and has them all exactly when main merges |
| FanOut.ScheduleDoesNotMatter | internal/mcpserver/tools.go:889-898 | whatever the completion order, the merge sees the same results |
| RecentFailures.Record | internal/mcpserver/tools.go:915-932 | a test's row is made on first sight with the test's and the submission's fields, afterwards only counted, and no other row changes |
| RecentFailures.Merge | internal/mcpserver/tools.go:899-937 | the loops leave a row for exactly the ids that failed in some fetched submission; it shows, field by field, the first occurrence in the newest of them, with its build URL, and counts them |
| RecentFailures.ReportedIffFailed | internal/mcpserver/tools.go:906-932 | an id is reported if and only if it is not empty and failed in some fetched submission |
| RecentFailures.RowIsNewest | internal/mcpserver/tools.go:917-936 | a row has, field by field, the data of the first occurrence in the newest submission in which the test failed and that submission's build URL, and counts the submissions in which it failed |
| RecentFailures.OlderSubmissionOnlyCounts | internal/mcpserver/tools.go:932-936 | one more, older submission changes no field of a row but the count, by at most one |
| FailureRanking.Materialize | internal/mcpserver/tools.go:940-943 | in any map order, every row once |
| FailureRanking.RankedIsStableSort | internal/mcpserver/tools.go:959-969 | the list is a permutation, sorted by count downwards and name upwards, and stable |
| FailureRanking.OnlyOneStableSort | internal/mcpserver/tools.go:963-968 | no other list is what a stable sort may return |
| FailureRanking.MapOrderKeepsKeys | internal/mcpserver/tools.go:940-945 | for every map order the sequence of counts and names is the same |
| FailureRanking.MapOrderShowsIffTie | internal/mcpserver/tools.go:940-968 | the whole list is the same for every map order if and only if no two rows share count and name |
| FailureRanking.ReportAddsUp | internal/mcpserver/tools.go:903-932 | the counts add up to the distinct failures of each submission, added up |
| FailureRanking.Report | internal/mcpserver/tools.go:899-945 | the list has one row for each test that failed in some fetched submission and no other, each with the newest occurrence's data and its build URL, the most failures first and then by name |
| FailureRanking.GetRecentFailures | internal/mcpserver/tools.go:839-957 | so it does after a fetch under any schedule |
| OrgCache.RosterIsOwnOrRecent | internal/mcpserver/client.go:161-184 | under every interleaving a returned roster is what the service answered the caller's own fetch, or what it answered some caller's fetch and that caller put in the cache, in an event less than 60 seconds before the event in which this one looked |
| OrgCache.OnlySuccessIsCached | internal/mcpserver/client.go:174-181 | the cache changes only by the store of a caller whose fetch the service answered, to that answer for 60 seconds |
| OrgCache.FailureStoresNothing | internal/mcpserver/client.go:158-176 | a caller whose fetch the service did not answer never stores |
| OrgClient.Client.CachedOrganizations | internal/mcpserver/client.go:161-184 | with other callers acting before and after its fetch, it leaves exactly the state of that schedule, and returns the cached roster on a hit and its own fetch's answer on a miss |
| OrgClient.ServedIsRun | internal/mcpserver/client.go:161-184 | that schedule is a run of the step system, event by event |
| OrgClient.Client.ResolveOrgID | internal/mcpserver/tools.go:259-289 | a call goes ahead exactly with a valid given organization, or with none and at most one accessible; with several it never does, and the refusal gives the name, slug and id of each |
| OrgClient.Complaint | internal/mcpserver/tools.go:277-288 | the message built in the loop has a line with name, slug and id for every organization |
| PathSplit.SplitNonEmpty | internal/mcpserver/resources.go:131-143 | the loop computes the parts |
| PathSplit.JoinThenSplit | internal/mcpserver/resources.go:131-143 | splitting inverts joining with any separators between, before and after |
| PathSplit.SplitThenJoin | internal/mcpserver/resources.go:131-143 | the parts are non-empty and separator-free, and make up the string again with separators between, before and after: they are its maximal runs, in order |

## Left out

- HTTP, HTML, CORS, middleware, routing, discovery documents, logging: no state.
- Cognito, KMS, DynamoDB, DocumentDB and platform-api: success and failure are parameters of a step.
- `net/url`, regular expressions, JSON, query encoding, `strings.TrimSpace`, `net.ParseIP`: parameters.
- Requests whose body cannot be decoded, and unknown grant types: refused before any state is touched.
- A delete that reports an error although it took effect is modelled as a record swept later. A put that does is in PhantomPuts.dfy, which keeps the invariant and linear use; the theorems on answers and provenance are for puts that fail only if nothing happens.
- The time a handler spends between its expiry check and what it then makes has no bound in the code: the deadlines are stated at the check.
- That a refreshed session belongs to the subject who logged in: the code takes what Cognito returns.
- Registered clients are never replaced or deleted: no handler does it.
- The difference between a nil and an empty organization list.
- AuthRevocation.HintDoesNotMatter: for a request served without interruption, because otherwise the claim is false; HintDoesNotMatterIff is the exact condition.
- AuthRevocation.RevokedStaysRevoked: for a store that does not fail; the handler ignores a failed delete, and AuthServer.Server.Revoke describes those runs too.
- ToolLimiter.LimiterRefinesRule: for calls in time order, because otherwise the rule is false; LateCalls.RuleHoldsIffInOrder is the exact condition.
- ToolLimiter.WindowNeverOverfull: for calls in time order; LateCalls.StretchHoldsIff is the exact condition.
- ToolLimiter.TableIsExact: for calls in time order; LateCalls.TableHoldsIffInOrder is the exact condition.
- ToolLimiter.KeysAreIsolated: for calls in time order; LateCalls.IsolationHoldsIffInOrder is the exact condition.
- MemoryBackend.MemoryStore.DoAll: for operations that do not write or store again what has been stored, because otherwise it is false (LateWriteAgreesIff is the condition); and for pending records, because clients, codes and refresh tokens are never written through a pointer, so the maps of AuthServer.Server hold values.
- RecentFailures.Merge: rows are values in the map, not pointers; each row belongs to one key.
- FailureRanking.Report: sort.SliceStable is represented by its contract, which OnlyOneStableSort shows to be a function.
- Tool registration, prompts, argument validators, badges, the client's HTTP calls, the installer: no state worth proving.
