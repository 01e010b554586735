# An OpenID Connect identity provider and its backend-for-frontend

This project models two programs: the identity provider in `idp-auth-server/` (an OAuth 2.0
authorization server with OpenID Connect, dynamic client registration, client ID metadata
documents and `private_key_jwt` client authentication) and the session half of the
backend-for-frontend in `bff/`. It proves what they keep over whole runs.

The identity provider guards its maps with one mutex that a single request takes and releases
several times. `State.dfy` holds those maps and the effect of each critical section on them.
`Server.dfy` is the server object: one method for each critical section, changing the object's
fields, each proved against the function of `State.dfy` with the same effect. `Machine.dfy` makes
the same functions the steps of a machine: a request in flight is a program counter holding its
locals, and any other request may step in between. Next to the server's state a world records
history - requests received, identifiers and secrets drawn, logins, sessions created and logged out,
codes issued and consumed, grants, tokens, answers, documents and key sets fetched, assertions accepted - which the server never reads.
`Invariants.dfy`, `Steps.dfy` and `TokenSteps.dfy` show that every step of every request keeps one
invariant and never goes back on what it established; `Theorems.dfy` draws the conclusions for
every reachable world. `Effects.dfy` says what single steps and
whole runs come to without the functions that compute it: the contents of a token, a registration, a
pending login, a cached document, a verdict on an assertion. Three files go further, on `Frames.dfy`, which says what each step leaves alone: `Reissue.dfy` on what a chain of
refreshes leaves unchanged and `Stale.dfy` on a run where that fails, `Keys.dfy` on where the keys an assertion is checked with come from, and
`Lasting.dfy` on what codes and refresh tokens are good for, and until when.

Below that lie the parts that need no interleaving: list and scope algebra (`Lists.dfy`,
`Scopes.dfy`), claim sets (`Claims.dfy`), registrations (`Registration.dfy`), sessions and their
look-ups (`Idp.dfy`), metadata documents (`Documents.dfy`) and the replay table (`Replay.dfy`).

The BFF is in four files: `StateClaims.dfy` (the table of claimed OIDC states), `BffSessions.dfy`
(store and manager), `BffRuns.dfy` (proxied requests as a step machine) and `BffHandler.dfy` (the
callback and the token forwarder as code, the forwarder proved to be a run of that machine).

Conventions. Times are integers in nanoseconds; the clock starts at least one second after the
epoch and never goes back. A random identifier is one no table has met and that is not a URL. Map
scans may return any match, as Go's do. Cryptography and parsing are fields of `Config` of which
nothing is assumed beyond what a lemma says in its `requires`: Client Identifier URLs are non-empty
and hold no NUL (`UrlsSane`), and the pairwise HMAC is injective (`MacInjective`).

## Where code and expectation part

- `clientIDMetadataTTLFrom` multiplies in int64 before clamping. The result always stays between a
  minute and a day, but a max-age of 9223372037 seconds, meant as "for ever", is cached for a minute
  (`Documents.MaxAgeWraps`); `Documents.MaxAgeExactly` says for which values the product does no harm.
- An assertion is checked and consumed at two readings of the clock. The same assertion can be
  accepted twice if it was verified in the last instant of its window and consumed after it
  (`Replay.AcceptedTwice`); `Replay.SameAssertionAgain` and `Theorems.AssertionsNotReplayed` show that
  this is the only way.
- Keys fetched for one document are cached with whichever document is live when they arrive. They
  match it exactly when both name the same source (`Keys.PutKeysExactly`, `Keys.KeysUnmatched`).
- `Claim` reads the clock before it takes its lock, so a call overtaken by a cleanup can claim a
  state again too soon (`StateClaims.OvertakenClaim`). A reading is safe exactly when it is not behind
  the last cleanup (`StateClaims.SameAnswersExactly`).
- The BFF looks a session up by its trimmed cookie value and deletes it by the value as sent, so a
  logout or rotation removes the old session exactly when there was nothing to trim
  (`BffSessions.RevokedExactly`).
- A grant taken before an approval and answered after it puts the older claims back on file
  (`Reissue.LastAnswerStands`, and as a whole run `Stale.StaleGrantFails`). Tokens say the same between
  approvals exactly when no such grant says otherwise (`Reissue.AnswersSayExactly`).
- The sector of a client without a host in its redirect URI is its client id. If one sector begins
  with another followed by a NUL and `internal|`, two users share a pairwise subject, and otherwise never
  (`Idp.AdvertisedSubSharedExactly`). Likewise a NUL in a client id lets two of them share a replay key
  (`Replay.KeySharedExactly`); URL client ids hold none.

## Model

| member | source | states |
|---|---|---|
| Theorems.SessionsCoherent | idp-auth-server/main.go:1082-1110 | in every reachable world a session sits under its own cookie, holds one entry a client, shares its subject with no other session, and every csid occurs in one place only, so map scans cannot depend on order |
| Theorems.CsidForever | idp-auth-server/main.go:1817-1829 | however the run goes on, a csid is only ever found in the session, with the client and the subject, it was drawn for |
| Theorems.LogoutIsFinal | idp-auth-server/main.go:790-803 | after logout no step brings the session back, and any answer for it is to a grant made before the logout |
| Theorems.CodesConserved | idp-auth-server/main.go:1304-1309 | codes ever issued are the disjoint union of live and consumed ones, and no code is behind two token responses under any interleaving (RFC 6749 section 4.1.2) |
| Theorems.PresentedIsSpent | idp-auth-server/main.go:1300-1316 | a presented code is consumed for good, whether or not PKCE and client authentication then succeed |
| Theorems.IdentityBound | idp-auth-server/main.go:1304-1399 | every answered code goes to the client, login session and subject recorded when it was issued; every answered token belongs to the client session named in it |
| Theorems.RefreshChainBound | idp-auth-server/main.go:1376-1418 | a code's answer, refreshed any number of times, each time with a token the answer before gave out, still goes to the client, login session and subject recorded when the code was issued |
| Theorems.RefreshChainKeeps | idp-auth-server/main.go:1376-1418 | whatever the first answer was to, every answer down the chain is for its client session, client and login session |
| Theorems.TokensNameTheServer | idp-auth-server/main.go:1435-1475 | every token ever signed has the server's issuer and its kind's audience, and access and refresh tokens their own csid, however the claims were edited |
| Effects.TokenContents | idp-auth-server/main.go:1693-1724 | every token given out has iat at the answer, exp its kind's lifetime later, the edited sub or else the advertised one, every other claim it started from and none but the server's own besides |
| Effects.TokensGiven | idp-auth-server/main.go:1437-1474 | an access token in every answer, a refresh token exactly with offline_access, an ID token exactly with openid, one of each |
| Effects.AccessAudienceExactly | idp-auth-server/main.go:1436 | the user info endpoint first, then every configured audience, none twice |
| Effects.DefaultClaims | idp-auth-server/main.go:1964-2000 | without claims on file a grant carries subject, azp, the request's nonce, profile and email claims exactly as asked for, token_use and scope, and nothing else |
| Effects.FiledClaims | idp-auth-server/main.go:1360-1374 | with claims on file it carries those, its entry's client, scope and subject, and the entry's csid for good |
| Effects.AnswerFiled | idp-auth-server/main.go:1478-1493 | an answer shows in its own entry as the tokens given, and in no other |
| Effects.StampShows | idp-auth-server/main.go:1374 | the csid put into a grant shows in the entry's own access claims and changes no other claim |
| Theorems.RedirectsAreRegistered | idp-auth-server/main.go:813-979 | every redirect made, and every redirect URI stored in a pending request or client session, is one the client's registration allows, on the cookie, hint, error and approval paths alike |
| Effects.PendingLogins | idp-auth-server/main.go:966-1002 | a request waiting for its user waits until approved, says what a received request asked for, and names who logged in on it last |
| Effects.LoginKeepsRequest | idp-auth-server/main.go:997-1002 | a login changes the user under its own request id and nothing else |
| Effects.ApprovalUnderWay | idp-auth-server/main.go:1034-1041 | what an approval will commit is what was asked under its request id, for a user who logged in on it |
| Effects.ApprovalCommits | idp-auth-server/main.go:1082-1114 | the commit ends that request and no other, puts what was asked and approved in the entry of the client that asked, and sets a code on its way for it |
| Effects.CodeGoesOut | idp-auth-server/main.go:1118-1141 | the code is on record for that session, client, subject and nonce, and goes to the entry's redirect URI with the request's state |
| Effects.AuthorizeShows | idp-auth-server/main.go:908-922 | after /authorize with a session its entry for the client holds this request's challenge and redirect URI and is otherwise, like all others, as before |
| Effects.HintShows | idp-auth-server/main.go:941-955 | likewise for the session a hint names |
| Effects.WithoutSession | idp-auth-server/main.go:925-976 | without a session: to the login form, to the hint, or back with login_required, by prompt and hint |
| Effects.WithoutHint | idp-auth-server/main.go:958-962 | a hint that names no session ends in login_required at the request's own redirect URI |
| Effects.ReceivedAs | idp-auth-server/main.go:883-892 | a challenge without a method means plain (RFC 7636 section 4.3); nothing else of a request changes |
| Effects.AuthorizeGoesOn | idp-auth-server/main.go:834-853 | a request goes on exactly if its redirect URI is asserted where it must be and it brings a challenge where it must |
| Theorems.DynamicRedirects | idp-auth-server/main.go:834-841 | a redirect for a dynamically registered client goes to one of its registered URIs |
| Theorems.ChallengesUsable | idp-auth-server/main.go:847-892 | a stored challenge names S256 or plain, and a document client that never asked for keys always has a challenge |
| Theorems.CodesProven | idp-auth-server/main.go:1338-1358 | every answered code came with a verifier that maps to the challenge read from its client session (RFC 7636 section 4.6) |
| Theorems.HintFindsOneUser | idp-auth-server/main.go:1804-1813 | an id_token_hint matches at most one session: in public mode always, in pairwise mode unless two sectors overlap, the exact way in which two users can share a subject |
| Theorems.RegistryStable | idp-auth-server/main.go:669-682 | a client is never unregistered and never changes how it registered; a dynamic registration is constant; a document keeps its first issue time |
| Theorems.CacheIsRegistry | idp-auth-server/clientid_metadata.go:108-144 | for URL client ids cache and registry hold the same registrations, each obeying the document rules, under any number of concurrent fetches |
| Theorems.AutomaticIsHistory | idp-auth-server/main.go:669-715 | in every reachable world an automatic registration is the one-shot summary of that client's authorize requests |
| Theorems.DynamicHasSecret | idp-auth-server/main.go:548-560 | every dynamic client whose method needs a secret has a non-empty one, so the missing-secret branch cannot be reached |
| Effects.RegisteredAsAsked | idp-auth-server/main.go:523-571 | every dynamic registration is what was sent, normalized, at the time it was sent, with exactly the secret drawn for it, which never expires |
| Effects.SeenExactly | idp-auth-server/main.go:669-709 | a first sight is registered as of now, a later one keeps its time, and nobody else changes |
| Theorems.DynamicClientsAuthenticate | idp-auth-server/main.go:1231-1256 | such a client is answered only if method, client id and secret presented all equal its registration |
| Theorems.DocumentsFailClosed | idp-auth-server/main.go:1192-1257 | a document client is answered on a cached or just fetched document younger than the longest lifetime and, if it asks for keys, with a consumed assertion signed by a key the client had published - in a document of its own, or in an answer of the key URL such a document names - that passed every other check too; a document that cannot be read again serves only public clients |
| Effects.KeyAnswersProven | idp-auth-server/private_key_jwt.go:52-102 | an answer to a client whose document asks for keys rests on an assertion signed by a published key that fits it, with the right issuer, subject, audience, algorithm and times |
| Effects.VerifiedExactly | idp-auth-server/private_key_jwt.go:52-102 | verification goes on if and only if the assertion is in order and a key in hand vouches for it |
| Invariants.AssertionPassesExactly | idp-auth-server/private_key_jwt.go:62-102 | the checks pass if and only if algorithm, issuer, subject, audience, times and jti are in order and some published key for it made the signature |
| Effects.ConsumesExactly | idp-auth-server/private_key_jwt.go:109-128 | a verified assertion is accepted if and only if every earlier acceptance of its client and jti is a minute past its expiry |
| Effects.DocumentAdmittedExactly | idp-auth-server/main.go:1230-1245 | a document asks for nothing, or exactly for an assertion presented as one and for no other client |
| Effects.WithoutDocument | idp-auth-server/main.go:1200-1223 | a document that cannot be read ends every request but a public client's token request |
| Effects.DocumentLivesExactly | idp-auth-server/clientid_metadata.go:108-144 | a cached document is what its last fetch brought, live exactly until the lifetime its header gave is over |
| Effects.SourceExactly | idp-auth-server/private_key_jwt.go:143-156 | keys in the document come before its key URL |
| Theorems.AssertionsNotReplayed | idp-auth-server/private_key_jwt.go:52-103 | two acceptances of one client and jti lie on two sides of the first one's expiry plus leeway; for one assertion that means its deadline passed between check and consumption |
| Theorems.AssertionsAnswerOnce | idp-auth-server/private_key_jwt.go:52-128 | no two token answers rest on one acceptance, and two that rest on acceptances of one client and jti have the first one's expiry plus leeway between them (RFC 7523 section 3) |
| Theorems.AnswersShowAcceptances | idp-auth-server/main.go:1238-1245 | every answer that needed an assertion rests on an acceptance of the very assertion it was shown, for its own client |
| Theorems.ReplayTableIsHistory | idp-auth-server/private_key_jwt.go:109-128 | in every reachable world the table refuses a client and jti exactly when the full history of acceptances would |
| Theorems.ReplayTableBounded | idp-auth-server/private_key_jwt.go:117-126 | after any consumption the table has at most one record for each acceptance of the last 660 seconds |
| TokenSteps.StepKeeps | idp-auth-server/main.go:862-1497 | every critical section of every request keeps the whole invariant, and history only grows |
| TokenSteps.RunKeeps | idp-auth-server/main.go:862-1497 | so does every interleaving of any length |
| Theorems.DynamicAdmittedExactly | idp-auth-server/main.go:1230-1256 | a dynamic client passes if and only if it is public or shows its own id and secret by its registered method |
| Lasting.TokenLastsUntilLogout | idp-auth-server/main.go:1387-1397 | the csid of a token signed here is found in the login session it was minted for exactly until that session is logged out |
| Lasting.CodeRoundTrip | idp-auth-server/main.go:1118-1316 | from its issue on, in every later world in which a code is still live, presenting it takes it out with the session, client, subject and nonce it was issued with, whatever ran in between |
| Lasting.CodeRedeems | idp-auth-server/main.go:1304-1374 | a code taken, whatever ran since, gives a grant if and only if its session still has its client's entry and the verifier is its challenge, or hashes to it, or there is none; and then on exactly that entry |
| Lasting.ApprovalRecorded | idp-auth-server/main.go:1082-1110 | an approval records what was asked and approved in its client's entry, keeps that client's csid and changes no other entry |
| Lasting.StepKept | idp-auth-server/main.go:862-1497 | no step of any request loses a csid of a live session |
| Reissue.ReissueFixed | idp-auth-server/main.go:1360-1497 | between approvals, and with any other requests in between, all access tokens of a client session say the same up to iat and exp, and all ID tokens too once ID token claims are on file, as long as no older grant is answered that says otherwise |
| Reissue.AnswersSayExactly | idp-auth-server/main.go:1360-1497 | with no approval in between, every answer says what is on file if and only if every answered grant from before does |
| Stale.StaleGrantFails | idp-auth-server/main.go:1322-1493 | a run where one does not: approved, redeemed, approved again, answered late, refreshed - and the refresh says what the first approval said |
| Reissue.LastAnswerStands | idp-auth-server/main.go:1476-1493 | an answer leaves on file what its own access token said, and its ID token if it had one, whatever was there |
| Reissue.StepSteady | idp-auth-server/main.go:862-1497 | no step other than an approval, or an answer to an older grant, changes what a client session's tokens say |
| Keys.KeysFromRegistration | idp-auth-server/private_key_jwt.go:135-176 | with each authentication's document and keys resolved in one go, cached keys always come from the cached document, and every request verifying an assertion, right away or later, does so with keys of the registration it is held to |
| Keys.PutKeysExactly | idp-auth-server/private_key_jwt.go:166-173 | in any interleaving, arriving keys leave the cache matched if and only if the live document names the same key source |
| Keys.KeysUnmatched | idp-auth-server/private_key_jwt.go:166-173 | a document with a new key URL stored while the old keys are on their way ends up with the old keys |
| Keys.StepMatches | idp-auth-server/clientid_metadata.go:124-144 | no other step can unmatch keys and document |
| ServerObject.Server.constructor | idp-auth-server/main.go:303-373 | a new server's maps are empty |
| ServerObject.Server.Register | idp-auth-server/main.go:523-571 | a valid registration is stored and returned under its new id with the time, the method and the secret drawn, everything else normalized; an invalid one changes nothing |
| ServerObject.Server.RegisterClientLocked | idp-auth-server/main.go:669-715 | the registry afterwards is that of the observation step, other clients and non-automatic ones untouched |
| ServerObject.Server.CachedDocument | idp-auth-server/clientid_metadata.go:109-114 | a cached document is served exactly while it is live |
| ServerObject.Server.StoreMetadata | idp-auth-server/clientid_metadata.go:126-144 | cache and registry get the same registration, with the issue time first given |
| ServerObject.Server.StoreKeys | idp-auth-server/private_key_jwt.go:166-173 | keys are added to the live entry, or nowhere |
| ServerObject.Server.AuthorizeWithCookie | idp-auth-server/main.go:908-920 | the cookie's session gets the request's challenge and redirect URI in its entry for the client |
| ServerObject.Server.AuthorizeWithHint | idp-auth-server/main.go:940-957 | likewise for the session a hint names, if there is one |
| ServerObject.Server.SaveContext | idp-auth-server/main.go:966-976 | the pending request is stored under its id |
| ServerObject.Server.Login | idp-auth-server/main.go:997-1002 | the pending request keeps all it asks and gets the user; without one it starts blank |
| ServerObject.Server.CommitApproval | idp-auth-server/main.go:1082-1110 | the approved session: found by subject or new, the client's csid kept or newly drawn, one entry put in place |
| ServerObject.Server.IssueCode | idp-auth-server/main.go:1118-1132 | the code is stored first; it is sent to the entry's redirect URI, if there is an entry |
| ServerObject.Server.Logout | idp-auth-server/main.go:798-800 | exactly that session is removed |
| ServerObject.Server.RedeemCode | idp-auth-server/main.go:1304-1309 | a code is returned once and removed |
| ServerObject.Server.GrantForCode | idp-auth-server/main.go:1323-1374 | a grant is given if and only if session and entry exist and PKCE accepts; the shared claim map gets its csid |
| ServerObject.Server.GrantForToken | idp-auth-server/main.go:1386-1418 | a grant is given if and only if the token's csid is found |
| ServerObject.Server.StampAccessClaims | idp-auth-server/main.go:1374 | setting csid in the grant's claims sets it in the session's |
| ServerObject.Server.IssueTokens | idp-auth-server/main.go:1437-1474 | access token always, refresh token with offline_access, ID token with openid |
| ServerObject.Server.StoreTokens | idp-auth-server/main.go:1478-1493 | the first entry with the grant's csid records what was issued; everything else is left alone |
| ServerObject.Server.ConsumeJti | idp-auth-server/private_key_jwt.go:109-128 | expired records are pruned, a live record refuses, otherwise the pair is recorded until expiry plus leeway |
| Idp.GetClientSessionByID | idp-auth-server/main.go:1831-1838 | the first entry of the client |
| Idp.UpsertClientSession | idp-auth-server/main.go:1840-1848 | replaced in place or appended |
| Idp.UpdateClientSession | idp-auth-server/main.go:1850-1869 | challenge, method and redirect URI of the client's entry replaced |
| Idp.EntryAfterUpsert | idp-auth-server/main.go:1840-1848 | read after write: an upsert shows in its own client's entry and in no other |
| Idp.EntryAfterTouch | idp-auth-server/main.go:1850-1869 | read after write: challenge and redirect URI change in that client's entry, if there is one, and nothing else does |
| Idp.GetSessionBySub | idp-auth-server/main.go:1793-1800 | some session of the subject, or none if there is none |
| Idp.GetSessionByAdvertisedSub | idp-auth-server/main.go:1804-1813 | some session advertised under the subject, or none if there is none |
| Idp.GetSessionByClientSessionID | idp-auth-server/main.go:1817-1829 | some session with the csid, or none if there is none |
| Idp.AdvertisedSubInjective | idp-auth-server/main.go:2101-2110 | two subjects never share an advertised one: in public mode, or from sectors that do not overlap (OpenID Connect Core section 8.1) |
| Idp.AdvertisedSubSharedExactly | idp-auth-server/main.go:2091-2110 | in pairwise mode some two users share a subject from two sectors if and only if one sector begins with the other followed by a NUL and the prefix of subjects |
| Idp.AdvertisedSubCollision | idp-auth-server/main.go:2101-2110 | one such pair of users and sectors |
| Claims.SignOverrides | idp-auth-server/main.go:1693-1705 | issuer and audience cannot be edited, every other edited claim survives, nothing else is added but sub, iat and exp |
| Claims.ResignFixed | idp-auth-server/main.go:1693-1724 | signing what was remembered of a token gives the token back, up to the clock |
| Effects.RememberedExactly | idp-auth-server/main.go:1714-1721 | what is remembered of a token is all of it but iat |
| Claims.IssueToken | idp-auth-server/main.go:1693-1724 | the signed claims - iat now, exp the expiry given, the edited sub or the subject - and all of them but iat remembered |
| Registration.NormalizeCanonical | idp-auth-server/main.go:588-629 | a successful normalization is canonical, keeps the same URIs and scopes as sets, and is idempotent |
| Registration.FixedExactlyCanonical | idp-auth-server/main.go:588-629 | the registrations normalization leaves alone are exactly the canonical ones (RFC 7591 section 2) |
| Registration.NormalizeExactly | idp-auth-server/main.go:588-629 | the result in terms of what was sent: RFC 7591 defaults for what was left out, lists without duplicates, the rest untouched |
| Registration.NormalizeSucceedsExactly | idp-auth-server/main.go:599-624 | it succeeds, and otherwise which error it is, exactly by supported types, allowed method and valid redirect URIs |
| Registration.CheckRegistration | idp-auth-server/main.go:599-624 | the first objection, in the order of the checks |
| Registration.NormalizeRegistration | idp-auth-server/main.go:588-629 | the result of the pure normalization the two lemmas above are about |
| Registration.AutomaticEqualsHistory | idp-auth-server/main.go:669-715 | folding requests in one at a time equals one computation over the whole history |
| Registration.AutomaticContents | idp-auth-server/main.go:698-706 | exactly the observed URIs and scopes, without duplicates, and refresh_token if and only if offline_access |
| Registration.AutomaticOrderIrrelevant | idp-auth-server/main.go:669-715 | the order of requests does not matter to what is registered |
| Registration.AutomaticGrows | idp-auth-server/main.go:698-706 | what is listed stays in place as a prefix |
| Lists.DedupeStrings | idp-auth-server/main.go:1932-1943 | the seen-set pass computes first-occurrence de-duplication |
| Lists.DedupeElements | idp-auth-server/main.go:1932-1943 | nothing lost, nothing added |
| Lists.DedupeNoDup | idp-auth-server/main.go:1932-1943 | no duplicates |
| Lists.DedupeOrder | idp-auth-server/main.go:1932-1943 | in order of first occurrence |
| Lists.DedupeAbsorb | idp-auth-server/main.go:698-706 | de-duplicating a prefix first changes nothing |
| Scopes.FieldsJoin | idp-auth-server/main.go:626 | joining scope tokens and splitting them again gives them back (RFC 6749 section 3.3) |
| Scopes.FieldsApart | idp-auth-server/main.go:626 | a space of any kind keeps the words on its two sides apart, and loses none |
| Scopes.FieldsOfToken | idp-auth-server/main.go:626 | a string without space is one word |
| Scopes.HasScopeLoop | idp-auth-server/main.go:1971-1978 | membership among the scope's words |
| Documents.ValidateClientIDMetadata | idp-auth-server/clientid_metadata.go:162-203 | the outcome of validation, error by error |
| Documents.ValidatedDocument | idp-auth-server/clientid_metadata.go:162-203 | an accepted document names its own URL, holds no secret, is canonical and authenticates with nothing or with keys it has |
| Documents.ValidExactly | idp-auth-server/clientid_metadata.go:162-203 | a document is accepted if and only if it names its URL and no secret, normalizes, and has keys if it asks for them |
| Documents.ClientIDMetadataTTLFrom | idp-auth-server/clientid_metadata.go:207-225 | the search loop finds the lifetime of the first usable max-age |
| Documents.TtlBounds | idp-auth-server/clientid_metadata.go:207-225 | for every header the lifetime is positive and at most a day or the fallback, within a minute and a day if there is a usable max-age, the fallback exactly if there is none |
| Documents.TtlFirstUsable | idp-auth-server/clientid_metadata.go:213-223 | unusable directives before the first usable one do not matter |
| Documents.TtlExactly | idp-auth-server/clientid_metadata.go:213-223 | its seconds are kept from a minute to a day, raised or cut to that below and above |
| Documents.TtlWithout | idp-auth-server/clientid_metadata.go:208-211 | without a usable max-age it is the configured lifetime, or a quarter of an hour |
| Documents.MaxAgeExactly | idp-auth-server/clientid_metadata.go:222 | the int64 product does no harm exactly up to 9223372036 seconds or when it wraps to a day or more |
| Documents.MaxAgeWraps | idp-auth-server/clientid_metadata.go:222 | one second more and a day becomes a minute |
| Documents.VerificationKeys | idp-auth-server/private_key_jwt.go:185-221 | exactly the published keys that fit kid, use, algorithm and key type, in order |
| Replay.RefinesHistory | idp-auth-server/private_key_jwt.go:109-128 | under the table's invariant it refuses a key if and only if some acceptance of it is not past expiry plus leeway |
| Replay.ConsumeKeeps | idp-auth-server/private_key_jwt.go:109-128 | every consumption keeps that invariant |
| Replay.RetentionBound | idp-auth-server/private_key_jwt.go:117-126 | after a consumption every record stems from the last 660 seconds, and there are no more records than acceptances in it |
| Replay.SameAssertionAgain | idp-auth-server/private_key_jwt.go:117-126 | presented again, an assertion is accepted if and only if it is consumed after its expiry plus leeway |
| Replay.AcceptedTwice | idp-auth-server/private_key_jwt.go:52-103 | an assertion verified at 159 s and consumed at 161 s is accepted a second time |
| Replay.KeyInjective | idp-auth-server/private_key_jwt.go:110 | for client ids without NUL the table's key tells client and jti apart |
| Replay.KeySharedExactly | idp-auth-server/private_key_jwt.go:110 | two client ids can share a key if and only if one begins with the other followed by a NUL |
| Replay.KeyCollision | idp-auth-server/private_key_jwt.go:110 | with a NUL it does not |
| StateClaims.StateClaims.Claim | bff/internal/handler/state_claims.go:25-43 | answer and table of one call, with the clean-up on the way |
| StateClaims.StateClaims.CleanupLocked | bff/internal/handler/state_claims.go:45-52 | the deleting loop keeps exactly the claims younger than a ttl |
| StateClaims.CleanupInvisible | bff/internal/handler/state_claims.go:25-52 | with readings not behind the last cleanup, every call is answered as by a table never cleaned |
| StateClaims.OrderedNeverBehind | bff/internal/handler/state_claims.go:26-33 | readings in lock order are never behind |
| StateClaims.SameAnswersExactly | bff/internal/handler/state_claims.go:25-52 | for every reading: it is answered as by a table never cleaned, after every ordered history and for every state, if and only if it is not behind the last cleanup |
| StateClaims.Overtaken | bff/internal/handler/state_claims.go:26-33 | a history, for every ttl and every reading behind a cleanup, after which a state still held is claimed again |
| StateClaims.ClaimedOncePerTtl | bff/internal/handler/state_claims.go:35-42 | a call succeeds if and only if every earlier success of its state is a ttl or more away |
| StateClaims.RetainedYoung | bff/internal/handler/state_claims.go:31-33 | after every call each entry kept is younger than two ttls |
| StateClaims.OvertakenClaim | bff/internal/handler/state_claims.go:26-33 | readings 0, 300, 299 with ttl 300: the state claimed at 0 is claimed again at 299 |
| BffSessions.MemoryStore.Save | bff/internal/session/store.go:80-89 | the session is stored under the new token with its lifetime |
| BffSessions.MemoryStore.Load | bff/internal/session/store.go:91-105 | the session if it is there and not expired; an expired one is deleted |
| BffSessions.MemoryStore.Delete | bff/internal/session/store.go:107-112 | exactly that token is removed |
| BffSessions.Manager.Create | bff/internal/session/manager.go:24-41 | the cookie is the new token |
| BffSessions.CreatedLives | bff/internal/session/manager.go:12-41 | a session created loads for exactly a day |
| BffSessions.Manager.Get | bff/internal/session/manager.go:43-58 | the session of the trimmed cookie value |
| BffSessions.Manager.Rotate | bff/internal/session/manager.go:60-65 | the cookie's value is deleted first, whether or not the new session is then saved |
| BffSessions.Manager.Destroy | bff/internal/session/manager.go:67-87 | the cookie's value is deleted |
| BffSessions.RevokedExactly | bff/internal/session/manager.go:43-73 | a dropped session is gone if and only if its cookie neither started nor ended in space |
| BffSessions.LazyExpiryInvisible | bff/internal/session/store.go:91-105 | after any Saves, Loads and Deletes, a store that deletes on a late Load and one that never does answer every Load the same |
| BffSessions.LoadIsLastSave | bff/internal/session/store.go:80-112 | a Load finds exactly what was last saved under its token, unless deleted since or expired, whatever happened to other tokens |
| BffSessions.StaysGone | bff/internal/session/store.go:80-112 | a session expired or deleted stays gone through any operations but a Save under its own token |
| BffRuns.StepKeeps | bff/internal/handler/middleware.go:87-132 | every step of every request keeps the lineage, store and freshness invariant |
| BffRuns.RotationLineage | bff/internal/handler/middleware.go:63-81 | in every run every saved session goes back to one login, carries its CSRF token and no other login's, and never has lost a refresh token |
| BffRuns.LoadedWasSaved | bff/internal/session/manager.go:43-58 | a cookie only ever gets a session that was saved under it |
| BffRuns.BearerFresh | bff/internal/handler/middleware.go:108-130 | a bearer sent upstream is of the request's own cookie's session, and was just refreshed - the access token the identity provider answered with - or could not be, or had not expired when checked, whatever fails on the way |
| BffRuns.SavedFromAnswers | bff/internal/handler/middleware.go:63-81 | every session ever saved holds its answer's access token and expiry, and its refresh and ID tokens or else the ones before |
| BffRuns.ForwardsExactly | bff/internal/handler/middleware.go:108-130 | a token is refreshed exactly when it can be and runs out within a minute, and otherwise sent as it is |
| BffHandler.Handler.RefreshAccessToken | bff/internal/handler/middleware.go:63-81 | the new session holds the new access token and expiry and keeps the refresh and ID tokens the answer leaves out; a failed save loses the old one |
| BffHandler.Handler.TokenForwarder | bff/internal/handler/middleware.go:87-132 | a request outside the API or with a bearer token of its own passes untouched; any other, run alone, leaves the store and sends the bearer that the machine's five steps do |
| BffHandler.AtOnceIsRun | bff/internal/handler/middleware.go:87-132 | those steps are a run, so the theorems about runs hold of it |
| BffHandler.RefreshComesTo | bff/internal/handler/middleware.go:108-125 | the outcome of a refresh: the new tokens in store and sent if answered and saved, else the old one unless expired, else neither token nor session |
| BffHandler.ExpiredIsLoggedOut | bff/internal/handler/middleware.go:114-119 | an expired token that cannot be replaced is not forwarded, and its session ends exactly if the cookie had nothing to trim |
| BffHandler.Handler.Callback | bff/internal/handler/auth.go:67-129 | a session is created if and only if the request is well formed, wins its state and its code is exchanged; the state is used up either way |

## Left out

- Cryptography and encodings: signatures are ideal (a token is in `minted` or it was not signed here; an assertion names its signing key), HMAC and SHA-256 are functions of `Config`.
- `net/url`, `net/http` and JSON: what they decide (is a Client Identifier URL, is a valid redirect URI, does a key set parse, which scopes, directives and documents a request carried) arrives decoded.
- Outbound fetches, address checks, redirects, size limits, TLS: a fetch is a result, any result, arriving between two steps.
- The expiry of refresh tokens and hints: a step may use any token ever signed, a superset of what the JWT library lets through.
- `/userinfo`, `/avatars`, `/clients`, `/jwks`, discovery, templates, logging, CORS and configuration: they only read, or only print.
- `/endsession-approve` is the same critical section as `/logout` and has no step of its own.
- Purely descriptive registration members (client name, logo, contacts and the like), which no decision reads.
- `parseClientCredentials`: a token request may present any credentials.
- Aliasing of Go slices: a looked-up client session is one snapshot, and a code is sent to the redirect URI of the snapshot. The one shared map that matters, the access claims, is modelled (`StampCsid`).
- Registrations and client sessions are values; methods return the changed value instead of writing through a pointer.
- Binding a code to the challenge or redirect URI of its own request: like the program, the model reads both off the client session when the code is redeemed.
- Random numbers: an identifier is drawn at the step that stores it and assumed unused.
- Reissue.ReissueFixed: speaks of ID tokens only once ID token claims are on file, as approval or a first answer leaves them; before that two unanswered grants may differ in their nonce.
- Redis and cookie stores, which are outside the process or cannot delete; AES-GCM; reverse proxying; security headers.
- `AuthGuard` and `CSRFMiddleware`, which only compare and answer; the error answers of a store that can fail to load or delete, which the memory store cannot.
