# Verified model of the Tensorlake MCP service

This Dafny project models the parts of the service (Go package `tensorlake`) in which order, identity or text has to be
exactly right, and proves what they promise: the OAuth grant state machine over its four tables, the sandbox and
home-directory cache under its two mutexes, the shell pipeline of `Grep`, data-URI decoding, the file tools, the table of
background processes, the RSA exponent of a JWK, and credentials on the wire. `dafny verify dfyconfig.toml` checks it.

## The parts

**OAuth** (`OAuth`, `OAuthInvariant`, `OAuthSteps`, `OAuthSessions`, `OAuthRuns`, `OAuthCodes`, `OAuthTokens`, `OAuthRules`,
`OAuthWorld`, `OAuthService`). The state is the tables `tensorlake_accounts`, `oauth_clients`, `oauth_authorization_codes`
and `oauth_sessions` as maps, a clock, the handlers that are between two statements, and the history: the codes granted and
taken, where each session comes from, the retired token hashes, the log of events. Every SQL statement that writes is one
event together with what its handler does up to the next one; the SELECT that looks up a registered client is part of the
event that follows it, which loses no interleaving because a stored client is never changed (`OAuthRuns.LaterAt`). So the
DELETE of a code and the INSERT of its session are two events between which other requests, or a failure, may come. A run is
any sequence of legal events from empty tables. The statements enforce their keys, references and UNIQUE constraints, and it
is proved that these never refuse anything. `OAuthRules` says of the fields of a request and the rows of the tables alone who
is authenticated and what is granted, and proves it of the handlers. `OAuthWorld.Actual` gives the functions of texts the
handlers really use; the state machine only relies on minted texts being distinct and trimming being idempotent, which is
proved of them. `OAuthService.Service` holds the tables as fields and has the handlers as methods, each tied to the events it
makes, with the events of other requests, and the failure of a later statement, as parameters;
`OAuthService.LegalRunsAreRuns` shows that what they do are runs, so that the theorems about runs hold of them.
Sections 4.1.2, 4.1.3 and 6 of RFC 6749 and sections 4.1, 4.2 and 4.6 of RFC 7636 are the standards behind it.

**Home cache** (`HomeCache`, `HomeCacheServer`). Goroutines of `ensureSandbox`, `sandboxHomeDir`, `SetSandbox` and
`CleanupSession` advance one action at a time between locks. `sandboxMu` is released before `homeMu` is taken, so the cache
may be stale for a while: the invariant is that a cached directory is the home of the cached sandbox or that some goroutine
still owes a clear. `HomeCacheServer.Server` has the Go methods, with other goroutines running before every action.

**Grep** (`ShellCommand`, `GrepPipeline`). A tokenizer for the shell (sections 2.2.1, 2.2.2 and 2.3 of the Shell Command
Language chapter of POSIX.1-2017), the reuse of the `printf` format, and the splitting of `xargs -0`.

**Data URIs** (`Base64`, `DataUri`). Go's four base64 decoders (sections 4 and 5 of RFC 4648), with carriage returns and line
feeds ignored and trailing bits unchecked, tried in order.

**Files** (`TextSearch`, `FileEdit`, `FileRead`). `strings.Count`, `strings.Replace` and `strings.Split` as scanning loops and
functions; the edit of a file in place; paged, numbered reading.

**Background processes** (`Background`), **RSA exponent** (`RsaExponent`, `GoInts`), **credentials** (`Bearer`, `OpaqueTokens`),
and the parts of Go's library they need (`GoStrings`, `Wrappers`).

## What does not hold

- `sandboxHomeDir` keeps `homeMu` while it runs a command, which calls `ensureSandbox`, which locks `homeMu` when the selected
  sandbox differs from the cached one. The goroutine then waits for itself for ever, and so does every later one that needs
  `homeMu`. `HomeCache.AnswersAloneExactly` says exactly when this happens, and `HomeCache.FreshServerBlocks` that on a fresh
  server with a selected sandbox the first request that needs the home directory (such as `Grep` without a path) never returns.
- Undoing a single edit by exchanging the two strings does not always give the file back, even when the new string is found
  once by `strings.Count`: `FileEdit.UndoNeedsPosition` has the input and `FileEdit.UndoExactly` the exact condition.
- `FileEdit` with an empty `old_string` replaces a file that merely could not be read. `FileEdit.UnreadFileKeptExactly` says
  exactly when an unread file is kept, and `FileEdit.EmptyPatternReplacesUnreadFile` has the request that loses it.
- `readText` panics for a negative offset or limit, and when the end of the window overflows 64 bits (`FileRead.PanicsExactly`).
- An RSA exponent of 2^63 or more is cut to its low 64 bits, so that a key may be accepted with another exponent:
  `RsaExponent.MisreadExactly` says exactly when, and `RsaExponent.OverlongExponentIsTruncated` has such a key.
- The `Grep` pipeline needs at least one argument and no NUL in any; the arguments it builds always include some
  (`GrepPipeline.GrepRoundTrip`, `GrepPipeline.GrepRunsAsAsked`).

## Assumptions

- SHA-256 is injective: a digest is the free constructor `Sha256` of its preimage. The S256 transformation, the parsing of
  addresses and the recognition of loopback addresses are arbitrary functions.
- Every random draw is fresh with respect to the whole history of draws.
- There is one clock that never goes back; a handler reads it before its statement runs. `NOW()` is its value at the statement.
- A statement that fails changes nothing; so does a failed write of a file. A handler may fail between any two statements;
  a handler that fails before its first write makes no event.
- The answers of Tensorlake, of the metadata and key servers and of the signature check are parameters of the events.
- Texts are sequences of characters; where Go counts bytes (`len` of the PKCE verifier, base64 payloads) a character is a byte.
- The home directory printed in a sandbox is a fixed function of the sandbox's id.

## Model

| member | source | states |
|---|---|---|
| OAuthSessions.InvStep | tensorlake/oauth_token.go:24-154 | every legal event keeps the whole invariant (keys hash to tenants, codes are exactly those granted and not taken, sessions inject into taken codes, tokens are unshared and never retired ones, flights are sound) and takes nothing back |
| OAuthRuns.InvAt | tensorlake/migrations/001_oauth_and_accounts.up.sql:1-42 | the invariant holds at every position of every run |
| OAuthRuns.LaterAt | tensorlake/migrations/001_oauth_and_accounts.up.sql:16-42 | along a run grants, takings, origins, retired hashes, clients and account keys only grow, and a session's row changes only together with the retirement of both its old hashes |
| OAuthCodes.CodeTakenOnce | tensorlake/oauth_token.go:76-87 | over any interleaving a code is taken by at most one exchange |
| OAuthCodes.ExchangeExactly | tensorlake/oauth_token.go:55-87 | an exchange takes its code if and only if its client is authenticated, the request is well formed, the code was granted and not yet taken, and client, redirect, verifier, resource and time meet the grant |
| OAuthCodes.RefusedExchangeChangesNothing | tensorlake/oauth_token.go:60-87 | a refused exchange leaves every table and every handler in flight unchanged |
| OAuthCodes.ExchangeTakesOneCode | tensorlake/oauth_token.go:76-95 | a successful exchange removes exactly its code, changes no other table, and passes on the tenant, client and scope of the grant; the later checks did not stop it |
| OAuthSteps.RechecksHold | tensorlake/oauth_token.go:88-95 | the guard of the DELETE implies every check made again on the returned row |
| OAuthCodes.SessionsFromCodes | tensorlake/oauth_token.go:38-45 | there are at most as many sessions as taken codes and as taken as granted ones, and no two sessions come from one code |
| OAuthCodes.FailureBurnsCode | tensorlake/oauth_token.go:76-101 | when the handler fails between the DELETE and the INSERT, the code is never taken again and no session ever comes from it |
| OAuthCodes.ClientInsertSucceeds | tensorlake/oauth_metadata.go:341-350 | the INSERT of an accepted client never meets an existing id |
| OAuthCodes.CodeInsertSucceeds | tensorlake/oauth_authorize.go:154-167 | the INSERT of a code never meets an existing hash nor a missing account, and stores the grant's bindings |
| OAuthCodes.SessionInsertSucceeds | tensorlake/oauth_token.go:38-45 | the INSERT of a session never meets an existing id or hash nor a missing account, and stores exactly the new row |
| OAuthCodes.CodeBindings | tensorlake/oauth_authorize.go:37-67 | every stored code goes back to an accepted authorization with a complete S256 form whose client, redirect, challenge and key it has; its scope is supported and contains mcp, and its redirect address is valid and on the client's list |
| OAuthWorld.CodesAreSafe | tensorlake/oauth_metadata.go:173-229 | in every run each stored code's scope has mcp and nothing unsupported among its fields, and its redirect address is https, or http to the local host, without fragment or user information |
| OAuthWorld.SessionsAreScoped | tensorlake/oauth_metadata.go:213-229 | each session's scope has mcp and nothing unsupported among its fields |
| OAuthWorld.ActualProper | tensorlake/oauth_metadata.go:47-53 | distinct kinds or draws give distinct texts, and trimming is idempotent |
| OAuthWorld.ActualMintTrimmed | tensorlake/oauth_metadata.go:47-53 | trimming leaves every text the service hands out alone |
| OAuthTokens.RefreshTokenRotatesOnce | tensorlake/oauth_token.go:117-137 | each refresh token rotates at most once, however requests race |
| OAuthTokens.ReplacedPairIsDead | tensorlake/oauth_token.go:130-133 | after a rotation neither token of the old pair is ever in any session again |
| OAuthTokens.PairsAreUnshared | tensorlake/migrations/001_oauth_and_accounts.up.sql:31-42 | two sessions never share an access or a refresh token |
| OAuthTokens.RotationExactly | tensorlake/oauth_token.go:128-133 | a rotation replaces the hashes and expiries of its session and nothing else in the tables |
| OAuthTokens.RotatesOne | tensorlake/oauth_token.go:130-133 | a refresh token is that of at most one session |
| OAuthTokens.RefusedRotationChangesNothing | tensorlake/oauth_token.go:134-145 | a renewal without a matching session changes no table |
| OAuthTokens.RotationGap | tensorlake/oauth_token.go:128-133 | every gap between the creation or a rotation of a session and its next rotation is under thirty days |
| OAuthTokens.ResolvingIsRenewable | tensorlake/oauth_token.go:11-14 | whenever an access token resolves, its session's refresh token can be redeemed by its client, and for at least thirty days less one hour more |
| OAuthTokens.ResolvedKeyWasEntered | tensorlake/oauth_token.go:186-202 | whenever a token resolves, the key is the trimmed key entered in the authorization whose code started the session, through any number of rotations; the four events of that session are named in order |
| OAuthTokens.SessionKeepsIdentity | tensorlake/oauth_token.go:130-133 | a session is never lost and keeps its tenant, client and scope; its tenant keeps its key |
| OAuthTokens.SelectedResolves | tensorlake/oauth_token.go:198-201 | the final check of the scope never fails |
| OAuthTokens.ResolvesOnce | tensorlake/oauth_token.go:188-191 | a token resolves through at most one session, so to at most one key |
| OAuthTokens.IssuedRefreshRotatesExactly | tensorlake/oauth_token.go:105-145 | an issued refresh token, sent as it was answered, rotates if and only if the client is that of its session, the resource is valid, its pair was not replaced and its thirty days have not passed; it rotates its own session only |
| OAuthWorld.RefreshTokenRedeemable | tensorlake/oauth_token.go:105-145 | the same of the texts the service really answers |
| OAuthCodes.IssuedCodeTakenExactly | tensorlake/oauth_token.go:55-87 | an issued code, sent as it was handed out, is taken if and only if it was not taken before, its ten minutes have not passed, and the client and the bindings are those of its grant |
| OAuthWorld.CodeIsRedeemable | tensorlake/oauth_token.go:55-87 | the same of the texts the service really hands out |
| OAuthRules.AuthenticatedExactly | tensorlake/oauth_client_auth.go:202-227 | a token request authenticates as a client if and only if, without an assertion, the id sent is that client, registered or with an acceptable document; or, with one, its type is the JWT bearer one, it is verified, issuer and subject are the client, no other id is sent, and the document is acceptable |
| OAuthRules.PublicClientExactly | tensorlake/oauth_client_auth.go:214-226 | without an assertion an id that is no https address authenticates if and only if it is registered |
| OAuthRules.BeginsExactly | tensorlake/oauth_authorize.go:37-67 | an authorization begins if and only if the key entered is accepted and not blank, the form names a client, a redirect address, response type code and an S256 challenge, the scope (mcp when blank) is supported and contains mcp, the resource is this endpoint or none, and the redirect address is one of the client, registered or in its fetched document |
| OAuthRules.BegunGrant | tensorlake/oauth_authorize.go:25-35 | the grant then holds the trimmed key, client, redirect address, challenge, scope and resource of the form |
| OAuthRules.RedeemsExactly | tensorlake/oauth_token.go:55-95 | an exchange takes its code if and only if the code is stored for the client that the request authenticates as, redirect address, verifier (43 to 128 long) and resource fit the stored row, and the row has not expired |
| OAuthRules.IssuedCodeExchanges | tensorlake/oauth_token.go:55-95 | the same from the issue of the code on: it is taken if and only if the request authenticates as the client of the grant and carries its bindings, the code was not taken before and is under 600 seconds old |
| OAuthRules.RegisteredClientExchanges | tensorlake/oauth_client_auth.go:214-226 | for a registered client without an assertion, sending its own id is all the authentication there is |
| OAuthRules.RotatesExactly | tensorlake/oauth_token.go:105-145 | a renewal replaces the pair of a session if and only if the token is its current, unexpired refresh token, the request authenticates as its client, and the resource is this endpoint or none |
| OAuthRules.IssuedRefreshRenews | tensorlake/oauth_token.go:105-145 | the same from the issue of the refresh token on, until its pair is replaced or it is thirty days old |
| OAuthRules.RegisteredClientRenews | tensorlake/oauth_client_auth.go:214-226 | for the session of a registered client without an assertion, its own id is all the authentication there is |
| OAuthWorld.ScopeExactly | tensorlake/oauth_metadata.go:213-229 | a scope is accepted if and only if its fields contain mcp and nothing but mcp and offline_access |
| OAuthWorld.UsualScopes | tensorlake/oauth_metadata.go:213-229 | mcp alone and mcp with offline_access in either order are accepted, offline_access alone is not |
| OAuthWorld.RedirectExactly | tensorlake/oauth_metadata.go:173-190 | a redirect address is accepted if and only if it parses, has a host, no fragment and no user, and is https, or http to localhost or a loopback address |
| OAuthWorld.DocumentExactly | tensorlake/oauth_metadata.go:249-259 | a client document address is accepted if and only if it is https at chatgpt.com, without query, fragment or user, and its path is /oauth/client.json or /oauth/, any name, /client.json |
| OAuthTokens.IssuedTokenResolvesExactly | tensorlake/oauth_token.go:24-53 | an issued access token resolves if and only if its pair was not replaced and it has not expired, always through its own session |
| OAuthSteps.UpsertKeeps | tensorlake/db.go:24-43 | an upsert adds the account of the trimmed key when it is missing, keeps every account's key and selected sandbox, and keeps the rule that keys hash to their tenants |
| OAuthSteps.ValidGrant | tensorlake/oauth_authorize.go:50-65 | a validated request has a supported scope with mcp and a redirect address on a valid list, registered or fetched |
| OAuthSessions.UpdatedOne | tensorlake/oauth_token.go:130-133 | under the UNIQUE constraints the UPDATE, taken row by row, changes at most one row |
| OAuthSessions.RenewedOk | tensorlake/oauth_token.go:128-133 | a renewed row keeps the identity of its grant, and its expiries stay the fixed time apart |
| OAuthSessions.TokensRenewed | tensorlake/oauth_token.go:130-133 | after a renewal the old pair is retired and in no row, and the new one in one row |
| OAuthService.Service.OAuthRegister | tensorlake/oauth_metadata.go:321-359 | a client is stored, under a minted id, if and only if its method is none or not given, its list is not empty and all its addresses are accepted |
| OAuthService.Service.CheckExchange | tensorlake/oauth_token.go:55-71 | the checks before the DELETE pass exactly for an authenticated client and a well-formed request, and each refusal has its own error |
| OAuthService.Service.DeleteAndRecheck | tensorlake/oauth_token.go:73-95 | the row is removed and returned exactly when the guard holds; the checks after it never refuse |
| OAuthService.Service.TakeAuthorizationCode | tensorlake/oauth_token.go:55-95 | the first half of the exchange is the state machine's event, and succeeds exactly when that takes the code |
| OAuthService.Service.CreateOAuthSession | tensorlake/oauth_token.go:24-53 | the INSERT is the state machine's event and succeeds exactly when the constraints admit the row; the answer carries the minted tokens and the scope |
| OAuthService.Service.ExchangeAuthorizationCode | tensorlake/oauth_token.go:55-103 | with other requests in between, tokens are answered if and only if the fields of the request fit a stored row (the condition of `OAuthRules.RedeemsExactly`) and neither the random source nor the INSERT fails; when one fails the code is burned (`OAuthCodes.FailureBurnsCode` says what that means later); when the code is not taken no table changes; the invariant is kept |
| OAuthService.Service.UpdateSessions | tensorlake/oauth_token.go:129-137 | the UPDATE and the scope it returns, found exactly when some row meets its guard |
| OAuthService.Service.RotateRefreshToken | tensorlake/oauth_token.go:105-154 | a new pair with the session's scope is answered if and only if the fields of the request fit a stored session (the condition of `OAuthRules.RotatesExactly`) |
| OAuthService.Service.UpsertAccount | tensorlake/db.go:29-43 | the account of the key's tenant holds the trimmed key |
| OAuthService.Service.CompleteAuthorization | tensorlake/oauth_authorize.go:139-182 | with other requests in between, a code is answered and stored if and only if the form, the key and the client tables meet the condition of `OAuthRules.BeginsExactly` and neither the upsert, the random source nor the INSERT fails; the state after each failure is stated too |
| OAuthService.Service.ApiKeyForOAuthAccessToken | tensorlake/oauth_token.go:186-202 | a key is answered if and only if the token resolves, and it is the key it resolves to |
| OAuthService.Service.SetPrimarySandboxId | tensorlake/db.go:81-96 | unless a statement fails, the tenant of the key ends up with the trimmed selection, whatever runs between the two; the state after each failure is stated too |
| OAuthService.RenewalAdmitted | tensorlake/oauth_token.go:128-133 | the UPDATE of a renewal never breaks a UNIQUE constraint |
| OpaqueTokens.OpaqueInjective | tensorlake/oauth_metadata.go:47-53 | two opaque values are equal only if kind and draw are |
| OpaqueTokens.OpaqueSpaceFree | tensorlake/oauth_metadata.go:47-53 | no opaque value contains white space, and trimming leaves it alone |
| Bearer.BearerRecovers | tensorlake/encore_api.go:33-38 | the token after a word, with any white space between and around, is recovered exactly when the word is Bearer in any case |
| Bearer.BearerWord | tensorlake/encore_api.go:35 | the words taken for Bearer, letter by letter |
| Bearer.ResolvedKeyWins | tensorlake/encore_api.go:29-31 | a key resolved before is used whatever the header; with the header deleted it is the one used even when empty |
| Bearer.OtherCredentialIsTheKey | tensorlake/encore_api.go:41-52 | a Bearer credential that does not start like an access token authorizes itself as the key, and no other |
| Bearer.OtherSchemeAuthorizesNone | tensorlake/encore_api.go:35-45 | with another scheme no key is authorized |
| GoStrings.TrimSpaceOfPadded | tensorlake/encore_api.go:33 | trimming removes exactly the white space around a text |
| GoStrings.FieldsOfPair | tensorlake/encore_api.go:34 | two words with white space between them are split into those two words |
| Bearer.CredentialSpaceFree | tensorlake/encore_api.go:33-38 | whatever the header, the credential has no white space |
| Bearer.AccessTokenRouted | tensorlake/encore_api.go:41-52 | an access token sent as a Bearer credential is routed unchanged to the lookup of its session |
| Bearer.OthersNotRouted | tensorlake/encore_api.go:46-51 | no refresh token, code, client id or session id is taken for an access token |
| Bearer.IssuedTokenAuthorizes | tensorlake/encore_api.go:28-52 | in every run an issued token, sent as a Bearer credential, authorizes its session's key if and only if its pair was not replaced and it is under an hour old |
| Bearer.Servers.ServerForApiKey | tensorlake/encore_api.go:54-67 | a key always gets the same server, and no two keys share one |
| HomeCache.InvStep | tensorlake/server.go:64-107 | every action of every goroutine keeps mutex ownership, what each goroutine relies on, and coherence |
| HomeCache.RequestsStart | tensorlake/server.go:64-92 | a request starts at the load of the selection, or at the lock of homeMu, with nothing else changed |
| HomeCache.CacheCoherent | tensorlake/server.go:73-106 | in every interleaving, with no clear pending, a cached home directory is the home of the cached sandbox |
| HomeCache.CoherentAtRest | tensorlake/server.go:221-228 | once every request is answered both mutexes are free and the cache is coherent |
| HomeCache.CachedIsAbsolute | tensorlake/server.go:100-106 | whatever printing the home directory answers, a cached one is an absolute path without white space around it |
| HomeCache.HomeExactly | tensorlake/server.go:95-106 | a sandbox has a home directory if and only if what its shell prints, trimmed, is an absolute path |
| HomeCache.HeldCacheStays | tensorlake/server.go:87-107 | while a goroutine holds homeMu no other one changes the cached directory |
| HomeCache.AnsweredHome | tensorlake/server.go:87-107 | the directory about to be answered is the cached one, and the home of the cached sandbox unless a clear is pending |
| HomeCache.NoMutualWait | tensorlake/server.go:73-82 | the holder of sandboxMu can always go on, and no two goroutines wait for each other |
| HomeCache.StuckExactly | tensorlake/server.go:64-107 | a server with unanswered requests is stuck if and only if one goroutine waits for itself and every other one waits for that one |
| HomeCache.EnabledUnlessSelfWait | tensorlake/server.go:64-107 | unless a goroutine waits for itself some goroutine can go on |
| HomeCache.SelfWaitShape | tensorlake/server.go:87-98 | a goroutine waits for itself exactly at the nested lock of homeMu, which it holds, with an empty cache |
| HomeCache.SelfWaitNeedsMismatch | tensorlake/server.go:64-82 | a goroutine that waits for itself read, inside sandboxHomeDir and with an empty cache, an id other than the cached one |
| HomeCache.MismatchDecides | tensorlake/server.go:73-82 | whatever else runs, comparing the ids inside sandboxHomeDir leads to the command when they agree and to waiting for itself when they differ |
| HomeCache.SelfWaitForever | tensorlake/server.go:78-82 | a goroutine that waits for itself does so for ever, and with it all that wait for homeMu |
| HomeCache.AnswersAloneExactly | tensorlake/server.go:87-107 | alone, sandboxHomeDir answers if and only if the directory is cached, nothing is selected, or the selected sandbox is the cached one; otherwise it waits for itself |
| HomeCache.FreshServerBlocks | tensorlake/tool_grep.go:43-50 | on a fresh server with a selected sandbox the first request for the home directory never returns |
| HomeCache.AnsweredWithinEleven | tensorlake/server.go:64-107 | a goroutine makes at most eleven actions, however the others interleave |
| HomeCacheServer.WovenIsRun | tensorlake/server.go:64-107 | what the methods do between the actions of others is one run of the state machine |
| HomeCacheServer.TakenIsRead | tensorlake/server.go:87-93 | the directory cached when homeMu is taken is the one then read |
| HomeCacheServer.Server.SelectSandbox | tensorlake/server.go:73-82 | comparing, assigning and clearing are the actions of the state machine, in their order, between those of others; the id is stored, and the directory cleared if and only if the id changed or a session ends |
| HomeCacheServer.Server.EnsureSandbox | tensorlake/server.go:64-84 | fails if and only if the load fails or the selection is blank; otherwise answers the trimmed selection as stored when it was read, or waits for a mutex that is held |
| HomeCacheServer.Server.ResolveHomeDir | tensorlake/server.go:87-106 | once it has homeMu, a cached directory is the result; with an empty cache the result is the directory found in the sandbox loaded, if and only if the load and the command succeed and there is one |
| HomeCacheServer.Server.SandboxHomeDir | tensorlake/server.go:87-107 | waits at once exactly when homeMu is held; a cached directory is always answered; with an empty cache and no wait the answer is the directory of the sandbox loaded if and only if the load and the command succeed and it has one, and a failure otherwise; the answer is that of the unlocking action |
| HomeCacheServer.Server.SetSandbox | tensorlake/tool_sandbox.go:89-123 | fails if and only if the id is blank, which changes nothing, or it cannot be persisted; otherwise the trimmed id is persisted, and assigned and cleared as the state machine does |
| HomeCacheServer.Server.CleanupSession | tensorlake/server.go:221-228 | unless it waits it empties the cached sandbox id and then the directory, unconditionally |
| ShellCommand.ShellQuoteReads | tensorlake/tool_grep.go:115-120 | whatever a text contains, the shell reads its quoted form back as that text |
| ShellCommand.BuildGrepCommand | tensorlake/tool_grep.go:88-94 | the builder's loop writes the command of the specification |
| ShellCommand.CommandReads | tensorlake/tool_grep.go:86-94 | for every list of arguments the shell reads the command as printf with its format and exactly those arguments, piped into xargs -0 grep, then true |
| GrepPipeline.RecoveredExactly | tensorlake/tool_grep.go:89-94 | splitting what printf prints gives the arguments back if and only if there is one and none contains NUL |
| GrepPipeline.GrepReceives | tensorlake/tool_grep.go:86-94 | running the command gives grep the items that xargs finds in what printf prints |
| GrepPipeline.GrepRoundTrip | tensorlake/tool_grep.go:86-94 | grep is invoked with precisely the given arguments if and only if there is one and none contains NUL |
| GrepPipeline.BuildGrepArgs | tensorlake/tool_grep.go:56-84 | the appended options and operands are those of the specification, whose meaning `GrepPipeline.GrepRunsAsAsked` states |
| GrepPipeline.GrepRunsAsAsked | tensorlake/tool_grep.go:56-94 | for every request without NUL the words before the first double dash are exactly the options asked for, each once: recursion, one output mode (-l, -c or else -n), -i, the positive context counts in decimal, and the glob; pattern and path follow as operands |
| Base64.RoundTrip | tensorlake/tool_upload.go:131-138 | decoding inverts encoding in each of the four variants |
| Base64.VariantsAgree | tensorlake/tool_upload.go:131-138 | two variants that accept a text decode it to the same bytes |
| Base64.AcceptedExactly | tensorlake/tool_upload.go:131-141 | a text is accepted if and only if, without its line breaks, it is a number of symbols not one more than a multiple of four, followed by exactly the padding of the variant |
| Base64.SymbolsOfAlphabet | tensorlake/tool_upload.go:131-136 | the symbols are the alphabets of RFC 4648, tables 1 and 2, in their order |
| Base64.BlockIsNumber | tensorlake/tool_upload.go:131-138 | four symbols and three bytes are one number of 24 bits |
| Base64.LineBreakIgnored | tensorlake/tool_upload.go:137-142 | a line break anywhere in the payload changes nothing |
| DataUri.OrderIrrelevant | tensorlake/tool_upload.go:130-143 | any order of the variants gives the same result |
| DataUri.FirstDecodeIsAny | tensorlake/tool_upload.go:137-142 | the first success is the result of every variant that succeeds |
| DataUri.DataUriRoundTrip | tensorlake/tool_upload.go:118-144 | bytes encoded by any variant come back unchanged from their data URI, whatever the comma-free media type |
| DataUri.PlainUriIsVerbatim | tensorlake/tool_upload.go:146-150 | data not marked base64 is taken byte for byte, with the extension of its media type |
| DataUri.NoCommaIsVerbatim | tensorlake/tool_upload.go:149-150 | without a comma everything after the prefix, if there is one, is taken byte for byte as a text file |
| DataUri.LineBreakIgnoredInData | tensorlake/tool_upload.go:129-142 | a line break in base64 data changes nothing |
| DataUri.RefusedExactly | tensorlake/tool_upload.go:129-144 | a base64 URI is refused if and only if no variant accepts its payload |
| TextSearch.SegmentsAreTheLeftmostSplit | tensorlake/tool_file_edit.go:55-67 | the segments found by scanning are the one and only leftmost non-overlapping split of the text |
| TextSearch.SegmentsJoin | tensorlake/tool_file_edit.go:55-67 | there is one more segment than matches, and joining them by the pattern gives the text back |
| TextSearch.Replace | tensorlake/tool_file_edit.go:63-67 | the scanning loop returns the segments joined by the new string for the first n matches and by the old one after |
| FileEdit.SandboxFile.Edit | tensorlake/tool_file_edit.go:42-72 | the new content and the outcome, for every combination of failures |
| FileEdit.RefusalKeepsFile | tensorlake/tool_file_edit.go:51-61 | every refusal leaves the file as it was |
| FileEdit.OutcomeExactly | tensorlake/tool_file_edit.go:42-72 | the exact condition of each of the six outcomes, over every request and failure, in terms of the matches in the text |
| FileEdit.ReplaceAllRefinesSplit | tensorlake/tool_file_edit.go:55-67 | replace-all cuts at the leftmost matches and joins by the new string; the pieces and the length are exact |
| FileEdit.SingleEdit | tensorlake/tool_file_edit.go:55-72 | a single edit succeeds if and only if there is one match, replaces the first, changes nothing outside it, and every other match overlaps it |
| FileEdit.UndoExactly | tensorlake/tool_file_edit.go:55-72 | the exchanged edit gives the text back if and only if the new string is found once and found first where it was put |
| FileEdit.UndoNeedsPosition | tensorlake/tool_file_edit.go:55-72 | an edit whose new string is found once and whose undo still fails |
| FileEdit.UndoWhenUnique | tensorlake/tool_file_edit.go:55-72 | one occurrence of the new string, counting overlaps, is enough for the undo |
| FileEdit.UnreadFileKeptExactly | tensorlake/tool_file_edit.go:42-52 | a file whose reading failed is kept if and only if the old string is not empty, the write fails too, or the file held the new string all along |
| FileEdit.EmptyPatternReplacesUnreadFile | tensorlake/tool_file_edit.go:42-50 | the request that loses it: an empty old string |
| FileEdit.KeptExactly | tensorlake/tool_file_edit.go:42-72 | over every request and failure, the file is kept if and only if an unread one is, the edit is refused, or both strings are the same: a successful edit with two different strings always changes the file |
| FileRead.ReadText | tensorlake/tool_file_read.go:74-104 | the answer, the refusal of binary content or the panic of the specification, in 64-bit arithmetic |
| FileRead.PanicsExactly | tensorlake/tool_file_read.go:87-92 | the handler panics if and only if an argument is negative or the end of the window, 2000 lines by default, overflows |
| FileRead.RefusedExactly | tensorlake/tool_file_read.go:75-83 | the read fails if and only if the file cannot be read, and the file is binary if and only if one of its first 8192 bytes is NUL |
| FileRead.NumberedLineReads | tensorlake/tool_file_read.go:95-97 | an entry gives back its number, in at least six columns, and its line |
| FileRead.PageReads | tensorlake/tool_file_read.go:94-103 | a page read back gives consecutive numbers, exactly the window, and if and only if lines remain a footer whose numbers are the total and the first and last line shown |
| FileRead.PageAtShows | tensorlake/tool_file_read.go:85-103 | the same of a request, whose window has the limit asked for, or 2000 lines |
| FileRead.PastTheEnd | tensorlake/tool_file_read.go:90-103 | at or past the end the answer is empty, without a footer |
| FileRead.PagesReassemble | tensorlake/tool_file_read.go:85-103 | reading at successive offsets until no footer appears terminates, and the pages joined by newlines are the file |
| Background.InvRun | tensorlake/tool_bash.go:81-144 | the table invariant holds after every run of every interleaving |
| Background.LaunchIdsDistinct | tensorlake/tool_bash.go:87-91 | ids are pairwise distinct for the life of the server |
| Background.DeliveredIsOwnOutput | tensorlake/tool_bash.go:94-137 | what is delivered for an id is the complete output of the one launch that answered that id |
| Background.DeliveriesAgree | tensorlake/tool_bash.go:123-137 | overlapping polls of one id that both deliver give the same output |
| Background.RemovedForever | tensorlake/tool_bash.go:134-136 | once removed an id is unknown for ever and never answered again |
| Background.KnownExactly | tensorlake/tool_bash.go:123-129 | a poll finds an id if and only if it was answered to a launch and has not been removed |
| Background.FinishedIsDeliverable | tensorlake/tool_bash.go:94-137 | once the goroutine of a launch has written its output and closed the channel, the id answered to it, while in the table, stands for a finished process with that output |
| Background.PollTrace | tensorlake/tool_bash.go:118-144 | the steps of a delivering poll, with those of others between them, are one run |
| Background.Server.BashBackground | tensorlake/tool_bash.go:87-92 | launching is the state machine's event and answers the next id |
| Background.Server.BashStatus | tensorlake/tool_bash.go:118-144 | unknown exactly for an id not in the table, and delivered exactly when the channel of its process is closed when the poll receives; what is delivered is what that process wrote, whatever runs in between |
| Background.Server.PollFinished | tensorlake/tool_bash.go:131-144 | a poll of a finished process answers its output, whatever runs meanwhile |
| GoStrings.FormatNatInjective | tensorlake/tool_bash.go:89 | decimal formatting never gives two numbers the same text |
| RsaExponent.FoldExponent | tensorlake/oauth_client_auth.go:91-94 | the loop yields the big-endian value reduced to a signed 64-bit integer |
| RsaExponent.RsaPublicKeyFromJwk | tensorlake/oauth_client_auth.go:79-99 | the key or the refusal of the specification |
| RsaExponent.AcceptedExactly | tensorlake/oauth_client_auth.go:79-98 | over all keys: accepted if and only if it is an RSA key whose texts are not empty and decode, and the low 64 bits of its exponent read as a positive number |
| RsaExponent.ExponentExactly | tensorlake/oauth_client_auth.go:83-98 | a key whose texts decode, canonically or not, is accepted with the exponent it means if and only if that is positive and below 2^63, whatever its leading zeros (section 6.3.1.2 of RFC 7518) |
| RsaExponent.MisreadExactly | tensorlake/oauth_client_auth.go:91-98 | it is accepted with another exponent if and only if that is 2^63 or more and its low 64 bits read as a positive number, which is then the exponent |
| RsaExponent.RefusedExactly | tensorlake/oauth_client_auth.go:91-97 | it is refused if and only if its low 64 bits read as zero or a negative number |
| RsaExponent.OnlyLowEightBytes | tensorlake/oauth_client_auth.go:91-94 | bytes before the last eight never influence the exponent |
| RsaExponent.OverlongExponentIsTruncated | tensorlake/oauth_client_auth.go:79-98 | with any modulus, the key whose exponent is the nine bytes of 2^64 + 3 is accepted with exponent 3 |

## Left out

- HTTP, HTML, JSON, the metadata documents and the redirect that carries the code back: formatting of values that are modelled.
- The origin of a request (`requestOrigin`): an arbitrary value; the resource is compared with it.
- The `state` parameter of an authorization: it is only echoed.
- The key, `kid`, lifetime and audience checks of a client assertion: one outcome, `verified`; issuer and subject are modelled.
- Calls to Tensorlake, with their retries and time limits: each is one action with an outcome.
- `ListSandboxes`, `FileWrite`, `Glob`, `Parse`, images and PDFs: orchestration over foreign calls, and more uses of `shellQuote`.
- `mimetype`, `truncateOutput` and the cut of long `Grep` output: table lookup and length arithmetic.
- The splitting of very long argument lists by `xargs`.
- The width of `bgCounter`: it is unbounded, so an overflow after 2^63 launches is not modelled.
- Invalid UTF-8 in files and requests.
- OAuthService.Service.UpdateSessions: demands that the UPDATE breaks no UNIQUE constraint, which `OAuthService.RenewalAdmitted` proves.
- OAuthService.Service.ApiKeyForOAuthAccessToken: demands the UNIQUE constraint of the table, which every run keeps.
- HomeCacheServer.Server.EnsureSandbox: whether it blocks depends on the other goroutines and is stated by the lemmas of `HomeCache`.
