# Keyline: login, token grants and signing keys

This project models the part of the Keyline identity server that decides who is logged in, who gets a token and
which key signs it, and proves what that part promises over whole runs. It also covers four smaller pieces of
the same server: JSON merge patch, the job runner, the session cache with its cookie, and paging.

## How the pieces fit

- **Protocol** is one state machine over the token store, the sessions and the database rows the handlers read.
  Every HTTP handler is one atomic event with a guard and a successor state (`Next`). Expiry, logout and deletion of a
  session are one event, `DoLapse`, which may drop any entry. Everything administrators do is `DoChangeDatabase`, which
  may replace the database by any other.
- **Handlers** has the handlers themselves, written step by step over the stores of a class `Server`. Each is proved to
  make exactly the transition `Next` gives its event, to answer as it should and to touch nothing else.
- **Runs**, **GrantRuns**, **LoginRuns**, **DeviceRuns** and **EndToEnd** prove what holds in every run: single use,
  where codes, sessions and refresh tokens come from, what a login has proved at each step, the life of a device code,
  and, end to end, the login that a live refresh token was earned by. **CrossServer** is a run of its own.
- **SigningKeys**, **KeyRotation**, **SigningConfig**, **SigningCommands**, **SigningHistory** and **SignedKeys** cover the rotation job, the key
  service with its cache, the commands that change algorithms, and when the key a token is signed with is published.
- **MergePatch** and **MergeInPlace** compare JSON merge patch with section 2 of RFC 7396; the second one works on maps in
  the heap that are updated in place.
- **JobRunner** interleaves the goroutines of the job manager. **TokenService**, **SplitToken** and **Sessions** cover the
  keys of the shared key-value store, the cookie and the cache-aside session lookup. **Paging** covers page arithmetic.

## What is assumed

- Requests are atomic, and calls into the key-value store, the database and the key store succeed.
- A virtual server's name stands for its id: the program has no way to rename or delete one.
- Hashing and S256 are injective: a digest is its preimage under a tag. A TOTP code is the set of secrets it is valid for
  at that moment. `Assertion.valid` stands for the client-data, origin, challenge and signature checks of a passkey.
- Random values (tokens, user codes, secrets, key ids) come with the event that draws them. A run starts with empty
  stores, and no name is drawn twice within a run. They are never empty strings.
- `Refused(Failure)` stands for every refusal through a failed lookup or an internal error, whatever its HTTP status.
- `issued` in a token request says that key lookup, claims mapping and signing succeed.
- A request's database writes are committed when its scope closes, even if the handler failed
  (`internal/middlewares/ScopeMiddleware.go:20-21`, `internal/setup/database.go:52-54`). So a new password or TOTP secret is kept
  when the next login step cannot be decided.
- `Generate` makes keys that rotate after 20 days and expire after 30. The clock stands still during one rotation run,
  and no command acts on a server's keys while that server's own rotation is under way; its record may have been listed earlier.
- The API accepts two algorithms, EdDSA and RS256.

## Where the code does less than expected

- `KeyService.GetKey` caches a key per server and algorithm and never drops it. After a rotation it may go on signing with
  a key that is no longer stored, hence no longer published. `SignedKeys.StaleSigningKey` gives an instance, and
  `SignedKeys.SigningKeyPublishedExactlyWhen` and `SignedKeys.CacheStaysCurrent` say exactly when it happens.
- It may also pick a key that expires before the token it signs: `SignedKeys.TokenOutlivesKey` gives an instance,
  `SignedKeys.TokenStaysVerifiable` the exact condition.
- One rotation run may leave a key of an algorithm that is no longer configured, because it decides what to generate on
  the list read before deletions. `SigningKeys.OneRunMayNotBeEnough` gives an instance, `SigningKeys.OneRunIsEnough` the exact
  condition; a second run settles it.
- The job lists all servers first and rotates each with the record it read then. When an algorithm was added and seeded in
  between, the job removes its only key. `SigningConfig.StaleListingTakesKey` gives an instance, and
  `SigningConfig.ConsistentStep` and `SigningConfig.AlwaysConsistent` the exact condition.
- One application of JSON merge patch differs from RFC 7396 when nulls sit inside an object laid over a non-object:
  `MergePatch.OneApplicationKeepsNull` gives an instance, `MergePatch.OneApplication` the exact condition.
- A job with WithStartImmediate can run twice at once after a restart: `JobRunner.RestartOverlapsImmediateJob` gives an
  instance, `JobRunner.ExclusiveThroughout` the exact condition.
- Overlapping calls of Stop can leave a stopped manager with a live context: `JobRunner.OverlappingStopsLeaveContext` gives an
  instance, `JobRunner.StoppedMeansCancelledExactlyWhen` the exact condition.
- The total number of pages is one too high exactly when the page size divides the number of items, and the offset wraps
  at 64 bits (`Paging.TotalPagesIsCeiling`, `Paging.LaterPageEmptyExactlyWhen`, `Paging.LaterPageMayRepeat`).
- The activation page does not compare its own virtual server with that of the device code, and the device grant looks its
  user up by id alone. So a refresh token of one server can go to a user of another: `CrossServer.GrantCrossesServers` gives
  a run, and `EndToEnd.DeviceGrantIsEarned` says that the login was on the token's own server exactly when the user code was
  posted on that server's page.

## Model

| member | source | states |
|---|---|---|
| Runs.LiveOrDrawn | internal/services/tokens.go:48-117 | no handler stores anything under a name it did not draw itself; all other writes update entries that exist |
| Runs.LiveWasDrawn | internal/services/tokens.go:48-61 | in every reachable state every stored name was drawn by an earlier event of the run |
| Runs.NotDrawnAgain | internal/services/tokens.go:48-61 | a name drawn earlier is never handed out a second time |
| Runs.NotLiveBeforeDrawn | internal/services/tokens.go:48-61 | a name is stored nowhere before the event that draws it |
| Runs.GoneForever | internal/services/tokens.go:91-105 | an entry that was used up, deleted or expired is in no later state |
| Runs.LapseDropsOne | internal/services/tokens.go:91-105 | expiry, or the deletion of a session, takes away exactly the one entry it names |
| Runs.OthersKeepStores | internal/handlers/oidc.go:1605-1843 | a token exchange changes nothing, and administrators change the database alone |
| Runs.RedeemedIsConsumed | internal/handlers/oidc.go:1124-1134 | a successful code, refresh or device grant, or FinishLogin, found its credential stored and leaves it deleted |
| Runs.RedeemedIsGone | internal/handlers/oidc.go:2052-2056 | a redeemed code, refresh token, device code or login token never reappears in the run |
| Runs.RedeemedAtMostOnce | internal/handlers/oidc.go:1516-1520 | each authorization code, refresh token and device code is honoured by at most one successful token request of a run, and each login token makes at most one session |
| Runs.FailedTokenRequest | internal/handlers/oidc.go:1469-1597 | a token request that is refused adds no entry of any kind, changes no refresh token, session or row, and can only have used up the refresh token or device code it presented |
| GrantRuns.CodeStep | internal/handlers/oidc.go:454-480 | an event leaves a stored code as it was or is the authorize request that issued it |
| GrantRuns.CodeWasIssued | internal/handlers/oidc.go:454-480 | every stored code is exactly what an earlier accepted authorize request of a logged-in user stored |
| GrantRuns.SessionStep | internal/handlers/login.go:609-618 | an event leaves a stored session as it was or is the FinishLogin that made it |
| GrantRuns.SessionWasBegun | internal/handlers/login.go:609-618 | every stored session was made by an earlier FinishLogin of a login at step finish, for that login's user and server |
| GrantRuns.CodeGrantTraceback | internal/handlers/oidc.go:1041-1078 | every successful code grant answers an earlier authorize request of the same server and, by the application rows at both moments, the same client, with the same redirect URI registered at that time, openid among its scopes, an S256 challenge that the 43 to 128 character verifier meets, and the cookie of a session that a still earlier FinishLogin made for that user on that server |
| GrantRuns.RefreshTokenStep | internal/handlers/oidc.go:1421-1467 | a refresh token is new and carries its code's or device code's grant, or took over the record of the one it replaced, or is unchanged |
| GrantRuns.Root | internal/handlers/oidc.go:1469-1597 | every live refresh token has, followed back through its rotations, an earlier event that began its chain |
| GrantRuns.RefreshTokenLineage | internal/handlers/oidc.go:1558-1577 | every live refresh token carries, field by field, the server, user and scopes of the code or device code stored before the root of its chain, and the client that redeemed it there, however many rotations and expiries happened |
| GrantRuns.RotationReplaces | internal/handlers/oidc.go:1516-1520 | an accepted refresh leaves the presented token gone |
| GrantRuns.RootBefore | internal/handlers/oidc.go:1421-1467 | the root of a token is the last event exactly when that event began a chain with it |
| GrantRuns.RootsAreDistinct | internal/handlers/oidc.go:1469-1597 | two different live refresh tokens never go back to the same event |
| GrantRuns.OneLiveTokenPerCode | internal/handlers/oidc.go:1013-1154 | each authorization code and each device code has at most one live refresh token descended from it |
| GrantRuns.OtherClientKeepsToken | internal/handlers/oidc.go:1511-1514 | a refresh request by another client than the token's changes nothing at all |
| GrantRuns.ChainHasOneClient | internal/handlers/oidc.go:1469-1597 | every rotation of a chain is made by the client that redeemed the code or device code at its root |
| GrantRuns.RedeemersAuthenticate | internal/handlers/oidc.go:930-969 | in every run, whoever redeems or uses up a code, refresh token or device code, or begins a device flow, is a client that by its stored row showed its secret if confidential and none if public; a device flow needs a row that enables it |
| LoginRuns.LoginUntouched | internal/handlers/login.go:296-319 | a login that does not advance stays as it is, except that a wrong password below the limit adds one to its counter |
| LoginRuns.LoginAdvanced | internal/handlers/login.go:66-84 | a login that advances is stored as its handler changed it, at the step that was decided, with a new secret exactly when that step is TOTP onboarding |
| LoginRuns.LoginBegun | internal/jsonTypes/LoginInfo.go:35-45 | a login that is new starts at the password step with no secret and no failed attempts, and nothing else begins a login |
| LoginRuns.CoherentAdvance | internal/handlers/login.go:89-160 | the next-step decision follows the grammar of a complete login: temporary password, then email, then second factor, each gate as it stood when decided |
| LoginRuns.MilestoneProves | internal/handlers/login.go:344-381 | what each advance rests on: the right password of that user, a password now stored as not temporary, a verified email, a code for the secret now stored, a code for a stored secret, or a valid assertion for a challenge of this login; its user always belongs to the login's server |
| LoginRuns.NoStoryBeforeDrawn | internal/handlers/login.go:44-62 | nothing is proved and no password missed on a login token before it is handed out |
| LoginRuns.LoginsAreCoherent | internal/handlers/login.go:44-160 | in every reachable state the step of every stored login agrees with exactly what its user has proved so far in the run |
| LoginRuns.FinishMeansComplete | internal/handlers/login.go:588-607 | a stored login is at finish if and only if its current user has shown a passkey last, or has passed the password and every gate as it stood when decided; a TOTP secret is stored at onboarding and otherwise at most at finish |
| LoginRuns.AtMostFiveMisses | internal/handlers/login.go:296-325 | at most five wrong passwords are answered in the whole life of a login token; a live one has seen at most four and counts them exactly while at the password step |
| LoginRuns.FifthMissEndsLogin | internal/handlers/login.go:296-319 | a wrong password ends the login if and only if it is the fifth of its life |
| LoginRuns.StepRankRises | internal/handlers/login.go:128-159 | every advance without a passkey strictly raises the rank of the step; a passkey always lands on finish; only the password step resets the counter |
| LoginRuns.LoginProgress | internal/handlers/login.go:296-332 | every change to a stored login other than by passkey raises its step or spends one of its remaining wrong passwords |
| LoginRuns.AtMostEightChanges | internal/handlers/login.go:44-160 | in the whole life of a login token at most eight events other than passkeys change it, and a live one has changed at most as often as its step has risen and wrong passwords were answered |
| DeviceRuns.DeviceStep | internal/handlers/login.go:626-656 | a device code is stored pending and without user, and then changes only by a FinishLogin that names it, in status and user alone |
| DeviceRuns.NoFinisherBeforeDrawn | internal/handlers/oidc.go:1919-1943 | no login is finished for a device code before it is handed out |
| DeviceRuns.DeviceCodeStatus | internal/handlers/login.go:639-641 | a stored device code is pending until some login finishes for it, is then authorized and carries the user of the last such login; it is never denied |
| DeviceRuns.DeviceCodeOrigin | internal/handlers/oidc.go:1919-1943 | a stored device code has the server, client, scopes and user code of the accepted request that began it; those scopes contain openid and that client's row had the device flow enabled |
| DeviceRuns.LastFinisherExists | internal/handlers/login.go:626-656 | the last finisher of a device code is the user of an actual FinishLogin that found it stored |
| DeviceRuns.DeviceGrantTraceback | internal/handlers/oidc.go:2001-2056 | every successful device grant goes back to the request that began the device code for the same server and client, and to a FinishLogin that authorized it for the user now granted |
| DeviceRuns.LoginStepKeeps | internal/handlers/login.go:44-84 | no step of a login changes its server or its device code |
| DeviceRuns.LoginOrigin | internal/handlers/oidc.go:2212-2221 | every stored login has the server and device code of the authorize or activate request that began it |
| DeviceRuns.UserCodeStep | internal/handlers/login.go:655-657 | a user code is stored only with its device code, and is deleted when that device code is authorized |
| DeviceRuns.UserCodeIsPending | internal/handlers/oidc.go:2160-2184 | a live user code's device code is still pending and names this user code, or has expired |
| EndToEnd.MilestonesAreOnServer | internal/handlers/login.go:106-110 | every proof in the past of a stored login was given at an actual earlier event by a user who was on the login's own server at that moment |
| EndToEnd.SessionIsEarned | internal/handlers/login.go:609-618 | every session was made for a user who had by then passed every gate, or shown a passkey, each time as a user of the session's server |
| EndToEnd.CodeGrantIsEarned | internal/handlers/oidc.go:1041-1078 | behind every accepted code grant are the authorize request it answers and the completed login, on the same server, that gave the cookie of that request |
| EndToEnd.DeviceGrantIsEarned | internal/handlers/oidc.go:2138-2221 | behind every accepted device grant is the completed login that authorized this very device code, begun by posting its live user code; it was on the device code's own server if and only if the user code was posted on that server's page |
| CrossServer.GrantCrossesServers | internal/handlers/oidc.go:2160-2212 | an instance: a run that ends with a refresh token of a server without users, for a user of another server on whose page the user code was posted |
| EndToEnd.LiveRefreshTokenIsEarned | internal/handlers/oidc.go:1421-1467 | every live refresh token has openid and names a user who completed a login before its chain began: for a code, on the token's server, the login that gave the cookie of the authorize request the root grant answers; for a device code, the login that authorized the root's device code, on the token's server if and only if the user code was posted on that server's page |
| EndToEnd.RefreshTokenGrantsWhatWasAsked | internal/handlers/oidc.go:1421-1467 | the server and scopes of every live refresh token are those of the authorize or device request its chain goes back to, and its client is the one that made that request, for a code by the application rows at both moments |
| Handlers.VerifyPkce | internal/handlers/oidc.go:974-993 | accepts exactly a verifier of 43 to 128 characters whose S256 digest is the challenge, under method S256 only |
| Handlers.Server.VerifyPasswordCredential | internal/handlers/login.go:344-381 | finds the one user of that name on that server whose stored password matches; a wrong name, a missing credential and a wrong password all give none |
| Handlers.Server.NextStep | internal/handlers/login.go:89-160 | which step follows, as a table over the stored rows: a temporary password, else a pending email, else a stored TOTP secret, else a required one, else finish; and exactly when none can be decided |
| Handlers.Server.StoreNextStep | internal/handlers/login.go:66-84 | stores the changed login at its decided step with a new secret only when onboarding, or leaves the store alone when no step can be decided |
| Handlers.Server.VerifyPassword | internal/handlers/login.go:250-332 | makes exactly the protocol's password transition; unauthorized is answered exactly for a wrong step or a wrong password, bad request exactly for an empty field, success exactly when the login moved |
| Handlers.Server.ResetTemporaryPassword | internal/handlers/login.go:680-727 | makes exactly the protocol's transition and keeps the new password whatever the outcome; unauthorized exactly at another step, bad request exactly for an empty password, success exactly when the login moved |
| Handlers.Server.VerifyEmailToken | internal/handlers/login.go:392-424 | makes exactly the protocol's transition; success exactly when the login was at the email step, its user's address is verified and a next step exists; unauthorized exactly at another step or with the address unverified |
| Handlers.Server.OnboardTotpHandler | internal/handlers/login.go:441-490 | makes exactly the protocol's transition: the onboarded secret joins the user's secrets and leaves the login; bad request exactly when the code is wrong, unauthorized exactly at another step |
| Handlers.Server.VerifyTotpHandler | internal/handlers/login.go:506-577 | the loop over stored secrets accepts exactly when one of them accepts the code, and then the login moves as the protocol says; otherwise bad request |
| Handlers.Server.StartPasskeyLogin | internal/handlers/login.go:824-862 | stores a challenge bound to this login token and nothing else |
| Handlers.Server.FinishPasskeyLogin | internal/handlers/login.go:880-1051 | accepts exactly a valid assertion for a challenge of this login by a credential whose owner is on the login's server, and then moves the login to finish as that owner |
| Handlers.Server.FinishLogin | internal/handlers/login.go:588-663 | makes exactly the protocol's transition; the session is made and the login token deleted even when the device code has expired meanwhile, success is answered exactly when there is no device code or it was authorized, and unauthorized exactly at another step |
| Handlers.Server.CurrentUser | internal/middlewares/SessionMiddleware.go:46-105 | the user of the session on this very server whose secret the cookie shows, and none otherwise |
| Handlers.Requested | internal/handlers/oidc.go:346-364 | each claim replaces the form value of its own name, a missing claim leaves it, and challenge, prompt, cookie and server stay the form's |
| Handlers.ReadRequest | internal/handlers/oidc.go:320-364 | the request is the form's with the claims of a readable request object; an unreadable one is an error |
| Handlers.Server.BeginAuthorizationFlow | internal/handlers/oidc.go:304-531 | makes exactly the protocol's transition for the form with its request object, and none when that cannot be read |
| Handlers.Server.Authorize | internal/handlers/oidc.go:366-531 | the redirect-URI loop accepts exactly registered URIs; a code is sent, to the requested URI and with the requested state, exactly for a logged-in user's accepted request, a login page exactly for an accepted one without session, unless it asks for prompt none, which is exactly when login_required is answered |
| Handlers.Server.PostActivatePage | internal/handlers/oidc.go:2138-2229 | begins a login for the device code exactly when the user code is live, its device code pending and its client known to the page's server; not found exactly when the user code or its device code is gone |
| Handlers.Server.AuthenticateApplication | internal/handlers/oidc.go:930-969 | by the stored row, accepts a confidential client exactly with a secret of the stored digest, a public one exactly without a secret, any other never |
| Handlers.Server.HandleAuthorizationCode | internal/handlers/oidc.go:1013-1154 | makes exactly the protocol's transition; tokens are sent exactly on an accepted grant with the code's own scopes; invalid_client exactly when client authentication fails, a failure exactly when every check passed but the tokens could not be made, and invalid_grant in all other cases |
| Handlers.Server.HandleRefreshToken | internal/handlers/oidc.go:1469-1597 | makes exactly the protocol's transition; the presented token is gone even when issuing fails afterwards, and exactly then a failure is answered; invalid_client exactly when client authentication fails, invalid_grant in all other cases |
| Handlers.Server.BeginDeviceFlow | internal/handlers/oidc.go:1859-1969 | stores a pending device code and its user code exactly for an authenticated client with openid and the device flow enabled; invalid_scope exactly without openid |
| Handlers.Server.HandleDeviceCodeGrant | internal/handlers/oidc.go:1971-2122 | makes exactly the protocol's transition; authorization_pending exactly while pending, expired_token exactly when unknown, access_denied exactly when denied, tokens exactly on an accepted grant |
| SigningKeys.RotationRefreshes | internal/jobs/KeyRotateJob.go:112-153 | after one run every configured algorithm has a key that is not due for rotation |
| SigningKeys.OneRunIsEnough | internal/jobs/KeyRotateJob.go:44-70 | one run leaves keys of configured algorithms only, if and only if each unconfigured algorithm with keys still had one that was not due |
| SigningKeys.OneRunMayNotBeEnough | internal/jobs/KeyRotateJob.go:112-140 | an instance where one run makes a new key for an unconfigured algorithm |
| SigningKeys.NothingDueAfterRotation | internal/jobs/KeyRotateJob.go:44-70 | right after a run no algorithm is due and no stored key has expired |
| SigningKeys.TwoRunsSettle | internal/jobs/KeyRotateJob.go:44-70 | two runs at one instant leave fresh keys of configured algorithms only, the second makes none, and a third changes nothing |
| KeyRotation.KeyService.constructor | internal/services/keys.go:750-755 | a new key service holds no key and has cached none |
| KeyRotation.KeyService.GetAll | internal/services/keys.go:792-794 | lists exactly the stored keys, in no promised order |
| KeyRotation.KeyService.Remove | internal/services/keys.go:201-209 | deletes exactly the key of that algorithm and id and tolerates a missing one |
| KeyRotation.KeyService.Generate | internal/services/keys.go:757-770 | adds one fresh key that rotates after 20 and expires after 30 days and keeps all others |
| KeyRotation.KeyService.GetKey | internal/services/keys.go:772-789 | the cached key of that algorithm whether or not it is still stored, or else some stored key of it, which is cached, or none if there is none |
| KeyRotation.KeyService.DeleteExpiredKeys | internal/jobs/KeyRotateJob.go:72-89 | leaves exactly the keys that have not expired |
| KeyRotation.KeyService.DeleteOrphanKeys | internal/jobs/KeyRotateJob.go:91-110 | leaves exactly the keys of configured algorithms, also when the list names keys already gone |
| KeyRotation.KeyService.AlgorithmsToRotate | internal/jobs/KeyRotateJob.go:118-127 | the two passes mark exactly the algorithms of the list, and as due exactly those without a key that is good for a while |
| KeyRotation.KeyService.ReplaceDueKeys | internal/jobs/KeyRotateJob.go:129-139 | for any order of the map, exactly one new key for each algorithm marked due |
| KeyRotation.KeyService.SeedMissingKeys | internal/jobs/KeyRotateJob.go:141-150 | one new key for each configured algorithm that the list did not know, and no second one for any |
| KeyRotation.KeyService.GenerateNewKeys | internal/jobs/KeyRotateJob.go:112-153 | makes exactly one key for each algorithm due on the given list and removes none |
| KeyRotation.KeyService.RotateKeys | internal/jobs/KeyRotateJob.go:44-70 | after one run unexpired keys of configured algorithms are kept, no other old key is, and exactly one key was made per algorithm due on the list read before the deletions |
| SigningConfig.KeyAfterRotation | internal/jobs/KeyRotateJob.go:44-153 | a rotation leaves a key of an algorithm that had one if and only if the algorithm was listed or all its keys were due |
| SigningConfig.ConsistentStep | internal/commands/PatchVirtualServer.go:75-115 | no command takes an application's algorithm away or leaves a configured algorithm without a key, and a rotation does if and only if it works from a listing that lacks a configured algorithm whose key is still good |
| SigningConfig.AlwaysConsistent | internal/jobs/KeyRotateJob.go:20-42 | in every interleaving of the commands and the job each explicit algorithm stays configured and each configured algorithm keeps a stored key throughout, if and only if no rotation works from such an out-of-date listing |
| SigningConfig.AlgorithmsStayConfigured | internal/commands/PatchVirtualServer.go:83-93 | each application's explicit algorithm stays configured in every interleaving, whatever any rotation has listed |
| SigningConfig.StaleListingTakesKey | internal/jobs/KeyRotateJob.go:27-41 | an instance: an algorithm added and seeded after the job listed the server loses its only key to the job |
| SigningHistory.ConfigurationIsLastNamed | internal/commands/PatchVirtualServer.go:75-95 | in every interleaving the server's primary and additional algorithms are those the last accepted patch to name them set, and each application's explicit algorithm is the one its last accepted command named |
| SigningHistory.SignsWithLastNamed | internal/handlers/oidc.go:1156-1161 | the key of every signing event is of the algorithm that the last accepted command on its application named, and if none did, of the primary that the last accepted patch set |
| SignedKeys.UncachedKeyIsPublished | internal/handlers/oidc.go:1156-1161 | an application's algorithm always has a key in a consistent realm, and when it is not cached every key it may resolve to is published then, in any realm whose explicit algorithms are configured |
| SignedKeys.SigningKeyPublishedExactlyWhen | internal/services/keys.go:772-789 | for every signing event of every interleaving, whatever was dropped or listed before, the key is of the application's own algorithm, and it is published at that moment if and only if that algorithm was not cached or the cached key is still stored |
| SignedKeys.CacheStaysCurrentExactlyWhen | internal/services/keys.go:772-789 | of all steps only a rotation can make the cache stale, and does so if and only if it removes a cached key |
| SignedKeys.SignedKeysArePublished | internal/handlers/oidc.go:124-140 | in every interleaving of commands, rotations and signing, as long as no rotation has removed a cached key, each application signs with a key of its own algorithm that the key set publishes at that moment |
| SignedKeys.CacheMatchesThroughout | internal/services/keys.go:772-789 | in every interleaving each cached key is of the algorithm it is cached for |
| SignedKeys.CacheStaysCurrent | internal/services/keys.go:772-789 | in every interleaving every cached key is still stored throughout, if and only if no rotation removes a cached key |
| SignedKeys.StaleSigningKey | internal/setup/setup.go:19-21 | an instance: a server that signed once and rotates 31 days later goes on signing with an unpublished key |
| SignedKeys.StoredExactlyWhile | internal/jobs/KeyRotateJob.go:72-89 | over any interleaving whose rotations list its algorithm and whose clock does not go back, a stored key is stored until a rotation finds it expired, and never again |
| SignedKeys.PublishedExactlyWhile | internal/handlers/oidc.go:124-140 | over the same interleavings it is published at the end if and only if its algorithm is configured there and no rotation found it expired |
| SignedKeys.TokenStaysVerifiable | internal/handlers/oidc.go:1103-1118 | a token signed with a stored key finds that key published all its hour, over all rotations that list the algorithm, if the key expires no earlier than the token; when a rotation falls on the end of that hour, only then |
| SignedKeys.TokenOutlivesKey | internal/services/keys.go:775-786 | an instance: although a newer key is stored, signing may pick one that expires in a minute, and half an hour later the token's key is no longer published |
| SigningCommands.AllSigningAlgorithms | internal/repositories/virtualservers.go:152-162 | the primary algorithm first, then the additional ones by first occurrence, each exactly once |
| SigningCommands.HasSigningAlgorithm | internal/repositories/virtualservers.go:143-150 | true exactly for the primary and the additional algorithms |
| SigningCommands.VirtualServer.constructor | internal/commands/CreateVirtualServer.go:117-140 | a new virtual server has a key for every configured algorithm, so it starts out consistent |
| SigningCommands.VirtualServer.PatchVirtualServer | internal/commands/PatchVirtualServer.go:49-118 | refuses exactly the changes that would take an explicit algorithm away, and otherwise stores what is named, keeps the rest, and makes keys only for configured algorithms without one |
| SigningCommands.VirtualServer.MayConfigure | internal/commands/PatchVirtualServer.go:84-94 | the loop over applications accepts exactly when every explicit algorithm is among the new ones |
| SigningCommands.VirtualServer.SeedKeys | internal/commands/PatchVirtualServer.go:98-115 | a key for each configured algorithm that had none; existing keys stay |
| SigningCommands.VirtualServer.CreateApplication | internal/commands/CreateApplication.go:56-109 | accepts an explicit algorithm exactly when it is configured, and changes nothing otherwise |
| SigningCommands.VirtualServer.PatchApplication | internal/commands/PatchApplication.go:50-123 | sets an explicit algorithm exactly when the application exists and the algorithm is configured |
| SigningCommands.VirtualServer.RotateKeys | internal/jobs/KeyRotateJob.go:33-34 | a rotation with the algorithms of the record the job listed, whatever the server's own are by then, leaving configuration and cache alone |
| SigningCommands.VirtualServer.SigningKey | internal/handlers/oidc.go:1156-1161 | signs with the explicit algorithm of the application, or else the primary: with that algorithm's cached key or else a stored one; fails exactly when there is neither, never on a consistent server |
| SigningCommands.VirtualServer.WellKnownJwks | internal/handlers/oidc.go:124-140 | publishes exactly the stored keys of configured algorithms |
| MergePatch.OverNonObject | utils/json.go:17-17 | a patch laid over a non-object as it stands is what RFC 7396 asks for if and only if it holds no nulls |
| MergePatch.OneApplication | utils/json.go:3-20 | one application equals RFC 7396 section 2 if and only if every patch object that lands on a non-object is free of nulls at all depths |
| MergePatch.OneApplicationKeepsNull | utils/json.go:17-17 | an instance: onto an empty base the patch {"a": {"b": null}} leaves the null, where RFC 7396 asks for an empty object |
| MergePatch.OntoItself | utils/json.go:3-20 | a patch merged into a copy of itself is exactly the patch with its nulls stripped, as RFC 7396 asks for on a non-object |
| MergePatch.TwoApplications | utils/json.go:3-20 | for every base and patch, applying the patch twice gives exactly the result of RFC 7396 section 2 |
| MergePatch.FurtherApplications | utils/json.go:3-20 | from the second application on nothing changes any more |
| MergeInPlace.JsonMap.MergeOne | utils/json.go:4-17 | for base and patch without common maps, one turn of the loop settles one member in place and leaves every other member and the whole patch as they were |
| MergeInPlace.JsonMap.JsonMergePatch | utils/json.go:3-20 | for base and patch that are trees of maps with none in common, as the one caller decodes them, the in-place loop leaves in the base exactly the merge of the old base and the patch, for every order of the map, without changing the patch; the base reaches only maps it had and maps of the patch |
| JobRunner.WellFormedStep | internal/jobs/JobRunner.go:82-161 | loops, flags and contexts stay in step over every action |
| JobRunner.InFlightAfter | internal/jobs/JobRunner.go:127-159 | an action changes the executions in flight only by beginning or ending its own |
| JobRunner.ExclusiveStep | internal/jobs/JobRunner.go:129-156 | at most one execution in flight, flagged exactly then, is kept by an action if and only if it is not an immediate run that begins while the flag says running |
| JobRunner.ExclusiveThroughout | internal/jobs/JobRunner.go:110-159 | a run has at most one execution of a job in flight throughout, flagged exactly then, if and only if no immediate run of it begins while its flag says running |
| JobRunner.PlainJobsAreExclusive | internal/jobs/JobRunner.go:151-156 | over every interleaving and any restarts a job without WithStartImmediate has at most one execution in flight, and its flag says running exactly then |
| JobRunner.OneLoopPerStartAndJob | internal/jobs/JobRunner.go:110-125 | in every run each Start makes, under its own context, exactly one loop for each job that was queued when it read the list and that it has come to |
| JobRunner.StartedOnceOneLoopPerJob | internal/jobs/JobRunner.go:110-125 | a manager started once has at most one loop per job |
| JobRunner.ReturnedMeansCancelled | internal/jobs/JobRunner.go:143-150 | in every run a loop that has returned ran under a context that was cancelled |
| JobRunner.NothingUndone | internal/jobs/JobRunner.go:82-125 | queued jobs, contexts, cancellations, and a loop's job, context and return are never taken back |
| JobRunner.CancelledByStop | internal/jobs/JobRunner.go:189-205 | a context is cancelled exactly by a Stop that took it or from outside |
| JobRunner.RunningRefuses | internal/jobs/JobRunner.go:82-116 | a running manager accepts no job and no second Start |
| JobRunner.StartedOnceIsExclusive | internal/jobs/JobRunner.go:110-159 | the same holds for every job, immediate or not, of a manager that was started once |
| JobRunner.RestartOverlapsImmediateJob | internal/jobs/JobRunner.go:129-133 | an instance: a restart during an immediate run makes two executions of one job |
| JobRunner.TidyStep | internal/jobs/JobRunner.go:189-211 | every context but that of a running manager's last Start stays cancelled over an action if and only if it is not a Stop that ends while the current context is live |
| JobRunner.StoppedMeansCancelledExactlyWhen | internal/jobs/JobRunner.go:189-211 | over every run, a manager that is not running has always cancelled every context it ever made, if and only if no Stop ends while the current context is live |
| JobRunner.StopSoundStep | internal/jobs/JobRunner.go:189-211 | while calls of Stop do not overlap, a Stop under way is after the current context and ends only once that is cancelled |
| JobRunner.StopsAreSound | internal/jobs/JobRunner.go:189-211 | the same at every point of a run without overlapping calls of Stop, including Start calls that arrive in the middle of one |
| JobRunner.StoppedMeansCancelled | internal/jobs/JobRunner.go:189-211 | without overlapping calls of Stop a manager that is not running has cancelled every context it ever handed to a loop, over any number of restarts |
| JobRunner.OverlappingStopsLeaveContext | internal/jobs/JobRunner.go:189-211 | an instance: overlapping calls of Stop leave a stopped manager with a live context |
| TokenService.KeyIsInjective | internal/services/tokens.go:27-29 | whatever text clients send as a token, two different pairs of type and token never share a key |
| TokenService.KeyIsNotForeign | internal/services/tokens.go:16-29 | no token key is one of a cached session, a passkey login or a passkey registration in the same store |
| TokenService.SessionKeyIsInjective | internal/services/sessions.go:168-170 | two cached sessions share a key only if they agree in server and id, even for server names with colons |
| TokenService.Store.constructor | internal/services/tokens.go:44-46 | a new store is empty |
| TokenService.Store.StoreToken | internal/services/tokens.go:107-117 | storing or updating one token is read back under its type and name and changes no other entry of any type |
| TokenService.Store.GetToken | internal/services/tokens.go:75-89 | gives the value last stored under that type and name, or nothing |
| TokenService.Store.DeleteToken | internal/services/tokens.go:91-105 | removes exactly that entry and tolerates a missing one |
| SplitToken.RoundTrip64 | utils/splittoken.go:49-51 | unpadded URL-safe base64 decodes back to every byte string (RFC 4648 section 5) |
| SplitToken.Alphabet | utils/splittoken.go:49-51 | the digits are the URL-safe alphabet in its order (RFC 4648 section 5) |
| SplitToken.GroupIsNumber | utils/splittoken.go:49-51 | the four digits of a full group, six bits each, are the number of its three bytes |
| SplitToken.Split | utils/splittoken.go:26-26 | splitting yields at least one part |
| SplitToken.SplitParts | utils/splittoken.go:26-29 | the number of parts is one more than the number of separators |
| SplitToken.SplitJoined | utils/splittoken.go:26-31 | a pair joined at a separator that the first part lacks is split at that very place |
| SplitToken.DecodesExactly | utils/splittoken.go:19-40 | a text decodes to a token if and only if it is base64 of its id, a colon and its secret, both non-empty and free of colons |
| SplitToken.EncodesJoined | utils/splittoken.go:49-51 | the cookie text is base64 of id, colon and secret |
| SplitToken.SplitTokenRoundTrip | utils/splittoken.go:19-51 | decoding an encoded token gives it back if and only if both parts are non-empty and free of colons |
| Sessions.SessionService.constructor | internal/services/sessions.go:30-32 | no sessions and an empty cache |
| Sessions.SessionService.NewSession | internal/services/sessions.go:34-53 | adds exactly one row and returns the token that names it, or nothing for an unknown server |
| Sessions.SessionService.GetSession | internal/services/sessions.go:55-103 | whatever is cached, the answer is the one the database lookup gives now, and the cache stays in agreement with it |
| Sessions.SessionService.LapseCached | internal/services/sessions.go:81-81 | expiry of a cached entry leaves the cache in agreement with the table |
| Sessions.SessionService.DeleteSession | internal/services/sessions.go:105-139 | after success the session is found neither in the cache nor in the table; a session of another server is refused and kept, a missing one is no error |
| Sessions.SessionService.ResolveCookie | internal/middlewares/SessionMiddleware.go:69-100 | through decoding, cache and secret check a cookie has exactly the outcome that the table alone gives: turned away when malformed, when its id is no id, or for an unknown server; nobody when the session is missing or the secret wrong; and otherwise the session's user |
| Sessions.RowUntouched | internal/services/sessions.go:34-139 | over any sequence of operations a row that none of them creates, or deletes on its own server, stays as it is; refused deletions on other servers included |
| Sessions.CookieResolvesUntilDeleted | internal/services/sessions.go:34-166 | the cookie of a new session resolves to its user on its server, and to nobody on any other, over every history until that session is deleted on its own server |
| Sessions.CookieIsDeadAfterDelete | internal/services/sessions.go:105-139 | after deletion the cookie resolves to nobody over every later history |
| Sessions.VisitorIsActiveUser | internal/middlewares/SessionMiddleware.go:46-105 | for every cookie text the middleware's outcome agrees with the user the authorize handler sees in the protocol |
| Sessions.SessionsAreRows | internal/services/sessions.go:34-139 | FinishLogin and the end of a session change the protocol's sessions exactly as the session service changes its table |
| Sessions.FinishedLoginIsActive | internal/middlewares/SessionMiddleware.go:136-150 | the cookie text that FinishLogin hands out makes the login's user the active user of the next request |
| Paging.ParseQueryOps | internal/handlers/queryops.go:32-88 | page and size are both 0 or both at least 1; positive values are kept, a missing page is 1 and a missing size 10; only text that is not a number is an error |
| Paging.OffsetIsExact | internal/repositories/paginginfo.go:22-24 | without overflow the offset is the number of items before the page |
| Paging.PagesArePrefix | internal/repositories/paginginfo.go:14-24 | the first n pages one after the other are the first n times size items, or all of them |
| Paging.PagesCoverList | internal/handlers/pagedresponsedto.go:5-14 | pages 1 to the total make up exactly the whole list, in order |
| Paging.TotalPagesIsCeiling | internal/handlers/pagedresponsedto.go:12-12 | the total is the number of pages needed, plus one exactly when the size divides the number of items |
| Paging.LaterPageEmptyExactlyWhen | internal/repositories/paginginfo.go:14-24 | a page past the total is empty if and only if its offset as a 64-bit integer is not before the end of the list, always so without overflow |
| Paging.LaterPageMayRepeat | internal/repositories/paginginfo.go:22-24 | an instance: with a size of 2^62 page 5 of a one-item list is that list again |

## Left out

- Handlers.Server.FinishPasskeyLogin: the checks on client data, origin, challenge bytes and signature are one truth value; their order among the refusals is not modelled.
- Handlers.Server.Authorize: a redirect URI that cannot be parsed after the code was stored. The response mode is read and never used.
- Handlers.Server.HandleAuthorizationCode: the access and ID tokens themselves and their lifetimes; only the refresh token is state.
- Handlers.Server.CurrentUser: a malformed cookie, which the middleware turns away before the handler is reached (Sessions.SessionService.ResolveCookie has it).
- Sessions.SessionService.NewSession: the expiry time of a session, which no lookup reads, and its creation time.
- MergeInPlace.JsonMap.JsonMergePatch: a base and a patch that share maps before the call, and maps inside lists, which the loop never enters; the returned map is always the base itself.
- JobRunner.InFlightAfter: lost appends when two calls of QueueJob write the job list at once; contexts of single executions, job timeouts, panics and error callbacks, none of which touches a flag or a loop's context.
- KeyRotation.KeyService.RotateKeys: failures of the key store halfway through a run, a clock that moves during it, and commands that act on the server's keys in its middle.
- SigningCommands.VirtualServer.CreateApplication: all fields but the signing algorithm, a missing project, and the permission for system projects.
- SigningCommands.VirtualServer.PatchApplication: all fields but the signing algorithm, a missing project, and the fields refused for system applications.
- SigningCommands.VirtualServer.PatchVirtualServer: the in-memory database, where a refused change has already touched the shared record.
- Paging.ParseQueryOps: ordering and search fields.
- Overlapping requests on one token: every claim about the protocol is for atomic requests.
- Email verification tokens and resending them: the email gate reads only the verified flag of the user.
- Token exchange does not change the store; its own checks are not modelled.
- Text of ids: how a UUID is written and read is a parameter of Sessions; only that an id is read back from its own text is used.
- JWT signing, argon2, SHA-256, TOTP arithmetic, WebAuthn signatures and the claims-mapping script.
- Key stores on disk and in Vault, the SQL and in-memory repositories, the outbox, mail, metrics, leader election.
- Password policies, the remaining commands and queries, filters and data transfer objects: each would add only easy members.
