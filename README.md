# Token cache manager

A Dafny model of the token cache manager of the Microsoft Authentication Library for
Go (`src/internal/tokencache/cache_manager.go`). The manager sits between the token
acquisition flows and a storage back end. It has five operations:

- it checks whether a cached access token may still be handed out (`isAccessTokenValid`);
- it reads the access token, ID token, refresh token and account cached for a request (`TryReadCache`);
- it writes what a token response returned (`CacheTokenResponse`);
- it deletes a cached refresh token or access token;
- it lists every cached account.

The model has six modules:

- `Wrappers`: `Option` and `Result`.
- `Strconv`: Go's `int64`, its wrapping addition, and the base-10 integer text read by
  `strconv.ParseInt(s, 10, 64)` and written by `strconv.FormatInt`.
- `Msalbase`: the request parameters, a class because the write path overwrites their
  home account id in place. It also holds the token response, the account record and the
  scope join that gives an access token its "target".
- `CacheItems`: the access-token, refresh-token, ID-token and app-metadata records, and
  their constructors.
- `Storage`: the storage port. `StorageManager` is a class. Every read, write and delete it
  receives is appended to a ghost call log. The answer to each call comes from a fixed
  `Responses` record of functions, so the model says nothing about how the store matches keys.
- `TokenCache`: the cache manager itself, the `CacheManager` class.

Each `CacheManager` method is imperative, with the source's branches and early returns.
Each is proved against a pure outcome function that gives its result and the exact
sequence of storage calls it makes: `ReadCacheOutcome`, `CacheTokenResponseOutcome`,
`DeleteRefreshTokenOutcome` and `DeleteAccessTokenOutcome`. The properties of the manager
are proved about those functions.

The write path's outcome is built from:

- `PlannedWrites`, the writes it intends in their fixed order;
- `RunWrites`, which issues them until one fails, ignoring a failure of the ID-token write.

The clock and the instance-discovery (alias) lookup are parameters. The access token's
validity rule is evaluated with `now + 300` computed as Go's `int64` addition.

## Model

| member | source | states |
|---|---|---|
| TokenCache.IsAccessTokenValid | src/internal/tokencache/cache_manager.go:27-48 | the validity rule itself, branch for branch; it has no contract of its own: its meaning is stated by `TokenValidityIff`, `FormattedTokenValidity` and `ExpiryBoundary` |
| TokenCache.TokenValidityIff | src/internal/tokencache/cache_manager.go:27-48 | away from the int64 limit, a token is valid iff both timestamps parse as base-10 int64, it was cached at or before now, and it expires strictly after now + 300 |
| TokenCache.FormattedTokenValidity | src/internal/tokencache/cache_manager.go:27-48 | for timestamps stored as decimal text, validity is exactly `cachedAt <= now && expiresOn > now + 300` |
| TokenCache.ExpiryBoundary | src/internal/tokencache/cache_manager.go:33-47 | expiry at now + 300 is invalid and at now + 301 valid; a token cached one second in the future is invalid; an unparsable timestamp makes a token invalid |
| TokenCache.WrittenTokenValidity | src/internal/tokencache/cache_manager.go:114-126 | the access token the write path builds, cached at now, passes the validity check iff its expiry exceeds now + 300 (int64 sum) |
| TokenCache.ReadCacheOutcome | src/internal/tokencache/cache_manager.go:54-86 | a resolver error is returned verbatim and an empty key fails, both with no storage call; past the guard the read succeeds; its access token is the stored one iff that one is valid, else none; the refresh-token lookup uses the app metadata's family id or ""; the five reads, in order, all use the full alias list |
| TokenCache.FamilyIdOf | src/internal/tokencache/cache_manager.go:76-82 | the family id for the refresh-token lookup, the app metadata's or "" without one; no contract of its own, its use is stated by `ReadCacheOutcome` |
| TokenCache.CacheManager.TryReadCache | src/internal/tokencache/cache_manager.go:54-86 | the result and the calls appended to the storage log are those of `ReadCacheOutcome` |
| TokenCache.CacheManager.GetAllAccounts | src/internal/tokencache/cache_manager.go:50-52 | returns the store's account list, with one read call logged |
| TokenCache.CacheManager.constructor | src/internal/tokencache/cache_manager.go:22-25 | the manager holds the given storage port |
| TokenCache.PlannedWrites | src/internal/tokencache/cache_manager.go:106-163 | the writes the write path intends, head then tail; no contract of its own, its content is stated by `PlannedWritesSpec`, `PlannedWritesInOrder` and `PlannedWritesKeyed` |
| TokenCache.PlanHead | src/internal/tokencache/cache_manager.go:106-132 | the refresh-token write when the response has one, then the access-token write when it has a fresh one; stated by `PlannedWritesSpec` |
| TokenCache.PlanTail | src/internal/tokencache/cache_manager.go:134-163 | the ID-token, account and app-metadata writes, always made; stated by `PlannedWritesSpec` |
| TokenCache.RunWrites | src/internal/tokencache/cache_manager.go:106-167 | issues the planned writes in order and stops at the first failure other than the ID token's; no contract of its own, stated by `RunWritesPrefix`, `RunWritesPassed` and `RunWritesInOrder` |
| TokenCache.CacheTokenResponseOutcome | src/internal/tokencache/cache_manager.go:88-170 | the write path's result and storage calls; no contract of its own, stated by `CacheTokenResponseSpec` |
| TokenCache.PlannedWritesSpec | src/internal/tokencache/cache_manager.go:106-163 | the plan has the refresh-token write iff the response has a refresh token, the access-token write iff it has a fresh access token, always the ID-token, account and app-metadata writes, and is in that order |
| TokenCache.PlannedWritesInOrder | src/internal/tokencache/cache_manager.go:106-163 | every plan has that shape and each write ranks strictly after the one before |
| TokenCache.PlannedWritesKeyed | src/internal/tokencache/cache_manager.go:91-96 | every planned write is keyed by the home account id from the response and by the request's host, realm and client id |
| TokenCache.WriteOrderIsStrict | src/internal/tokencache/cache_manager.go:106-167 | in writes in the fixed order, no kind of write occurs twice and an earlier write ranks before every later one |
| TokenCache.RunWritesPrefix | src/internal/tokencache/cache_manager.go:106-167 | the writes issued are a prefix of the plan; all of it unless a write other than the ID token's failed, whose error is reported |
| TokenCache.RunWritesPassed | src/internal/tokencache/cache_manager.go:134-141 | every write before the last went through or was the ID token's |
| TokenCache.RunWritesInOrder | src/internal/tokencache/cache_manager.go:106-169 | for a plan in order, the run issues writes in order; it reports no error iff it issued the whole plan with no failure other than the ID token's |
| TokenCache.RunWritesStopsAt | src/internal/tokencache/cache_manager.go:108-130 | after writes that went through, a failing write other than the ID token's ends the run with its error, and nothing later is issued |
| TokenCache.RunWritesIssues | src/internal/tokencache/cache_manager.go:106-131 | after writes that went through, the next write is issued |
| TokenCache.CacheTokenResponseSpec | src/internal/tokencache/cache_manager.go:88-170 | an empty key fails with no storage call; the calls are a prefix of the plan, in order; success iff the whole plan was issued and no write other than the ID token's failed, and it returns the account built from the response; a failure is the verbatim error of the last write |
| TokenCache.RefreshWriteStops | src/internal/tokencache/cache_manager.go:106-112 | a failing refresh-token write ends the write path with its error after that single write |
| TokenCache.AccessWriteStops | src/internal/tokencache/cache_manager.go:114-131 | a failing access-token write ends the write path with its error; nothing after it is written and nothing before it is undone |
| TokenCache.TailWrites | src/internal/tokencache/cache_manager.go:134-169 | once the refresh and access tokens went through, the ID-token write's reply does not matter; a failing account or app-metadata write is returned; otherwise the account is returned |
| TokenCache.HeadPassed | src/internal/tokencache/cache_manager.go:106-132 | the refresh-token and access-token writes went through when each of them, if issued, did |
| TokenCache.AccessTokenWrittenIff | src/internal/tokencache/cache_manager.go:104-131 | past the guard and a refresh-token write that went through, the access token is written iff the response has one with `expiresOn > now + 300` |
| TokenCache.StaleAccessTokenSkipped | src/internal/tokencache/cache_manager.go:114-131 | a response whose access token is not fresh gives the same result and the same storage calls as that response without an access token: the stale token is skipped and causes no error |
| TokenCache.AccessTokenWrittenOnlyIfFresh | src/internal/tokencache/cache_manager.go:114-131 | an access-token write happens only for a response with a fresh access token |
| TokenCache.AccessTokenWrittenIfFresh | src/internal/tokencache/cache_manager.go:104-131 | a fresh access token is written once the refresh-token write went through |
| TokenCache.WrittenAccessTokenIsRead | src/internal/tokencache/cache_manager.go:69-74 | an access token the write path wrote, when the store returns it to the read path, is handed out as long as it expires after the reading time + 300 |
| TokenCache.CacheManager.CacheTokenResponse | src/internal/tokencache/cache_manager.go:88-170 | the request's home account id becomes the response's; the result and the calls appended to the log are those of `CacheTokenResponseOutcome` |
| TokenCache.CacheManager.WriteResponseTokens | src/internal/tokencache/cache_manager.go:104-132 | a failure is the write path's failure with its calls; otherwise exactly the refresh-token and access-token writes of the plan were issued and went through |
| TokenCache.DeleteRefreshTokenOutcome | src/internal/tokencache/cache_manager.go:184-198 | an empty key fails with the "primary keys is empty" error and no call; otherwise one delete filtered to refresh tokens, and no error whatever the store answers |
| TokenCache.CacheManager.DeleteRefreshToken | src/internal/tokencache/cache_manager.go:184-198 | the result and calls are those of `DeleteRefreshTokenOutcome` |
| TokenCache.CacheManager.DeleteCachedRefreshToken | src/internal/tokencache/cache_manager.go:172-199 | always fails with the "primary keys is empty" error and makes no storage call, because the home account id and environment are fixed to "" |
| TokenCache.DeleteAccessTokenOutcome | src/internal/tokencache/cache_manager.go:201-217 | no key guard; exactly one delete filtered to access tokens; an error iff the store reports one, and then that error verbatim; a non-success status is not an error |
| TokenCache.CacheManager.DeleteCachedAccessToken | src/internal/tokencache/cache_manager.go:201-217 | the result and calls are those of `DeleteAccessTokenOutcome` |
| Strconv.ParseFormatRoundTrip | src/internal/tokencache/cache_manager.go:28-38 | the base-10 parse reads back every int64 written as decimal text |
| Strconv.FormatInt | src/internal/tokencache/cache_manager.go:117-125 | the decimal text an access token's timestamps are stored as; no contract of its own, `ParseFormatRoundTrip` states that it reads back |
| Strconv.ParseInt64 | src/internal/tokencache/cache_manager.go:28-42 | a parse succeeds only on a non-empty optional sign followed by digits, and a leading minus gives a value <= 0 |
| Strconv.AddInt64Congruent | src/internal/tokencache/cache_manager.go:43 | the int64 sum `now + 300` equals the exact sum modulo 2^64 |
| Strconv.DigitsRoundTrip | src/internal/tokencache/cache_manager.go:28-38 | the decimal digits of a natural number read back to that number |
| CacheItems.CreateAccessTokenCacheItem | src/internal/tokencache/cache_manager.go:117-125 | builds the access token record, storing each int64 timestamp as its decimal text; no contract of its own, `CreatedTimestampsParse` states that the timestamps read back |
| CacheItems.CreatedTimestampsParse | src/internal/tokencache/cache_manager.go:117-125 | the timestamps of a built access token parse back to the int64 values given |
| Msalbase.ConcatenateScopes | src/internal/tokencache/cache_manager.go:96 | the target is empty iff there are no granted scopes or the only one is empty |

## Left out

- Logging (every `log.*` call) is left out: it has no effect on results or storage.
- The clock is the parameter `now`. The source reads the clock twice, at lines 33 and 104.
  The model uses one value for both, so within one call "now" is the same instant.
- `IsAccessTokenValid`: the function carries no `ensures` of its own. What it means is
  stated by `TokenValidityIff`, `FormattedTokenValidity` and `ExpiryBoundary`.
- TokenValidityIff, FormattedTokenValidity, AccessTokenWrittenIff: state the rule only for
  `now <= MaxInt64 - 300`. Above that, `now + 300` wraps in Go. The model computes the wrap
  (`AddInt64`), but the plain iff does not hold there.
- Instance discovery (`CreateAadInstanceDiscovery`, `GetMetadataEntry`) is a network call.
  Its result, a list of aliases or an error, is the parameter `instanceDiscovery` of
  `TryReadCache`.
- The storage back end's matching of aliases and scopes, persistence and serialisation
  are not shown. Each storage call is answered by a fixed `Responses` function, so a read
  does not reflect an earlier write. `WrittenAccessTokenIsRead` takes the read's answer as
  a hypothesis instead.
- `strconv.ParseInt` is modelled for base 10 only, and every error is folded into `None`.
  Go's error values are not modelled.
- Helpers whose source is not part of this model become plain record constructors or
  input fields:
  - `GetHomeAccountIDFromClientInfo` is the response field `homeAccountId`;
  - the ID token's claims are fields of `IdToken`;
  - `HasAccessToken` and `HasRefreshToken` mean a non-empty token;
  - `ConcatenateScopes` joins with single spaces;
  - `CreateAccessTokenCacheItem` stores its int64 timestamps as decimal text.
- The unused `cacheAccessAspect` field is left out.
- Concurrency is left out; nothing in the shown code synchronises.
- TokenCache.CacheManager.CacheTokenResponse: lines 104-132 are the separate method
  `WriteResponseTokens`, which keeps the calls in the same order. The dead check
  `if err != nil` at line 139 is kept and proved unreachable.
- TokenCache.CacheManager.DeleteCachedRefreshToken: its unreachable tail, lines 189-198,
  is `DeleteRefreshToken` taking the two keys as parameters, so its behaviour is stated too.
