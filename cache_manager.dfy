/** The cache manager: the validity rule for cached access tokens, the read path
    (resolve from cache), the write path (persist a token response) and the two
    deletion operations, each stated as a pure outcome (result and storage calls)
    and implemented by a method on a class holding the storage port. */
module TokenCache {
  import opened Wrappers
  import opened Strconv
  import opened Msalbase
  import opened CacheItems
  import opened Storage

  const ReadKeysEmptyMessage := "Skipping the tokens cache lookup, one of the primary keys is empty"
  const WriteKeysEmptyMessage := "Skipping writing data to the tokens cache, one of the primary keys is empty"
  const DeleteKeysEmptyMessage := "Failed to delete refresh token from the cache, one of the primary keys is empty"

  /** Seconds before its expiry at which a cached access token is no longer handed out. */
  const ExpiryBufferSeconds := 300

  // ---------------------------------------------------------------------------
  // Validity of a cached access token

  /** Fails closed: both timestamps must parse as base-10 int64, the token must not be
      cached in the future, and it must expire strictly later than now plus the buffer
      (the sum computed as Go's int64 addition does). */
  function IsAccessTokenValid(accessToken: AccessTokenCacheItem, now: Int64): bool
  {
    match ParseInt64(accessToken.cachedAt)
    case None => false
    case Some(cachedAt) =>
      if cachedAt > now then false
      else
        match ParseInt64(accessToken.expiresOn)
        case None => false
        case Some(expiresOn) => !(expiresOn <= AddInt64(now, ExpiryBufferSeconds))
  }

  /** Away from the int64 limit, a token is valid exactly when both timestamps parse,
      it was not cached after now, and it expires later than now + 300. */
  lemma TokenValidityIff(accessToken: AccessTokenCacheItem, now: Int64)
    requires now <= MaxInt64 - ExpiryBufferSeconds
    ensures IsAccessTokenValid(accessToken, now) <==>
              && ParseInt64(accessToken.cachedAt).Some?
              && ParseInt64(accessToken.expiresOn).Some?
              && ParseInt64(accessToken.cachedAt).value <= now
              && ParseInt64(accessToken.expiresOn).value > now + ExpiryBufferSeconds
  {
  }

  /** For a token whose timestamps are the decimal text of int64 values, and a clock
      far enough from the int64 limit, validity is exactly the two comparisons. */
  lemma FormattedTokenValidity(accessToken: AccessTokenCacheItem, cachedAt: Int64, expiresOn: Int64, now: Int64)
    requires accessToken.cachedAt == FormatInt(cachedAt)
    requires accessToken.expiresOn == FormatInt(expiresOn)
    requires now <= MaxInt64 - ExpiryBufferSeconds
    ensures IsAccessTokenValid(accessToken, now) <==> cachedAt <= now && expiresOn > now + ExpiryBufferSeconds
  {
    ParseFormatRoundTrip(cachedAt);
    ParseFormatRoundTrip(expiresOn);
  }

  /** A token cached now that expires exactly at now + 300 is already invalid; one
      second later it is valid; a token cached in the future is never valid. */
  lemma ExpiryBoundary(accessToken: AccessTokenCacheItem, now: Int64)
    requires now <= MaxInt64 - ExpiryBufferSeconds - 1
    ensures accessToken.cachedAt == FormatInt(now) && accessToken.expiresOn == FormatInt(now + 300)
            ==> !IsAccessTokenValid(accessToken, now)
    ensures accessToken.cachedAt == FormatInt(now) && accessToken.expiresOn == FormatInt(now + 301)
            ==> IsAccessTokenValid(accessToken, now)
    ensures accessToken.cachedAt == FormatInt(now + 1) ==> !IsAccessTokenValid(accessToken, now)
    // a timestamp that does not parse makes the token invalid
    ensures ParseInt64(accessToken.cachedAt).None? || ParseInt64(accessToken.expiresOn).None?
            ==> !IsAccessTokenValid(accessToken, now)
  {
    ParseFormatRoundTrip(now);
    ParseFormatRoundTrip(now + 1);
    ParseFormatRoundTrip(now + 300);
    ParseFormatRoundTrip(now + 301);
  }

  // ---------------------------------------------------------------------------
  // Outcomes: what an operation returns and which storage calls it makes, in order

  datatype Outcome<T> = Outcome(result: T, calls: seq<Call>)

  predicate ReadKeysPresent(homeAccountId: string, aliases: seq<string>, realm: string,
                            clientId: string, scopes: seq<string>)
  {
    homeAccountId != "" && |aliases| > 0 && realm != "" && clientId != "" && |scopes| > 0
  }

  /** The family id a refresh-token lookup uses: the app metadata's, or "" without one. */
  function FamilyIdOf(appMetadata: Option<AppMetadata>): string {
    if appMetadata.None? then "" else appMetadata.value.familyId
  }

  /** The read path. The alias resolver's answer is consulted before the key guard. */
  function ReadCacheOutcome(homeAccountId: string, realm: string, clientId: string, scopes: seq<string>,
                            instanceDiscovery: Result<seq<string>, Error>, responses: Responses,
                            now: Int64): (out: Outcome<Result<StorageTokenResponse, Error>>)
    // a resolver failure is returned verbatim, with no storage call
    ensures instanceDiscovery.Failure? ==> out == Outcome(Failure(instanceDiscovery.error), [])
    // an empty primary key fails with no storage call
    ensures instanceDiscovery.Success? && !ReadKeysPresent(homeAccountId, instanceDiscovery.value, realm, clientId, scopes)
            ==> out == Outcome(Failure(PrimaryKeysEmpty(ReadKeysEmptyMessage)), [])
    // past the guard the read always succeeds: absent or invalid entities are None
    ensures out.result.Success? <==>
            instanceDiscovery.Success? && ReadKeysPresent(homeAccountId, instanceDiscovery.value, realm, clientId, scopes)
    ensures out.result.Success? ==>
      var aliases := instanceDiscovery.value;
      var found := out.result.value;
      var stored := responses.readAccessToken(homeAccountId, aliases, realm, clientId, scopes);
      var familyId := FamilyIdOf(responses.readAppMetadata(aliases, clientId));
      && (found.accessToken.Some? <==> stored.Some? && IsAccessTokenValid(stored.value, now))
      && (found.accessToken.Some? ==> found.accessToken == stored)
      && found.idToken == responses.readIdToken(homeAccountId, aliases, realm, clientId)
      && found.refreshToken == responses.readRefreshToken(homeAccountId, aliases, familyId, clientId)
      && found.account == responses.readAccount(homeAccountId, aliases, realm)
      && out.calls == [AccessTokenRead(homeAccountId, aliases, realm, clientId, scopes),
                       IdTokenRead(homeAccountId, aliases, realm, clientId),
                       AppMetadataRead(aliases, clientId),
                       RefreshTokenRead(homeAccountId, aliases, familyId, clientId),
                       AccountRead(homeAccountId, aliases, realm)]
    // every call is a read over the whole alias list
    ensures forall c | c in out.calls :: !c.IsWrite() && c.environments == instanceDiscovery.value
  {
    match instanceDiscovery
    case Failure(e) => Outcome(Failure(e), [])
    case Success(aliases) =>
      if !ReadKeysPresent(homeAccountId, aliases, realm, clientId, scopes) then
        Outcome(Failure(PrimaryKeysEmpty(ReadKeysEmptyMessage)), [])
      else
        var stored := responses.readAccessToken(homeAccountId, aliases, realm, clientId, scopes);
        var accessToken := if stored.Some? && !IsAccessTokenValid(stored.value, now) then None else stored;
        var idToken := responses.readIdToken(homeAccountId, aliases, realm, clientId);
        var appMetadata := responses.readAppMetadata(aliases, clientId);
        var familyId := FamilyIdOf(appMetadata);
        var refreshToken := responses.readRefreshToken(homeAccountId, aliases, familyId, clientId);
        var account := responses.readAccount(homeAccountId, aliases, realm);
        Outcome(Success(StorageTokenResponse(accessToken, refreshToken, idToken, account)),
                [AccessTokenRead(homeAccountId, aliases, realm, clientId, scopes),
                 IdTokenRead(homeAccountId, aliases, realm, clientId),
                 AppMetadataRead(aliases, clientId),
                 RefreshTokenRead(homeAccountId, aliases, familyId, clientId),
                 AccountRead(homeAccountId, aliases, realm)])
  }

  predicate WriteKeysPresent(authorityInfo: AuthorityInfo, clientId: string, tokenResponse: TokenResponse) {
    && tokenResponse.homeAccountId != ""
    && authorityInfo.host != ""
    && authorityInfo.userRealmUriPrefix != ""
    && clientId != ""
    && ConcatenateScopes(tokenResponse.grantedScopes) != ""
  }

  /** The position of each kind of write in the write path's fixed order. */
  function WriteRank(call: Call): nat {
    match call
    case RefreshTokenWrite(_) => 0
    case AccessTokenWrite(_) => 1
    case IdTokenWrite(_) => 2
    case AccountWrite(_) => 3
    case AppMetadataWrite(_) => 4
    case _ => 5
  }

  /** Each write ranks strictly after the one before it. */
  predicate InWriteOrder(calls: seq<Call>) {
    |calls| <= 1 || (WriteRank(calls[0]) < WriteRank(calls[1]) && InWriteOrder(calls[1..]))
  }

  /** In a sequence of writes in order every earlier write ranks before every later one,
      so no kind of write occurs twice. */
  lemma {:induction false} WriteOrderIsStrict(calls: seq<Call>, i: nat, j: nat)
    requires InWriteOrder(calls)
    requires i < j < |calls|
    ensures WriteRank(calls[i]) < WriteRank(calls[j])
  {
    if i == 0 {
      if j > 1 {
        WriteOrderIsStrict(calls[1..], 0, j - 1);
      }
    } else {
      WriteOrderIsStrict(calls[1..], i - 1, j - 1);
    }
  }

  /** A prefix of writes in order is in order. */
  lemma {:induction false} PrefixInWriteOrder(calls: seq<Call>, n: nat)
    requires InWriteOrder(calls)
    requires n <= |calls|
    ensures InWriteOrder(calls[..n])
  {
    if n > 1 {
      PrefixInWriteOrder(calls[1..], n - 1);
      assert calls[..n][1..] == calls[1..][..n - 1];
    }
  }

  /** The write is keyed by the given home account id, environment, realm and client id
      (as far as its kind of record carries them). */
  predicate WrittenUnder(call: Call, homeAccountId: string, environment: string, realm: string, clientId: string) {
    match call
    case RefreshTokenWrite(t) => t.homeAccountId == homeAccountId && t.environment == environment && t.clientId == clientId
    case AccessTokenWrite(t) =>
      t.homeAccountId == homeAccountId && t.environment == environment && t.realm == realm && t.clientId == clientId
    case IdTokenWrite(t) =>
      t.homeAccountId == homeAccountId && t.environment == environment && t.realm == realm && t.clientId == clientId
    case AccountWrite(a) => a.homeAccountId == homeAccountId && a.environment == environment && a.realm == realm
    case AppMetadataWrite(m) => m.environment == environment && m.clientId == clientId
    case _ => false
  }

  /** The access token record the write path builds, cached at `now`. */
  function AccessTokenToWrite(authorityInfo: AuthorityInfo, clientId: string, tokenResponse: TokenResponse,
                              now: Int64): AccessTokenCacheItem
  {
    CreateAccessTokenCacheItem(tokenResponse.homeAccountId, authorityInfo.host, authorityInfo.userRealmUriPrefix,
                               clientId, now, tokenResponse.expiresOn, tokenResponse.extExpiresOn,
                               ConcatenateScopes(tokenResponse.grantedScopes), tokenResponse.accessToken)
  }

  /** The response's access token outlives now plus the buffer (the sum in int64). */
  predicate AccessTokenFresh(tokenResponse: TokenResponse, now: Int64) {
    tokenResponse.expiresOn > AddInt64(now, ExpiryBufferSeconds)
  }

  /** The access token the write path builds, cached at now, passes the validity rule
      exactly when the response's expiry is fresh: the write path's validity check
      reduces to one comparison. */
  lemma WrittenTokenValidity(authorityInfo: AuthorityInfo, clientId: string, tokenResponse: TokenResponse,
                             now: Int64)
    ensures IsAccessTokenValid(AccessTokenToWrite(authorityInfo, clientId, tokenResponse, now), now)
            <==> AccessTokenFresh(tokenResponse, now)
  {
    ParseFormatRoundTrip(now);
    ParseFormatRoundTrip(tokenResponse.expiresOn);
  }

  function RefreshTokenToWrite(authorityInfo: AuthorityInfo, clientId: string,
                               tokenResponse: TokenResponse): RefreshTokenCacheItem
  {
    CreateRefreshTokenCacheItem(tokenResponse.homeAccountId, authorityInfo.host, clientId,
                                tokenResponse.refreshToken, tokenResponse.familyId)
  }

  function AccountToWrite(authorityInfo: AuthorityInfo, tokenResponse: TokenResponse): Account {
    Account(tokenResponse.homeAccountId, authorityInfo.host, authorityInfo.userRealmUriPrefix,
            tokenResponse.idToken.localAccountId, authorityInfo.authorityType,
            tokenResponse.idToken.preferredUsername)
  }

  /** The writes the write path intends, in its fixed order: the refresh token when the
      response has one, the access token when the response has one and it is valid at
      `now`, then always the ID token, the account and the app metadata. */
  function PlannedWrites(authorityInfo: AuthorityInfo, clientId: string, tokenResponse: TokenResponse,
                         now: Int64): seq<Call>
  {
    PlanHead(authorityInfo, clientId, tokenResponse, now) + PlanTail(authorityInfo, clientId, tokenResponse)
  }

  /** The writes that depend on the response: the refresh token, then the access token. */
  function PlanHead(authorityInfo: AuthorityInfo, clientId: string, tokenResponse: TokenResponse,
                    now: Int64): seq<Call>
  {
    var refreshWrite := RefreshTokenWrite(RefreshTokenToWrite(authorityInfo, clientId, tokenResponse));
    var accessWrite := AccessTokenWrite(AccessTokenToWrite(authorityInfo, clientId, tokenResponse, now));
    (if tokenResponse.HasRefreshToken() then [refreshWrite] else [])
    + (if tokenResponse.HasAccessToken() && AccessTokenFresh(tokenResponse, now) then [accessWrite] else [])
  }

  /** The writes always made: the ID token, the account and the app metadata. */
  function PlanTail(authorityInfo: AuthorityInfo, clientId: string, tokenResponse: TokenResponse): seq<Call>
  {
    var environment := authorityInfo.host;
    [IdTokenWrite(CreateIdTokenCacheItem(tokenResponse.homeAccountId, environment, authorityInfo.userRealmUriPrefix,
                                         clientId, tokenResponse.idToken.rawToken)),
     AccountWrite(AccountToWrite(authorityInfo, tokenResponse)),
     AppMetadataWrite(CreateAppMetadata(tokenResponse.familyId, clientId, environment))]
  }

  /** The plan holds the refresh-token write exactly when the response has a refresh
      token, the access-token write exactly when it has an access token that is fresh at
      `now`, and is in the fixed write order. */
  lemma PlannedWritesSpec(authorityInfo: AuthorityInfo, clientId: string, tokenResponse: TokenResponse,
                          now: Int64)
    ensures var plan := PlannedWrites(authorityInfo, clientId, tokenResponse, now);
            && PlanShape(plan) && InWriteOrder(plan)
            && (RefreshTokenWrite(RefreshTokenToWrite(authorityInfo, clientId, tokenResponse)) in plan
                <==> tokenResponse.HasRefreshToken())
            && (AccessTokenWrite(AccessTokenToWrite(authorityInfo, clientId, tokenResponse, now)) in plan
                <==> tokenResponse.HasAccessToken() && AccessTokenFresh(tokenResponse, now))
            && (forall c | c in plan && c.AccessTokenWrite? ::
                  c.accessToken == AccessTokenToWrite(authorityInfo, clientId, tokenResponse, now))
  {
    PlannedWritesInOrder(authorityInfo, clientId, tokenResponse, now);
  }

  /** Every plan has the fixed shape and is in the fixed write order. */
  lemma PlannedWritesInOrder(authorityInfo: AuthorityInfo, clientId: string, tokenResponse: TokenResponse,
                             now: Int64)
    ensures var plan := PlannedWrites(authorityInfo, clientId, tokenResponse, now);
            PlanShape(plan) && InWriteOrder(plan)
  {
    var plan := PlannedWrites(authorityInfo, clientId, tokenResponse, now);
    var head := PlanHead(authorityInfo, clientId, tokenResponse, now);
    assert plan[|head|..] == PlanTail(authorityInfo, clientId, tokenResponse);
    PlanShapeInOrder(plan);
  }

  /** The shape of every plan: at most a refresh-token write and then at most an
      access-token write, followed by the ID-token, account and app-metadata writes. */
  predicate PlanShape(plan: seq<Call>) {
    && 3 <= |plan| <= 5
    && plan[|plan| - 3].IdTokenWrite? && plan[|plan| - 2].AccountWrite? && plan[|plan| - 1].AppMetadataWrite?
    && (|plan| == 5 ==> plan[0].RefreshTokenWrite? && plan[1].AccessTokenWrite?)
    && (|plan| == 4 ==> plan[0].RefreshTokenWrite? || plan[0].AccessTokenWrite?)
  }

  /** Every plan of that shape is in the fixed write order. */
  lemma PlanShapeInOrder(plan: seq<Call>)
    requires PlanShape(plan)
    ensures InWriteOrder(plan)
  {
    var n := |plan|;
    var always := plan[n - 3..];
    assert InWriteOrder(always) by {
      assert always[1..] == plan[n - 2..];
      assert InWriteOrder(plan[n - 2..]);
    }
    if n == 5 {
      assert plan[1..][1..] == always;
      assert InWriteOrder(plan[1..]);
    } else if n == 4 {
      assert plan[1..] == always;
    }
  }

  /** Each planned write is keyed by the home account id taken from the response and by
      the request's environment, realm and client id. */
  lemma PlannedWritesKeyed(authorityInfo: AuthorityInfo, clientId: string,
                           tokenResponse: TokenResponse, now: Int64)
    ensures forall c | c in PlannedWrites(authorityInfo, clientId, tokenResponse, now) ::
              c.IsWrite() && WrittenUnder(c, tokenResponse.homeAccountId, authorityInfo.host,
                                          authorityInfo.userRealmUriPrefix, clientId)
  {
    var plan := PlannedWrites(authorityInfo, clientId, tokenResponse, now);
    PlannedWritesSpec(authorityInfo, clientId, tokenResponse, now);
    var home, environment, realm := tokenResponse.homeAccountId, authorityInfo.host, authorityInfo.userRealmUriPrefix;
    var accessToken := AccessTokenToWrite(authorityInfo, clientId, tokenResponse, now);
    assert WrittenUnder(AccessTokenWrite(accessToken), home, environment, realm, clientId);
    forall c | c in plan
      ensures c.IsWrite() && WrittenUnder(c, home, environment, realm, clientId)
    {
      if c.AccessTokenWrite? {
        assert c.accessToken == accessToken;
      }
    }
  }

  /** Issues the planned writes in order and stops at the first one that fails, other
      than an ID-token write, whose error is ignored. Nothing already written is undone. */
  function RunWrites(plan: seq<Call>, responses: Responses): Outcome<Option<Error>>
  {
    if plan == [] then Outcome(None, [])
    else
      var err := WriteReply(responses, plan[0]);
      if err.Some? && !plan[0].IdTokenWrite? then Outcome(err, [plan[0]])
      else
        var rest := RunWrites(plan[1..], responses);
        Outcome(rest.result, [plan[0]] + rest.calls)
  }

  /** The writes issued are a prefix of the plan; the run ends early only at a failing
      write other than the ID token's, whose error it reports. */
  lemma {:induction false} RunWritesPrefix(plan: seq<Call>, responses: Responses)
    ensures var out := RunWrites(plan, responses);
            && |out.calls| <= |plan| && out.calls == plan[..|out.calls|]
            && (out.result.None? ==> out.calls == plan)
            && (out.result.Some? ==>
                  && |out.calls| > 0
                  && !out.calls[|out.calls| - 1].IdTokenWrite?
                  && WriteReply(responses, out.calls[|out.calls| - 1]) == out.result)
  {
    if plan != [] {
      var err := WriteReply(responses, plan[0]);
      if !(err.Some? && !plan[0].IdTokenWrite?) {
        RunWritesPrefix(plan[1..], responses);
      }
    }
  }

  /** Every write before the last went through or was the ID token's, and so did the last
      one when the run reports no error. */
  lemma {:induction false} RunWritesPassed(plan: seq<Call>, responses: Responses)
    ensures var out := RunWrites(plan, responses);
            && (forall i | 0 <= i < |out.calls| - 1 ::
                  out.calls[i].IdTokenWrite? || WriteReply(responses, out.calls[i]).None?)
            && (out.result.None? ==>
                  forall c | c in out.calls :: c.IdTokenWrite? || WriteReply(responses, c).None?)
  {
    if plan != [] {
      var err := WriteReply(responses, plan[0]);
      if !(err.Some? && !plan[0].IdTokenWrite?) {
        RunWritesPassed(plan[1..], responses);
        var rest := RunWrites(plan[1..], responses);
        var calls := [plan[0]] + rest.calls;
        assert forall i | 1 <= i < |calls| :: calls[i] == rest.calls[i - 1];
      }
    }
  }

  /** A run of a plan in the fixed write order: its calls are a prefix of the plan, in
      order; it reports no error exactly when it issued the whole plan and every write went
      through or was the ID token's; an error is the reply to its last write. */
  lemma RunWritesInOrder(plan: seq<Call>, responses: Responses)
    requires InWriteOrder(plan)
    ensures var run := RunWrites(plan, responses);
            && |run.calls| <= |plan| && run.calls == plan[..|run.calls|]
            && InWriteOrder(run.calls)
            && (run.result.None? <==>
                  && run.calls == plan
                  && forall c | c in run.calls :: c.IdTokenWrite? || WriteReply(responses, c).None?)
            && (run.result.Some? ==>
                  && |run.calls| > 0
                  && !run.calls[|run.calls| - 1].IdTokenWrite?
                  && WriteReply(responses, run.calls[|run.calls| - 1]) == run.result
                  && forall i | 0 <= i < |run.calls| - 1 ::
                       run.calls[i].IdTokenWrite? || WriteReply(responses, run.calls[i]).None?)
  {
    var run := RunWrites(plan, responses);
    RunWritesPrefix(plan, responses);
    RunWritesPassed(plan, responses);
    PrefixInWriteOrder(plan, |run.calls|);
    if run.result.Some? {
      assert run.calls[|run.calls| - 1] in run.calls;
    }
  }

  /** The write path: the keys come from the response's home account id and the request;
      an empty key fails before any write; otherwise the planned writes are issued in order
      until one other than the ID token's fails, and the account is returned when none did. */
  function CacheTokenResponseOutcome(authorityInfo: AuthorityInfo, clientId: string, tokenResponse: TokenResponse,
                                     responses: Responses, now: Int64): Outcome<Result<Account, Error>>
  {
    if !WriteKeysPresent(authorityInfo, clientId, tokenResponse) then
      Outcome(Failure(PrimaryKeysEmpty(WriteKeysEmptyMessage)), [])
    else
      var run := RunWrites(PlannedWrites(authorityInfo, clientId, tokenResponse, now), responses);
      Outcome(if run.result.Some? then Failure(run.result.value)
              else Success(AccountToWrite(authorityInfo, tokenResponse)),
              run.calls)
  }

  /** What the write path promises about its storage calls and its result. */
  lemma CacheTokenResponseSpec(authorityInfo: AuthorityInfo, clientId: string, tokenResponse: TokenResponse,
                               responses: Responses, now: Int64)
    ensures var out := CacheTokenResponseOutcome(authorityInfo, clientId, tokenResponse, responses, now);
            var plan := PlannedWrites(authorityInfo, clientId, tokenResponse, now);
            var keys := WriteKeysPresent(authorityInfo, clientId, tokenResponse);
            // an empty primary key fails with no storage call
            && (!keys ==> out == Outcome(Failure(PrimaryKeysEmpty(WriteKeysEmptyMessage)), []))
            // the calls are a prefix of the plan, hence writes only, in the fixed order
            && |out.calls| <= |plan| && out.calls == plan[..|out.calls|]
            && InWriteOrder(out.calls)
            // success exactly when every planned write was issued and none but the ID token's failed
            && (out.result.Success? <==>
                  && keys
                  && out.calls == plan
                  && forall c | c in out.calls :: c.IdTokenWrite? || WriteReply(responses, c).None?)
            && (out.result.Success? ==> out.result.value == AccountToWrite(authorityInfo, tokenResponse))
            // a failure past the guard is the verbatim error of the last write issued, which
            // is not the ID token's; every write before it went through or was the ID token's
            && (out.result.Failure? && keys ==>
                  && |out.calls| > 0
                  && !out.calls[|out.calls| - 1].IdTokenWrite?
                  && WriteReply(responses, out.calls[|out.calls| - 1]) == Some(out.result.error)
                  && forall i | 0 <= i < |out.calls| - 1 ::
                       out.calls[i].IdTokenWrite? || WriteReply(responses, out.calls[i]).None?)
  {
    var plan := PlannedWrites(authorityInfo, clientId, tokenResponse, now);
    if WriteKeysPresent(authorityInfo, clientId, tokenResponse) {
      var out := CacheTokenResponseOutcome(authorityInfo, clientId, tokenResponse, responses, now);
      var run := RunWrites(plan, responses);
      assert out.calls == run.calls;
      assert out.result.Success? <==> run.result.None?;
      assert out.result.Failure? ==> Some(out.result.error) == run.result;
      PlannedWritesInOrder(authorityInfo, clientId, tokenResponse, now);
      RunWritesInOrder(plan, responses);
    }
  }

  /** Every write of `calls` went through or was the ID token's. */
  predicate AllPassed(responses: Responses, calls: seq<Call>) {
    calls == [] || ((calls[0].IdTokenWrite? || WriteReply(responses, calls[0]).None?) && AllPassed(responses, calls[1..]))
  }

  /** A run whose first writes all went through continues with the rest of the plan. */
  lemma {:induction false} RunWritesAfter(done: seq<Call>, rest: seq<Call>, responses: Responses)
    requires AllPassed(responses, done)
    ensures RunWrites(done + rest, responses)
            == Outcome(RunWrites(rest, responses).result, done + RunWrites(rest, responses).calls)
  {
    if done != [] {
      var plan := done + rest;
      assert plan[0] == done[0] && plan[1..] == done[1..] + rest;
      RunWritesAfter(done[1..], rest, responses);
      var tailRun := RunWrites(plan[1..], responses);
      assert RunWrites(plan, responses) == Outcome(tailRun.result, [done[0]] + tailRun.calls);
      assert [done[0]] + (done[1..] + RunWrites(rest, responses).calls) == done + RunWrites(rest, responses).calls;
    } else {
      assert done + rest == rest;
    }
  }

  /** The write path, past its guard, stops at a failing refresh-token write. */
  lemma RefreshWriteStops(authorityInfo: AuthorityInfo, clientId: string, tokenResponse: TokenResponse,
                          responses: Responses, now: Int64)
    requires WriteKeysPresent(authorityInfo, clientId, tokenResponse)
    requires tokenResponse.HasRefreshToken()
    requires responses.writeRefreshToken(RefreshTokenToWrite(authorityInfo, clientId, tokenResponse)).Some?
    ensures var refreshToken := RefreshTokenToWrite(authorityInfo, clientId, tokenResponse);
            CacheTokenResponseOutcome(authorityInfo, clientId, tokenResponse, responses, now)
            == Outcome(Failure(responses.writeRefreshToken(refreshToken).value), [RefreshTokenWrite(refreshToken)])
  {
    var refreshWrite := RefreshTokenWrite(RefreshTokenToWrite(authorityInfo, clientId, tokenResponse));
    var rest := PlannedWrites(authorityInfo, clientId, tokenResponse, now)[1..];
    assert PlannedWrites(authorityInfo, clientId, tokenResponse, now) == [] + [refreshWrite] + rest;
    RunWritesStopsAt([], refreshWrite, rest, responses);
  }

  /** A run whose first writes all went through stops at a failing write other than the
      ID token's, and reports its error. */
  lemma RunWritesStopsAt(done: seq<Call>, x: Call, rest: seq<Call>, responses: Responses)
    requires AllPassed(responses, done)
    requires !x.IdTokenWrite? && WriteReply(responses, x).Some?
    ensures RunWrites(done + [x] + rest, responses) == Outcome(WriteReply(responses, x), done + [x])
  {
    assert done + [x] + rest == done + ([x] + rest);
    RunWritesAfter(done, [x] + rest, responses);
    assert ([x] + rest)[0] == x;
  }

  /** The write path, past its guard and a refresh-token write that went through, stops
      at a failing access-token write, having issued exactly the head of the plan. */
  lemma AccessWriteStops(authorityInfo: AuthorityInfo, clientId: string, tokenResponse: TokenResponse,
                         responses: Responses, now: Int64)
    requires WriteKeysPresent(authorityInfo, clientId, tokenResponse)
    requires tokenResponse.HasRefreshToken() ==>
               responses.writeRefreshToken(RefreshTokenToWrite(authorityInfo, clientId, tokenResponse)).None?
    requires tokenResponse.HasAccessToken() && AccessTokenFresh(tokenResponse, now)
    requires responses.writeAccessToken(AccessTokenToWrite(authorityInfo, clientId, tokenResponse, now)).Some?
    ensures var accessToken := AccessTokenToWrite(authorityInfo, clientId, tokenResponse, now);
            CacheTokenResponseOutcome(authorityInfo, clientId, tokenResponse, responses, now)
            == Outcome(Failure(responses.writeAccessToken(accessToken).value),
                       PlanHead(authorityInfo, clientId, tokenResponse, now))
  {
    var head := PlanHead(authorityInfo, clientId, tokenResponse, now);
    var tail := PlanTail(authorityInfo, clientId, tokenResponse);
    var refreshWrite := RefreshTokenWrite(RefreshTokenToWrite(authorityInfo, clientId, tokenResponse));
    var accessWrite := AccessTokenWrite(AccessTokenToWrite(authorityInfo, clientId, tokenResponse, now));
    var done: seq<Call> := if tokenResponse.HasRefreshToken() then [refreshWrite] else [];
    assert head == done + [accessWrite];
    assert AllPassed(responses, done) by {
      if done != [] {
        assert done[1..] == [];
      }
    }
    RunWritesStopsAt(done, accessWrite, tail, responses);
  }

  /** Once the head of the plan has gone through, the outcome is decided by the
      account and app-metadata writes; the ID token's reply does not matter. */
  lemma TailWrites(authorityInfo: AuthorityInfo, clientId: string, tokenResponse: TokenResponse,
                   responses: Responses, now: Int64)
    requires WriteKeysPresent(authorityInfo, clientId, tokenResponse)
    requires tokenResponse.HasRefreshToken() ==>
               responses.writeRefreshToken(RefreshTokenToWrite(authorityInfo, clientId, tokenResponse)).None?
    requires tokenResponse.HasAccessToken() && AccessTokenFresh(tokenResponse, now) ==>
               responses.writeAccessToken(AccessTokenToWrite(authorityInfo, clientId, tokenResponse, now)).None?
    ensures var head := PlanHead(authorityInfo, clientId, tokenResponse, now);
            var tail := PlanTail(authorityInfo, clientId, tokenResponse);
            var out := CacheTokenResponseOutcome(authorityInfo, clientId, tokenResponse, responses, now);
            var accountReply := responses.writeAccount(AccountToWrite(authorityInfo, tokenResponse));
            var appMetadataReply :=
              responses.writeAppMetadata(CreateAppMetadata(tokenResponse.familyId, clientId, authorityInfo.host));
            && (accountReply.Some? ==> out == Outcome(Failure(accountReply.value), head + tail[..2]))
            && (accountReply.None? && appMetadataReply.Some? ==>
                  out == Outcome(Failure(appMetadataReply.value), head + tail))
            && (accountReply.None? && appMetadataReply.None? ==>
                  out == Outcome(Success(AccountToWrite(authorityInfo, tokenResponse)), head + tail))
  {
    var head := PlanHead(authorityInfo, clientId, tokenResponse, now);
    var tail := PlanTail(authorityInfo, clientId, tokenResponse);
    HeadPassed(authorityInfo, clientId, tokenResponse, responses, now);
    RunWritesAfter(head, tail, responses);
    RunThree(tail[0], tail[1], tail[2], responses);
    assert tail == [tail[0], tail[1], tail[2]];
    assert tail[..2] == [tail[0], tail[1]];
  }

  /** The head of the plan went through when its refresh-token and access-token writes did. */
  lemma HeadPassed(authorityInfo: AuthorityInfo, clientId: string, tokenResponse: TokenResponse,
                   responses: Responses, now: Int64)
    requires tokenResponse.HasRefreshToken() ==>
               responses.writeRefreshToken(RefreshTokenToWrite(authorityInfo, clientId, tokenResponse)).None?
    requires tokenResponse.HasAccessToken() && AccessTokenFresh(tokenResponse, now) ==>
               responses.writeAccessToken(AccessTokenToWrite(authorityInfo, clientId, tokenResponse, now)).None?
    ensures AllPassed(responses, PlanHead(authorityInfo, clientId, tokenResponse, now))
  {
    var head := PlanHead(authorityInfo, clientId, tokenResponse, now);
    if |head| == 2 {
      assert head[1..][1..] == [];
    } else if |head| == 1 {
      assert head[1..] == [];
    }
  }

  /** A run of an ID-token write followed by two other writes. */
  lemma RunThree(a: Call, b: Call, c: Call, responses: Responses)
    requires a.IdTokenWrite? && !b.IdTokenWrite? && !c.IdTokenWrite?
    ensures RunWrites([a, b, c], responses)
            == if WriteReply(responses, b).Some? then Outcome(WriteReply(responses, b), [a, b])
               else if WriteReply(responses, c).Some? then Outcome(WriteReply(responses, c), [a, b, c])
               else Outcome(None, [a, b, c])
  {
    assert [a, b, c][1..] == [b, c] && [b, c][1..] == [c] && [c][1..] == [];
    assert RunWrites([c], responses) == if WriteReply(responses, c).Some? then Outcome(WriteReply(responses, c), [c])
                                        else Outcome(None, [c]);
  }

  /** Regrouping a log that grew by two, then three, single calls. Kept as lemmas rather
      than inline assertions: stated inside CacheTokenResponse the same facts make that
      method's proof about three times as costly. */
  lemma AppendTwo(log: seq<Call>, head: seq<Call>, x: Call, y: Call)
    ensures log + head + [x] + [y] == log + (head + [x, y])
  {
  }

  lemma AppendThree(log: seq<Call>, head: seq<Call>, x: Call, y: Call, z: Call)
    ensures log + head + [x] + [y] + [z] == log + (head + [x, y, z])
  {
  }

  /** A run whose first writes all went through issues the next write. */
  lemma RunWritesIssues(done: seq<Call>, x: Call, rest: seq<Call>, responses: Responses)
    requires AllPassed(responses, done)
    ensures x in RunWrites(done + [x] + rest, responses).calls
  {
    assert done + [x] + rest == done + ([x] + rest);
    RunWritesAfter(done, [x] + rest, responses);
    assert ([x] + rest)[0] == x;
    var calls := RunWrites(done + [x] + rest, responses).calls;
    assert calls[|done|] == x;
  }

  /** Once the keys are present and the refresh-token write (if any) went through, the
      access token is written exactly when the response has one that expires later than
      now + 300; an expired one is skipped, not reported as an error. */
  lemma AccessTokenWrittenIff(authorityInfo: AuthorityInfo, clientId: string, tokenResponse: TokenResponse,
                              responses: Responses, now: Int64)
    requires WriteKeysPresent(authorityInfo, clientId, tokenResponse)
    requires tokenResponse.HasRefreshToken() ==>
               responses.writeRefreshToken(RefreshTokenToWrite(authorityInfo, clientId, tokenResponse)).None?
    requires now <= MaxInt64 - ExpiryBufferSeconds
    ensures AccessTokenWrite(AccessTokenToWrite(authorityInfo, clientId, tokenResponse, now))
              in CacheTokenResponseOutcome(authorityInfo, clientId, tokenResponse, responses, now).calls
            <==> tokenResponse.HasAccessToken() && tokenResponse.expiresOn > now + ExpiryBufferSeconds
  {
    AccessTokenWrittenOnlyIfFresh(authorityInfo, clientId, tokenResponse, responses, now);
    if tokenResponse.HasAccessToken() && tokenResponse.expiresOn > now + ExpiryBufferSeconds {
      AccessTokenWrittenIfFresh(authorityInfo, clientId, tokenResponse, responses, now);
    }
  }

  /** A response whose access token is not fresh is cached exactly as if it had none:
      the stale token is skipped, and the result and the calls are unchanged, so no
      error arises from it. */
  lemma StaleAccessTokenSkipped(authorityInfo: AuthorityInfo, clientId: string, tokenResponse: TokenResponse,
                                responses: Responses, now: Int64)
    requires !AccessTokenFresh(tokenResponse, now)
    ensures CacheTokenResponseOutcome(authorityInfo, clientId, tokenResponse, responses, now)
            == CacheTokenResponseOutcome(authorityInfo, clientId, tokenResponse.(accessToken := ""), responses, now)
  {
    var stripped := tokenResponse.(accessToken := "");
    assert PlannedWrites(authorityInfo, clientId, tokenResponse, now)
           == PlannedWrites(authorityInfo, clientId, stripped, now);
  }

  /** The access token is written only when the response has one that is fresh. */
  lemma AccessTokenWrittenOnlyIfFresh(authorityInfo: AuthorityInfo, clientId: string,
                                      tokenResponse: TokenResponse, responses: Responses, now: Int64)
    requires WriteKeysPresent(authorityInfo, clientId, tokenResponse)
    ensures AccessTokenWrite(AccessTokenToWrite(authorityInfo, clientId, tokenResponse, now))
              in CacheTokenResponseOutcome(authorityInfo, clientId, tokenResponse, responses, now).calls
            ==> tokenResponse.HasAccessToken() && AccessTokenFresh(tokenResponse, now)
  {
    var plan := PlannedWrites(authorityInfo, clientId, tokenResponse, now);
    var write := AccessTokenWrite(AccessTokenToWrite(authorityInfo, clientId, tokenResponse, now));
    var run := RunWrites(plan, responses);
    RunWritesPrefix(plan, responses);
    if write in run.calls {
      var i :| 0 <= i < |run.calls| && run.calls[i] == write;
      assert plan[i] == write;
      PlannedWritesSpec(authorityInfo, clientId, tokenResponse, now);
    }
  }

  /** Once the refresh-token write (if any) went through, a fresh access token is written. */
  lemma AccessTokenWrittenIfFresh(authorityInfo: AuthorityInfo, clientId: string,
                                  tokenResponse: TokenResponse, responses: Responses, now: Int64)
    requires WriteKeysPresent(authorityInfo, clientId, tokenResponse)
    requires tokenResponse.HasRefreshToken() ==>
               responses.writeRefreshToken(RefreshTokenToWrite(authorityInfo, clientId, tokenResponse)).None?
    requires tokenResponse.HasAccessToken() && AccessTokenFresh(tokenResponse, now)
    ensures AccessTokenWrite(AccessTokenToWrite(authorityInfo, clientId, tokenResponse, now))
              in CacheTokenResponseOutcome(authorityInfo, clientId, tokenResponse, responses, now).calls
  {
    var head := PlanHead(authorityInfo, clientId, tokenResponse, now);
    var tail := PlanTail(authorityInfo, clientId, tokenResponse);
    var refreshWrite := RefreshTokenWrite(RefreshTokenToWrite(authorityInfo, clientId, tokenResponse));
    var accessWrite := AccessTokenWrite(AccessTokenToWrite(authorityInfo, clientId, tokenResponse, now));
    var done: seq<Call> := if tokenResponse.HasRefreshToken() then [refreshWrite] else [];
    assert head == done + [accessWrite];
    assert AllPassed(responses, done) by {
      if done != [] {
        assert done[1..] == [];
      }
    }
    RunWritesIssues(done, accessWrite, tail, responses);
  }

  /** Write-then-read: if the write path stored its access token and the storage later
      answers the read path's lookup with that record, the read path returns it for as
      long as it expires later than the reading time plus 300 seconds. */
  lemma WrittenAccessTokenIsRead(authorityInfo: AuthorityInfo, clientId: string, tokenResponse: TokenResponse,
                                 writeResponses: Responses, now: Int64, aliases: seq<string>,
                                 scopes: seq<string>, readResponses: Responses, later: Int64)
    requires AccessTokenWrite(AccessTokenToWrite(authorityInfo, clientId, tokenResponse, now))
               in CacheTokenResponseOutcome(authorityInfo, clientId, tokenResponse, writeResponses, now).calls
    requires |aliases| > 0 && |scopes| > 0
    requires readResponses.readAccessToken(tokenResponse.homeAccountId, aliases, authorityInfo.userRealmUriPrefix,
                                           clientId, scopes)
             == Some(AccessTokenToWrite(authorityInfo, clientId, tokenResponse, now))
    requires now <= later <= MaxInt64 - ExpiryBufferSeconds
    requires tokenResponse.expiresOn > later + ExpiryBufferSeconds
    ensures var out := ReadCacheOutcome(tokenResponse.homeAccountId, authorityInfo.userRealmUriPrefix, clientId,
                                        scopes, Success(aliases), readResponses, later);
            out.result.Success?
            && out.result.value.accessToken == Some(AccessTokenToWrite(authorityInfo, clientId, tokenResponse, now))
  {
    var accessToken := AccessTokenToWrite(authorityInfo, clientId, tokenResponse, now);
    CacheTokenResponseSpec(authorityInfo, clientId, tokenResponse, writeResponses, now);
    FormattedTokenValidity(accessToken, now, tokenResponse.expiresOn, later);
  }

  // ---------------------------------------------------------------------------
  // Deletion

  /** The refresh-token deletion for given keys: an empty key fails with no storage call;
      otherwise one DeleteCredentials call filtered to refresh tokens, whose error and
      whose non-success status are both absorbed. */
  function DeleteRefreshTokenOutcome(homeAccountId: string, environment: string, clientId: string,
                                     responses: Responses): (out: Outcome<Option<Error>>)
    ensures out.result.None? <==> homeAccountId != "" && environment != "" && clientId != ""
    ensures out.result.Some? ==> out == Outcome(Some(PrimaryKeysEmpty(DeleteKeysEmptyMessage)), [])
    ensures out.result.None? ==>
              out.calls == [CredentialsDelete(DeleteRequest("", homeAccountId, environment, "", clientId, "", "",
                                                            {Oauth2RefreshToken}))]
  {
    if homeAccountId == "" || environment == "" || clientId == "" then
      Outcome(Some(PrimaryKeysEmpty(DeleteKeysEmptyMessage)), [])
    else
      var request := DeleteRequest("", homeAccountId, environment, "", clientId, "", "", {Oauth2RefreshToken});
      match responses.deleteCredentials(request)
      case Failure(_) => Outcome(None, [CredentialsDelete(request)])
      case Success(status) =>
        // a non-success status is only logged
        Outcome(None, [CredentialsDelete(request)])
  }

  /** The access-token deletion: no key guard; one DeleteCredentials call filtered to
      access tokens; a storage error is returned verbatim, a non-success status is not. */
  function DeleteAccessTokenOutcome(homeAccountId: string, environment: string, realm: string, clientId: string,
                                    target: string, responses: Responses): (out: Outcome<Option<Error>>)
    ensures var request := DeleteRequest("", homeAccountId, environment, realm, clientId, "", target,
                                         {Oauth2AccessToken});
            && out.calls == [CredentialsDelete(request)]
            && (out.result.Some? <==> responses.deleteCredentials(request).Failure?)
            && (out.result.Some? ==> out.result.value == responses.deleteCredentials(request).error)
  {
    var request := DeleteRequest("", homeAccountId, environment, realm, clientId, "", target, {Oauth2AccessToken});
    match responses.deleteCredentials(request)
    case Failure(e) => Outcome(Some(e), [CredentialsDelete(request)])
    case Success(status) =>
      // a non-success status is only logged
      Outcome(None, [CredentialsDelete(request)])
  }

  // ---------------------------------------------------------------------------
  // The cache manager

  class CacheManager {
    const storage: StorageManager

    constructor (storage: StorageManager)
      ensures this.storage == storage
    {
      this.storage := storage;
    }

    method GetAllAccounts() returns (accounts: seq<Account>)
      modifies storage
      ensures accounts == storage.responses.allAccounts
      ensures storage.log == old(storage.log) + [AllAccountsRead]
    {
      accounts := storage.ReadAllAccounts();
    }

    /** Resolve from cache. The resolver's answer for the request's authority is the
        parameter `instanceDiscovery`; `now` is the current Unix time. */
    method TryReadCache(auth: AuthParameters, instanceDiscovery: Result<seq<string>, Error>, now: Int64)
      returns (r: Result<StorageTokenResponse, Error>)
      modifies storage
      ensures r == ReadCacheOutcome(auth.homeAccountId, auth.authorityInfo.userRealmUriPrefix, auth.clientId,
                                    auth.scopes, instanceDiscovery, storage.responses, now).result
      ensures storage.log == old(storage.log) +
                ReadCacheOutcome(auth.homeAccountId, auth.authorityInfo.userRealmUriPrefix, auth.clientId,
                                 auth.scopes, instanceDiscovery, storage.responses, now).calls
    {
      var homeAccountId := auth.homeAccountId;
      var realm := auth.authorityInfo.userRealmUriPrefix;
      var clientId := auth.clientId;
      var scopes := auth.scopes;
      if instanceDiscovery.Failure? {
        return Failure(instanceDiscovery.error);
      }
      var aliases := instanceDiscovery.value;
      if homeAccountId == "" || |aliases| == 0 || realm == "" || clientId == "" || |scopes| == 0 {
        return Failure(PrimaryKeysEmpty(ReadKeysEmptyMessage));
      }
      var accessToken := storage.ReadAccessToken(homeAccountId, aliases, realm, clientId, scopes);
      if accessToken.Some? {
        if !IsAccessTokenValid(accessToken.value, now) {
          accessToken := None;
        }
      }
      var idToken := storage.ReadIdToken(homeAccountId, aliases, realm, clientId);
      var familyId: string;
      var appMetadata := storage.ReadAppMetadata(aliases, clientId);
      if appMetadata.None? {
        familyId := "";
      } else {
        familyId := appMetadata.value.familyId;
      }
      var refreshToken := storage.ReadRefreshToken(homeAccountId, aliases, familyId, clientId);
      var account := storage.ReadAccount(homeAccountId, aliases, realm);
      return Success(StorageTokenResponse(accessToken, refreshToken, idToken, account));
    }

    /** Persist a token response; `now` is the current Unix time. The request's home
        account id is overwritten, in place, with the one derived from the response. */
    method CacheTokenResponse(auth: AuthParameters, tokenResponse: TokenResponse, now: Int64)
      returns (r: Result<Account, Error>)
      modifies storage, auth
      ensures auth.homeAccountId == tokenResponse.homeAccountId
      ensures r == CacheTokenResponseOutcome(auth.authorityInfo, auth.clientId, tokenResponse,
                                             storage.responses, now).result
      ensures storage.log == old(storage.log) +
                CacheTokenResponseOutcome(auth.authorityInfo, auth.clientId, tokenResponse,
                                          storage.responses, now).calls
    {
      var err: Option<Error> := None;
      auth.homeAccountId := tokenResponse.homeAccountId;
      var homeAccountId := auth.homeAccountId;
      var environment := auth.authorityInfo.host;
      var realm := auth.authorityInfo.userRealmUriPrefix;
      var clientId := auth.clientId;
      var target := ConcatenateScopes(tokenResponse.grantedScopes);
      if homeAccountId == "" || environment == "" || realm == "" || clientId == "" || target == "" {
        return Failure(PrimaryKeysEmpty(WriteKeysEmptyMessage));
      }
      var cachedAt := now;

      err := WriteResponseTokens(auth.authorityInfo, clientId, tokenResponse, target, cachedAt);
      if err.Some? {
        return Failure(err.value);
      }

      ghost var responses := storage.responses;
      ghost var head := PlanHead(auth.authorityInfo, clientId, tokenResponse, now);
      ghost var tail := PlanTail(auth.authorityInfo, clientId, tokenResponse);
      var idToken := CreateIdTokenCacheItem(homeAccountId, environment, realm, clientId,
                                            tokenResponse.idToken.rawToken);
      var account := Account(homeAccountId, environment, realm, tokenResponse.idToken.localAccountId,
                             auth.authorityInfo.authorityType, tokenResponse.idToken.preferredUsername);
      var appMetadata := CreateAppMetadata(tokenResponse.familyId, clientId, environment);
      assert account == AccountToWrite(auth.authorityInfo, tokenResponse);
      assert tail == [IdTokenWrite(idToken), AccountWrite(account), AppMetadataWrite(appMetadata)];
      TailWrites(auth.authorityInfo, clientId, tokenResponse, responses, now);

      var _ := storage.WriteIdToken(idToken);

      if err.Some? {
        // never taken: every write that set err to an error has already returned
        assert false;
      }

      err := storage.WriteAccount(account);
      if err.Some? {
        AppendTwo(old(storage.log), head, tail[0], tail[1]);
        assert tail[..2] == [tail[0], tail[1]];
        return Failure(err.value);
      }

      err := storage.WriteAppMetadata(appMetadata);
      AppendThree(old(storage.log), head, tail[0], tail[1], tail[2]);
      assert tail == [tail[0], tail[1], tail[2]];
      if err.Some? {
        return Failure(err.value);
      }
      return Success(account);
    }

    /** The refresh-token and access-token writes of the write path, past its key guard:
        the refresh token when the response has one, then the access token when the
        response has one that is valid at `cachedAt`; the first failure is returned. */
    method WriteResponseTokens(authorityInfo: AuthorityInfo, clientId: string, tokenResponse: TokenResponse,
                               target: string, cachedAt: Int64) returns (err: Option<Error>)
      requires WriteKeysPresent(authorityInfo, clientId, tokenResponse)
      requires target == ConcatenateScopes(tokenResponse.grantedScopes)
      modifies storage
      ensures err.Some? ==>
                var out := CacheTokenResponseOutcome(authorityInfo, clientId, tokenResponse, storage.responses,
                                                     cachedAt);
                out.result == Failure(err.value) && storage.log == old(storage.log) + out.calls
      ensures err.None? ==>
                && storage.log == old(storage.log) + PlanHead(authorityInfo, clientId, tokenResponse, cachedAt)
                && (tokenResponse.HasRefreshToken() ==>
                      storage.responses.writeRefreshToken(RefreshTokenToWrite(authorityInfo, clientId,
                                                                              tokenResponse)).None?)
                && (tokenResponse.HasAccessToken() && AccessTokenFresh(tokenResponse, cachedAt) ==>
                      storage.responses.writeAccessToken(AccessTokenToWrite(authorityInfo, clientId, tokenResponse,
                                                                            cachedAt)).None?)
    {
      var homeAccountId := tokenResponse.homeAccountId;
      var environment := authorityInfo.host;
      var realm := authorityInfo.userRealmUriPrefix;
      if tokenResponse.HasRefreshToken() {
        var refreshToken := CreateRefreshTokenCacheItem(homeAccountId, environment, clientId,
                                                        tokenResponse.refreshToken, tokenResponse.familyId);
        err := storage.WriteRefreshToken(refreshToken);
        if err.Some? {
          RefreshWriteStops(authorityInfo, clientId, tokenResponse, storage.responses, cachedAt);
          return err;
        }
      }

      if tokenResponse.HasAccessToken() {
        var accessToken := CreateAccessTokenCacheItem(homeAccountId, environment, realm, clientId, cachedAt,
                                                      tokenResponse.expiresOn, tokenResponse.extExpiresOn,
                                                      target, tokenResponse.accessToken);
        WrittenTokenValidity(authorityInfo, clientId, tokenResponse, cachedAt);
        if IsAccessTokenValid(accessToken, cachedAt) {
          err := storage.WriteAccessToken(accessToken);
          if err.Some? {
            AccessWriteStops(authorityInfo, clientId, tokenResponse, storage.responses, cachedAt);
            return err;
          }
        }
      }
      return None;
    }

    /** The body of the refresh-token deletion for given keys. */
    method DeleteRefreshToken(homeAccountId: string, environment: string, clientId: string)
      returns (err: Option<Error>)
      modifies storage
      ensures err == DeleteRefreshTokenOutcome(homeAccountId, environment, clientId, storage.responses).result
      ensures storage.log == old(storage.log) +
                DeleteRefreshTokenOutcome(homeAccountId, environment, clientId, storage.responses).calls
    {
      if homeAccountId == "" || environment == "" || clientId == "" {
        return Some(PrimaryKeysEmpty(DeleteKeysEmptyMessage));
      }
      var reply := storage.DeleteCredentials(DeleteRequest("", homeAccountId, environment, "", clientId, "", "",
                                                           {Oauth2RefreshToken}));
      if reply.Failure? {
        return None;
      }
      if reply.value.statusType != StatusSuccess {
        // only logged
      }
      return None;
    }

    /** Delete the cached refresh token. The home account id and the environment are
        fixed to "", so the key guard always fails and nothing is deleted. */
    method DeleteCachedRefreshToken(auth: AuthParameters) returns (err: Option<Error>)
      modifies storage
      ensures err == Some(PrimaryKeysEmpty(DeleteKeysEmptyMessage))
      ensures storage.log == old(storage.log)
    {
      var homeAccountId := "";
      var environment := "";
      err := DeleteRefreshToken(homeAccountId, environment, auth.clientId);
    }

    method DeleteCachedAccessToken(homeAccountId: string, environment: string, realm: string, clientId: string,
                                   target: string) returns (err: Option<Error>)
      modifies storage
      ensures err == DeleteAccessTokenOutcome(homeAccountId, environment, realm, clientId, target,
                                              storage.responses).result
      ensures storage.log == old(storage.log) +
                DeleteAccessTokenOutcome(homeAccountId, environment, realm, clientId, target,
                                         storage.responses).calls
    {
      var reply := storage.DeleteCredentials(DeleteRequest("", homeAccountId, environment, realm, clientId, "",
                                                           target, {Oauth2AccessToken}));
      if reply.Failure? {
        return Some(reply.error);
      }
      if reply.value.statusType != StatusSuccess {
        // only logged
      }
      return None;
    }
  }
}
