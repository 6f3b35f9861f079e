/** The credential records kept in the token cache, and how the write path builds them. */
module CacheItems {
  import opened Wrappers
  import opened Strconv
  import opened Msalbase

  /** An access token. The three timestamps are decimal strings of Unix seconds. */
  datatype AccessTokenCacheItem = AccessTokenCacheItem(
    homeAccountId: string,
    environment: string,
    realm: string,
    clientId: string,
    cachedAt: string,
    expiresOn: string,
    extendedExpiresOn: string,
    target: string,
    secret: string)

  /** A refresh token; a non-empty family id shares it across the family's clients. */
  datatype RefreshTokenCacheItem = RefreshTokenCacheItem(
    homeAccountId: string,
    environment: string,
    clientId: string,
    secret: string,
    familyId: string)

  datatype IdTokenCacheItem = IdTokenCacheItem(
    homeAccountId: string,
    environment: string,
    realm: string,
    clientId: string,
    secret: string)

  /** The side table from a client id to the family it belongs to. */
  datatype AppMetadata = AppMetadata(familyId: string, clientId: string, environment: string)

  /** The combined answer of the read path; any part may be absent. */
  datatype StorageTokenResponse = StorageTokenResponse(
    accessToken: Option<AccessTokenCacheItem>,
    refreshToken: Option<RefreshTokenCacheItem>,
    idToken: Option<IdTokenCacheItem>,
    account: Option<Account>)

  function CreateRefreshTokenCacheItem(homeAccountId: string, environment: string, clientId: string,
                                       secret: string, familyId: string): RefreshTokenCacheItem
  {
    RefreshTokenCacheItem(homeAccountId, environment, clientId, secret, familyId)
  }

  /** Builds an access token record, storing each int64 timestamp as its decimal text. */
  function CreateAccessTokenCacheItem(homeAccountId: string, environment: string, realm: string,
                                      clientId: string, cachedAt: Int64, expiresOn: Int64,
                                      extendedExpiresOn: Int64, target: string,
                                      secret: string): AccessTokenCacheItem
  {
    AccessTokenCacheItem(homeAccountId, environment, realm, clientId, FormatInt(cachedAt),
                         FormatInt(expiresOn), FormatInt(extendedExpiresOn), target, secret)
  }

  /** The timestamps of a built access token parse back to exactly the values given. */
  lemma CreatedTimestampsParse(homeAccountId: string, environment: string, realm: string,
                               clientId: string, cachedAt: Int64, expiresOn: Int64,
                               extendedExpiresOn: Int64, target: string, secret: string)
    ensures var item := CreateAccessTokenCacheItem(homeAccountId, environment, realm, clientId, cachedAt,
                                                   expiresOn, extendedExpiresOn, target, secret);
            && ParseInt64(item.cachedAt) == Some(cachedAt)
            && ParseInt64(item.expiresOn) == Some(expiresOn)
            && ParseInt64(item.extendedExpiresOn) == Some(extendedExpiresOn)
  {
    ParseFormatRoundTrip(cachedAt);
    ParseFormatRoundTrip(expiresOn);
    ParseFormatRoundTrip(extendedExpiresOn);
  }

  function CreateIdTokenCacheItem(homeAccountId: string, environment: string, realm: string,
                                  clientId: string, secret: string): IdTokenCacheItem
  {
    IdTokenCacheItem(homeAccountId, environment, realm, clientId, secret)
  }

  function CreateAppMetadata(familyId: string, clientId: string, environment: string): AppMetadata
  {
    AppMetadata(familyId, clientId, environment)
  }
}
